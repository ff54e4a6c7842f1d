/**
 * The capability interface a host application implements to plug into the
 * LTI views (`AbstractApplicationHookManager`). Two capabilities are
 * abstract and must be supplied by every manager; three have inherited
 * defaults that a manager may override.
 */
module Hooks {
  import opened LtiBase

  /**
   * Where a response redirects to. `Resolve(path)` stands for the opaque
   * value of Django's `resolve(path)`, which the default anonymous redirect
   * hands to the redirect response; `Location(url)` is a literal location.
   */
  datatype Target = Resolve(name: string) | Location(url: string)

  /** A defaulted capability: the inherited behaviour, or the manager's own. */
  datatype Override<+T> = Inherited | Overridden(impl: T)

  /** The keyword arguments passed to the authentication hook. */
  type HookData = map<string, Option<string>>

  /** The argument the inherited `anonymous_redirect_to` passes to `resolve`. */
  const LtiViewName: string := "lti"

  datatype HookManager = HookManager(
    /** `authentication_hook`: the principal it logs in, if any. */
    authenticate: HookData -> Option<User>,
    /** `authenticated_redirect_to` */
    authenticatedRedirect: ParamMap -> Target,
    /** `anonymous_redirect_to` */
    anonymousRedirect: Override<ParamMap -> Target>,
    /** `vary_by_key` */
    varyBy: Override<ParamMap -> Option<string>>,
    /** `optional_lti_parameters` */
    optionalParameters: Override<map<string, string>>)
  {
    /** The redirect for a launch that arrived before the user was authenticated. */
    function AnonymousRedirectTo(ltiData: ParamMap): (t: Target)
      ensures anonymousRedirect.Inherited? ==> t == Resolve(LtiViewName)
      ensures anonymousRedirect.Overridden? ==> t == anonymousRedirect.impl(ltiData)
    {
      match anonymousRedirect
      case Inherited => Resolve(LtiViewName)
      case Overridden(f) => f(ltiData)
    }

    /** The key that records are varied by, besides the user. */
    function VaryByKey(ltiData: ParamMap): (k: Option<string>)
      ensures varyBy.Inherited? ==> k == None
    {
      match varyBy
      case Inherited => None
      case Overridden(f) => f(ltiData)
    }

    /** Extra LTI parameters the manager accepts, mapped to their hook names. */
    function OptionalLtiParameters(): (m: map<string, string>)
      ensures optionalParameters.Inherited? ==> m == map[]
    {
      match optionalParameters
      case Inherited => map[]
      case Overridden(m) => m
    }

    /**
     * The `custom_key` a launch is stored under: the vary key with an
     * absent key read as the empty string, so that the composite unique
     * key never holds a NULL.
     */
    function CustomKey(ltiData: ParamMap): (key: string)
      ensures VaryByKey(ltiData).Some? ==> key == VaryByKey(ltiData).value
      ensures VaryByKey(ltiData).None? ==> key == ""
      ensures varyBy.Inherited? ==> key == ""
    {
      match VaryByKey(ltiData)
      case None => ""
      case Some(k) => k
    }
  }

  /** A manager that overrides none of the defaulted capabilities. */
  predicate UsesDefaults(m: HookManager)
  {
    m.anonymousRedirect.Inherited? && m.varyBy.Inherited? && m.optionalParameters.Inherited?
  }

  /**
   * The inherited defaults: the anonymous redirect ignores the launch
   * data, there is no vary key (one record per user) and there are no
   * optional parameters.
   */
  lemma DefaultCapabilities(m: HookManager, a: ParamMap, b: ParamMap)
    requires UsesDefaults(m)
    ensures m.AnonymousRedirectTo(a) == m.AnonymousRedirectTo(b) == Resolve(LtiViewName)
    ensures m.VaryByKey(a) == None && m.CustomKey(a) == m.CustomKey(b) == ""
    ensures m.OptionalLtiParameters() == map[]
  {
  }

  /**
   * An absent vary key and an explicitly empty one address the same record:
   * for uniqueness they cannot be told apart.
   */
  lemma AbsentVaryKeyIsEmptyString(m1: HookManager, m2: HookManager, p: ParamMap)
    requires m1.VaryByKey(p) == None && m2.VaryByKey(p) == Some("")
    ensures m1.CustomKey(p) == m2.CustomKey(p) == ""
  {
  }
}
