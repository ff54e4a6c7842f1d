/**
 * `LTIView`: the launch endpoint. A launch is verified, the host's
 * authentication hook may log a user in, and then the launch parameters
 * are either stashed in the session until the user has logged in, or
 * stored against `(user, custom_key)` with a "received" notification and
 * a redirect into the application.
 *
 * The pure functions below specify each step over a `World` value; the
 * class `LtiView` performs the same steps by updating its fields.
 */
module Views {
  import opened LtiBase
  import opened Hooks
  import opened Models
  import opened Signals

  /** The session entry that carries a launch across the login detour. */
  const SessionKey: string := "lti_parameters"

  const InvalidRequestPrefix: string := "Invalid LTI Request: "

  /** A launch freshly posted by the consumer carries a result sourced id. */
  const NewLaunchMarker: string := "lis_result_sourcedid"

  /** `sub` occurs in `s` at position `i`. */
  predicate OccursAt(s: string, sub: string, i: nat)
  {
    i + |sub| <= |s| && s[i..i + |sub|] == sub
  }

  /** Substring test (`sub in s` on Python strings). */
  function Contains(s: string, sub: string): (b: bool)
    ensures b <==> exists i: nat :: OccursAt(s, sub, i)
    decreases |s|
  {
    if |s| < |sub| then false
    else if s[..|sub|] == sub then assert OccursAt(s, sub, 0); true
    else
      var b := Contains(s[1..], sub);
      assert forall i: nat :: OccursAt(s[1..], sub, i) ==> OccursAt(s, sub, i + 1);
      assert forall i: nat :: OccursAt(s, sub, i) ==> i >= 1 && OccursAt(s[1..], sub, i - 1);
      b
  }

  /** OAuth protocol fields: every key that contains "oauth". */
  predicate IsOauthKey(key: string)
  {
    Contains(key, "oauth")
  }

  /** `lti_param_filter`: drop the OAuth protocol fields, keep the rest as they are. */
  function LtiParamFilter(p: ParamMap): (r: ParamMap)
    ensures forall k :: k in r <==> k in p && !IsOauthKey(k)
    ensures forall k :: k in r ==> r[k] == p[k]
  {
    map k | k in p && !IsOauthKey(k) :: p[k]
  }

  /**
   * The keyword arguments of the authentication hook (`PASS_TO_AUTHENTICATION_HOOK`):
   * `lis_person_sourcedid` is passed as `username`,
   * `lis_person_contact_email_primary` as `email` and `user_id` as itself,
   * each the launch's value or None when absent.
   */
  function AuthenticationHookData(p: ParamMap): (d: HookData)
    ensures d.Keys == {"username", "email", "user_id"}
    ensures d["username"] == Get(p, "lis_person_sourcedid")
    ensures d["email"] == Get(p, "lis_person_contact_email_primary")
    ensures d["user_id"] == Get(p, "user_id")
  {
    map["username" := Get(p, "lis_person_sourcedid"),
        "email" := Get(p, "lis_person_contact_email_primary"),
        "user_id" := Get(p, "user_id")]
  }

  /** The `Signals.LTI.received` notification. */
  datatype Received = Received(user: User, record: Record)

  /**
   * Everything a launch can observe or change: the request's user (None
   * when anonymous), its session, the record table, the notifications sent
   * and the calls made to the authentication hook.
   */
  datatype World = World(
    user: Option<User>,
    session: map<string, ParamMap>,
    records: RecordTable,
    received: seq<Received>,
    hookCalls: seq<HookData>)

  /**
   * An inbound request: its POST fields and what OAuth verification of it
   * gives (the full parameter map, or the verifier's error detail).
   */
  datatype Request = Request(post: ParamMap, verification: Result<ParamMap>)

  /** An exception raised by the record store's get-or-create lookup. */
  datatype StoreFault = NoFault | RaisesValueError | RaisesAttributeError | RaisesOther(name: string)

  datatype ViewError = ImproperlyConfigured | Uncaught(name: string)

  datatype Response = BadRequest(body: string) | Redirect(to: Target) | Raised(error: ViewError)

  function InvalidRequest(detail: string): Response
  {
    BadRequest(InvalidRequestPrefix + detail)
  }

  /**
   * `_is_new_lti_request`: judged on the raw POST fields alone, before and
   * whatever the verification of the request gives.
   */
  function IsNewLtiRequest(req: Request): (b: bool)
    ensures b <==> "lis_result_sourcedid" in req.post
  {
    NewLaunchMarker in req.post
  }

  /** The key a launch's filtered parameters are stored under. */
  function KeyFor(mgr: HookManager, u: User, filtered: ParamMap): RecordKey
  {
    RecordKey(u, mgr.CustomKey(filtered))
  }

  /** Django's `logout`: the user becomes anonymous and the session is flushed. */
  function LoggedOut(w: World): World
  {
    w.(user := None, session := map[])
  }

  /** The verdict of `_right_user`, or the exception it lets through. */
  datatype UserCheck = RightUser | WrongUser | CheckRaisedAttributeError | CheckRaised(name: string)

  /**
   * `_right_user`: get-or-create the record for the launch. A created row
   * holds only its key; its parameters are the field default, the empty
   * map. A record that had to be created, or a `ValueError`, means the
   * logged-in user is not the one launching.
   */
  function RightUserResult(mgr: HookManager, table: RecordTable, u: User, params: ParamMap, fault: StoreFault)
    : (r: (RecordTable, UserCheck))
    ensures var key := KeyFor(mgr, u, LtiParamFilter(params));
      && (r.1 == RightUser <==> fault == NoFault && key in table)
      && (r.1 == WrongUser <==> fault == RaisesValueError || (fault == NoFault && key !in table))
      && (r.1 == CheckRaisedAttributeError <==> fault == RaisesAttributeError)
      && (r.1.CheckRaised? <==> fault.RaisesOther?)
      && (r.1.CheckRaised? ==> r.1.name == fault.name)
      && (if fault == NoFault && key !in table then r.0 == table[key := map[]] else r.0 == table)
  {
    var filtered := LtiParamFilter(params);
    var key := KeyFor(mgr, u, filtered);
    match fault
    case NoFault =>
      if key in table then (table, RightUser) else (StoreParameters(table, key, map[]), WrongUser)
    case RaisesValueError => (table, WrongUser)
    case RaisesAttributeError => (table, CheckRaisedAttributeError)
    case RaisesOther(n) => (table, CheckRaised(n))
  }

  /**
   * The first step of `process_request` for a logged-in user: a launch
   * that verifies and belongs to someone else logs the user out;
   * verification errors and `AttributeError` are swallowed.
   */
  function PreCheckResult(mgr: HookManager, w: World, req: Request, fault: StoreFault)
    : (r: (World, Option<ViewError>))
    requires w.user.Some?
    ensures r.0.received == w.received && r.0.hookCalls == w.hookCalls
    ensures req.verification.Err? ==> r == (w, None)
    ensures r.0.user == w.user || (r.0.user.None? && r.0.session == map[])
    ensures r.0.user == w.user ==> r.0.session == w.session
    ensures r.1.Some? <==> req.verification.Ok? && fault.RaisesOther?
    ensures r.1.Some? ==> r == (w, Some(Uncaught(fault.name)))
  {
    match req.verification
    case Err(_) => (w, None)
    case Ok(params) =>
      var c := RightUserResult(mgr, w.records, w.user.value, params, fault);
      var w1 := w.(records := c.0);
      match c.1
      case RightUser => (w1, None)
      case WrongUser => (LoggedOut(w1), None)
      case CheckRaisedAttributeError => (w1, None)
      case CheckRaised(n) => (w1, Some(Uncaught(n)))
  }

  /** Calling the authentication hook, which may log a user in. */
  function AfterHook(mgr: HookManager, w: World, params: ParamMap): (r: World)
    ensures r.hookCalls == w.hookCalls + [AuthenticationHookData(params)]
    ensures mgr.authenticate(AuthenticationHookData(params)).Some? ==>
      r.user == mgr.authenticate(AuthenticationHookData(params))
    ensures mgr.authenticate(AuthenticationHookData(params)).None? ==> r.user == w.user
    ensures r.session == w.session && r.records == w.records && r.received == w.received
  {
    var data := AuthenticationHookData(params);
    var u := match mgr.authenticate(data) case Some(u) => Some(u) case None => w.user;
    w.(user := u, hookCalls := w.hookCalls + [data])
  }

  /** `process_anonymous_lti`: stash the full verified launch and send the user to log in. */
  function AnonymousResult(mgr: HookManager, w: World, req: Request): (r: (World, Response))
    ensures r.0.user == w.user && r.0.records == w.records
    ensures r.0.received == w.received && r.0.hookCalls == w.hookCalls
    ensures req.verification.Err? ==> r == (w, BadRequest(InvalidRequestPrefix + req.verification.detail))
    ensures req.verification.Ok? ==>
      r.0.session == w.session[SessionKey := req.verification.value] &&
      r.1 == Redirect(mgr.AnonymousRedirectTo(req.verification.value))
  {
    match req.verification
    case Err(d) => (w, InvalidRequest(d))
    case Ok(p) => (w.(session := w.session[SessionKey := p]), Redirect(mgr.AnonymousRedirectTo(p)))
  }

  /** Store the filtered launch for the user, notify, and redirect into the application. */
  function StoreResult(mgr: HookManager, w: World, p: ParamMap): (r: (World, Response))
    requires w.user.Some?
    ensures var u := w.user.value;
      var key := KeyFor(mgr, u, LtiParamFilter(p));
      && r.0.user == w.user && r.0.session == w.session && r.0.hookCalls == w.hookCalls
      && r.0.records == StoreParameters(w.records, key, LtiParamFilter(p))
      && r.0.received == w.received + [Received(u, Record(u, key.customKey, LtiParamFilter(p)))]
      && r.1 == Redirect(mgr.authenticatedRedirect(p))
  {
    var u := w.user.value;
    var filtered := LtiParamFilter(p);
    var key := KeyFor(mgr, u, filtered);
    (w.(records := StoreParameters(w.records, key, filtered),
        received := w.received + [Received(u, RowAt(StoreParameters(w.records, key, filtered), key))]),
     Redirect(mgr.authenticatedRedirect(p)))
  }

  /**
   * `process_authenticated_lti`: take the launch saved in the session when
   * this request is not itself a new launch (and clear it), otherwise
   * verify this request; then store, notify and redirect.
   */
  function AuthenticatedResult(mgr: HookManager, w: World, req: Request): (r: (World, Response))
    requires w.user.Some?
    ensures r.0.user == w.user && r.0.hookCalls == w.hookCalls
    ensures r.1.Redirect? || r.1.BadRequest?
    ensures r.1.BadRequest? <==> (SessionKey !in w.session || IsNewLtiRequest(req)) && req.verification.Err?
    ensures r.1.BadRequest? ==> r == (w, BadRequest(InvalidRequestPrefix + req.verification.detail))
    ensures r.1.Redirect? ==> |r.0.received| == |w.received| + 1
  {
    if SessionKey in w.session && !IsNewLtiRequest(req) then
      StoreResult(mgr, w.(session := w.session - {SessionKey}), w.session[SessionKey])
    else
      match req.verification
      case Err(d) => (w, InvalidRequest(d))
      case Ok(p) => StoreResult(mgr, w, p)
  }

  /** `process_request` */
  function ProcessResult(mgr: HookManager, w: World, req: Request, fault: StoreFault): (r: (World, Response))
    ensures r.1.Raised? <==> w.user.Some? && req.verification.Ok? && fault.RaisesOther?
    ensures r.1.Raised? ==> r == (w, Raised(Uncaught(fault.name)))
    ensures r.1.BadRequest? ==>
      req.verification.Err? && r == (w, BadRequest(InvalidRequestPrefix + req.verification.detail))
  {
    var pre := if w.user.Some? then PreCheckResult(mgr, w, req, fault) else (w, None);
    var w1 := pre.0;
    if pre.1.Some? then (w1, Raised(pre.1.value))
    else if w1.user.Some? then AuthenticatedResult(mgr, w1, req)
    else
      match req.verification
      case Err(d) => (w1, InvalidRequest(d))
      case Ok(p) =>
        var w2 := AfterHook(mgr, w1, p);
        if w2.user.Some? then AuthenticatedResult(mgr, w2, req) else AnonymousResult(mgr, w2, req)
  }

  /** `dispatch`: no request is processed until a manager is registered. */
  function DispatchResult(mgr: Option<HookManager>, w: World, req: Request, fault: StoreFault)
    : (r: (World, Response))
    ensures r.1 == Raised(ImproperlyConfigured) <==> mgr.None?
    ensures mgr.None? ==> r.0 == w
  {
    if mgr.None? then (w, Raised(ImproperlyConfigured)) else ProcessResult(mgr.value, w, req, fault)
  }

  /** The view, with the registered manager and the state one request works on. */
  class LtiView {
    var manager: Option<HookManager>
    var user: Option<User>
    var session: map<string, ParamMap>
    var records: RecordTable
    var received: seq<Received>
    var hookCalls: seq<HookData>

    function State(): World
      reads this
    {
      World(user, session, records, received, hookCalls)
    }

    constructor ()
      ensures manager == None && State() == World(None, map[], map[], [], [])
    {
      manager := None;
      user, session, records, received, hookCalls := None, map[], map[], [], [];
    }

    /** `register_authentication_manager` */
    method RegisterAuthenticationManager(m: HookManager)
      modifies this
      ensures manager == Some(m) && State() == old(State())
    {
      manager := Some(m);
    }

    method Dispatch(req: Request, fault: StoreFault) returns (resp: Response)
      modifies this
      ensures manager == old(manager)
      ensures (State(), resp) == DispatchResult(old(manager), old(State()), req, fault)
    {
      if manager == None {
        return Raised(ImproperlyConfigured);
      }
      resp := ProcessRequest(req, fault);
    }

    method ProcessRequest(req: Request, fault: StoreFault) returns (resp: Response)
      requires manager.Some?
      modifies this
      ensures manager == old(manager)
      ensures (State(), resp) == ProcessResult(manager.value, old(State()), req, fault)
    {
      if user.Some? {
        match req.verification {
          case Err(_) =>
          case Ok(params) =>
            var check := CheckUser(params, fault);
            match check {
              case WrongUser => Logout();
              case CheckRaised(n) => return Raised(Uncaught(n));
              case _ =>
            }
        }
      }
      if user.None? {
        match req.verification {
          case Err(d) => return InvalidRequest(d);
          case Ok(params) => AuthenticationHook(AuthenticationHookData(params));
        }
      }
      if user.Some? {
        resp := ProcessAuthenticatedLti(req);
      } else {
        resp := ProcessAnonymousLti(req);
      }
    }

    /** `_right_user`, with the get-or-create it performs on the record table. */
    method CheckUser(params: ParamMap, fault: StoreFault) returns (check: UserCheck)
      requires manager.Some? && user.Some?
      modifies this
      ensures manager == old(manager) && user == old(user) && session == old(session)
      ensures received == old(received) && hookCalls == old(hookCalls)
      ensures (records, check) == RightUserResult(manager.value, old(records), user.value, params, fault)
    {
      var filtered := LtiParamFilter(params);
      var key := KeyFor(manager.value, user.value, filtered);
      match fault {
        case NoFault =>
          if key in records {
            check := RightUser;
          } else {
            records := StoreParameters(records, key, map[]);
            check := WrongUser;
          }
        case RaisesValueError => check := WrongUser;
        case RaisesAttributeError => check := CheckRaisedAttributeError;
        case RaisesOther(n) => check := CheckRaised(n);
      }
    }

    method Logout()
      modifies this
      ensures manager == old(manager)
      ensures State() == LoggedOut(old(State()))
    {
      user := None;
      session := map[];
    }

    /** Calls the manager's `authentication_hook`, which may log a user in. */
    method AuthenticationHook(data: HookData)
      requires manager.Some?
      modifies this
      ensures manager == old(manager)
      ensures hookCalls == old(hookCalls) + [data]
      ensures user == (match manager.value.authenticate(data) case Some(u) => Some(u) case None => old(user))
      ensures session == old(session) && records == old(records) && received == old(received)
    {
      hookCalls := hookCalls + [data];
      var u := manager.value.authenticate(data);
      if u.Some? {
        user := u;
      }
    }

    method ProcessAnonymousLti(req: Request) returns (resp: Response)
      requires manager.Some?
      modifies this
      ensures manager == old(manager)
      ensures (State(), resp) == AnonymousResult(manager.value, old(State()), req)
    {
      match req.verification {
        case Err(d) => return InvalidRequest(d);
        case Ok(p) =>
          session := session[SessionKey := p];
          resp := Redirect(manager.value.AnonymousRedirectTo(p));
      }
    }

    method ProcessAuthenticatedLti(req: Request) returns (resp: Response)
      requires manager.Some? && user.Some?
      modifies this
      ensures manager == old(manager)
      ensures (State(), resp) == AuthenticatedResult(manager.value, old(State()), req)
    {
      var params: ParamMap;
      if SessionKey in session && !IsNewLtiRequest(req) {
        params := session[SessionKey];
        session := session - {SessionKey};
      } else {
        match req.verification {
          case Err(d) => return InvalidRequest(d);
          case Ok(p) => params := p;
        }
      }
      var u := user.value;
      var filtered := LtiParamFilter(params);
      var key := KeyFor(manager.value, u, filtered);
      records := StoreParameters(records, key, filtered);
      received := received + [Received(u, RowAt(records, key))];
      resp := Redirect(manager.value.authenticatedRedirect(params));
    }
  }

  // ---------------------------------------------------------------------
  // Properties of the launch state machine
  // ---------------------------------------------------------------------

  /** Filtering twice is filtering once. */
  lemma FilterIdempotent(p: ParamMap)
    ensures LtiParamFilter(LtiParamFilter(p)) == LtiParamFilter(p)
  {
  }

  /**
   * The proof device behind `FilterKeepsLaunchFields`: a key the filter
   * drops contains an 'a', and none of the six LTI launch fields it must
   * keep does.
   */
  lemma OauthKeyContainsA(k: string)
    ensures IsOauthKey(k) ==> 'a' in k
  {
    forall i: nat | OccursAt(k, "oauth", i)
      ensures 'a' in k
    {
      assert k[i + 1] == "oauth"[1];
    }
  }

  /**
   * The OAuth protocol fields of a signed launch are dropped, while the
   * LTI identity and outcome fields are kept unchanged.
   */
  lemma FilterKeepsLaunchFields(p: ParamMap)
    ensures forall k :: k in ["oauth_signature", "oauth_consumer_key", "oauth_nonce", "oauth_timestamp",
                              "oauth_signature_method", "oauth_version", "oauth_callback"]
                        ==> k !in LtiParamFilter(p)
    ensures forall k :: k in ["user_id", "roles", "context_id", "resource_link_id",
                              "lis_result_sourcedid", "lis_outcome_service_url"] && k in p ==>
                        k in LtiParamFilter(p) && LtiParamFilter(p)[k] == p[k]
  {
    forall k | k in ["oauth_signature", "oauth_consumer_key", "oauth_nonce", "oauth_timestamp",
                     "oauth_signature_method", "oauth_version", "oauth_callback"]
      ensures IsOauthKey(k)
    {
      assert OccursAt(k, "oauth", 0);
    }
    forall k | k in ["user_id", "roles", "context_id", "resource_link_id",
                     "lis_result_sourcedid", "lis_outcome_service_url"]
      ensures !IsOauthKey(k)
    {
      OauthKeyContainsA(k);
    }
  }

  /**
   * A launch that fails verification while nobody is logged in is answered
   * with 400 and the verifier's detail; the hook is not called and nothing
   * else changes.
   */
  lemma InvalidAnonymousLaunchRejected(mgr: HookManager, w: World, req: Request, fault: StoreFault)
    requires w.user.None? && req.verification.Err?
    ensures ProcessResult(mgr, w, req, fault) == (w, BadRequest(InvalidRequestPrefix + req.verification.detail))
  {
  }

  /**
   * A verified launch that the hook does not authenticate is stashed,
   * unfiltered, in the session; the user is sent to the anonymous
   * redirect and no record is written.
   */
  lemma AnonymousLaunchStashed(mgr: HookManager, w: World, req: Request, fault: StoreFault, p: ParamMap)
    requires w.user.None? && req.verification == Ok(p)
    requires mgr.authenticate(AuthenticationHookData(p)).None?
    ensures var r := ProcessResult(mgr, w, req, fault);
      && r.0.session == w.session[SessionKey := p]
      && r.0.user.None?
      && r.0.records == w.records && r.0.received == w.received
      && r.0.hookCalls == w.hookCalls + [AuthenticationHookData(p)]
      && r.1 == Redirect(mgr.AnonymousRedirectTo(p))
  {
  }

  /**
   * The hook is called at most once per request, and only ever with the
   * identity fields of the verified launch.
   */
  lemma HookSeesOnlyIdentity(mgr: HookManager, w: World, req: Request, fault: StoreFault)
    ensures var r := ProcessResult(mgr, w, req, fault);
      || r.0.hookCalls == w.hookCalls
      || (req.verification.Ok? &&
          r.0.hookCalls == w.hookCalls + [AuthenticationHookData(req.verification.value)])
  {
    var w1 := if w.user.Some? then PreCheckResult(mgr, w, req, fault).0 else w;
    assert w1.hookCalls == w.hookCalls;
    if w.user.Some? && PreCheckResult(mgr, w, req, fault).1.Some? {
    } else if w1.user.Some? {
      assert AuthenticatedResult(mgr, w1, req).0.hookCalls == w.hookCalls;
    } else if req.verification.Ok? {
      var p := req.verification.value;
      var w2 := AfterHook(mgr, w1, p);
      assert w2.hookCalls == w.hookCalls + [AuthenticationHookData(p)];
      if w2.user.Some? {
        assert AuthenticatedResult(mgr, w2, req).0.hookCalls == w2.hookCalls;
      } else {
        assert AnonymousResult(mgr, w2, req).0.hookCalls == w2.hookCalls;
      }
    }
  }

  /**
   * When the user is already logged in, the result of the get-or-create
   * lookup decides whether they are logged out: a freshly created record
   * or a `ValueError` logs out; an existing record, a verification error
   * or an `AttributeError` keeps the session; any other exception escapes.
   */
  lemma RightUserDecidesLogout(mgr: HookManager, w: World, req: Request, fault: StoreFault)
    requires w.user.Some?
    ensures var r := PreCheckResult(mgr, w, req, fault);
      && (r.0.user.None? <==>
            req.verification.Ok? &&
            (fault == RaisesValueError ||
             (fault == NoFault &&
              KeyFor(mgr, w.user.value, LtiParamFilter(req.verification.value)) !in w.records)))
      && (r.0.user.None? ==> r.0.session == map[])
      && (r.0.user.Some? ==> r.0.user == w.user && r.0.session == w.session)
      && (r.1.Some? <==> req.verification.Ok? && fault.RaisesOther?)
      && r.0.received == w.received && r.0.hookCalls == w.hookCalls
  {
  }

  /**
   * The row the pre-check creates for a logged-in user holds the field
   * default, not the launch: a grade update for that user is refused as
   * "not set" until a launch of theirs is stored.
   */
  lemma CreatedRowHoldsNoLaunch(mgr: HookManager, w: World, req: Request, p: ParamMap)
    requires w.user.Some? && req.verification == Ok(p)
    requires KeyFor(mgr, w.user.value, LtiParamFilter(p)) !in w.records
    ensures var key := KeyFor(mgr, w.user.value, LtiParamFilter(p));
      var r := PreCheckResult(mgr, w, req, NoFault);
      && r.0.user.None?
      && key in r.0.records && r.0.records[key] == map[]
      && forall g :: InRange(g) ==> ValidateGradeRequest(Some(r.0.records[key]), g) == Fail(ParametersNotSet)
  {
  }

  /**
   * On the authenticated path, a launch saved in the session is used and
   * cleared when the request is not itself a new launch, whatever the
   * request's own verification says.
   */
  lemma SavedLaunchResumed(mgr: HookManager, w: World, req: Request)
    requires w.user.Some? && SessionKey in w.session && !IsNewLtiRequest(req)
    ensures var saved := w.session[SessionKey];
      var key := KeyFor(mgr, w.user.value, LtiParamFilter(saved));
      var r := AuthenticatedResult(mgr, w, req);
      && r.0.session == w.session - {SessionKey}
      && key in r.0.records && r.0.records[key] == LtiParamFilter(saved)
      && r.1 == Redirect(mgr.authenticatedRedirect(saved))
  {
  }

  /**
   * Otherwise the request itself is verified, and a launch saved in the
   * session stays where it is.
   */
  lemma FreshLaunchVerified(mgr: HookManager, w: World, req: Request)
    requires w.user.Some? && (SessionKey !in w.session || IsNewLtiRequest(req))
    ensures var r := AuthenticatedResult(mgr, w, req);
      && r.0.session == w.session
      && (req.verification.Err? ==> r == (w, BadRequest(InvalidRequestPrefix + req.verification.detail)))
      && (req.verification.Ok? ==>
            var p := req.verification.value;
            var key := KeyFor(mgr, w.user.value, LtiParamFilter(p));
            key in r.0.records && r.0.records[key] == LtiParamFilter(p) &&
            r.1 == Redirect(mgr.authenticatedRedirect(p)))
  {
  }

  /**
   * A returning user's verified launch replaces their record with the
   * filtered parameters, notifies once with that record, and redirects
   * with the unfiltered parameters.
   */
  lemma ReturningUserLaunchRecorded(mgr: HookManager, w: World, req: Request, u: User, p: ParamMap)
    requires w.user == Some(u) && req.verification == Ok(p)
    requires KeyFor(mgr, u, LtiParamFilter(p)) in w.records
    requires SessionKey !in w.session || IsNewLtiRequest(req)
    ensures var key := KeyFor(mgr, u, LtiParamFilter(p));
      ProcessResult(mgr, w, req, NoFault) ==
        (w.(records := w.records[key := LtiParamFilter(p)],
            received := w.received + [Received(u, Record(u, key.customKey, LtiParamFilter(p)))]),
         Redirect(mgr.authenticatedRedirect(p)))
  {
  }

  /** Without a registered manager, no request is processed. */
  lemma UnconfiguredViewRefuses(w: World, req: Request, fault: StoreFault)
    ensures DispatchResult(None, w, req, fault) == (w, Raised(ImproperlyConfigured))
  {
  }

  /**
   * The login detour: an anonymous launch stashed in the session is stored
   * for the user on their way back, once they have logged in, even though
   * the return trip carries no signed launch.
   */
  lemma {:induction false} LaunchSurvivesLoginDetour(
    mgr: HookManager, w: World, launch: Request, back: Request, u: User, p: ParamMap, fault: StoreFault)
    requires w.user.None? && launch.verification == Ok(p)
    requires mgr.authenticate(AuthenticationHookData(p)).None?
    requires back.verification.Err? && !IsNewLtiRequest(back)
    ensures var w1 := ProcessResult(mgr, w, launch, fault).0;
      var w2 := w1.(user := Some(u));
      var r := ProcessResult(mgr, w2, back, fault);
      var key := KeyFor(mgr, u, LtiParamFilter(p));
      && SessionKey !in r.0.session
      && key in r.0.records && r.0.records[key] == LtiParamFilter(p)
      && r.0.received == w.received + [Received(u, Record(u, key.customKey, LtiParamFilter(p)))]
      && r.1 == Redirect(mgr.authenticatedRedirect(p))
  {
    AnonymousLaunchStashed(mgr, w, launch, fault, p);
    var w1 := ProcessResult(mgr, w, launch, fault).0;
    var w2 := w1.(user := Some(u));
    assert PreCheckResult(mgr, w2, back, fault) == (w2, None);
    SavedLaunchResumed(mgr, w2, back);
  }

  // ---------------------------------------------------------------------
  // Record addressing
  // ---------------------------------------------------------------------

  /** Every record is stored under the empty `custom_key`. */
  predicate DefaultKeysOnly(t: RecordTable)
  {
    forall k :: k in t ==> k.customKey == ""
  }

  /** With the default `vary_by_key`, storing a launch uses the empty key. */
  lemma DefaultManagerStoresUnderEmptyKey(mgr: HookManager, w: World, p: ParamMap)
    requires mgr.varyBy.Inherited? && DefaultKeysOnly(w.records) && w.user.Some?
    ensures DefaultKeysOnly(StoreResult(mgr, w, p).0.records)
    ensures forall q :: DefaultKeysOnly(RightUserResult(mgr, w.records, w.user.value, q, NoFault).0)
  {
  }

  /** With the default `vary_by_key`, every launch stores under the empty key. */
  lemma DefaultManagerStoresDefaultKeys(mgr: HookManager, w: World, req: Request, fault: StoreFault)
    requires mgr.varyBy.Inherited? && DefaultKeysOnly(w.records)
    ensures DefaultKeysOnly(ProcessResult(mgr, w, req, fault).0.records)
  {
    var w1 := w;
    if w.user.Some? {
      DefaultManagerStoresUnderEmptyKey(mgr, w, map[]);
      w1 := PreCheckResult(mgr, w, req, fault).0;
      assert DefaultKeysOnly(w1.records);
      if PreCheckResult(mgr, w, req, fault).1.Some? {
        return;
      }
    }
    if w1.user.Some? {
      AuthenticatedStoresDefaultKeys(mgr, w1, req);
    } else if req.verification.Ok? {
      var w2 := AfterHook(mgr, w1, req.verification.value);
      if w2.user.Some? {
        AuthenticatedStoresDefaultKeys(mgr, w2, req);
      }
    }
  }

  lemma AuthenticatedStoresDefaultKeys(mgr: HookManager, v: World, req: Request)
    requires mgr.varyBy.Inherited? && DefaultKeysOnly(v.records) && v.user.Some?
    ensures DefaultKeysOnly(AuthenticatedResult(mgr, v, req).0.records)
  {
    if SessionKey in v.session && !IsNewLtiRequest(req) {
      DefaultManagerStoresUnderEmptyKey(mgr, v.(session := v.session - {SessionKey}), v.session[SessionKey]);
    } else if req.verification.Ok? {
      DefaultManagerStoresUnderEmptyKey(mgr, v, req.verification.value);
    }
  }

  /** When all keys are the default one, a user has at most one record. */
  lemma {:induction false} DefaultKeysOneRecordPerUser(t: RecordTable, u: User)
    requires DefaultKeysOnly(t)
    ensures KeysOf(t, u) <= {RecordKey(u, "")}
    ensures LookupByUser(t, u).Found? <==> RecordKey(u, "") in t
    ensures !LookupByUser(t, u).LookupRaised?
  {
    var keys := KeysOf(t, u);
    assert keys <= {RecordKey(u, "")};
    if RecordKey(u, "") in t {
      assert keys == {RecordKey(u, "")};
    } else {
      assert keys == {};
    }
  }

  /** The world state after a run of requests against one manager. */
  function Run(mgr: HookManager, w: World, reqs: seq<(Request, StoreFault)>): World
    decreases |reqs|
  {
    if reqs == [] then w
    else Run(mgr, ProcessResult(mgr, w, reqs[0].0, reqs[0].1).0, reqs[1..])
  }

  /**
   * With the default `vary_by_key` there is one outcome point per user:
   * after any run of requests, the lookup by user alone never finds
   * several records.
   */
  lemma {:induction false} DefaultManagerOneOutcomePointPerUser(
    mgr: HookManager, w: World, reqs: seq<(Request, StoreFault)>, u: User)
    requires mgr.varyBy.Inherited? && DefaultKeysOnly(w.records)
    ensures DefaultKeysOnly(Run(mgr, w, reqs).records)
    decreases |reqs|
    ensures !LookupByUser(Run(mgr, w, reqs).records, u).LookupRaised?
  {
    if reqs == [] {
      DefaultKeysOneRecordPerUser(w.records, u);
    } else {
      var w1 := ProcessResult(mgr, w, reqs[0].0, reqs[0].1).0;
      DefaultManagerStoresDefaultKeys(mgr, w, reqs[0].0, reqs[0].1);
      DefaultManagerOneOutcomePointPerUser(mgr, w1, reqs[1..], u);
    }
  }

  /**
   * `after` is `before` with one more notification, for a logged-in user,
   * carrying the record stored for them under its own key.
   */
  predicate AnnouncesStoredRecord(mgr: HookManager, before: World, after: World)
  {
    && after.user.Some?
    && |after.received| == |before.received| + 1
    && after.received[..|before.received|] == before.received
    && var last := after.received[|before.received|];
       && last.user == after.user.value
       && last.record.user == last.user
       && last.record.customKey == mgr.CustomKey(last.record.params)
       && last.record.Key() in after.records
       && after.records[last.record.Key()] == last.record.params
  }

  lemma StoreAnnounces(mgr: HookManager, w: World, p: ParamMap)
    requires w.user.Some?
    ensures var r := StoreResult(mgr, w, p);
      r.1.Redirect? && r.0.user == w.user && AnnouncesStoredRecord(mgr, w, r.0)
  {
    var r := StoreResult(mgr, w, p);
    assert r.0.received[..|w.received|] == w.received;
  }

  lemma AuthenticatedAnnounces(mgr: HookManager, w: World, req: Request)
    requires w.user.Some?
    ensures var r := AuthenticatedResult(mgr, w, req);
      && r.0.user == w.user
      && (if r.1.Redirect? then AnnouncesStoredRecord(mgr, w, r.0) else r.0 == w)
  {
    if SessionKey in w.session && !IsNewLtiRequest(req) {
      StoreAnnounces(mgr, w.(session := w.session - {SessionKey}), w.session[SessionKey]);
    } else if req.verification.Ok? {
      StoreAnnounces(mgr, w, req.verification.value);
    }
  }

  /**
   * The "received" notification fires exactly when the launch ends in the
   * application, once, and with the record stored for the user.
   */
  lemma {:induction false} ReceivedCarriesStoredRecord(mgr: HookManager, w: World, req: Request, fault: StoreFault)
    ensures var r := ProcessResult(mgr, w, req, fault);
      if r.1.Redirect? && r.0.user.Some? then AnnouncesStoredRecord(mgr, w, r.0)
      else r.0.received == w.received
  {
    var w1 := if w.user.Some? then PreCheckResult(mgr, w, req, fault).0 else w;
    assert w1.received == w.received;
    if w.user.Some? && PreCheckResult(mgr, w, req, fault).1.Some? {
    } else if w1.user.Some? {
      AuthenticatedAnnounces(mgr, w1, req);
    } else if req.verification.Ok? {
      var w2 := AfterHook(mgr, w1, req.verification.value);
      assert w2.received == w.received;
      if w2.user.Some? {
        AuthenticatedAnnounces(mgr, w2, req);
      }
    }
  }

  /**
   * With the default `vary_by_key`, a grade update after a launch that
   * ended in the application finds exactly the record that launch
   * announced.
   */
  lemma {:induction false} GradeFindsLatestLaunch(mgr: HookManager, w: World, req: Request, fault: StoreFault)
    requires mgr.varyBy.Inherited? && DefaultKeysOnly(w.records)
    requires var r := ProcessResult(mgr, w, req, fault); r.1.Redirect? && r.0.user.Some?
    ensures var r := ProcessResult(mgr, w, req, fault);
      && |r.0.received| == |w.received| + 1
      && LookupByUser(r.0.records, r.0.user.value) == Found(r.0.received[|w.received|].record)
  {
    var r := ProcessResult(mgr, w, req, fault);
    var u := r.0.user.value;
    ReceivedCarriesStoredRecord(mgr, w, req, fault);
    DefaultManagerStoresDefaultKeys(mgr, w, req, fault);
    DefaultKeysOneRecordPerUser(r.0.records, u);
    var last := r.0.received[|w.received|].record;
    var key := RecordKey(u, "");
    assert last.Key() == key;
    assert KeysOf(r.0.records, u) == {key};
  }

  /** A second launch under the same key replaces the record; it never adds one. */
  lemma SameKeyOverwrites(mgr: HookManager, w: World, p1: ParamMap, p2: ParamMap)
    requires w.user.Some?
    requires KeyFor(mgr, w.user.value, LtiParamFilter(p1)) == KeyFor(mgr, w.user.value, LtiParamFilter(p2))
    ensures var key := KeyFor(mgr, w.user.value, LtiParamFilter(p1));
      var w1 := StoreResult(mgr, w, p1).0;
      var w2 := StoreResult(mgr, w1, p2).0;
      w2.records == w.records[key := LtiParamFilter(p2)] && w2.records.Keys == w.records.Keys + {key}
  {
  }

  /**
   * Launches under two vary keys give a user two independent records;
   * the grade-update lookup, which goes by user alone, then raises
   * `MultipleObjectsReturned`.
   */
  lemma {:induction false} DistinctKeysSplitRecords(mgr: HookManager, w: World, p1: ParamMap, p2: ParamMap)
    requires w.user.Some?
    requires mgr.CustomKey(LtiParamFilter(p1)) != mgr.CustomKey(LtiParamFilter(p2))
    ensures var u := w.user.value;
      var k1 := KeyFor(mgr, u, LtiParamFilter(p1));
      var k2 := KeyFor(mgr, u, LtiParamFilter(p2));
      var w2 := StoreResult(mgr, StoreResult(mgr, w, p1).0, p2).0;
      && k1 in w2.records && w2.records[k1] == LtiParamFilter(p1)
      && k2 in w2.records && w2.records[k2] == LtiParamFilter(p2)
      && LookupByUser(w2.records, u) == LookupRaised(MultipleObjectsReturned)
  {
    var u := w.user.value;
    var f1, f2 := LtiParamFilter(p1), LtiParamFilter(p2);
    var k1, k2 := KeyFor(mgr, u, f1), KeyFor(mgr, u, f2);
    var w1 := StoreResult(mgr, w, p1).0;
    assert w1.user == w.user && w1.records == w.records[k1 := f1];
    var w2 := StoreResult(mgr, w1, p2).0;
    assert w2.records == w.records[k1 := f1][k2 := f2];
    var keys := KeysOf(w2.records, u);
    assert k1 in keys && k2 in keys && k1 != k2;
    assert |keys - {k1}| >= 1 by { assert k2 in keys - {k1}; }
    assert |keys| >= 2;
  }
}
