/** Values shared by every part of the LTI tool provider model. */
module LtiBase {

  datatype Option<+T> = None | Some(value: T)

  /** The outcome of a step that may fail with a human-readable detail. */
  datatype Result<+T> = Ok(value: T) | Err(detail: string)

  /** A Django user, identified by its primary key. */
  type User = nat

  /** LTI launch parameters: parameter name to value. */
  type ParamMap = map<string, string>

  /** `dict.get(key, None)` on a parameter map. */
  function Get(p: ParamMap, key: string): (r: Option<string>)
    ensures r.Some? <==> key in p
    ensures r.Some? ==> r.value == p[key]
  {
    if key in p then Some(p[key]) else None
  }
}
