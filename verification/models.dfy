/**
 * `LtiUserData`: the stored launch parameters of one user (and vary key),
 * and the validation that must pass before a grade is posted back to the
 * tool consumer through the LTI 1.1 Basic Outcomes replaceResult request.
 */
module Models {
  import opened LtiBase

  /** The composite unique key of a stored record: `(user, custom_key)`. */
  datatype RecordKey = RecordKey(user: User, customKey: string)

  /** One row of the record table. */
  datatype Record = Record(user: User, customKey: string, params: ParamMap)
  {
    function Key(): RecordKey { RecordKey(user, customKey) }
  }

  /**
   * The record table. Keying it by `RecordKey` is the uniqueness
   * constraint: at most one row per `(user, custom_key)`.
   */
  type RecordTable = map<RecordKey, ParamMap>

  function RowAt(table: RecordTable, key: RecordKey): (r: Record)
    requires key in table
    ensures r.Key() == key && r.params == table[key]
  {
    Record(key.user, key.customKey, table[key])
  }

  /**
   * `store_lti_parameters`: insert, or replace wholesale, the row for the key.
   */
  function StoreParameters(table: RecordTable, key: RecordKey, params: ParamMap): (t: RecordTable)
    ensures key in t && t[key] == params
    ensures t.Keys == table.Keys + {key}
    ensures forall k :: k in table && k != key ==> k in t && t[k] == table[k]
  {
    table[key := params]
  }

  /** The replaceResult grade and the two parameters it needs, in this order. */
  const RequiredParams: seq<string> := ["lis_result_sourcedid", "lis_outcome_service_url"]

  /** `params.get(name, '')` is truthy: present and not empty. */
  predicate IsSet(params: ParamMap, name: string)
  {
    name in params && params[name] != ""
  }

  /** `0 <= grade <= 1`; an absent grade (None) orders below every number and fails. */
  predicate InRange(grade: Option<real>)
  {
    grade.Some? && 0.0 <= grade.value <= 1.0
  }

  datatype GradeError =
    | GradeOutOfRange(grade: Option<real>)
    | ParametersNotSet
    | ParametersMissing(names: seq<string>)

  datatype Validation = Pass | Fail(error: GradeError)

  /** The names of `names` that are not set in `params`, in list order. */
  function UnsetParameters(names: seq<string>, params: ParamMap): (r: seq<string>)
    ensures |r| <= |names|
    ensures forall n :: n in r <==> n in names && !IsSet(params, n)
  {
    if names == [] then []
    else if IsSet(params, names[0]) then UnsetParameters(names[1..], params)
    else [names[0]] + UnsetParameters(names[1..], params)
  }

  /**
   * `_validate_lti_grade_request`: the grade range first, then whether any
   * parameters are stored at all, then the required parameters.
   */
  function ValidateGradeRequest(params: Option<ParamMap>, grade: Option<real>): (v: Validation)
    ensures v.Pass? <==> (InRange(grade) && params.Some? &&
      IsSet(params.value, "lis_result_sourcedid") && IsSet(params.value, "lis_outcome_service_url"))
    ensures !InRange(grade) ==> v == Fail(GradeOutOfRange(grade))
    ensures InRange(grade) && (params.None? || params.value == map[]) ==> v == Fail(ParametersNotSet)
    ensures v.Fail? && v.error.ParametersMissing? ==>
      InRange(grade) && params.Some? && params.value != map[] &&
      v.error.names == UnsetParameters(RequiredParams, params.value) && v.error.names != []
  {
    if !InRange(grade) then Fail(GradeOutOfRange(grade))
    else if params.None? || params.value == map[] then Fail(ParametersNotSet)
    else
      var unset := UnsetParameters(RequiredParams, params.value);
      if unset != [] then Fail(ParametersMissing(unset)) else Pass
  }

  /** `", ".join(parts)` */
  function Join(parts: seq<string>, sep: string): (s: string)
    ensures parts == [] ==> s == ""
    ensures |parts| == 1 ==> s == parts[0]
  {
    if parts == [] then ""
    else if |parts| == 1 then parts[0]
    else parts[0] + sep + Join(parts[1..], sep)
  }

  const GradeRangeMessage: string := "Grade should be in range [0..1], got "
  const NotSetMessage: string := "LTI grade parameters is not set"
  const MissingMessage: string := "Following required LTI parameters " + "are not set: "

  /**
   * The `ValueError` message. `render` is Python's `str.format` rendering
   * of the offending grade. The three failures are told apart by their
   * text.
   */
  function Message(e: GradeError, render: Option<real> -> string): (m: string)
    ensures e.GradeOutOfRange? <==> GradeRangeMessage <= m
    ensures e.GradeOutOfRange? ==> m == GradeRangeMessage + render(e.grade)
    ensures e.ParametersNotSet? <==> m == NotSetMessage
    ensures e.ParametersMissing? <==> MissingMessage <= m
  {
    match e
    case GradeOutOfRange(g) =>
      assert !(MissingMessage <= GradeRangeMessage + render(g)) by {
        assert (GradeRangeMessage + render(g))[0] == 'G' && MissingMessage[0] == 'F';
      }
      GradeRangeMessage + render(g)
    case ParametersNotSet => NotSetMessage
    case ParametersMissing(names) =>
      assert !(GradeRangeMessage <= MissingMessage + Join(names, ", ")) by {
        assert (MissingMessage + Join(names, ", "))[0] == 'F' && GradeRangeMessage[0] == 'G';
      }
      MissingMessage + Join(names, ", ")
  }

  /** The unset required parameters, written out: they keep `_required_params` order. */
  lemma {:induction false} UnsetRequiredParameters(params: ParamMap)
    ensures UnsetParameters(RequiredParams, params) ==
      (if IsSet(params, "lis_result_sourcedid") then [] else ["lis_result_sourcedid"]) +
      (if IsSet(params, "lis_outcome_service_url") then [] else ["lis_outcome_service_url"])
  {
    var tail := RequiredParams[1..];
    assert tail == ["lis_outcome_service_url"] && tail[1..] == [];
    assert UnsetParameters(tail, params) ==
      if IsSet(params, "lis_outcome_service_url") then [] else ["lis_outcome_service_url"];
  }

  /**
   * The missing-parameter message names exactly the offending parameters,
   * in `_required_params` order, joined by ", ".
   */
  lemma MissingParametersMessage(params: ParamMap, grade: Option<real>, render: Option<real> -> string)
    requires InRange(grade) && params != map[]
    requires !IsSet(params, "lis_result_sourcedid") || !IsSet(params, "lis_outcome_service_url")
    ensures var v := ValidateGradeRequest(Some(params), grade);
      v.Fail? && Message(v.error, render) == MissingMessage +
        if !IsSet(params, "lis_result_sourcedid") && !IsSet(params, "lis_outcome_service_url")
        then "lis_result_sourcedid" + ", " + "lis_outcome_service_url"
        else if !IsSet(params, "lis_result_sourcedid") then "lis_result_sourcedid"
        else "lis_outcome_service_url"
  {
    UnsetRequiredParameters(params);
    var sourcedid, serviceUrl := "lis_result_sourcedid", "lis_outcome_service_url";
    var unset := UnsetParameters(RequiredParams, params);
    assert ValidateGradeRequest(Some(params), grade) == Fail(ParametersMissing(unset));
    assert Message(ParametersMissing(unset), render) == MissingMessage + Join(unset, ", ");
    if !IsSet(params, sourcedid) && !IsSet(params, serviceUrl) {
      assert unset == [sourcedid, serviceUrl];
      assert Join(unset, ", ") == sourcedid + ", " + Join([serviceUrl], ", ");
    } else if !IsSet(params, sourcedid) {
      assert unset == [sourcedid];
    } else {
      assert unset == [serviceUrl];
    }
  }

  /**
   * Both ends of the range are accepted, and every grade outside it is
   * refused before the stored parameters are looked at.
   */
  lemma GradeBoundaries(params: Option<ParamMap>, g: real)
    requires params.Some? && IsSet(params.value, "lis_result_sourcedid") && IsSet(params.value, "lis_outcome_service_url")
    ensures ValidateGradeRequest(params, Some(0.0)) == Pass
    ensures ValidateGradeRequest(params, Some(1.0)) == Pass
    ensures (g < 0.0 || g > 1.0) ==>
      forall p: Option<ParamMap> :: ValidateGradeRequest(p, Some(g)) == Fail(GradeOutOfRange(Some(g)))
    ensures ValidateGradeRequest(params, None) == Fail(GradeOutOfRange(None))
  {
  }

  /** The response to a replaceResult request (`OutcomeResponse`). */
  datatype PostedOutcome = PostedOutcome(success: bool, description: string)

  /**
   * The replaceResult call on a provider built from the stored parameters:
   * it returns the outcome or fails with a transport error.
   */
  type ReplaceResult = (ParamMap, real) -> Result<PostedOutcome>

  datatype SendResult =
    | Sent(outcome: PostedOutcome)
    | Invalid(error: GradeError)
    | PostRaised(detail: string)

  /**
   * `send_lti_grade`: validate, then post the grade unchanged through a
   * provider built from the stored parameters, and return its outcome,
   * successful or not.
   */
  function SendLtiGrade(params: Option<ParamMap>, grade: Option<real>, post: ReplaceResult): (r: SendResult)
    ensures r.Invalid? <==> ValidateGradeRequest(params, grade).Fail?
    ensures r.Invalid? ==> r.error == ValidateGradeRequest(params, grade).error
    ensures !r.Invalid? ==> (InRange(grade) && params.Some? &&
      match post(params.value, grade.value)
      case Ok(o) => r == Sent(o)
      case Err(d) => r == PostRaised(d))
  {
    match ValidateGradeRequest(params, grade)
    case Fail(e) => Invalid(e)
    case Pass =>
      match post(params.value, grade.value)
      case Ok(o) => Sent(o)
      case Err(d) => PostRaised(d)
  }
}
