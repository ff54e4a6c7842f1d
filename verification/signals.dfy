/**
 * The grade-update receiver: when the host reports a new grade for a
 * user, look up that user's stored launch record and send the grade back
 * to the tool consumer. Exceptions are logged, and re-raised only in
 * strict mode.
 */
module Signals {
  import opened LtiBase
  import opened Models

  /** What `LtiUserData.objects.get(user=user)` gives. */
  datatype Lookup = Found(record: Record) | DoesNotExist | LookupRaised(error: string)

  const MultipleObjectsReturned: string := "MultipleObjectsReturned"

  /** The records stored for a user, under any `custom_key`. */
  ghost function KeysOf(table: RecordTable, u: User): (keys: set<RecordKey>)
    ensures forall k :: k in keys <==> k in table && k.user == u
  {
    set k | k in table && k.user == u
  }

  /**
   * The lookup by user alone: no row is `DoesNotExist`, one row is found,
   * and several rows (a user launched under several vary keys) make the
   * ORM raise `MultipleObjectsReturned`.
   */
  ghost function LookupByUser(table: RecordTable, u: User): (l: Lookup)
    ensures l.DoesNotExist? <==> KeysOf(table, u) == {}
    ensures l.Found? <==> |KeysOf(table, u)| == 1
    ensures l.Found? ==> l.record.user == u && l.record.Key() in table &&
                         table[l.record.Key()] == l.record.params
    ensures l.LookupRaised? ==> l.error == MultipleObjectsReturned
  {
    var keys := KeysOf(table, u);
    if keys == {} then DoesNotExist
    else if |keys| == 1 then
      var k :| k in keys;
      Found(RowAt(table, k))
    else LookupRaised(MultipleObjectsReturned)
  }

  /** Why a grade was not delivered. */
  datatype Failure =
    | UserNotSpecified
    | NoRecord
    | LookupFailed(error: string)
    | GradeRejected(reason: GradeError)
    | PostFailed(detail: string)

  /** The log line written for a failure. */
  datatype LogEntry =
    | NoParametersStored       // info: "No LTI parameters for user ... stored"
    | ExceptionInLtiModule     // exception: "Exception occurred in lti module ..."

  datatype GradeDispatch =
    | Delivered(outcome: PostedOutcome)
    | Failed(failure: Failure, log: LogEntry, reraised: bool)

  /**
   * `_send_grade`. `lookup` is what the record lookup gives for `user`; it
   * is consulted only when a user is given.
   */
  function SendGrade(user: Option<User>, grade: Option<real>, strict: bool,
                     lookup: Lookup, post: ReplaceResult): (r: GradeDispatch)
    ensures r.Failed? ==> r.reraised == strict
    ensures user.None? ==> r == Failed(UserNotSpecified, ExceptionInLtiModule, strict)
    ensures user.Some? && lookup.DoesNotExist? ==> r == Failed(NoRecord, NoParametersStored, strict)
    ensures r.Failed? && r.log == NoParametersStored ==> user.Some? && lookup.DoesNotExist?
    ensures user.Some? && lookup.LookupRaised? ==>
      r == Failed(LookupFailed(lookup.error), ExceptionInLtiModule, strict)
    ensures r.Delivered? <==>
      user.Some? && lookup.Found? && SendLtiGrade(Some(lookup.record.params), grade, post).Sent?
    ensures r.Delivered? ==>
      InRange(grade) && post(lookup.record.params, grade.value) == Ok(r.outcome)
    ensures user.Some? && lookup.Found? ==>
      match SendLtiGrade(Some(lookup.record.params), grade, post)
      case Sent(o) => r == Delivered(o)
      case Invalid(e) => r == Failed(GradeRejected(e), ExceptionInLtiModule, strict)
      case PostRaised(d) => r == Failed(PostFailed(d), ExceptionInLtiModule, strict)
  {
    if user.None? then Failed(UserNotSpecified, ExceptionInLtiModule, strict)
    else
      match lookup
      case DoesNotExist => Failed(NoRecord, NoParametersStored, strict)
      case LookupRaised(e) => Failed(LookupFailed(e), ExceptionInLtiModule, strict)
      case Found(record) =>
        match SendLtiGrade(Some(record.params), grade, post)
        case Sent(o) => Delivered(o)
        case Invalid(e) => Failed(GradeRejected(e), ExceptionInLtiModule, strict)
        case PostRaised(d) => Failed(PostFailed(d), ExceptionInLtiModule, strict)
  }

  /**
   * `grade_updated_handler`: the `user` and `grade` keyword arguments
   * (None when absent) go to `_send_grade` in strict mode, so every
   * failure propagates to the sender of the signal.
   */
  function GradeUpdatedHandler(user: Option<User>, grade: Option<real>,
                               lookup: Lookup, post: ReplaceResult): (r: GradeDispatch)
    ensures r == SendGrade(user, grade, true, lookup, post)
    ensures r.Failed? ==> r.reraised
  {
    SendGrade(user, grade, true, lookup, post)
  }

  /**
   * Strict and lenient mode reach the same verdict and write the same log
   * line; only whether the error escapes differs, and in lenient mode it
   * never does.
   */
  lemma StrictnessOnlyDecidesReraise(user: Option<User>, grade: Option<real>,
                                     lookup: Lookup, post: ReplaceResult)
    ensures var s := SendGrade(user, grade, true, lookup, post);
            var l := SendGrade(user, grade, false, lookup, post);
            && (s.Delivered? <==> l.Delivered?)
            && (s.Delivered? ==> s == l)
            && (s.Failed? ==> s.failure == l.failure && s.log == l.log && s.reraised && !l.reraised)
  {
  }

  /**
   * A grade sent for a user with exactly one stored record is validated
   * against, and posted from, that record's parameters.
   */
  lemma DeliveredFromTheUsersRecord(table: RecordTable, u: User, grade: Option<real>, post: ReplaceResult)
    requires |KeysOf(table, u)| == 1
    ensures var l := LookupByUser(table, u);
            var r := SendGrade(Some(u), grade, true, l, post);
            && l.Found? && l.record.user == u
            && (r.Delivered? <==> SendLtiGrade(Some(l.record.params), grade, post).Sent?)
            && (r.Failed? ==> r.reraised && r.log == ExceptionInLtiModule)
  {
  }
}
