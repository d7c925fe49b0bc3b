/**
 * The `TaskStatus` string-backed enumeration: three cases, each with a wire
 * value, and the strict `TaskStatus::from` parse that rejects every other string.
 */
module Enums {
  import opened Wrappers

  datatype TaskStatus = Pending | InProgress | Completed

  /** The backing values of the enumeration, as stored and sent over the API. */
  const WireValues: set<string> := {"pending", "in_progress", "completed"}

  /** `$status->value`: the wire string of a status. */
  function Value(s: TaskStatus): (v: string)
    ensures v in WireValues
  {
    match s
    case Pending => "pending"
    case InProgress => "in_progress"
    case Completed => "completed"
  }

  /**
   * `TaskStatus::from($v)`: the case whose backing value is exactly `v`;
   * None stands for the ValueError thrown on any other string.
   */
  function From(v: string): (r: Option<TaskStatus>)
    ensures r.Some? <==> v in WireValues
    ensures r.Some? ==> Value(r.value) == v
  {
    if v == "pending" then Some(Pending)
    else if v == "in_progress" then Some(InProgress)
    else if v == "completed" then Some(Completed)
    else None
  }

  /** Parsing the wire value of a status gives that status back. */
  lemma FromValue(s: TaskStatus)
    ensures From(Value(s)) == Some(s)
  {
    match s
    case Pending =>
    case InProgress =>
    case Completed =>
  }

  /** Distinct statuses have distinct wire values. */
  lemma ValueInjective(s: TaskStatus, t: TaskStatus)
    ensures Value(s) == Value(t) ==> s == t
  {
    FromValue(s);
    FromValue(t);
  }
}
