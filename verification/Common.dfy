/** Types shared by several pages of the dashboard. */
module Common {

  /** A value that may be absent: an optional field, `undefined`, or `null`. */
  datatype Option<+T> = None | Some(value: T)

  /** The three states a leave request or leave record can be in. */
  datatype LeaveStatus = Pending | Approved | Rejected

  /** The lower-case string the pages use for a status ('pending', 'approved', 'rejected'). */
  function StatusName(s: LeaveStatus): (r: string)
    ensures |r| > 0
  {
    match s
    case Pending => "pending"
    case Approved => "approved"
    case Rejected => "rejected"
  }

  /** Distinct statuses have distinct names, so comparing names compares statuses. */
  lemma StatusNameInjective(s: LeaveStatus, t: LeaveStatus)
    ensures StatusName(s) == StatusName(t) <==> s == t
  {
  }
}
