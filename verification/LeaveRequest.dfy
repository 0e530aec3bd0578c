/**
 * The leave request page (src/pages/LeaveRequest.tsx): the inclusive day
 * count of a date range, the submit handler that validates the form and
 * puts a new pending request at the front of the list, and the first three
 * requests of the list, which it shows. Dates are JavaScript timestamps in milliseconds.
 */
module LeaveRequestPage {
  import opened Common
  import opened Arithmetic

  /** `1000 * 60 * 60 * 24`: milliseconds in a day. */
  const DayMs: nat := 1000 * 60 * 60 * 24

  datatype LeaveRequest = LeaveRequest(
    id: int,
    leaveType: string,
    fromDate: int,
    toDate: int,
    reason: string,
    status: LeaveStatus,
    appliedDate: int,
    days: int)

  /** The remaining days per category. The page shows them and nothing reads them. */
  datatype LeaveBalance = LeaveBalance(casual: nat, sick: nat, earned: nat)

  const InitialBalance := LeaveBalance(8, 4, 12)

  function Abs(x: int): nat
  {
    if x < 0 then -x else x
  }

  /**
   * `calculateDays`: the whole days needed to cover the time between the two
   * dates, rounded up, plus one for the first day.
   */
  function CalculateDays(from: int, to: int): (r: int)
    ensures r >= 1
    ensures Abs(to - from) <= (r - 1) * DayMs
    ensures r > 1 ==> (r - 2) * DayMs < Abs(to - from)
  {
    CeilDiv(Abs(to - from), DayMs) + 1
  }

  /** The order of the two dates does not matter. */
  lemma CalculateDaysSymmetric(a: int, b: int)
    ensures CalculateDays(a, b) == CalculateDays(b, a)
  {
  }

  /** A leave that starts and ends on the same date lasts one day. */
  lemma CalculateDaysSameDate(a: int)
    ensures CalculateDays(a, a) == 1
  {
  }

  /** For dates a whole number of days apart, the count is the inclusive span to - from + 1 (in days). */
  lemma CalculateDaysWholeDays(fromDay: int, toDay: int)
    requires fromDay <= toDay
    ensures CalculateDays(fromDay * DayMs, toDay * DayMs) == toDay - fromDay + 1
  {
    assert toDay * DayMs - fromDay * DayMs == (toDay - fromDay) * DayMs;
    CeilDivExact(toDay - fromDay, DayMs);
  }

  /**
   * A part of a day beyond k whole days counts as a further day: two local
   * midnights 25 hours apart (the end of daylight saving time) give 3, not 2.
   */
  lemma CalculateDaysPartialDay(from: int, k: nat, extra: nat)
    requires 0 < extra < DayMs
    ensures CalculateDays(from, from + k * DayMs + extra) == k + 2
  {
    CeilDivPartial(k, extra, DayMs);
  }

  /** The result of pressing Submit. */
  datatype Submission =
    | MissingFields       // "Please fill in all required fields."
    | EndBeforeStart      // "End date must be after start date."
    | Accepted(days: int)

  /**
   * The checks of `handleSubmitLeave`, in their order: a missing date or an
   * empty type or reason first, then a start date after the end date.
   */
  function CheckSubmission(fromDate: Option<int>, toDate: Option<int>, leaveType: string, reason: string): (r: Submission)
    ensures r == MissingFields <==> fromDate == None || toDate == None || leaveType == "" || reason == ""
    ensures r == EndBeforeStart <==>
      fromDate != None && toDate != None && leaveType != "" && reason != "" && fromDate.value > toDate.value
    ensures r.Accepted? ==> fromDate.value <= toDate.value && r.days == CalculateDays(fromDate.value, toDate.value)
  {
    if fromDate == None || toDate == None || leaveType == "" || reason == "" then MissingFields
    else if fromDate.value > toDate.value then EndBeforeStart
    else Accepted(CalculateDays(fromDate.value, toDate.value))
  }

  /** `leaveRequests.slice(0, 3)`: the first three requests of the list by position, or all when there are fewer. */
  function RecentRequests(requests: seq<LeaveRequest>): (r: seq<LeaveRequest>)
    ensures |r| <= 3 && |r| <= |requests|
    ensures r == requests[..|r|]
    ensures |r| == 3 || r == requests
  {
    if |requests| <= 3 then requests else requests[..3]
  }

  /** After a submission the new request is shown first, followed by the (at most) two first entries of the old list. */
  lemma NewestShownFirst(request: LeaveRequest, requests: seq<LeaveRequest>)
    ensures RecentRequests([request] + requests) ==
      [request] + if |requests| <= 2 then requests else requests[..2]
  {
    var r := RecentRequests([request] + requests);
    if |requests| > 2 {
      assert r == ([request] + requests)[..3];
      assert ([request] + requests)[..3] == [request] + requests[..2];
    }
  }

  /** The page: the four form fields, the list of requests and the balance. */
  class LeaveRequestForm {
    var fromDate: Option<int>
    var toDate: Option<int>
    var leaveType: string
    var reason: string
    var leaveRequests: seq<LeaveRequest>
    const leaveBalance: LeaveBalance

    /** An empty form over the page's initial requests. */
    constructor (initial: seq<LeaveRequest>)
      ensures fromDate == None && toDate == None && leaveType == "" && reason == ""
      ensures leaveRequests == initial && leaveBalance == InitialBalance
    {
      fromDate, toDate, leaveType, reason := None, None, "", "";
      leaveRequests := initial;
      leaveBalance := InitialBalance;
    }

    /** The start-date calendar's `onSelect`; a cleared selection unsets the date. */
    method SetFromDate(d: Option<int>)
      modifies this
      ensures fromDate == d
      ensures toDate == old(toDate) && leaveType == old(leaveType) && reason == old(reason)
      ensures leaveRequests == old(leaveRequests)
    {
      fromDate := d;
    }

    /** The end-date calendar's `onSelect`. */
    method SetToDate(d: Option<int>)
      modifies this
      ensures toDate == d
      ensures fromDate == old(fromDate) && leaveType == old(leaveType) && reason == old(reason)
      ensures leaveRequests == old(leaveRequests)
    {
      toDate := d;
    }

    /** The leave type select's `onValueChange`. */
    method SetLeaveType(t: string)
      modifies this
      ensures leaveType == t
      ensures fromDate == old(fromDate) && toDate == old(toDate) && reason == old(reason)
      ensures leaveRequests == old(leaveRequests)
    {
      leaveType := t;
    }

    /** The reason textarea's `onChange`. */
    method SetReason(r: string)
      modifies this
      ensures reason == r
      ensures fromDate == old(fromDate) && toDate == old(toDate) && leaveType == old(leaveType)
      ensures leaveRequests == old(leaveRequests)
    {
      reason := r;
    }

    /**
     * `handleSubmitLeave`, with `Date.now()` as `id` and `new Date()` as `now`.
     * A rejected submission changes nothing. An accepted one puts exactly one
     * pending request in front of the old ones and empties the four fields.
     * The balance is not consulted.
     */
    method SubmitLeave(id: int, now: int) returns (outcome: Submission)
      modifies this
      ensures outcome == CheckSubmission(old(fromDate), old(toDate), old(leaveType), old(reason))
      ensures outcome.Accepted? ==>
        && leaveRequests == [LeaveRequest(id, old(leaveType), old(fromDate).value, old(toDate).value,
                                          old(reason), Pending, now, outcome.days)] + old(leaveRequests)
        && fromDate == None && toDate == None && leaveType == "" && reason == ""
      ensures !outcome.Accepted? ==>
        && leaveRequests == old(leaveRequests)
        && fromDate == old(fromDate) && toDate == old(toDate)
        && leaveType == old(leaveType) && reason == old(reason)
    {
      outcome := CheckSubmission(fromDate, toDate, leaveType, reason);
      if outcome.Accepted? {
        var request := LeaveRequest(id, leaveType, fromDate.value, toDate.value, reason, Pending, now, outcome.days);
        leaveRequests := [request] + leaveRequests;
        fromDate := None;
        toDate := None;
        leaveType := "";
        reason := "";
      }
    }
  }
}
