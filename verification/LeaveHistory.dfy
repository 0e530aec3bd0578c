/**
 * The leave history page (src/pages/LeaveHistory.tsx): the search, status
 * and month filter over the list of leave records, and the counts and
 * approved-day total shown above it.
 */
module LeaveHistory {
  import opened Common
  import opened Lists
  import opened Text

  type Month = m: int | 1 <= m <= 12 witness 1

  /**
   * A year of the common era, 1 or later. date-fns writes the astronomical
   * year 0 (1 BC) as "0001", like year 1, so years before 1 are not modelled.
   */
  type Year = y: nat | 1 <= y witness 1

  /** A calendar date, the part of a JavaScript Date the page reads. */
  datatype CivilDate = CivilDate(year: Year, month: Month, day: nat)

  datatype LeaveRecord = LeaveRecord(
    id: int,
    leaveType: string,
    fromDate: CivilDate,
    toDate: CivilDate,
    days: int,
    reason: string,
    status: LeaveStatus,
    appliedDate: CivilDate,
    approvedBy: Option<string>,
    rejectionReason: Option<string>)

  /** The "yyyy" of date-fns for a year 1 or later: at least four digits, zero padded. */
  function YearString(y: nat): string
  {
    if y < 10000 then FourDigits(y) else NatToString(y)
  }

  /** `format(date, 'yyyy-MM')`, for example "2024-01". */
  function FormatYearMonth(d: CivilDate): (r: string)
    ensures d.year < 10000 ==> |r| == 7 && r[4] == '-'
  {
    YearString(d.year) + "-" + TwoDigits(d.month)
  }

  /** Two dates (with four-digit years) format alike exactly when they fall in the same month. */
  lemma FormatYearMonthInjective(a: CivilDate, b: CivilDate)
    requires a.year < 10000 && b.year < 10000
    ensures FormatYearMonth(a) == FormatYearMonth(b) <==> a.year == b.year && a.month == b.month
  {
    var sa, sb := FormatYearMonth(a), FormatYearMonth(b);
    if sa == sb {
      assert sa[..4] == FourDigits(a.year) && sb[..4] == FourDigits(b.year);
      assert sa[5..] == TwoDigits(a.month) && sb[5..] == TwoDigits(b.month);
      FourDigitsRoundTrip(a.year);
      FourDigitsRoundTrip(b.year);
      TwoDigitsRoundTrip(a.month);
      TwoDigitsRoundTrip(b.month);
    }
  }

  /** `matchesSearch`: the lower-cased reason or type includes the lower-cased search term. */
  predicate MatchesSearch(r: LeaveRecord, search: string)
  {
    Contains(ToLower(r.reason), ToLower(search)) || Contains(ToLower(r.leaveType), ToLower(search))
  }

  /** `matchesStatus`: the filter is 'all' or names the record's status. */
  predicate MatchesStatus(r: LeaveRecord, statusFilter: string)
  {
    statusFilter == "all" || StatusName(r.status) == statusFilter
  }

  /** `matchesMonth`: the filter is 'all' or is the yyyy-MM of the record's start date. */
  predicate MatchesMonth(r: LeaveRecord, monthFilter: string)
  {
    monthFilter == "all" || FormatYearMonth(r.fromDate) == monthFilter
  }

  /** The predicate passed to `leaveHistory.filter`. */
  function KeepsLeave(search: string, statusFilter: string, monthFilter: string): LeaveRecord -> bool
  {
    (r: LeaveRecord) => MatchesSearch(r, search) && MatchesStatus(r, statusFilter) && MatchesMonth(r, monthFilter)
  }

  /** `filteredLeaves`: the records all three filters keep, in list order; never more than the whole list. */
  function FilteredLeaves(history: seq<LeaveRecord>, search: string, statusFilter: string, monthFilter: string)
    : (r: seq<LeaveRecord>)
    ensures |r| <= |history|
    ensures forall i :: 0 <= i < |r| ==>
                          r[i] in history && MatchesSearch(r[i], search) &&
                          MatchesStatus(r[i], statusFilter) && MatchesMonth(r[i], monthFilter)
    ensures forall i :: 0 <= i < |history| && MatchesSearch(history[i], search) &&
                        MatchesStatus(history[i], statusFilter) && MatchesMonth(history[i], monthFilter) ==>
                          history[i] in r
  {
    Filter(history, KeepsLeave(search, statusFilter, monthFilter))
  }

  /** The filter keeps list order: it works piecewise on a split list. */
  lemma FilteredLeavesAppend(a: seq<LeaveRecord>, b: seq<LeaveRecord>, search: string, statusFilter: string, monthFilter: string)
    ensures FilteredLeaves(a + b, search, statusFilter, monthFilter) ==
      FilteredLeaves(a, search, statusFilter, monthFilter) + FilteredLeaves(b, search, statusFilter, monthFilter)
  {
    FilterAppend(a, b, KeepsLeave(search, statusFilter, monthFilter));
  }

  /** The shown records are an order-preserving sub-list of the history. */
  lemma FilteredLeavesInOrder(history: seq<LeaveRecord>, search: string, statusFilter: string, monthFilter: string)
    ensures IsSubsequence(FilteredLeaves(history, search, statusFilter, monthFilter), history)
  {
    FilterSubsequence(history, KeepsLeave(search, statusFilter, monthFilter));
  }

  /** The empty search term matches every record. */
  lemma EmptySearchMatchesAll(r: LeaveRecord)
    ensures MatchesSearch(r, "")
  {
    ContainsEmpty(ToLower(r.reason));
  }

  /** The search ignores the case of the term: a term and its lower-case form match the same records. */
  lemma SearchIgnoresCase(r: LeaveRecord, search: string)
    ensures MatchesSearch(r, search) <==> MatchesSearch(r, ToLower(search))
  {
    ToLowerIdempotent(search);
  }

  /** A status filter naming a status keeps exactly the records with that status. */
  lemma StatusFilterSelects(r: LeaveRecord, s: LeaveStatus)
    ensures MatchesStatus(r, StatusName(s)) <==> r.status == s
  {
    StatusNameInjective(r.status, s);
  }

  /** A month filter "yyyy-MM" keeps exactly the records that start in that month. */
  lemma MonthFilterSelects(r: LeaveRecord, month: CivilDate)
    requires r.fromDate.year < 10000 && month.year < 10000
    ensures MatchesMonth(r, FormatYearMonth(month)) <==>
      r.fromDate.year == month.year && r.fromDate.month == month.month
  {
    FormatYearMonthInjective(r.fromDate, month);
    assert FormatYearMonth(month) != "all";
  }

  /** With the empty search and both filters on 'all', every record is shown. */
  lemma NoFilterShowsAll(history: seq<LeaveRecord>)
    ensures FilteredLeaves(history, "", "all", "all") == history
  {
    forall r | r in history
      ensures KeepsLeave("", "all", "all")(r)
    {
      EmptySearchMatchesAll(r);
    }
    FilterAll(history, KeepsLeave("", "all", "all"));
  }

  /** `leaveStats`. */
  datatype LeaveStats = LeaveStats(total: nat, approved: nat, pending: nat, rejected: nat, totalDays: int)

  predicate IsApproved(r: LeaveRecord) { r.status == Approved }
  predicate IsPending(r: LeaveRecord) { r.status == Pending }
  predicate IsRejected(r: LeaveRecord) { r.status == Rejected }

  function Days(r: LeaveRecord): int { r.days }

  /** The days of an approved record; 0 for the others. */
  function ApprovedDays(r: LeaveRecord): int
  {
    if r.status == Approved then r.days else 0
  }

  function ComputeLeaveStats(history: seq<LeaveRecord>): (s: LeaveStats)
    ensures s.total == |history|
  {
    LeaveStats(
      |history|,
      |Filter(history, IsApproved)|,
      |Filter(history, IsPending)|,
      |Filter(history, IsRejected)|,
      SumInt(Filter(history, IsApproved), Days))
  }

  /** Every record has one of three statuses, so the three counts add up to the total. */
  lemma StatusCountsPartition(history: seq<LeaveRecord>)
    ensures var s := ComputeLeaveStats(history);
      s.approved + s.pending + s.rejected == s.total
  {
    FilterPartition3(history, IsApproved, IsPending, IsRejected);
  }

  /** The day total counts approved records only; pending and rejected ones add nothing. */
  lemma TotalDaysApprovedOnly(history: seq<LeaveRecord>)
    ensures ComputeLeaveStats(history).totalDays == SumInt(history, ApprovedDays)
  {
    SumIntFilter(history, IsApproved, Days, ApprovedDays);
  }

  /** One more record adds its days to the total if it is approved, and nothing otherwise. */
  lemma TotalDaysAfterAppend(history: seq<LeaveRecord>, r: LeaveRecord)
    ensures ComputeLeaveStats(history + [r]).totalDays ==
      ComputeLeaveStats(history).totalDays + if r.status == Approved then r.days else 0
  {
    TotalDaysApprovedOnly(history + [r]);
    TotalDaysApprovedOnly(history);
    SumIntAppend(history, [r], ApprovedDays);
    assert SumInt([r], ApprovedDays) == ApprovedDays(r) + SumInt([r][1..], ApprovedDays);
    assert [r][1..] == [];
  }
}
