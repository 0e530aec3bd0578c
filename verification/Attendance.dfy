/**
 * The statistics of the attendance summary page (src/pages/AttendanceSummary.tsx):
 * counts per status, hour and task sums, and the attendance rate, all
 * computed from a list of attendance records by filters and sums.
 */
module Attendance {
  import opened Common
  import opened Lists
  import opened Arithmetic

  datatype Status = Present | Absent | Leave

  /** One day of attendance. Hours are exact reals; the optional fields may be missing. */
  datatype AttendanceRecord = AttendanceRecord(
    date: string,
    status: Status,
    leaveType: Option<string>,
    hoursWorked: Option<real>,
    tasksLogged: Option<int>)

  /** What `Math.round(x)` of a ratio can be: a whole number, NaN (0/0) or Infinity (n/0, n > 0). */
  datatype Rate = Percent(value: int) | NotANumber | Infinity

  datatype Stats = Stats(
    totalDays: nat,
    presentDays: nat,
    leaveDays: nat,
    absentDays: nat,
    totalHours: real,
    totalTasks: int,
    attendanceRate: Rate)

  predicate IsPresent(d: AttendanceRecord) { d.status == Present }
  predicate IsLeave(d: AttendanceRecord) { d.status == Leave }
  predicate IsAbsent(d: AttendanceRecord) { d.status == Absent }

  /** The filter `d => d.hoursWorked`: the field is present and not zero (zero is falsy). */
  predicate HasHours(d: AttendanceRecord) { d.hoursWorked.Some? && d.hoursWorked.value != 0.0 }

  /** `d.hoursWorked || 0` */
  function HoursOrZero(d: AttendanceRecord): real
  {
    if HasHours(d) then d.hoursWorked.value else 0.0
  }

  /** The filter `d => d.tasksLogged`. */
  predicate HasTasks(d: AttendanceRecord) { d.tasksLogged.Some? && d.tasksLogged.value != 0 }

  /** `d.tasksLogged || 0` */
  function TasksOrZero(d: AttendanceRecord): int
  {
    if HasTasks(d) then d.tasksLogged.value else 0
  }

  /** `Math.round(n / d)` for n >= 0 and d > 0: the whole number nearest to n/d, halves rounded up. */
  function RoundHalfUp(n: nat, d: nat): (r: nat)
    requires d > 0
    ensures 2 * d * r <= 2 * n + d < 2 * d * (r + 1)
  {
    (2 * n + d) / (2 * d)
  }

  /** `Math.round((present / working) * 100)`, with JavaScript's results for a zero divisor. */
  function AttendanceRate(present: nat, working: nat): (r: Rate)
    ensures r.NotANumber? <==> working == 0 && present == 0
    ensures r.Infinity? <==> working == 0 && present > 0
    ensures working > 0 ==> r.Percent? && 2 * working * r.value <= 200 * present + working < 2 * working * (r.value + 1)
    ensures working > 0 && present <= working ==> 0 <= r.value <= 100
  {
    if working > 0 then
      var p := RoundHalfUp(100 * present, working);
      assert present <= working ==> p <= 100 by {
        if present <= working {
          RoundedPercentAtMost100(present, working);
        }
      }
      Percent(p)
    else if present == 0 then NotANumber
    else Infinity
  }

  /** `calculateStats`: every figure the summary cards show. */
  function CalculateStats(records: seq<AttendanceRecord>): (s: Stats)
    ensures s.totalDays == |records|
    ensures s.leaveDays <= s.totalDays
  {
    var totalDays := |records|;
    var presentDays := |Filter(records, IsPresent)|;
    var leaveDays := |Filter(records, IsLeave)|;
    var absentDays := |Filter(records, IsAbsent)|;
    var totalHours := SumReal(Filter(records, HasHours), HoursOrZero);
    var totalTasks := SumInt(Filter(records, HasTasks), TasksOrZero);
    Stats(totalDays, presentDays, leaveDays, absentDays, totalHours, totalTasks,
          AttendanceRate(presentDays, totalDays - leaveDays))
  }

  /** The number of working days the "Days Present" card shows: all days but leave days. */
  function WorkingDays(s: Stats): int
  {
    s.totalDays - s.leaveDays
  }

  /** Every record has exactly one status, so the three counts add up to the number of records. */
  lemma CountsPartition(records: seq<AttendanceRecord>)
    ensures var s := CalculateStats(records);
      s.presentDays + s.leaveDays + s.absentDays == s.totalDays
  {
    FilterPartition3(records, IsPresent, IsLeave, IsAbsent);
  }

  /** Present days never exceed the working days shown beside them. */
  lemma PresentWithinWorkingDays(records: seq<AttendanceRecord>)
    ensures 0 <= CalculateStats(records).presentDays <= WorkingDays(CalculateStats(records))
  {
    CountsPartition(records);
  }

  /** Rounding a ratio of at most one, scaled by 100, gives at most 100. */
  lemma RoundedPercentAtMost100(present: nat, working: nat)
    requires 0 < working && present <= working
    ensures RoundHalfUp(100 * present, working) <= 100
  {
    var r := RoundHalfUp(100 * present, working);
    assert 2 * r * working <= 201 * working;
    CancelFactor(2 * r, 201, working);
  }

  /** Rounding a whole multiple of the divisor gives the multiple. */
  lemma RoundHalfUpWhole(k: nat, w: nat)
    requires w > 0
    ensures RoundHalfUp(k * w, w) == k
  {
    var r := RoundHalfUp(k * w, w);
    assert 2 * r * w <= (2 * k + 1) * w;
    CancelFactor(2 * r, 2 * k + 1, w);
    if r < k {
      MultiplyMonotone(2 * (r + 1), 2 * k, w);
    }
  }

  /**
   * The rate is a whole percentage in 0..100 when some day is not a leave day;
   * when every day is a leave day (or there are no records) it is NaN, since the
   * code divides 0 by 0. Infinity never occurs.
   */
  lemma RateBounds(records: seq<AttendanceRecord>)
    ensures var s := CalculateStats(records);
      && (s.totalDays > s.leaveDays ==> s.attendanceRate.Percent? && 0 <= s.attendanceRate.value <= 100)
      && (s.attendanceRate.NotANumber? <==> s.totalDays == s.leaveDays)
      && !s.attendanceRate.Infinity?
  {
    var s := CalculateStats(records);
    PresentWithinWorkingDays(records);
    if s.totalDays > s.leaveDays {
      RoundedPercentAtMost100(s.presentDays, s.totalDays - s.leaveDays);
    }
  }

  /** With no absent day and at least one present day, the rate is 100 (10 present and 3 leave days give 100). */
  lemma FullAttendance(records: seq<AttendanceRecord>)
    requires forall i :: 0 <= i < |records| ==> !IsAbsent(records[i])
    requires exists i :: 0 <= i < |records| && IsPresent(records[i])
    ensures CalculateStats(records).attendanceRate == Percent(100)
  {
    var s := CalculateStats(records);
    var present := Filter(records, IsPresent);
    FilterNone(records, IsAbsent);
    CountsPartition(records);
    var i :| 0 <= i < |records| && IsPresent(records[i]);
    assert records[i] in present;
    var w := s.presentDays;
    assert w == |present| > 0;
    assert s.totalDays - s.leaveDays == w;
    RoundHalfUpWhole(100, w);
    assert s.attendanceRate == AttendanceRate(w, w);
  }

  /** totalHours adds up hoursWorked of every record that has it, missing values as 0, whatever the status. */
  lemma TotalHoursOverAllRecords(records: seq<AttendanceRecord>)
    ensures CalculateStats(records).totalHours == SumReal(records, HoursOrZero)
  {
    SumRealFilter(records, HasHours, HoursOrZero, HoursOrZero);
  }

  /** totalTasks adds up tasksLogged of every record that has it, missing values as 0. */
  lemma TotalTasksOverAllRecords(records: seq<AttendanceRecord>)
    ensures CalculateStats(records).totalTasks == SumInt(records, TasksOrZero)
  {
    SumIntFilter(records, HasTasks, TasksOrZero, TasksOrZero);
  }

  /** Every statistic is the same for any reordering of the records. */
  lemma StatsPermutation(a: seq<AttendanceRecord>, b: seq<AttendanceRecord>)
    requires multiset(a) == multiset(b)
    ensures CalculateStats(a) == CalculateStats(b)
  {
    assert |a| == |multiset(a)| == |multiset(b)| == |b|;
    FilterPermutation(a, b, IsPresent);
    FilterPermutation(a, b, IsLeave);
    FilterPermutation(a, b, IsAbsent);
    FilterPermutation(a, b, HasHours);
    FilterPermutation(a, b, HasTasks);
    SumRealPermutation(Filter(a, HasHours), Filter(b, HasHours), HoursOrZero);
    SumIntPermutation(Filter(a, HasTasks), Filter(b, HasTasks), TasksOrZero);
  }
}
