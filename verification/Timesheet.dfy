/**
 * The daily timesheet page (src/pages/TimesheetLogging.tsx): the duration of
 * a task from its start and end times, the add and delete handlers over the
 * task list, and the per-day summary (tasks of the selected date, their
 * total, and "Complete" from 8 hours on). Dates are calendar-day numbers;
 * durations are whole seconds, so a JavaScript duration in hours is
 * seconds / 3600.
 */
module Timesheet {
  import opened Common
  import opened Lists
  import opened Text

  /** A JavaScript number of hours, kept as whole seconds, or NaN when a time does not parse. */
  datatype Duration = Seconds(seconds: int) | NotANumber

  const HourSeconds: nat := 60 * 60

  /** The form fields of a task being added (all strings, '' when untouched). */
  datatype NewTask = NewTask(title: string, description: string, startTime: string, endTime: string)

  const EmptyTask := NewTask("", "", "", "")

  /** The inputs of the add-task form. */
  datatype TaskField = Title | Description | StartTime | EndTime

  /** `setNewTask({ ...newTask, <field>: value })` */
  function UpdateTask(n: NewTask, f: TaskField, value: string): (r: NewTask)
    ensures f == Title ==> r == n.(title := value)
    ensures f == Description ==> r == n.(description := value)
    ensures f == StartTime ==> r == n.(startTime := value)
    ensures f == EndTime ==> r == n.(endTime := value)
  {
    match f
    case Title => n.(title := value)
    case Description => n.(description := value)
    case StartTime => n.(startTime := value)
    case EndTime => n.(endTime := value)
  }

  datatype Task = Task(
    id: int,
    title: string,
    description: string,
    startTime: string,
    endTime: string,
    date: int,
    duration: Duration)

  /** A time of day is valid up to 23:59:59, and 24:00 (the end of the day) is allowed too. */
  predicate ValidClock(h: nat, m: nat, sec: nat)
  {
    (h < 24 && m < 60 && sec < 60) || (h == 24 && m == 0 && sec == 0)
  }

  /**
   * The time `new Date('2000-01-01T' + s)` stands for, in seconds after
   * midnight: `s` is "HH:MM" or "HH:MM:SS". Anything else is an invalid date.
   */
  function ParseClock(s: string): (r: Option<nat>)
    ensures r.Some? ==> r.value <= 24 * HourSeconds
  {
    if (|s| == 5 || |s| == 8) && IsDigit(s[0]) && IsDigit(s[1]) && s[2] == ':' && IsDigit(s[3]) && IsDigit(s[4]) then
      var h, m := TwoDigitValue(s[..2]), TwoDigitValue(s[3..5]);
      if |s| == 5 then
        if ValidClock(h, m, 0) then Some(h * 3600 + m * 60) else None
      else if s[5] == ':' && IsDigit(s[6]) && IsDigit(s[7]) then
        var sec := TwoDigitValue(s[6..8]);
        if ValidClock(h, m, sec) then Some(h * 3600 + m * 60 + sec) else None
      else None
    else None
  }

  /** The "HH:MM" string a time input gives for hour `h` and minute `m`. */
  function ClockString(h: nat, m: nat): (r: string)
    ensures |r| == 5
  {
    TwoDigits(h) + ":" + TwoDigits(m)
  }

  /** Parsing reads back the hour and minute a time input wrote. */
  lemma ParseClockString(h: nat, m: nat)
    requires h < 24 && m < 60
    ensures ParseClock(ClockString(h, m)) == Some(h * 3600 + m * 60)
  {
    var s := ClockString(h, m);
    assert s[..2] == TwoDigits(h) && s[3..5] == TwoDigits(m);
    TwoDigitsRoundTrip(h);
    TwoDigitsRoundTrip(m);
  }

  /**
   * `calculateDuration`: 0 when either time is empty, otherwise the end
   * time minus the start time (negative when the end comes first; there is
   * no wrap past midnight), or NaN when a time is not a valid time.
   */
  function CalculateDuration(start: string, end: string): (d: Duration)
    ensures start == "" || end == "" ==> d == Seconds(0)
    ensures d.Seconds? && start != "" && end != "" ==>
      ParseClock(start).Some? && ParseClock(end).Some? && d.seconds == ParseClock(end).value - ParseClock(start).value
    ensures d.NotANumber? <==> start != "" && end != "" && (ParseClock(start).None? || ParseClock(end).None?)
  {
    if start == "" || end == "" then Seconds(0)
    else
      match (ParseClock(start), ParseClock(end))
      case (Some(s), Some(e)) => Seconds(e as int - s as int)
      case _ => NotANumber
  }

  /** The worked example: 09:00 to 11:30 is 2.5 hours. */
  lemma DurationNineToHalfPastEleven()
    ensures CalculateDuration("09:00", "11:30") == Seconds(5 * HourSeconds / 2)
  {
    assert "09:00" == ClockString(9, 0);
    assert "11:30" == ClockString(11, 30);
    ParseClockString(9, 0);
    ParseClockString(11, 30);
  }

  /** The result of pressing "Add Task". */
  datatype TaskCheck =
    | MissingFields     // "Please fill in all required fields."
    | NotAfterStart     // "End time must be after start time."
    | Accepted(duration: Duration)

  /**
   * The checks of `handleAddTask`, in their order: an empty title, start or
   * end time first, then a duration that is a number no greater than 0. A NaN
   * duration is not `<= 0` and passes.
   */
  function CheckNewTask(n: NewTask): (r: TaskCheck)
    ensures r == MissingFields <==> n.title == "" || n.startTime == "" || n.endTime == ""
    ensures r == NotAfterStart <==>
      n.title != "" && n.startTime != "" && n.endTime != "" &&
      CalculateDuration(n.startTime, n.endTime).Seconds? && CalculateDuration(n.startTime, n.endTime).seconds <= 0
    ensures r.Accepted? ==> r.duration == CalculateDuration(n.startTime, n.endTime)
    ensures r.Accepted? ==> r.duration.NotANumber? || r.duration.seconds > 0
  {
    if n.title == "" || n.startTime == "" || n.endTime == "" then MissingFields
    else
      var d := CalculateDuration(n.startTime, n.endTime);
      if d.Seconds? && d.seconds <= 0 then NotAfterStart else Accepted(d)
  }

  /** For two times a time input wrote, the duration is the difference of the clock readings. */
  lemma DurationOfClockStrings(h1: nat, m1: nat, h2: nat, m2: nat)
    requires h1 < 24 && m1 < 60 && h2 < 24 && m2 < 60
    ensures CalculateDuration(ClockString(h1, m1), ClockString(h2, m2)) ==
      Seconds(((h2 * 60 + m2) - (h1 * 60 + m1)) * 60)
  {
    var a, b := ClockString(h1, m1), ClockString(h2, m2);
    assert a != "" && b != "";
    ParseClockString(h1, m1);
    ParseClockString(h2, m2);
    assert (ParseClock(a), ParseClock(b)) == (Some(h1 * 3600 + m1 * 60), Some(h2 * 3600 + m2 * 60));
  }

  /** For times a time input wrote, a task is accepted exactly when its end is strictly after its start. */
  lemma AcceptedIffEndAfterStart(title: string, description: string, h1: nat, m1: nat, h2: nat, m2: nat)
    requires title != "" && h1 < 24 && m1 < 60 && h2 < 24 && m2 < 60
    ensures var n := NewTask(title, description, ClockString(h1, m1), ClockString(h2, m2));
      CheckNewTask(n).Accepted? <==> h1 * 60 + m1 < h2 * 60 + m2
  {
    var n := NewTask(title, description, ClockString(h1, m1), ClockString(h2, m2));
    DurationOfClockStrings(h1, m1, h2, m2);
    var d := CalculateDuration(n.startTime, n.endTime);
    assert d == Seconds(((h2 * 60 + m2) - (h1 * 60 + m1)) * 60);
    assert d.seconds > 0 <==> h1 * 60 + m1 < h2 * 60 + m2;
  }

  /** `tasks.filter(task => task.id !== taskId)`. */
  function RemoveTask(tasks: seq<Task>, taskId: int): (r: seq<Task>)
    ensures |r| <= |tasks|
    ensures forall i :: 0 <= i < |r| ==> r[i].id != taskId && r[i] in tasks
    ensures forall i :: 0 <= i < |tasks| && tasks[i].id != taskId ==> tasks[i] in r
  {
    Filter(tasks, (t: Task) => t.id != taskId)
  }

  /** Deleting an id no task has leaves the list as it was. */
  lemma RemoveAbsentTask(tasks: seq<Task>, taskId: int)
    requires forall i :: 0 <= i < |tasks| ==> tasks[i].id != taskId
    ensures RemoveTask(tasks, taskId) == tasks
  {
    FilterAll(tasks, (t: Task) => t.id != taskId);
  }

  /** The tasks that stay after a delete keep their order: the result is a sub-list of the old list. */
  lemma RemoveTaskKeepsOrder(tasks: seq<Task>, taskId: int)
    ensures IsSubsequence(RemoveTask(tasks, taskId), tasks)
  {
    FilterSubsequence(tasks, (t: Task) => t.id != taskId);
  }

  /** Deleting keeps the order of the remaining tasks: it works piecewise on a split list. */
  lemma RemoveTaskAppend(a: seq<Task>, b: seq<Task>, taskId: int)
    ensures RemoveTask(a + b, taskId) == RemoveTask(a, taskId) + RemoveTask(b, taskId)
  {
    FilterAppend(a, b, (t: Task) => t.id != taskId);
  }

  /** The filter `task => task.date.toDateString() === selectedDate.toDateString()`. */
  function OnDate(date: int): Task -> bool
  {
    (t: Task) => t.date == date
  }

  /** `filteredTasks`: the tasks on calendar day `date`, in list order. */
  function TasksOn(tasks: seq<Task>, date: int): (r: seq<Task>)
    ensures |r| <= |tasks|
    ensures forall i :: 0 <= i < |r| ==> r[i].date == date && r[i] in tasks
    ensures forall i :: 0 <= i < |tasks| && tasks[i].date == date ==> tasks[i] in r
  {
    Filter(tasks, OnDate(date))
  }

  /** JavaScript `+` on two durations: NaN absorbs everything. */
  function AddDurations(a: Duration, b: Duration): Duration
  {
    if a.Seconds? && b.Seconds? then Seconds(a.seconds + b.seconds) else NotANumber
  }

  /** `reduce((sum, task) => sum + task.duration, 0)`. */
  function SumDurations(tasks: seq<Task>): (d: Duration)
    decreases |tasks|
  {
    if tasks == [] then Seconds(0) else AddDurations(tasks[0].duration, SumDurations(tasks[1..]))
  }

  function SecondsOrZero(t: Task): int
  {
    if t.duration.Seconds? then t.duration.seconds else 0
  }

  /** The sum is NaN exactly when some task's duration is NaN; otherwise it is the plain sum. */
  lemma {:induction false} SumDurationsValue(tasks: seq<Task>)
    ensures SumDurations(tasks).NotANumber? <==> exists i :: 0 <= i < |tasks| && tasks[i].duration.NotANumber?
    ensures SumDurations(tasks).Seconds? ==> SumDurations(tasks).seconds == SumInt(tasks, SecondsOrZero)
    decreases |tasks|
  {
    if tasks != [] {
      SumDurationsValue(tasks[1..]);
      if exists i :: 0 <= i < |tasks[1..]| && tasks[1..][i].duration.NotANumber? {
        var i :| 0 <= i < |tasks[1..]| && tasks[1..][i].duration.NotANumber?;
        assert tasks[i + 1].duration.NotANumber?;
      }
      if exists i :: 0 <= i < |tasks| && tasks[i].duration.NotANumber? {
        var i :| 0 <= i < |tasks| && tasks[i].duration.NotANumber?;
        if i > 0 {
          assert tasks[1..][i - 1].duration.NotANumber?;
        }
      }
    }
  }

  /** `totalHours`: the summed duration of the tasks on `date`. */
  function DailyTotal(tasks: seq<Task>, date: int): (d: Duration)
    ensures d.NotANumber? <==>
      exists i :: 0 <= i < |TasksOn(tasks, date)| && TasksOn(tasks, date)[i].duration.NotANumber?
    ensures d.Seconds? ==> d.seconds == SumInt(TasksOn(tasks, date), SecondsOrZero)
  {
    SumDurationsValue(TasksOn(tasks, date));
    SumDurations(TasksOn(tasks, date))
  }

  /** The status badge: "Complete" iff `totalHours >= 8` (NaN is never >= 8). */
  predicate IsComplete(total: Duration)
  {
    total.Seconds? && total.seconds >= 8 * HourSeconds
  }

  /**
   * The day is "Complete" exactly when no task of the day has a NaN duration
   * and the durations of the day's tasks add up to at least 8 hours.
   */
  lemma CompleteIffEightHours(tasks: seq<Task>, date: int)
    ensures IsComplete(DailyTotal(tasks, date)) <==>
      && (forall i :: 0 <= i < |TasksOn(tasks, date)| ==> TasksOn(tasks, date)[i].duration.Seconds?)
      && SumInt(TasksOn(tasks, date), SecondsOrZero) >= 8 * HourSeconds
  {
    SumDurationsValue(TasksOn(tasks, date));
  }

  lemma {:induction false} SumDurationsAppend(a: seq<Task>, b: seq<Task>)
    ensures SumDurations(a + b) == AddDurations(SumDurations(a), SumDurations(b))
    decreases |a|
  {
    if a == [] {
      assert a + b == b;
      if SumDurations(b).Seconds? {
        assert AddDurations(Seconds(0), SumDurations(b)) == SumDurations(b);
      } else {
        assert AddDurations(Seconds(0), SumDurations(b)) == NotANumber;
      }
    } else {
      assert (a + b)[0] == a[0];
      assert (a + b)[1..] == a[1..] + b;
      SumDurationsAppend(a[1..], b);
    }
  }

  /**
   * Appending a task changes the total of its own date by its duration and
   * leaves the total of every other date as it was.
   */
  lemma DailyTotalAfterAppend(tasks: seq<Task>, t: Task, date: int)
    ensures DailyTotal(tasks + [t], date) ==
      if t.date == date then AddDurations(DailyTotal(tasks, date), t.duration) else DailyTotal(tasks, date)
  {
    var p := OnDate(date);
    FilterAppend(tasks, [t], p);
    assert [t][1..] == [];
    assert Filter([t], p) == if t.date == date then [t] else [];
    assert TasksOn(tasks + [t], date) == TasksOn(tasks, date) + Filter([t], p);
    if t.date == date {
      SumDurationsAppend(TasksOn(tasks, date), [t]);
      assert SumDurations([t]) == AddDurations(t.duration, Seconds(0));
      if t.duration.Seconds? {
        assert SumDurations([t]) == t.duration;
      }
    } else {
      assert TasksOn(tasks + [t], date) == TasksOn(tasks, date);
    }
  }

  /** The state of the page. */
  class TimesheetPage {
    var selectedDate: int
    var isAddingTask: bool
    var editingTask: Option<int>
    var newTask: NewTask
    var tasks: seq<Task>

    /** The page opened on day `today` over its initial tasks. */
    constructor (today: int, initial: seq<Task>)
      ensures selectedDate == today && !isAddingTask && editingTask == None
      ensures newTask == EmptyTask && tasks == initial
    {
      selectedDate, isAddingTask, editingTask := today, false, None;
      newTask, tasks := EmptyTask, initial;
    }

    /** The calendar's `onSelect`: a cleared selection keeps the current date. */
    method SelectDate(date: Option<int>)
      modifies this
      ensures selectedDate == if date.Some? then date.value else old(selectedDate)
      ensures tasks == old(tasks) && newTask == old(newTask) && isAddingTask == old(isAddingTask)
      ensures editingTask == old(editingTask)
    {
      if date.Some? {
        selectedDate := date.value;
      }
    }

    /**
     * The "Add Task" button opens the form; "Cancel", shown only inside the
     * open form, closes it. Neither touches the tasks.
     */
    method SetAddingTask(open: bool)
      requires open || isAddingTask
      modifies this
      ensures isAddingTask == open
      ensures tasks == old(tasks) && newTask == old(newTask) && selectedDate == old(selectedDate)
      ensures editingTask == old(editingTask)
    {
      isAddingTask := open;
    }

    /** An input's `onChange` in the add-task form, which is shown only while it is open. */
    method EditNewTask(f: TaskField, value: string)
      requires isAddingTask
      modifies this
      ensures newTask == UpdateTask(old(newTask), f, value)
      ensures tasks == old(tasks) && isAddingTask == old(isAddingTask) && selectedDate == old(selectedDate)
      ensures editingTask == old(editingTask)
    {
      newTask := UpdateTask(newTask, f, value);
    }

    /**
     * `handleAddTask`, with `Date.now()` as `id`. A rejected task changes
     * nothing. An accepted one is appended on the selected date, after every
     * existing task; the form is emptied and closed. "Save Task" is shown
     * only while the form is open.
     */
    method AddTask(id: int) returns (outcome: TaskCheck)
      requires isAddingTask
      modifies this
      ensures outcome == CheckNewTask(old(newTask))
      ensures outcome.Accepted? ==>
        && tasks == old(tasks) + [Task(id, old(newTask).title, old(newTask).description, old(newTask).startTime,
                                       old(newTask).endTime, old(selectedDate), outcome.duration)]
        && newTask == EmptyTask && !isAddingTask
      ensures !outcome.Accepted? ==> tasks == old(tasks) && newTask == old(newTask) && isAddingTask == old(isAddingTask)
      ensures selectedDate == old(selectedDate) && editingTask == old(editingTask)
    {
      outcome := CheckNewTask(newTask);
      if outcome.Accepted? {
        var task := Task(id, newTask.title, newTask.description, newTask.startTime, newTask.endTime,
                         selectedDate, outcome.duration);
        tasks := tasks + [task];
        newTask := EmptyTask;
        isAddingTask := false;
      }
    }

    /**
     * `handleDeleteTask`: every task with the id goes, the rest stay in order.
     * Its button is shown only beside a task of the selected date.
     */
    method DeleteTask(taskId: int)
      requires exists i :: 0 <= i < |TasksOn(tasks, selectedDate)| && TasksOn(tasks, selectedDate)[i].id == taskId
      modifies this
      ensures tasks == RemoveTask(old(tasks), taskId)
      ensures newTask == old(newTask) && isAddingTask == old(isAddingTask)
      ensures selectedDate == old(selectedDate) && editingTask == old(editingTask)
    {
      tasks := RemoveTask(tasks, taskId);
    }
  }
}
