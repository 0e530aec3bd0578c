# TimeTracker dashboard rules, modelled in Dafny

TimeTracker is a React dashboard for employees and HR. Most of it is forms and tables. This project models the few rules inside its pages, and proves properties of them:

- **Attendance summary** (`Attendance.dfy`). `calculateStats` counts the records per status. It sums hours and tasks, and computes the rounded attendance rate.
- **Leave request page** (`LeaveRequest.dfy`). `calculateDays` gives the inclusive day count of a date range. `handleSubmitLeave` validates the form, puts a new pending request at the front of the list and resets the form. The page shows the first three requests of the list, by position.
- **Daily timesheet** (`Timesheet.dfy`). `calculateDuration` turns two clock times into a duration. `handleAddTask` and `handleDeleteTask` add and remove tasks. The page has the selected day's task list, its total, and the "Complete" badge from 8 hours on.
- **Leave history** (`LeaveHistory.dfy`). A search, status and month filter over the leave records, and the counts and approved-day total shown above them.
- **Profile page** (`Profile.tsx` → `Profile.dfy`). Password-change validation and reset, the edit toggles and field handlers, the avatar initials, and the role and department labels.
- **Mock session** (`AuthContext.tsx` → `Auth.dfy`). Login by lookup in the three hard-coded accounts, logout, and restoring the session from browser storage on start. Also the derived `isAuthenticated` and `isAdmin`.

Shared pieces:
- `Lists.dfy` holds `filter`, `.length` and `reduce` sums, with order and permutation facts.
- `Text.dfy` holds `toLowerCase`, `includes`, `split`/`join` and zero-padded digits.
- `Arithmetic.dfy` holds facts about multiplication and `Math.ceil`.
- `Common.dfy` holds `Option` and the leave status.

How the code's behaviour is modelled:
- **Handlers as class methods.** A handler that replaces React state becomes a method of a class. A handler whose input or button the page shows or enables only in some state requires that state. The class holds that state as fields. Each method states its whole new state in terms of the old one. The pure rule it applies is a separate function: `CheckSubmission`, `CheckNewTask`, `CheckPasswordChange`, `FindAccount`, `RestoreSession`. The lemmas are proved about those functions.
- **Values from outside become parameters.** `Date.now()` ids and `new Date()` are passed in. So is `JSON.parse` of the stored user record, as a function that can fail, give `null` or give a user. Browser storage is a `map<string, string>`.
- **Exact arithmetic in place of JavaScript doubles.** The code computes with IEEE doubles; the model computes exactly, so it can differ where a double rounds (see "## Left out"). The special values and the integer operations keep JavaScript's results:
  - Leave dates are millisecond timestamps, so `Math.ceil` and `Math.abs` act as in the code.
  - Task durations are whole seconds, so an hour figure is seconds / 3600.
  - Attendance hours are exact reals.
  - `Math.round` of the rate is round-half-up of the exact ratio.
  - Division by zero gives NaN or Infinity, kept as values of `Rate`.
  - A time string that does not parse gives NaN, kept as a value of `Duration`.
- **Truthiness.** `0` and `''` are falsy wherever the code tests a value with `!x` or `||`.

Some behaviour of the code differs from what a reader of a leave and attendance system might expect. The model follows the code:
- **Attendance rate with no working days.** One might expect a rate of 0 when there are no working days. The code divides 0 by 0 for an empty list, or one where every day is leave, so the rate is NaN (`RateBounds`).
- **Hours and tasks counted.** One might expect hours and tasks to be summed over present days only. The code sums them over every record that has a value (`TotalHoursOverAllRecords`).
- **No time-range error.** `calculateDuration` does not reject an end time before the start time. It returns the negative or zero difference, and `handleAddTask` then rejects it. A NaN duration is not `<= 0`, so it passes that check (`CheckNewTask`).
- **No balance or overlap checks.** Submission checks neither the leave balance nor overlapping requests, and no code approves or rejects a request. `CheckSubmission` takes no balance, so acceptance cannot depend on it, and the balance is a constant of the page.

## Model

| member | source | states |
|---|---|---|
| Attendance.CalculateStats | src/pages/AttendanceSummary.tsx:48-69 | totalDays is the number of records, and leave days never exceed it |
| Attendance.CountsPartition | src/pages/AttendanceSummary.tsx:49-52 | each record has one of three statuses, so presentDays + leaveDays + absentDays == totalDays |
| Attendance.PresentWithinWorkingDays | src/pages/AttendanceSummary.tsx:150 | presentDays lies between 0 and the displayed working days totalDays − leaveDays |
| Attendance.AttendanceRate | src/pages/AttendanceSummary.tsx:67 | NaN iff both counts are 0, Infinity iff only the divisor is 0; otherwise the percentage rounded half up, in 0..100 when present ≤ working |
| Attendance.RoundHalfUp | src/pages/AttendanceSummary.tsx:67 | `Math.round(n/d)` is the whole number r with 2dr ≤ 2n + d < 2d(r+1): nearest, halves rounded up |
| Attendance.RoundedPercentAtMost100 | src/pages/AttendanceSummary.tsx:67 | a rounded percentage of a ratio of at most 1 is at most 100 |
| Attendance.RoundHalfUpWhole | src/pages/AttendanceSummary.tsx:67 | rounding k·w / w gives exactly k |
| Attendance.RateBounds | src/pages/AttendanceSummary.tsx:67 | with a working day the rate is a whole percentage in 0..100; it is NaN iff totalDays == leaveDays; it is never Infinity |
| Attendance.FullAttendance | src/pages/AttendanceSummary.tsx:67 | with no absent day and some present day, the rate is 100 |
| Attendance.TotalHoursOverAllRecords | src/pages/AttendanceSummary.tsx:53-55 | totalHours is the sum of hoursWorked over all records, missing values as 0, whatever the status |
| Attendance.TotalTasksOverAllRecords | src/pages/AttendanceSummary.tsx:56-58 | totalTasks is the sum of tasksLogged over all records, missing values as 0 |
| Attendance.StatsPermutation | src/pages/AttendanceSummary.tsx:48-69 | every statistic is the same for any reordering of the records |
| LeaveRequestPage.CalculateDays | src/pages/LeaveRequest.tsx:64-68 | the result is at least 1, and is one more than the least number of whole days covering the time between the two dates |
| LeaveRequestPage.CalculateDaysSymmetric | src/pages/LeaveRequest.tsx:65 | the order of the two dates does not matter |
| LeaveRequestPage.CalculateDaysSameDate | src/pages/LeaveRequest.tsx:64-67 | the same date gives 1 day |
| LeaveRequestPage.CalculateDaysWholeDays | src/pages/LeaveRequest.tsx:65-66 | dates a whole number of days apart give the inclusive span to − from + 1 |
| LeaveRequestPage.CalculateDaysPartialDay | src/pages/LeaveRequest.tsx:66 | any part of a day beyond k whole days counts as one more day (k + 2 in all) |
| LeaveRequestPage.CheckSubmission | src/pages/LeaveRequest.tsx:70-89 | rejected for a missing field iff a date is unset or type or reason is empty; rejected for the range iff all fields are set and from > to; otherwise accepted with days = calculateDays |
| LeaveRequestPage.RecentRequests | src/pages/LeaveRequest.tsx:309 | at most three requests are shown, and they are the first ones of the list (all of them when fewer than three) |
| LeaveRequestPage.NewestShownFirst | src/pages/LeaveRequest.tsx:101 | after a submission the new request is shown first, followed by the first two entries (by position) of the old list, or all of it when shorter |
| LeaveRequestPage.LeaveRequestForm.constructor | src/pages/LeaveRequest.tsx:30-39 | the form starts empty, with the initial request list and the balance casual 8, sick 4, earned 12 |
| LeaveRequestPage.LeaveRequestForm.SetFromDate | src/pages/LeaveRequest.tsx:242 | the start-date calendar sets the start date (or unsets it) and changes nothing else |
| LeaveRequestPage.LeaveRequestForm.SetToDate | src/pages/LeaveRequest.tsx:269 | the end-date calendar sets the end date and changes nothing else |
| LeaveRequestPage.LeaveRequestForm.SetLeaveType | src/pages/LeaveRequest.tsx:204 | the type select sets the leave type and changes nothing else |
| LeaveRequestPage.LeaveRequestForm.SetReason | src/pages/LeaveRequest.tsx:283 | the reason textarea sets the reason and changes nothing else |
| LeaveRequestPage.LeaveRequestForm.SubmitLeave | src/pages/LeaveRequest.tsx:70-113 | a rejected submission changes nothing; an accepted one puts exactly one pending request with the computed days in front of the old list and empties the four fields |
| Timesheet.ParseClock | src/pages/TimesheetLogging.tsx:71-72 | a parsed "HH:MM" or "HH:MM:SS" time is at most 24 hours after midnight |
| Timesheet.ParseClockString | src/pages/TimesheetLogging.tsx:71-72 | parsing the "HH:MM" a time input writes gives back that hour and minute |
| Timesheet.CalculateDuration | src/pages/TimesheetLogging.tsx:69-75 | 0 when either time is empty; otherwise end minus start; NaN iff both are given and one does not parse |
| Timesheet.DurationNineToHalfPastEleven | src/pages/TimesheetLogging.tsx:69-75 | 09:00 to 11:30 lasts 2.5 hours |
| Timesheet.DurationOfClockStrings | src/pages/TimesheetLogging.tsx:71-74 | for two input times the duration is the difference of the clock readings, negative when the end comes first |
| Timesheet.CheckNewTask | src/pages/TimesheetLogging.tsx:78-96 | rejected for a missing field iff title, start or end is empty; rejected for the range iff fields are filled and the duration is a number ≤ 0; an accepted duration is NaN or positive |
| Timesheet.AcceptedIffEndAfterStart | src/pages/TimesheetLogging.tsx:87-96 | for input times, a task with a title is accepted iff its end is strictly after its start |
| Timesheet.RemoveTask | src/pages/TimesheetLogging.tsx:116 | the result holds no task with the id, and holds every task of the old list that has another id |
| Timesheet.RemoveAbsentTask | src/pages/TimesheetLogging.tsx:116 | deleting an id no task has leaves the list unchanged |
| Timesheet.RemoveTaskKeepsOrder | src/pages/TimesheetLogging.tsx:116 | the remaining tasks are an order-preserving sub-list of the old list |
| Timesheet.RemoveTaskAppend | src/pages/TimesheetLogging.tsx:116 | deleting works piecewise on the two halves of a list |
| Timesheet.TasksOn | src/pages/TimesheetLogging.tsx:123-125 | the shown tasks are exactly the tasks dated on the selected day |
| Timesheet.SumDurationsValue | src/pages/TimesheetLogging.tsx:127 | the total is NaN iff some task's duration is NaN, and otherwise the plain sum of the durations |
| Timesheet.SumDurationsAppend | src/pages/TimesheetLogging.tsx:127 | the total of two lists joined is the sum of their totals |
| Timesheet.DailyTotal | src/pages/TimesheetLogging.tsx:127 | the day's total is NaN iff some task of the day has a NaN duration, and otherwise the sum of the day's durations |
| Timesheet.IsComplete | src/pages/TimesheetLogging.tsx:186-187 | the badge test; characterised over the day's tasks by `CompleteIffEightHours` |
| Timesheet.CompleteIffEightHours | src/pages/TimesheetLogging.tsx:186-187 | the day is "Complete" iff no task of the day has a NaN duration and the day's durations add up to at least 8 hours |
| Timesheet.DailyTotalAfterAppend | src/pages/TimesheetLogging.tsx:123-127 | appending a task adds its duration to its own day's total and leaves every other day's total unchanged |
| Timesheet.TimesheetPage.constructor | src/pages/TimesheetLogging.tsx:28-37 | the page opens on today, with the form closed and empty |
| Timesheet.TimesheetPage.SelectDate | src/pages/TimesheetLogging.tsx:157 | a selected date becomes current; a cleared selection keeps the old one; nothing else changes |
| Timesheet.TimesheetPage.SetAddingTask | src/pages/TimesheetLogging.tsx:137 | the Add Task button opens the form; closing is callable only while it is open, as the Cancel button exists only then (lines 198, 252); nothing else changes |
| Timesheet.UpdateTask | src/pages/TimesheetLogging.tsx:212-242 | editing a form input replaces that one field of the new task and keeps the other three |
| Timesheet.TimesheetPage.EditNewTask | src/pages/TimesheetLogging.tsx:198-242 | while the form is open, an input's onChange updates that field of the new task; nothing else changes |
| Timesheet.TimesheetPage.AddTask | src/pages/TimesheetLogging.tsx:77-113 | callable only while the form is open (lines 198, 248); a rejected task changes nothing; an accepted one is appended after all old tasks on the selected date with its duration, and the form is emptied and closed |
| Timesheet.TimesheetPage.DeleteTask | src/pages/TimesheetLogging.tsx:115-121 | callable only with the id of a task on the selected date, the only ones with a delete button (lines 277, 307); the list becomes the old list without the tasks that have the id; nothing else changes |
| LeaveHistory.FormatYearMonth | src/pages/LeaveHistory.tsx:93 | `format(d, 'yyyy-MM')` is seven characters with a dash at position 4 for a four-digit year |
| LeaveHistory.FormatYearMonthInjective | src/pages/LeaveHistory.tsx:93 | two dates format alike iff they have the same year and month |
| LeaveHistory.FilteredLeaves | src/pages/LeaveHistory.tsx:88-96 | a record is shown iff search, status and month all match; the shown count never exceeds the total (line 248) |
| LeaveHistory.MatchesSearch | src/pages/LeaveHistory.tsx:89-90 | the search test; characterised by `EmptySearchMatchesAll` and `SearchIgnoresCase`, with `Text.ContainsAt` for `includes` |
| LeaveHistory.MatchesStatus | src/pages/LeaveHistory.tsx:91 | the status test; characterised by `StatusFilterSelects` |
| LeaveHistory.MatchesMonth | src/pages/LeaveHistory.tsx:92-93 | the month test; characterised by `MonthFilterSelects` |
| LeaveHistory.FilteredLeavesInOrder | src/pages/LeaveHistory.tsx:88 | the shown records are an order-preserving sub-list of the history |
| LeaveHistory.FilteredLeavesAppend | src/pages/LeaveHistory.tsx:88 | filtering works piecewise on the two halves of a list |
| LeaveHistory.EmptySearchMatchesAll | src/pages/LeaveHistory.tsx:89-90 | the empty search term matches every record |
| LeaveHistory.SearchIgnoresCase | src/pages/LeaveHistory.tsx:89-90 | a term and its lower-case form match the same records |
| LeaveHistory.StatusFilterSelects | src/pages/LeaveHistory.tsx:91 | a status filter naming a status keeps exactly the records with that status |
| LeaveHistory.MonthFilterSelects | src/pages/LeaveHistory.tsx:92-93 | a month filter "yyyy-MM" keeps exactly the records that start in that month |
| LeaveHistory.NoFilterShowsAll | src/pages/LeaveHistory.tsx:88-96 | with an empty search and both filters on 'all', every record is shown in order |
| LeaveHistory.ComputeLeaveStats | src/pages/LeaveHistory.tsx:120-126 | the total is the number of records |
| LeaveHistory.StatusCountsPartition | src/pages/LeaveHistory.tsx:120-124 | approved + pending + rejected == total |
| LeaveHistory.TotalDaysApprovedOnly | src/pages/LeaveHistory.tsx:125 | totalDays sums the days of approved records; pending and rejected ones count 0 |
| LeaveHistory.TotalDaysAfterAppend | src/pages/LeaveHistory.tsx:125 | one more record adds its days to totalDays iff it is approved |
| Common.StatusNameInjective | src/pages/LeaveHistory.tsx:19 | two statuses have the same name iff they are the same status |
| Text.ContainsAt | src/pages/LeaveHistory.tsx:89-90 | `s.includes(t)` holds iff t is the slice of s at some position |
| Text.ToLowerIdempotent | src/pages/LeaveHistory.tsx:89-90 | lower-casing twice is lower-casing once |
| Text.FourDigitsRoundTrip | src/pages/LeaveHistory.tsx:93 | reading back a four-digit zero-padded year gives the year |
| Text.JoinSplit | src/pages/Profile.tsx:99 | joining the pieces of `split(' ')` with a space gives the name back |
| Profile.CheckPasswordChange | src/pages/Profile.tsx:44-66 | a mismatch iff new ≠ confirm; too short iff they match and the length is below 6; changed iff they match and the length is at least 6; the current password is never read |
| Profile.InitialProfile | src/pages/Profile.tsx:20-28 | the department starts as the user's department, or '' without a user |
| Profile.UpdateField | src/pages/Profile.tsx:157-206 | editing a field changes that field only; department and date of joining never change |
| Profile.Initials | src/pages/Profile.tsx:99 | the initials equal the independent word-start scan, are no longer than the name, and hold no space and only characters of the name |
| Profile.InitialsAreWordStarts | src/pages/Profile.tsx:99 | the initials are the characters that start a word, in order; empty words from doubled spaces contribute nothing |
| Profile.RoleLabel | src/pages/Profile.tsx:79 | the label is 'Admin/HR' iff the user is an admin, and 'Employee' otherwise |
| Profile.DepartmentLabel | src/pages/Profile.tsx:78 | the user's department when it is non-empty, 'Engineering' otherwise |
| Profile.ProfilePage.constructor | src/pages/Profile.tsx:17-34 | not editing, password panel closed, initial profile, empty password fields |
| Profile.ProfilePage.ToggleEditing | src/pages/Profile.tsx:143 | the Edit button flips isEditing and changes nothing else |
| Profile.ProfilePage.ProfileUpdate | src/pages/Profile.tsx:36-42 | callable only while editing (the Save Changes button exists only then, line 212); saving ends editing and keeps the data as edited |
| Profile.ProfilePage.EditField | src/pages/Profile.tsx:154-208 | while editing (the inputs are disabled otherwise), an input's onChange updates its field; the department, which has no handler and a disabled input (lines 184-188), keeps its value |
| Profile.ProfilePage.TogglePasswordPanel | src/pages/Profile.tsx:239 | the panel button flips isChangingPassword and changes nothing else |
| Profile.ProfilePage.EditPassword | src/pages/Profile.tsx:245-273 | while the password panel is open (the inputs exist only then), a password input's onChange updates its field only |
| Profile.ProfilePage.ChangePassword | src/pages/Profile.tsx:44-74 | callable only while the panel is open (lines 245, 278); a rejected change leaves the fields and the open panel as they were; an accepted one clears all three fields and closes the panel |
| Auth.FindAccount | src/contexts/AuthContext.tsx:81 | the result is the first account that matches both email and password, or none iff no account matches |
| Auth.MockEmailsDistinct | src/contexts/AuthContext.tsx:54-79 | no two mock accounts share an email |
| Auth.LoginMatchIsUnique | src/contexts/AuthContext.tsx:54-81 | any matching account is the one the lookup finds |
| Auth.UserJson | src/contexts/AuthContext.tsx:88 | the stored user record is a non-empty string |
| Auth.Token | src/contexts/AuthContext.tsx:85 | the token; characterised by `TokenInjective` |
| Auth.TokenInjective | src/contexts/AuthContext.tsx:85 | two users get the same token iff they have the same id |
| Auth.LoginStorage | src/contexts/AuthContext.tsx:87-88 | login writes the token "mock_jwt_token_" + id and the user record, and keeps every other key |
| Auth.ClearSession | src/contexts/AuthContext.tsx:99-101 | both auth keys are removed and every other key is kept |
| Auth.RestoreSession | src/contexts/AuthContext.tsx:34-47 | a user is restored iff both keys hold non-empty values and the record parses to a user; a parse error removes both keys; otherwise storage is untouched |
| Auth.RestoreAfterLogin | src/contexts/AuthContext.tsx:36-41 | a session written by login is restored to the same user |
| Auth.RestoreAfterLogout | src/contexts/AuthContext.tsx:36-39 | after logout no user is restored |
| Auth.IsAuthenticated | src/contexts/AuthContext.tsx:109 | `!!user`; related to `isAdmin` by `AdminIsAuthenticated` |
| Auth.IsAdmin | src/contexts/AuthContext.tsx:110 | `user?.role === 'admin'`; implies `isAuthenticated` (`AdminIsAuthenticated`) and selects the 'Admin/HR' label (`Profile.RoleLabel`) |
| Auth.AdminIsAuthenticated | src/contexts/AuthContext.tsx:109-110 | an admin is always authenticated |
| Auth.AuthProvider.constructor | src/contexts/AuthContext.tsx:31-32 | no user and loading, over the browser's storage |
| Auth.AuthProvider.Start | src/contexts/AuthContext.tsx:34-49 | run once at mount, while loading and with no user; it sets user and storage as RestoreSession says and ends loading |
| Auth.AuthProvider.Login | src/contexts/AuthContext.tsx:51-97 | callable only after loading has ended (lines 113-117); true iff some mock account matches both email and password; on success the user is that account without its password and storage holds the token and record; on failure user and storage are unchanged |
| Auth.AuthProvider.Logout | src/contexts/AuthContext.tsx:99-103 | callable only after loading has ended (lines 113-117); no user, and both keys removed from storage |

## Left out

- Rendering: JSX, toasts, icons, badge and colour mapping, calendar `disabled` predicates, and the `isLoading` splash screen are presentation only.
- Other files: AdminDashboard.tsx, EmployeeDashboard.tsx, AddEmployeeForm.tsx, Sidebar.tsx, Layout.tsx, App.tsx and Index.tsx are not part of this model. They hold hard-coded figures, a form validated by a library and saved over the network, and routing. The initials in Sidebar.tsx repeat Profile.tsx:99.
- Attendance.CalculateStats: hours are exact reals, not IEEE doubles, so float rounding in the sums and the `toFixed(1)` display are not modelled.
- Attendance.RoundHalfUp: rounds the exact ratio, not the double `(present / working) * 100`. When that double falls just below a half, the code rounds down where the model rounds up: 23 present of 40 working days gives 57.49999999999999 and 57 in the code, 58 in the model.
- Timesheet.CompleteIffEightHours: the total is exact whole seconds, not a sum of doubles in hours. Durations whose double sum falls just below 8 are "Incomplete" in the code and "Complete" in the model: 09:00–09:05, 09:05–15:10 and 15:10–17:00 add up to 7.999999999999999 in the code.
- The simulated export with `setTimeout` (AttendanceSummary.tsx:80-85) is a timer that only shows a toast.
- LeaveRequestPage.CalculateDays: dates are millisecond timestamps without time zones. Daylight-saving effects show only as the partial-day case of `CalculateDaysPartialDay`.
- LeaveHistory.FormatYearMonth: the date is given as a calendar date, not derived from a timestamp in a time zone.
- Timesheet.ParseClock: accepts the "HH:MM" and "HH:MM:SS" forms of the ECMAScript date-time format only. Fractional seconds and the implementation-specific fallback parsing of other strings are not modelled.
- Timesheet.TasksOn: dates are calendar-day numbers, so `toDateString()` equality is day-number equality.
- Text.ToLower: lower-cases ASCII letters only; Unicode case mapping is not modelled.
- Profile.CheckPasswordChange: the length is the number of characters, not UTF-16 code units, so three characters outside the Basic Multilingual Plane are too short here but length 6, and accepted, in the code.
- Profile.Initials: takes the first character of a word, where the code's `n[0]` takes the first UTF-16 code unit, half of a surrogate pair for a character outside the Basic Multilingual Plane.
- Auth.UserJson: writes no JSON escaping, which none of the mock users' values needs. Parsing is a parameter of `RestoreSession`. A parse result that is neither `null` nor a user record (such as a number) is not modelled.
- Auth.AuthProvider.Login: does not model the `catch` branch, because a thrown `localStorage` exception is outside the model. The `async`/`Promise` wrapper is not modelled either.
- The edit button of a task only sets `editingTask`, and no handler of the page reads it afterwards. The field is kept but has no method.
- LeaveRequestPage.LeaveRequestForm.SetFromDate: the calendar's `disabled` test for past dates is presentation, so any date can be set.
- Leave balance deduction, overlap checks and approve/reject transitions are not in the code, so they are not in the model.
