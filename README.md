# Small Java exercises, modelled in Dafny

This project models the stateable logic of a set of small Java teaching
exercises:

- a fixed-capacity to-do list (`TodoList` over an array of `Task` objects),
- an elapsed-time tracker (`ProjectTime`) that keeps the minutes between two
  timestamps up to date and shows them in minutes, hours, days or 30-day months,
- two copies of a next-weekday finder (`findNextDayOfWeek`),
- two copies of a year/month period phrase builder (`calculatePeriod`),
- a recursive factorial in 64-bit `long` arithmetic.

Each source file is one module: `Todo` (Task.java and TodoList.java),
`TimeTracker`, `DayOfWeekFinder`, `Gp1DayOfWeekFinder`, `MonthlyPeriod`,
`Gp1MonthlyPeriod` and `RecursiveFactorial`. Four helper modules hold what
the exercises borrow from Java's libraries or share:

- `Wrappers`: an `Option` for calls that may throw.
- `Decimal`: `Integer.toString`.
- `JavaTime`: `java.time.DayOfWeek`, `LocalDate` as epoch days with its
  range, `getDayOfWeek`, `plusDays`, `String.toUpperCase`, and `Period`.
- `PeriodWording`: an independent statement of the intended phrase. Both
  period calculators are proved equal to it.

The to-do list and the tracker are classes whose methods update fields in
place, as in the source. The finders, the phrase builders and the factorial
are functions.

Library calls that the model does not reimplement are parameters:
- Date parsing (`SimpleDateFormat.parse`, `LocalDate.parse`) is a
  function-typed argument. It returns `None` where the library throws.
- `Period.between` is a function-typed argument too.
- The tracker's parser returns epoch milliseconds, as `Date.getTime()` does.

The minutes value is a `float` in Java. Here it is an exact `real`. Java's
`(int)` cast is written out: it truncates toward zero and clamps to the `int`
range. The factorial's `long` multiplication wraps round modulo 2^64
(`WrapLong`).

`calculateHoursLogged` stores the raw quotient first and replaces a negative
value by -1 afterwards. `CalculateHoursLogged` takes the same two steps; its
postcondition describes only the final state.

## Model

| member | source | states |
|---|---|---|
| `Todo.Task.constructor` | gp1/TodoList/Task.java:7-10 | a new task has the given description and status NEW |
| `Todo.Task.SetDescription` | gp1/TodoList/Task.java:12-14 | the description is replaced and the status is unchanged |
| `Todo.Task.SetStatus` | gp1/TodoList/Task.java:16-18 | the status is replaced and the description is unchanged |
| `Todo.Task.GetDescription` | gp1/TodoList/Task.java:20-22 | returns the stored description and modifies nothing |
| `Todo.Task.GetStatus` | gp1/TodoList/Task.java:24-26 | returns the stored status and modifies nothing |
| `Todo.TodoList.constructor` | gp1/TodoList/TodoList.java:8-12 | the array has `capacity` empty slots, `count` is 0 and the list is empty; the invariant (`count <= capacity`, distinct tasks below `count`, empty slots above) holds |
| `Todo.TodoList.AddTask` | gp1/TodoList/TodoList.java:14-20 | below capacity, a task (description, NEW) is appended at old `count`, `count` grows by one and earlier slots keep their task objects; at capacity nothing changes; the invariant is kept |
| `Todo.TodoList.SetStatus` | gp1/TodoList/TodoList.java:22-29 | for `0 <= index < count` only that task's status changes; its description and all other tasks are unchanged; any other index changes nothing |
| `Todo.TodoList.SetDescription` | gp1/TodoList/TodoList.java:31-36 | for `0 <= index < count` only that task's description changes; its status and all other tasks are unchanged; any other index changes nothing |
| `TimeTracker.ElapsedMinutes` | gp1/TimeTracker/ProjectTime.java:78-107 | the stored value is -1 or non-negative; it is -1 exactly when a timestamp fails to parse or the end precedes the start; otherwise it is the millisecond span divided by 60000 |
| `TimeTracker.IntCast` | gp1/TimeTracker/ProjectTime.java:53 | Java's `(int)` cast of a floating value stays in the `int` range, and on non-negative values below `Integer.MAX_VALUE` it is the floor |
| `TimeTracker.FormatSentinel` | gp1/TimeTracker/ProjectTime.java:44-46 | the shown text is "-1" if and only if the stored value is -1 |
| `TimeTracker.UnitExistsAndIsUnique` | gp1/TimeTracker/ProjectTime.java:51-74 | every non-negative duration has exactly one admissible unit: the next smaller unit would show 120 or more, and the unit itself shows fewer than 120 unless it is months |
| `TimeTracker.FormatShowsAdmissibleUnit` | gp1/TimeTracker/ProjectTime.java:48-74 | a non-negative duration is shown as its count of whole admissible units followed by " m", " h", " d" or " mo" |
| `TimeTracker.ShownCount` | gp1/TimeTracker/ProjectTime.java:52-74 | the shown number is the truncated count of units, so count × unit <= minutes < (count+1) × unit (for months while the count is below `Integer.MAX_VALUE`); it is below 120 except for months, and at least 2 h, 5 d or 4 mo once a unit is passed |
| `TimeTracker.FormatBoundaries` | gp1/TimeTracker/ProjectTime.java:52-74 | 60 minutes shows "60 m", 120 minutes "2 h", 7200 minutes "5 d", 121 days "4 mo" |
| `TimeTracker.EqualTimesShowZero` | gp1/TimeTracker/ProjectTime.java:92-101 | equal timestamps that parse give 0 minutes, shown as "0 m" |
| `TimeTracker.ProjectTime.constructor` | gp1/TimeTracker/ProjectTime.java:13-17 | stores both timestamps and a minutes value consistent with them |
| `TimeTracker.ProjectTime.SetStartTime` | gp1/TimeTracker/ProjectTime.java:20-23 | replaces the start only, keeps the end, and recomputes the minutes from the new pair |
| `TimeTracker.ProjectTime.SetEndTime` | gp1/TimeTracker/ProjectTime.java:26-29 | replaces the end only, keeps the start, and recomputes the minutes from the new pair |
| `TimeTracker.ProjectTime.GetStartTime` | gp1/TimeTracker/ProjectTime.java:32-34 | returns the stored start and modifies nothing |
| `TimeTracker.ProjectTime.GetEndTime` | gp1/TimeTracker/ProjectTime.java:37-39 | returns the stored end and modifies nothing |
| `TimeTracker.ProjectTime.GetHoursLogged` | gp1/TimeTracker/ProjectTime.java:42-75 | returns "-1" exactly when the stored value is the sentinel; it reads the object and changes nothing, so repeated calls agree |
| `TimeTracker.ProjectTime.CalculateHoursLogged` | gp1/TimeTracker/ProjectTime.java:78-107 | after the store-then-clamp steps, the field equals `ElapsedMinutes` of the two parsed timestamps |
| `Decimal.NatToString` | gp1/MonthlyPeriod/MonthlyPeriod.java:22-23 | decimal rendering of a count is non-empty, all digits, with no leading zero |
| `Decimal.ParseNatToString` | gp1/MonthlyPeriod/MonthlyPeriod.java:22-23 | reading back the rendered digits gives the count again |
| `Decimal.IntToString` | gp1/TimeTracker/ProjectTime.java:53 | `Integer.toString` starts with '-' exactly for negative numbers and is all digits otherwise |
| `JavaTime.DayOfWeekOf` | DayOfWeek/DayOfWeekFinder.java:11 | `DayOfWeek.of` inverts `getValue()` on 1..7 |
| `JavaTime.ValueOf` | DayOfWeek/DayOfWeekFinder.java:10 | `DayOfWeek.valueOf` finds a day exactly when the string is that day's name |
| `JavaTime.DayNameAnyCase` | DayOfWeek/DayOfWeekFinder.java:10 | after upper-casing, any spelling of a day's name with each letter in either case ("monday", "Monday", "mONDAY") selects that day |
| `JavaTime.WeekdayCycle` | DayOfWeek/DayOfWeekFinder.java:11 | 1970-01-01 (epoch day 0) is a Thursday, and the weekday repeats every seven days |
| `JavaTime.PlusDaysRoundTrip` | DayOfWeek/DayOfWeekFinder.java:22 | adding `n` days and then `-n` days returns to the start date |
| `JavaTime.WeekdayAfter` | DayOfWeek/DayOfWeekFinder.java:22 | `k` days later the weekday number has moved `k` steps round the week |
| `DayOfWeekFinder.DaysToAdd` | DayOfWeek/DayOfWeekFinder.java:13-20 | the offset is in 1..7; the start's weekday advanced by it is the target; it is 7 exactly when the two weekdays are equal |
| `DayOfWeekFinder.FindNextDayOfWeek` | DayOfWeek/DayOfWeekFinder.java:7-27 | the answer is Error exactly when the date does not parse, the name is unknown in any case, or the result is past `LocalDate.MAX`; otherwise it is the first date strictly after the start that falls on the target |
| `DayOfWeekFinder.NextOccurrenceAt` | DayOfWeek/DayOfWeekFinder.java:15-22 | the start plus the offset falls on the target, and no earlier later-than-start date does |
| `DayOfWeekFinder.NextOccurrenceUnique` | DayOfWeek/DayOfWeekFinder.java:15-22 | there is only one next occurrence of a weekday |
| `DayOfWeekFinder.SameWeekdayIsAWeekLater` | DayOfWeek/DayOfWeekFinder.java:17-20 | a target equal to the start's weekday gives the date seven days on, never the start |
| `DayOfWeekFinder.DayNameCaseInsensitive` | DayOfWeek/DayOfWeekFinder.java:10 | a day name with each letter in either case gives the same answer as the upper-case name |
| `Gp1DayOfWeekFinder.Diff` | gp1/DayOfWeek/DayOfWeekFinder.java:18-22 | the offset is in 1..7; the start's weekday advanced by it is the target; it is 7 exactly for the same weekday |
| `Gp1DayOfWeekFinder.FindNextDayOfWeek` | gp1/DayOfWeek/DayOfWeekFinder.java:8-33 | Error exactly for an unparseable date, an unknown name or a result past `LocalDate.MAX`; otherwise the first date strictly after the start on the target weekday |
| `Gp1DayOfWeekFinder.SameOffsetAsDayOfWeekFinder` | gp1/DayOfWeek/DayOfWeekFinder.java:18-22 | both copies compute the same offset for every pair of weekdays |
| `Gp1DayOfWeekFinder.SameAnswerAsDayOfWeekFinder` | gp1/DayOfWeek/DayOfWeekFinder.java:8-33 | given the same parser, both copies give the same answer for all inputs |
| `Gp1DayOfWeekFinder.SameWeekdayIsAWeekLater` | gp1/DayOfWeek/DayOfWeekFinder.java:20-24 | a same-weekday target gives the start plus seven days |
| `Gp1DayOfWeekFinder.DayNameCaseInsensitive` | gp1/DayOfWeek/DayOfWeekFinder.java:15 | a day name with each letter in either case gives the same answer as the upper-case name |
| `PeriodWording.Abs` | gp1/MonthlyPeriod/MonthlyPeriod.java:17-18 | the counts shown are the absolute values of the period's years and months |
| `PeriodWording.QuantitySpelling` | gp1/MonthlyPeriod/MonthlyPeriod.java:22-23 | a count of 1 is "1 year"/"1 month"; any other count is "<n> years"/"<n> months" |
| `PeriodWording.PhraseCases` | gp1/MonthlyPeriod/MonthlyPeriod.java:25-29 | zero years and months give ""; if only one count is non-zero, the phrase is that part alone; if both are, year part + " and " + month part; so a zero count is never written |
| `PeriodWording.PhraseShape` | gp1/MonthlyPeriod/MonthlyPeriod.java:25-31 | the phrase is empty exactly for the empty period; otherwise it starts with a non-zero digit, so its leading count is not zero |
| `PeriodWording.PhraseIsNotError` | gp1/MonthlyPeriod/MonthlyPeriod.java:20-35 | no phrase equals "Error", so the error answer is distinguishable |
| `PeriodWording.PhraseInjective` | gp1/MonthlyPeriod/MonthlyPeriod.java:20-31 | equal phrases come from equal counts: the phrase determines the years and months |
| `Gp1MonthlyPeriod.Describe` | gp1/MonthlyPeriod/MonthlyPeriod.java:17-31 | the gp1 phrase builder writes exactly the intended phrase of the absolute counts |
| `Gp1MonthlyPeriod.CalculatePeriod` | gp1/MonthlyPeriod/MonthlyPeriod.java:8-40 | "Error" exactly when either date fails to parse; otherwise the intended phrase of the absolute years and months |
| `MonthlyPeriod.Describe` | MonthlyPeriod/MonthlyPeriod.java:13-30 | the if/else chain writes exactly the intended phrase of the absolute counts |
| `MonthlyPeriod.CalculatePeriod` | MonthlyPeriod/MonthlyPeriod.java:7-34 | "Error" exactly when either date fails to parse; otherwise the intended phrase of the absolute years and months |
| `MonthlyPeriod.SameDescriptionAsGp1` | MonthlyPeriod/MonthlyPeriod.java:13-30 | both copies write the same string for every pair of counts |
| `MonthlyPeriod.SameResultAsGp1` | MonthlyPeriod/MonthlyPeriod.java:7-34 | given the same parser and `Period.between`, both copies return the same string for all inputs |
| `RecursiveFactorial.WrapLong` | gp2/FactorialMaster/RecursiveFactorial.java:9 | a `long` product is the value in the 64-bit range congruent to the exact product modulo 2^64, and equals it when it fits |
| `RecursiveFactorial.Calculate` | gp2/FactorialMaster/RecursiveFactorial.java:4-10 | the result is a `long`, and is 1 for every `n <= 1`, including 0 and negatives; termination is by decreasing `n` |
| `RecursiveFactorial.CalculateIsFactorial` | gp2/FactorialMaster/RecursiveFactorial.java:4-10 | for 0 <= n <= 20 the result is exactly n! and at least 1 |
| `RecursiveFactorial.CalculateStep` | gp2/FactorialMaster/RecursiveFactorial.java:8-9 | for 1 < n <= 20, `calculate(n) == n * calculate(n - 1)` with no overflow |
| `RecursiveFactorial.FactTwentyFitsLong` | gp2/FactorialMaster/RecursiveFactorial.java:4 | 20! fits in a `long` and 21! does not |
| `RecursiveFactorial.CalculateOverflowsAtTwentyOne` | gp2/FactorialMaster/RecursiveFactorial.java:8-9 | at n = 21 the `long` product wraps round to -4249290049419214848, which is not 21! |

## Left out

- `TodoList.displayTasks`: console output is I/O.
- `AgeFinder.calculateAge`: it reads the wall clock (`LocalDate.now()`) and otherwise only wraps `Period.between`.
- Date parsing and calendar arithmetic are parameters. This covers `SimpleDateFormat.parse` with its leniency, time zone and daylight saving, `LocalDate.parse` and `Period.between`. The model does not say which strings parse.
- `LocalDate.toString`: an answer of the weekday finders is the epoch day of the date. The model does not render it as "yyyy-MM-dd". "Error" is the `Error` answer.
- `TimeTracker.ElapsedMinutes`: `float` rounding is not modelled; minutes are exact reals. In Java, converting the `long` millisecond difference to `float` loses precision, and so do the divisions. A shown count can then be one below the exact one at any whole-unit boundary, not only near a 120 threshold. For example, a span of exactly 510 days gives 16.999998 months in `float`, shown as "16 mo" where the model shows "17 mo". A span near a 120 threshold can also fall on the other side of it.
- `TimeTracker.ProjectTime.CalculateHoursLogged`: an overflow of the `long` millisecond difference is not modelled.
- Null strings are not modelled. In Java a null timestamp raises NullPointerException, which the tracker does not catch. A null task description or status is simply stored.
- `JavaTime.ToUpperCase`: only the root-locale mapping is modelled. It covers ASCII letters, dotless i and long s, the single characters whose upper case is an ASCII letter. Characters that upper-case to several letters (ß, ligatures) are kept as they are; no day name contains any of their expansions. Locale-specific upper-casing, such as Turkish dotted capital I, is not modelled.
- `PeriodWording.Abs`: `Math.abs(Integer.MIN_VALUE)` is negative in Java. `Period.between` on `LocalDate` values never yields such a count, so mathematical absolute value is used.
- `Todo.TodoList.constructor`: a negative capacity, which makes Java throw NegativeArraySizeException, is excluded by the `nat` type.
- `Todo.TodoList`: the package-visible `count` field written by other classes is not modelled.
- `Todo.TaskStatus`: only `NEW` is known. The enum TaskStatus is not part of this model, and its other constants are represented by their names.
- The base class `Factorial` is not part of this model.
- `RecursiveFactorial.CalculateIsFactorial`: proved only for 0 <= n <= 20, because larger results wrap round in a `long`.
- `RecursiveFactorial.Calculate`: the stack overflow that a very large `n` would cause is not modelled.
