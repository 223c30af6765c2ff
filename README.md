# Course Flow timetable: the course registry and its slot resolver

This project models the scheduling core of Course Flow, a single-page weekly
timetable. A course is held on one weekday, in one of four periods, in a set of
weeks of an 18-week term. The App component keeps the list of courses (the
registry). Users add courses through a form, edit or remove them from a detail
panel, or replace the whole list with an AI suggestion. For each cell of the
5 × 4 grid, the resolver shows the first course in list order that is held on
that day, in that period and in the selected week. The footer's Blocks figure
counts the courses active in the selected week.

Files and modules:

- `types.dfy`, module `Types`: the `Day` and `TimeSlot` enumerations, the
  `Course` record, and the literal names of the enumerations.
- `constants.dfy`, module `Constants`: `DAYS`, `TIMESLOTS`, `TIME_RANGES`, the
  three week lists and the five seed courses, with lemmas about each.
- `registry.dfy`, module `Registry`: the pure list operations of `App.tsx`.
  These are remove-by-id (`filter`), update-by-id (`map`), append (spread),
  the slot resolver (`find`) and the Blocks count (`filter(...).length`).
  Lemmas relate these operations to each other.
- `courseflow.dfy`, module `CourseFlow`: the add form with its defaults and its
  required-field check, the detail editor, and the `trim` guard on the
  suggestion goal. It also has the column date offset and the class `App`.
  `App` holds the component's mutable state: `courses`, `currentWeek`,
  `isAiLoading`, `aiGoal`, and `stored`, the registry's slot in local storage.
  `OnAdd`, `SaveNewCourse`, `OnUpdate` and `OnRemove` take the new value of
  `courses` from a `Registry` function; `FinishAiSchedule` takes the parsed
  response. Each writes `stored` whenever `courses` changes, as the source's
  effect does; a refused form and a failed suggestion write nothing. The other
  handlers change only the week, the goal or the loading flag.

Points of the code's behaviour that the model keeps as written:

- The loading flag does not block a second suggestion request: the SYNC button
  has no `disabled` attribute, and `handleAISchedule` never reads `isAiLoading`
  (App.tsx:323-325, 390-395). So `App.BeginAiSchedule` does not look at the
  flag, and a second request can start while the first is still pending.
- Update and remove act on every course with the id. The `map` of `onUpdate`
  replaces every entry with that id, so `UpdateById` does the same, and
  `RemoveById` drops every entry with the id. `UpdateIsPointUpdate` proves
  that an update is a single-entry update when ids are distinct. The code
  never checks that ids are distinct.
- Only an absent or empty stored value falls back to the seed list
  (App.tsx:283-286). A malformed value makes `JSON.parse` throw. The model's
  store is present or absent (see "Left out").
- The add form has no input for colour or weeks (App.tsx:155-163, 202-256).
  Every course added by the form is therefore active in weeks 1..18 and has the
  default colour (`AddFormCourse`).
- The detail panel saves its own copy of the course, taken when the panel
  opens (App.tsx:38, 45-46). A suggestion that lands while the panel is open
  (App.tsx:354-355) can replace the registry entry that has that id. Saving
  then writes the copy's day, period, weeks, room and colour back over it
  (`StaleEditMovesCourse`). `SaveEditKeepsGrid` states that the grid keeps its
  shape only while the copy still equals the registry entry.
- The required-field check is `!formData.name || !formData.instructor`. It
  refuses only empty strings, so a name made of spaces is accepted (`NewCourse`).

## Model

| member | source | states |
|---|---|---|
| Types.ParseDay | types.ts:2 | only one of the five weekday literals reads as a `Day`, and it reads as the day with that name |
| Types.ParseSlot | types.ts:4 | only one of the four period literals reads as a `TimeSlot`, and it reads as the period with that name |
| Types.DayNamesRoundTrip | types.ts:2 | `Day` is closed: a string is a day exactly when it is one of the five weekday names, and each day's name reads back as that day |
| Types.SlotNamesRoundTrip | types.ts:4 | `TimeSlot` is closed: a string is a period exactly when it is one of the four period names, and each period's name reads back as that period |
| Types.NamesInjective | types.ts:2-4 | distinct days, and distinct periods, have distinct names |
| Constants.WeekRange | constants.tsx:17-19 | `Array.from({length: n}, (_, i) => i + start)` has n entries and holds exactly the integers start..start+n-1 |
| Constants.WeekListsSplitTerm | constants.tsx:17-19 | allWeeks holds exactly 1..18, earlyWeeks exactly 1..9 and lateWeeks exactly 10..18; early and late are disjoint, and early followed by late is allWeeks |
| Constants.WeekMembership | constants.tsx:17-19 | a week number is in allWeeks exactly when it is in 1..18, in earlyWeeks exactly when in 1..9, in lateWeeks exactly when in 10..18 |
| Constants.WeekRangeSplit | constants.tsx:17-19 | a run of n + m consecutive weeks is its first n weeks followed by the next m |
| Constants.DayIndex | App.tsx:434-436 | the column index the grid gives a day is that day's position in DAYS |
| Constants.SlotIndex | App.tsx:444 | proof helper (the source binds this `index` but never reads it): a period's row index is its position in TIMESLOTS |
| Constants.DaysEnumerateDay | constants.tsx:4 | DAYS is Monday..Friday in order: five pairwise distinct values that include every `Day` |
| Constants.TimeSlotsEnumerateTimeSlot | constants.tsx:5 | TIMESLOTS is 1st..4th Period in order: four pairwise distinct values that include every `TimeSlot` |
| Constants.TimeRangesCoverSlots | constants.tsx:10-15 | every period's name is a key of TIME_RANGES (so the detail view's lookup is defined), and every key is a period name |
| Constants.SeedIdsDistinct | constants.tsx:21-72 | the seed list has five courses, with ids "1".."5" in order, pairwise distinct |
| Constants.SeedSlotsDistinct | constants.tsx:21-72 | no two seed courses share a (day, period) cell |
| Constants.SeedWeeksInTerm | constants.tsx:30-70 | every week number in the seed list lies in 1..18 |
| Registry.FindForSlot | App.tsx:359-360 | a returned course is in the registry, is held on that day and in that period, and runs in that week; None exactly when no course matches |
| Registry.FindForSlotIsFirst | App.tsx:360 | the resolver returns the course at the first matching position in list order, whatever comes after it |
| Registry.EarlierDoubleBookingWins | App.tsx:360 | of two double-booked courses, when no course before the earlier one matches the cell, the earlier one is shown, and the later one is not shown (unless it is an identical record) |
| Registry.FindForSlotAppend | App.tsx:360 | on a concatenation, the first part's match wins; the second part is searched only when the first part has none |
| Registry.RemoveById | App.tsx:509 | the result carries no course with the id, keeps every other course with its multiplicity, is a subsequence of the input (original order), and is never longer |
| Registry.RemoveAbsentId | App.tsx:509 | removing an id no course carries leaves the registry unchanged |
| Registry.RemoveIdempotent | App.tsx:509 | removing the same id twice equals removing it once |
| Registry.UpdateById | App.tsx:510 | length is preserved; each position whose id equals the edited course's id holds the edited course; every other position is unchanged |
| Registry.Ids | App.tsx:510 | proof helper: the list of ids, position by position, used to state that an update keeps every id in place |
| Registry.UpdateKeepsIds | App.tsx:510 | an update never changes which id sits at which position |
| Registry.UpdateIdempotent | App.tsx:510 | applying the same update twice equals applying it once |
| Registry.UpdateAbsentId | App.tsx:510 | an update whose id no course carries leaves the registry unchanged |
| Registry.UpdateIsPointUpdate | App.tsx:510 | when ids are distinct, an update replaces the one entry with that id and nothing else |
| Registry.RemoveAfterUpdate | App.tsx:509-510 | removing an id after updating it equals removing it straight away |
| Registry.Append | App.tsx:516 | adding grows the registry by one: the old list is a prefix and the new course is last |
| Registry.RemoveUndoesAppend | App.tsx:509-516 | adding a course with a fresh id and then removing that id restores the registry |
| Registry.RemoveConcat | App.tsx:509 | removal distributes over concatenation |
| Registry.FindAfterAppend | App.tsx:359-360 | an added course never changes a cell that was already filled; it shows only in an empty cell that it matches |
| Registry.FindAfterRemove | App.tsx:359-360 | after a removal, no cell shows a course carrying the removed id |
| Registry.UpdateKeepsDistinctIds | App.tsx:510 | an update keeps registry ids distinct |
| Registry.AppendKeepsDistinctIds | App.tsx:516 | adding keeps ids distinct exactly when the new id is fresh |
| Registry.RemoveKeepsDistinctIds | App.tsx:509 | a removal keeps ids distinct |
| Registry.ActiveCount | App.tsx:486 | the Blocks count never exceeds the registry size; it is 0 exactly when no course runs that week, and equals the size exactly when every course does |
| Registry.ActiveCountConcat | App.tsx:486 | the Blocks count of a concatenation is the sum of the parts' counts |
| Registry.ActiveCountAfterOperations | App.tsx:486-516 | adding raises Blocks by one exactly when the new course runs that week; removing never raises it |
| Registry.UpdateKeepsCount | App.tsx:486-510 | with distinct ids, an update that keeps the weeks of the course it replaces leaves the Blocks count unchanged |
| Registry.SameWeeksSameCount | App.tsx:486 | two registries whose courses have the same weeks position by position have the same Blocks count |
| Registry.RemoveNeverRaisesCount | App.tsx:486-509 | removing courses never raises the Blocks count |
| Registry.FilledCellCountsAsBlock | App.tsx:359-360 | a filled cell in a week implies a Blocks count of at least one for that week |
| Registry.SeedMondayFirstPeriodWeekFive | constants.tsx:22-31 | in week 5 the seed grid shows Advanced UX Design on Monday, 1st Period |
| Registry.SeedWeekZeroEmpty | constants.tsx:17-19 | week 0 is outside every seed course, so every cell is empty in week 0 |
| Registry.SeedMondaySecondPeriodEmpty | constants.tsx:21-72 | no seed course is in Monday's 2nd Period, in any week |
| Registry.SeedTuesdayThirdPeriod | constants.tsx:32-41 | Tuesday's 3rd Period shows Neural Networks exactly in weeks 1..9, so it is empty in week 12 |
| Registry.SeedBlocks | constants.tsx:21-72 | the seed list's Blocks count is 4 in weeks 1..9, 3 in weeks 10..18 and 0 outside the term |
| CourseFlow.ApplyEdit | App.tsx:211-251 | each add-form input (`setFormData({...formData, field: value})`) sets its own field and leaves every other field, colour and weeks included, as it was |
| CourseFlow.ApplyEdits | App.tsx:202-256 | no sequence of add-form inputs changes colour or weeks |
| CourseFlow.EditsKeepUneditedFields | App.tsx:202-256 | day and period keep their value unless their drop-down is used |
| CourseFlow.NewCourse | App.tsx:170-179 | refused exactly when the name or the instructor is empty; otherwise the course has the given id and the form's fields |
| CourseFlow.AddFormCourse | App.tsx:155-163 | a course saved from the add form runs in exactly weeks 1..18, has the default colour, and is on Monday, 1st Period unless the user picked another day or period |
| CourseFlow.AllWeeksAreTheTerm | App.tsx:162 | a course whose weeks are `Array.from({length: 18}, (_, i) => i + 1)` runs in exactly the term's weeks 1..18 |
| CourseFlow.DefaultFormRefused | App.tsx:155-174 | saving the form as it opens is refused, because name and instructor start empty |
| CourseFlow.AddedCourseShows | App.tsx:170-179 | a course added by the form shows in its cell in every term week, unless an earlier course already fills that cell |
| CourseFlow.EditedCourse | App.tsx:38-48 | the detail editor changes only name and instructor; the id and every other field stay |
| CourseFlow.SaveEditKeepsGrid | App.tsx:38-48 | with distinct ids, saving the panel's copy is a point update at the entry with its id; while the copy still equals that entry, the save fills and empties no grid cell |
| CourseFlow.StaleEditMovesCourse | App.tsx:38-48 | when a suggestion moved the course after the panel opened, saving the panel writes the old day and period back: one cell fills and another empties |
| CourseFlow.TrimStart | App.tsx:324 | drops exactly the leading white space: the result is a suffix that does not start with a blank, and everything before it is blank |
| CourseFlow.TrimEnd | App.tsx:324 | drops exactly the trailing white space: the result is a prefix that does not end with a blank, and everything after it is blank |
| CourseFlow.TrimEmptyIffBlank | App.tsx:324 | the goal guard rejects a goal exactly when the goal is empty or all white space |
| CourseFlow.TrimIsSlice | App.tsx:324 | the trimmed goal is a contiguous slice of the goal |
| CourseFlow.Trim | App.tsx:324 | `aiGoal.trim()` is never longer than the goal, and when not empty it has no blank at either end |
| CourseFlow.CalendarOffset | App.tsx:362-364 | for a column offset in 0..6, `(week - 1) * 7 + dayOffset` divided by 7 gives back week - 1, and its remainder gives back the column |
| CourseFlow.CalendarOffsetRoundTrip | App.tsx:362-364 | for a term week and a weekday column, the offset `(week-1)*7 + dayOffset` lies in 0..125, and both week and column can be read back from it |
| CourseFlow.CalendarOffsetInjective | App.tsx:362-364 | two grid columns in term weeks get the same date only if they are the same weekday of the same week |
| CourseFlow.App.constructor | App.tsx:283-302 | start-up loads the stored list if there is one, else the seed list; it stores the result, starts in week 1, not loading, with an empty goal |
| CourseFlow.App.GetCourseForSlot | App.tsx:359-360 | a cell shows a course of the registry that matches the day, the period and the selected week; it is empty exactly when none matches |
| CourseFlow.App.Blocks | App.tsx:486 | the Blocks figure is at most the registry size, and 0 exactly when no course runs in the selected week |
| CourseFlow.App.OnAdd | App.tsx:516 | the new course is appended and stored; week, flag and goal are unchanged |
| CourseFlow.App.SaveNewCourse | App.tsx:170-180 | a form with an empty name or instructor is refused and nothing changes, not even storage; otherwise the new course is appended and stored |
| CourseFlow.App.OnUpdate | App.tsx:510 | the registry becomes the update-by-id of the old one and is stored |
| CourseFlow.App.OnRemove | App.tsx:509 | the registry becomes the remove-by-id of the old one and is stored |
| CourseFlow.App.HandleWeekChange | App.tsx:315-321 | only the selected week changes |
| CourseFlow.App.SetAiGoal | App.tsx:387 | only the goal changes |
| CourseFlow.App.BeginAiSchedule | App.tsx:323-325 | a request starts exactly when the goal has a non-blank character, and then raises the loading flag; the registry is untouched either way |
| CourseFlow.App.FinishAiSchedule | App.tsx:354-356 | a parsed response replaces the whole registry and is stored; a failure keeps registry and storage; the flag is cleared either way |
| CourseFlow.Reload | App.tsx:283-302 | an App rebuilt from what another App stored has the same registry |

## Left out

- JSX rendering, CSS classes, the modal open/close state, the selected-course
  state, the grid-visibility flag and the `setTimeout` delays are user
  interface only. `App.HandleWeekChange` applies the new week at once.
- Local storage and `JSON.parse`/`JSON.stringify` are browser I/O. The stored
  registry is an `Option<seq<Course>>`, and serialising then parsing is taken
  as the identity. The source also falls back to the seed list for a stored
  empty string. The app never writes one, so the model cannot express it. A
  malformed stored value makes the source throw at start-up; that is not
  modelled either.
- The theme toggle, the theme storage key and the `document` class changes
  are DOM side effects.
- The generative-AI request, its prompt and its response schema are an
  external network call. The response is a parameter of
  `App.FinishAiSchedule`: a list of courses, or None for any failure. The
  alert shown on failure is not modelled. Because the model's types are closed,
  a response whose day or period is outside the enumerations cannot be
  represented.
- The add form's `alert` on a refused save (App.tsx:172) is a browser dialog.
  The refusal itself is modelled by `NewCourse` and `App.SaveNewCourse`.
- `JSON.parse(response.text) as Course[]` (App.tsx:354) checks nothing. The
  model's `Option<seq<Course>>` response relies on the service honouring
  the response schema (App.tsx:335-350). A reply that parses but breaks the
  schema is not modelled.
- `Date.now()` id generation is a clock read. The id is a parameter of
  `NewCourse` and `App.SaveNewCourse`.
- Date formatting (`SEMESTER_START_DATE`, `setDate`, `toLocaleDateString`) is
  a foreign library call. Only the integer day offset is modelled.
- The "Load" statistic (`count * 1.5` with `toFixed(0)`) is floating-point
  formatting.
- `AIScheduleSuggestion` is a type that no code uses.
- Week numbers are JavaScript numbers. A stored or suggested list could hold
  fractional or non-numeric entries; the model uses integers.
- CourseFlow.App.HandleWeekChange: requires a week in 1..18, because its only callers are
  the 18 week buttons (App.tsx:413-416). The handler itself accepts any number.
- CourseFlow.App.BeginAiSchedule and CourseFlow.App.FinishAiSchedule split the
  asynchronous handler into its two halves. When two requests are pending,
  the caller's order of `FinishAiSchedule` calls stands for the order in which
  the responses arrive.
