/**
 * The App component (App.tsx): its state (the registry, the selected week, the
 * suggestion flag and goal, and the persisted copy of the registry), the add
 * form and its validation, the course detail editor, the goal guard of the
 * suggestion path and the calendar offset of each grid column.
 */
module CourseFlow {
  import opened Types
  import opened Constants
  import opened Registry

  // ---------------------------------------------------------------------------
  // The add form (AddCourseModal)
  // ---------------------------------------------------------------------------

  /** The add form's fields: a Course without its id. */
  datatype CourseForm = CourseForm(
    name: string,
    instructor: string,
    room: string,
    day: Day,
    timeSlot: TimeSlot,
    color: string,
    weeks: seq<int>)

  /** What the form holds when it opens. */
  const DEFAULT_FORM: CourseForm :=
    CourseForm("", "", "", Monday, FirstPeriod, DEFAULT_COLOR, allWeeks)

  /** The inputs of the add form: three text fields and two drop-downs. */
  datatype FormEdit =
    | SetName(name: string)
    | SetInstructor(instructor: string)
    | SetRoom(room: string)
    | SetDay(day: Day)
    | SetTimeSlot(timeSlot: TimeSlot)

  /** One `setFormData({...formData, field: value})`: the edited field takes the value, the rest stay. */
  function ApplyEdit(f: CourseForm, e: FormEdit): (r: CourseForm)
    ensures r.weeks == f.weeks && r.color == f.color
    ensures e.SetName? ==> r == f.(name := e.name)
    ensures e.SetInstructor? ==> r == f.(instructor := e.instructor)
    ensures e.SetRoom? ==> r == f.(room := e.room)
    ensures e.SetDay? ==> r == f.(day := e.day)
    ensures e.SetTimeSlot? ==> r == f.(timeSlot := e.timeSlot)
  {
    match e
    case SetName(n) => f.(name := n)
    case SetInstructor(i) => f.(instructor := i)
    case SetRoom(r) => f.(room := r)
    case SetDay(d) => f.(day := d)
    case SetTimeSlot(t) => f.(timeSlot := t)
  }

  /** The form after the user's edits, in order. */
  function ApplyEdits(f: CourseForm, es: seq<FormEdit>): (r: CourseForm)
    ensures r.weeks == f.weeks && r.color == f.color
    decreases |es|
  {
    if es == [] then f else ApplyEdits(ApplyEdit(f, es[0]), es[1..])
  }

  /** The day and the period keep their value unless the matching drop-down is used. */
  lemma {:induction false} EditsKeepUneditedFields(f: CourseForm, es: seq<FormEdit>)
    ensures (forall i :: 0 <= i < |es| ==> !es[i].SetDay?) ==> ApplyEdits(f, es).day == f.day
    ensures (forall i :: 0 <= i < |es| ==> !es[i].SetTimeSlot?) ==> ApplyEdits(f, es).timeSlot == f.timeSlot
    decreases |es|
  {
    if es != [] {
      EditsKeepUneditedFields(ApplyEdit(f, es[0]), es[1..]);
      if forall i :: 0 <= i < |es| ==> !es[i].SetDay? {
        assert forall i :: 0 <= i < |es[1..]| ==> !es[1..][i].SetDay? by {
          forall i | 0 <= i < |es[1..]| ensures !es[1..][i].SetDay? { assert es[1..][i] == es[i + 1]; }
        }
      }
      if forall i :: 0 <= i < |es| ==> !es[i].SetTimeSlot? {
        assert forall i :: 0 <= i < |es[1..]| ==> !es[1..][i].SetTimeSlot? by {
          forall i | 0 <= i < |es[1..]| ensures !es[1..][i].SetTimeSlot? { assert es[1..][i] == es[i + 1]; }
        }
      }
    }
  }

  /**
   * `handleSave`: a form whose name or instructor is empty is refused; otherwise the
   * form's fields plus the given id (the source takes it from the clock) make the course.
   */
  function NewCourse(f: CourseForm, id: string): (r: Option<Course>)
    ensures r.None? <==> f.name == "" || f.instructor == ""
    ensures r.Some? ==> r.value.id == id && r.value.name == f.name && r.value.instructor == f.instructor
    ensures r.Some? ==> r.value.room == f.room && r.value.day == f.day && r.value.timeSlot == f.timeSlot
    ensures r.Some? ==> r.value.color == f.color && r.value.weeks == f.weeks
  {
    if f.name == "" || f.instructor == "" then None
    else Some(Course(id, f.name, f.instructor, f.room, f.day, f.timeSlot, f.color, f.weeks))
  }

  /**
   * A course made with the add form is active in all of weeks 1..18 and in no other
   * week, carries the default colour, and sits on Monday, 1st Period unless the
   * user picked another day or period.
   */
  lemma AddFormCourse(es: seq<FormEdit>, id: string)
    requires NewCourse(ApplyEdits(DEFAULT_FORM, es), id).Some?
    ensures var c := NewCourse(ApplyEdits(DEFAULT_FORM, es), id).value;
      && c.id == id
      && WeeksInTerm(c)
      && (forall w :: w in c.weeks <==> InTerm(w))
      && c.color == DEFAULT_COLOR
      && ((forall i :: 0 <= i < |es| ==> !es[i].SetDay?) ==> c.day == Monday)
      && ((forall i :: 0 <= i < |es| ==> !es[i].SetTimeSlot?) ==> c.timeSlot == FirstPeriod)
  {
    EditsKeepUneditedFields(DEFAULT_FORM, es);
    AllWeeksAreTheTerm(NewCourse(ApplyEdits(DEFAULT_FORM, es), id).value);
  }

  /** A course running in allWeeks runs in exactly the term's weeks. */
  lemma AllWeeksAreTheTerm(c: Course)
    requires c.weeks == allWeeks
    ensures WeeksInTerm(c) && forall w :: w in c.weeks <==> InTerm(w)
  {
    assert forall i :: 0 <= i < |c.weeks| ==> c.weeks[i] in c.weeks;
  }

  /** An untouched form is refused: both required fields start empty. */
  lemma DefaultFormRefused(id: string)
    ensures NewCourse(DEFAULT_FORM, id) == None
  {
  }

  /**
   * A course added through the form shows in its own cell in every week of the
   * term, unless an earlier course already fills that cell.
   */
  lemma AddedCourseShows(cs: seq<Course>, es: seq<FormEdit>, id: string, week: int)
    requires NewCourse(ApplyEdits(DEFAULT_FORM, es), id).Some?
    requires InTerm(week)
    ensures var c := NewCourse(ApplyEdits(DEFAULT_FORM, es), id).value;
      FindForSlot(Append(cs, c), c.day, c.timeSlot, week) ==
        if FindForSlot(cs, c.day, c.timeSlot, week).Some? then FindForSlot(cs, c.day, c.timeSlot, week)
        else Some(c)
  {
    var c := NewCourse(ApplyEdits(DEFAULT_FORM, es), id).value;
    AddFormCourse(es, id);
    FindAfterAppend(cs, c, c.day, c.timeSlot, week);
  }

  // ---------------------------------------------------------------------------
  // The detail editor (Modal)
  // ---------------------------------------------------------------------------

  /** The detail editor changes only the name and the instructor, and saves with no check. */
  function EditedCourse(c: Course, name: string, instructor: string): (r: Course)
    ensures r.id == c.id && r.name == name && r.instructor == instructor
    ensures r.(name := c.name, instructor := c.instructor) == c
  {
    c.(name := name, instructor := instructor)
  }

  /**
   * Saving the detail editor. The panel edits `s`, the copy of the course taken when
   * it opened; the registry's entry k carries the same id. With distinct ids the save
   * is a point update at k. While the copy still equals the entry, the save changes
   * only name and instructor, so it fills and empties no grid cell.
   */
  lemma SaveEditKeepsGrid(cs: seq<Course>, k: nat, s: Course, name: string, instructor: string,
                          day: Day, slot: TimeSlot, week: int)
    requires DistinctIds(cs) && k < |cs| && s.id == cs[k].id
    ensures UpdateById(cs, EditedCourse(s, name, instructor)) == cs[k := EditedCourse(s, name, instructor)]
    ensures s == cs[k] ==>
      var r := FindForSlot(UpdateById(cs, EditedCourse(s, name, instructor)), day, slot, week);
      (r.Some? <==> FindForSlot(cs, day, slot, week).Some?)
  {
    var e := EditedCourse(s, name, instructor);
    UpdateIsPointUpdate(cs, k, e);
    if s == cs[k] {
      var u := cs[k := e];
      assert Matches(e, day, slot, week) == Matches(cs[k], day, slot, week);
      forall i | 0 <= i < |cs| ensures Matches(u[i], day, slot, week) == Matches(cs[i], day, slot, week) {
        if i != k { assert u[i] == cs[i]; }
      }
      var r := FindForSlot(u, day, slot, week);
      var r0 := FindForSlot(cs, day, slot, week);
      assert r.None? <==> r0.None?;
    }
  }

  /**
   * A stale copy moves the course back: the panel opened on a course held on Monday,
   * 1st Period; a suggestion then replaced the registry with the same id on Friday,
   * 4th Period. Saving the panel writes the old day and period over it, so Monday's
   * cell fills and Friday's cell empties, although only name and instructor were edited.
   */
  lemma StaleEditMovesCourse(name: string, instructor: string)
    ensures var s := Course("1", "N", "I", "R", Monday, FirstPeriod, "c", [1]);
      var cs := [s.(day := Friday, timeSlot := FourthPeriod)];
      var u := UpdateById(cs, EditedCourse(s, name, instructor));
      && DistinctIds(cs)
      && FindForSlot(cs, Monday, FirstPeriod, 1).None? && FindForSlot(u, Monday, FirstPeriod, 1).Some?
      && FindForSlot(cs, Friday, FourthPeriod, 1).Some? && FindForSlot(u, Friday, FourthPeriod, 1).None?
  {
    var s := Course("1", "N", "I", "R", Monday, FirstPeriod, "c", [1]);
    var cs := [s.(day := Friday, timeSlot := FourthPeriod)];
    var u := UpdateById(cs, EditedCourse(s, name, instructor));
    assert u == [EditedCourse(s, name, instructor)];
    assert Matches(u[0], Monday, FirstPeriod, 1) && Matches(cs[0], Friday, FourthPeriod, 1);
  }

  // ---------------------------------------------------------------------------
  // The suggestion path's goal guard: `if (!aiGoal.trim()) return;`
  // ---------------------------------------------------------------------------

  /** The characters String.prototype.trim removes: white space and line terminators. */
  predicate IsWhitespace(c: char)
  {
    var n := c as int;
    n == 0x09 || n == 0x0A || n == 0x0B || n == 0x0C || n == 0x0D || n == 0x20 ||
    n == 0xA0 || n == 0x1680 || (0x2000 <= n <= 0x200A) || n == 0x2028 || n == 0x2029 ||
    n == 0x202F || n == 0x205F || n == 0x3000 || n == 0xFEFF
  }

  /** Leading white space removed: the longest suffix that starts with a non-blank. */
  function TrimStart(s: string): (r: string)
    ensures |r| <= |s| && r == s[|s| - |r|..]
    ensures forall i :: 0 <= i < |s| - |r| ==> IsWhitespace(s[i])
    ensures r == [] || !IsWhitespace(r[0])
  {
    if s != [] && IsWhitespace(s[0]) then TrimStart(s[1..]) else s
  }

  /** Trailing white space removed: the longest prefix that ends with a non-blank. */
  function TrimEnd(s: string): (r: string)
    ensures |r| <= |s| && r == s[..|r|]
    ensures forall i :: |r| <= i < |s| ==> IsWhitespace(s[i])
    ensures r == [] || !IsWhitespace(r[|r| - 1])
  {
    if s != [] && IsWhitespace(s[|s| - 1]) then TrimEnd(s[..|s| - 1]) else s
  }

  /** `s.trim()`: the goal without its leading and trailing white space. */
  function Trim(s: string): (r: string)
    ensures |r| <= |s|
    ensures r == [] || (!IsWhitespace(r[0]) && !IsWhitespace(r[|r| - 1]))
  {
    var t := TrimStart(s);
    var u := TrimEnd(t);
    assert u != [] ==> u[0] == t[0];
    u
  }

  /** A goal is refused exactly when it is empty or made only of white space. */
  lemma TrimEmptyIffBlank(s: string)
    ensures Trim(s) == [] <==> forall i :: 0 <= i < |s| ==> IsWhitespace(s[i])
  {
    var t := TrimStart(s);
    if Trim(s) == [] {
      // every character of t is a trailing blank, and t cannot start with a blank
      assert |t| == 0;
    }
  }

  /** What trim keeps is a contiguous piece of the goal. */
  lemma TrimIsSlice(s: string)
    ensures exists i, j :: 0 <= i <= j <= |s| && Trim(s) == s[i..j]
  {
    var t := TrimStart(s);
    var r := TrimEnd(t);
    var i := |s| - |t|;
    assert r == s[i..][..|r|];
    assert 0 <= i <= i + |r| <= |s| && Trim(s) == s[i..i + |r|];
  }

  // ---------------------------------------------------------------------------
  // The column dates: `(week - 1) * 7 + dayOffset` days after the term start
  // ---------------------------------------------------------------------------

  /** Days from the term's first Monday to the given column in the given week. */
  function CalendarOffset(dayOffset: int, week: int): (o: int)
    ensures 0 <= dayOffset < 7 ==> o / 7 == week - 1 && o % 7 == dayOffset
  {
    (week - 1) * 7 + dayOffset
  }

  /**
   * Each (week, weekday) of the term gets its own day: the offset lies in the
   * term's 126 days, and week and weekday can be read back from it.
   */
  lemma CalendarOffsetRoundTrip(d: Day, week: int)
    requires InTerm(week)
    ensures var o := CalendarOffset(DayIndex(d), week);
      0 <= o < 18 * 7 && o / 7 + 1 == week && o % 7 == DayIndex(d) && o % 7 < 5
  {
    var k := DayIndex(d);
    var o := CalendarOffset(k, week);
    assert o == (week - 1) * 7 + k;
    assert 0 <= k < 7;
  }

  /** Two grid columns in term weeks fall on the same date only if they are the same column. */
  lemma CalendarOffsetInjective(d1: Day, w1: int, d2: Day, w2: int)
    requires InTerm(w1) && InTerm(w2)
    requires CalendarOffset(DayIndex(d1), w1) == CalendarOffset(DayIndex(d2), w2)
    ensures d1 == d2 && w1 == w2
  {
    CalendarOffsetRoundTrip(d1, w1);
    CalendarOffsetRoundTrip(d2, w2);
    assert DAYS[DayIndex(d1)] == d1 && DAYS[DayIndex(d2)] == d2;
  }

  // ---------------------------------------------------------------------------
  // The component's state
  // ---------------------------------------------------------------------------

  /**
   * The App component. `courses`, `currentWeek`, `isAiLoading` and `aiGoal` are its
   * state; `stored` is the registry's slot in local storage, rewritten by the effect
   * after every change of `courses` (None while nothing was ever stored).
   */
  class App {
    var courses: seq<Course>
    var currentWeek: int
    var isAiLoading: bool
    var aiGoal: string
    var stored: Option<seq<Course>>

    /** The selected week is one of the 18 buttons, and storage mirrors the registry. */
    ghost predicate Valid()
      reads this
    {
      InTerm(currentWeek) && stored == Some(courses)
    }

    /** Start-up: the stored list if there is one, else the seed list; then the effect stores it. */
    constructor (saved: Option<seq<Course>>)
      ensures Valid()
      ensures courses == (if saved.Some? then saved.value else INITIAL_COURSES)
      ensures currentWeek == 1 && !isAiLoading && aiGoal == ""
    {
      courses := if saved.Some? then saved.value else INITIAL_COURSES;
      currentWeek := 1;
      isAiLoading := false;
      aiGoal := "";
      stored := Some(courses);
    }

    /** `getCourseForSlot`: the course the grid shows in a cell for the selected week. */
    function GetCourseForSlot(day: Day, slot: TimeSlot): (r: Option<Course>)
      reads this
      ensures r.Some? ==> r.value in courses && Matches(r.value, day, slot, currentWeek)
      ensures r.None? <==> forall i :: 0 <= i < |courses| ==> !Matches(courses[i], day, slot, currentWeek)
    {
      FindForSlot(courses, day, slot, currentWeek)
    }

    /** The footer's Blocks figure for the selected week. */
    function Blocks(): (n: nat)
      reads this
      ensures n <= |courses|
      ensures n == 0 <==> forall i :: 0 <= i < |courses| ==> currentWeek !in courses[i].weeks
    {
      ActiveCount(courses, currentWeek)
    }

    /** `onAdd`: append and store. */
    method OnAdd(nc: Course)
      requires Valid()
      modifies this
      ensures Valid()
      ensures courses == Append(old(courses), nc)
      ensures currentWeek == old(currentWeek) && isAiLoading == old(isAiLoading) && aiGoal == old(aiGoal)
    {
      courses := Append(courses, nc);
      stored := Some(courses);
    }

    /** The add form's save button followed by `onAdd`; a refused form changes nothing. */
    method SaveNewCourse(f: CourseForm, id: string) returns (added: bool)
      requires Valid()
      modifies this
      ensures Valid()
      ensures added <==> f.name != "" && f.instructor != ""
      ensures added ==> courses == old(courses) + [NewCourse(f, id).value]
      ensures !added ==> courses == old(courses) && stored == old(stored)
      ensures currentWeek == old(currentWeek) && isAiLoading == old(isAiLoading) && aiGoal == old(aiGoal)
    {
      var nc := NewCourse(f, id);
      added := nc.Some?;
      if added {
        OnAdd(nc.value);
      }
    }

    /** `onUpdate`: replace every course carrying the edited course's id, and store. */
    method OnUpdate(uc: Course)
      requires Valid()
      modifies this
      ensures Valid()
      ensures courses == UpdateById(old(courses), uc)
      ensures currentWeek == old(currentWeek) && isAiLoading == old(isAiLoading) && aiGoal == old(aiGoal)
    {
      courses := UpdateById(courses, uc);
      stored := Some(courses);
    }

    /** `onRemove`: drop every course carrying the id, and store. */
    method OnRemove(id: string)
      requires Valid()
      modifies this
      ensures Valid()
      ensures courses == RemoveById(old(courses), id)
      ensures currentWeek == old(currentWeek) && isAiLoading == old(isAiLoading) && aiGoal == old(aiGoal)
    {
      courses := RemoveById(courses, id);
      stored := Some(courses);
    }

    /** `handleWeekChange` after its animation delay; the week buttons offer 1..18 only. */
    method HandleWeekChange(w: int)
      requires Valid() && InTerm(w)
      modifies this
      ensures Valid()
      ensures currentWeek == w
      ensures courses == old(courses) && stored == old(stored)
      ensures isAiLoading == old(isAiLoading) && aiGoal == old(aiGoal)
    {
      currentWeek := w;
    }

    /** The goal input. */
    method SetAiGoal(g: string)
      requires Valid()
      modifies this
      ensures Valid()
      ensures aiGoal == g
      ensures courses == old(courses) && stored == old(stored)
      ensures currentWeek == old(currentWeek) && isAiLoading == old(isAiLoading)
    {
      aiGoal := g;
    }

    /**
     * First half of `handleAISchedule`: a blank goal returns at once; otherwise the
     * loading flag is raised and the request goes out. The flag is not consulted:
     * a second request may start while one is outstanding.
     */
    method BeginAiSchedule() returns (started: bool)
      requires Valid()
      modifies this
      ensures Valid()
      ensures started <==> exists i :: 0 <= i < |aiGoal| && !IsWhitespace(aiGoal[i])
      ensures isAiLoading == (if started then true else old(isAiLoading))
      ensures courses == old(courses) && stored == old(stored)
      ensures currentWeek == old(currentWeek) && aiGoal == old(aiGoal)
    {
      TrimEmptyIffBlank(aiGoal);
      started := Trim(aiGoal) != [];
      if started {
        isAiLoading := true;
      }
    }

    /**
     * Second half of `handleAISchedule`: a parsed response replaces the whole
     * registry, a failure keeps it; either way the loading flag is cleared.
     */
    method FinishAiSchedule(response: Option<seq<Course>>)
      requires Valid()
      modifies this
      ensures Valid()
      ensures courses == (if response.Some? then response.value else old(courses))
      ensures response.None? ==> stored == old(stored)
      ensures !isAiLoading
      ensures currentWeek == old(currentWeek) && aiGoal == old(aiGoal)
    {
      if response.Some? {
        courses := response.value;
        stored := Some(courses);
      }
      isAiLoading := false;
    }
  }

  /**
   * Reloading the page: a fresh App built from what an App stored holds the same
   * registry, whatever operations led to it.
   */
  method Reload(a: App) returns (b: App)
    requires a.Valid()
    ensures fresh(b) && b.Valid()
    ensures b.courses == a.courses && b.currentWeek == 1
  {
    b := new App(a.stored);
  }

  /**
   * A session from an empty store: a refused form, an add, its removal and a reload
   * leave the seed list in place.
   */
  method Session(nc: Course)
    requires forall i :: 0 <= i < |INITIAL_COURSES| ==> INITIAL_COURSES[i].id != nc.id
  {
    var app := new App(None);
    var added := app.SaveNewCourse(DEFAULT_FORM, nc.id);
    assert !added && app.courses == INITIAL_COURSES;
    app.OnAdd(nc);
    app.OnRemove(nc.id);
    RemoveUndoesAppend(INITIAL_COURSES, nc);
    var copy := Reload(app);
    assert copy.courses == INITIAL_COURSES;
  }
}
