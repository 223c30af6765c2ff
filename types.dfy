/**
 * The data model of the timetable: the closed weekday and period enumerations
 * and the Course record (types.ts).
 */
module Types {

  /** The usual optional value; stands for `T | undefined` and `T | null`. */
  datatype Option<+T> = None | Some(value: T)

  /** The five weekdays a course can be held on. */
  datatype Day = Monday | Tuesday | Wednesday | Thursday | Friday

  /** The four teaching periods of a day. */
  datatype TimeSlot = FirstPeriod | SecondPeriod | ThirdPeriod | FourthPeriod

  /**
   * One scheduled class block. `weeks` lists the term weeks (1..18) in which the
   * block is active; nothing in the record type itself enforces that range.
   */
  datatype Course = Course(
    id: string,
    name: string,
    instructor: string,
    room: string,
    day: Day,
    timeSlot: TimeSlot,
    color: string,
    weeks: seq<int>)

  /** The string literal that stands for each weekday in the source's union type. */
  function DayName(d: Day): string
  {
    match d
    case Monday => "Monday"
    case Tuesday => "Tuesday"
    case Wednesday => "Wednesday"
    case Thursday => "Thursday"
    case Friday => "Friday"
  }

  /** The string literal that stands for each period in the source's union type. */
  function SlotName(s: TimeSlot): string
  {
    match s
    case FirstPeriod => "1st Period"
    case SecondPeriod => "2nd Period"
    case ThirdPeriod => "3rd Period"
    case FourthPeriod => "4th Period"
  }

  /** Reading a weekday name back: the inverse of DayName on the five literals. */
  function ParseDay(s: string): (r: Option<Day>)
    ensures r.Some? ==> DayName(r.value) == s
  {
    if s == "Monday" then Some(Monday)
    else if s == "Tuesday" then Some(Tuesday)
    else if s == "Wednesday" then Some(Wednesday)
    else if s == "Thursday" then Some(Thursday)
    else if s == "Friday" then Some(Friday)
    else None
  }

  /** Reading a period name back: the inverse of SlotName on the four literals. */
  function ParseSlot(s: string): (r: Option<TimeSlot>)
    ensures r.Some? ==> SlotName(r.value) == s
  {
    if s == "1st Period" then Some(FirstPeriod)
    else if s == "2nd Period" then Some(SecondPeriod)
    else if s == "3rd Period" then Some(ThirdPeriod)
    else if s == "4th Period" then Some(FourthPeriod)
    else None
  }

  /** `Day` is closed: exactly the five names parse, and each one back to itself. */
  lemma DayNamesRoundTrip(d: Day, s: string)
    ensures ParseDay(DayName(d)) == Some(d)
    ensures ParseDay(s).Some? <==> s in {"Monday", "Tuesday", "Wednesday", "Thursday", "Friday"}
  {
    match d
    case Monday =>
    case Tuesday =>
    case Wednesday =>
    case Thursday =>
    case Friday =>
  }

  /** `TimeSlot` is closed: exactly the four names parse, and each one back to itself. */
  lemma SlotNamesRoundTrip(t: TimeSlot, s: string)
    ensures ParseSlot(SlotName(t)) == Some(t)
    ensures ParseSlot(s).Some? <==> s in {"1st Period", "2nd Period", "3rd Period", "4th Period"}
  {
    match t
    case FirstPeriod =>
    case SecondPeriod =>
    case ThirdPeriod =>
    case FourthPeriod =>
  }

  /** Distinct enumeration values have distinct names. */
  lemma NamesInjective(d1: Day, d2: Day, t1: TimeSlot, t2: TimeSlot)
    ensures DayName(d1) == DayName(d2) ==> d1 == d2
    ensures SlotName(t1) == SlotName(t2) ==> t1 == t2
  {
    DayNamesRoundTrip(d1, "");
    DayNamesRoundTrip(d2, "");
    SlotNamesRoundTrip(t1, "");
    SlotNamesRoundTrip(t2, "");
  }

  /** The documented range of a week number: 1..18. */
  predicate InTerm(w: int)
  {
    1 <= w <= 18
  }

  /** A course's weeks all lie in the documented 1..18 range. */
  predicate WeeksInTerm(c: Course)
  {
    forall i :: 0 <= i < |c.weeks| ==> InTerm(c.weeks[i])
  }
}
