/**
 * The fixed enumerations, the period time table, the week ranges and the seed
 * list of courses (constants.tsx).
 */
module Constants {
  import opened Types

  /** The grid's columns, in display order. */
  const DAYS: seq<Day> := [Monday, Tuesday, Wednesday, Thursday, Friday]

  /** The grid's rows, in display order. */
  const TIMESLOTS: seq<TimeSlot> := [FirstPeriod, SecondPeriod, ThirdPeriod, FourthPeriod]

  /** Clock times of each period, keyed by the period's name. */
  const TIME_RANGES: map<string, string> := map[
    "1st Period" := "08:30 - 10:05",
    "2nd Period" := "10:25 - 12:00",
    "3rd Period" := "14:00 - 15:35",
    "4th Period" := "15:55 - 17:30"
  ]

  /** `Array.from({ length: n }, (_, i) => i + start)`: n consecutive week numbers. */
  function WeekRange(n: nat, start: int): (r: seq<int>)
    ensures |r| == n
    ensures forall w :: w in r <==> start <= w < start + n
  {
    var r := seq(n, i => i + start);
    assert forall w :: start <= w < start + n ==> w in r by {
      forall w | start <= w < start + n ensures w in r { assert r[w - start] == w; }
    }
    r
  }

  const allWeeks: seq<int> := WeekRange(18, 1)
  const earlyWeeks: seq<int> := WeekRange(9, 1)
  const lateWeeks: seq<int> := WeekRange(9, 10)

  /** The colour every new course in the add form starts with. */
  const DEFAULT_COLOR: string := "from-blue-400 to-indigo-600"

  const INITIAL_COURSES: seq<Course> := [
    Course("1", "Advanced UX Design", "Dr. Sarah Chen", "Lab 402",
           Monday, FirstPeriod, "from-purple-400 to-blue-500", allWeeks),
    Course("2", "Neural Networks", "Prof. James Watt", "Hall A",
           Tuesday, ThirdPeriod, "from-pink-400 to-rose-500", earlyWeeks),
    Course("3", "Distributed Systems", "Elena Rodriguez", "Room 101",
           Wednesday, SecondPeriod, "from-cyan-400 to-blue-600", allWeeks),
    Course("4", "Cyber Security", "Mark Thompson", "Secure Lab",
           Thursday, FourthPeriod, "from-amber-400 to-orange-500", lateWeeks),
    Course("5", "Quantum Computing", "Dr. Alan Turing", "Physics 01",
           Friday, ThirdPeriod, "from-emerald-400 to-teal-600", earlyWeeks)
  ]

  /** Position of a weekday in DAYS; the grid uses it as the column's day offset. */
  function DayIndex(d: Day): (k: nat)
    ensures k < |DAYS| && DAYS[k] == d
  {
    match d
    case Monday => 0
    case Tuesday => 1
    case Wednesday => 2
    case Thursday => 3
    case Friday => 4
  }

  /** Position of a period in TIMESLOTS. */
  function SlotIndex(t: TimeSlot): (k: nat)
    ensures k < |TIMESLOTS| && TIMESLOTS[k] == t
  {
    match t
    case FirstPeriod => 0
    case SecondPeriod => 1
    case ThirdPeriod => 2
    case FourthPeriod => 3
  }

  /** DAYS lists every weekday exactly once, Monday to Friday in calendar order. */
  lemma DaysEnumerateDay()
    ensures |DAYS| == 5 && DAYS[0] == Monday && DAYS[4] == Friday
    ensures DAYS[1] == Tuesday && DAYS[2] == Wednesday && DAYS[3] == Thursday
    ensures forall i, j :: 0 <= i < j < |DAYS| ==> DAYS[i] != DAYS[j]
    ensures forall d: Day :: d in DAYS
  {
    forall d: Day ensures d in DAYS {
      var _ := DayIndex(d);
    }
  }

  /** TIMESLOTS lists every period exactly once, first to fourth. */
  lemma TimeSlotsEnumerateTimeSlot()
    ensures |TIMESLOTS| == 4 && TIMESLOTS[0] == FirstPeriod && TIMESLOTS[3] == FourthPeriod
    ensures TIMESLOTS[1] == SecondPeriod && TIMESLOTS[2] == ThirdPeriod
    ensures forall i, j :: 0 <= i < j < |TIMESLOTS| ==> TIMESLOTS[i] != TIMESLOTS[j]
    ensures forall t: TimeSlot :: t in TIMESLOTS
  {
    forall t: TimeSlot ensures t in TIMESLOTS {
      var _ := SlotIndex(t);
    }
  }

  /** `TIME_RANGES[course.timeSlot]` is defined for every period, and has no other keys. */
  lemma TimeRangesCoverSlots(t: TimeSlot)
    ensures SlotName(t) in TIME_RANGES
    ensures forall k :: k in TIME_RANGES <==> ParseSlot(k).Some?
  {
    SlotNamesRoundTrip(t, "");
    forall k ensures k in TIME_RANGES <==> ParseSlot(k).Some? {
      SlotNamesRoundTrip(t, k);
    }
  }

  /** The three week lists: 1..18, 1..9 and 10..18; early and late split the term. */
  lemma WeekListsSplitTerm()
    ensures forall w :: w in allWeeks <==> InTerm(w)
    ensures forall w :: w in earlyWeeks <==> 1 <= w <= 9
    ensures forall w :: w in lateWeeks <==> 10 <= w <= 18
    ensures forall w :: !(w in earlyWeeks && w in lateWeeks)
    ensures earlyWeeks + lateWeeks == allWeeks
  {
    WeekRangeSplit(9, 9, 1);
  }

  /** Membership of one week number in the three week lists. */
  lemma WeekMembership(w: int)
    ensures w in allWeeks <==> InTerm(w)
    ensures w in earlyWeeks <==> 1 <= w <= 9
    ensures w in lateWeeks <==> 10 <= w <= 18
  {
  }

  /** Splitting a range of n + m weeks after its first n. */
  lemma WeekRangeSplit(n: nat, m: nat, start: int)
    ensures WeekRange(n, start) + WeekRange(m, start + n) == WeekRange(n + m, start)
  {
  }

  /** The seed ids are "1".."5" in order, hence pairwise distinct. */
  lemma SeedIdsDistinct()
    ensures |INITIAL_COURSES| == 5
    ensures INITIAL_COURSES[0].id == "1" && INITIAL_COURSES[1].id == "2" && INITIAL_COURSES[2].id == "3"
    ensures INITIAL_COURSES[3].id == "4" && INITIAL_COURSES[4].id == "5"
    ensures forall i, j :: 0 <= i < j < |INITIAL_COURSES| ==> INITIAL_COURSES[i].id != INITIAL_COURSES[j].id
  {
  }

  /** No two seed courses occupy the same grid cell. */
  lemma SeedSlotsDistinct()
    ensures forall i, j :: 0 <= i < j < |INITIAL_COURSES| ==>
      (INITIAL_COURSES[i].day, INITIAL_COURSES[i].timeSlot) != (INITIAL_COURSES[j].day, INITIAL_COURSES[j].timeSlot)
  {
    var cs := INITIAL_COURSES;
    // each seed course has a day of its own: the i-th runs on the i-th weekday
    assert forall i :: 0 <= i < |cs| ==> cs[i].day == DAYS[i];
    DaysEnumerateDay();
  }

  /** Every week number in the seed list lies in 1..18. */
  lemma SeedWeeksInTerm()
    ensures forall i :: 0 <= i < |INITIAL_COURSES| ==> WeeksInTerm(INITIAL_COURSES[i])
  {
    WeekListsSplitTerm();
  }
}
