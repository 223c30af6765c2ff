/**
 * The course registry's list transforms and queries (App.tsx): remove and update
 * by id, append, the first-match slot resolver and the per-week Blocks count.
 * Every operation builds a new list; the App class in CourseFlow stores it.
 */
module Registry {
  import opened Types
  import opened Constants

  /** The resolver's test: held on that day, in that period, and active in that week. */
  predicate Matches(c: Course, day: Day, slot: TimeSlot, week: int)
  {
    c.day == day && c.timeSlot == slot && week in c.weeks
  }

  /**
   * `courses.find(c => c.day === day && c.timeSlot === slot && c.weeks.includes(week))`:
   * the first course in list order that matches, or None.
   */
  function FindForSlot(cs: seq<Course>, day: Day, slot: TimeSlot, week: int): (r: Option<Course>)
    ensures r.Some? ==> r.value in cs && Matches(r.value, day, slot, week)
    ensures r.None? <==> forall i :: 0 <= i < |cs| ==> !Matches(cs[i], day, slot, week)
  {
    if cs == [] then None
    else if Matches(cs[0], day, slot, week) then Some(cs[0])
    else FindForSlot(cs[1..], day, slot, week)
  }

  /** The resolver returns the course at the first matching position, whatever follows it. */
  lemma {:induction false} FindForSlotIsFirst(cs: seq<Course>, day: Day, slot: TimeSlot, week: int, k: nat)
    requires k < |cs| && Matches(cs[k], day, slot, week)
    requires forall i :: 0 <= i < k ==> !Matches(cs[i], day, slot, week)
    ensures FindForSlot(cs, day, slot, week) == Some(cs[k])
  {
    if k > 0 {
      FindForSlotIsFirst(cs[1..], day, slot, week, k - 1);
    }
  }

  /**
   * Double booking: when two courses both match, the earlier one is shown, unless
   * a course before it matches too.
   */
  lemma EarlierDoubleBookingWins(cs: seq<Course>, day: Day, slot: TimeSlot, week: int, i: nat, j: nat)
    requires i < j < |cs|
    requires Matches(cs[i], day, slot, week) && Matches(cs[j], day, slot, week)
    requires forall k :: 0 <= k < i ==> !Matches(cs[k], day, slot, week)
    ensures FindForSlot(cs, day, slot, week) == Some(cs[i])
    ensures cs[i] != cs[j] ==> FindForSlot(cs, day, slot, week) != Some(cs[j])
  {
    FindForSlotIsFirst(cs, day, slot, week, i);
  }

  /** The resolver on a concatenation: the first part decides unless it has no match. */
  lemma {:induction false} FindForSlotAppend(a: seq<Course>, b: seq<Course>, day: Day, slot: TimeSlot, week: int)
    ensures FindForSlot(a + b, day, slot, week) ==
      if FindForSlot(a, day, slot, week).Some? then FindForSlot(a, day, slot, week)
      else FindForSlot(b, day, slot, week)
  {
    if a != [] {
      assert (a + b)[1..] == a[1..] + b;
      FindForSlotAppend(a[1..], b, day, slot, week);
    } else {
      assert a + b == b;
    }
  }

  /**
   * `courses.filter(c => c.id !== id)`: drops every course carrying the id and
   * keeps all the others in their original order.
   */
  function RemoveById(cs: seq<Course>, id: string): (r: seq<Course>)
    ensures |r| <= |cs|
    ensures forall i :: 0 <= i < |r| ==> r[i].id != id
    ensures forall c :: multiset(r)[c] == if c.id == id then 0 else multiset(cs)[c]
    ensures IsSubsequence(r, cs)
  {
    if cs == [] then []
    else
      assert cs == [cs[0]] + cs[1..];
      var rest := RemoveById(cs[1..], id);
      if cs[0].id == id then rest
      else
        assert ([cs[0]] + rest)[1..] == rest;
        [cs[0]] + rest
  }

  /** `a` is `b` with some elements left out and the rest in their original order. */
  predicate IsSubsequence<T(==)>(a: seq<T>, b: seq<T>)
  {
    if b == [] then a == []
    else (a != [] && a[0] == b[0] && IsSubsequence(a[1..], b[1..])) || IsSubsequence(a, b[1..])
  }

  /** Removing an id that no course carries leaves the list as it was. */
  lemma {:induction false} RemoveAbsentId(cs: seq<Course>, id: string)
    requires forall i :: 0 <= i < |cs| ==> cs[i].id != id
    ensures RemoveById(cs, id) == cs
  {
    if cs != [] {
      RemoveAbsentId(cs[1..], id);
      assert cs == [cs[0]] + cs[1..];
    }
  }

  /** Removing twice by the same id is the same as removing once. */
  lemma RemoveIdempotent(cs: seq<Course>, id: string)
    ensures RemoveById(RemoveById(cs, id), id) == RemoveById(cs, id)
  {
    RemoveAbsentId(RemoveById(cs, id), id);
  }

  /**
   * `courses.map(c => c.id === uc.id ? uc : c)`: every course carrying uc's id is
   * replaced by uc, every other course stays where it is.
   */
  function UpdateById(cs: seq<Course>, uc: Course): (r: seq<Course>)
    ensures |r| == |cs|
    ensures forall i :: 0 <= i < |cs| ==> r[i] == if cs[i].id == uc.id then uc else cs[i]
  {
    if cs == [] then []
    else [if cs[0].id == uc.id then uc else cs[0]] + UpdateById(cs[1..], uc)
  }

  /** The ids of a list, position by position. */
  function Ids(cs: seq<Course>): (r: seq<string>)
    ensures |r| == |cs| && forall i :: 0 <= i < |cs| ==> r[i] == cs[i].id
  {
    seq(|cs|, i requires 0 <= i < |cs| => cs[i].id)
  }

  /** Updating never changes which id sits at which position. */
  lemma UpdateKeepsIds(cs: seq<Course>, uc: Course)
    ensures Ids(UpdateById(cs, uc)) == Ids(cs)
  {
  }

  /** Updating with the same course twice is the same as updating once. */
  lemma UpdateIdempotent(cs: seq<Course>, uc: Course)
    ensures UpdateById(UpdateById(cs, uc), uc) == UpdateById(cs, uc)
  {
  }

  /** Updating by an id that no course carries leaves the list as it was. */
  lemma UpdateAbsentId(cs: seq<Course>, uc: Course)
    requires forall i :: 0 <= i < |cs| ==> cs[i].id != uc.id
    ensures UpdateById(cs, uc) == cs
  {
  }

  /** After an update, removing that id gives the same list as removing it at once. */
  lemma {:induction false} RemoveAfterUpdate(cs: seq<Course>, uc: Course)
    ensures RemoveById(UpdateById(cs, uc), uc.id) == RemoveById(cs, uc.id)
  {
    if cs != [] {
      RemoveAfterUpdate(cs[1..], uc);
      var u := UpdateById(cs, uc);
      assert u[1..] == UpdateById(cs[1..], uc);
      assert u == [u[0]] + u[1..];
    }
  }

  /** With distinct ids, updating is a point update at the one position carrying the id. */
  lemma UpdateIsPointUpdate(cs: seq<Course>, k: nat, uc: Course)
    requires DistinctIds(cs) && k < |cs| && cs[k].id == uc.id
    ensures UpdateById(cs, uc) == cs[k := uc]
  {
  }

  /** `[...courses, nc]`: the new course goes last. */
  function Append(cs: seq<Course>, nc: Course): (r: seq<Course>)
    ensures |r| == |cs| + 1 && r[..|cs|] == cs && r[|cs|] == nc
  {
    cs + [nc]
  }

  /** Adding a course with a fresh id and removing that id restores the list. */
  lemma RemoveUndoesAppend(cs: seq<Course>, nc: Course)
    requires forall i :: 0 <= i < |cs| ==> cs[i].id != nc.id
    ensures RemoveById(Append(cs, nc), nc.id) == cs
  {
    RemoveAbsentId(cs, nc.id);
    RemoveConcat(cs, [nc], nc.id);
    assert RemoveById([nc], nc.id) == [];
  }

  /** Removal distributes over concatenation. */
  lemma {:induction false} RemoveConcat(a: seq<Course>, b: seq<Course>, id: string)
    ensures RemoveById(a + b, id) == RemoveById(a, id) + RemoveById(b, id)
  {
    if a == [] {
      assert a + b == b;
    } else {
      assert (a + b)[1..] == a[1..] + b;
      RemoveConcat(a[1..], b, id);
    }
  }

  /**
   * Appending never changes a cell that was already filled: a double-booked new
   * course shows only where the cell was empty.
   */
  lemma FindAfterAppend(cs: seq<Course>, nc: Course, day: Day, slot: TimeSlot, week: int)
    ensures FindForSlot(Append(cs, nc), day, slot, week) ==
      if FindForSlot(cs, day, slot, week).Some? then FindForSlot(cs, day, slot, week)
      else if Matches(nc, day, slot, week) then Some(nc) else None
  {
    FindForSlotAppend(cs, [nc], day, slot, week);
  }

  /** After a removal, no cell shows a course carrying the removed id. */
  lemma FindAfterRemove(cs: seq<Course>, id: string, day: Day, slot: TimeSlot, week: int)
    ensures FindForSlot(RemoveById(cs, id), day, slot, week).Some? ==>
      FindForSlot(RemoveById(cs, id), day, slot, week).value.id != id
  {
  }

  /** Ids are pairwise distinct: what the source expects of the registry but never checks. */
  predicate DistinctIds(cs: seq<Course>)
  {
    forall i, j :: 0 <= i < j < |cs| ==> cs[i].id != cs[j].id
  }

  /** Update keeps ids distinct, since it keeps every position's id. */
  lemma UpdateKeepsDistinctIds(cs: seq<Course>, uc: Course)
    requires DistinctIds(cs)
    ensures DistinctIds(UpdateById(cs, uc))
  {
    UpdateKeepsIds(cs, uc);
    var r := UpdateById(cs, uc);
    forall i, j | 0 <= i < j < |r| ensures r[i].id != r[j].id {
      assert Ids(r)[i] == Ids(cs)[i] && Ids(r)[j] == Ids(cs)[j];
    }
  }

  /** Appending keeps ids distinct exactly when the new id is fresh. */
  lemma AppendKeepsDistinctIds(cs: seq<Course>, nc: Course)
    requires DistinctIds(cs)
    ensures DistinctIds(Append(cs, nc)) <==> forall i :: 0 <= i < |cs| ==> cs[i].id != nc.id
  {
    var a := Append(cs, nc);
    assert forall i :: 0 <= i < |cs| ==> a[i] == cs[i];
    if !forall i :: 0 <= i < |cs| ==> cs[i].id != nc.id {
      var i :| 0 <= i < |cs| && cs[i].id == nc.id;
      assert a[i].id == a[|cs|].id;
    }
  }

  /** Removal keeps ids distinct. */
  lemma {:induction false} RemoveKeepsDistinctIds(cs: seq<Course>, id: string)
    requires DistinctIds(cs)
    ensures DistinctIds(RemoveById(cs, id))
  {
    if cs != [] {
      RemoveKeepsDistinctIds(cs[1..], id);
      var rest := RemoveById(cs[1..], id);
      if cs[0].id != id {
        forall k | 0 <= k < |rest| ensures rest[k].id != cs[0].id {
          assert rest[k] in multiset(rest);
          assert rest[k] in multiset(cs[1..]);
          assert rest[k] in cs[1..];
        }
      }
    }
  }

  /** `courses.filter(c => c.weeks.includes(week)).length`: the footer's Blocks figure. */
  function ActiveCount(cs: seq<Course>, week: int): (n: nat)
    ensures n <= |cs|
    ensures n == 0 <==> forall i :: 0 <= i < |cs| ==> week !in cs[i].weeks
    ensures n == |cs| <==> forall i :: 0 <= i < |cs| ==> week in cs[i].weeks
  {
    if cs == [] then 0
    else (if week in cs[0].weeks then 1 else 0) + ActiveCount(cs[1..], week)
  }

  /** The Blocks count of a concatenation is the sum of the parts' counts. */
  lemma {:induction false} ActiveCountConcat(a: seq<Course>, b: seq<Course>, week: int)
    ensures ActiveCount(a + b, week) == ActiveCount(a, week) + ActiveCount(b, week)
  {
    if a == [] {
      assert a + b == b;
    } else {
      assert (a + b)[1..] == a[1..] + b;
      ActiveCountConcat(a[1..], b, week);
    }
  }

  /**
   * Blocks after add and remove: add counts the new course, remove never raises it.
   * Update is covered by UpdateKeepsCount.
   */
  lemma ActiveCountAfterOperations(cs: seq<Course>, nc: Course, id: string, week: int)
    ensures ActiveCount(Append(cs, nc), week) == ActiveCount(cs, week) + (if week in nc.weeks then 1 else 0)
    ensures ActiveCount(RemoveById(cs, id), week) <= ActiveCount(cs, week)
  {
    ActiveCountConcat(cs, [nc], week);
    RemoveNeverRaisesCount(cs, id, week);
  }

  /** With distinct ids, an update that keeps the weeks of the course it replaces keeps Blocks. */
  lemma UpdateKeepsCount(cs: seq<Course>, k: nat, uc: Course, week: int)
    requires DistinctIds(cs) && k < |cs| && cs[k].id == uc.id && uc.weeks == cs[k].weeks
    ensures ActiveCount(UpdateById(cs, uc), week) == ActiveCount(cs, week)
  {
    var u := cs[k := uc];
    UpdateIsPointUpdate(cs, k, uc);
    forall i | 0 <= i < |cs| ensures cs[i].weeks == u[i].weeks {
      if i != k { assert u[i] == cs[i]; }
    }
    SameWeeksSameCount(cs, u, week);
  }

  /** Two lists whose courses have the same weeks position by position have the same count. */
  lemma {:induction false} SameWeeksSameCount(a: seq<Course>, b: seq<Course>, week: int)
    requires |a| == |b| && forall i :: 0 <= i < |a| ==> a[i].weeks == b[i].weeks
    ensures ActiveCount(a, week) == ActiveCount(b, week)
  {
    if a != [] {
      SameWeeksSameCount(a[1..], b[1..], week);
    }
  }

  /** Removal never raises the Blocks count: it only leaves courses out. */
  lemma {:induction false} RemoveNeverRaisesCount(cs: seq<Course>, id: string, week: int)
    ensures ActiveCount(RemoveById(cs, id), week) <= ActiveCount(cs, week)
  {
    if cs != [] {
      RemoveNeverRaisesCount(cs[1..], id, week);
      if cs[0].id != id {
        assert ([cs[0]] + RemoveById(cs[1..], id))[1..] == RemoveById(cs[1..], id);
      }
    }
  }

  /** A filled cell means at least one block is active that week. */
  lemma FilledCellCountsAsBlock(cs: seq<Course>, day: Day, slot: TimeSlot, week: int)
    requires FindForSlot(cs, day, slot, week).Some?
    ensures ActiveCount(cs, week) >= 1
  {
    var c := FindForSlot(cs, day, slot, week).value;
    var i :| 0 <= i < |cs| && cs[i] == c;
  }

  /** The seed timetable in week 5: Monday's first period shows Advanced UX Design. */
  lemma SeedMondayFirstPeriodWeekFive()
    ensures FindForSlot(INITIAL_COURSES, Monday, FirstPeriod, 5) == Some(INITIAL_COURSES[0])
  {
    assert 5 in allWeeks;
    FindForSlotIsFirst(INITIAL_COURSES, Monday, FirstPeriod, 5, 0);
  }

  /** Week 0 lies outside every seed course's weeks. */
  lemma SeedWeekZeroEmpty(day: Day, slot: TimeSlot)
    ensures FindForSlot(INITIAL_COURSES, day, slot, 0) == None
  {
    var cs := INITIAL_COURSES;
    WeekMembership(0);
    forall i | 0 <= i < |cs| ensures !Matches(cs[i], day, slot, 0) { }
  }

  /** No seed course sits in Monday's second period. */
  lemma SeedMondaySecondPeriodEmpty(week: int)
    ensures FindForSlot(INITIAL_COURSES, Monday, SecondPeriod, week) == None
  {
    var cs := INITIAL_COURSES;
    forall i | 0 <= i < |cs| ensures !Matches(cs[i], Monday, SecondPeriod, week) { }
  }

  /** Tuesday's third period shows Neural Networks in weeks 1..9 only, so week 12 is empty. */
  lemma SeedTuesdayThirdPeriod(week: int)
    ensures FindForSlot(INITIAL_COURSES, Tuesday, ThirdPeriod, week) ==
      if 1 <= week <= 9 then Some(INITIAL_COURSES[1]) else None
  {
    var cs := INITIAL_COURSES;
    WeekMembership(week);
    if 1 <= week <= 9 {
      FindForSlotIsFirst(cs, Tuesday, ThirdPeriod, week, 1);
    } else {
      forall i | 0 <= i < |cs| ensures !Matches(cs[i], Tuesday, ThirdPeriod, week) { }
    }
  }

  /** The Blocks figure of the seed list: four in weeks 1..9, three in weeks 10..18, none outside. */
  lemma SeedBlocks(week: int)
    ensures ActiveCount(INITIAL_COURSES, week) ==
      if 1 <= week <= 9 then 4 else if 10 <= week <= 18 then 3 else 0
  {
    WeekMembership(week);
    var cs := INITIAL_COURSES;
    var early := if week in earlyWeeks then 1 else 0;
    var late := if week in lateWeeks then 1 else 0;
    var all := if week in allWeeks then 1 else 0;
    assert ActiveCount(cs[4..], week) == early;
    assert ActiveCount(cs[3..], week) == late + early by { assert cs[3..][1..] == cs[4..]; }
    assert ActiveCount(cs[2..], week) == all + late + early by { assert cs[2..][1..] == cs[3..]; }
    assert ActiveCount(cs[1..], week) == early + all + late + early by { assert cs[1..][1..] == cs[2..]; }
  }
}
