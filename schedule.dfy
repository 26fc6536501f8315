/** The weekly class schedule: a static catalogue of sessions, a type filter over it, and a
    persisted list of reservations with append, membership and remove-all-by-id, driven by a
    dialog that offers either "Reserve Spot" or "Cancel Reservation". */
module Schedule {
  import opened Common

  datatype ClassType = Yoga | WeightLifting | CoreWork | Flexibility

  /** The string value a session's `type` field holds, which is also the filter button id. */
  function TypeName(t: ClassType): (s: string)
    ensures s != "all"
  {
    match t
    case Yoga => "yoga"
    case WeightLifting => "weight-lifting"
    case CoreWork => "core"
    case Flexibility => "flexibility"
  }

  datatype ClassSession = ClassSession(
    id: string, name: string, kind: ClassType, instructor: string,
    time: string, duration: string, spots: nat, maxSpots: nat, room: string)

  datatype DaySchedule = DaySchedule(day: string, classes: seq<ClassSession>)

  /** A stored reservation; `reservedAt` is the reservation instant in milliseconds, which the
      page writes as an ISO string. */
  datatype Reservation = Reservation(classId: string, className: string, day: string, time: string, reservedAt: nat)

  const WeekSchedule: seq<DaySchedule> := [
    DaySchedule("Monday", [
      ClassSession("mon-1", "Morning Yoga", Yoga, "Priya S.", "6:00 AM", "60 min", 8, 15, "Studio A"),
      ClassSession("mon-2", "Power Lifting", WeightLifting, "Raj P.", "7:30 AM", "75 min", 3, 10, "Weight Room"),
      ClassSession("mon-3", "Core Blast", CoreWork, "Amit K.", "6:00 PM", "45 min", 12, 20, "Studio B")]),
    DaySchedule("Tuesday", [
      ClassSession("tue-1", "Flexibility Flow", Flexibility, "Priya S.", "6:30 AM", "45 min", 10, 15, "Studio A"),
      ClassSession("tue-2", "Heavy Weights", WeightLifting, "Raj P.", "5:30 PM", "90 min", 5, 8, "Weight Room"),
      ClassSession("tue-3", "Evening Yoga", Yoga, "Meera J.", "7:30 PM", "60 min", 6, 15, "Studio A")]),
    DaySchedule("Wednesday", [
      ClassSession("wed-1", "Sunrise Yoga", Yoga, "Priya S.", "5:30 AM", "60 min", 11, 15, "Studio A"),
      ClassSession("wed-2", "Core & Strength", CoreWork, "Amit K.", "12:00 PM", "45 min", 15, 20, "Studio B"),
      ClassSession("wed-3", "Olympic Lifting", WeightLifting, "Raj P.", "6:00 PM", "90 min", 2, 6, "Weight Room")]),
    DaySchedule("Thursday", [
      ClassSession("thu-1", "Morning Stretch", Flexibility, "Meera J.", "6:00 AM", "45 min", 9, 15, "Studio A"),
      ClassSession("thu-2", "Weight Training", WeightLifting, "Raj P.", "7:00 AM", "75 min", 4, 10, "Weight Room"),
      ClassSession("thu-3", "Core Express", CoreWork, "Amit K.", "7:00 PM", "30 min", 18, 25, "Studio B")]),
    DaySchedule("Friday", [
      ClassSession("fri-1", "Power Yoga", Yoga, "Priya S.", "6:00 AM", "75 min", 7, 15, "Studio A"),
      ClassSession("fri-2", "Full Body Weights", WeightLifting, "Raj P.", "5:00 PM", "90 min", 1, 8, "Weight Room"),
      ClassSession("fri-3", "Flexibility & Core", Flexibility, "Meera J.", "6:30 PM", "60 min", 13, 20, "Studio A")]),
    DaySchedule("Saturday", [
      ClassSession("sat-1", "Weekend Yoga", Yoga, "Priya S.", "8:00 AM", "90 min", 5, 20, "Studio A"),
      ClassSession("sat-2", "Strength Training", WeightLifting, "Raj P.", "10:00 AM", "75 min", 6, 10, "Weight Room"),
      ClassSession("sat-3", "Core Challenge", CoreWork, "Amit K.", "11:30 AM", "45 min", 14, 20, "Studio B")]),
    DaySchedule("Sunday", [
      ClassSession("sun-1", "Restorative Yoga", Yoga, "Meera J.", "9:00 AM", "75 min", 10, 15, "Studio A"),
      ClassSession("sun-2", "Stretching Session", Flexibility, "Priya S.", "11:00 AM", "45 min", 12, 15, "Studio A")])
  ]

  // ---------------------------------------------------------------- filtering

  /** The filter test: "all" lets everything through, any other string only its own type. */
  predicate Matches(c: ClassSession, filter: string)
  {
    filter == "all" || TypeName(c.kind) == filter
  }

  /** `classes.filter(c => filter === "all" || c.type === filter)`. */
  function FilterClasses(cs: seq<ClassSession>, filter: string): (r: seq<ClassSession>)
    ensures |r| <= |cs|
    ensures forall i :: 0 <= i < |r| ==> r[i] in cs && Matches(r[i], filter)
  {
    if cs == [] then []
    else (if Matches(cs[0], filter) then [cs[0]] else []) + FilterClasses(cs[1..], filter)
  }

  /** Filtering distributes over concatenation, so it keeps the relative order of what it keeps. */
  lemma {:induction false} FilterClassesAppend(a: seq<ClassSession>, b: seq<ClassSession>, filter: string)
    ensures FilterClasses(a + b, filter) == FilterClasses(a, filter) + FilterClasses(b, filter)
    decreases |a|
  {
    if a == [] {
      assert a + b == b;
    } else {
      assert (a + b)[0] == a[0] && (a + b)[1..] == a[1..] + b;
      FilterClassesAppend(a[1..], b, filter);
      var head := if Matches(a[0], filter) then [a[0]] else [];
      assert FilterClasses(a + b, filter) == head + (FilterClasses(a[1..], filter) + FilterClasses(b, filter));
      assert FilterClasses(a, filter) == head + FilterClasses(a[1..], filter);
    }
  }

  /** A single session is kept exactly when it matches. */
  lemma FilterClassesSingle(c: ClassSession, filter: string)
    ensures FilterClasses([c], filter) == if Matches(c, filter) then [c] else []
  {
    assert [c][1..] == [];
  }

  /** The filter keeps every matching session as often as it occurs, and nothing else. */
  lemma {:induction false} FilterClassesCounts(cs: seq<ClassSession>, filter: string, c: ClassSession)
    ensures multiset(FilterClasses(cs, filter))[c] == if Matches(c, filter) then multiset(cs)[c] else 0
    decreases |cs|
  {
    if cs != [] {
      assert cs == [cs[0]] + cs[1..];
      FilterClassesCounts(cs[1..], filter, c);
    }
  }

  /** The filter "all" keeps every session. */
  lemma {:induction false} FilterAllKeepsEverything(cs: seq<ClassSession>)
    ensures FilterClasses(cs, "all") == cs
    decreases |cs|
  {
    if cs != [] {
      FilterAllKeepsEverything(cs[1..]);
      assert cs == [cs[0]] + cs[1..];
    }
  }

  /** `filteredSchedule`: every day, with its classes filtered. */
  function FilteredSchedule(filter: string): (r: seq<DaySchedule>)
    ensures |r| == |WeekSchedule| == 7
    ensures forall i :: 0 <= i < |r| ==> r[i].day == WeekSchedule[i].day
  {
    seq(|WeekSchedule|, i requires 0 <= i < |WeekSchedule| =>
      WeekSchedule[i].(classes := FilterClasses(WeekSchedule[i].classes, filter)))
  }

  /** Under "all" the filtered schedule is the catalogue itself. */
  lemma FilteredScheduleAll()
    ensures FilteredSchedule("all") == WeekSchedule
  {
    var r := FilteredSchedule("all");
    forall i | 0 <= i < |r| ensures r[i] == WeekSchedule[i] {
      FilterAllKeepsEverything(WeekSchedule[i].classes);
    }
  }

  /** Under a type filter each day shows exactly that day's sessions of that type. */
  lemma FilteredScheduleByType(t: ClassType, i: nat, c: ClassSession)
    requires i < 7
    ensures multiset(FilteredSchedule(TypeName(t))[i].classes)[c]
            == if c.kind == t then multiset(WeekSchedule[i].classes)[c] else 0
  {
    FilterClassesCounts(WeekSchedule[i].classes, TypeName(t), c);
    assert TypeName(c.kind) == TypeName(t) ==> c.kind == t;
  }

  /** A filter string that names no type leaves every day empty ("No classes matching filter"). */
  lemma UnknownFilterEmptiesEveryDay(filter: string, i: nat)
    requires i < 7
    requires filter != "all" && forall t: ClassType :: TypeName(t) != filter
    ensures FilteredSchedule(filter)[i].classes == []
  {
    var cs := WeekSchedule[i].classes;
    forall c | c in cs ensures !Matches(c, filter) {
      assert TypeName(c.kind) != filter;
    }
    NothingMatchingFiltersToEmpty(cs, filter);
  }

  lemma {:induction false} NothingMatchingFiltersToEmpty(cs: seq<ClassSession>, filter: string)
    requires forall c :: c in cs ==> !Matches(c, filter)
    ensures FilterClasses(cs, filter) == []
    decreases |cs|
  {
    if cs != [] {
      NothingMatchingFiltersToEmpty(cs[1..], filter);
    }
  }

  // ---------------------------------------------------------------- the catalogue

  /** Every session of the catalogue, Monday first. */
  function AllSessions(days: seq<DaySchedule>): (r: seq<ClassSession>)
    ensures forall d, c :: d in days && c in d.classes ==> c in r
  {
    if days == [] then [] else days[0].classes + AllSessions(days[1..])
  }

  predicate IdsDistinct(cs: seq<ClassSession>)
  {
    forall i, j :: 0 <= i < j < |cs| ==> cs[i].id != cs[j].id
  }

  /** The static catalogue: 20 sessions, never more spots left than the class holds, and at
      least one spot left everywhere, so "Reserve Spot" is never disabled for a fresh page. */
  lemma CatalogueWellFormed()
    ensures |AllSessions(WeekSchedule)| == 20
    ensures forall k, i :: 0 <= k < 7 && 0 <= i < |WeekSchedule[k].classes| ==>
              1 <= WeekSchedule[k].classes[i].spots <= WeekSchedule[k].classes[i].maxSpots
  {
    var all := AllSessions(WeekSchedule);
    assert all == WeekSchedule[0].classes + WeekSchedule[1].classes + WeekSchedule[2].classes
      + WeekSchedule[3].classes + WeekSchedule[4].classes + WeekSchedule[5].classes + WeekSchedule[6].classes;
    forall k | 0 <= k < 7
      ensures SpotsBounded(WeekSchedule[k].classes)
    {
      DaySpotsBounded(k);
    }
  }

  predicate SpotsBounded(classes: seq<ClassSession>)
  {
    forall i :: 0 <= i < |classes| ==> 1 <= classes[i].spots <= classes[i].maxSpots
  }

  lemma DaySpotsBounded(k: nat)
    requires k < 7
    ensures SpotsBounded(WeekSchedule[k].classes)
  {
    if k == 0 {
    } else if k == 1 {
    } else if k == 2 {
    } else if k == 3 {
    } else if k == 4 {
    } else if k == 5 {
    } else {
    }
  }

  const DayPrefixes: seq<string> := ["mon", "tue", "wed", "thu", "fri", "sat", "sun"]

  lemma DayIdsDistinct(k: nat)
    requires k < 7
    ensures IdsDistinct(WeekSchedule[k].classes)
  {
  }

  lemma IdsCarryDayPrefix(k: nat, i: nat)
    requires k < 7 && i < |WeekSchedule[k].classes|
    ensures |WeekSchedule[k].classes[i].id| >= 3 && WeekSchedule[k].classes[i].id[..3] == DayPrefixes[k]
  {
  }

  /** No session id occurs twice in the whole week. */
  lemma CatalogueIdsUnique(k1: nat, i1: nat, k2: nat, i2: nat)
    requires k1 < 7 && i1 < |WeekSchedule[k1].classes|
    requires k2 < 7 && i2 < |WeekSchedule[k2].classes|
    requires WeekSchedule[k1].classes[i1].id == WeekSchedule[k2].classes[i2].id
    ensures k1 == k2 && i1 == i2
  {
    IdsCarryDayPrefix(k1, i1);
    IdsCarryDayPrefix(k2, i2);
    assert DayPrefixes[k1] == DayPrefixes[k2];
    DayIdsDistinct(k1);
  }

  /** "Reserve Spot" is disabled when no spot is left. */
  predicate ReserveEnabled(c: ClassSession) { c.spots != 0 }

  /** The spots count is shown in the warning colour when three or fewer are left. */
  predicate LowAvailability(c: ClassSession) { c.spots <= 3 }

  /** In the catalogue the warning shows for exactly three sessions, each still bookable. */
  lemma CatalogueLowAvailability(k: nat, i: nat)
    requires k < 7 && i < |WeekSchedule[k].classes|
    ensures LowAvailability(WeekSchedule[k].classes[i])
            <==> WeekSchedule[k].classes[i].id in {"mon-2", "wed-3", "fri-2"}
    ensures ReserveEnabled(WeekSchedule[k].classes[i])
  {
  }

  // ---------------------------------------------------------------- reservations

  /** `reservations.some(r => r.classId === classId)`. */
  function HasClass(rs: seq<Reservation>, classId: string): (b: bool)
    ensures b <==> exists i :: 0 <= i < |rs| && rs[i].classId == classId
  {
    if rs == [] then false
    else rs[0].classId == classId || HasClass(rs[1..], classId)
  }

  /** `reservations.filter(r => r.classId !== classId)`. */
  function WithoutClass(rs: seq<Reservation>, classId: string): (r: seq<Reservation>)
    ensures |r| <= |rs|
    ensures forall i :: 0 <= i < |r| ==> r[i] in rs && r[i].classId != classId
  {
    if rs == [] then []
    else (if rs[0].classId != classId then [rs[0]] else []) + WithoutClass(rs[1..], classId)
  }

  /** The reservation `handleReserve` appends for a session on a day at an instant. */
  function ReservationFor(c: ClassSession, day: string, now: nat): (r: Reservation)
    ensures r.classId == c.id && r.className == c.name && r.day == day && r.time == c.time
  {
    Reservation(c.id, c.name, day, c.time, now)
  }

  /** After an append the appended class is reserved, and every other class is reserved
      exactly when it was before. */
  lemma ReserveMakesReserved(rs: seq<Reservation>, r: Reservation, other: string)
    ensures HasClass(rs + [r], r.classId)
    ensures other != r.classId ==> HasClass(rs + [r], other) == HasClass(rs, other)
  {
    assert (rs + [r])[|rs|] == r;
    if HasClass(rs, other) {
      var i :| 0 <= i < |rs| && rs[i].classId == other;
      assert (rs + [r])[i] == rs[i];
    }
    if other != r.classId && HasClass(rs + [r], other) {
      var i :| 0 <= i < |rs + [r]| && (rs + [r])[i].classId == other;
      assert i < |rs| && rs[i].classId == other;
    }
  }

  /** Removing keeps the others in order: it distributes over concatenation. */
  lemma {:induction false} WithoutClassAppend(a: seq<Reservation>, b: seq<Reservation>, classId: string)
    ensures WithoutClass(a + b, classId) == WithoutClass(a, classId) + WithoutClass(b, classId)
    decreases |a|
  {
    if a == [] {
      assert a + b == b;
    } else {
      assert (a + b)[0] == a[0] && (a + b)[1..] == a[1..] + b;
      WithoutClassAppend(a[1..], b, classId);
      var head := if a[0].classId != classId then [a[0]] else [];
      assert WithoutClass(a + b, classId) == head + (WithoutClass(a[1..], classId) + WithoutClass(b, classId));
      assert WithoutClass(a, classId) == head + WithoutClass(a[1..], classId);
    }
  }

  /** Removing keeps every entry of another class as often as it occurs, and none of this one. */
  lemma {:induction false} WithoutClassCounts(rs: seq<Reservation>, classId: string, x: Reservation)
    ensures multiset(WithoutClass(rs, classId))[x] == if x.classId == classId then 0 else multiset(rs)[x]
    decreases |rs|
  {
    if rs != [] {
      assert rs == [rs[0]] + rs[1..];
      WithoutClassCounts(rs[1..], classId, x);
    }
  }

  /** After a removal the class is no longer reserved, and every other class is reserved
      exactly when it was before. */
  lemma CancelMakesUnreserved(rs: seq<Reservation>, classId: string, other: string)
    ensures !HasClass(WithoutClass(rs, classId), classId)
    ensures other != classId ==> HasClass(WithoutClass(rs, classId), other) == HasClass(rs, other)
  {
    var w := WithoutClass(rs, classId);
    if other != classId {
      if HasClass(rs, other) {
        var i :| 0 <= i < |rs| && rs[i].classId == other;
        WithoutClassCounts(rs, classId, rs[i]);
        assert rs[i] in multiset(rs);
        assert rs[i] in multiset(w);
        var j :| 0 <= j < |w| && w[j] == rs[i];
      }
    }
  }

  /** No class reserved twice. */
  predicate NoDuplicates(rs: seq<Reservation>)
  {
    forall i, j :: 0 <= i < j < |rs| ==> rs[i].classId != rs[j].classId
  }

  lemma AppendKeepsNoDuplicates(rs: seq<Reservation>, r: Reservation)
    requires NoDuplicates(rs) && !HasClass(rs, r.classId)
    ensures NoDuplicates(rs + [r])
  {
  }

  lemma {:induction false} WithoutClassKeepsNoDuplicates(rs: seq<Reservation>, classId: string)
    requires NoDuplicates(rs)
    ensures NoDuplicates(WithoutClass(rs, classId))
    decreases |rs|
  {
    if rs != [] {
      var tail := rs[1..];
      assert NoDuplicates(tail);
      WithoutClassKeepsNoDuplicates(tail, classId);
      var w := WithoutClass(tail, classId);
      forall j | 0 <= j < |w| ensures w[j].classId != rs[0].classId {
        assert w[j] in tail;
      }
    }
  }

  /** Calling `handleReserve` twice for one session reserves it twice: the append itself does
      not refuse duplicates. */
  lemma ReserveTwicePermitsDuplicates(c: ClassSession, day: string, t1: nat, t2: nat)
    ensures !NoDuplicates([] + [ReservationFor(c, day, t1)] + [ReservationFor(c, day, t2)])
  {
    var rs := [] + [ReservationFor(c, day, t1)] + [ReservationFor(c, day, t2)];
    assert rs[0].classId == rs[1].classId;
  }

  /** The calendar widget: the selected filter, the dialog's class and day, and the stored
      reservations. */
  class Calendar {
    var filter: string
    var selectedClass: Option<ClassSession>
    var selectedDay: string
    var reservations: seq<Reservation>

    /** The store starts from what was persisted. */
    constructor (stored: seq<Reservation>)
      ensures filter == "all" && selectedClass.None? && selectedDay == ""
      ensures reservations == stored
    {
      filter := "all";
      selectedClass := None;
      selectedDay := "";
      reservations := stored;
    }

    /** `isReserved`. */
    function IsReserved(classId: string): (b: bool)
      reads this
      ensures b <==> exists i :: 0 <= i < |reservations| && reservations[i].classId == classId
    {
      HasClass(reservations, classId)
    }

    /** The dialog is open while a class is selected. */
    predicate DialogOpen()
      reads this
    {
      selectedClass.Some?
    }

    method SetFilter(f: string)
      modifies this
      ensures filter == f
      ensures selectedClass == old(selectedClass) && selectedDay == old(selectedDay)
      ensures reservations == old(reservations)
    {
      filter := f;
    }

    /** Clicking a session card opens the dialog for it. */
    method SelectClass(c: ClassSession, day: string)
      modifies this
      ensures selectedClass == Some(c) && selectedDay == day
      ensures filter == old(filter) && reservations == old(reservations)
    {
      selectedClass := Some(c);
      selectedDay := day;
    }

    /** The dialog's "Cancel" button, or closing it any other way. */
    method CloseDialog()
      modifies this
      ensures selectedClass.None?
      ensures filter == old(filter) && selectedDay == old(selectedDay) && reservations == old(reservations)
    {
      selectedClass := None;
    }

    /** `handleReserve`: appends one reservation and closes the dialog. */
    method HandleReserve(c: ClassSession, day: string, now: nat)
      modifies this
      ensures reservations == old(reservations) + [ReservationFor(c, day, now)]
      ensures selectedClass.None?
      ensures filter == old(filter) && selectedDay == old(selectedDay)
    {
      var reservation := Reservation(c.id, c.name, day, c.time, now);
      reservations := reservations + [reservation];
      selectedClass := None;
    }

    /** `cancelReservation`, also wired to the cross on each reservation badge. */
    method CancelReservation(classId: string)
      modifies this
      ensures reservations == WithoutClass(old(reservations), classId)
      ensures !IsReserved(classId)
      ensures filter == old(filter) && selectedClass == old(selectedClass) && selectedDay == old(selectedDay)
    {
      reservations := WithoutClass(reservations, classId);
      CancelMakesUnreserved(old(reservations), classId, classId);
    }

    /** The dialog's action button: "Cancel Reservation" when the class is reserved, otherwise
        "Reserve Spot", which is only clickable while a spot is left. Either way the dialog closes,
        and a duplicate-free list stays duplicate-free. */
    method DialogAction(now: nat)
      requires DialogOpen()
      requires IsReserved(selectedClass.value.id) || ReserveEnabled(selectedClass.value)
      modifies this
      ensures old(IsReserved(selectedClass.value.id)) ==>
                reservations == WithoutClass(old(reservations), old(selectedClass.value.id))
      ensures !old(IsReserved(selectedClass.value.id)) ==>
                reservations == old(reservations) + [ReservationFor(old(selectedClass.value), old(selectedDay), now)]
      ensures NoDuplicates(old(reservations)) ==> NoDuplicates(reservations)
      ensures selectedClass.None?
      ensures filter == old(filter) && selectedDay == old(selectedDay)
    {
      var c := selectedClass.value;
      if IsReserved(c.id) {
        if NoDuplicates(reservations) {
          WithoutClassKeepsNoDuplicates(reservations, c.id);
        }
        CancelReservation(c.id);
        selectedClass := None;
      } else {
        if NoDuplicates(reservations) {
          AppendKeepsNoDuplicates(reservations, ReservationFor(c, selectedDay, now));
        }
        HandleReserve(c, selectedDay, now);
      }
    }
  }
}
