/**
 Room availability: the per-day count and the room search read the same stays in two ways.
 The count casts a stay's timestamps to dates; the search compares the timestamps themselves
 with the midnights that bound the requested range. Times are minutes.
 */
module Availability {

  type RoomId = int

  const DAY: nat := 1440

  datatype Stay = Stay(room: RoomId, checkIn: int, checkOut: int, cancelled: bool)

  function Date(t: int): int {
    t / DAY
  }

  function Midnight(d: int): int {
    d * DAY
  }

  /** The stays counted on day d. */
  function Covering(stays: seq<Stay>, d: int): set<int> {
    set i | 0 <= i < |stays| && !stays[i].cancelled && Date(stays[i].checkIn) <= d < Date(stays[i].checkOut)
  }

  function AvailableOn(sellable: set<RoomId>, stays: seq<Stay>, d: int): int {
    |sellable| - |Covering(stays, d)|
  }

  /** The stays that keep their room out of a search from one day to another. */
  function Overlapping(stays: seq<Stay>, from: int, to: int): set<int> {
    set i | 0 <= i < |stays| && !stays[i].cancelled && stays[i].checkIn < Midnight(to) &&
        stays[i].checkOut > Midnight(from)
  }

  function Rooms(stays: seq<Stay>, s: set<int>): set<RoomId>
    requires forall i :: i in s ==> 0 <= i < |stays|
  {
    set i | i in s :: stays[i].room
  }

  function SearchRooms(sellable: set<RoomId>, stays: seq<Stay>, from: int, to: int): set<RoomId> {
    set r | r in sellable && !exists i :: i in Overlapping(stays, from, to) && stays[i].room == r
  }

  /** Two live stays of one room. */
  predicate ShareRoom(a: Stay, b: Stay) {
    !a.cancelled && !b.cancelled && a.room == b.room
  }

  /** The overlap constraint and the date check of the stays table. */
  predicate NoOverlaps(stays: seq<Stay>) {
    && (forall i :: 0 <= i < |stays| && !stays[i].cancelled ==> stays[i].checkIn < stays[i].checkOut)
    && (forall i, j :: 0 <= i < j < |stays| && ShareRoom(stays[i], stays[j]) ==>
          stays[i].checkOut <= stays[j].checkIn || stays[j].checkOut <= stays[i].checkIn)
  }

  predicate OnlySellable(sellable: set<RoomId>, stays: seq<Stay>) {
    forall i :: 0 <= i < |stays| && !stays[i].cancelled ==> stays[i].room in sellable
  }

  /** The stay leaves in the course of day d, not at its midnight. */
  predicate LeavesDuring(s: Stay, d: int) {
    !s.cancelled && Midnight(d) < s.checkOut < Midnight(d + 1)
  }

  /** The stay takes the room on day d and keeps it over the night. */
  predicate ArrivesFor(s: Stay, room: RoomId, d: int) {
    !s.cancelled && s.room == room && Date(s.checkIn) == d < Date(s.checkOut)
  }

  /** Each room vacated in the course of day d is taken again that day. */
  predicate VacatedRoomsAreRelet(stays: seq<Stay>, d: int) {
    forall i :: 0 <= i < |stays| && LeavesDuring(stays[i], d) ==>
      exists j :: 0 <= j < |stays| && ArrivesFor(stays[j], stays[i].room, d)
  }

  // ---------- counting ----------

  ghost function Pick<T>(s: set<T>): (x: T)
    requires s != {}
    ensures x in s
  {
    var x :| x in s;
    x
  }

  lemma {:induction false} DistinctRooms(stays: seq<Stay>, s: set<int>)
    requires forall i :: i in s ==> 0 <= i < |stays|
    requires forall i, j :: i in s && j in s && i != j ==> stays[i].room != stays[j].room
    ensures |Rooms(stays, s)| == |s|
  {
    if s == {} {
      assert Rooms(stays, s) == {};
    } else {
      var i := Pick(s);
      DistinctRooms(stays, s - {i});
      assert Rooms(stays, s) == Rooms(stays, s - {i}) + {stays[i].room};
    }
  }

  lemma {:induction false} SubsetSize<T>(a: set<T>, b: set<T>)
    requires a <= b
    ensures |a| <= |b| && (|a| == |b| <==> a == b)
  {
    if a != {} {
      var x := Pick(a);
      SubsetSize(a - {x}, b - {x});
      assert b == (b - {x}) + {x};
    } else {
      assert |b| == 0 ==> b == {};
    }
  }

  /** A night is covered by at most one stay per room. */
  lemma OneStayPerNight(stays: seq<Stay>, d: int)
    requires NoOverlaps(stays)
    ensures |Rooms(stays, Covering(stays, d))| == |Covering(stays, d)|
    ensures Covering(stays, d) <= Overlapping(stays, d, d + 1)
  {
    var night := Midnight(d + 1) - 1;
    forall i | i in Covering(stays, d)
      ensures stays[i].checkIn <= night < stays[i].checkOut
    {
    }
    forall i, j | i in Covering(stays, d) && j in Covering(stays, d) && i != j
      ensures stays[i].room != stays[j].room
    {
    }
    DistinctRooms(stays, Covering(stays, d));
  }

  lemma SearchSize(sellable: set<RoomId>, stays: seq<Stay>, from: int, to: int)
    requires OnlySellable(sellable, stays)
    ensures Rooms(stays, Overlapping(stays, from, to)) <= sellable
    ensures |SearchRooms(sellable, stays, from, to)| == |sellable| - |Rooms(stays, Overlapping(stays, from, to))|
  {
    var taken := Rooms(stays, Overlapping(stays, from, to));
    assert SearchRooms(sellable, stays, from, to) == sellable - taken;
    assert sellable == (sellable - taken) + taken;
  }

  // ---------- the two answers ----------

  /** A stay that touches day d covers its night or leaves in the course of the day. */
  lemma TouchesDay(stays: seq<Stay>, d: int, i: int)
    requires 0 <= i < |stays| && (!stays[i].cancelled ==> stays[i].checkIn < stays[i].checkOut)
    ensures i in Overlapping(stays, d, d + 1) <==> i in Covering(stays, d) || LeavesDuring(stays[i], d)
  {
  }

  /** Whoever sleeps in a room that was left that day has arrived that day. */
  lemma SuccessorArrives(stays: seq<Stay>, d: int, i: int, j: int)
    requires NoOverlaps(stays) && 0 <= i < |stays| && LeavesDuring(stays[i], d)
    requires j in Covering(stays, d) && stays[j].room == stays[i].room
    ensures ArrivesFor(stays[j], stays[i].room, d)
  {
    Apart(stays, i, j);
  }

  lemma Apart(stays: seq<Stay>, i: int, j: int)
    requires NoOverlaps(stays) && 0 <= i < |stays| && 0 <= j < |stays| && i != j
    requires !stays[i].cancelled && !stays[j].cancelled && stays[i].room == stays[j].room
    ensures stays[i].checkOut <= stays[j].checkIn || stays[j].checkOut <= stays[i].checkIn
  {
  }

  lemma TakenAreCovered(stays: seq<Stay>, d: int)
    requires NoOverlaps(stays)
    ensures VacatedRoomsAreRelet(stays, d) <==>
              Rooms(stays, Overlapping(stays, d, d + 1)) <= Rooms(stays, Covering(stays, d))
  {
    if Rooms(stays, Overlapping(stays, d, d + 1)) <= Rooms(stays, Covering(stays, d)) {
      CoveredAreRelet(stays, d);
    }
    if VacatedRoomsAreRelet(stays, d) {
      ReletAreCovered(stays, d);
    }
  }

  lemma CoveredAreRelet(stays: seq<Stay>, d: int)
    requires NoOverlaps(stays) && Rooms(stays, Overlapping(stays, d, d + 1)) <= Rooms(stays, Covering(stays, d))
    ensures VacatedRoomsAreRelet(stays, d)
  {
    forall i | 0 <= i < |stays| && LeavesDuring(stays[i], d)
      ensures exists j :: 0 <= j < |stays| && ArrivesFor(stays[j], stays[i].room, d)
    {
      TouchesDay(stays, d, i);
      assert stays[i].room in Rooms(stays, Overlapping(stays, d, d + 1));
      var j :| j in Covering(stays, d) && stays[j].room == stays[i].room;
      SuccessorArrives(stays, d, i, j);
    }
  }

  lemma ReletAreCovered(stays: seq<Stay>, d: int)
    requires NoOverlaps(stays) && VacatedRoomsAreRelet(stays, d)
    ensures Rooms(stays, Overlapping(stays, d, d + 1)) <= Rooms(stays, Covering(stays, d))
  {
    forall i | i in Overlapping(stays, d, d + 1)
      ensures stays[i].room in Rooms(stays, Covering(stays, d))
    {
      TouchesDay(stays, d, i);
      if LeavesDuring(stays[i], d) {
        var j :| 0 <= j < |stays| && ArrivesFor(stays[j], stays[i].room, d);
        assert j in Covering(stays, d);
      }
    }
  }

  /**
   For one night the search never offers more rooms than the count says, and exactly as many
   precisely when every room vacated in the course of that day is taken again that day.
   */
  lemma NightAnswersAgree(sellable: set<RoomId>, stays: seq<Stay>, d: int)
    requires NoOverlaps(stays) && OnlySellable(sellable, stays)
    ensures |SearchRooms(sellable, stays, d, d + 1)| <= AvailableOn(sellable, stays, d)
    ensures |SearchRooms(sellable, stays, d, d + 1)| == AvailableOn(sellable, stays, d) <==>
              VacatedRoomsAreRelet(stays, d)
  {
    OneStayPerNight(stays, d);
    SearchSize(sellable, stays, d, d + 1);
    SubsetSize(Rooms(stays, Covering(stays, d)), Rooms(stays, Overlapping(stays, d, d + 1)));
    TakenAreCovered(stays, d);
  }

  /** With check-outs at midnight the two answers are always the same. */
  lemma MidnightCheckoutsAgree(sellable: set<RoomId>, stays: seq<Stay>, d: int)
    requires NoOverlaps(stays) && OnlySellable(sellable, stays)
    requires forall i :: 0 <= i < |stays| && !stays[i].cancelled ==> stays[i].checkOut % DAY == 0
    ensures |SearchRooms(sellable, stays, d, d + 1)| == AvailableOn(sellable, stays, d)
  {
    forall i | 0 <= i < |stays|
      ensures !LeavesDuring(stays[i], d)
    {
      if !stays[i].cancelled {
        assert stays[i].checkOut == Midnight(Date(stays[i].checkOut));
      }
    }
    NightAnswersAgree(sellable, stays, d);
  }

  /** A guest leaving at eleven: the count frees the room that day, the search does not. */
  lemma MorningCheckoutDisagrees()
    ensures var stays := [Stay(7, 14 * 60, DAY + 11 * 60, false)];
            && NoOverlaps(stays) && OnlySellable({7}, stays)
            && AvailableOn({7}, stays, 1) == 1 && SearchRooms({7}, stays, 1, 2) == {}
  {
    var stays := [Stay(7, 14 * 60, DAY + 11 * 60, false)];
    assert Covering(stays, 1) == {};
    assert 0 in Overlapping(stays, 1, 2);
  }

  /** Over a longer range, the search returns at most the smallest daily count. */
  lemma RangeSearchIsBounded(sellable: set<RoomId>, stays: seq<Stay>, from: int, to: int, d: int)
    requires NoOverlaps(stays) && OnlySellable(sellable, stays) && from <= d < to
    ensures SearchRooms(sellable, stays, from, to) <= SearchRooms(sellable, stays, d, d + 1)
    ensures |SearchRooms(sellable, stays, from, to)| <= AvailableOn(sellable, stays, d)
  {
    assert Overlapping(stays, d, d + 1) <= Overlapping(stays, from, to) by {
      assert Midnight(from) <= Midnight(d) && Midnight(d + 1) <= Midnight(to);
    }
    NightAnswersAgree(sellable, stays, d);
    SubsetSize(SearchRooms(sellable, stays, from, to), SearchRooms(sellable, stays, d, d + 1));
  }

  // ---------- what the two answers mean ----------

  /** Some live stay holds the room at minute t. */
  predicate HeldAt(stays: seq<Stay>, r: RoomId, t: int) {
    exists i :: 0 <= i < |stays| && !stays[i].cancelled && stays[i].room == r
      && stays[i].checkIn <= t < stays[i].checkOut
  }

  /** The search returns the sellable rooms that nobody holds at any minute of the days asked for. */
  lemma SearchedRoomsAreFree(sellable: set<RoomId>, stays: seq<Stay>, from: int, to: int, r: RoomId)
    requires NoOverlaps(stays) && from < to
    ensures r in SearchRooms(sellable, stays, from, to) <==>
              r in sellable && forall t :: 1440 * from <= t < 1440 * to ==> !HeldAt(stays, r, t)
  {
    if r in sellable && r !in SearchRooms(sellable, stays, from, to) {
      var i :| i in Overlapping(stays, from, to) && stays[i].room == r;
      var t := if stays[i].checkIn > 1440 * from then stays[i].checkIn else 1440 * from;
      assert 1440 * from <= t < 1440 * to && HeldAt(stays, r, t);
    }
    if t :| 1440 * from <= t < 1440 * to && HeldAt(stays, r, t) {
      var i :| 0 <= i < |stays| && !stays[i].cancelled && stays[i].room == r
        && stays[i].checkIn <= t < stays[i].checkOut;
      assert i in Overlapping(stays, from, to);
    }
  }

  /** The count is the number of sellable rooms that nobody holds at the last minute of the day. */
  lemma CountedRoomsAreFree(sellable: set<RoomId>, stays: seq<Stay>, d: int)
    requires NoOverlaps(stays) && OnlySellable(sellable, stays)
    ensures AvailableOn(sellable, stays, d) == |FreeAt(sellable, stays, 1440 * d + 1439)|
  {
    var held := Rooms(stays, Covering(stays, d));
    OneStayPerNight(stays, d);
    FreeIsNotCovered(sellable, stays, d);
    SetDifference(sellable, held);
  }

  function FreeAt(sellable: set<RoomId>, stays: seq<Stay>, t: int): set<RoomId> {
    set r | r in sellable && !HeldAt(stays, r, t)
  }

  lemma FreeIsNotCovered(sellable: set<RoomId>, stays: seq<Stay>, d: int)
    requires OnlySellable(sellable, stays)
    ensures Rooms(stays, Covering(stays, d)) <= sellable
    ensures FreeAt(sellable, stays, 1440 * d + 1439) == sellable - Rooms(stays, Covering(stays, d))
  {
    CoveringIsHolding(stays, d);
  }

  lemma SetDifference(all: set<RoomId>, part: set<RoomId>)
    requires part <= all
    ensures |all - part| == |all| - |part|
  {
    assert all == (all - part) + part;
  }

  lemma CoveringIsHolding(stays: seq<Stay>, d: int)
    ensures forall r :: r in Rooms(stays, Covering(stays, d)) <==> HeldAt(stays, r, 1440 * d + 1439)
  {
    forall r
      ensures r in Rooms(stays, Covering(stays, d)) <==> HeldAt(stays, r, 1440 * d + 1439)
    {
      if HeldAt(stays, r, 1440 * d + 1439) {
        var i :| 0 <= i < |stays| && !stays[i].cancelled && stays[i].room == r
          && stays[i].checkIn <= 1440 * d + 1439 < stays[i].checkOut;
        assert i in Covering(stays, d);
      }
    }
  }
}
