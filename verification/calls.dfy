/** The call manager: a cached view of which floor lines hold waiting groups,
    the queries the state machine asks of the floors, and the rule that picks
    the next group an idle car should serve. */
module Calls {
  import opened Wrappers
  import opened Passengers
  import opened Floors

  /** The cached call flags. They are recomputed only by `UpdateCallStatus`,
      so between refreshes they may disagree with the floor lines. */
  datatype CallCache = CallCache(
    upCalls: seq<bool>,
    downCalls: seq<bool>,
    upCallPending: bool,
    downCallPending: bool)

  /** A new manager: one flag per floor, all false. */
  function NewCallManager(n: nat): (c: CallCache)
    ensures |c.upCalls| == n && |c.downCalls| == n
    ensures forall i :: 0 <= i < n ==> !c.upCalls[i] && !c.downCalls[i]
    ensures !c.upCallPending && !c.downCallPending
  {
    CallCache(seq(n, i => false), seq(n, i => false), false, false)
  }

  /** Somebody waits on this floor, in either line. */
  predicate HasAnyCall(f: Floor) {
    !Empty(f, UP) || !Empty(f, DOWN)
  }

  /** Somebody waits anywhere in the building (read from the lines themselves). */
  ghost predicate AnyLiveCall(floors: seq<Floor>) {
    exists i :: 0 <= i < |floors| && HasAnyCall(floors[i])
  }

  /** Some line of direction `dir` is non-empty on floors `i..`. */
  function AnyCallFrom(floors: seq<Floor>, dir: int, i: nat): (r: bool)
    requires i <= |floors|
    ensures r <==> exists j :: i <= j < |floors| && Queue(floors[j], dir) != []
    decreases |floors| - i
  {
    if i == |floors| then false
    else !Empty(floors[i], dir) || AnyCallFrom(floors, dir, i + 1)
  }

  /** Recomputes every flag from the lines: a floor's flag is set exactly
      when its line is non-empty, and a pending flag exactly when some
      floor's line of that direction is non-empty. */
  function UpdateCallStatus(floors: seq<Floor>): (c: CallCache)
    ensures |c.upCalls| == |floors| && |c.downCalls| == |floors|
    ensures forall i :: 0 <= i < |floors| ==> (c.upCalls[i] <==> Queue(floors[i], UP) != [])
    ensures forall i :: 0 <= i < |floors| ==> (c.downCalls[i] <==> Queue(floors[i], DOWN) != [])
    ensures c.upCallPending <==> exists i :: 0 <= i < |floors| && Queue(floors[i], UP) != []
    ensures c.downCallPending <==> exists i :: 0 <= i < |floors| && Queue(floors[i], DOWN) != []
  {
    CallCache(
      seq(|floors|, i requires 0 <= i < |floors| => !Empty(floors[i], UP)),
      seq(|floors|, i requires 0 <= i < |floors| => !Empty(floors[i], DOWN)),
      AnyCallFrom(floors, UP, 0),
      AnyCallFrom(floors, DOWN, 0))
  }

  /** The cache reflects the lines exactly. */
  ghost predicate Fresh(c: CallCache, floors: seq<Floor>) {
    c == UpdateCallStatus(floors)
  }

  /** Reads the cached pending flags only. */
  function CallPending(c: CallCache): (r: bool)
    ensures r <==> c.upCallPending || c.downCallPending
  {
    c.upCallPending || c.downCallPending
  }

  /** With a fresh cache, "a call is pending" means somebody waits somewhere. */
  lemma CallPendingIffLive(c: CallCache, floors: seq<Floor>)
    requires Fresh(c, floors)
    ensures CallPending(c) <==> AnyLiveCall(floors)
  {
    if CallPending(c) {
      var i :| 0 <= i < |floors| && (Queue(floors[i], UP) != [] || Queue(floors[i], DOWN) != []);
      assert HasAnyCall(floors[i]);
    }
    if AnyLiveCall(floors) {
      var i :| 0 <= i < |floors| && HasAnyCall(floors[i]);
      assert Queue(floors[i], UP) != [] || Queue(floors[i], DOWN) != [];
    }
  }

  /** A cache that has not been refreshed can deny a call that is waiting. */
  lemma StaleCacheMissesCall(g: Group)
    ensures var floors := [Floor([g], [])];
      !CallPending(NewCallManager(1)) && AnyLiveCall(floors)
  {
    var floors := [Floor([g], [])];
    assert HasAnyCall(floors[0]);
  }

  /** Somebody waits on `floor` in the line of `dir` (read live). */
  function CallsPendingOnFloor(floors: seq<Floor>, floor: int, dir: int): (r: bool)
    requires 0 <= floor < |floors|
    ensures r <==> Queue(floors[floor], dir) != []
  {
    !Empty(floors[floor], dir)
  }

  /** Floor `i` lies strictly ahead of `floor` when travelling in `dir`:
      above for `UP`, below for every other value. */
  predicate Ahead(floor: int, dir: int, i: int) {
    if dir == UP then i > floor else i < floor
  }

  /** Scans floors `i`, `i + 1`, ... upwards for any waiting group. */
  function ScanUp(floors: seq<Floor>, i: nat): (r: bool)
    requires i <= |floors|
    ensures r <==> exists j :: i <= j < |floors| && HasAnyCall(floors[j])
    decreases |floors| - i
  {
    if i == |floors| then false
    else HasAnyCall(floors[i]) || ScanUp(floors, i + 1)
  }

  /** Scans floors `i`, `i - 1`, ... downwards for any waiting group. */
  function ScanDown(floors: seq<Floor>, i: int): (r: bool)
    requires -1 <= i < |floors|
    ensures r <==> exists j :: 0 <= j <= i && HasAnyCall(floors[j])
    decreases i + 1
  {
    if i < 0 then false
    else HasAnyCall(floors[i]) || ScanDown(floors, i - 1)
  }

  /** Somebody waits, in either line, on a floor strictly ahead in `dir`. */
  function CallsPendingInDir(floors: seq<Floor>, floor: int, dir: int): (r: bool)
    requires 0 <= floor < |floors|
    ensures r <==> exists i :: 0 <= i < |floors| && Ahead(floor, dir, i) && HasAnyCall(floors[i])
  {
    if dir == UP then ScanUp(floors, floor + 1) else ScanDown(floors, floor - 1)
  }

  /** Reverse when nobody waits ahead but somebody waits here for the
      opposite direction. */
  function ShouldChangeDir(floors: seq<Floor>, floor: int, dir: int): (r: bool)
    requires 0 <= floor < |floors|
    ensures r <==> (forall i :: 0 <= i < |floors| && Ahead(floor, dir, i) ==> !HasAnyCall(floors[i]))
                   && Queue(floors[floor], -dir) != []
  {
    if CallsPendingInDir(floors, floor, dir) then false
    else CallsPendingOnFloor(floors, floor, dir * -1)
  }

  /** Reference definition: every group waiting in the `dir` lines of floors
      `lo..hi-1`, bottom floor first. */
  function Waiting(floors: seq<Floor>, dir: int, lo: nat, hi: nat): seq<Group>
    requires lo <= hi <= |floors|
    decreases hi - lo
  {
    if lo == hi then [] else Queue(floors[lo], dir) + Waiting(floors, dir, lo + 1, hi)
  }

  /** Peeling the top floor off the reference. */
  lemma {:induction false} WaitingLast(floors: seq<Floor>, dir: int, lo: nat, hi: nat)
    requires lo < hi <= |floors|
    ensures Waiting(floors, dir, lo, hi) == Waiting(floors, dir, lo, hi - 1) + Queue(floors[hi - 1], dir)
    decreases hi - lo
  {
    if lo + 1 < hi {
      WaitingLast(floors, dir, lo + 1, hi);
    }
  }

  /** Nobody waits in the range exactly when every line in it is empty. */
  lemma {:induction false} WaitingEmpty(floors: seq<Floor>, dir: int, lo: nat, hi: nat)
    requires lo <= hi <= |floors|
    ensures Waiting(floors, dir, lo, hi) == [] <==> forall i :: lo <= i < hi ==> Queue(floors[i], dir) == []
    decreases hi - lo
  {
    if lo < hi {
      WaitingEmpty(floors, dir, lo + 1, hi);
      var q := Queue(floors[lo], dir);
      var w := Waiting(floors, dir, lo + 1, hi);
      assert Waiting(floors, dir, lo, hi) == q + w;
      if q + w == [] {
        assert |q + w| == |q| + |w|;
        forall i | lo <= i < hi ensures Queue(floors[i], dir) == [] {
          if i == lo { assert q == []; } else { assert w == []; }
        }
      } else if q == [] {
        assert w != [];
      }
    }
  }

  /** Counts the `UP`-line groups on floors `lo..`, scanning upwards. */
  function CountUp(floors: seq<Floor>, lo: nat): (r: nat)
    requires lo <= |floors|
    ensures r == |Waiting(floors, UP, lo, |floors|)|
    decreases |floors| - lo
  {
    if lo == |floors| then 0 else Size(floors[lo], UP) + CountUp(floors, lo + 1)
  }

  /** Counts the `DOWN`-line groups on floors `hi-1` down to 0, scanning downwards. */
  function CountDown(floors: seq<Floor>, hi: nat): (r: nat)
    requires hi <= |floors|
    ensures r == |Waiting(floors, DOWN, 0, hi)|
    decreases hi
  {
    if hi == 0 then 0
    else
      WaitingLast(floors, DOWN, 0, hi);
      Size(floors[hi - 1], DOWN) + CountDown(floors, hi - 1)
  }

  /** Groups (not people) waiting to go up, over the whole building. */
  function NumUp(floors: seq<Floor>): (r: nat)
    ensures r == |Waiting(floors, UP, 0, |floors|)|
  {
    CountUp(floors, 0)
  }

  /** Groups waiting to go down, over the whole building. */
  function NumDown(floors: seq<Floor>): (r: nat)
    ensures r == |Waiting(floors, DOWN, 0, |floors|)|
  {
    CountDown(floors, |floors|)
  }

  /** Up-line groups strictly above `floor`. */
  function NumUpAbove(floors: seq<Floor>, floor: int): (r: nat)
    requires 0 <= floor < |floors|
    ensures r == |Waiting(floors, UP, floor + 1, |floors|)|
  {
    CountUp(floors, floor + 1)
  }

  /** Down-line groups strictly below `floor`. */
  function NumDownBelow(floors: seq<Floor>, floor: int): (r: nat)
    requires 0 <= floor < |floors|
    ensures r == |Waiting(floors, DOWN, 0, floor)|
  {
    CountDown(floors, floor)
  }

  /** All waiting groups, both lines, every floor. */
  function NumCallPending(floors: seq<Floor>): (r: nat)
    ensures r == |Waiting(floors, UP, 0, |floors|)| + |Waiting(floors, DOWN, 0, |floors|)|
  {
    NumUp(floors) + NumDown(floors)
  }

  /** Waiting groups on one floor, both lines. */
  function NumCallPendingOn(floors: seq<Floor>, floor: int): (r: nat)
    requires 0 <= floor < |floors|
    ensures r == |Queue(floors[floor], UP)| + |Queue(floors[floor], DOWN)|
    ensures r == 0 <==> !HasAnyCall(floors[floor])
  {
    Size(floors[floor], UP) + Size(floors[floor], DOWN)
  }

  /** A count is zero exactly when nobody waits in that range. */
  lemma CountZeroIffNoCall(floors: seq<Floor>, dir: int, lo: nat, hi: nat)
    requires lo <= hi <= |floors|
    ensures |Waiting(floors, dir, lo, hi)| == 0 <==> forall i :: lo <= i < hi ==> Queue(floors[i], dir) == []
  {
    WaitingEmpty(floors, dir, lo, hi);
  }

  /** The first floor at or after `i` with a non-empty up line, or 0 if none. */
  function FirstUpFrom(floors: seq<Floor>, i: nat): (r: nat)
    requires i <= |floors|
    ensures (exists j :: i <= j < |floors| && Queue(floors[j], UP) != []) ==>
              i <= r < |floors| && Queue(floors[r], UP) != []
              && forall j :: i <= j < r ==> Queue(floors[j], UP) == []
    ensures (forall j :: i <= j < |floors| ==> Queue(floors[j], UP) == []) ==> r == 0
    decreases |floors| - i
  {
    if i == |floors| then 0
    else if !Empty(floors[i], UP) then i
    else FirstUpFrom(floors, i + 1)
  }

  /** The lowest floor with somebody waiting to go up; 0 when nobody is. */
  function LowestUp(floors: seq<Floor>): (r: nat)
    ensures NumUp(floors) > 0 ==>
              r < |floors| && Queue(floors[r], UP) != [] && forall j :: 0 <= j < r ==> Queue(floors[j], UP) == []
    ensures NumUp(floors) == 0 ==> r == 0
  {
    WaitingEmpty(floors, UP, 0, |floors|);
    FirstUpFrom(floors, 0)
  }

  /** The first floor at or below `i` with a non-empty down line, or 0 if none. */
  function LastDownFrom(floors: seq<Floor>, i: int): (r: nat)
    requires -1 <= i < |floors|
    ensures (exists j :: 0 <= j <= i && Queue(floors[j], DOWN) != []) ==>
              r <= i && Queue(floors[r], DOWN) != []
              && forall j :: r < j <= i ==> Queue(floors[j], DOWN) == []
    ensures (forall j :: 0 <= j <= i ==> Queue(floors[j], DOWN) == []) ==> r == 0
    decreases i + 1
  {
    if i < 0 then 0
    else if !Empty(floors[i], DOWN) then i
    else LastDownFrom(floors, i - 1)
  }

  /** The highest floor with somebody waiting to go down; 0 when nobody is. */
  function HighestDown(floors: seq<Floor>): (r: nat)
    ensures NumDown(floors) > 0 ==>
              r < |floors| && Queue(floors[r], DOWN) != [] && forall j :: r < j < |floors| ==> Queue(floors[j], DOWN) == []
    ensures NumDown(floors) == 0 ==> r == 0
  {
    WaitingEmpty(floors, DOWN, 0, |floors|);
    LastDownFrom(floors, |floors| - 1)
  }

  /** `r` is the head of `line`, or nothing when the line is empty. */
  predicate HeadOf(r: Option<Group>, line: seq<Group>) {
    if line == [] then r.None? else r == Some(line[0])
  }

  function Abs(x: int): (r: nat)
    ensures r == x || r == -x
  {
    if x < 0 then -x else x
  }

  /** The pick for an idle car when its own floor offers nothing: the head
      of the lowest up line when more groups want to go up, the head of the
      highest down line when more want to go down, and on a tie whichever of
      the two floors is nearer, the up one winning equal distances. */
  function PrioritizeOtherFloors(floors: seq<Floor>, floor: int): (r: Option<Group>)
    requires |floors| >= 1
    ensures NumUp(floors) > NumDown(floors) ==> HeadOf(r, Queue(floors[LowestUp(floors)], UP))
    ensures NumUp(floors) < NumDown(floors) ==> HeadOf(r, Queue(floors[HighestDown(floors)], DOWN))
    ensures NumUp(floors) == NumDown(floors) && Abs(floor - LowestUp(floors)) <= Abs(HighestDown(floors) - floor) ==>
              HeadOf(r, Queue(floors[LowestUp(floors)], UP))
    ensures NumUp(floors) == NumDown(floors) && Abs(floor - LowestUp(floors)) > Abs(HighestDown(floors) - floor) ==>
              HeadOf(r, Queue(floors[HighestDown(floors)], DOWN))
  {
    var lowestUp := LowestUp(floors);
    var highestDown := HighestDown(floors);
    if NumUp(floors) > NumDown(floors) then Peek(floors[lowestUp], UP)
    else if NumUp(floors) < NumDown(floors) then Peek(floors[highestDown], DOWN)
    else if Abs(floor - lowestUp) <= Abs(highestDown - floor) then Peek(floors[lowestUp], UP)
    else Peek(floors[highestDown], DOWN)
  }

  /** The group is at the head of some line of the building. */
  ghost predicate IsHead(floors: seq<Floor>, g: Group) {
    exists i :: 0 <= i < |floors| &&
      ((Queue(floors[i], UP) != [] && Queue(floors[i], UP)[0] == g) ||
       (Queue(floors[i], DOWN) != [] && Queue(floors[i], DOWN)[0] == g))
  }

  /** The pick is empty exactly when nobody waits anywhere; otherwise it is
      the head of the lowest up line (more up demand, or a tie where that
      floor is no farther) or of the highest down line. */
  lemma {:induction false} OtherFloorsChoice(floors: seq<Floor>, floor: int)
    requires |floors| >= 1
    ensures var r := PrioritizeOtherFloors(floors, floor);
      && (r.None? <==> !AnyLiveCall(floors))
      && (r.Some? ==> IsHead(floors, r.value))
      && (NumUp(floors) > NumDown(floors) ==>
            r.Some? && r.value == Queue(floors[LowestUp(floors)], UP)[0])
      && (NumUp(floors) < NumDown(floors) ==>
            r.Some? && r.value == Queue(floors[HighestDown(floors)], DOWN)[0])
      && (NumUp(floors) == NumDown(floors) && AnyLiveCall(floors) ==>
            && r.Some?
            && Queue(floors[LowestUp(floors)], UP) != [] && Queue(floors[HighestDown(floors)], DOWN) != []
            && (Abs(floor - LowestUp(floors)) <= Abs(HighestDown(floors) - floor) ==>
                  r.value == Queue(floors[LowestUp(floors)], UP)[0])
            && (Abs(floor - LowestUp(floors)) > Abs(HighestDown(floors) - floor) ==>
                  r.value == Queue(floors[HighestDown(floors)], DOWN)[0]))
  {
    var nu, nd := NumUp(floors), NumDown(floors);
    var lu, hd := LowestUp(floors), HighestDown(floors);
    var r := PrioritizeOtherFloors(floors, floor);
    CountZeroIffNoCall(floors, UP, 0, |floors|);
    CountZeroIffNoCall(floors, DOWN, 0, |floors|);
    if nu == 0 && nd == 0 {
      assert r == Peek(floors[lu], UP);
      assert forall i :: 0 <= i < |floors| ==> !HasAnyCall(floors[i]);
    } else {
      assert HasAnyCall(floors[lu]) || HasAnyCall(floors[hd]);
      if r.Some? {
        if nu > nd || (nu == nd && Abs(floor - lu) <= Abs(hd - floor)) {
          assert Queue(floors[lu], UP)[0] == r.value;
        } else {
          assert Queue(floors[hd], DOWN)[0] == r.value;
        }
      }
    }
  }

  /** The pick for an idle car on `floor`. Its own floor comes first, judged
      by the CACHED flags: only one flag set serves that line; both set serve
      up when at least as many up-groups wait above as down-groups below.
      Otherwise the other floors decide. The lines themselves are read live. */
  function PrioritizePassengerCalls(c: CallCache, floors: seq<Floor>, floor: int): (r: Option<Group>)
    requires 0 <= floor < |floors| && |c.upCalls| == |floors| && |c.downCalls| == |floors|
    ensures c.upCalls[floor] && !c.downCalls[floor] ==> HeadOf(r, Queue(floors[floor], UP))
    ensures !c.upCalls[floor] && c.downCalls[floor] ==> HeadOf(r, Queue(floors[floor], DOWN))
    ensures c.upCalls[floor] && c.downCalls[floor] && NumUpAbove(floors, floor) >= NumDownBelow(floors, floor) ==>
              HeadOf(r, Queue(floors[floor], UP))
    ensures c.upCalls[floor] && c.downCalls[floor] && NumUpAbove(floors, floor) < NumDownBelow(floors, floor) ==>
              HeadOf(r, Queue(floors[floor], DOWN))
    ensures !c.upCalls[floor] && !c.downCalls[floor] ==> r == PrioritizeOtherFloors(floors, floor)
  {
    var up, down := c.upCalls[floor], c.downCalls[floor];
    if up && !down then Peek(floors[floor], UP)
    else if !up && down then Peek(floors[floor], DOWN)
    else if up && down then
      if NumUpAbove(floors, floor) >= NumDownBelow(floors, floor) then Peek(floors[floor], UP)
      else Peek(floors[floor], DOWN)
    else PrioritizeOtherFloors(floors, floor)
  }

  /** Whatever the cache says, a pick is always the head of some line. */
  lemma PickIsHead(c: CallCache, floors: seq<Floor>, floor: int)
    requires 0 <= floor < |floors| && |c.upCalls| == |floors| && |c.downCalls| == |floors|
    ensures var r := PrioritizePassengerCalls(c, floors, floor);
      r.Some? ==> IsHead(floors, r.value)
  {
    OtherFloorsChoice(floors, floor);
    var r := PrioritizePassengerCalls(c, floors, floor);
    if r.Some? && r == Peek(floors[floor], UP) {
      assert IsHead(floors, r.value);
    } else if r.Some? && r == Peek(floors[floor], DOWN) {
      assert IsHead(floors, r.value);
    }
  }

  /** With a fresh cache the pick is never missing while somebody waits, is
      always the head of a line, and serves the car's own floor first. */
  lemma PrioritizeFresh(c: CallCache, floors: seq<Floor>, floor: int)
    requires 0 <= floor < |floors| && Fresh(c, floors)
    ensures var r := PrioritizePassengerCalls(c, floors, floor);
      && (r.None? <==> !AnyLiveCall(floors))
      && (r.Some? ==> IsHead(floors, r.value))
      && (HasAnyCall(floors[floor]) ==>
            && r.Some?
            && ((Queue(floors[floor], UP) != [] && r.value == Queue(floors[floor], UP)[0]) ||
                (Queue(floors[floor], DOWN) != [] && r.value == Queue(floors[floor], DOWN)[0])))
  {
    var r := PrioritizePassengerCalls(c, floors, floor);
    OtherFloorsChoice(floors, floor);
    if HasAnyCall(floors[floor]) {
      assert AnyLiveCall(floors);
      if Queue(floors[floor], UP) != [] && r == Peek(floors[floor], UP) {
        assert IsHead(floors, r.value);
      } else {
        assert IsHead(floors, r.value);
      }
    }
  }

  /** When both own-floor flags are set, equal demand above (up) and below
      (down) is resolved in favour of the up line. */
  lemma TieOnOwnFloorGoesUp(c: CallCache, floors: seq<Floor>, floor: int)
    requires 0 <= floor < |floors| && |c.upCalls| == |floors| && |c.downCalls| == |floors|
    requires c.upCalls[floor] && c.downCalls[floor]
    requires NumUpAbove(floors, floor) == NumDownBelow(floors, floor)
    ensures PrioritizePassengerCalls(c, floors, floor) == Peek(floors[floor], UP)
  {
  }

  /** A stale flag can make the pick come back empty although somebody waits:
      the source dereferences that result and fails. */
  lemma StaleFlagGivesNoPick(g: Group)
    ensures var floors := [Floor([], [g])];
      var c := CallCache([true], [false], true, false);
      PrioritizePassengerCalls(c, floors, 0).None? && AnyLiveCall(floors)
  {
    var floors := [Floor([], [g])];
    assert HasAnyCall(floors[0]);
  }

  /** The head of the `dir` line on `floor`, if any. */
  function GetPassenger(floors: seq<Floor>, floor: int, dir: int): (r: Option<Group>)
    requires 0 <= floor < |floors|
    ensures r.None? <==> !CallsPendingOnFloor(floors, floor, dir)
    ensures r.Some? ==> r.value == Queue(floors[floor], dir)[0]
  {
    Peek(floors[floor], dir)
  }
}
