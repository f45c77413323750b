/** One elevator car: configuration, the seven-state machine's bookkeeping,
    the door counter, and the per-destination manifest of boarded groups. */
module Elevators {
  import opened Passengers
  import opened Floors

  datatype State = STOP | MVTOFLR | OPENDR | OFFLD | BOARD | CLOSEDR | MV1FLR

  /** Door counter of a fully closed door; fully open is the configured door ticks. */
  const CLOSED: int := 0

  datatype Config = Config(
    capacity: int,       // people
    ticksPerFloor: int,  // ticks to travel one floor
    doorTicks: int,      // ticks to open (or close) the door fully
    passPerTick: int)    // people boarding or leaving per tick

  ghost predicate ValidConfig(c: Config) {
    c.capacity >= 0 && c.ticksPerFloor > 0 && c.passPerTick > 0
  }

  datatype Elevator = Elevator(
    cfg: Config,
    currState: State,
    prevState: State,
    prevFloor: int,
    currFloor: int,
    direction: int,
    timeInState: int,
    doorState: int,
    passengers: int,
    passByFloor: seq<seq<Group>>,  // boarded groups, indexed by destination floor
    moveToFloor: int,
    postMoveToFloorDir: int,
    isBoarding: bool,
    isBoardingDone: bool,
    isOffloading: bool,
    isOffloadingDone: bool,
    timeNeeded: int,
    totalBoarding: int,
    canBoard: bool,
    forcedOpen: bool)

  /** The door counter of a fully open door. */
  function Open(e: Elevator): int {
    e.cfg.doorTicks
  }

  /** The mathematical ceiling of `n / k`, for every integer `n`. */
  function CeilDiv(n: int, k: int): (q: int)
    requires k > 0
    ensures k * (q - 1) < n <= k * q
  {
    var m := -n;
    assert m == k * (m / k) + m % k && 0 <= m % k < k;
    -(m / k)
  }

  lemma MulSmallIsZero(b: int, d: int)
    requires b > 0 && -b < b * d < b
    ensures d == 0
  {
  }

  /** Euclidean division is determined by quotient and remainder bounds. */
  lemma DivModUnique(x: int, b: int, q: int, r: int)
    requires b > 0 && x == b * q + r && 0 <= r < b
    ensures x % b == r && x / b == q
  {
    var q2 := x / b;
    var r2 := x % b;
    assert x == b * q2 + r2;
    assert b * (q2 - q) == r - r2;
    MulSmallIsZero(b, q2 - q);
  }

  /** People on board, summed over the whole manifest. */
  function Load(m: seq<seq<Group>>): int
    decreases |m|
  {
    if |m| == 0 then 0 else LoadOf(m[0]) + Load(m[1..])
  }

  function ManifestIds(m: seq<seq<Group>>): multiset<nat>
    decreases |m|
  {
    if |m| == 0 then multiset{} else IdsOf(m[0]) + ManifestIds(m[1..])
  }

  function EmptyManifest(n: nat): (m: seq<seq<Group>>)
    ensures |m| == n && forall f :: 0 <= f < n ==> m[f] == []
  {
    seq(n, f => [])
  }

  lemma {:induction false} LoadUpdate(m: seq<seq<Group>>, f: int, gs: seq<Group>)
    requires 0 <= f < |m|
    ensures Load(m[f := gs]) == Load(m) - LoadOf(m[f]) + LoadOf(gs)
    decreases |m|
  {
    if f > 0 {
      assert m[f := gs][1..] == m[1..][f - 1 := gs];
      LoadUpdate(m[1..], f - 1, gs);
    } else {
      assert m[f := gs][1..] == m[1..];
    }
  }

  lemma {:induction false} ManifestIdsUpdate(m: seq<seq<Group>>, f: int, gs: seq<Group>)
    requires 0 <= f < |m|
    ensures ManifestIds(m[f := gs]) + IdsOf(m[f]) == ManifestIds(m) + IdsOf(gs)
    decreases |m|
  {
    var m' := m[f := gs];
    if f > 0 {
      assert m'[1..] == m[1..][f - 1 := gs];
      assert m[1..][f - 1] == m[f];
      ManifestIdsUpdate(m[1..], f - 1, gs);
      assert ManifestIds(m') == IdsOf(m[0]) + ManifestIds(m'[1..]);
      assert ManifestIds(m) == IdsOf(m[0]) + ManifestIds(m[1..]);
      MultisetShuffle(IdsOf(m[0]), ManifestIds(m'[1..]), ManifestIds(m[1..]), IdsOf(m[f]), IdsOf(gs));
    } else {
      assert m'[1..] == m[1..];
    }
  }

  lemma {:induction false} EmptyManifestLoad(n: nat)
    ensures Load(EmptyManifest(n)) == 0 && ManifestIds(EmptyManifest(n)) == multiset{}
    decreases n
  {
    if n > 0 {
      assert EmptyManifest(n)[1..] == EmptyManifest(n - 1);
      EmptyManifestLoad(n - 1);
    }
  }

  /** With groups of at least one person, the manifest weighs nothing exactly
      when every destination list is empty. */
  lemma {:induction false} LoadZeroIffEmpty(m: seq<seq<Group>>)
    requires forall f, g :: 0 <= f < |m| && g in m[f] ==> g.numPass > 0
    ensures Load(m) >= 0
    ensures Load(m) == 0 <==> forall f :: 0 <= f < |m| ==> m[f] == []
    decreases |m|
  {
    if |m| > 0 {
      LoadOfPositive(m[0]);
      assert forall f :: 1 <= f < |m| ==> m[1..][f - 1] == m[f];
      LoadZeroIffEmpty(m[1..]);
    }
  }

  lemma {:induction false} NoManifestIds(m: seq<seq<Group>>)
    requires forall f :: 0 <= f < |m| ==> m[f] == []
    ensures ManifestIds(m) == multiset{}
    decreases |m|
  {
    if |m| > 0 {
      assert forall f :: 0 <= f < |m[1..]| ==> m[1..][f] == m[f + 1];
      NoManifestIds(m[1..]);
    }
  }

  /** Every boarded group is valid and filed under its own destination. */
  ghost predicate ManifestOk(m: seq<seq<Group>>, n: int) {
    |m| == n && forall f, g :: 0 <= f < n && g in m[f] ==> ValidGroup(g, n) && g.destFloor == f
  }

  /** What every elevator satisfies in every reachable state: a valid
      configuration, a floor inside the building, an occupant count equal to
      the manifest's total and within capacity, and, while moving to a target,
      a target inside the building with the direction pointing at it. */
  ghost predicate ElevatorOk(e: Elevator, n: int) {
    && ValidConfig(e.cfg)
    && ManifestOk(e.passByFloor, n)
    && 0 <= e.currFloor < n
    && e.passengers == Load(e.passByFloor)
    && e.passengers <= e.cfg.capacity
    && (e.currState == MVTOFLR ==>
          && 0 <= e.moveToFloor < n
          && e.moveToFloor != e.currFloor
          && e.direction == (if e.moveToFloor < e.currFloor then DOWN else UP))
  }

  /** A new car: stopped (current and previous state) on the ground floor
      with the door closed, nobody aboard, an empty list for every floor,
      boarding allowed and marked done. */
  function NewElevator(numFloors: nat, cfg: Config): (e: Elevator)
    ensures e.currState == STOP && e.prevState == STOP && e.currFloor == 0
    ensures e.doorState == CLOSED && e.passengers == 0 && Open(e) == cfg.doorTicks
    ensures |e.passByFloor| == numFloors && forall f :: 0 <= f < numFloors ==> e.passByFloor[f] == []
    ensures e.canBoard && e.isBoardingDone && !e.forcedOpen && !e.isOffloading
    ensures ValidConfig(cfg) && numFloors >= 1 ==> ElevatorOk(e, numFloors)
  {
    EmptyManifestLoad(numFloors);
    Elevator(cfg, STOP, STOP, 0, 0, 0, 0, CLOSED, 0, EmptyManifest(numFloors), 0, 0,
             false, true, false, false, 0, 0, true, false)
  }

  /** The fields that only the state machine's movement and door touch. */
  predicate SamePosition(a: Elevator, b: Elevator) {
    && a.cfg == b.cfg && a.currState == b.currState && a.prevState == b.prevState
    && a.currFloor == b.currFloor && a.prevFloor == b.prevFloor && a.direction == b.direction
    && a.doorState == b.doorState && a.moveToFloor == b.moveToFloor
    && a.postMoveToFloorDir == b.postMoveToFloorDir && a.forcedOpen == b.forcedOpen
  }

  /** Same configuration, floor and load. */
  predicate SameLoad(a: Elevator, b: Elevator) {
    a.cfg == b.cfg && a.currFloor == b.currFloor && a.passByFloor == b.passByFloor && a.passengers == b.passengers
  }

  /** Records the next state; the state clock restarts and boarding is
      re-allowed only when the state really changes. */
  function UpdateCurrState(e: Elevator, s: State): (r: Elevator)
    ensures r.currState == s && r.prevState == e.currState
    ensures s != e.currState ==> r.timeInState == 0 && r.canBoard
    ensures s == e.currState ==> r.timeInState == e.timeInState && r.canBoard == e.canBoard
    ensures r.passByFloor == e.passByFloor && r.passengers == e.passengers && r.currFloor == e.currFloor
    ensures r.prevFloor == e.prevFloor && r.direction == e.direction && r.cfg == e.cfg
    ensures r.moveToFloor == e.moveToFloor && r.postMoveToFloorDir == e.postMoveToFloorDir
    ensures r.isOffloading == e.isOffloading
  {
    if s != e.currState then e.(prevState := e.currState, currState := s, timeInState := 0, canBoard := true)
    else e.(prevState := e.currState)
  }

  /** The source's "state changed" test, used to decide what to report. */
  predicate StateChanged(e: Elevator) {
    e.prevState != e.currState || e.prevFloor != e.currFloor
  }

  /** A real state change is always reported; staying put in the same state is not. */
  lemma UpdateReportsChange(e: Elevator, s: State)
    ensures s != e.currState ==> StateChanged(UpdateCurrState(e, s))
    ensures s == e.currState && e.prevFloor == e.currFloor ==> !StateChanged(UpdateCurrState(e, s))
  {
  }

  /** One tick of travel: the floor changes by `direction` exactly on the
      ticks where the state clock reaches a multiple of the ticks per floor. */
  function MoveElevator(e: Elevator): (r: Elevator)
    requires e.cfg.ticksPerFloor > 0
    ensures r.timeInState == e.timeInState + 1 && r.prevFloor == e.currFloor
    ensures r.currFloor == if r.timeInState % e.cfg.ticksPerFloor == 0 then e.currFloor + e.direction else e.currFloor
    ensures r == e.(timeInState := r.timeInState, prevFloor := r.prevFloor, currFloor := r.currFloor)
  {
    var t := e.timeInState + 1;
    e.(timeInState := t, prevFloor := e.currFloor,
       currFloor := if t % e.cfg.ticksPerFloor == 0 then e.currFloor + e.direction else e.currFloor)
  }

  function Moves(e: Elevator, k: nat): (r: Elevator)
    requires e.cfg.ticksPerFloor > 0
    ensures r.cfg == e.cfg && r.direction == e.direction
    decreases k
  {
    if k == 0 then e else Moves(MoveElevator(e), k - 1)
  }

  /** From a multiple of `tpf`, the `i + 1`-th tick is the next multiple
      exactly when `i + 1 == tpf`. */
  lemma TickBoundary(t0: int, tpf: int, i: int)
    requires tpf > 0 && t0 >= 0 && t0 % tpf == 0 && 0 <= i < tpf
    ensures (t0 + i + 1) % tpf == 0 <==> i + 1 == tpf
  {
    var q := t0 / tpf;
    assert t0 == tpf * q + t0 % tpf;
    if i + 1 < tpf {
      DivModUnique(t0 + i + 1, tpf, q, i + 1);
    } else {
      assert t0 + i + 1 == tpf * (q + 1) + 0;
      DivModUnique(t0 + i + 1, tpf, q + 1, 0);
    }
  }

  /** Travel timing: starting on a tick boundary, the car stays on its floor
      for the first `ticksPerFloor - 1` ticks and is one floor further in its
      direction after exactly `ticksPerFloor` ticks. */
  lemma {:induction false} MoveTiming(e: Elevator, k: nat)
    requires e.cfg.ticksPerFloor > 0 && e.timeInState >= 0
    requires e.timeInState % e.cfg.ticksPerFloor == 0
    requires k <= e.cfg.ticksPerFloor
    ensures Moves(e, k).timeInState == e.timeInState + k
    ensures Moves(e, k).currFloor == if k == e.cfg.ticksPerFloor then e.currFloor + e.direction else e.currFloor
  {
    var tpf := e.cfg.ticksPerFloor;
    var t0 := e.timeInState;
    var i := 0;
    var c := e;
    while i < k
      invariant 0 <= i <= k
      invariant c.cfg == e.cfg && c.direction == e.direction
      invariant Moves(e, k) == Moves(c, k - i)
      invariant c.timeInState == t0 + i
      invariant c.currFloor == if i == tpf then e.currFloor + e.direction else e.currFloor
      decreases k - i
    {
      TickBoundary(t0, tpf, i);
      c := MoveElevator(c);
      i := i + 1;
    }
  }

  /** One door step towards open. */
  function OpenDoor(e: Elevator): (r: Elevator)
    ensures r.doorState == e.doorState + 1 && r.prevFloor == e.currFloor
    ensures r == e.(doorState := r.doorState, prevFloor := r.prevFloor)
  {
    e.(prevFloor := e.currFloor, doorState := e.doorState + 1)
  }

  /** One door step towards closed; a closing door re-allows boarding. */
  function CloseDoor(e: Elevator): (r: Elevator)
    ensures r.doorState == e.doorState - 1 && r.prevFloor == e.currFloor && r.canBoard
    ensures r == e.(doorState := r.doorState, prevFloor := r.prevFloor, canBoard := true)
  {
    e.(canBoard := true, prevFloor := e.currFloor, doorState := e.doorState - 1)
  }

  /** Opens when asked for the open value, closes for any other value. */
  function ChangeDoorState(e: Elevator, target: int): (r: Elevator)
    ensures target == Open(e) ==> r == OpenDoor(e)
    ensures target != Open(e) ==> r == CloseDoor(e)
  {
    if target == Open(e) then OpenDoor(e) else CloseDoor(e)
  }

  /** Takes a group aboard if it fits: on success the group is filed under
      its destination, the occupancy and this stop's boarding total grow by
      its size, and the boarding time becomes the ceiling of total / people
      per tick; on failure only `canBoard` is cleared. */
  function Board(e: Elevator, p: Group): (r: (bool, Elevator))
    requires 0 <= p.destFloor < |e.passByFloor|
    requires e.cfg.passPerTick > 0
    ensures r.0 <==> p.numPass + e.passengers <= e.cfg.capacity
    ensures !r.0 ==> r.1 == e.(canBoard := false)
    ensures r.0 ==> r.1.passByFloor == e.passByFloor[p.destFloor := e.passByFloor[p.destFloor] + [p]]
    ensures r.0 ==> r.1.passengers == e.passengers + p.numPass && r.1.passengers <= e.cfg.capacity
    ensures r.0 ==> r.1.totalBoarding == e.totalBoarding + p.numPass
    ensures r.0 ==> r.1.timeNeeded == CeilDiv(r.1.totalBoarding, e.cfg.passPerTick)
    ensures r.0 ==> r.1.canBoard == e.canBoard && r.1.isBoardingDone == e.isBoardingDone && r.1.timeInState == e.timeInState
    ensures SamePosition(e, r.1)
  {
    var n := p.numPass;
    if n + e.passengers > e.cfg.capacity then (false, e.(canBoard := false))
    else
      var total := e.totalBoarding + n;
      (true, e.(totalBoarding := total,
                passByFloor := e.passByFloor[p.destFloor := e.passByFloor[p.destFloor] + [p]],
                passengers := e.passengers + n,
                timeNeeded := CeilDiv(total, e.cfg.passPerTick)))
  }

  /** Boarding keeps the occupant count equal to the manifest's total, adds
      exactly the boarded group's id, and never exceeds capacity. */
  lemma BoardKeepsOccupancy(e: Elevator, p: Group)
    requires 0 <= p.destFloor < |e.passByFloor| && e.cfg.passPerTick > 0
    requires e.passengers == Load(e.passByFloor)
    ensures var r := Board(e, p);
      && r.1.passengers == Load(r.1.passByFloor)
      && (r.0 ==> ManifestIds(r.1.passByFloor) == ManifestIds(e.passByFloor) + multiset{p.id})
      && (e.passengers <= e.cfg.capacity ==> r.1.passengers <= e.cfg.capacity)
  {
    if p.numPass + e.passengers <= e.cfg.capacity {
      var m := e.passByFloor;
      var d := p.destFloor;
      var r := Board(e, p).1;
      assert r.passByFloor == m[d := m[d] + [p]];
      LoadUpdate(m, d, m[d] + [p]);
      LoadOfConcat(m[d], [p]);
      ManifestIdsUpdate(m, d, m[d] + [p]);
      IdsOfConcat(m[d], [p]);
      assert IdsOf([p]) == multiset{p.id} + IdsOf([]);
      var x', x, b := ManifestIds(r.passByFloor), ManifestIds(m), IdsOf(m[d]);
      assert x' + b == x + (b + multiset{p.id});
      assert x' + b == (x + multiset{p.id}) + b;
      MultisetCancel(x', x + multiset{p.id}, b);
    }
  }

  /** The reopen mark plays no part in a car's well-formedness. */
  lemma ForcedOpenKeepsOk(e: Elevator, n: int)
    requires ElevatorOk(e, n)
    ensures ElevatorOk(e.(forcedOpen := false), n)
  {
  }

  /** Filing a valid group under its destination keeps a manifest
      well-formed. */
  lemma FileKeepsManifestOk(m: seq<seq<Group>>, p: Group, n: int)
    requires ManifestOk(m, n) && ValidGroup(p, n) && 0 <= p.destFloor < n
    ensures ManifestOk(m[p.destFloor := m[p.destFloor] + [p]], n)
  {
    var r := m[p.destFloor := m[p.destFloor] + [p]];
    forall f, g | 0 <= f < n && g in r[f]
      ensures ValidGroup(g, n) && g.destFloor == f
    {
      if f == p.destFloor {
        assert g in m[f] || g == p;
      } else {
        assert r[f] == m[f];
      }
    }
  }

  /** Boarding a valid group keeps a well-formed car well-formed. */
  lemma BoardKeepsCar(e: Elevator, p: Group, n: int)
    requires ElevatorOk(e, n) && ValidGroup(p, n)
    ensures ElevatorOk(Board(e, p).1, n)
  {
    BoardKeepsOccupancy(e, p);
    if Board(e, p).0 {
      FileKeepsManifestOk(e.passByFloor, p, n);
    }
  }

  /** One boarding tick: done exactly when the state clock reaches the time
      needed, which also resets this stop's total and re-allows boarding. */
  function KeepBoarding(e: Elevator): (r: Elevator)
    ensures r.timeInState == e.timeInState + 1
    ensures r.isBoardingDone <==> r.timeInState == e.timeNeeded
    ensures r.isBoarding == !r.isBoardingDone
    ensures r.isBoardingDone ==> r.totalBoarding == 0 && r.canBoard
    ensures !r.isBoardingDone ==> r.totalBoarding == e.totalBoarding && r.canBoard == e.canBoard
    ensures r.timeNeeded == e.timeNeeded && r.passByFloor == e.passByFloor && r.passengers == e.passengers
    ensures SamePosition(e, r) && r.isOffloading == e.isOffloading
  {
    var t := e.timeInState + 1;
    if t == e.timeNeeded then e.(timeInState := t, isBoardingDone := true, isBoarding := false, totalBoarding := 0, canBoard := true)
    else e.(timeInState := t, isBoardingDone := false, isBoarding := true)
  }

  function KeepBoardingN(e: Elevator, k: nat): (r: Elevator)
    ensures r.timeNeeded == e.timeNeeded
    decreases k
  {
    if k == 0 then e else KeepBoardingN(KeepBoarding(e), k - 1)
  }

  /** Boarding timing: from a clock behind the time needed, boarding reports
      done on the tick the clock reaches it and not before. */
  lemma {:induction false} BoardingFinishesOnTime(e: Elevator, k: nat)
    requires e.timeInState < e.timeNeeded
    requires 1 <= k <= e.timeNeeded - e.timeInState
    ensures KeepBoardingN(e, k).timeInState == e.timeInState + k
    ensures KeepBoardingN(e, k).isBoardingDone <==> k == e.timeNeeded - e.timeInState
    decreases k
  {
    if k > 1 {
      BoardingFinishesOnTime(KeepBoarding(e), k - 1);
    }
  }

  /** Takes off, as one batch, every group filed under `floor`: the list for
      that floor becomes empty and no other list changes, the occupancy drops
      by the batch's size, and the time needed becomes the ceiling of batch
      size / people per tick; the first offload tick is counted at once. */
  function Offload(e: Elevator, floor: int): (r: (seq<Group>, Elevator))
    requires 0 <= floor < |e.passByFloor|
    requires e.cfg.passPerTick > 0
    ensures r.0 == e.passByFloor[floor]
    ensures r.1.passByFloor == e.passByFloor[floor := []]
    ensures r.1.passengers == e.passengers - LoadOf(r.0)
    ensures r.1.timeNeeded == CeilDiv(LoadOf(r.0), e.cfg.passPerTick)
    ensures r.1.timeInState == e.timeInState + 1
    ensures r.1.isOffloadingDone <==> r.1.timeInState == r.1.timeNeeded
    ensures r.1.isOffloading == !r.1.isOffloadingDone
    ensures SamePosition(e, r.1) && r.1.canBoard == e.canBoard
  {
    var batch := e.passByFloor[floor];
    var e1 := e.(isOffloadingDone := false, isOffloading := true,
                 passByFloor := e.passByFloor[floor := []],
                 passengers := e.passengers - LoadOf(batch),
                 timeNeeded := CeilDiv(LoadOf(batch), e.cfg.passPerTick));
    (batch, KeepOffloading(e1))
  }

  /** One offload tick: done exactly when the state clock reaches the time needed. */
  function KeepOffloading(e: Elevator): (r: Elevator)
    ensures r.timeInState == e.timeInState + 1
    ensures r.isOffloadingDone <==> r.timeInState == e.timeNeeded
    ensures r.isOffloading == !r.isOffloadingDone
    ensures r == e.(timeInState := r.timeInState, isOffloadingDone := r.isOffloadingDone, isOffloading := r.isOffloading)
  {
    var t := e.timeInState + 1;
    if t == e.timeNeeded then e.(timeInState := t, isOffloadingDone := true, isOffloading := false)
    else e.(timeInState := t, isOffloadingDone := false, isOffloading := true)
  }

  /** Offloading keeps the occupant count equal to the manifest's total and
      moves exactly the batch's ids out of the manifest. */
  lemma OffloadKeepsOccupancy(e: Elevator, floor: int)
    requires 0 <= floor < |e.passByFloor| && e.cfg.passPerTick > 0
    requires e.passengers == Load(e.passByFloor)
    ensures var r := Offload(e, floor);
      && r.1.passengers == Load(r.1.passByFloor)
      && ManifestIds(r.1.passByFloor) + IdsOf(r.0) == ManifestIds(e.passByFloor)
  {
    var m := e.passByFloor;
    LoadUpdate(m, floor, []);
    ManifestIdsUpdate(m, floor, []);
  }

  function KeepOffloadingN(e: Elevator, k: nat): (r: Elevator)
    ensures r.timeNeeded == e.timeNeeded
    decreases k
  {
    if k == 0 then e else KeepOffloadingN(KeepOffloading(e), k - 1)
  }

  /** Offload timing: entering the offload state with a fresh clock and a
      batch of N > 0 people, offloading reports done on exactly the
      ceil(N / passPerTick)-th tick, counting the tick of `Offload` itself. */
  lemma {:induction false} OffloadFinishesOnTime(e: Elevator, floor: int, k: nat)
    requires 0 <= floor < |e.passByFloor| && e.cfg.passPerTick > 0
    requires e.timeInState == 0 && LoadOf(e.passByFloor[floor]) > 0
    requires 1 <= k <= CeilDiv(LoadOf(e.passByFloor[floor]), e.cfg.passPerTick)
    ensures var r := KeepOffloadingN(Offload(e, floor).1, k - 1);
      r.isOffloadingDone <==> k == CeilDiv(LoadOf(e.passByFloor[floor]), e.cfg.passPerTick)
  {
    var r1 := Offload(e, floor).1;
    var i := 1;
    var c := r1;
    while i < k
      invariant 1 <= i <= k
      invariant c.timeInState == i && c.timeNeeded == r1.timeNeeded
      invariant c.isOffloadingDone <==> i == r1.timeNeeded
      invariant KeepOffloadingN(r1, k - 1) == KeepOffloadingN(c, k - i)
      decreases k - i
    {
      c := KeepOffloading(c);
      i := i + 1;
    }
  }

  function ChangeDirection(e: Elevator): (r: Elevator)
    ensures r.direction == -e.direction
    ensures r == e.(direction := r.direction)
  {
    e.(direction := e.direction * -1)
  }

  /** True when somebody aboard is bound for `floor`. */
  function PassengersToOffload(e: Elevator, floor: int): (r: bool)
    requires 0 <= floor < |e.passByFloor|
    ensures r <==> e.passByFloor[floor] != []
  {
    |e.passByFloor[floor]| != 0
  }

  function IsFull(e: Elevator): (r: bool)
    ensures r <==> e.passengers >= e.cfg.capacity
  {
    e.passengers >= e.cfg.capacity
  }

  function IsEmpty(e: Elevator): (r: bool)
    ensures r <==> e.passengers == 0
  {
    e.passengers == 0
  }

  /** For a well-formed car, "empty" by count and "nobody filed anywhere" agree. */
  lemma EmptyIffNoManifest(e: Elevator, n: int)
    requires ElevatorOk(e, n)
    ensures IsEmpty(e) <==> forall f :: 0 <= f < n ==> e.passByFloor[f] == []
    ensures e.passengers >= 0
  {
    LoadZeroIffEmpty(e.passByFloor);
  }
}
