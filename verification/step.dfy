/** One tick of the building: every car, in order, runs its state handler
    against the building as the previous cars left it, and records its next
    state. Also the facts every tick preserves. */
module Stepping {
  import opened Wrappers
  import opened Passengers
  import opened Floors
  import opened Elevators
  import opened Calls
  import opened Buildings
  import opened States

  /** The ids a single car's tick can move between lines, car and ledgers. */
  function TickIds(floors: seq<Floor>, lift: Elevator, passSuccess: seq<Group>, gaveUp: seq<Group>): multiset<nat> {
    FloorIds(floors) + ManifestIds(lift.passByFloor) + IdsOf(passSuccess) + IdsOf(gaveUp)
  }

  // ------------------------------------------------------- boarding loop

  /** One boarding pass keeps the car well-formed: a boarded group is filed
      under its destination, and the count stays equal to the manifest and
      within capacity. */
  lemma BoardStepKeepsCar(s: Boarding, time: int, n: int)
    requires LoopOk(s) && |s.floors| == n && ElevatorOk(s.lift, n)
    ensures ElevatorOk(BoardStep(s, time).1.lift, n)
  {
    var r := BoardStep(s, time).1;
    if NextInLine(s).Some? {
      var p := Line(s)[0];
      RemoveHeadFacts(s);
      if time > p.time + p.waitTime {
        assert r.lift == s.lift;
      } else {
        var (ok, e1) := Board(s.lift, p.(boardTime := time));
        BoardKeepsCar(s.lift, p.(boardTime := time), n);
        ForcedOpenKeepsOk(e1, n);
        assert r.lift == if ok then e1.(forcedOpen := false) else e1;
      }
    }
  }

  /** One boarding pass moves ids only between the line, the car and the
      give-up ledger. */
  lemma BoardStepIds(s: Boarding, time: int)
    requires LoopOk(s) && ElevatorOk(s.lift, |s.floors|)
    ensures var r := BoardStep(s, time).1;
      TickIds(r.floors, r.lift, [], r.gaveUp) == TickIds(s.floors, s.lift, [], s.gaveUp)
  {
    var r := BoardStep(s, time).1;
    if NextInLine(s).Some? {
      var p := Line(s)[0];
      RemoveHeadFacts(s);
      var fl, fl', m, g := FloorIds(s.floors), FloorIds(RemoveHead(s.floors, p)), ManifestIds(s.lift.passByFloor), IdsOf(s.gaveUp);
      var x := multiset{p.id};
      assert fl == fl' + x;
      if time > p.time + p.waitTime {
        IdsOfConcat(s.gaveUp, [p]);
        assert IdsOf([p]) == x + IdsOf([]);
        assert r.floors == RemoveHead(s.floors, p) && r.lift == s.lift;
        MoveOne(fl, fl', g, IdsOf(r.gaveUp), m, x);
        assert fl' + m + IdsOf([]) + IdsOf(r.gaveUp) == fl + m + IdsOf([]) + g;
      } else {
        var p' := p.(boardTime := time);
        BoardKeepsOccupancy(s.lift, p');
        if Board(s.lift, p').0 {
          assert r.floors == RemoveHead(s.floors, p) && r.gaveUp == s.gaveUp;
          MoveOne(fl, fl', m, ManifestIds(r.lift.passByFloor), g, x);
          assert fl' + ManifestIds(r.lift.passByFloor) + IdsOf([]) + g == fl + m + IdsOf([]) + g;
        }
      }
    }
  }

  /** Moving one element from one multiset to another keeps the total. */
  lemma MoveOne<T>(a: multiset<T>, a': multiset<T>, b: multiset<T>, b': multiset<T>, c: multiset<T>, x: multiset<T>)
    requires a == a' + x && b' == b + x
    ensures a' + b' == a + b
    ensures a' + c + b' == a + c + b
    ensures a' + b' + c == a + b + c
  {
  }

  lemma {:induction false} BoardActionKeepsCar(s: Boarding, time: int, n: int)
    requires LoopOk(s) && |s.floors| == n && ElevatorOk(s.lift, n)
    ensures ElevatorOk(BoardAction(s, time).lift, n)
    decreases |Line(s)|
  {
    var (more, s') := BoardStep(s, time);
    BoardStepKeepsCar(s, time, n);
    if more {
      BoardActionKeepsCar(s', time, n);
    }
  }

  /** The boarding loop conserves ids. */
  lemma {:induction false} BoardActionIds(s: Boarding, time: int)
    requires LoopOk(s) && ElevatorOk(s.lift, |s.floors|)
    ensures var r := BoardAction(s, time);
      TickIds(r.floors, r.lift, [], r.gaveUp) == TickIds(s.floors, s.lift, [], s.gaveUp)
    decreases |Line(s)|
  {
    var (more, s') := BoardStep(s, time);
    BoardStepIds(s, time);
    BoardStepKeepsCar(s, time, |s.floors|);
    if more {
      BoardActionIds(s', time);
    }
  }

  /** `r` extends `g` by entries whose patience ran out before `time`. */
  predicate LateTail(r: seq<Group>, g: seq<Group>, time: int) {
    && |g| <= |r| && r[..|g|] == g
    && forall j :: |g| <= j < |r| ==> time > r[j].time + r[j].waitTime
  }

  lemma LateTailTrans(r: seq<Group>, m: seq<Group>, g: seq<Group>, time: int)
    requires LateTail(r, m, time) && LateTail(m, g, time)
    ensures LateTail(r, g, time)
  {
    assert r[..|g|] == r[..|m|][..|g|];
    forall j | |g| <= j < |m| ensures r[j] == m[j] {
      assert r[..|m|][j] == m[j];
    }
  }

  /** The boarding loop only appends to the give-up ledger, and only groups
      whose patience ran out. */
  lemma {:induction false} BoardActionLedger(s: Boarding, time: int)
    requires LoopOk(s)
    ensures LateTail(BoardAction(s, time).gaveUp, s.gaveUp, time)
    decreases |Line(s)|
  {
    var (more, s') := BoardStep(s, time);
    assert LateTail(s'.gaveUp, s.gaveUp, time) by {
      if s'.gaveUp != s.gaveUp {
        assert s'.gaveUp == s.gaveUp + [Line(s)[0]];
        assert s'.gaveUp[..|s.gaveUp|] == s.gaveUp;
      } else {
        assert s.gaveUp[..|s.gaveUp|] == s.gaveUp;
      }
    }
    if more {
      BoardActionLedger(s', time);
      LateTailTrans(BoardAction(s', time).gaveUp, s'.gaveUp, s.gaveUp, time);
    }
  }

  /** The boarding loop stops only when the car is full, may not board, or
      nobody is left in the line; it keeps the car in place and facing the
      same way; boarding anybody clears the forced-open mark. */
  lemma {:induction false} BoardActionStops(s: Boarding, time: int)
    requires LoopOk(s)
    ensures var r := BoardAction(s, time);
      && (IsFull(r.lift) || !r.lift.canBoard || Line(r) == [])
      && (SameButLoad(s.lift, r.lift) || SameButLoad(s.lift, r.lift.(forcedOpen := s.lift.forcedOpen)))
      && (r.boarded ==> !r.lift.forcedOpen)
      && (!r.boarded ==> !s.boarded && r.lift.forcedOpen == s.lift.forcedOpen)
    decreases |Line(s)|
  {
    var (more, s') := BoardStep(s, time);
    if more {
      BoardActionStops(s', time);
    }
  }

  /** Both of the above. */
  lemma BoardActionFacts(s: Boarding, time: int)
    requires LoopOk(s)
    ensures var r := BoardAction(s, time);
      && |s.gaveUp| <= |r.gaveUp| && r.gaveUp[..|s.gaveUp|] == s.gaveUp
      && (forall j :: |s.gaveUp| <= j < |r.gaveUp| ==> time > r.gaveUp[j].time + r.gaveUp[j].waitTime)
      && (IsFull(r.lift) || !r.lift.canBoard || Line(r) == [])
      && (SameButLoad(s.lift, r.lift) || SameButLoad(s.lift, r.lift.(forcedOpen := s.lift.forcedOpen)))
      && (r.boarded ==> !r.lift.forcedOpen)
      && (!r.boarded ==> !s.boarded && r.lift.forcedOpen == s.lift.forcedOpen)
  {
    BoardActionLedger(s, time);
    BoardActionStops(s, time);
    assert LateTail(BoardAction(s, time).gaveUp, s.gaveUp, time);
  }

  // ------------------------------------------------------ car invariant

  /** A car that moved to `s` is well-formed once the state is recorded. */
  ghost predicate Settled(l: Elevator, s: State, n: int) {
    ElevatorOk(UpdateCurrState(l, s), n)
  }

  /** From STOP a car either stays, opens here, or heads for the floor of a
      group at the head of a line, which lies inside the building and differs
      from the car's floor, with the direction pointing at it. */
  lemma StopKeepsCar(calls: CallCache, floors: seq<Floor>, e: Elevator, n: int)
    requires FloorsOk(floors, n) && ElevatorOk(e, n)
    requires |calls.upCalls| == n && |calls.downCalls| == n
    ensures var r := CurrStateStop(calls, floors, e);
      r.Ok? ==> Settled(r.value.0, r.value.1, n)
  {
    var r := CurrStateStop(calls, floors, e);
    if r.Ok? {
      if r.value.1 == MVTOFLR {
        PickIsHead(calls, floors, e.currFloor);
        var p := PrioritizePassengerCalls(calls, floors, e.currFloor).value;
        HeadInBuilding(floors, p, n);
      } else {
        SameLoadSettled(e, r.value.0, r.value.1, n);
      }
    }
  }

  /** The head of any line is a group of this building. */
  lemma HeadInBuilding(floors: seq<Floor>, p: Group, n: int)
    requires FloorsOk(floors, n) && IsHead(floors, p)
    ensures 0 <= p.onFloor < n
  {
    var i :| 0 <= i < |floors| &&
      ((Queue(floors[i], UP) != [] && Queue(floors[i], UP)[0] == p) ||
       (Queue(floors[i], DOWN) != [] && Queue(floors[i], DOWN)[0] == p));
    if Queue(floors[i], UP) != [] && Queue(floors[i], UP)[0] == p {
      FloorOkMembers(floors[i], i, n, UP);
      assert p in Queue(floors[i], UP);
    } else {
      FloorOkMembers(floors[i], i, n, DOWN);
      assert p in Queue(floors[i], DOWN);
    }
  }

  /** Travelling towards a target inside the building never leaves the
      building, and the direction keeps pointing at the target until arrival. */
  lemma MvToFlrKeepsCar(e: Elevator, n: int)
    requires ElevatorOk(e, n) && e.currState == MVTOFLR
    ensures var r := CurrStateMvToFlr(e);
      Settled(r.0, r.1, n)
  {
  }

  lemma OpenDrKeepsCar(e: Elevator, n: int)
    requires ElevatorOk(e, n)
    ensures var r := CurrStateOpenDr(e);
      Settled(r.0, r.1, n)
  {
  }

  /** Offloading empties one destination list and lowers the count by the
      batch's size, so the car stays well-formed. */
  lemma OffLdKeepsCar(floors: seq<Floor>, passSuccess: seq<Group>, e: Elevator, time: int, n: int)
    requires |floors| == n && ElevatorOk(e, n)
    ensures var r := CurrStateOffLd(floors, passSuccess, e, time);
      Settled(r.0, r.2, n)
  {
    var r := CurrStateOffLd(floors, passSuccess, e, time);
    var e1 := OffLdAction(passSuccess, e, time).0;
    if !e.isOffloading {
      OffloadKeepsOccupancy(e, e.currFloor);
      LoadOfPositive(e.passByFloor[e.currFloor]);
      OffloadKeepsManifest(e.passByFloor, e.currFloor, n);
    }
    assert ElevatorOk(e1, n);
    SameLoadSettled(e1, r.0, r.2, n);
  }

  /** Emptying one destination list keeps the manifest well-formed. */
  lemma OffloadKeepsManifest(m: seq<seq<Group>>, f: int, n: int)
    requires ManifestOk(m, n) && 0 <= f < n
    ensures ManifestOk(m[f := []], n)
  {
    var m' := m[f := []];
    forall j, g | 0 <= j < n && g in m'[j]
      ensures ValidGroup(g, n) && g.destFloor == j
    {
      assert g in m[j];
    }
  }

  /** Boarding only adds valid groups under their destinations and stays
      within capacity, so the car stays well-formed. */
  lemma BoardKeepsState(floors: seq<Floor>, gaveUp: seq<Group>, e: Elevator, time: int, n: int)
    requires FloorsOk(floors, n) && ElevatorOk(e, n)
    ensures var r := CurrStateBoard(floors, gaveUp, e, time);
      && FloorsOk(r.0.floors, n)
      && Settled(r.0.lift, r.1, n)
  {
    BoardActionKeepsCar(Boarding(e, floors, gaveUp, false), time, n);
  }

  lemma CloseDrKeepsCar(calls: CallCache, floors: seq<Floor>, e: Elevator, time: int, n: int)
    requires |floors| == n && ElevatorOk(e, n)
    ensures var r := CurrStateCloseDr(calls, floors, e, time);
      Settled(r.0, r.1, n)
  {
    var r := CurrStateCloseDr(calls, floors, e, time);
    CloseDrKeepsLoad(calls, floors, e, time);
    SameLoadSettled(e, r.0, r.1, n);
  }

  /** The door logic never changes who is aboard or where the car is. */
  lemma CloseDrKeepsLoad(calls: CallCache, floors: seq<Floor>, e: Elevator, time: int)
    requires 0 <= e.currFloor < |floors|
    ensures SameLoad(e, CurrStateCloseDr(calls, floors, e, time).0)
  {
    var e1 := ChangeDoorState(e, CLOSED);
    DoorKeepsLoad(e, CLOSED);
    if !ImpoliteReopen(floors, e1, time) && e1.doorState == CLOSED {
      ClosedKeepsLoad(calls, floors, e1);
    }
  }

  lemma DoorKeepsLoad(e: Elevator, target: int)
    ensures SameLoad(e, ChangeDoorState(e, target))
  {
  }

  lemma ClosedKeepsLoad(calls: CallCache, floors: seq<Floor>, e: Elevator)
    requires 0 <= e.currFloor < |floors|
    ensures SameLoad(e, CloseDrClosed(calls, floors, e).0)
  {
  }

  /** A car that kept its configuration, floor and load, and does not head
      for a target, stays well-formed. */
  lemma SameLoadSettled(e: Elevator, l: Elevator, s: State, n: int)
    requires ElevatorOk(e, n) && s != MVTOFLR
    requires SameLoad(e, l)
    ensures Settled(l, s, n)
  {
  }

  /** A successful one-floor move ends inside the building. */
  lemma Mv1FlrKeepsCar(calls: CallCache, floors: seq<Floor>, e: Elevator, n: int)
    requires |floors| == n && ElevatorOk(e, n) && e.currState == MV1FLR
    ensures var r := CurrStateMv1Flr(calls, floors, e);
      r.Ok? ==> Settled(r.value.0, r.value.1, n)
  {
    var r := CurrStateMv1Flr(calls, floors, e);
    if r.Ok? {
      MovedSettled(e, r.value.0, r.value.1, n);
    }
  }

  /** A car that kept its configuration and load, and whose floor is inside
      the building, is well-formed in any state but travel to a target. */
  lemma MovedSettled(e: Elevator, l: Elevator, s: State, n: int)
    requires ElevatorOk(e, n) && s != MVTOFLR && 0 <= l.currFloor < n
    requires l.cfg == e.cfg && l.passByFloor == e.passByFloor && l.passengers == e.passengers
    ensures Settled(l, s, n)
  {
  }

  // ------------------------------------------------------------- dispatch

  /** Whatever state a well-formed car is in, a successful tick leaves the
      floors and the car, with its next state recorded, well-formed. */
  lemma DispatchKeepsOk(b: Building, e: Elevator, time: int)
    requires WorldOk(b) && ElevatorOk(e, b.numFloors)
    ensures var r := Dispatch(b, e, time);
      r.Ok? ==> FloorsOk(r.value.floors, b.numFloors) && Settled(r.value.lift, r.value.next, b.numFloors)
  {
    var n := b.numFloors;
    match e.currState
    case STOP => StopKeepsCar(b.calls, b.floors, e, n);
    case MVTOFLR => MvToFlrKeepsCar(e, n);
    case OPENDR => OpenDrKeepsCar(e, n);
    case OFFLD => OffLdKeepsCar(b.floors, b.passSuccess, e, time, n);
    case BOARD => BoardKeepsState(b.floors, b.gaveUp, e, time, n);
    case CLOSEDR => CloseDrKeepsCar(b.calls, b.floors, e, time, n);
    case MV1FLR => Mv1FlrKeepsCar(b.calls, b.floors, e, n);
  }

  /** A tick moves ids only between the lines, the car and the two ledgers:
      delivered groups leave the car for the delivered ledger, boarding
      groups leave their line for the car, impatient ones for the give-up
      ledger. */
  lemma DispatchIds(b: Building, e: Elevator, time: int)
    requires WorldOk(b) && ElevatorOk(e, b.numFloors)
    ensures var r := Dispatch(b, e, time);
      r.Ok? ==> (TickIds(r.value.floors, r.value.lift, r.value.passSuccess, r.value.gaveUp)
                 == TickIds(b.floors, e, b.passSuccess, b.gaveUp))
  {
    match e.currState
    case OFFLD => OffLdIds(b.floors, b.passSuccess, b.gaveUp, e, time);
    case BOARD => BoardIds(b.floors, b.passSuccess, b.gaveUp, e, time);
    case STOP => StopIds(b, e, time);
    case _ => QuietIds(b, e, time);
  }

  /** Moving and the door move nobody. */
  lemma QuietIds(b: Building, e: Elevator, time: int)
    requires WorldOk(b) && ElevatorOk(e, b.numFloors) && e.currState in {MVTOFLR, OPENDR, CLOSEDR, MV1FLR}
    ensures var r := Dispatch(b, e, time);
      r.Ok? ==> (TickIds(r.value.floors, r.value.lift, r.value.passSuccess, r.value.gaveUp)
                 == TickIds(b.floors, e, b.passSuccess, b.gaveUp))
  {
    var r := Dispatch(b, e, time);
    if r.Ok? {
      if e.currState == CLOSEDR {
        CloseDrKeepsLoad(b.calls, b.floors, e, time);
      }
      assert r.value.floors == b.floors && r.value.passSuccess == b.passSuccess && r.value.gaveUp == b.gaveUp;
      assert r.value.lift.passByFloor == e.passByFloor;
    }
  }

  /** Leaving STOP moves nobody. */
  lemma StopIds(b: Building, e: Elevator, time: int)
    requires WorldOk(b) && ElevatorOk(e, b.numFloors) && e.currState == STOP
    ensures var r := Dispatch(b, e, time);
      r.Ok? ==> (TickIds(r.value.floors, r.value.lift, r.value.passSuccess, r.value.gaveUp)
                 == TickIds(b.floors, e, b.passSuccess, b.gaveUp))
  {
    var r := CurrStateStop(b.calls, b.floors, e);
    if r.Ok? {
      assert Dispatch(b, e, time) == Ok(Tick(r.value.0, b.floors, b.passSuccess, b.gaveUp, r.value.1));
    }
  }

  /** Offloading moves the batch's ids from the car to the delivered ledger. */
  lemma OffLdIds(floors: seq<Floor>, passSuccess: seq<Group>, gaveUp: seq<Group>, e: Elevator, time: int)
    requires |floors| == |e.passByFloor| && ElevatorOk(e, |floors|)
    ensures var r := CurrStateOffLd(floors, passSuccess, e, time);
      TickIds(floors, r.0, r.1, gaveUp) == TickIds(floors, e, passSuccess, gaveUp)
  {
    var r := CurrStateOffLd(floors, passSuccess, e, time);
    var e1 := OffLdAction(passSuccess, e, time).0;
    assert r.0.passByFloor == e1.passByFloor;
    if !e.isOffloading {
      var fl, m, ps, g := FloorIds(floors), ManifestIds(e.passByFloor), IdsOf(passSuccess), IdsOf(gaveUp);
      var batch := e.passByFloor[e.currFloor];
      OffloadKeepsOccupancy(e, e.currFloor);
      IdsOfConcat(passSuccess, StampArrived(batch, time));
      StampArrivedIds(batch, time);
      MoveOne(m, ManifestIds(e1.passByFloor), ps, IdsOf(r.1), fl, IdsOf(batch));
      assert fl + ManifestIds(e1.passByFloor) + IdsOf(r.1) + g == fl + m + ps + g;
    }
  }

  /** Boarding moves ids from the line to the car or the give-up ledger. */
  lemma BoardIds(floors: seq<Floor>, passSuccess: seq<Group>, gaveUp: seq<Group>, e: Elevator, time: int)
    requires FloorsOk(floors, |floors|) && ElevatorOk(e, |floors|)
    ensures var r := CurrStateBoard(floors, gaveUp, e, time).0;
      TickIds(r.floors, r.lift, passSuccess, r.gaveUp) == TickIds(floors, e, passSuccess, gaveUp)
  {
    var r := CurrStateBoard(floors, gaveUp, e, time).0;
    var s0 := Boarding(e, floors, gaveUp, false);
    BoardActionIds(s0, time);
    var o := BoardAction(s0, time);
    assert r.lift.passByFloor == o.lift.passByFloor;
    var fl, m, g := FloorIds(floors), ManifestIds(e.passByFloor), IdsOf(gaveUp);
    var fl', m', g' := FloorIds(o.floors), ManifestIds(o.lift.passByFloor), IdsOf(o.gaveUp);
    assert fl' + m' + IdsOf([]) + g' == fl + m + IdsOf([]) + g;
    AddSame(fl' + m', fl + m, g', g, IdsOf(passSuccess));
  }

  /** Adding the same multiset to both sides of a balanced sum keeps it balanced. */
  lemma AddSame<T>(a: multiset<T>, a': multiset<T>, b: multiset<T>, b': multiset<T>, c: multiset<T>)
    requires a + multiset{} + b == a' + multiset{} + b'
    ensures a + c + b == a' + c + b'
  {
    forall t ensures (a + c + b)[t] == (a' + c + b')[t] {
      assert (a + multiset{} + b)[t] == (a' + multiset{} + b')[t];
    }
  }

  /** The ledgers only grow at the end: a tick appends to the delivered
      ledger only groups whose destination is the car's floor, stamped with
      this tick's time, and to the give-up ledger only groups whose patience
      ran out. */
  lemma DispatchLedgers(b: Building, e: Elevator, time: int)
    requires WorldOk(b) && ElevatorOk(e, b.numFloors)
    ensures var r := Dispatch(b, e, time);
      r.Ok? ==>
        && |b.passSuccess| <= |r.value.passSuccess| && r.value.passSuccess[..|b.passSuccess|] == b.passSuccess
        && (forall j :: |b.passSuccess| <= j < |r.value.passSuccess| ==>
              r.value.passSuccess[j].destFloor == e.currFloor && r.value.passSuccess[j].timeArrived == time)
        && |b.gaveUp| <= |r.value.gaveUp| && r.value.gaveUp[..|b.gaveUp|] == b.gaveUp
        && (forall j :: |b.gaveUp| <= j < |r.value.gaveUp| ==>
              time > r.value.gaveUp[j].time + r.value.gaveUp[j].waitTime)
  {
    var r := Dispatch(b, e, time);
    if r.Ok? {
      var t := r.value;
      assert b.passSuccess[..|b.passSuccess|] == b.passSuccess;
      assert b.gaveUp[..|b.gaveUp|] == b.gaveUp;
      match e.currState
      case OFFLD =>
        OffLdLedger(b.passSuccess, e, time);
        assert t.passSuccess == OffLdAction(b.passSuccess, e, time).1 && t.gaveUp == b.gaveUp;
      case BOARD =>
        var s0 := Boarding(e, b.floors, b.gaveUp, false);
        BoardActionFacts(s0, time);
        assert t.passSuccess == b.passSuccess;
      case _ =>
        assert t.passSuccess == b.passSuccess && t.gaveUp == b.gaveUp;
    }
  }

  /** Offloading appends the groups bound for this floor, stamped with the
      tick's time, to the delivered ledger. */
  lemma OffLdLedger(passSuccess: seq<Group>, e: Elevator, time: int)
    requires 0 <= e.currFloor < |e.passByFloor| && e.cfg.passPerTick > 0
    requires ManifestOk(e.passByFloor, |e.passByFloor|)
    ensures var ps := OffLdAction(passSuccess, e, time).1;
      && |passSuccess| <= |ps| && ps[..|passSuccess|] == passSuccess
      && forall j :: |passSuccess| <= j < |ps| ==> ps[j].destFloor == e.currFloor && ps[j].timeArrived == time
  {
    var ps := OffLdAction(passSuccess, e, time).1;
    var batch := e.passByFloor[e.currFloor];
    if !e.isOffloading {
      assert ps == passSuccess + StampArrived(batch, time);
      forall j | |passSuccess| <= j < |ps|
        ensures ps[j].destFloor == e.currFloor && ps[j].timeArrived == time
      {
        var k := j - |passSuccess|;
        assert ps[j] == batch[k].(timeArrived := time);
        assert batch[k] in e.passByFloor[e.currFloor];
      }
    } else {
      assert ps[..|passSuccess|] == passSuccess;
    }
  }

  /** With a cache that matches the lines, STOP never dereferences a missing
      pick: the cache reports a call exactly when somebody waits, and then
      the pick exists. */
  lemma FreshStopNeverNull(calls: CallCache, floors: seq<Floor>, e: Elevator)
    requires 0 <= e.currFloor < |floors| && Fresh(calls, floors)
    ensures CurrStateStop(calls, floors, e).Ok?
  {
    CallPendingIffLive(calls, floors);
    PrioritizeFresh(calls, floors, e.currFloor);
  }

  // ------------------------------------------------------ all cars, one tick

  /** `s` extends `p`. */
  predicate Extends(s: seq<Group>, p: seq<Group>) {
    |p| <= |s| && s[..|p|] == p
  }

  /** The ledger entries a tick appended: delivered groups stamped with the
      tick's time, give-ups whose patience ran out. */
  predicate NewEntriesOk(b: Building, r: Building, time: int) {
    && Extends(r.passSuccess, b.passSuccess) && Extends(r.gaveUp, b.gaveUp)
    && (forall j :: |b.passSuccess| <= j < |r.passSuccess| ==> r.passSuccess[j].timeArrived == time)
    && (forall j :: |b.gaveUp| <= j < |r.gaveUp| ==> time > r.gaveUp[j].time + r.gaveUp[j].waitTime)
  }

  /** The building parts no car touches. */
  predicate SameOutside(b: Building, r: Building) {
    && r.numFloors == b.numFloors && r.passQ == b.passQ && r.calls == b.calls && r.ids == b.ids
    && |r.elevators| == |b.elevators|
  }

  /** What every successful step of the cars keeps: the invariant, every
      id, the parts no car touches, and the shape of the ledgers. */
  ghost predicate StepOk(b: Building, r: Building, time: int) {
    && BuildingOk(r) && AllIds(r) == AllIds(b)
    && SameOutside(b, r) && NewEntriesOk(b, r, time)
  }

  /** Runs car `k`'s handler and records its next state; a failure of the
      handler is the failure of the tick. */
  function UpdateOne(b: Building, k: nat, time: int): (r: Result<Building, Failure>)
    requires BuildingOk(b) && k < |b.elevators|
    ensures r.Err? ==> b.elevators[k].currState in {STOP, MV1FLR}
    ensures Fresh(b.calls, b.floors) ==> r != Err(NullPassenger)
  {
    var e := b.elevators[k];
    assert Fresh(b.calls, b.floors) ==> CurrStateStop(b.calls, b.floors, e).Ok? by {
      if Fresh(b.calls, b.floors) { FreshStopNeverNull(b.calls, b.floors, e); }
    }
    match Dispatch(b, e, time)
    case Err(x) => Err(x)
    case Ok(t) =>
      Ok(b.(elevators := b.elevators[k := UpdateCurrState(t.lift, t.next)],
            floors := t.floors, passSuccess := t.passSuccess, gaveUp := t.gaveUp))
  }

  /** A successful car step keeps everything `StepOk` names and touches no
      other car. */
  lemma UpdateOneOk(b: Building, k: nat, time: int)
    requires BuildingOk(b) && k < |b.elevators|
    ensures var r := UpdateOne(b, k, time);
      r.Ok? ==> && StepOk(b, r.value, time)
                && forall j :: 0 <= j < |b.elevators| && j != k ==> r.value.elevators[j] == b.elevators[j]
  {
    var e := b.elevators[k];
    var d := Dispatch(b, e, time);
    if d.Ok? {
      DispatchKeepsOk(b, e, time);
      DispatchIds(b, e, time);
      DispatchLedgers(b, e, time);
      TickAssembles(b, k, time, d.value);
    }
  }

  /** Writing back a handler's tick that keeps the car settled, the ids and
      the shape of the ledgers keeps everything `StepOk` names. */
  lemma TickAssembles(b: Building, k: nat, time: int, t: Tick)
    requires BuildingOk(b) && k < |b.elevators|
    requires |t.floors| == |b.floors| && FloorsOk(t.floors, b.numFloors) && Settled(t.lift, t.next, b.numFloors)
    requires TickIds(t.floors, t.lift, t.passSuccess, t.gaveUp) == TickIds(b.floors, b.elevators[k], b.passSuccess, b.gaveUp)
    requires Extends(t.passSuccess, b.passSuccess) && Extends(t.gaveUp, b.gaveUp)
    requires forall j :: |b.passSuccess| <= j < |t.passSuccess| ==> t.passSuccess[j].timeArrived == time
    requires forall j :: |b.gaveUp| <= j < |t.gaveUp| ==> time > t.gaveUp[j].time + t.gaveUp[j].waitTime
    ensures var r := b.(elevators := b.elevators[k := UpdateCurrState(t.lift, t.next)],
                        floors := t.floors, passSuccess := t.passSuccess, gaveUp := t.gaveUp);
      && StepOk(b, r, time)
      && forall j :: 0 <= j < |b.elevators| && j != k ==> r.elevators[j] == b.elevators[j]
  {
    var e := b.elevators[k];
    var l := UpdateCurrState(t.lift, t.next);
    var r := b.(elevators := b.elevators[k := l], floors := t.floors, passSuccess := t.passSuccess, gaveUp := t.gaveUp);
    CarIdsUpdate(b.elevators, k, l);
    Recombine(IdsOf(b.passQ), FloorIds(b.floors), FloorIds(t.floors), CarIds(b.elevators), CarIds(r.elevators),
              ManifestIds(e.passByFloor), ManifestIds(l.passByFloor), IdsOf(b.passSuccess), IdsOf(t.passSuccess),
              IdsOf(b.gaveUp), IdsOf(t.gaveUp));
    assert BuildingOk(r);
  }

  /** The part of `UpdateOneOk` the loop over the cars needs. */
  lemma UpdateOneFrame(b: Building, k: nat, time: int)
    requires BuildingOk(b) && k < |b.elevators|
    ensures var r := UpdateOne(b, k, time);
      r.Ok? ==> && BuildingOk(r.value) && |r.value.elevators| == |b.elevators|
                && forall j :: 0 <= j < |b.elevators| && j != k ==> r.value.elevators[j] == b.elevators[j]
  {
    UpdateOneOk(b, k, time);
  }

  /** Moving ids between the floors, one car and the ledgers keeps the total. */
  lemma Recombine<T>(q: multiset<T>, fl: multiset<T>, fl': multiset<T>, c: multiset<T>, c': multiset<T>,
                     m: multiset<T>, m': multiset<T>, ps: multiset<T>, ps': multiset<T>, g: multiset<T>, g': multiset<T>)
    requires c' + m == c + m'
    requires fl' + m' + ps' + g' == fl + m + ps + g
    ensures q + fl' + c' + ps' + g' == q + fl + c + ps + g
  {
    forall t ensures (q + fl' + c' + ps' + g')[t] == (q + fl + c + ps + g)[t] {
      assert (c' + m)[t] == (c + m')[t];
      assert (fl' + m' + ps' + g')[t] == (fl + m + ps + g)[t];
    }
  }

  /** Runs cars `k`, `k + 1`, ... in order, each against the building as the
      previous cars left it; the first failure ends the tick. */
  function UpdateElevators(b: Building, time: int, k: nat): (r: Result<Building, Failure>)
    requires BuildingOk(b) && k <= |b.elevators|
    ensures Fresh(b.calls, b.floors) && r == Err(NullPassenger) ==> k + 1 < |b.elevators|
    ensures r.Ok? ==> |r.value.elevators| == |b.elevators|
    ensures r.Ok? ==> forall j :: 0 <= j < k ==> r.value.elevators[j] == b.elevators[j]
    decreases |b.elevators| - k
  {
    if k == |b.elevators| then Ok(b)
    else
      match UpdateOne(b, k, time)
      case Err(x) => Err(x)
      case Ok(b') =>
        UpdateOneFrame(b, k, time);
        var r := UpdateElevators(b', time, k + 1);
        if r.Ok? then PrefixKept(r.value.elevators, b'.elevators, b.elevators, k); r else r
  }

  /** Agreeing below `k + 1`, then everywhere but `k`, agrees below `k`. */
  lemma PrefixKept<T>(x: seq<T>, y: seq<T>, z: seq<T>, k: nat)
    requires |x| == |y| == |z| && k < |z|
    requires forall j :: 0 <= j < k + 1 ==> x[j] == y[j]
    requires forall j :: 0 <= j < |z| && j != k ==> y[j] == z[j]
    ensures forall j :: 0 <= j < k ==> x[j] == z[j]
  {
  }

  /** The cars' step keeps everything `StepOk` names. */
  lemma {:induction false} UpdateElevatorsOk(b: Building, time: int, k: nat)
    requires BuildingOk(b) && k <= |b.elevators|
    ensures var r := UpdateElevators(b, time, k);
      r.Ok? ==> StepOk(b, r.value, time)
    decreases |b.elevators| - k
  {
    if k == |b.elevators| {
      StepOkSelf(b, time);
    } else {
      var u := UpdateOne(b, k, time);
      if u.Ok? {
        var b' := u.value;
        UpdateOneOk(b, k, time);
        UpdateElevatorsOk(b', time, k + 1);
        var r := UpdateElevators(b', time, k + 1);
        assert UpdateElevators(b, time, k) == r;
        if r.Ok? {
          StepOkTrans(b, b', r.value, time);
        }
      }
    }
  }

  /** Doing nothing keeps everything `StepOk` names. */
  lemma StepOkSelf(b: Building, time: int)
    requires BuildingOk(b)
    ensures StepOk(b, b, time)
  {
    assert b.passSuccess[..|b.passSuccess|] == b.passSuccess;
    assert b.gaveUp[..|b.gaveUp|] == b.gaveUp;
  }

  /** Two steps of the same tick compose. */
  lemma StepOkTrans(b: Building, b': Building, r: Building, time: int)
    requires StepOk(b, b', time) && StepOk(b', r, time)
    ensures StepOk(b, r, time)
  {
    EntriesTrans(b, b', r, time);
    assert SameOutside(b, r);
  }

  lemma EntriesTrans(b: Building, b': Building, r: Building, time: int)
    requires NewEntriesOk(b, b', time) && NewEntriesOk(b', r, time)
    ensures NewEntriesOk(b, r, time)
  {
    ExtendsTrans(r.passSuccess, b'.passSuccess, b.passSuccess);
    ExtendsTrans(r.gaveUp, b'.gaveUp, b.gaveUp);
    forall j | |b.passSuccess| <= j < |b'.passSuccess|
      ensures r.passSuccess[j].timeArrived == time
    {
      assert r.passSuccess[j] == r.passSuccess[..|b'.passSuccess|][j];
    }
    forall j | |b.gaveUp| <= j < |b'.gaveUp|
      ensures time > r.gaveUp[j].time + r.gaveUp[j].waitTime
    {
      assert r.gaveUp[j] == r.gaveUp[..|b'.gaveUp|][j];
    }
  }

  lemma ExtendsTrans(a: seq<Group>, b: seq<Group>, c: seq<Group>)
    requires Extends(a, b) && Extends(b, c)
    ensures Extends(a, c)
  {
    assert a[..|c|] == a[..|b|][..|c|];
  }
}
