/** Progress of a single car: a car travelling floor by floor always has a
    reason ahead of it, a waiting group or a destination, so it never
    travels out of the building. */
module Progress {
  import opened Wrappers
  import opened Passengers
  import opened Floors
  import opened Elevators
  import opened Calls
  import opened Buildings
  import opened States
  import opened Stepping
  import opened Controller

  /** Floor `i` is the car's floor or lies ahead of it. */
  predicate AheadOrAt(floor: int, dir: int, i: int) {
    i == floor || Ahead(floor, dir, i)
  }

  /** A waiting group or a destination lies strictly ahead of the car. */
  ghost predicate ReasonAhead(e: Elevator, floors: seq<Floor>) {
    exists j :: 0 <= j < |floors| && j < |e.passByFloor| && Ahead(e.currFloor, e.direction, j)
                && (HasAnyCall(floors[j]) || e.passByFloor[j] != [])
  }

  /** What the car must satisfy for its next state to be `s`:
      - outside STOP it faces up or down;
      - nobody aboard is bound for a floor behind it;
      - from boarding on, nobody aboard is bound for the car's own floor;
      - offloading is under way only in OFFLD, and only after this floor's
        list was handed over;
      - a car in STOP or travelling to a target is empty, and the direction
        it will take there is up or down;
      - a car travelling floor by floor has a reason ahead. */
  ghost predicate HeadsFor(e: Elevator, s: State, floors: seq<Floor>) {
    && 0 <= e.currFloor < |e.passByFloor|
    && (s != STOP ==> e.direction == UP || e.direction == DOWN)
    && (forall d :: 0 <= d < |e.passByFloor| && e.passByFloor[d] != [] ==> AheadOrAt(e.currFloor, e.direction, d))
    && (s in {BOARD, CLOSEDR, MV1FLR} ==> e.passByFloor[e.currFloor] == [])
    && (s == OFFLD && e.isOffloading ==> e.passByFloor[e.currFloor] == [])
    && (s != OFFLD ==> !e.isOffloading)
    && (s in {STOP, MVTOFLR} ==> IsEmpty(e))
    && (s == MVTOFLR ==> e.postMoveToFloorDir == UP || e.postMoveToFloorDir == DOWN)
    && (s == MV1FLR ==> ReasonAhead(e, floors))
  }

  /** The single-car progress invariant, for the state the car is in. */
  ghost predicate Heading(e: Elevator, floors: seq<Floor>) {
    HeadsFor(e, e.currState, floors)
  }

  /** Recording the next state turns the conditions for it into the invariant. */
  lemma Record(l: Elevator, s: State, floors: seq<Floor>)
    requires HeadsFor(l, s, floors)
    ensures Heading(UpdateCurrState(l, s), floors)
  {
    var r := UpdateCurrState(l, s);
    if s == MV1FLR {
      var j :| 0 <= j < |floors| && j < |l.passByFloor| && Ahead(l.currFloor, l.direction, j)
               && (HasAnyCall(floors[j]) || l.passByFloor[j] != []);
      assert Ahead(r.currFloor, r.direction, j);
    }
  }

  /** A car with nobody aboard has an empty list for every floor. */
  lemma EmptyLists(e: Elevator, n: int)
    requires ElevatorOk(e, n) && IsEmpty(e)
    ensures forall d :: 0 <= d < |e.passByFloor| ==> e.passByFloor[d] == []
  {
    EmptyIffNoManifest(e, n);
  }

  /** A car with somebody aboard has a destination strictly ahead when its
      own floor's list is empty. */
  lemma LoadedHasDestAhead(e: Elevator, n: int, floors: seq<Floor>)
    requires ElevatorOk(e, n) && |floors| == n && !IsEmpty(e)
    requires HeadsFor(e, CLOSEDR, floors)
    ensures ReasonAhead(e, floors)
  {
    EmptyIffNoManifest(e, n);
    var d :| 0 <= d < n && e.passByFloor[d] != [];
    assert AheadOrAt(e.currFloor, e.direction, d);
    assert d != e.currFloor;
  }

  // ------------------------------------------------------------- per state

  /** Leaving STOP the car faces up or down and is still empty. */
  lemma StopHeads(calls: CallCache, floors: seq<Floor>, e: Elevator, n: int)
    requires ElevatorOk(e, n) && |floors| == n && |calls.upCalls| == n && |calls.downCalls| == n
    requires e.currState == STOP && Heading(e, floors)
    ensures var r := CurrStateStop(calls, floors, e);
      r.Ok? ==> HeadsFor(r.value.0, r.value.1, floors)
  {
    EmptyLists(e, n);
    var r := CurrStateStop(calls, floors, e);
    if r.Ok? && r.value.1 != STOP {
      StopOutcome(calls, floors, e);
      var l := r.value.0;
      assert l.passByFloor == e.passByFloor && l.isOffloading == e.isOffloading;
    }
  }

  /** Travelling to a target keeps the car empty; on arrival it faces the
      remembered direction. */
  lemma MvToFlrHeads(e: Elevator, n: int, floors: seq<Floor>)
    requires ElevatorOk(e, n) && e.currState == MVTOFLR && Heading(e, floors)
    ensures var r := CurrStateMvToFlr(e);
      HeadsFor(r.0, r.1, floors)
  {
    EmptyLists(e, n);
    TowardsTargetHeads(e, floors);
  }

  /** Travelling to a target, given the target's position instead of the car
      invariant. */
  lemma TowardsTargetHeads(e: Elevator, floors: seq<Floor>)
    requires e.cfg.ticksPerFloor > 0 && HeadsFor(e, MVTOFLR, floors)
    requires 0 <= e.moveToFloor < |e.passByFloor| && e.moveToFloor != e.currFloor
    requires e.direction == (if e.moveToFloor < e.currFloor then DOWN else UP)
    requires forall d :: 0 <= d < |e.passByFloor| ==> e.passByFloor[d] == []
    ensures var r := CurrStateMvToFlr(e);
      HeadsFor(r.0, r.1, floors)
  {
  }

  /** Opening the door changes nothing the invariant reads; boarding starts
      only when nobody aboard gets out here. */
  lemma OpenDrHeads(e: Elevator, n: int, floors: seq<Floor>)
    requires ElevatorOk(e, n) && e.currState == OPENDR && Heading(e, floors)
    ensures var r := CurrStateOpenDr(e);
      HeadsFor(r.0, r.1, floors)
  {
  }

  /** Offloading empties this floor's list; the car reverses only when empty. */
  lemma OffLdHeads(floors: seq<Floor>, passSuccess: seq<Group>, e: Elevator, time: int, n: int)
    requires ElevatorOk(e, n) && |floors| == n && e.currState == OFFLD && Heading(e, floors)
    ensures var r := CurrStateOffLd(floors, passSuccess, e, time);
      HeadsFor(r.0, r.2, floors)
  {
    var r := CurrStateOffLd(floors, passSuccess, e, time);
    var e1 := OffLdAction(passSuccess, e, time).0;
    assert e1.passByFloor[e.currFloor] == [];
    assert e1.currFloor == e.currFloor && e1.direction == e.direction;
    assert forall d :: 0 <= d < |e1.passByFloor| && e1.passByFloor[d] != [] ==> e.passByFloor[d] != [];
    if r.0 != e1 {
      OffLdKeepsCar(floors, passSuccess, e, time, n);
      EmptyLists(UpdateCurrState(r.0, r.2), n);
    }
  }

  /** `r`'s lists are `s`'s, except that lists for floors strictly ahead of
      `s` may have filled. */
  ghost predicate OnlyAheadAdded(s: Elevator, r: Elevator) {
    && |r.passByFloor| == |s.passByFloor|
    && forall d :: 0 <= d < |r.passByFloor| && r.passByFloor[d] != [] ==>
         s.passByFloor[d] != [] || Ahead(s.currFloor, s.direction, d)
  }

  /** The group at the head of the line the car serves is bound strictly ahead. */
  lemma LineAhead(s: Boarding)
    requires LoopOk(s) && (s.lift.direction == UP || s.lift.direction == DOWN) && Line(s) != []
    ensures Ahead(s.lift.currFloor, s.lift.direction, Line(s)[0].destFloor)
  {
    var f := s.lift.currFloor;
    FloorOkMembers(s.floors[f], f, |s.floors|, s.lift.direction);
    assert Line(s)[0] in Line(s);
  }

  lemma BoardStepAhead(s: Boarding, time: int)
    requires LoopOk(s) && (s.lift.direction == UP || s.lift.direction == DOWN)
    ensures OnlyAheadAdded(s.lift, BoardStep(s, time).1.lift)
  {
    var r := BoardStep(s, time).1;
    var e := s.lift;
    BoardStepOutcome(s, time);
    if NextInLine(s).Some? {
      var p := NextInLine(s).value;
      LineAhead(s);
      if time <= p.time + p.waitTime && p.numPass + e.passengers <= e.cfg.capacity {
        forall d | 0 <= d < |r.lift.passByFloor| && r.lift.passByFloor[d] != []
          ensures e.passByFloor[d] != [] || Ahead(e.currFloor, e.direction, d)
        {
          if d != p.destFloor {
            assert r.lift.passByFloor[d] == e.passByFloor[d];
          }
        }
      } else {
        assert r.lift.passByFloor == e.passByFloor;
      }
    } else {
      assert r == s;
    }
  }

  lemma {:induction false} BoardActionAhead(s: Boarding, time: int)
    requires LoopOk(s) && (s.lift.direction == UP || s.lift.direction == DOWN)
    ensures OnlyAheadAdded(s.lift, BoardAction(s, time).lift)
    decreases |Line(s)|
  {
    var (more, s') := BoardStep(s, time);
    BoardStepAhead(s, time);
    if more {
      assert s'.lift.currFloor == s.lift.currFloor && s'.lift.direction == s.lift.direction;
      BoardActionAhead(s', time);
    }
  }

  /** Boarding adds only groups bound strictly ahead. */
  lemma BoardHeads(floors: seq<Floor>, gaveUp: seq<Group>, e: Elevator, time: int, n: int)
    requires FloorsOk(floors, n) && ElevatorOk(e, n) && e.currState == BOARD && Heading(e, floors)
    ensures var r := CurrStateBoard(floors, gaveUp, e, time);
      HeadsFor(r.0.lift, r.1, r.0.floors)
  {
    var s := Boarding(e, floors, gaveUp, false);
    var o := BoardAction(s, time);
    var r := CurrStateBoard(floors, gaveUp, e, time);
    BoardActionAhead(s, time);
    BoardActionFacts(s, time);
    assert o.lift.currFloor == e.currFloor && o.lift.direction == e.direction && !o.lift.isOffloading;
    assert r.0.lift.passByFloor == o.lift.passByFloor;
    assert r.0.lift.currFloor == e.currFloor && r.0.lift.direction == e.direction && !r.0.lift.isOffloading;
  }

  /** The same floor, direction and lists give the same reasons ahead. */
  lemma SameReason(a: Elevator, b: Elevator, floors: seq<Floor>)
    requires a.currFloor == b.currFloor && a.direction == b.direction && a.passByFloor == b.passByFloor
    requires ReasonAhead(a, floors)
    ensures ReasonAhead(b, floors)
  {
    var j :| 0 <= j < |floors| && j < |a.passByFloor| && Ahead(a.currFloor, a.direction, j)
             && (HasAnyCall(floors[j]) || a.passByFloor[j] != []);
    assert Ahead(b.currFloor, b.direction, j);
  }

  /** With a fresh cache, an empty car that sets off floor by floor after
      closing does so towards a waiting group. */
  lemma EmptyLiftHeads(calls: CallCache, floors: seq<Floor>, e: Elevator)
    requires 0 <= e.currFloor < |floors| && Fresh(calls, floors)
    requires e.direction == UP || e.direction == DOWN
    ensures var r := CloseDrEmptyLift(calls, floors, e);
      r.1 == MV1FLR ==>
        exists j :: 0 <= j < |floors| && Ahead(e.currFloor, r.0.direction, j) && HasAnyCall(floors[j])
  {
    var f := e.currFloor;
    var r := CloseDrEmptyLift(calls, floors, e);
    if r.1 == MV1FLR && !CallsPendingInDir(floors, f, e.direction) {
      CallPendingIffLive(calls, floors);
      var j :| 0 <= j < |floors| && HasAnyCall(floors[j]);
      assert !CallsPendingOnFloor(floors, f, e.direction) && !CallsPendingOnFloor(floors, f, -e.direction);
      assert j != f;
      assert Ahead(f, r.0.direction, j);
    }
  }

  /** The fields the invariant reads. */
  predicate SameCourse(a: Elevator, b: Elevator) {
    && a.currFloor == b.currFloor && a.direction == b.direction && a.passByFloor == b.passByFloor
    && a.isOffloading == b.isOffloading && a.passengers == b.passengers
    && a.postMoveToFloorDir == b.postMoveToFloorDir
  }

  lemma CourseHeads(a: Elevator, b: Elevator, s: State, floors: seq<Floor>)
    requires SameCourse(a, b) && HeadsFor(a, s, floors)
    ensures HeadsFor(b, s, floors)
  {
    if s == MV1FLR {
      SameReason(a, b, floors);
    }
  }

  /** The car is empty exactly when every list is empty. */
  ghost predicate Tallied(e: Elevator) {
    IsEmpty(e) <==> forall d :: 0 <= d < |e.passByFloor| ==> e.passByFloor[d] == []
  }

  /** An empty car whose door has closed: it stops, reopens here, or
      travels towards a waiting group ahead. */
  lemma EmptyClosedHeads(calls: CallCache, floors: seq<Floor>, e: Elevator)
    requires 0 <= e.currFloor < |floors| == |e.passByFloor| && Fresh(calls, floors)
    requires e.direction == UP || e.direction == DOWN
    requires IsEmpty(e) && !e.isOffloading
    requires forall d :: 0 <= d < |e.passByFloor| ==> e.passByFloor[d] == []
    ensures var r := CloseDrEmptyLift(calls, floors, e);
      HeadsFor(r.0, r.1, floors)
  {
    var r := CloseDrEmptyLift(calls, floors, e);
    EmptyLiftHeads(calls, floors, e);
    EmptyCarHeads(e, r.0, r.1, floors);
  }

  /** The empty car `e`, possibly reversed, heads for STOP, OPENDR, or
      MV1FLR with a waiting group ahead. */
  lemma EmptyCarHeads(e: Elevator, x: Elevator, s: State, floors: seq<Floor>)
    requires 0 <= e.currFloor < |floors| == |e.passByFloor|
    requires e.direction == UP || e.direction == DOWN
    requires IsEmpty(e) && !e.isOffloading
    requires forall d :: 0 <= d < |e.passByFloor| ==> e.passByFloor[d] == []
    requires x == e || x == ChangeDirection(e)
    requires s in {STOP, MV1FLR, OPENDR}
    requires s == MV1FLR ==> exists j :: 0 <= j < |floors| && Ahead(e.currFloor, x.direction, j) && HasAnyCall(floors[j])
    ensures HeadsFor(x, s, floors)
  {
    assert x.currFloor == e.currFloor && x.passByFloor == e.passByFloor && x.passengers == e.passengers;
    assert x.direction == UP || x.direction == DOWN;
    if s == MV1FLR {
      var j :| 0 <= j < |floors| && Ahead(e.currFloor, x.direction, j) && HasAnyCall(floors[j]);
      assert ReasonAhead(x, floors);
    }
  }

  /** A fully closed door: a loaded car travels towards a destination ahead,
      an empty one decides as above. */
  lemma ClosedHeads(calls: CallCache, floors: seq<Floor>, e: Elevator)
    requires |floors| == |e.passByFloor| && HeadsFor(e, CLOSEDR, floors) && Tallied(e)
    requires Fresh(calls, floors)
    ensures var r := CloseDrClosed(calls, floors, e);
      HeadsFor(r.0, r.1, floors)
  {
    var e2 := e.(forcedOpen := false);
    if !IsEmpty(e2) {
      var d :| 0 <= d < |e.passByFloor| && e.passByFloor[d] != [];
      assert AheadOrAt(e.currFloor, e.direction, d) && d != e.currFloor;
      assert ReasonAhead(e2, floors);
    } else {
      EmptyClosedHeads(calls, floors, e2);
    }
  }

  /** A door step changes nothing the invariant reads. */
  lemma DoorKeepsCourse(e: Elevator, target: int)
    ensures SameCourse(e, ChangeDoorState(e, target))
  {
  }

  /** Closing, given the tally instead of the car invariant. */
  lemma TalliedCloseDrHeads(calls: CallCache, floors: seq<Floor>, e: Elevator, time: int)
    requires 0 <= e.currFloor < |floors| == |e.passByFloor| && Tallied(e)
    requires HeadsFor(e, CLOSEDR, floors) && Fresh(calls, floors)
    ensures var r := CurrStateCloseDr(calls, floors, e, time);
      HeadsFor(r.0, r.1, floors)
  {
    var e1 := ChangeDoorState(e, CLOSED);
    DoorKeepsCourse(e, CLOSED);
    CourseHeads(e, e1, CLOSEDR, floors);
    if ImpoliteReopen(floors, e1, time) {
      assert SameCourse(e, e1.(forcedOpen := true));
    } else if e1.doorState == CLOSED {
      ClosedHeads(calls, floors, e1);
    }
  }

  /** Closing keeps the load; a car that then travels floor by floor has a
      destination ahead when loaded and a waiting group ahead when empty. */
  lemma CloseDrHeads(calls: CallCache, floors: seq<Floor>, e: Elevator, time: int, n: int)
    requires ElevatorOk(e, n) && |floors| == n && e.currState == CLOSEDR && Heading(e, floors)
    requires Fresh(calls, floors)
    ensures var r := CurrStateCloseDr(calls, floors, e, time);
      HeadsFor(r.0, r.1, floors)
  {
    EmptyIffNoManifest(e, n);
    TalliedCloseDrHeads(calls, floors, e, time);
  }

  /** The conditions a car arriving on floor `f'` meets: it faces up or
      down, is not offloading, and nobody aboard is bound for a floor
      behind. */
  ghost predicate Arrived(e1: Elevator, floors: seq<Floor>) {
    && 0 <= e1.currFloor < |floors| == |e1.passByFloor| && Tallied(e1)
    && (e1.direction == UP || e1.direction == DOWN) && !e1.isOffloading
    && (forall d :: 0 <= d < |e1.passByFloor| && e1.passByFloor[d] != [] ==> AheadOrAt(e1.currFloor, e1.direction, d))
  }

  /** An arrived car with nobody getting out and nobody waiting here in its
      direction: a loaded one has a destination ahead. */
  lemma LoadedArrivalHeads(e1: Elevator, floors: seq<Floor>)
    requires Arrived(e1, floors) && !IsEmpty(e1) && e1.passByFloor[e1.currFloor] == []
    ensures ReasonAhead(e1, floors)
  {
    var d :| 0 <= d < |e1.passByFloor| && e1.passByFloor[d] != [];
    assert AheadOrAt(e1.currFloor, e1.direction, d) && d != e1.currFloor;
  }

  /** An empty arrived car that goes on without reversing has a waiting group
      ahead, given one ahead or on this floor. */
  lemma EmptyArrivalHeads(e1: Elevator, floors: seq<Floor>, j: int)
    requires Arrived(e1, floors) && 0 <= j < |floors|
    requires HasAnyCall(floors[j]) && AheadOrAt(e1.currFloor, e1.direction, j)
    requires !CallsPendingOnFloor(floors, e1.currFloor, e1.direction)
    requires !ShouldChangeDir(floors, e1.currFloor, e1.direction)
    ensures ReasonAhead(e1, floors)
  {
    var f' := e1.currFloor;
    if !Ahead(f', e1.direction, j) {
      assert Queue(floors[f'], -e1.direction) != [];
    }
  }

  /** One tick that reaches the next floor keeps it inside the building and
      leaves the car arrived, with a waiting group on or ahead of the new
      floor when it is empty. */
  lemma MoveArrives(e: Elevator, floors: seq<Floor>)
    requires e.cfg.ticksPerFloor > 0 && |e.passByFloor| == |floors| && Tallied(e)
    requires HeadsFor(e, MV1FLR, floors)
    requires MoveElevator(e).currFloor == e.currFloor + e.direction
    ensures Arrived(MoveElevator(e), floors)
    ensures IsEmpty(e) ==> exists j :: 0 <= j < |floors| && HasAnyCall(floors[j]) && AheadOrAt(e.currFloor + e.direction, e.direction, j)
  {
    var f, dir := e.currFloor, e.direction;
    var j :| 0 <= j < |floors| && j < |e.passByFloor| && Ahead(f, dir, j)
             && (HasAnyCall(floors[j]) || e.passByFloor[j] != []);
    var e1 := MoveElevator(e);
    var f' := f + dir;
    assert 0 <= f' < |floors|;
    assert e1.direction == dir && e1.passByFloor == e.passByFloor && e1.passengers == e.passengers;
    forall d | 0 <= d < |floors| && e1.passByFloor[d] != [] ensures AheadOrAt(f', dir, d) {
      assert AheadOrAt(f, dir, d) && d != f;
    }
    assert AheadOrAt(f', dir, j);
  }

  /** An arrived car may open or, empty, stop; reversed, an empty car may
      open. */
  lemma ArrivedStops(e1: Elevator, floors: seq<Floor>)
    requires Arrived(e1, floors)
    ensures HeadsFor(e1, OPENDR, floors)
    ensures IsEmpty(e1) ==> HeadsFor(e1, STOP, floors) && HeadsFor(ChangeDirection(e1), OPENDR, floors)
  {
  }

  /** Arriving on the floor ahead: open, stop empty, or keep a reason ahead. */
  lemma ArriveHeads(calls: CallCache, floors: seq<Floor>, e: Elevator)
    requires e.cfg.ticksPerFloor > 0 && |e.passByFloor| == |floors| && Tallied(e)
    requires HeadsFor(e, MV1FLR, floors)
    requires MoveElevator(e).currFloor == e.currFloor + e.direction
    ensures var r := CurrStateMv1Flr(calls, floors, e);
      r.Ok? && HeadsFor(r.value.0, r.value.1, floors)
  {
    MoveArrives(e, floors);
    var e1 := MoveElevator(e);
    var f' := e1.currFloor;
    ArrivedStops(e1, floors);
    var r := CurrStateMv1Flr(calls, floors, e);
    if PassengersToOffload(e1, f') || CallsPendingOnFloor(floors, f', e1.direction) {
      assert r == Ok((e1, OPENDR));
    } else if IsEmpty(e1) {
      if !CallPending(calls) {
        assert r == Ok((e1, STOP));
      } else if ShouldChangeDir(floors, f', e1.direction) {
        assert r == Ok((ChangeDirection(e1), OPENDR));
      } else {
        var j :| 0 <= j < |floors| && HasAnyCall(floors[j]) && AheadOrAt(f', e1.direction, j);
        EmptyArrivalHeads(e1, floors, j);
        assert r == Ok((e1, MV1FLR));
      }
    } else {
      LoadedArrivalHeads(e1, floors);
      assert r == Ok((e1, MV1FLR));
    }
  }

  /** Travelling floor by floor: the reason ahead keeps the next floor inside
      the building, so arriving never fails, and on arrival the car either
      opens, stops empty, or still has a reason ahead. */
  lemma Mv1FlrHeads(calls: CallCache, floors: seq<Floor>, e: Elevator, n: int)
    requires ElevatorOk(e, n) && |floors| == n && e.currState == MV1FLR && Heading(e, floors)
    ensures var r := CurrStateMv1Flr(calls, floors, e);
      r.Ok? && HeadsFor(r.value.0, r.value.1, floors)
  {
    var e1 := MoveElevator(e);
    if e1.currFloor != e1.prevFloor + e1.direction {
      assert SameCourse(e, e1);
      CourseHeads(e, e1, MV1FLR, floors);
    } else {
      EmptyIffNoManifest(e, n);
      ArriveHeads(calls, floors, e);
    }
  }

  // ------------------------------------------------------------ the building

  /** Admission only lengthens lines, so a car's reasons ahead survive it. */
  lemma AdmitHeads(passQ: seq<Group>, floors: seq<Floor>, time: int, e: Elevator)
    requires forall g :: g in passQ ==> 0 <= g.onFloor < |floors|
    requires Heading(e, floors)
    ensures Heading(e, Admit(passQ, floors, time).1)
  {
    var floors' := Admit(passQ, floors, time).1;
    if e.currState == MV1FLR {
      var j :| 0 <= j < |floors| && j < |e.passByFloor| && Ahead(e.currFloor, e.direction, j)
               && (HasAnyCall(floors[j]) || e.passByFloor[j] != []);
      AdmitLines(passQ, floors, time, j, UP);
      AdmitLines(passQ, floors, time, j, DOWN);
      assert HasAnyCall(floors[j]) ==> HasAnyCall(floors'[j]);
      assert ReasonAhead(e, floors');
    }
  }

  /** With a fresh cache, the handler of a heading car succeeds and leaves
      it ready for the state it picks. */
  lemma DispatchReady(b: Building, e: Elevator, time: int)
    requires WorldOk(b) && ElevatorOk(e, b.numFloors) && Heading(e, b.floors)
    requires Fresh(b.calls, b.floors)
    ensures var d := Dispatch(b, e, time);
      d.Ok? && HeadsFor(d.value.lift, d.value.next, d.value.floors)
  {
    if e.currState in {STOP, MVTOFLR, OPENDR} {
      DispatchReadyIdle(b, e, time);
    } else if e.currState in {OFFLD, BOARD} {
      DispatchReadyDoorOpen(b, e, time);
    } else {
      DispatchReadyLeaving(b, e, time);
    }
  }

  /** `DispatchReady` for a car that is idle, travelling to a target, or
      opening its door. */
  lemma DispatchReadyIdle(b: Building, e: Elevator, time: int)
    requires WorldOk(b) && ElevatorOk(e, b.numFloors) && Heading(e, b.floors)
    requires Fresh(b.calls, b.floors) && e.currState in {STOP, MVTOFLR, OPENDR}
    ensures var d := Dispatch(b, e, time);
      d.Ok? && HeadsFor(d.value.lift, d.value.next, d.value.floors)
  {
    var n := b.numFloors;
    match e.currState
    case STOP =>
      FreshStopNeverNull(b.calls, b.floors, e);
      StopHeads(b.calls, b.floors, e, n);
      var (l, s) := CurrStateStop(b.calls, b.floors, e).value;
      assert Dispatch(b, e, time) == Ok(Tick(l, b.floors, b.passSuccess, b.gaveUp, s));
    case MVTOFLR =>
      MvToFlrHeads(e, n, b.floors);
    case OPENDR =>
      OpenDrHeads(e, n, b.floors);
  }

  /** `DispatchReady` for a car offloading or boarding. */
  lemma DispatchReadyDoorOpen(b: Building, e: Elevator, time: int)
    requires WorldOk(b) && ElevatorOk(e, b.numFloors) && Heading(e, b.floors)
    requires e.currState in {OFFLD, BOARD}
    ensures var d := Dispatch(b, e, time);
      d.Ok? && HeadsFor(d.value.lift, d.value.next, d.value.floors)
  {
    if e.currState == OFFLD {
      OffLdHeads(b.floors, b.passSuccess, e, time, b.numFloors);
    } else {
      BoardHeads(b.floors, b.gaveUp, e, time, b.numFloors);
    }
  }

  /** `DispatchReady` for a car closing its door or moving one floor. */
  lemma DispatchReadyLeaving(b: Building, e: Elevator, time: int)
    requires WorldOk(b) && ElevatorOk(e, b.numFloors) && Heading(e, b.floors)
    requires Fresh(b.calls, b.floors) && e.currState in {CLOSEDR, MV1FLR}
    ensures var d := Dispatch(b, e, time);
      d.Ok? && HeadsFor(d.value.lift, d.value.next, d.value.floors)
  {
    if e.currState == CLOSEDR {
      CloseDrHeads(b.calls, b.floors, e, time, b.numFloors);
    } else {
      Mv1FlrHeads(b.calls, b.floors, e, b.numFloors);
      var (l, s) := CurrStateMv1Flr(b.calls, b.floors, e).value;
      assert Dispatch(b, e, time) == Ok(Tick(l, b.floors, b.passSuccess, b.gaveUp, s));
    }
  }

  /** With a fresh cache, the handler of a heading car succeeds, and the car
      keeps heading against the floors the handler leaves. */
  lemma DispatchHeads(b: Building, e: Elevator, time: int)
    requires WorldOk(b) && ElevatorOk(e, b.numFloors) && Heading(e, b.floors)
    requires Fresh(b.calls, b.floors)
    ensures var d := Dispatch(b, e, time);
      d.Ok? && Heading(UpdateCurrState(d.value.lift, d.value.next), d.value.floors)
  {
    DispatchReady(b, e, time);
    var d := Dispatch(b, e, time).value;
    Record(d.lift, d.next, d.floors);
  }

  /** The single-car invariant: one car, heading. */
  ghost predicate OneCarOk(b: Building) {
    |b.elevators| == 1 && Heading(b.elevators[0], b.floors)
  }

  /** With one heading car, a step always succeeds. */
  lemma SingleCarStepOk(s: Sim)
    requires BuildingOk(s.building) && OneCarOk(s.building)
    ensures StepSim(s).Ok?
  {
    SingleCarRunOk(s.building, s.stepCnt + 1);
  }

  /** With one heading car, the car still heads after a step that runs it. */
  lemma SingleCarStep(s: Sim)
    requires BuildingOk(s.building) && OneCarOk(s.building)
    ensures var t := s.stepCnt + 1;
      forall b2 :: StepSim(s) == Ok(Sim(b2, t, false)) ==> OneCarOk(b2)
  {
    StepSimBuilding(s);
    if !EndSim(s.building) {
      SingleCarRun(s.building, s.stepCnt + 1);
    }
  }

  /** With one heading car, admission and the car's tick succeed and the
      car keeps heading. */
  lemma SingleCarRun(b: Building, t: int)
    requires BuildingOk(b) && OneCarOk(b)
    ensures AdmitAndRun(b, t).Ok? && OneCarOk(AdmitAndRun(b, t).value)
  {
    var b1 := Admitted(b, t);
    AdmitHeads(b.passQ, b.floors, t, b.elevators[0]);
    assert b1.elevators == b.elevators;
    DispatchHeads(b1, b1.elevators[0], t);
    UpdateOneOk(b1, 0, t);
    var b' := UpdateOne(b1, 0, t).value;
    assert UpdateElevators(b1, t, 0) == UpdateElevators(b', t, 1) == Ok(b');
  }

  lemma SingleCarRunOk(b: Building, t: int)
    requires BuildingOk(b) && OneCarOk(b)
    ensures AdmitAndRun(b, t).Ok?
  {
    SingleCarRun(b, t);
  }

  /** A freshly loaded one-car building satisfies the single-car invariant. */
  lemma NewOneCarOk(numFloors: nat, cfg: Config, xs: seq<Arrival>)
    requires numFloors >= 1 && ValidConfig(cfg)
    ensures OneCarOk(LoadPassengers(NewBuilding(numFloors, 1, cfg), xs))
  {
    var b0 := NewBuilding(numFloors, 1, cfg);
    LoadPassengersQueue(b0, xs);
    assert b0.elevators[0] == NewElevator(numFloors, cfg);
  }

  /** Along a run from a well-formed one-car building whose car heads, every
      state is well-formed and its car heads. */
  lemma RunKeepsHeading(trace: seq<Sim>)
    requires IsRun(trace) && BuildingOk(trace[0].building) && OneCarOk(trace[0].building)
    ensures BuildingOk(trace[|trace| - 1].building) && OneCarOk(trace[|trace| - 1].building)
  {
    RunStepsHead(trace);
    HeadsUpTo(trace, |trace| - 1);
  }

  /** Every link of a trace whose steps each keep a heading single car. */
  ghost predicate StepsHead(trace: seq<Sim>) {
    forall i :: 0 <= i < |trace| - 1 && BuildingOk(trace[i].building) && OneCarOk(trace[i].building) ==>
      BuildingOk(trace[i + 1].building) && OneCarOk(trace[i + 1].building)
  }

  lemma RunStepsHead(trace: seq<Sim>)
    requires IsRun(trace)
    ensures StepsHead(trace)
  {
    forall i | 0 <= i < |trace| - 1 && BuildingOk(trace[i].building) && OneCarOk(trace[i].building)
      ensures BuildingOk(trace[i + 1].building) && OneCarOk(trace[i + 1].building)
    {
      RunStep(trace, i);
      StepKeepsHeading(trace[i], trace[i + 1]);
    }
  }

  /** One link of a run keeps a well-formed building with a heading car. */
  lemma StepKeepsHeading(a: Sim, c: Sim)
    requires BuildingOk(a.building) && OneCarOk(a.building) && StepSim(a) == Ok(c)
    ensures BuildingOk(c.building) && OneCarOk(c.building)
  {
    StepSimKeepsOk(a);
    if EndSim(a.building) {
      assert c.building == a.building;
    } else {
      SingleCarStep(a);
      assert c == Sim(c.building, a.stepCnt + 1, false);
    }
  }

  lemma {:induction false} HeadsUpTo(trace: seq<Sim>, n: nat)
    requires StepsHead(trace) && |trace| >= 1 && n < |trace|
    requires BuildingOk(trace[0].building) && OneCarOk(trace[0].building)
    ensures BuildingOk(trace[n].building) && OneCarOk(trace[n].building)
    decreases n
  {
    if n > 0 {
      HeadsUpTo(trace, n - 1);
    }
  }

  /** Liveness of the one-car simulation's error paths: a run of a one-car
      building loaded from a valid passenger file never reaches a failing
      step; in particular the car never travels past the top or bottom
      floor. */
  lemma RunNeverFails(numFloors: nat, cfg: Config, xs: seq<Arrival>, trace: seq<Sim>)
    requires numFloors >= 1 && ValidConfig(cfg)
    requires forall x :: x in xs ==> ValidArrival(x, numFloors)
    requires IsRun(trace) && trace[0] == NewSim(LoadPassengers(NewBuilding(numFloors, 1, cfg), xs))
    ensures BuildingOk(trace[|trace| - 1].building) && StepSim(trace[|trace| - 1]).Ok?
  {
    var b0 := NewBuilding(numFloors, 1, cfg);
    NewBuildingOk(numFloors, 1, cfg);
    LoadPassengersQueue(b0, xs);
    NewGroupsValid(b0.ids, xs, numFloors);
    NewOneCarOk(numFloors, cfg, xs);
    RunKeepsHeading(trace);
    SingleCarStepOk(trace[|trace| - 1]);
  }
}
