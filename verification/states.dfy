/** The seven state handlers of a car. Each performs the state's action for
    one tick and names the next state; the caller records that state. */
module States {
  import opened Wrappers
  import opened Passengers
  import opened Floors
  import opened Elevators
  import opened Calls
  import opened Buildings

  /** What a handler hands back: the car, the parts of the building a car can
      change, and the next state. */
  datatype Tick = Tick(lift: Elevator, floors: seq<Floor>, passSuccess: seq<Group>, gaveUp: seq<Group>, next: State)

  // ------------------------------------------------------------------ STOP

  /** Idle car: stays put while the cache reports no call; otherwise asks for
      the prioritised group and either opens here, facing the group's travel
      direction, or sets off towards the group's floor, remembering that
      direction for later. A missing pick is the source's null dereference. */
  function CurrStateStop(calls: CallCache, floors: seq<Floor>, e: Elevator): (r: Result<(Elevator, State), Failure>)
    requires 0 <= e.currFloor < |floors| && |calls.upCalls| == |floors| && |calls.downCalls| == |floors|
    ensures !CallPending(calls) ==> r == Ok((e, STOP))
    ensures r.Err? <==> CallPending(calls) && PrioritizePassengerCalls(calls, floors, e.currFloor).None?
    ensures r.Ok? ==> r.value.1 in {STOP, OPENDR, MVTOFLR} && SameLoad(e, r.value.0)
  {
    if !CallPending(calls) then Ok((e, STOP))
    else
      match PrioritizePassengerCalls(calls, floors, e.currFloor)
      case None => Err(NullPassenger)
      case Some(p) =>
        var dir := if p.destFloor < p.onFloor then DOWN else UP;
        if p.onFloor == e.currFloor then Ok((e.(direction := dir), OPENDR))
        else Ok((e.(direction := if p.onFloor < e.currFloor then DOWN else UP,
                    moveToFloor := p.onFloor, postMoveToFloorDir := dir), MVTOFLR))
  }

  /** With a call pending and a group picked: a group waiting here opens the
      door facing its travel direction; any other group sends the car
      towards its floor, facing it, with the group's direction remembered. */
  lemma StopOutcome(calls: CallCache, floors: seq<Floor>, e: Elevator)
    requires 0 <= e.currFloor < |floors| && |calls.upCalls| == |floors| && |calls.downCalls| == |floors|
    requires CallPending(calls) && PrioritizePassengerCalls(calls, floors, e.currFloor).Some?
    ensures var r := CurrStateStop(calls, floors, e);
      var p := PrioritizePassengerCalls(calls, floors, e.currFloor).value;
      && (p.onFloor == e.currFloor ==> r == Ok((e.(direction := TravelDir(p)), OPENDR)))
      && (p.onFloor != e.currFloor ==>
            && r.Ok? && r.value.1 == MVTOFLR
            && (r.value.0.direction == UP || r.value.0.direction == DOWN)
            && Ahead(e.currFloor, r.value.0.direction, p.onFloor)
            && r.value.0 == e.(direction := r.value.0.direction, moveToFloor := p.onFloor,
                               postMoveToFloorDir := TravelDir(p)))
  {
  }

  // --------------------------------------------------------------- MVTOFLR

  /** Travels towards the target floor; on arrival turns to the remembered
      direction and opens. */
  function CurrStateMvToFlr(e: Elevator): (r: (Elevator, State))
    requires e.cfg.ticksPerFloor > 0
    ensures r.1 == OPENDR <==> MoveElevator(e).currFloor == e.moveToFloor
    ensures r.1 == OPENDR ==> r.0.direction == e.postMoveToFloorDir
    ensures r.1 != OPENDR ==> r.1 == MVTOFLR && r.0 == MoveElevator(e)
  {
    var e1 := MoveElevator(e);
    if e1.currFloor != e1.moveToFloor then (e1, MVTOFLR)
    else (e1.(direction := e1.postMoveToFloorDir), OPENDR)
  }

  // ---------------------------------------------------------------- OPENDR

  /** Opens one step; once fully open, offloads if anybody aboard gets out
      here, else boards. */
  function CurrStateOpenDr(e: Elevator): (r: (Elevator, State))
    requires 0 <= e.currFloor < |e.passByFloor|
    ensures r.0 == OpenDoor(e)
    ensures r.1 == OPENDR <==> r.0.doorState != Open(e)
    ensures r.1 == OFFLD <==> r.0.doorState == Open(e) && e.passByFloor[e.currFloor] != []
    ensures r.1 == BOARD <==> r.0.doorState == Open(e) && e.passByFloor[e.currFloor] == []
  {
    var e1 := ChangeDoorState(e, Open(e));
    if e1.doorState != Open(e1) then (e1, OPENDR)
    else if PassengersToOffload(e1, e1.currFloor) then (e1, OFFLD)
    else (e1, BOARD)
  }

  // ----------------------------------------------------------------- OFFLD

  /** The offload action: on the first tick every group bound for this floor
      leaves as one batch, stamped with the arrival time and appended to the
      delivered ledger; later ticks only count down. */
  function OffLdAction(passSuccess: seq<Group>, e: Elevator, time: int): (r: (Elevator, seq<Group>))
    requires 0 <= e.currFloor < |e.passByFloor| && e.cfg.passPerTick > 0
    ensures !e.isOffloading ==> r.1 == passSuccess + StampArrived(e.passByFloor[e.currFloor], time)
    ensures !e.isOffloading ==> r.0 == Offload(e, e.currFloor).1
    ensures e.isOffloading ==> r == (KeepOffloading(e), passSuccess)
  {
    if !e.isOffloading then
      var (batch, e1) := Offload(e, e.currFloor);
      (e1, passSuccess + StampArrived(batch, time))
    else (KeepOffloading(e), passSuccess)
  }

  /** Offloads until done; then boards if somebody waits here in the car's
      direction, else an empty car that should reverse does so and boards
      if somebody waits in the new direction; otherwise the door closes. */
  function CurrStateOffLd(floors: seq<Floor>, passSuccess: seq<Group>, e: Elevator, time: int)
    : (r: (Elevator, seq<Group>, State))
    requires 0 <= e.currFloor < |e.passByFloor| && e.currFloor < |floors| && e.cfg.passPerTick > 0
    ensures r.2 in {OFFLD, BOARD, CLOSEDR}
    ensures r.1 == OffLdAction(passSuccess, e, time).1
    ensures var e1 := OffLdAction(passSuccess, e, time).0;
      && (r.2 == OFFLD <==> !e1.isOffloadingDone)
      && (r.0 == e1 || r.0 == ChangeDirection(e1))
      && (r.0 == ChangeDirection(e1) && r.0 != e1 ==> IsEmpty(e1))
      && (r.2 == BOARD ==> Queue(floors[e.currFloor], r.0.direction) != [])
  {
    var (e1, ps) := OffLdAction(passSuccess, e, time);
    var floor := e1.currFloor;
    if !e1.isOffloadingDone then (e1, ps, OFFLD)
    else if CallsPendingOnFloor(floors, floor, e1.direction) then (e1, ps, BOARD)
    else if IsEmpty(e1) && ShouldChangeDir(floors, floor, e1.direction) then
      var e2 := ChangeDirection(e1);
      if CallsPendingOnFloor(floors, floor, e2.direction) then (e2, ps, BOARD) else (e2, ps, CLOSEDR)
    else (e1, ps, CLOSEDR)
  }

  /** The OFFLD branches: keep offloading until done; then board if somebody
      waits here in the car's direction; else an empty car that should
      reverse does so and boards exactly when somebody waits here in the new
      direction; otherwise close the door. */
  lemma OffLdOutcome(floors: seq<Floor>, passSuccess: seq<Group>, e: Elevator, time: int)
    requires 0 <= e.currFloor < |e.passByFloor| && e.currFloor < |floors| && e.cfg.passPerTick > 0
    ensures var r := CurrStateOffLd(floors, passSuccess, e, time);
      var e1 := OffLdAction(passSuccess, e, time).0; var here := floors[e.currFloor];
      && (!e1.isOffloadingDone ==> r.0 == e1)
      && (e1.isOffloadingDone && Queue(here, e1.direction) != [] ==> r.0 == e1 && r.2 == BOARD)
      && (e1.isOffloadingDone && Queue(here, e1.direction) == [] ==>
            if IsEmpty(e1) && ShouldChangeDir(floors, e.currFloor, e1.direction)
            then r.0 == ChangeDirection(e1) && (r.2 == BOARD <==> Queue(here, -e1.direction) != [])
            else r.0 == e1 && r.2 == CLOSEDR)
  {
  }

  /** A car reverses in OFFLD only when somebody waits here for the other
      direction, so after a reversal it always boards: the branch that
      reverses and then closes the door is never taken. */
  lemma OffLdReversalBoards(floors: seq<Floor>, passSuccess: seq<Group>, e: Elevator, time: int)
    requires 0 <= e.currFloor < |e.passByFloor| && e.currFloor < |floors| && e.cfg.passPerTick > 0
    ensures var r := CurrStateOffLd(floors, passSuccess, e, time);
      r.0.direction != OffLdAction(passSuccess, e, time).0.direction ==> r.2 == BOARD
  {
    var e1 := OffLdAction(passSuccess, e, time).0;
    if e1.isOffloadingDone && IsEmpty(e1) && ShouldChangeDir(floors, e.currFloor, e1.direction) {
      assert ChangeDirection(e1).direction == -e1.direction;
    }
  }

  // ----------------------------------------------------------------- BOARD

  /** The outcome of the boarding loop. */
  datatype Boarding = Boarding(lift: Elevator, floors: seq<Floor>, gaveUp: seq<Group>, boarded: bool)

  /** Polling floor `i`'s line keeps every floor well-formed. */
  lemma PollKeepsFloorsOk(floors: seq<Floor>, i: int, dir: int)
    requires FloorsOk(floors, |floors|) && 0 <= i < |floors|
    ensures FloorsOk(floors[i := Poll(floors[i], dir).1], |floors|)
  {
    PollKeepsFloorOk(floors[i], i, |floors|, dir);
  }

  /** The car fields boarding never touches. */
  predicate SameButLoad(a: Elevator, b: Elevator) {
    && SamePosition(a, b) && a.timeInState == b.timeInState && a.isBoardingDone == b.isBoardingDone
    && a.isBoarding == b.isBoarding && a.isOffloading == b.isOffloading && a.isOffloadingDone == b.isOffloadingDone
  }

  /** What the boarding loop relies on at every pass. */
  ghost predicate LoopOk(s: Boarding) {
    && FloorsOk(s.floors, |s.floors|)
    && 0 <= s.lift.currFloor < |s.floors|
    && |s.lift.passByFloor| == |s.floors|
    && s.lift.cfg.passPerTick > 0
    && (s.boarded ==> !s.lift.forcedOpen)
  }

  /** The line the boarding loop reads: this floor, the car's direction. */
  function Line(s: Boarding): seq<Group>
    requires 0 <= s.lift.currFloor < |s.floors|
  {
    Queue(s.floors[s.lift.currFloor], s.lift.direction)
  }

  /** The group the loop looks at next: none when the car is full, may not
      board, or nobody waits in its line; otherwise the head of the line. */
  function NextInLine(s: Boarding): (r: Option<Group>)
    requires 0 <= s.lift.currFloor < |s.floors|
    ensures r.None? <==> IsFull(s.lift) || !s.lift.canBoard || Line(s) == []
    ensures r.Some? ==> r.value == Line(s)[0]
  {
    var e := s.lift;
    if IsFull(e) || !e.canBoard then None
    else if CallsPendingOnFloor(s.floors, e.currFloor, e.direction) then GetPassenger(s.floors, e.currFloor, e.direction)
    else None
  }

  /** Removes the head of the line of `p`'s travel direction on `p`'s
      origin floor: up when the destination is above, down otherwise. The
      other line of that floor and every other floor stay as they were. */
  function RemoveHead(floors: seq<Floor>, p: Group): (r: seq<Floor>)
    requires 0 <= p.onFloor < |floors|
    ensures |r| == |floors|
    ensures forall i :: 0 <= i < |floors| && i != p.onFloor ==> r[i] == floors[i]
    ensures var dir := if p.destFloor > p.onFloor then UP else DOWN; var line := Queue(floors[p.onFloor], dir);
      && Queue(r[p.onFloor], dir) == (if line == [] then [] else line[1..])
      && Queue(r[p.onFloor], -dir) == Queue(floors[p.onFloor], -dir)
  {
    var dir := if p.destFloor > p.onFloor then UP else DOWN;
    floors[p.onFloor := Poll(floors[p.onFloor], dir).1]
  }

  /** For the head of the loop's line, removing it takes exactly that group
      out of exactly that line and keeps the floors well-formed. */
  lemma RemoveHeadFacts(s: Boarding)
    requires LoopOk(s) && Line(s) != []
    ensures var p := Line(s)[0];
      && ValidGroup(p, |s.floors|) && p.onFloor == s.lift.currFloor
      && FloorsOk(RemoveHead(s.floors, p), |s.floors|)
      && Queue(RemoveHead(s.floors, p)[s.lift.currFloor], s.lift.direction) == Line(s)[1..]
      && FloorIds(RemoveHead(s.floors, p)) + multiset{p.id} == FloorIds(s.floors)
  {
    var floor := s.lift.currFloor;
    var p := Line(s)[0];
    FloorOkMembers(s.floors[floor], floor, |s.floors|, s.lift.direction);
    assert p in Line(s);
    var dir := if p.destFloor > p.onFloor then UP else DOWN;
    assert Queue(s.floors[floor], dir) == Line(s);
    PollKeepsFloorsOk(s.floors, floor, dir);
    var f' := Poll(s.floors[floor], dir).1;
    PollIds(s.floors[floor], dir);
    FloorIdsUpdate(s.floors, floor, f');
    var fl, fl' := FloorIds(s.floors), FloorIds(s.floors[floor := f']);
    assert fl' + LineIds(s.floors[floor]) == fl + LineIds(f');
    assert fl' + (LineIds(f') + multiset{p.id}) == fl + LineIds(f');
    assert (fl' + multiset{p.id}) + LineIds(f') == fl + LineIds(f');
    MultisetCancel(fl' + multiset{p.id}, fl, LineIds(f'));
  }

  /** One pass of the boarding loop; the flag says whether the loop goes on.
      A group that waited longer than its patience gives up and leaves the
      line; a group that fits boards, stamped with the time, clears the
      forced-open mark and leaves the line; a group that does not fit stops
      the loop, as do a full car and an empty line. */
  function BoardStep(s: Boarding, time: int): (r: (bool, Boarding))
    requires LoopOk(s)
    ensures LoopOk(r.1) && |r.1.floors| == |s.floors|
    ensures SameButLoad(s.lift, r.1.lift) || SameButLoad(s.lift, r.1.lift.(forcedOpen := s.lift.forcedOpen))
    ensures r.0 ==> |Line(r.1)| < |Line(s)|
    ensures !r.0 ==> IsFull(r.1.lift) || !r.1.lift.canBoard || Line(r.1) == []
    ensures !r.0 ==> r.1.floors == s.floors && r.1.gaveUp == s.gaveUp && r.1.boarded == s.boarded
    ensures r.1.gaveUp == s.gaveUp || r.1.gaveUp == s.gaveUp + [Line(s)[0]]
    ensures r.1.gaveUp != s.gaveUp ==> time > Line(s)[0].time + Line(s)[0].waitTime
    ensures s.boarded ==> r.1.boarded
    ensures !r.1.boarded ==> r.1.lift.forcedOpen == s.lift.forcedOpen
  {
    match NextInLine(s)
    case None => (false, s)
    case Some(p) =>
      RemoveHeadFacts(s);
      var floors' := RemoveHead(s.floors, p);
      if time > p.time + p.waitTime then (true, s.(floors := floors', gaveUp := s.gaveUp + [p]))
      else
        var (ok, e1) := Board(s.lift, p.(boardTime := time));
        if ok then (true, Boarding(e1.(forcedOpen := false), floors', s.gaveUp, true))
        else (false, s.(lift := e1))
  }

  /** What one pass does with the group it looks at: an expired group gives
      up, leaving its line for the give-up ledger with the car untouched; a
      group that fits is filed under its destination, stamped with the
      time, and leaves its line; a group that does not fit stays where it is
      and only bars further boarding. With nobody to look at, nothing
      changes. */
  lemma BoardStepOutcome(s: Boarding, time: int)
    requires LoopOk(s)
    ensures NextInLine(s).None? ==> BoardStep(s, time) == (false, s)
    ensures NextInLine(s).Some? ==>
      var p := NextInLine(s).value; var r := BoardStep(s, time); var e := s.lift;
      && 0 <= p.destFloor < |e.passByFloor|
      && (time > p.time + p.waitTime ==>
            r == (true, s.(floors := RemoveHead(s.floors, p), gaveUp := s.gaveUp + [p])))
      && (time <= p.time + p.waitTime && p.numPass + e.passengers <= e.cfg.capacity ==>
            && r.0 && r.1.boarded && r.1.gaveUp == s.gaveUp && r.1.floors == RemoveHead(s.floors, p)
            && r.1.lift.passByFloor == e.passByFloor[p.destFloor := e.passByFloor[p.destFloor] + [p.(boardTime := time)]]
            && r.1.lift.passengers == e.passengers + p.numPass && !r.1.lift.forcedOpen)
      && (time <= p.time + p.waitTime && p.numPass + e.passengers > e.cfg.capacity ==>
            r == (false, s.(lift := e.(canBoard := false))))
  {
    if NextInLine(s).Some? {
      RemoveHeadFacts(s);
    }
  }

  /** The boarding loop: passes until one says stop. */
  function BoardAction(s: Boarding, time: int): (r: Boarding)
    requires LoopOk(s)
    ensures LoopOk(r) && |r.floors| == |s.floors| && r.lift.currFloor == s.lift.currFloor
    ensures r.lift.direction == s.lift.direction && r.lift.cfg == s.lift.cfg
    decreases |Line(s)|
  {
    var (more, s') := BoardStep(s, time);
    if more then BoardAction(s', time) else s'
  }

  /** Boards, then counts boarding time: a tick with new groups always
      counts; a tick without new groups counts only while a boarding is in
      progress. Leaves for door closing once boarding is done. */
  function CurrStateBoard(floors: seq<Floor>, gaveUp: seq<Group>, e: Elevator, time: int): (r: (Boarding, State))
    requires LoopOk(Boarding(e, floors, gaveUp, false))
    ensures r.1 in {BOARD, CLOSEDR}
    ensures r.1 == CLOSEDR <==> r.0.lift.isBoardingDone
    ensures var o := BoardAction(Boarding(e, floors, gaveUp, false), time);
      && r.0.floors == o.floors && r.0.gaveUp == o.gaveUp && r.0.boarded == o.boarded
      && (o.boarded || (!o.lift.isBoardingDone && o.lift.isBoarding) ==> r.0.lift == KeepBoarding(o.lift))
      && (!o.boarded && !(!o.lift.isBoardingDone && o.lift.isBoarding) ==> r.0.lift == o.lift)
  {
    var o := BoardAction(Boarding(e, floors, gaveUp, false), time);
    var e1 := if o.boarded then KeepBoarding(o.lift) else o.lift;
    if !e1.isBoardingDone then
      var e2 := if !o.boarded && e1.isBoarding then KeepBoarding(e1) else e1;
      (o.(lift := e2), if !e2.isBoardingDone then BOARD else CLOSEDR)
    else (o.(lift := e1), CLOSEDR)
  }

  // --------------------------------------------------------------- CLOSEDR

  /** Door closed on an empty car: stop when the cache reports no call;
      travel on when somebody waits ahead; reopen when somebody waits here in
      the car's direction; otherwise reverse, then reopen or travel on. */
  function CloseDrEmptyLift(calls: CallCache, floors: seq<Floor>, e: Elevator): (r: (Elevator, State))
    requires 0 <= e.currFloor < |floors|
    ensures r.1 in {STOP, MV1FLR, OPENDR}
    ensures r.1 == STOP <==> !CallPending(calls)
    ensures r.0 == e || r.0 == ChangeDirection(e)
    ensures r.1 == MV1FLR ==> CallsPendingInDir(floors, e.currFloor, e.direction) || r.0 == ChangeDirection(e)
    ensures r.1 == OPENDR ==> Queue(floors[e.currFloor], r.0.direction) != []
  {
    var floor := e.currFloor;
    if !CallPending(calls) then (e, STOP)
    else if CallsPendingInDir(floors, floor, e.direction) then (e, MV1FLR)
    else if CallsPendingOnFloor(floors, floor, e.direction) then (e, OPENDR)
    else
      var e1 := ChangeDirection(e);
      if CallsPendingOnFloor(floors, floor, e1.direction) then (e1, OPENDR) else (e1, MV1FLR)
  }

  /** The branches of the empty-car decision, in the order the source tries
      them. */
  lemma EmptyLiftOutcome(calls: CallCache, floors: seq<Floor>, e: Elevator)
    requires 0 <= e.currFloor < |floors|
    ensures var r := CloseDrEmptyLift(calls, floors, e); var here := floors[e.currFloor];
      && (!CallPending(calls) ==> r == (e, STOP))
      && (CallPending(calls) && CallsPendingInDir(floors, e.currFloor, e.direction) ==> r == (e, MV1FLR))
      && (CallPending(calls) && !CallsPendingInDir(floors, e.currFloor, e.direction) && Queue(here, e.direction) != [] ==>
            r == (e, OPENDR))
      && (CallPending(calls) && !CallsPendingInDir(floors, e.currFloor, e.direction) && Queue(here, e.direction) == [] ==>
            r.0 == ChangeDirection(e) && (r.1 == OPENDR <==> Queue(here, -e.direction) != []))
  {
  }

  /** An impolite group that called this very tick, at the head of the
      car's line, reopens a closing door, unless it was already reopened. */
  function ImpoliteReopen(floors: seq<Floor>, e: Elevator, time: int): (r: bool)
    requires 0 <= e.currFloor < |floors|
    ensures r <==> && !e.forcedOpen
                   && Queue(floors[e.currFloor], e.direction) != []
                   && !Queue(floors[e.currFloor], e.direction)[0].polite
                   && Queue(floors[e.currFloor], e.direction)[0].time == time
  {
    !e.forcedOpen &&
      match GetPassenger(floors, e.currFloor, e.direction)
      case Some(p) => !p.polite && p.time == time
      case None => false
  }

  /** A fully closed door: the reopen mark is cleared, and a loaded car
      travels on while an empty one decides as above. */
  function CloseDrClosed(calls: CallCache, floors: seq<Floor>, e: Elevator): (r: (Elevator, State))
    requires 0 <= e.currFloor < |floors|
    ensures r.1 in {STOP, MV1FLR, OPENDR} && !r.0.forcedOpen
    ensures r.0 == e.(forcedOpen := false) || r.0 == ChangeDirection(e.(forcedOpen := false))
    ensures !IsEmpty(e) ==> r == (e.(forcedOpen := false), MV1FLR)
  {
    var e2 := e.(forcedOpen := false);
    if IsEmpty(e2) then CloseDrEmptyLift(calls, floors, e2) else (e2, MV1FLR)
  }

  /** Closes one step first. A forced reopen then wins; otherwise a fully
      closed door goes on as above; a door still closing keeps closing. */
  function CurrStateCloseDr(calls: CallCache, floors: seq<Floor>, e: Elevator, time: int): (r: (Elevator, State))
    requires 0 <= e.currFloor < |floors|
    ensures r.1 in {OPENDR, CLOSEDR, STOP, MV1FLR}
    ensures var e1 := ChangeDoorState(e, CLOSED);
      && (ImpoliteReopen(floors, e1, time) ==> r == (e1.(forcedOpen := true), OPENDR))
      && (!ImpoliteReopen(floors, e1, time) ==> (r.1 == CLOSEDR <==> e1.doorState != CLOSED))
      && (!ImpoliteReopen(floors, e1, time) && e1.doorState == CLOSED ==> r == CloseDrClosed(calls, floors, e1))
  {
    var e1 := ChangeDoorState(e, CLOSED);
    if ImpoliteReopen(floors, e1, time) then (e1.(forcedOpen := true), OPENDR)
    else if e1.doorState == CLOSED then CloseDrClosed(calls, floors, e1)
    else (e1, CLOSEDR)
  }

  // ----------------------------------------------------------- door timing

  /** `k` consecutive OPENDR ticks. */
  function OpenDrRun(e: Elevator, k: nat): (r: (Elevator, State))
    requires 0 <= e.currFloor < |e.passByFloor| && k >= 1
    decreases k
  {
    var (e1, _) := CurrStateOpenDr(e);
    if k == 1 then CurrStateOpenDr(e) else OpenDrRun(e1, k - 1)
  }

  /** Door opening takes `doorTicks` ticks: from a door `d` steps open, the
      car stays in OPENDR for the next `Open(e) - d - 1` ticks and leaves it
      on exactly the tick the door is fully open; from a closed door that
      is `Open(e)` ticks. */
  lemma {:induction false} DoorOpensOnTime(e: Elevator, k: nat)
    requires 0 <= e.currFloor < |e.passByFloor|
    requires 0 <= e.doorState < Open(e) && 1 <= k <= Open(e) - e.doorState
    ensures OpenDrRun(e, k).0.doorState == e.doorState + k
    ensures OpenDrRun(e, k).1 == OPENDR <==> k < Open(e) - e.doorState
    ensures OpenDrRun(e, k).0.currFloor == e.currFloor && OpenDrRun(e, k).0.passByFloor == e.passByFloor
    decreases k
  {
    var e1 := CurrStateOpenDr(e).0;
    if k > 1 {
      DoorOpensOnTime(e1, k - 1);
    }
  }

  /** The car's line here cannot reopen the door: the car was already
      forced open, nobody waits in its line, or the head is polite. */
  predicate NoReopen(floors: seq<Floor>, e: Elevator)
    requires 0 <= e.currFloor < |floors|
  {
    e.forcedOpen || Queue(floors[e.currFloor], e.direction) == [] || Queue(floors[e.currFloor], e.direction)[0].polite
  }

  /** `k` consecutive CLOSEDR ticks, starting at `time`. */
  function CloseDrRun(calls: CallCache, floors: seq<Floor>, e: Elevator, time: int, k: nat): (r: (Elevator, State))
    requires 0 <= e.currFloor < |floors| && k >= 1
    decreases k
  {
    var (e1, _) := CurrStateCloseDr(calls, floors, e, time);
    if k == 1 || !(0 <= e1.currFloor < |floors|) then CurrStateCloseDr(calls, floors, e, time)
    else CloseDrRun(calls, floors, e1, time + 1, k - 1)
  }

  /** Door closing takes as many ticks as the door is open: with nothing to
      reopen it, the car stays in CLOSEDR until the door is fully closed and
      leaves it on exactly that tick; from a fully open door that is
      `Open(e)` ticks. */
  lemma {:induction false} DoorClosesOnTime(calls: CallCache, floors: seq<Floor>, e: Elevator, time: int, k: nat)
    requires 0 <= e.currFloor < |floors| && NoReopen(floors, e)
    requires 0 < e.doorState <= Open(e) && 1 <= k <= e.doorState
    ensures CloseDrRun(calls, floors, e, time, k).0.doorState == e.doorState - k
    ensures CloseDrRun(calls, floors, e, time, k).1 == CLOSEDR <==> k < e.doorState
    decreases k
  {
    var e1 := ChangeDoorState(e, CLOSED);
    assert e1 == CloseDoor(e);
    assert !ImpoliteReopen(floors, e1, time);
    if k > 1 {
      assert CurrStateCloseDr(calls, floors, e, time) == (e1, CLOSEDR);
      DoorClosesOnTime(calls, floors, e1, time + 1, k - 1);
    } else if e1.doorState == CLOSED {
      var r := CloseDrClosed(calls, floors, e1);
      assert r.0.doorState == e1.doorState;
    }
  }

  // ---------------------------------------------------------------- MV1FLR

  /** Travels one floor. On arrival: open if somebody aboard gets out here or
      waits here in the car's direction; an otherwise empty car stops when
      the cache reports no call and reverses and opens when it should change
      direction; else travel on. Arriving outside the building is the
      source's out-of-bounds floor access. */
  function CurrStateMv1Flr(calls: CallCache, floors: seq<Floor>, e: Elevator): (r: Result<(Elevator, State), Failure>)
    requires e.cfg.ticksPerFloor > 0 && |e.passByFloor| == |floors|
    ensures var e1 := MoveElevator(e);
      && (r.Err? <==> e1.currFloor == e1.prevFloor + e1.direction && !(0 <= e1.currFloor < |floors|))
      && (r.Ok? ==> r.value.1 in {MV1FLR, OPENDR, STOP})
      && (r.Ok? ==> r.value.0 == e1 || (r.value.0 == ChangeDirection(e1) && IsEmpty(e1) && r.value.1 == OPENDR))
      && (r.Ok? && e1.currFloor != e1.prevFloor + e1.direction ==> r.value == (e1, MV1FLR))
  {
    var e1 := MoveElevator(e);
    if e1.currFloor != e1.prevFloor + e1.direction then Ok((e1, MV1FLR))
    else if !(0 <= e1.currFloor < |floors|) then Err(FloorOutOfRange)
    else
      var floor := e1.currFloor;
      if PassengersToOffload(e1, floor) || CallsPendingOnFloor(floors, floor, e1.direction) then Ok((e1, OPENDR))
      else if IsEmpty(e1) then
        if !CallPending(calls) then Ok((e1, STOP))
        else if ShouldChangeDir(floors, floor, e1.direction) then Ok((ChangeDirection(e1), OPENDR))
        else Ok((e1, MV1FLR))
      else Ok((e1, MV1FLR))
  }

  /** On arrival at a floor inside the building: open for anybody getting
      out or waiting here in the car's direction; else an empty car stops
      when no call is pending, reverses and opens when it should change
      direction; otherwise travel on. */
  lemma Mv1FlrArrival(calls: CallCache, floors: seq<Floor>, e: Elevator)
    requires e.cfg.ticksPerFloor > 0 && |e.passByFloor| == |floors|
    ensures var r := CurrStateMv1Flr(calls, floors, e);
      var e1 := MoveElevator(e); var f := e1.currFloor;
      r.Ok? && f == e1.prevFloor + e1.direction ==>
        if e1.passByFloor[f] != [] || Queue(floors[f], e1.direction) != [] then r.value == (e1, OPENDR)
        else if IsEmpty(e1) && !CallPending(calls) then r.value == (e1, STOP)
        else if IsEmpty(e1) && ShouldChangeDir(floors, f, e1.direction) then r.value == (ChangeDirection(e1), OPENDR)
        else r.value == (e1, MV1FLR)
  {
  }

  // -------------------------------------------------------------- dispatch

  /** Runs the handler of the car's current state against the building. */
  function Dispatch(b: Building, e: Elevator, time: int): (r: Result<Tick, Failure>)
    requires WorldOk(b) && ElevatorOk(e, b.numFloors)
    ensures r.Err? ==> e.currState in {STOP, MV1FLR}
    ensures r.Ok? ==> |r.value.floors| == |b.floors|
  {
    match e.currState
    case STOP =>
      (match CurrStateStop(b.calls, b.floors, e)
       case Err(x) => Err(x)
       case Ok((l, s)) => Ok(Tick(l, b.floors, b.passSuccess, b.gaveUp, s)))
    case MVTOFLR =>
      var (l, s) := CurrStateMvToFlr(e);
      Ok(Tick(l, b.floors, b.passSuccess, b.gaveUp, s))
    case OPENDR =>
      var (l, s) := CurrStateOpenDr(e);
      Ok(Tick(l, b.floors, b.passSuccess, b.gaveUp, s))
    case OFFLD =>
      var (l, ps, s) := CurrStateOffLd(b.floors, b.passSuccess, e, time);
      Ok(Tick(l, b.floors, ps, b.gaveUp, s))
    case BOARD =>
      var (o, s) := CurrStateBoard(b.floors, b.gaveUp, e, time);
      Ok(Tick(o.lift, o.floors, b.passSuccess, o.gaveUp, s))
    case CLOSEDR =>
      var (l, s) := CurrStateCloseDr(b.calls, b.floors, e, time);
      Ok(Tick(l, b.floors, b.passSuccess, b.gaveUp, s))
    case MV1FLR =>
      (match CurrStateMv1Flr(b.calls, b.floors, e)
       case Err(x) => Err(x)
       case Ok((l, s)) => Ok(Tick(l, b.floors, b.passSuccess, b.gaveUp, s)))
  }
}
