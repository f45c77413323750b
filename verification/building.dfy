/** The building: the time-ordered arrival queue, the floors, the cars, the
    call cache and the two result ledgers, plus the state machine that
    drives every car one tick at a time. */
module Buildings {
  import opened Wrappers
  import opened Passengers
  import opened Floors
  import opened Elevators
  import opened Calls

  datatype Building = Building(
    numFloors: nat,
    passQ: seq<Group>,          // groups not yet arrived, in file order
    floors: seq<Floor>,
    elevators: seq<Elevator>,
    calls: CallCache,
    passSuccess: seq<Group>,    // groups delivered, in delivery order
    gaveUp: seq<Group>,         // groups that stopped waiting, in order
    ids: IdAllocator)

  /** The two run-time failures of the source, which surface as exceptions
      there: dereferencing a missing prioritised group, and indexing a floor
      outside the building after a move. */
  datatype Failure = NullPassenger | FloorOutOfRange

  /** The direction a group travels in, as the source computes it on admission. */
  function TravelDir(g: Group): (d: int)
    ensures d == UP || d == DOWN
    ensures d == DOWN <==> g.destFloor < g.onFloor
  {
    if g.destFloor < g.onFloor then DOWN else UP
  }

  // ---------------------------------------------------------------- setup

  /** A building with empty floors, empty ledgers, a reset id counter and
      `numElevators` identical new cars. */
  function NewBuilding(numFloors: nat, numElevators: nat, cfg: Config): (b: Building)
    ensures b.numFloors == numFloors && |b.floors| == numFloors && |b.elevators| == numElevators
    ensures b.passQ == [] && b.passSuccess == [] && b.gaveUp == [] && b.ids.next == 0
    ensures forall i :: 0 <= i < numFloors ==> b.floors[i] == EmptyFloor()
    ensures forall k :: 0 <= k < numElevators ==> b.elevators[k] == NewElevator(numFloors, cfg)
    ensures b.calls == NewCallManager(numFloors)
  {
    Building(numFloors, [], seq(numFloors, i => EmptyFloor()),
             seq(numElevators, k => NewElevator(numFloors, cfg)),
             NewCallManager(numFloors), [], [], ResetStaticID())
  }

  /** Appends one group, numbered by the building's counter, to the arrival queue. */
  function AddPassengersToQueue(b: Building, x: Arrival): (r: Building)
    ensures r.passQ == b.passQ + [FromArrival(b.ids, x).0]
    ensures r.ids.next == b.ids.next + 1
    ensures r == b.(passQ := r.passQ, ids := r.ids)
  {
    var (g, ids) := FromArrival(b.ids, x);
    b.(passQ := b.passQ + [g], ids := ids)
  }

  /** Appends the groups of a passenger file, one per line, in file order. */
  function LoadPassengers(b: Building, xs: seq<Arrival>): (r: Building)
    ensures |r.passQ| == |b.passQ| + |xs| && r.passQ[..|b.passQ|] == b.passQ
    ensures r.ids.next == b.ids.next + |xs|
    ensures r == b.(passQ := r.passQ, ids := r.ids)
    decreases |xs|
  {
    if |xs| == 0 then b else LoadPassengers(AddPassengersToQueue(b, xs[0]), xs[1..])
  }

  /** Loading a file appends exactly the groups created from it, in file
      order, numbered consecutively from the counter; nothing else changes. */
  lemma {:induction false} LoadPassengersQueue(b: Building, xs: seq<Arrival>)
    ensures LoadPassengers(b, xs).passQ == b.passQ + NewGroups(b.ids, xs).0
    ensures LoadPassengers(b, xs).ids == NewGroups(b.ids, xs).1
    ensures LoadPassengers(b, xs) == b.(passQ := LoadPassengers(b, xs).passQ, ids := LoadPassengers(b, xs).ids)
    decreases |xs|
  {
    if |xs| > 0 {
      var b' := AddPassengersToQueue(b, xs[0]);
      LoadPassengersQueue(b', xs[1..]);
      assert b.passQ + [FromArrival(b.ids, xs[0]).0] + NewGroups(b'.ids, xs[1..]).0
          == b.passQ + ([FromArrival(b.ids, xs[0]).0] + NewGroups(b'.ids, xs[1..]).0);
    }
  }

  /** In a new building the loaded groups are numbered 0, 1, 2, ... in file order. */
  lemma LoadedIdsFromZero(numFloors: nat, numElevators: nat, cfg: Config, xs: seq<Arrival>)
    ensures var q := LoadPassengers(NewBuilding(numFloors, numElevators, cfg), xs).passQ;
      |q| == |xs| && forall k :: 0 <= k < |xs| ==> q[k].id == k
  {
    LoadPassengersQueue(NewBuilding(numFloors, numElevators, cfg), xs);
    IdsAfterReset(xs);
  }

  // ------------------------------------------------------------ admission

  /** How many groups at the head of the queue are due at `time`. */
  function DuePrefix(passQ: seq<Group>, time: int): (k: nat)
    ensures k <= |passQ|
    ensures forall j :: 0 <= j < k ==> passQ[j].time == time
    ensures k < |passQ| ==> passQ[k].time != time
    decreases |passQ|
  {
    if |passQ| == 0 || passQ[0].time != time then 0 else 1 + DuePrefix(passQ[1..], time)
  }

  /** The groups of `ps`, in order, that join floor `i`'s line of direction `dir`. */
  function Joining(ps: seq<Group>, i: int, dir: int): (r: seq<Group>)
    ensures forall g :: g in r <==> g in ps && g.onFloor == i && TravelDir(g) == dir
    decreases |ps|
  {
    if |ps| == 0 then []
    else (if ps[0].onFloor == i && TravelDir(ps[0]) == dir then [ps[0]] else []) + Joining(ps[1..], i, dir)
  }

  /** Moves the groups due at `time` from the head of the queue to the tail
      of their origin floor's line, in queue order; the rest of the queue is
      left as it was. */
  function Admit(passQ: seq<Group>, floors: seq<Floor>, time: int): (r: (seq<Group>, seq<Floor>))
    requires forall g :: g in passQ ==> 0 <= g.onFloor < |floors|
    ensures |r.1| == |floors|
    ensures r.0 == passQ[DuePrefix(passQ, time)..]
    decreases |passQ|
  {
    if |passQ| == 0 || passQ[0].time != time then (passQ, floors)
    else
      var p := passQ[0];
      var floors' := floors[p.onFloor := Add(floors[p.onFloor], TravelDir(p), p)];
      assert forall g :: g in passQ[1..] ==> g in passQ;
      Admit(passQ[1..], floors', time)
  }

  /** Each line gains exactly the due groups that belong to it, in queue
      order, behind the groups already waiting there. */
  lemma {:induction false} AdmitLines(passQ: seq<Group>, floors: seq<Floor>, time: int, i: int, dir: int)
    requires forall g :: g in passQ ==> 0 <= g.onFloor < |floors|
    requires 0 <= i < |floors| && (dir == UP || dir == DOWN)
    ensures Queue(Admit(passQ, floors, time).1[i], dir)
         == Queue(floors[i], dir) + Joining(passQ[..DuePrefix(passQ, time)], i, dir)
    decreases |passQ|
  {
    var k := DuePrefix(passQ, time);
    if k > 0 {
      var p := passQ[0];
      var floors' := floors[p.onFloor := Add(floors[p.onFloor], TravelDir(p), p)];
      assert forall g :: g in passQ[1..] ==> g in passQ;
      assert Admit(passQ, floors, time) == Admit(passQ[1..], floors', time);
      AdmitLines(passQ[1..], floors', time, i, dir);
      var due := passQ[..k];
      var due' := passQ[1..][..DuePrefix(passQ[1..], time)];
      assert due[1..] == due' && due[0] == p;
      var step := if p.onFloor == i && TravelDir(p) == dir then [p] else [];
      assert Joining(due, i, dir) == step + Joining(due', i, dir);
      assert Queue(floors'[i], dir) == Queue(floors[i], dir) + step;
      SeqAssoc(Queue(floors[i], dir), step, Joining(due', i, dir));
    }
  }

  /** Admission moves ids from the arrival queue to the floors and loses none. */
  lemma {:induction false} AdmitIds(passQ: seq<Group>, floors: seq<Floor>, time: int)
    requires forall g :: g in passQ ==> 0 <= g.onFloor < |floors|
    ensures var r := Admit(passQ, floors, time);
      IdsOf(r.0) + FloorIds(r.1) == IdsOf(passQ) + FloorIds(floors)
    decreases |passQ|
  {
    if |passQ| > 0 && passQ[0].time == time {
      var p := passQ[0];
      var dir := TravelDir(p);
      var f' := Add(floors[p.onFloor], dir, p);
      var floors' := floors[p.onFloor := f'];
      assert forall g :: g in passQ[1..] ==> g in passQ;
      AdmitIds(passQ[1..], floors', time);
      FloorIdsUpdate(floors, p.onFloor, f');
      AddIds(floors[p.onFloor], dir, p);
      assert IdsOf(passQ) == multiset{p.id} + IdsOf(passQ[1..]);
      var q, fl, fl', l := IdsOf(passQ[1..]), FloorIds(floors), FloorIds(floors'), LineIds(floors[p.onFloor]);
      assert fl' + l == fl + (l + multiset{p.id});
      assert fl' + l == (fl + multiset{p.id}) + l;
      MultisetCancel(fl', fl + multiset{p.id}, l);
    }
  }

  /** Admission keeps every floor well-formed when the queued groups are valid. */
  lemma {:induction false} AdmitKeepsFloorsOk(passQ: seq<Group>, floors: seq<Floor>, time: int)
    requires FloorsOk(floors, |floors|)
    requires forall g :: g in passQ ==> ValidGroup(g, |floors|)
    requires forall g :: g in passQ ==> 0 <= g.onFloor < |floors|
    ensures FloorsOk(Admit(passQ, floors, time).1, |floors|)
    ensures forall g :: g in Admit(passQ, floors, time).0 ==> ValidGroup(g, |floors|)
    decreases |passQ|
  {
    if |passQ| > 0 && passQ[0].time == time {
      var p := passQ[0];
      var dir := TravelDir(p);
      assert p in passQ;
      AddKeepsFloorOk(floors[p.onFloor], p.onFloor, |floors|, dir, p);
      var floors' := floors[p.onFloor := Add(floors[p.onFloor], dir, p)];
      assert FloorsOk(floors', |floors|);
      assert forall g :: g in passQ[1..] ==> g in passQ;
      AdmitKeepsFloorsOk(passQ[1..], floors', time);
    }
  }

  /** Admits the groups due at `time`, then refreshes the call cache. */
  function CheckPassengerQueue(b: Building, time: int): (r: Building)
    requires forall g :: g in b.passQ ==> 0 <= g.onFloor < |b.floors|
    ensures Fresh(r.calls, r.floors)
    ensures (r.passQ, r.floors) == Admit(b.passQ, b.floors, time)
    ensures r == b.(passQ := r.passQ, floors := r.floors, calls := r.calls)
  {
    var (q, fl) := Admit(b.passQ, b.floors, time);
    b.(passQ := q, floors := fl, calls := UpdateCallStatus(fl))
  }

  /** Admission loses and invents no group. */
  lemma CheckPassengerQueueIds(b: Building, time: int)
    requires forall g :: g in b.passQ ==> 0 <= g.onFloor < |b.floors|
    ensures AllIds(CheckPassengerQueue(b, time)) == AllIds(b)
  {
    var r := CheckPassengerQueue(b, time);
    AdmitIds(b.passQ, b.floors, time);
    assert IdsOf(r.passQ) + FloorIds(r.floors) == IdsOf(b.passQ) + FloorIds(b.floors);
  }

  // ------------------------------------------------------------ end of run

  /** A car that has finished: empty, and stopped in this and the previous tick. */
  predicate Idle(e: Elevator) {
    IsEmpty(e) && e.currState == STOP && e.prevState == STOP
  }

  function AllIdleFrom(elevators: seq<Elevator>, k: nat): (r: bool)
    requires k <= |elevators|
    ensures r <==> forall j :: k <= j < |elevators| ==> Idle(elevators[j])
    decreases |elevators| - k
  {
    if k == |elevators| then true else Idle(elevators[k]) && AllIdleFrom(elevators, k + 1)
  }

  /** The run is over exactly when nobody is left to arrive, every car is
      idle, and nobody waits on any floor. */
  function EndSim(b: Building): (r: bool)
    ensures r <==> && b.passQ == []
                   && (forall k :: 0 <= k < |b.elevators| ==> Idle(b.elevators[k]))
                   && !AnyLiveCall(b.floors)
  {
    |b.passQ| == 0 && AllIdleFrom(b.elevators, 0) && !ScanUp(b.floors, 0)
  }

  // ------------------------------------------------------------ invariants

  /** The shared parts every tick relies on: at least one floor, every floor
      well-formed, and one cached flag per floor in each direction. */
  ghost predicate WorldOk(b: Building) {
    && b.numFloors >= 1
    && FloorsOk(b.floors, b.numFloors)
    && |b.calls.upCalls| == b.numFloors
    && |b.calls.downCalls| == b.numFloors
  }

  /** The building invariant: the shared parts are well-formed, every car is,
      and every group still to arrive is a valid group of this building. */
  ghost predicate BuildingOk(b: Building) {
    && WorldOk(b)
    && (forall k :: 0 <= k < |b.elevators| ==> ElevatorOk(b.elevators[k], b.numFloors))
    && (forall g :: g in b.passQ ==> ValidGroup(g, b.numFloors))
  }

  /** The ids aboard the cars, car by car. */
  function CarIds(elevators: seq<Elevator>): multiset<nat>
    decreases |elevators|
  {
    if |elevators| == 0 then multiset{} else ManifestIds(elevators[0].passByFloor) + CarIds(elevators[1..])
  }

  /** Every id the building knows of, wherever the group currently is. */
  function AllIds(b: Building): multiset<nat> {
    IdsOf(b.passQ) + FloorIds(b.floors) + CarIds(b.elevators) + IdsOf(b.passSuccess) + IdsOf(b.gaveUp)
  }

  lemma {:induction false} CarIdsUpdate(elevators: seq<Elevator>, k: int, e: Elevator)
    requires 0 <= k < |elevators|
    ensures CarIds(elevators[k := e]) + ManifestIds(elevators[k].passByFloor)
         == CarIds(elevators) + ManifestIds(e.passByFloor)
    decreases |elevators|
  {
    var es := elevators[k := e];
    if k > 0 {
      assert es[1..] == elevators[1..][k - 1 := e];
      assert elevators[1..][k - 1] == elevators[k];
      CarIdsUpdate(elevators[1..], k - 1, e);
      assert CarIds(es) == ManifestIds(elevators[0].passByFloor) + CarIds(es[1..]);
      assert CarIds(elevators) == ManifestIds(elevators[0].passByFloor) + CarIds(elevators[1..]);
      MultisetShuffle(ManifestIds(elevators[0].passByFloor), CarIds(es[1..]), CarIds(elevators[1..]),
                      ManifestIds(elevators[k].passByFloor), ManifestIds(e.passByFloor));
    } else {
      assert es[1..] == elevators[1..];
    }
  }

  /** A new building satisfies the invariant, holds no ids, and has already ended. */
  lemma NewBuildingOk(numFloors: nat, numElevators: nat, cfg: Config)
    requires numFloors >= 1 && ValidConfig(cfg)
    ensures BuildingOk(NewBuilding(numFloors, numElevators, cfg))
    ensures AllIds(NewBuilding(numFloors, numElevators, cfg)) == multiset{}
    ensures EndSim(NewBuilding(numFloors, numElevators, cfg))
  {
    var b := NewBuilding(numFloors, numElevators, cfg);
    FloorIdsEmpty(b.floors);
    NoCarIds(b.elevators);
  }

  lemma {:induction false} NoCarIds(elevators: seq<Elevator>)
    requires forall k :: 0 <= k < |elevators| ==> forall f :: 0 <= f < |elevators[k].passByFloor| ==> elevators[k].passByFloor[f] == []
    ensures CarIds(elevators) == multiset{}
    decreases |elevators|
  {
    if |elevators| > 0 {
      NoManifestIds(elevators[0].passByFloor);
      assert forall k :: 1 <= k < |elevators| ==> elevators[k] == elevators[1..][k - 1];
      NoCarIds(elevators[1..]);
    }
  }
}
