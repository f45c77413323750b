/** The simulation driver: the step counter, one step of the whole building,
    and the two read-outs of the first car. */
module Controller {
  import opened Wrappers
  import opened Passengers
  import opened Floors
  import opened Elevators
  import opened Calls
  import opened Buildings
  import opened States
  import opened Stepping

  /** The driver's state: the building, the number of steps taken, and
      whether the end of the run has been seen. */
  datatype Sim = Sim(building: Building, stepCnt: int, ended: bool)

  /** A new driver around a building, before the first step. */
  function NewSim(b: Building): Sim {
    Sim(b, 0, false)
  }

  /** One step: count it; if the run is over, mark the end and leave the
      building alone; otherwise admit the groups due at the new count,
      refresh the call cache, and run every car once, in order. */
  function StepSim(s: Sim): (r: Result<Sim, Failure>)
    requires BuildingOk(s.building)
    ensures r.Ok? ==> r.value.stepCnt == s.stepCnt + 1
    ensures r.Ok? ==> (r.value.ended <==> EndSim(s.building))
    ensures EndSim(s.building) ==> r == Ok(Sim(s.building, s.stepCnt + 1, true))
    ensures r.Err? <==> !EndSim(s.building) && AdmitAndRun(s.building, s.stepCnt + 1).Err?
  {
    var t := s.stepCnt + 1;
    if EndSim(s.building) then Ok(Sim(s.building, t, true))
    else
      var r := AdmitAndRun(s.building, t);
      if r.Ok? then Ok(Sim(r.value, t, false)) else Err(r.error)
  }

  /** The building after admission at `time`, which keeps the invariant. */
  function Admitted(b: Building, time: int): (r: Building)
    requires BuildingOk(b)
    ensures BuildingOk(r) && Fresh(r.calls, r.floors)
    ensures r == CheckPassengerQueue(b, time)
  {
    AdmitKeepsFloorsOk(b.passQ, b.floors, time);
    var r := CheckPassengerQueue(b, time);
    assert forall g :: g in r.passQ ==> g in b.passQ;
    r
  }

  /** `r` keeps the invariant and every group of `b`, and its ledgers
      extend those of `b`. */
  ghost predicate Keeps(b: Building, r: Building) {
    && BuildingOk(r) && AllIds(r) == AllIds(b)
    && Extends(r.passSuccess, b.passSuccess) && Extends(r.gaveUp, b.gaveUp)
  }

  lemma KeepsTrans(a: Building, b: Building, c: Building)
    requires Keeps(a, b) && Keeps(b, c)
    ensures Keeps(a, c)
  {
    ExtendsTrans(c.passSuccess, b.passSuccess, a.passSuccess);
    ExtendsTrans(c.gaveUp, b.gaveUp, a.gaveUp);
  }

  /** The body of a step that is not the end: admission at `time`, then
      every car once, in order. */
  function AdmitAndRun(b: Building, time: int): Result<Building, Failure>
    requires BuildingOk(b)
  {
    UpdateElevators(Admitted(b, time), time, 0)
  }

  /** The cars run against the building as admission left it at that same
      count: a successful run keeps the invariant and every id of that
      building, leaves its arrival queue, call cache and configuration
      alone, and its new ledger entries are stamped with, or gave up
      before, that count. */
  lemma AdmitAndRunOk(b: Building, time: int)
    requires BuildingOk(b)
    ensures var r := AdmitAndRun(b, time);
      r.Ok? ==> StepOk(Admitted(b, time), r.value, time)
  {
    UpdateElevatorsOk(Admitted(b, time), time, 0);
  }

  /** A step that is not the end admits at the new count and runs the cars
      on exactly that building, with that count as their time. */
  lemma StepSimCars(s: Sim)
    requires BuildingOk(s.building)
    ensures var t := s.stepCnt + 1;
      forall b2 :: StepSim(s) == Ok(Sim(b2, t, false)) ==> StepOk(Admitted(s.building, t), b2, t)
  {
    if !EndSim(s.building) {
      AdmitAndRunOk(s.building, s.stepCnt + 1);
    }
  }

  /** A step that does not end the run yields the building admission and
      the cars' tick produce. */
  lemma StepSimBuilding(s: Sim)
    requires BuildingOk(s.building)
    ensures var t := s.stepCnt + 1;
      forall b2 :: StepSim(s) == Ok(Sim(b2, t, false)) ==> AdmitAndRun(s.building, t) == Ok(b2)
  {
  }

  /** A successful step keeps the building invariant, loses and invents no
      group, and only appends to the two ledgers. */
  lemma StepSimOk(s: Sim)
    requires BuildingOk(s.building)
    ensures var r := StepSim(s);
      r.Ok? ==> Keeps(s.building, r.value.building)
  {
    var t := s.stepCnt + 1;
    var b := s.building;
    if !EndSim(b) {
      var b1 := Admitted(b, t);
      CheckPassengerQueueIds(b, t);
      UpdateElevatorsOk(b1, t, 0);
      var u := UpdateElevators(b1, t, 0);
      if u.Ok? {
        assert StepOk(b1, u.value, t);
        assert b1.passSuccess == b.passSuccess && b1.gaveUp == b.gaveUp;
      }
    } else {
      KeepsSelf(b);
    }
  }

  /** With a single car, a step never dereferences a missing pick: admission
      refreshes the cache and the only car reads it before anything else
      changes the lines. */
  lemma SingleCarNeverNull(s: Sim)
    requires BuildingOk(s.building) && |s.building.elevators| == 1
    ensures StepSim(s) != Err(NullPassenger)
  {
  }

  /** A run: consecutive driver states, each the successful step of the one
      before whenever that one is well-formed. */
  ghost predicate IsRun(trace: seq<Sim>) {
    && |trace| >= 1
    && forall i {:trigger StepSim(trace[i])} :: 0 <= i < |trace| - 1 ==>
         (BuildingOk(trace[i].building) ==> StepSim(trace[i]) == Ok(trace[i + 1]))
  }

  /** One link of a run: a well-formed state steps to its successor. */
  lemma RunStep(trace: seq<Sim>, i: nat)
    requires IsRun(trace) && i + 1 < |trace| && BuildingOk(trace[i].building)
    ensures StepSim(trace[i]) == Ok(trace[i + 1])
  {
  }

  /** Along a run from a well-formed building every state is well-formed, no
      group is lost or invented, and the ledgers only grow. */
  lemma RunOk(trace: seq<Sim>)
    requires IsRun(trace) && BuildingOk(trace[0].building)
    ensures Keeps(trace[0].building, trace[|trace| - 1].building)
  {
    RunStepsKeep(trace);
    KeepsUpTo(trace, |trace| - 1);
  }

  /** Every link of a trace whose steps each keep the invariant. */
  ghost predicate StepsKeep(trace: seq<Sim>) {
    forall i :: 0 <= i < |trace| - 1 && BuildingOk(trace[i].building) ==>
      Keeps(trace[i].building, trace[i + 1].building)
  }

  lemma RunStepsKeep(trace: seq<Sim>)
    requires IsRun(trace)
    ensures StepsKeep(trace)
  {
    forall i | 0 <= i < |trace| - 1 && BuildingOk(trace[i].building)
      ensures Keeps(trace[i].building, trace[i + 1].building)
    {
      RunStep(trace, i);
      StepSimOk(trace[i]);
    }
  }

  lemma {:induction false} KeepsUpTo(trace: seq<Sim>, n: nat)
    requires StepsKeep(trace) && |trace| >= 1 && BuildingOk(trace[0].building) && n < |trace|
    ensures Keeps(trace[0].building, trace[n].building)
    decreases n
  {
    if n == 0 {
      KeepsSelf(trace[0].building);
    } else {
      KeepsUpTo(trace, n - 1);
      KeepsTrans(trace[0].building, trace[n - 1].building, trace[n].building);
    }
  }

  lemma StepSimKeepsOk(s: Sim)
    requires BuildingOk(s.building)
    ensures StepSim(s).Ok? ==> BuildingOk(StepSim(s).value.building)
  {
    StepSimOk(s);
  }

  lemma KeepsSelf(b: Building)
    requires BuildingOk(b)
    ensures Keeps(b, b)
  {
    assert b.passSuccess[..|b.passSuccess|] == b.passSuccess;
    assert b.gaveUp[..|b.gaveUp|] == b.gaveUp;
  }

  /** At the end of a run every group is in exactly one ledger: nobody is
      left to arrive, waiting, or aboard. */
  lemma EndAccountsForAll(b: Building)
    requires BuildingOk(b) && EndSim(b)
    ensures AllIds(b) == IdsOf(b.passSuccess) + IdsOf(b.gaveUp)
  {
    forall i | 0 <= i < |b.floors| ensures b.floors[i].up == [] && b.floors[i].down == [] {
      assert !HasAnyCall(b.floors[i]);
    }
    FloorIdsEmpty(b.floors);
    forall k | 0 <= k < |b.elevators|
      ensures forall f :: 0 <= f < |b.elevators[k].passByFloor| ==> b.elevators[k].passByFloor[f] == []
    {
      EmptyIffNoManifest(b.elevators[k], b.numFloors);
    }
    NoCarIds(b.elevators);
  }

  /** A run from a freshly loaded building that reaches the end has
      delivered or lost every group of the passenger file, each exactly
      once. */
  lemma RunDeliversEveryGroup(numFloors: nat, numElevators: nat, cfg: Config, xs: seq<Arrival>, trace: seq<Sim>)
    requires numFloors >= 1 && ValidConfig(cfg)
    requires forall x :: x in xs ==> ValidArrival(x, numFloors)
    requires IsRun(trace) && trace[0] == NewSim(LoadPassengers(NewBuilding(numFloors, numElevators, cfg), xs))
    requires EndSim(trace[|trace| - 1].building)
    ensures var last := trace[|trace| - 1].building;
      IdsOf(last.passSuccess) + IdsOf(last.gaveUp) == IdsOf(trace[0].building.passQ)
  {
    var b0 := NewBuilding(numFloors, numElevators, cfg);
    var s := trace[0];
    NewBuildingOk(numFloors, numElevators, cfg);
    LoadPassengersQueue(b0, xs);
    NewGroupsValid(b0.ids, xs, numFloors);
    assert BuildingOk(s.building);
    FloorIdsEmpty(b0.floors);
    NoCarIds(b0.elevators);
    assert AllIds(s.building) == IdsOf(s.building.passQ);
    RunOk(trace);
    EndAccountsForAll(trace[|trace| - 1].building);
  }

  /** An empty passenger file ends the run on the first step. */
  lemma EmptyRunEndsAtOnce(numFloors: nat, numElevators: nat, cfg: Config)
    requires numFloors >= 1 && ValidConfig(cfg)
    ensures var b := NewBuilding(numFloors, numElevators, cfg);
      BuildingOk(b) && StepSim(NewSim(b)) == Ok(Sim(b, 1, true))
  {
    NewBuildingOk(numFloors, numElevators, cfg);
  }

  /** The floor of the first car, which is always inside the building. */
  function GetCurrentFloor(s: Sim): (r: int)
    requires BuildingOk(s.building) && |s.building.elevators| >= 1
    ensures 0 <= r < s.building.numFloors
  {
    s.building.elevators[0].currFloor
  }

  /** The people aboard the first car: the total of its manifest, within
      capacity, and zero exactly when nobody is filed under any floor. */
  function GetNumPassengersOnElevator(s: Sim): (r: int)
    requires BuildingOk(s.building) && |s.building.elevators| >= 1
    ensures var e := s.building.elevators[0];
      && 0 <= r <= e.cfg.capacity
      && r == Load(e.passByFloor)
      && (r == 0 <==> forall f :: 0 <= f < s.building.numFloors ==> e.passByFloor[f] == [])
  {
    EmptyIffNoManifest(s.building.elevators[0], s.building.numFloors);
    s.building.elevators[0].passengers
  }
}
