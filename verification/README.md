# ElevatorFSM dispatch engine in Dafny

A model of the tick-driven dispatch engine of the ElevatorFSM simulator. It covers:

- The elevator record with its counters: movement, door, boarding and offloading.
- The capacity-checked `board`, and the per-destination manifest emptied in one batch by `offload`.
- The two FIFO lines on every floor, and the passenger-group record.
- The call manager. It keeps up/down flags cached between admissions, answers live direction queries, and applies the two-level pick policy: the car's own floor first, then the building.
- The building. It admits due groups into the floor lines and runs the seven per-state handlers of every car (STOP, MVTOFLR, OPENDR, OFFLD, BOARD, CLOSEDR, MV1FLR). It keeps the ledgers of delivered groups and of groups that gave up, and it detects the end of the run.
- The controller's step: count the tick, test for the end, admit, then run every car in order.

Everything is a pure function over immutable records. A Java mutation becomes a function that returns the new record. The one exception the engine can raise, a dereference of a `null` pick, becomes the `NullPassenger` failure of a `Result`. So does a car driven off the building, `FloorOutOfRange`. The source's statics are explicit here: the id counter is an `IdAllocator` threaded through group creation, and the door's open threshold is the configured `doorTicks`.

Modules, one file each, in dependency order:

- `Wrappers`: `Option` and `Result`.
- `Text`: integer printing, comma joining and splitting, for `queueString`.
- `Passengers`: groups, id allocation, id and head-count sums.
- `Floors`: a floor's two lines.
- `Elevators`: a car and its primitives.
- `Calls`: the call cache and the queries.
- `Buildings`: the building, admission, end of run and the building invariant.
- `States`: the seven handlers.
- `Stepping`: one car at a time, then all cars, with the preservation proofs.
- `Controller`: the driver step, runs, and the two read-outs.
- `Progress`: the single-car invariant that keeps a travelling car inside the building.

The main results:

- `Controller.StepSimOk` and `Controller.RunOk`. Along any run from a well-formed building, each of the following holds:
  - every car's occupant count equals the total of its manifest and stays within capacity;
  - every waiting group sits on its origin floor in the line of its travel direction;
  - no group id is lost or duplicated across the five places a group can be (still to arrive, waiting, aboard, delivered, gave up);
  - the two ledgers only grow.
- `Controller.RunDeliversEveryGroup`. A run from a freshly loaded building that reaches the end has put every group of the passenger file in exactly one ledger.
- `Controller.SingleCarNeverNull` and `Stepping.UpdateOne`. With a fresh call cache the STOP handler never dereferences a missing pick.
- `Progress.RunNeverFails`. In a one-car building loaded from a valid passenger file, no step ever fails. The car never travels past the top or bottom floor. The invariant behind this is `Progress.Heading`: a car travelling floor by floor always has a waiting group or a destination strictly ahead, and nobody aboard is bound for a floor behind it.

## Model

| member | source | states |
|---|---|---|
| Passengers.ResetStaticID | src/building/Passengers.java:168-170 | after a reset the next id handed out is 0 |
| Passengers.NewGroup | src/building/Passengers.java:53-66 | a new group takes the next id and advances the counter by one; the 1-based floors are stored 0-based; both timestamps start at the -1 sentinel; the other fields are as given |
| Passengers.NewGroupsIds | src/building/Passengers.java:53-66 | groups created one after another get consecutive, pairwise distinct ids, starting at the counter's value, and the counter ends advanced by their number |
| Passengers.IdsAfterReset | src/building/Passengers.java:168-170 | after a reset, the k-th group created has id k |
| Passengers.ToStringShowsInputFloors | src/building/Passengers.java:179-181 | the printed form of a new group shows the 1-based floors it was created with, not the stored 0-based ones |
| Passengers.NewGroupsValid | src/building/Passengers.java:53-66 | lines with floors in range, origin different from destination and at least one person yield groups valid for the building |
| Passengers.StampArrived | src/building/Building.java:297-303 | delivered groups keep their order and length and differ from the input only in `timeArrived`, which becomes the given tick |
| Passengers.StampArrivedIds | src/building/Building.java:297-303 | stamping the arrival tick changes no id |
| Floors.Add | src/building/Floor.java:58-64 | the group joins the tail of the selected line; the other line is unchanged |
| Floors.Poll | src/building/Floor.java:74-80 | an empty line gives nothing and leaves the floor alone; otherwise the head comes out and the rest of the line stays in order; the other line is unchanged |
| Floors.Peek | src/building/Floor.java:103-108 | nothing exactly when the line is empty, else its head |
| Floors.Size | src/building/Floor.java:117-122 | the length of the selected line |
| Floors.Empty | src/building/Floor.java:89-94 | true exactly when the size is zero, that is when the line has no group |
| Floors.AddPollCommute | src/building/Floor.java:58-108 | on a non-empty line, an add then a poll hands out what a peek showed before and leaves the same floor as a poll then an add: a newcomer never overtakes anybody |
| Floors.AddAllQueue | src/building/Floor.java:58-64 | a series of adds appends the groups, in order, to the selected line |
| Floors.PollNDrains | src/building/Floor.java:74-80 | polling a line as many times as it is long returns the line in order and empties it |
| Floors.FifoOrder | src/building/Floor.java:58-80 | groups added to a line come out of it in the order they went in, after the ones already there |
| Floors.RenderIsJoin | src/building/Floor.java:135-147 | the printed line is the group sizes, in line order, separated by commas |
| Floors.QueueString | src/building/Floor.java:135-147 | the printed line is the group sizes joined by commas; splitting it at commas and reading the numbers gives back the group sizes in order; the text is empty exactly when the line is |
| Floors.ParseSizes | src/building/Floor.java:135-147 | every printed group size reads back as that size |
| Floors.FloorOkMembers | src/building/Building.java:549-555 | on a well-formed floor every group waits on its origin floor, and it is in the up line exactly when its destination is above |
| Floors.AddKeepsFloorOk | src/building/Building.java:553-554 | adding a valid group from this floor to the line of its travel direction keeps the floor well-formed |
| Floors.PollKeepsFloorOk | src/building/Floor.java:74-80 | removing a head keeps the floor well-formed |
| Floors.AddIds | src/building/Floor.java:58-64 | an add puts exactly one more id on the floor |
| Floors.PollIds | src/building/Floor.java:74-80 | a poll of a non-empty line takes exactly the head's id off the floor |
| Floors.FloorIdsUpdate | src/building/Floor.java:58-80 | replacing one floor changes the building's waiting ids by exactly that floor's difference |
| Floors.FloorIdsEmpty | src/building/Building.java:174-178 | no id waits anywhere exactly when every line of every floor is empty |
| Elevators.CeilDiv | src/building/Elevator.java:193 | the integer ceiling of `n / k`, the least `q` with `k * q >= n` |
| Elevators.LoadUpdate | src/building/Elevator.java:182-242 | replacing one destination's list changes the manifest's head-count by the difference of the two lists |
| Elevators.ManifestIdsUpdate | src/building/Elevator.java:182-242 | replacing one destination's list changes the manifest's ids by the difference of the two lists |
| Elevators.LoadZeroIffEmpty | src/building/Elevator.java:314-316 | with positive group sizes, the manifest's head-count is zero exactly when every list is empty |
| Elevators.NewElevator | src/building/Elevator.java:82-107 | a new car is STOP/STOP on floor 0 with the door closed and nobody aboard, one empty list per floor, boarding allowed and done, open threshold = `doorTicks`; with a valid configuration it satisfies the car invariant |
| Elevators.UpdateCurrState | src/building/Elevator.java:135-142 | the previous state becomes the old current state; the state clock restarts and boarding is re-allowed only when the state really changes; load, floor and direction are untouched |
| Elevators.UpdateReportsChange | src/building/Building.java:195-200 | a change of state is always reported as a change; staying in the same state on the same floor is not |
| Elevators.MoveElevator | src/building/Elevator.java:147-153 | the state clock advances by one and the old floor becomes the previous floor; the floor moves by the direction exactly when the new clock is a multiple of `ticksPerFloor`; nothing else changes |
| Elevators.MoveTiming | src/building/Elevator.java:147-153 | from a clock on a multiple of `ticksPerFloor`, the car changes floor after exactly `ticksPerFloor` moves and not before |
| Elevators.TickBoundary | src/building/Elevator.java:147-153 | from a multiple of `ticksPerFloor`, the clock reaches the next multiple on exactly the `ticksPerFloor`-th tick |
| Elevators.OpenDoor | src/building/Elevator.java:159-163 | the door counter rises by one and the previous floor becomes the current floor; nothing else changes |
| Elevators.CloseDoor | src/building/Elevator.java:168-172 | the door counter falls by one, the previous floor becomes the current floor and boarding is re-allowed; nothing else changes |
| Elevators.ChangeDoorState | src/building/Elevator.java:469-475 | a step toward the open threshold is an open step; any other target is a close step |
| States.DoorOpensOnTime | src/building/Building.java:277-291 | from a door that is not fully open the car stays in OPENDR until the door counter reaches the open value and leaves it on exactly that tick; from a closed door that takes `doorTicks` ticks |
| States.DoorClosesOnTime | src/building/Building.java:475-498 | with nobody here able to force the door open, the car stays in CLOSEDR until the door counter reaches zero and leaves it on exactly that tick; from a fully open door that takes `doorTicks` ticks |
| Elevators.Board | src/building/Elevator.java:182-197 | boarding succeeds exactly when the group fits within capacity. A failure only clears `canBoard`. A success files the group under its destination, adds its size to the count and to the boarding total, and sets the time needed to the ceiling of total over rate. Position and door are unchanged |
| Elevators.BoardKeepsOccupancy | src/building/Elevator.java:182-197 | boarding keeps the count equal to the manifest's total and within capacity, and a success adds exactly the group's id to the manifest |
| Elevators.BoardKeepsCar | src/building/Elevator.java:182-197 | boarding a valid group keeps the car invariant |
| Elevators.FileKeepsManifestOk | src/building/Elevator.java:182-197 | filing a valid group under its own destination keeps every list holding only valid groups bound for that list's floor |
| Elevators.KeepBoarding | src/building/Elevator.java:204-217 | the clock advances by one; boarding is done exactly when the clock reaches the time needed, and then the total resets to 0 and boarding is re-allowed |
| Elevators.BoardingFinishesOnTime | src/building/Elevator.java:204-217 | from a clock below the time needed, boarding is reported done on exactly the tick the clock reaches it |
| Elevators.Offload | src/building/Elevator.java:225-242 | the batch is exactly this floor's list, which is emptied. The count falls by the batch's size, the time needed is the ceiling of size over rate, and the clock advances by one. Offloading is done exactly when the clock reaches the time needed |
| Elevators.KeepOffloading | src/building/Elevator.java:250-261 | the clock advances by one and offloading is done exactly when it reaches the time needed; nothing else changes |
| Elevators.OffloadKeepsOccupancy | src/building/Elevator.java:225-242 | the count stays equal to the manifest's total, and the manifest loses exactly the batch's ids |
| Elevators.OffloadFinishesOnTime | src/building/Elevator.java:225-261 | an offload followed by k - 1 continuations is done exactly when k is the ceiling of the batch's size over the rate |
| Elevators.ChangeDirection | src/building/Elevator.java:266-268 | the direction is negated and nothing else changes |
| States.OffLdReversalBoards | src/building/Building.java:328-341 | a car that reverses in OFFLD always boards next, because reversing needs somebody waiting here for the other direction |
| Elevators.PassengersToOffload | src/building/Elevator.java:277-279 | true exactly when somebody aboard is bound for that floor |
| Elevators.IsFull | src/building/Elevator.java:295-297 | true exactly when the count has reached capacity |
| Elevators.IsEmpty | src/building/Elevator.java:314-316 | true exactly when the count is zero |
| Elevators.EmptyIffNoManifest | src/building/Elevator.java:314-316 | for a well-formed car, empty exactly when no group is filed under any floor |
| Calls.NewCallManager | src/building/CallManager.java:45-54 | one up flag and one down flag per floor, all clear, and neither summary flag set |
| Calls.AnyCallFrom | src/building/CallManager.java:64-84 | true exactly when some line of the given direction on the given floor or above is non-empty |
| Calls.UpdateCallStatus | src/building/CallManager.java:64-84 | each floor's up and down flag is set exactly when that line is non-empty, and each summary flag exactly when some line of its direction is |
| Calls.CallPending | src/building/CallManager.java:179-184 | reads only the two cached summary flags |
| Calls.CallPendingIffLive | src/building/CallManager.java:179-184 | with a fresh cache, a call is pending exactly when somebody waits somewhere |
| Calls.StaleCacheMissesCall | src/building/CallManager.java:179-184 | a cache not refreshed since a group joined reports no call although one is waiting |
| Calls.CallsPendingOnFloor | src/building/CallManager.java:186-191 | true exactly when that floor's line of that direction is non-empty, read from the line itself |
| Calls.ScanUp | src/building/CallManager.java:223-238 | true exactly when some floor from the given one up has a waiting group |
| Calls.ScanDown | src/building/CallManager.java:223-238 | true exactly when some floor from the given one down has a waiting group |
| Calls.CallsPendingInDir | src/building/CallManager.java:223-238 | true exactly when some floor strictly ahead in the direction has a waiting group, in either line |
| Calls.ShouldChangeDir | src/building/CallManager.java:204-211 | true exactly when nobody waits on any floor strictly ahead and the opposite line on this floor is non-empty |
| Calls.WaitingEmpty | src/building/CallManager.java:277-297 | no group waits in a direction between two floors exactly when each of those lines is empty |
| Calls.CountUp | src/building/CallManager.java:277-283 | the number of up groups on the floors from the given one up |
| Calls.CountDown | src/building/CallManager.java:291-297 | the number of down groups on the floors below the given bound |
| Calls.NumUp | src/building/CallManager.java:277-283 | the number of groups, not people, in all up lines |
| Calls.NumDown | src/building/CallManager.java:291-297 | the number of groups, not people, in all down lines |
| Calls.NumUpAbove | src/building/CallManager.java:306-312 | the number of up groups on floors strictly above |
| Calls.NumDownBelow | src/building/CallManager.java:321-327 | the number of down groups on floors strictly below |
| Calls.NumCallPending | src/building/CallManager.java:246-253 | the number of groups waiting anywhere, both directions |
| Calls.NumCallPendingOn | src/building/CallManager.java:262-267 | the number of groups waiting on one floor; zero exactly when nobody waits there |
| Calls.CountZeroIffNoCall | src/building/CallManager.java:277-297 | a direction's group count over a range of floors is zero exactly when those lines are empty |
| Calls.LowestUp | src/building/CallManager.java:97-102 | when some up line is non-empty, the lowest floor whose up line is non-empty |
| Calls.HighestDown | src/building/CallManager.java:104-109 | when some down line is non-empty, the highest floor whose down line is non-empty |
| Calls.OtherFloorsChoice | src/building/CallManager.java:93-121 | the building-wide pick is empty exactly when nobody waits; otherwise it is a line head. More up groups pick the head of the lowest up line; more down groups pick the head of the highest down line; on a tie the nearer of those two floors wins, the up one at equal distance |
| Calls.PrioritizeOtherFloors | src/building/CallManager.java:93-121 | more up groups pick the head of the lowest up line, more down groups the head of the highest down line; on a tie the nearer of the two floors wins, the up line on equal distance |
| Calls.PickIsHead | src/building/CallManager.java:130-149 | whatever the prioritised pick is, it is the head of some line |
| Calls.PrioritizePassengerCalls | src/building/CallManager.java:130-149 | with only the up flag of the car's floor set, the pick is that floor's up head; with only the down flag, its down head; with both, the up head when at least as many up groups wait above as down groups below, else the down head; with neither, the building-wide pick |
| Calls.PrioritizeFresh | src/building/CallManager.java:130-149 | with a fresh cache the pick is empty exactly when nobody waits, and when somebody waits on the car's floor the pick is the head of one of that floor's lines |
| Calls.TieOnOwnFloorGoesUp | src/building/CallManager.java:130-149 | with both flags set on the car's floor, the up head wins when up groups strictly above and down groups strictly below are equal in number |
| Calls.StaleFlagGivesNoPick | src/building/CallManager.java:130-149 | a stale flag for the car's floor can make the pick empty while a group is waiting |
| Calls.GetPassenger | src/building/CallManager.java:160-162 | nothing exactly when no call is pending on that floor in that direction, else the head of that line |
| Buildings.TravelDir | src/building/Building.java:553 | DOWN exactly when the destination is below the origin, else UP |
| Buildings.NewBuilding | src/building/Building.java:91-134 | the floor lines, ledgers and arrival queue start empty; every car is a new car with the configuration; the cache is all clear; ids start at 0 |
| Buildings.NewBuildingOk | src/building/Building.java:91-134 | a new building with a valid configuration satisfies the building invariant, holds no group and is already at its end |
| Buildings.AddPassengersToQueue | src/building/Building.java:150-153 | the new group joins the tail of the arrival queue with the next id; nothing else changes |
| Buildings.LoadPassengers | src/building/Building.java:150-153 | loading keeps the queue as a prefix, adds one group per line, advances the id counter by the number of lines, and changes nothing else |
| Buildings.LoadPassengersQueue | src/building/Building.java:150-153 | loading a file appends its groups, in file order, to the arrival queue and advances the id counter |
| Buildings.LoadedIdsFromZero | src/building/Building.java:91-153 | the k-th group of a file loaded into a new building has id k |
| Buildings.DuePrefix | src/building/Building.java:549-558 | the length of the longest prefix of the arrival queue due at this tick; the next group, if any, is not due |
| Buildings.Joining | src/building/Building.java:549-555 | the due groups that join one line are exactly those starting on that floor and travelling in that direction |
| Buildings.Admit | src/building/Building.java:548-558 | what stays in the arrival queue is exactly its suffix after the due prefix |
| Buildings.AdmitLines | src/building/Building.java:548-558 | each floor line gains, at its tail and in queue order, exactly the due groups from that floor in that line's travel direction |
| Buildings.AdmitIds | src/building/Building.java:548-558 | admission moves ids from the arrival queue to the floors and loses none |
| Buildings.AdmitKeepsFloorsOk | src/building/Building.java:548-558 | admission keeps every floor well-formed |
| Buildings.CheckPassengerQueue | src/building/Building.java:548-561 | admission, then a refresh of the call cache from the new lines; nothing else changes |
| Buildings.CheckPassengerQueueIds | src/building/Building.java:548-561 | admission keeps the building's ids |
| Buildings.AllIdleFrom | src/building/Building.java:169-173 | true exactly when every car from the given index on is empty and in STOP, now and before |
| Buildings.EndSim | src/building/Building.java:165-184 | the end exactly when nobody is still to arrive, every car is empty and in STOP now and before, and every line of every floor is empty |
| Buildings.CarIdsUpdate | src/building/Building.java:590-605 | replacing one car changes the ids aboard by exactly that car's manifest difference |
| Buildings.NoCarIds | src/building/Building.java:169-173 | cars with empty manifests hold no id |
| States.CurrStateStop | src/building/Building.java:215-239 | no pending call keeps the car in STOP, unchanged; the null dereference happens exactly when a call is pending and the pick is empty; any other outcome is OPENDR or MVTOFLR with the load untouched |
| States.StopOutcome | src/building/Building.java:221-237 | with a pick: a pick on this floor opens the door facing the pick's travel direction and changes nothing else; a pick elsewhere goes to MVTOFLR with that floor as target, facing towards it, and remembers the pick's travel direction, changing nothing else |
| Stepping.FreshStopNeverNull | src/building/Building.java:215-239 | with a fresh cache the STOP handler never dereferences a missing pick |
| States.CurrStateMvToFlr | src/building/Building.java:252-264 | the car moves; it goes to OPENDR exactly when it arrives at the target floor, taking the recorded direction; otherwise it stays in MVTOFLR |
| States.CurrStateOpenDr | src/building/Building.java:277-291 | the door opens one step; it stays in OPENDR exactly while not fully open; once fully open it goes to OFFLD exactly when somebody is bound for this floor and to BOARD exactly when nobody is |
| States.OffLdAction | src/building/Building.java:294-308 | on the first OFFLD tick the floor's list is taken off and appended to the delivered ledger, stamped with this tick; later ticks only continue the count |
| States.CurrStateOffLd | src/building/Building.java:323-343 | the next state is OFFLD exactly while offloading is unfinished; the delivered ledger is the offload's; the car is the offloaded car or that car reversed, and it reverses only when empty; BOARD comes only with somebody waiting here in the final direction |
| States.OffLdOutcome | src/building/Building.java:328-341 | once offloading is done: a call here in the car's direction gives BOARD with no reversal; otherwise an empty car that should change direction reverses and boards exactly when somebody waits here for the new direction; any other car goes to CLOSEDR unchanged |
| States.NextInLine | src/building/Building.java:372-378 | no candidate exactly when the car is full, may not board, or the line is empty; else the head of this floor's line in the car's direction |
| States.RemoveHead | src/building/Building.java:380-389 | the head of the line of the group's travel direction on its origin floor is removed; the other line and every other floor are unchanged |
| States.RemoveHeadFacts | src/building/Building.java:379-390 | taking the head off keeps the floors well-formed, leaves the rest of the line and removes exactly the head's id |
| States.BoardStep | src/building/Building.java:368-399 | one pass shortens the line when it continues. Only an expired head joins the give-up ledger. When the pass stops, the car is full, may not board, or has an empty line, and the floors and ledger are untouched |
| States.BoardStepOutcome | src/building/Building.java:379-396 | with nobody to look at nothing changes; an expired head leaves its line for the give-up ledger and the car is untouched; a head that fits leaves its line and is filed under its destination with the boarding time stamped, the count grows by its size and the forced-open mark clears; a head that does not fit stays and only bars further boarding |
| States.BoardAction | src/building/Building.java:368-399 | the boarding loop keeps the floors well-formed and the car on its floor, facing its direction, with its configuration |
| States.CurrStateBoard | src/building/Building.java:411-432 | the next state is CLOSEDR exactly when boarding is finished, else BOARD. The boarding clock advances exactly once when somebody boarded or a boarding is still in progress, and not at all otherwise |
| States.CloseDrEmptyLift | src/building/Building.java:442-462 | STOP exactly when no call is pending; the car is unchanged or reversed; MV1FLR only with a call ahead or after a reversal; OPENDR only with somebody waiting here in the final direction |
| States.EmptyLiftOutcome | src/building/Building.java:444-460 | the branches in the source's order: no call pending gives STOP unchanged; else a call ahead gives MV1FLR unchanged, tried before a call here in the car's direction, which gives OPENDR; only when neither holds does the car reverse, reopening exactly when somebody waits here for the new direction |
| States.ImpoliteReopen | src/building/Building.java:481-487 | true exactly when the car was not already forced open and the head here in the car's direction is impolite and arrived this tick |
| States.CloseDrClosed | src/building/Building.java:488-494 | a closed door clears the forced-open mark; an occupied car then goes to MV1FLR without changing anything else |
| States.CurrStateCloseDr | src/building/Building.java:475-498 | the door closes one step first; an impolite head forces it open (OPENDR); otherwise the car stays in CLOSEDR exactly while the door is not closed, then follows the closed-door rules |
| States.CurrStateMv1Flr | src/building/Building.java:513-537 | the car moves; the handler fails exactly when the car arrives outside the building; before arriving it stays in MV1FLR unchanged; a reversal happens only for an empty car and opens the door |
| States.Mv1FlrArrival | src/building/Building.java:519-535 | on arrival inside the building: somebody to offload or a call here in the car's direction opens the door; else an empty car stops when no call is pending, and reverses and opens when it should change direction; otherwise it travels on |
| States.Dispatch | src/building/Building.java:590-605 | only the STOP and MV1FLR handlers can fail |
| Stepping.BoardStepKeepsCar | src/building/Building.java:368-399 | one boarding pass keeps the car invariant |
| Stepping.BoardStepIds | src/building/Building.java:368-399 | one boarding pass moves a removed head to exactly one of the manifest or the give-up ledger |
| Stepping.BoardActionKeepsCar | src/building/Building.java:368-399 | the boarding loop keeps the car invariant, so occupancy never exceeds capacity |
| Stepping.BoardActionIds | src/building/Building.java:368-399 | the boarding loop puts every group it takes off a line in exactly one of the manifest or the give-up ledger |
| Stepping.BoardActionFacts | src/building/Building.java:368-399 | the boarding loop only appends expired groups to the give-up ledger; it ends with the car full, barred, or the line empty; a boarding clears the forced-open mark |
| Stepping.BoardActionLedger | src/building/Building.java:368-399 | the boarding loop keeps the give-up ledger as a prefix and appends only groups whose patience ran out before this tick |
| Stepping.BoardActionStops | src/building/Building.java:368-399 | the boarding loop ends only with the car full, barred from boarding, or the line empty; it keeps the car's position; a boarding clears the forced-open mark |
| Stepping.StopKeepsCar | src/building/Building.java:215-239 | STOP keeps the car invariant; a target is inside the building, not the current floor, with the direction pointing at it |
| Stepping.HeadInBuilding | src/building/CallManager.java:93-149 | a line head on well-formed floors leaves from a floor inside the building |
| Stepping.MvToFlrKeepsCar | src/building/Building.java:252-264 | MVTOFLR keeps the car invariant |
| Stepping.OpenDrKeepsCar | src/building/Building.java:277-291 | OPENDR keeps the car invariant |
| Stepping.OffLdKeepsCar | src/building/Building.java:323-343 | OFFLD keeps the car invariant |
| Stepping.OffloadKeepsManifest | src/building/Elevator.java:225-242 | emptying one list keeps the manifest well-formed |
| Stepping.BoardKeepsState | src/building/Building.java:411-432 | BOARD keeps the floors and the car well-formed |
| Stepping.CloseDrKeepsLoad | src/building/Building.java:475-498 | CLOSEDR leaves configuration, floor and load untouched |
| Stepping.ClosedKeepsLoad | src/building/Building.java:488-494 | the closed-door rules leave configuration, floor and load untouched |
| Stepping.CloseDrKeepsCar | src/building/Building.java:475-498 | CLOSEDR keeps the car invariant |
| Stepping.SameLoadSettled | src/building/Elevator.java:135-142 | recording a state other than MVTOFLR for a car with the same load and floor keeps the invariant |
| Stepping.Mv1FlrKeepsCar | src/building/Building.java:513-537 | MV1FLR keeps the car invariant |
| Stepping.MovedSettled | src/building/Elevator.java:135-142 | a car with the same configuration and load on a floor inside the building stays well-formed when a state other than MVTOFLR is recorded |
| Stepping.DispatchKeepsOk | src/building/Building.java:590-605 | every handler keeps the floors well-formed and the recorded car well-formed |
| Stepping.DispatchIds | src/building/Building.java:590-605 | every handler keeps the ids across floors, the car, and both ledgers |
| Stepping.QuietIds | src/building/Building.java:252-291 | the handlers that move no group keep the ids |
| Stepping.StopIds | src/building/Building.java:215-239 | STOP keeps the ids |
| Stepping.OffLdIds | src/building/Building.java:323-343 | OFFLD moves ids from the car to the delivered ledger and loses none |
| Stepping.BoardIds | src/building/Building.java:411-432 | BOARD moves ids from the line to the car or the give-up ledger and loses none |
| Stepping.DispatchLedgers | src/building/Building.java:294-399 | a handler only appends to the ledgers; delivered entries are bound for this floor and stamped with this tick; give-ups were past their patience |
| Stepping.OffLdLedger | src/building/Building.java:294-307 | offloading keeps the delivered ledger as a prefix and appends only groups bound for this floor, stamped with this tick |
| Stepping.UpdateOne | src/building/Building.java:590-605 | a failure comes only from a car in STOP or MV1FLR, and never as a missing pick while the cache is fresh |
| Stepping.UpdateOneOk | src/building/Building.java:590-605 | one car's tick keeps the building invariant and every id, touches nothing outside floors, ledgers and that car, and only appends well-stamped ledger entries |
| Stepping.UpdateElevators | src/building/Building.java:591-604 | with a fresh cache a missing pick can come only from a car after the first; a successful run keeps the number of cars and leaves every car before the starting index untouched |
| Stepping.UpdateElevatorsOk | src/building/Building.java:590-605 | running all cars in order keeps the building invariant and every id, and only appends to the ledgers |
| Stepping.StepOkTrans | src/building/Building.java:591-604 | the facts kept by one car's tick compose over consecutive cars |
| Controller.StepSim | src/ElevatorSimController.java:226-241 | the counter always advances; the end is reported exactly when the building was at its end, in which case nothing else changes; a step fails exactly when it is not the end and admission followed by the cars' tick at the new count fails |
| Controller.AdmitAndRunOk | src/ElevatorSimController.java:238-239 | the cars run on the building exactly as admission left it at this count: a successful run keeps its invariant, its ids, its queue, cache and configuration, and the new ledger entries are stamped with that count or gave up before it |
| Controller.StepSimBuilding | src/ElevatorSimController.java:226-241 | a step that does not end the run yields exactly the building that admission at the new count followed by the cars' tick at that same count produces |
| Controller.StepSimCars | src/ElevatorSimController.java:226-241 | a step that is not the end admits at the new count and runs the cars on exactly that building, with that count as their time |
| Controller.Admitted | src/ElevatorSimController.java:238 | admission keeps the building invariant and leaves the cache fresh |
| Controller.StepSimOk | src/ElevatorSimController.java:226-241 | a step keeps the building invariant and every id, and only appends to the ledgers |
| Controller.SingleCarNeverNull | src/ElevatorSimController.java:226-241 | with one car a step never fails on a missing pick |
| Controller.RunOk | src/ElevatorSimController.java:226-241 | along a run from a well-formed building the invariant and the ids are kept and the ledgers only grow |
| Controller.EndAccountsForAll | src/building/Building.java:165-184 | at the end every group is in exactly one of the two ledgers |
| Controller.RunDeliversEveryGroup | src/ElevatorSimController.java:226-241 | a run from a loaded building that reaches the end has each group of the file in exactly one ledger |
| Controller.EmptyRunEndsAtOnce | src/building/Building.java:165-184 | with no groups the first step ends the run |
| Controller.GetCurrentFloor | src/ElevatorSimController.java:265-267 | the first car's floor, always inside the building |
| Controller.GetNumPassengersOnElevator | src/ElevatorSimController.java:273-275 | the first car's count equals its manifest total, within capacity, and is zero exactly when nobody is aboard |
| Progress.Record | src/building/Elevator.java:135-142 | recording the state a car is ready for makes the single-car invariant hold in that state |
| Progress.EmptyLists | src/building/Elevator.java:314-316 | an empty well-formed car has every destination list empty |
| Progress.LoadedHasDestAhead | src/building/Building.java:488-494 | a loaded car with nobody bound for its own floor has a destination strictly ahead |
| Progress.StopHeads | src/building/Building.java:215-239 | leaving STOP, the car faces up or down and is still empty, and a target comes with an up or down direction for arrival |
| Progress.MvToFlrHeads | src/building/Building.java:252-264 | travelling to a target keeps the car empty and inside the building; on arrival it faces the remembered direction |
| Progress.OpenDrHeads | src/building/Building.java:277-291 | opening changes nothing the invariant reads; BOARD follows only when nobody aboard gets out here |
| Progress.OffLdHeads | src/building/Building.java:323-343 | after offloading nobody aboard is bound for this floor or a floor behind, including after a reversal of an empty car |
| Progress.BoardStepAhead | src/building/Building.java:368-399 | one boarding pass files a new group only under a floor strictly ahead in the car's direction |
| Progress.BoardActionAhead | src/building/Building.java:368-399 | the boarding loop files new groups only under floors strictly ahead in the car's direction |
| Progress.BoardHeads | src/building/Building.java:411-432 | after boarding nobody aboard is bound for this floor or a floor behind |
| Progress.EmptyLiftHeads | src/building/Building.java:442-462 | with a fresh cache, an empty car that sets off floor by floor has a waiting group strictly ahead in its final direction |
| Progress.EmptyClosedHeads | src/building/Building.java:442-462 | an empty car whose door has closed stops, reopens here, or travels towards a waiting group ahead |
| Progress.EmptyCarHeads | src/building/Building.java:442-462 | an empty car, reversed or not, is ready for STOP, OPENDR, or MV1FLR with a waiting group ahead |
| Progress.ClosedHeads | src/building/Building.java:488-494 | once the door is closed, a loaded car travels towards a destination ahead and an empty one as above |
| Progress.CloseDrHeads | src/building/Building.java:475-498 | every CLOSEDR outcome leaves the car ready for its next state; MV1FLR comes with a reason ahead |
| Progress.MoveArrives | src/building/Building.java:514-519 | a tick that reaches the next floor stays inside the building, and nobody aboard is bound for a floor behind the new one |
| Progress.LoadedArrivalHeads | src/building/Building.java:521-534 | a loaded car arriving where nobody gets out has a destination strictly ahead |
| Progress.EmptyArrivalHeads | src/building/Building.java:524-534 | an empty car that goes on without reversing has a waiting group strictly ahead |
| Progress.ArriveHeads | src/building/Building.java:519-535 | on arrival the car opens, stops empty, reverses empty, or keeps a reason ahead, and never fails |
| Progress.Mv1FlrHeads | src/building/Building.java:513-537 | for a car with a reason ahead, MV1FLR never fails, so the car never leaves the building |
| Progress.AdmitHeads | src/building/Building.java:548-558 | admission only lengthens lines, so a car's reasons ahead survive it |
| Progress.DispatchReady | src/building/Building.java:590-605 | with a fresh cache, the handler of a heading car succeeds and leaves the car ready for its next state |
| Progress.DispatchHeads | src/building/Building.java:590-605 | with a fresh cache, the handler of a heading car succeeds, and the recorded car heads against the floors the handler leaves |
| Progress.SingleCarStep | src/ElevatorSimController.java:226-241 | with one heading car, a step that does not end the run leaves a building whose car still heads |
| Progress.SingleCarRun | src/ElevatorSimController.java:238-239 | with one heading car, admission and the car's tick at a count succeed and the car still heads |
| Progress.SingleCarStepOk | src/ElevatorSimController.java:226-241 | with one heading car, a step never fails |
| Progress.StepKeepsHeading | src/ElevatorSimController.java:226-241 | a successful step from a well-formed one-car building whose car heads leads to such a building again |
| Progress.NewOneCarOk | src/building/Building.java:91-134 | a freshly loaded one-car building satisfies the single-car invariant |
| Progress.RunKeepsHeading | src/ElevatorSimController.java:226-241 | along a run of a one-car building every state is well-formed and its car heads |
| Progress.RunNeverFails | src/ElevatorSimController.java:226-241 | every step of a run of a freshly loaded one-car building succeeds, so the car never leaves the building and no pick is missing |

## Left out

- Logging, the log file, `processPassengerData`, `closeLogs`, `dumpPassQ` and `printState`. They only write text.
- Reading the configuration and passenger files. The model takes the parsed values: a `Config` and a sequence of `Arrival` lines.
- The GUI calls in `stepSim`.
- `handleInitialSkips`. It only logs.
- `elevatorStateChanged` is used only to decide whether to log. Its test is modelled as `Elevators.StateChanged`.
- The fixed capacities of the generic queue. Lines are unbounded sequences.
- Java's `Math.ceil` on doubles is replaced by the exact integer ceiling. The two agree for the head-counts involved.
- The statics. The id counter is passed along explicitly, and the door's open threshold is each car's configured `doorTicks`.
- Getters and setters, including `isForcedOpen`/`setForcedOpen` (fields of the record).
- A group whose origin equals its destination. Admission files it in the up line, but boarding looks for it in the down line. The building invariant excludes such groups, as it excludes zero-sized groups, for which offloading never finishes.
- Arrival ticks are assumed to be at least 1 and non-decreasing. Admission inspects only the head of the queue, so an out-of-order tick would leave later groups waiting for ever.
- The driver loop is modelled as a trace of consecutive steps (`Controller.IsRun`), not as a function that iterates the step.
- Stepping.UpdateOne: with several cars, the cache read by a later car may be stale, because earlier cars in the same tick changed the lines. The null-dereference guarantee is therefore stated only under a fresh cache, which holds for the first car and hence for a single-car building.
- Java's 32-bit `int` is modelled as an unbounded integer. The step counter `stepCnt++` and the sum `p.getTime() + p.getWaitTime()` in the give-up test could wrap past 2^31 - 1; the model assumes every tick, wait time and their sums stay within that range.
- Controller.StepSim: the absence of any failure is proved only for a single car (`Progress.RunNeverFails`). With several cars a later car reads a stale cache, and the STOP and MV1FLR handlers are not shown to succeed.
