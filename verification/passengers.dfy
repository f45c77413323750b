/** A passenger group: people who arrive, wait, ride and leave together.
    Floors are kept 0-based; the arrival records and the printed form use
    1-based floors. */
module Passengers {
  import opened Text

  /** Value of `boardTime` and `timeArrived` before the event happens. */
  const NOT_SET: int := -1

  datatype Group = Group(
    id: nat,
    time: int,          // tick at which the group calls the elevator
    numPass: int,       // number of people, always moved as a unit
    onFloor: int,       // origin, 0-based
    destFloor: int,     // destination, 0-based
    polite: bool,       // an impolite group reopens a closing door
    waitTime: int,      // ticks the group waits before giving up
    boardTime: int,
    timeArrived: int)

  /** The next id to hand out; replaces the class-wide counter of the source. */
  datatype IdAllocator = IdAllocator(next: nat)

  /** One line of the passenger file: floors are 1-based. */
  datatype Arrival = Arrival(time: int, numPass: int, from: int, to: int, polite: bool, wait: int)

  function ResetStaticID(): (a: IdAllocator)
    ensures a.next == 0
  {
    IdAllocator(0)
  }

  /** A new group receives the current id and advances the allocator; origin
      and destination move from 1-based to 0-based, the two timestamps start
      unset, everything else is stored as given. */
  function NewGroup(a: IdAllocator, time: int, numPass: int, on: int, dest: int, polite: bool, waitTime: int)
    : (r: (Group, IdAllocator))
    ensures r.0.id == a.next && r.1.next == a.next + 1
    ensures r.0.onFloor == on - 1 && r.0.destFloor == dest - 1
    ensures r.0.boardTime == NOT_SET && r.0.timeArrived == NOT_SET
    ensures r.0.time == time && r.0.numPass == numPass && r.0.polite == polite && r.0.waitTime == waitTime
  {
    (Group(a.next, time, numPass, on - 1, dest - 1, polite, waitTime, NOT_SET, NOT_SET), IdAllocator(a.next + 1))
  }

  function FromArrival(a: IdAllocator, x: Arrival): (Group, IdAllocator) {
    NewGroup(a, x.time, x.numPass, x.from, x.to, x.polite, x.wait)
  }

  /** Groups created one after another, in file order. */
  function NewGroups(a: IdAllocator, xs: seq<Arrival>): (r: (seq<Group>, IdAllocator))
    ensures |r.0| == |xs|
    decreases |xs|
  {
    if |xs| == 0 then ([], a)
    else
      var (g, a') := FromArrival(a, xs[0]);
      var (gs, a'') := NewGroups(a', xs[1..]);
      ([g] + gs, a'')
  }

  /** Ids are handed out consecutively from the allocator's value, so they are
      pairwise distinct, and the allocator ends past the last one. */
  lemma {:induction false} NewGroupsIds(a: IdAllocator, xs: seq<Arrival>)
    ensures forall k :: 0 <= k < |xs| ==> NewGroups(a, xs).0[k].id == a.next + k
    ensures NewGroups(a, xs).1.next == a.next + |xs|
    ensures forall j, k :: 0 <= j < k < |xs| ==> NewGroups(a, xs).0[j].id != NewGroups(a, xs).0[k].id
    decreases |xs|
  {
    if |xs| > 0 {
      var (g, a') := FromArrival(a, xs[0]);
      NewGroupsIds(a', xs[1..]);
      var gs := NewGroups(a, xs).0;
      assert gs == [g] + NewGroups(a', xs[1..]).0;
      assert forall k :: 1 <= k < |xs| ==> gs[k] == NewGroups(a', xs[1..]).0[k - 1];
    }
  }

  /** After a reset the groups of a run are numbered 0, 1, 2, ... */
  lemma IdsAfterReset(xs: seq<Arrival>)
    ensures forall k :: 0 <= k < |xs| ==> NewGroups(ResetStaticID(), xs).0[k].id == k
  {
    NewGroupsIds(ResetStaticID(), xs);
  }

  function BoolToString(b: bool): string {
    if b then "true" else "false"
  }

  /** The printed form of a group, floors shown 1-based again. */
  function ToString(g: Group): string {
    "ID=" + IntToString(g.id) + "   Time=" + IntToString(g.time) + "   NumPass=" + IntToString(g.numPass)
    + "   From=" + IntToString(g.onFloor + 1) + "   To=" + IntToString(g.destFloor + 1)
    + "   Polite=" + BoolToString(g.polite) + "   Wait=" + IntToString(g.waitTime)
  }

  /** The printed form of a freshly created group shows the 1-based floors it
      was created with, not the stored 0-based ones. */
  lemma ToStringShowsInputFloors(a: IdAllocator, time: int, numPass: int, on: int, dest: int, polite: bool, waitTime: int)
    ensures var g := NewGroup(a, time, numPass, on, dest, polite, waitTime).0;
      ToString(g) == "ID=" + IntToString(a.next) + "   Time=" + IntToString(time) + "   NumPass=" + IntToString(numPass)
        + "   From=" + IntToString(on) + "   To=" + IntToString(dest)
        + "   Polite=" + BoolToString(polite) + "   Wait=" + IntToString(waitTime)
  {
  }

  /** A group the building can carry: floors inside a building of `n` floors,
      origin distinct from destination, at least one person. */
  ghost predicate ValidGroup(g: Group, n: int) {
    && 0 <= g.onFloor < n
    && 0 <= g.destFloor < n
    && g.onFloor != g.destFloor
    && g.numPass > 0
  }

  /** A passenger-file line the building can carry: 1-based floors inside a
      building of `n` floors, origin distinct from destination, at least one
      person. */
  ghost predicate ValidArrival(x: Arrival, n: int) {
    1 <= x.from <= n && 1 <= x.to <= n && x.from != x.to && x.numPass > 0
  }

  /** Valid lines make valid groups. */
  lemma {:induction false} NewGroupsValid(a: IdAllocator, xs: seq<Arrival>, n: int)
    requires forall x :: x in xs ==> ValidArrival(x, n)
    ensures forall g :: g in NewGroups(a, xs).0 ==> ValidGroup(g, n)
    decreases |xs|
  {
    if |xs| > 0 {
      var (g, a') := FromArrival(a, xs[0]);
      assert xs[0] in xs;
      assert forall x :: x in xs[1..] ==> x in xs;
      NewGroupsValid(a', xs[1..], n);
    }
  }

  /** The ids of a sequence of groups, as a multiset. */
  function IdsOf(gs: seq<Group>): multiset<nat>
    decreases |gs|
  {
    if |gs| == 0 then multiset{} else multiset{gs[0].id} + IdsOf(gs[1..])
  }

  /** The number of people in a sequence of groups. */
  function LoadOf(gs: seq<Group>): int
    decreases |gs|
  {
    if |gs| == 0 then 0 else gs[0].numPass + LoadOf(gs[1..])
  }

  lemma IdsOfEmpty(gs: seq<Group>)
    ensures IdsOf(gs) == multiset{} <==> gs == []
  {
    if gs != [] {
      assert gs[0].id in IdsOf(gs);
    }
  }

  lemma {:induction false} IdsOfConcat(a: seq<Group>, b: seq<Group>)
    ensures IdsOf(a + b) == IdsOf(a) + IdsOf(b)
    decreases |a|
  {
    if |a| > 0 {
      assert (a + b)[1..] == a[1..] + b;
      IdsOfConcat(a[1..], b);
    } else {
      assert a + b == b;
    }
  }

  lemma {:induction false} LoadOfConcat(a: seq<Group>, b: seq<Group>)
    ensures LoadOf(a + b) == LoadOf(a) + LoadOf(b)
    decreases |a|
  {
    if |a| > 0 {
      assert (a + b)[1..] == a[1..] + b;
      LoadOfConcat(a[1..], b);
    } else {
      assert a + b == b;
    }
  }

  /** Groups of at least one person each weigh nothing only when there are none. */
  lemma {:induction false} LoadOfPositive(gs: seq<Group>)
    requires forall g :: g in gs ==> g.numPass > 0
    ensures LoadOf(gs) >= 0
    ensures LoadOf(gs) == 0 <==> gs == []
    decreases |gs|
  {
    if |gs| > 0 {
      assert gs[0] in gs;
      assert forall g :: g in gs[1..] ==> g in gs;
      LoadOfPositive(gs[1..]);
    }
  }

  /** Stamping a timestamp on every group keeps ids and sizes. */
  function StampArrived(gs: seq<Group>, time: int): (r: seq<Group>)
    ensures |r| == |gs|
    ensures forall k :: 0 <= k < |gs| ==> r[k] == gs[k].(timeArrived := time)
    decreases |gs|
  {
    if |gs| == 0 then [] else [gs[0].(timeArrived := time)] + StampArrived(gs[1..], time)
  }

  lemma {:induction false} StampArrivedIds(gs: seq<Group>, time: int)
    ensures IdsOf(StampArrived(gs, time)) == IdsOf(gs)
    decreases |gs|
  {
    if |gs| > 0 {
      assert StampArrived(gs, time)[1..] == StampArrived(gs[1..], time);
      StampArrivedIds(gs[1..], time);
    }
  }

  /** Multiset bookkeeping used by the id-accounting lemmas. */
  lemma MultisetShuffle<T>(a: multiset<T>, x: multiset<T>, y: multiset<T>, b: multiset<T>, c: multiset<T>)
    requires x + b == y + c
    ensures (a + x) + b == (a + y) + c
  {
    calc {
      (a + x) + b;
      a + (x + b);
      a + (y + c);
      (a + y) + c;
    }
  }

  lemma SeqAssoc<T>(a: seq<T>, b: seq<T>, c: seq<T>)
    ensures a + b + c == a + (b + c)
  {
  }

  lemma MultisetCancel<T>(a: multiset<T>, b: multiset<T>, c: multiset<T>)
    requires a + c == b + c
    ensures a == b
  {
    forall t ensures a[t] == b[t] {
      assert (a + c)[t] == (b + c)[t];
    }
  }
}
