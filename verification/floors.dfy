/** The two FIFO waiting lines of one floor, one per travel direction. */
module Floors {
  import opened Wrappers
  import opened Passengers
  import opened Text

  const UP: int := 1
  const DOWN: int := -1

  datatype Floor = Floor(up: seq<Group>, down: seq<Group>)

  function EmptyFloor(): Floor {
    Floor([], [])
  }

  /** The line a direction selects: `UP` selects the up line, every other
      value the down line. */
  function Queue(f: Floor, dir: int): seq<Group> {
    if dir == UP then f.up else f.down
  }

  /** Joins the tail of the selected line; the other line is untouched. */
  function Add(f: Floor, dir: int, p: Group): (r: Floor)
    ensures Queue(r, dir) == Queue(f, dir) + [p]
    ensures dir == UP ==> r.down == f.down
    ensures dir != UP ==> r.up == f.up
  {
    if dir == UP then f.(up := f.up + [p]) else f.(down := f.down + [p])
  }

  /** Removes the head of the selected line, or reports `None` (the source's
      null) and changes nothing when the line is empty. */
  function Poll(f: Floor, dir: int): (r: (Option<Group>, Floor))
    ensures Queue(f, dir) == [] ==> r.0 == None && r.1 == f
    ensures Queue(f, dir) != [] ==> r.0 == Some(Queue(f, dir)[0]) && Queue(r.1, dir) == Queue(f, dir)[1..]
    ensures dir == UP ==> r.1.down == f.down
    ensures dir != UP ==> r.1.up == f.up
  {
    if dir == UP then
      if |f.up| == 0 then (None, f) else (Some(f.up[0]), f.(up := f.up[1..]))
    else
      if |f.down| == 0 then (None, f) else (Some(f.down[0]), f.(down := f.down[1..]))
  }

  /** The head of the selected line, if any. */
  function Peek(f: Floor, dir: int): (r: Option<Group>)
    ensures r.None? <==> Queue(f, dir) == []
    ensures r.Some? ==> r.value == Queue(f, dir)[0]
  {
    if dir == UP then
      if |f.up| == 0 then None else Some(f.up[0])
    else
      if |f.down| == 0 then None else Some(f.down[0])
  }

  function Size(f: Floor, dir: int): (r: nat)
    ensures r == |Queue(f, dir)|
  {
    if dir == UP then |f.up| else |f.down|
  }

  /** Emptiness and size agree for every direction value. */
  function Empty(f: Floor, dir: int): (r: bool)
    ensures r <==> Size(f, dir) == 0
    ensures r <==> Queue(f, dir) == []
  {
    if dir == UP then |f.up| == 0 else |f.down| == 0
  }

  /** On a non-empty line, joining the tail and leaving from the head
      commute: the poll hands out what a peek showed before the add, and a
      newcomer never overtakes anybody. */
  lemma AddPollCommute(f: Floor, dir: int, p: Group)
    requires Queue(f, dir) != []
    ensures Poll(Add(f, dir, p), dir).0 == Peek(f, dir)
    ensures Poll(Add(f, dir, p), dir).1 == Add(Poll(f, dir).1, dir, p)
  {
    var q := Queue(f, dir);
    assert (q + [p])[1..] == q[1..] + [p];
  }

  /** `ps` joins the selected line one group at a time. */
  function AddAll(f: Floor, dir: int, ps: seq<Group>): (r: Floor)
    decreases |ps|
  {
    if |ps| == 0 then f else AddAll(Add(f, dir, ps[0]), dir, ps[1..])
  }

  /** Polls the selected line `k` times and collects what came out. */
  function PollN(f: Floor, dir: int, k: nat): (r: (seq<Group>, Floor))
    decreases k
  {
    if k == 0 then ([], f)
    else
      var (p, f') := Poll(f, dir);
      var (rest, f'') := PollN(f', dir, k - 1);
      (if p.Some? then [p.value] + rest else rest, f'')
  }

  lemma {:induction false} AddAllQueue(f: Floor, dir: int, ps: seq<Group>)
    ensures Queue(AddAll(f, dir, ps), dir) == Queue(f, dir) + ps
    decreases |ps|
  {
    if |ps| > 0 {
      AddAllQueue(Add(f, dir, ps[0]), dir, ps[1..]);
      assert Queue(f, dir) + [ps[0]] + ps[1..] == Queue(f, dir) + ps;
    }
  }

  lemma {:induction false} PollNDrains(f: Floor, dir: int)
    ensures PollN(f, dir, |Queue(f, dir)|).0 == Queue(f, dir)
    ensures Queue(PollN(f, dir, |Queue(f, dir)|).1, dir) == []
    decreases |Queue(f, dir)|
  {
    if |Queue(f, dir)| > 0 {
      var (p, f') := Poll(f, dir);
      PollNDrains(f', dir);
    }
  }

  /** FIFO: whatever was waiting, followed by the groups added in one
      direction, leaves by polls in exactly that order. */
  lemma FifoOrder(f: Floor, dir: int, ps: seq<Group>)
    ensures PollN(AddAll(f, dir, ps), dir, |Queue(f, dir)| + |ps|).0 == Queue(f, dir) + ps
  {
    AddAllQueue(f, dir, ps);
    PollNDrains(AddAll(f, dir, ps), dir);
  }

  /** Group sizes in line order, comma-separated, no trailing comma. */
  function Render(gs: seq<Group>): string
    decreases |gs|
  {
    if |gs| == 0 then ""
    else IntToString(gs[0].numPass) + (if |gs| > 1 then "," else "") + Render(gs[1..])
  }

  /** The printed line. Reading it back, field by field, gives the group
      sizes of the selected line in order; an empty line prints as "". */
  function QueueString(f: Floor, dir: int): (r: string)
    ensures r == Join(SizeStrings(Queue(f, dir)))
    ensures ParseList(Split(r)) == Sizes(Queue(f, dir))
    ensures r == "" <==> Queue(f, dir) == []
  {
    var gs := Queue(f, dir);
    RenderIsJoin(gs);
    SplitJoin(SizeStrings(gs));
    ParseSizes(gs);
    Render(gs)
  }

  function Sizes(gs: seq<Group>): (r: seq<int>)
    ensures |r| == |gs| && forall k :: 0 <= k < |gs| ==> r[k] == gs[k].numPass
  {
    seq(|gs|, k requires 0 <= k < |gs| => gs[k].numPass)
  }

  function SizeStrings(gs: seq<Group>): (r: seq<string>)
    ensures |r| == |gs| && forall k :: 0 <= k < |gs| ==> r[k] == IntToString(gs[k].numPass)
  {
    seq(|gs|, k requires 0 <= k < |gs| => IntToString(gs[k].numPass))
  }

  function ParseList(parts: seq<string>): (r: seq<int>)
    ensures |r| == |parts| && forall k :: 0 <= k < |parts| ==> r[k] == ParseInt(parts[k])
  {
    seq(|parts|, k requires 0 <= k < |parts| => ParseInt(parts[k]))
  }

  lemma {:induction false} RenderIsJoin(gs: seq<Group>)
    ensures Render(gs) == Join(SizeStrings(gs))
    decreases |gs|
  {
    if |gs| > 0 {
      RenderIsJoin(gs[1..]);
      assert SizeStrings(gs)[1..] == SizeStrings(gs[1..]);
    }
  }

  /** Each printed size reads back as that size. */
  lemma ParseSizes(gs: seq<Group>)
    ensures ParseList(SizeStrings(gs)) == Sizes(gs)
  {
    forall k | 0 <= k < |gs|
      ensures ParseInt(SizeStrings(gs)[k]) == gs[k].numPass
    {
      ParseIntToString(gs[k].numPass);
    }
  }

  /** Every group waiting on floor `i` belongs there: valid, originating on
      `i`, and in the line of its travel direction. */
  ghost predicate FloorOk(f: Floor, i: int, n: int) {
    && (forall g :: g in f.up ==> ValidGroup(g, n) && g.onFloor == i && g.destFloor > i)
    && (forall g :: g in f.down ==> ValidGroup(g, n) && g.onFloor == i && g.destFloor < i)
  }

  ghost predicate FloorsOk(floors: seq<Floor>, n: int) {
    |floors| == n && forall i :: 0 <= i < n ==> FloorOk(floors[i], i, n)
  }

  /** Every group waiting on this floor must be a valid group that leaves from here. */
  lemma FloorOkMembers(f: Floor, i: int, n: int, dir: int)
    requires FloorOk(f, i, n)
    ensures forall g :: g in Queue(f, dir) ==> ValidGroup(g, n) && g.onFloor == i
    ensures forall g :: g in Queue(f, dir) ==> (g.destFloor > i <==> dir == UP)
  {
  }

  /** Joining a line that fits the floor keeps the floor well-formed. */
  lemma AddKeepsFloorOk(f: Floor, i: int, n: int, dir: int, p: Group)
    requires FloorOk(f, i, n) && ValidGroup(p, n) && p.onFloor == i
    requires dir == (if p.destFloor < p.onFloor then DOWN else UP)
    ensures FloorOk(Add(f, dir, p), i, n)
  {
  }

  /** Leaving a line keeps the floor well-formed. */
  lemma PollKeepsFloorOk(f: Floor, i: int, n: int, dir: int)
    requires FloorOk(f, i, n)
    ensures FloorOk(Poll(f, dir).1, i, n)
  {
    var f' := Poll(f, dir).1;
    assert forall g :: g in f'.up ==> g in f.up;
    assert forall g :: g in f'.down ==> g in f.down;
  }

  /** The ids waiting on one floor, both lines. */
  function LineIds(f: Floor): multiset<nat> {
    IdsOf(f.up) + IdsOf(f.down)
  }

  /** The ids waiting anywhere in the building. */
  function FloorIds(floors: seq<Floor>): multiset<nat>
    decreases |floors|
  {
    if |floors| == 0 then multiset{} else LineIds(floors[0]) + FloorIds(floors[1..])
  }

  /** A joining group's id is added to the floor, nothing else. */
  lemma AddIds(f: Floor, dir: int, p: Group)
    ensures LineIds(Add(f, dir, p)) == LineIds(f) + multiset{p.id}
  {
    IdsOfConcat(Queue(f, dir), [p]);
    assert IdsOf([p]) == multiset{p.id} + IdsOf([]);
  }

  /** A polled head's id leaves the floor, nothing else. */
  lemma PollIds(f: Floor, dir: int)
    requires Queue(f, dir) != []
    ensures LineIds(Poll(f, dir).1) + multiset{Queue(f, dir)[0].id} == LineIds(f)
  {
  }

  /** Replacing one floor changes the building's ids by exactly that floor's change. */
  lemma {:induction false} FloorIdsUpdate(floors: seq<Floor>, i: int, f: Floor)
    requires 0 <= i < |floors|
    ensures FloorIds(floors[i := f]) + LineIds(floors[i]) == FloorIds(floors) + LineIds(f)
    decreases |floors|
  {
    var fs := floors[i := f];
    if i > 0 {
      assert fs[1..] == floors[1..][i - 1 := f];
      assert floors[1..][i - 1] == floors[i];
      FloorIdsUpdate(floors[1..], i - 1, f);
      assert FloorIds(fs) == LineIds(floors[0]) + FloorIds(fs[1..]);
      assert FloorIds(floors) == LineIds(floors[0]) + FloorIds(floors[1..]);
      MultisetShuffle(LineIds(floors[0]), FloorIds(fs[1..]), FloorIds(floors[1..]), LineIds(floors[i]), LineIds(f));
    } else {
      assert fs[1..] == floors[1..];
    }
  }

  /** Nobody waits anywhere exactly when no id is on any floor. */
  lemma {:induction false} FloorIdsEmpty(floors: seq<Floor>)
    ensures FloorIds(floors) == multiset{} <==> forall i :: 0 <= i < |floors| ==> floors[i].up == [] && floors[i].down == []
    decreases |floors|
  {
    if |floors| > 0 {
      FloorIdsEmpty(floors[1..]);
      IdsOfEmpty(floors[0].up);
      IdsOfEmpty(floors[0].down);
      assert forall i :: 1 <= i < |floors| ==> floors[i] == floors[1..][i - 1];
    }
  }
}
