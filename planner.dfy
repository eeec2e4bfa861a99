/**
 * The A* search (`a_star`): a best-first expansion over the grid driven by
 * the priority queue, followed by the walk back along the parent pointers.
 */
module Planner {
  import opened Wrappers
  import opened Vector
  import opened Grid
  import opened Frontier

  /** Best known number of steps from the start to each discovered cell. */
  type CostMap = map<Point, nat>
  /** The cell each discovered cell was reached from; the start maps to `None`. */
  type ParentMap = map<Point, Option<Point>>

  /** The message of the single failure the planner reports. */
  const NoPathMessage := "No path could be found."

  /** One move: to an adjacent cell that is inside the world and empty. */
  ghost predicate Step(w: World, a: Point, b: Point)
    requires w.Valid()
  {
    Adjacent(a, b) && w.Passable(b)
  }

  /** A route from `start` to `end` made of steps. */
  ghost predicate Connects(w: World, start: Point, end: Point, path: seq<Point>)
    requires w.Valid()
  {
    && |path| >= 1
    && path[0] == start
    && path[|path| - 1] == end
    && forall i :: 0 <= i < |path| - 1 ==> Step(w, path[i], path[i + 1])
  }

  ghost predicate Distinct(s: seq<Point>)
  {
    forall i, j :: 0 <= i < j < |s| ==> s[i] != s[j]
  }

  /**
   * The shape of the `cost` and `parent` dictionaries: the same keys, the
   * start at cost 0 without a parent, and every other key reached by one step
   * from a key whose cost is at least one lower.
   */
  ghost predicate SearchTree(w: World, start: Point, cost: CostMap, parent: ParentMap)
    requires w.Valid()
  {
    && cost.Keys == parent.Keys
    && start in cost && cost[start] == 0 && parent[start] == None
    && forall q {:trigger parent[q]} :: q in parent && q != start ==>
         && parent[q].Some?
         && parent[q].value in cost
         && Step(w, parent[q].value, q)
         && cost[q] >= cost[parent[q].value] + 1
  }

  /** Every neighbour of `q` has been discovered. */
  ghost predicate Expanded(w: World, q: Point, keys: set<Point>)
    requires w.Valid()
  {
    forall n {:trigger n in w.NeighbourList(q)} :: n in w.NeighbourList(q) ==> n in keys
  }

  /**
   * No neighbour of a discovered cell is undiscovered. (The trigger keeps the
   * solver from chasing neighbours of neighbours across the whole grid.)
   */
  ghost predicate Closed(w: World, keys: set<Point>)
    requires w.Valid()
  {
    forall q {:trigger Expanded(w, q, keys)} :: q in keys ==> Expanded(w, q, keys)
  }

  ghost predicate Queued(s: seq<Entry<Point>>, q: Point)
  {
    exists e :: e in s && e.item == q
  }

  /** A discovered cell still to be expanded, already expanded, or set aside. */
  ghost predicate Settled(w: World, q: Point, keys: set<Point>, queue: seq<Entry<Point>>, pending: set<Point>)
    requires w.Valid()
  {
    Queued(queue, q) || Expanded(w, q, keys) || q in pending
  }

  /**
   * What the search loop keeps: the search tree, discovered cells drawn from
   * `cells` with costs below their number, queued items discovered, and each
   * discovered cell either queued, expanded, or in `pending`.
   */
  ghost predicate SearchState(w: World, start: Point, cells: set<Point>, cost: CostMap, parent: ParentMap,
                              queue: seq<Entry<Point>>, pending: set<Point>)
    requires w.Valid()
  {
    && SearchTree(w, start, cost, parent)
    && CostsBounded(cells, cost)
    && QueueKnown(queue, cost)
    && AllSettled(w, cost, queue, pending)
  }

  /** Discovered cells are drawn from `cells`, each at a cost below their number. */
  ghost predicate CostsBounded(cells: set<Point>, cost: CostMap)
  {
    && cost.Keys <= cells
    && forall q :: q in cost ==> cost[q] < |cost.Keys|
  }

  /** Every queued item has been discovered. */
  ghost predicate QueueKnown(queue: seq<Entry<Point>>, cost: CostMap)
  {
    forall e :: e in queue ==> e.item in cost
  }

  /** Every discovered cell is queued, expanded, or in `pending`. */
  ghost predicate AllSettled(w: World, cost: CostMap, queue: seq<Entry<Point>>, pending: set<Point>)
    requires w.Valid()
  {
    forall q {:trigger Settled(w, q, cost.Keys, queue, pending)} :: q in cost ==> Settled(w, q, cost.Keys, queue, pending)
  }

  /** Every passable cell of `w` is among `cells`. */
  ghost predicate Covers(w: World, cells: set<Point>)
    requires w.Valid()
  {
    forall p {:trigger w.Passable(p)} :: w.Passable(p) ==> p in cells
  }

  /**
   * The pairs (cell, c) with c below `bound` that a later, cheaper discovery
   * of the cell could still remove; the search loop shrinks this finite set
   * whenever it records a cost.
   */
  ghost function Unsettled(cells: set<Point>, bound: nat, cost: CostMap): set<(Point, int)>
  {
    set q, c | q in cells && 0 <= c < bound && (q !in cost || c < cost[q]) :: (q, c)
  }

  /** How many unsettled pairs are left; the search loop's termination measure. */
  ghost function Potential(cells: set<Point>, cost: CostMap): nat
  {
    |Unsettled(cells, |cells|, cost)|
  }

  lemma UnsettledShrinks(cells: set<Point>, bound: nat, cost: CostMap, q: Point, v: nat)
    requires q in cells && v < bound
    requires q !in cost || v < cost[q]
    ensures Unsettled(cells, bound, cost[q := v]) < Unsettled(cells, bound, cost)
  {
    var before, after := Unsettled(cells, bound, cost), Unsettled(cells, bound, cost[q := v]);
    assert (q, v) in before;
    assert (q, v) !in after;
    forall pair | pair in after
      ensures pair in before
    {
    }
  }

  /** A subset is no larger, and a proper subset is smaller. */
  lemma SubsetSize<T>(a: set<T>, b: set<T>)
    requires a <= b
    ensures |a| <= |b|
    ensures a < b ==> |a| < |b|
  {
    assert b == a + (b - a);
    assert a * (b - a) == {};
  }

  /** Taking an entry out of the queue loses no other queued cell and adds nothing. */
  lemma QueuedAfterRemoval(before: seq<Entry<Point>>, after: seq<Entry<Point>>, h: Entry<Point>)
    requires multiset(after) == multiset(before) - multiset{h}
    ensures forall e :: e in after ==> e in before
    ensures forall q :: Queued(before, q) && q != h.item ==> Queued(after, q)
  {
    forall e | e in after
      ensures e in before
    {
      assert e in multiset(after);
    }
    forall q | Queued(before, q) && q != h.item
      ensures Queued(after, q)
    {
      var e :| e in before && e.item == q;
      assert e in multiset(before);
      assert e in multiset(after);
    }
  }

  /**
   * The search half of `a_star`: expands cells in priority order until the
   * goal is popped or the queue runs dry. The resulting maps form a search
   * tree, and unless the goal was discovered every neighbour of every
   * discovered cell was discovered too.
   */
  method Search(world: World, start: Point, end: Point) returns (cost: CostMap, parent: ParentMap)
    requires world.Valid()
    ensures SearchTree(world, start, cost, parent)
    ensures end in cost || Closed(world, cost.Keys)
  {
    var lookingAt := new PriorityQueue<Point>();
    lookingAt.Put(start, 0);
    parent := map[start := None];
    cost := map[start := 0];
    ghost var cells := world.Cells() + {start};
    assert Covers(world, cells);
    assert Settled(world, start, cost.Keys, lookingAt.data, {}) by {
      assert lookingAt.data[0] in lookingAt.data;
    }

    var isEmpty := lookingAt.Empty();
    while !isEmpty
      invariant fresh(lookingAt) && lookingAt.Valid()
      invariant isEmpty <==> lookingAt.data == []
      invariant SearchState(world, start, cells, cost, parent, lookingAt.data, {})
      decreases Potential(cells, cost), |lookingAt.data|
    {
      ghost var before := lookingAt.data;
      var popped := lookingAt.Pop();
      ghost var k := FirstMinimum(before);
      var current := popped.value;
      assert |lookingAt.data| == |before| - 1 by {
        assert |multiset(lookingAt.data)| == |multiset(before)| - 1;
      }
      PopKeepsState(world, start, cells, cost, parent, before, lookingAt.data, before[k]);

      // Stop as soon as the goal is popped.
      if current == end {
        break;
      }

      cost, parent := ExpandCell(world, start, end, current, lookingAt, cost, parent, cells);
      isEmpty := lookingAt.Empty();
    }
    if end !in cost {
      DrainedQueueClosed(world, start, cells, cost, parent);
    }
  }

  /** With nothing queued and nothing pending, every discovered cell has been expanded. */
  lemma DrainedQueueClosed(w: World, start: Point, cells: set<Point>, cost: CostMap, parent: ParentMap)
    requires w.Valid()
    requires SearchState(w, start, cells, cost, parent, [], {})
    ensures Closed(w, cost.Keys)
  {
    forall q | q in cost.Keys
      ensures Expanded(w, q, cost.Keys)
    {
      assert Settled(w, q, cost.Keys, [], {});
    }
  }

  /** The two dictionaries and the queue of the search, taken together. */
  datatype Snapshot = Snapshot(cost: CostMap, parent: ParentMap, queue: seq<Entry<Point>>)

  /** The guard of the inner loop: `n` is new, or `c` beats its recorded cost. */
  predicate Improves(cost: CostMap, c: nat, n: Point)
  {
    n !in cost || c < cost[n]
  }

  /**
   * One pass of the inner loop for the neighbour `n` of `from`, offered at
   * cost `c`: when `c` improves on `n`, record it with `from` as parent and
   * queue `n` at `c` plus the distance from `n` to `end`.
   */
  function RelaxStep(end: Point, from: Point, c: nat, n: Point, s: Snapshot): Snapshot
  {
    if Improves(s.cost, c, n) then
      Snapshot(s.cost[n := c], s.parent[n := Some(from)], s.queue + [Entry(c + ManhattanDistance(end, n), n)])
    else s
  }

  /** The inner loop over the neighbours `ns`, taken in order. */
  function Relax(end: Point, from: Point, c: nat, ns: seq<Point>, s: Snapshot): Snapshot
    decreases |ns|
  {
    if ns == [] then s else RelaxStep(end, from, c, ns[|ns| - 1], Relax(end, from, c, ns[..|ns| - 1], s))
  }

  /**
   * The expansion of a popped cell in `a_star`: every neighbour of `current`
   * that is new or now reachable more cheaply gets the cost of `current`
   * plus one, `current` as its parent, and a queue entry whose priority adds
   * the distance still to go to `end` (`Relax`). Afterwards every neighbour
   * of `current` is discovered and the search invariant holds again.
   */
  method ExpandCell(world: World, start: Point, end: Point, current: Point, lookingAt: PriorityQueue<Point>,
                    cost0: CostMap, parent0: ParentMap, ghost cells: set<Point>)
    returns (cost: CostMap, parent: ParentMap)
    requires world.Valid() && Covers(world, cells)
    requires lookingAt.Valid()
    requires current in cost0
    requires SearchState(world, start, cells, cost0, parent0, lookingAt.data, {current})
    modifies lookingAt
    ensures lookingAt.Valid()
    ensures Snapshot(cost, parent, lookingAt.data)
         == Relax(end, current, cost0[current] + 1, world.NeighbourList(current), Snapshot(cost0, parent0, old(lookingAt.data)))
    ensures Expanded(world, current, cost.Keys)
    ensures SearchState(world, start, cells, cost, parent, lookingAt.data, {})
    ensures old(|lookingAt.data|) <= |lookingAt.data|
    ensures Potential(cells, cost) + |lookingAt.data| <= Potential(cells, cost0) + old(|lookingAt.data|)
  {
    ghost var s0 := Snapshot(cost0, parent0, lookingAt.data);
    var neighbours := world.Neighbours(current);
    cost, parent := RelaxNeighbours(end, current, neighbours, lookingAt, cost0, parent0);
    RelaxRestoresState(world, start, cells, end, current, s0, Snapshot(cost, parent, lookingAt.data));
  }

  /**
   * Relaxing all neighbours of a popped cell restores the search invariant
   * with nothing pending, discovers every neighbour, only appends to the
   * queue, and does not raise the termination measure.
   */
  lemma RelaxRestoresState(w: World, start: Point, cells: set<Point>, end: Point, from: Point, s: Snapshot, r: Snapshot)
    requires w.Valid() && Covers(w, cells) && from in s.cost
    requires SearchTree(w, start, s.cost, s.parent) && CostsBounded(cells, s.cost)
    requires QueueKnown(s.queue, s.cost) && AllSettled(w, s.cost, s.queue, {from})
    requires r == Relax(end, from, s.cost[from] + 1, w.NeighbourList(from), s)
    ensures SearchTree(w, start, r.cost, r.parent) && CostsBounded(cells, r.cost)
    ensures QueueKnown(r.queue, r.cost) && AllSettled(w, r.cost, r.queue, {})
    ensures Expanded(w, from, r.cost.Keys)
    ensures |s.queue| <= |r.queue|
    ensures Potential(cells, r.cost) + |r.queue| <= Potential(cells, s.cost) + |s.queue|
  {
    RelaxTreeAndCosts(w, start, cells, end, from, s, r);
    RelaxExpands(w, end, from, s, r);
  }

  /** Relaxing all neighbours of a popped cell keeps the search tree and the bound on costs. */
  lemma RelaxTreeAndCosts(w: World, start: Point, cells: set<Point>, end: Point, from: Point, s: Snapshot, r: Snapshot)
    requires w.Valid() && Covers(w, cells) && from in s.cost
    requires SearchTree(w, start, s.cost, s.parent) && CostsBounded(cells, s.cost)
    requires r == Relax(end, from, s.cost[from] + 1, w.NeighbourList(from), s)
    ensures SearchTree(w, start, r.cost, r.parent) && CostsBounded(cells, r.cost)
    ensures |s.queue| <= |r.queue|
    ensures Potential(cells, r.cost) + |r.queue| <= Potential(cells, s.cost) + |s.queue|
  {
    var ns := w.NeighbourList(from);
    RelaxKeepsTree(w, start, end, from, ns, s, r);
    RelaxBoundsCosts(w, cells, end, from, ns, s, r);
  }

  /**
   * Relaxing all neighbours of a popped cell discovers each of them and
   * leaves every discovered cell queued or expanded, with nothing pending.
   */
  lemma RelaxExpands(w: World, end: Point, from: Point, s: Snapshot, r: Snapshot)
    requires w.Valid() && from in s.cost
    requires QueueKnown(s.queue, s.cost) && AllSettled(w, s.cost, s.queue, {from})
    requires r == Relax(end, from, s.cost[from] + 1, w.NeighbourList(from), s)
    ensures Expanded(w, from, r.cost.Keys)
    ensures QueueKnown(r.queue, r.cost) && AllSettled(w, r.cost, r.queue, {})
  {
    var ns, c := w.NeighbourList(from), s.cost[from] + 1;
    RelaxKeepsQueue(w, end, from, c, ns, s, r);
    RelaxDiscovers(end, from, c, ns, s, r);
    ExpandedLeavesNothingPending(w, r.cost, r.queue, from, ns);
  }

  /**
   * The loop over the popped cell's neighbours: each one that `Improves` on
   * its recorded cost gets a new cost, a parent and a queue entry;
   * the whole loop is proved to perform `Relax`.
   */
  method RelaxNeighbours(end: Point, current: Point, neighbours: seq<Point>, lookingAt: PriorityQueue<Point>,
                         cost0: CostMap, parent0: ParentMap)
    returns (cost: CostMap, parent: ParentMap)
    requires lookingAt.Valid()
    requires current in cost0
    modifies lookingAt
    ensures lookingAt.Valid()
    ensures Snapshot(cost, parent, lookingAt.data)
         == Relax(end, current, cost0[current] + 1, neighbours, Snapshot(cost0, parent0, old(lookingAt.data)))
  {
    cost, parent := cost0, parent0;
    ghost var s0 := Snapshot(cost0, parent0, lookingAt.data);
    for i := 0 to |neighbours|
      invariant lookingAt.Valid()
      invariant current in cost && cost[current] == cost0[current]
      invariant Snapshot(cost, parent, lookingAt.data) == Relax(end, current, cost0[current] + 1, neighbours[..i], s0)
    {
      var newPoint := neighbours[i];
      var newCost := cost[current] + 1;
      assert neighbours[..i + 1][..i] == neighbours[..i];
      if newPoint !in cost || newCost < cost[newPoint] {
        // The priority is the cost so far plus the estimate of the distance left.
        var priority := newCost + ManhattanDistance(end, newPoint);
        cost := cost[newPoint := newCost];
        lookingAt.Put(newPoint, priority);
        parent := parent[newPoint := Some(current)];
      }
    }
    assert neighbours[..|neighbours|] == neighbours;
  }

  /**
   * What the inner loop does to the costs, as a closed form: exactly the
   * neighbours that `c` improves on are recorded at `c`; every other cost
   * stays as it was.
   */
  lemma {:induction false} RelaxCosts(end: Point, from: Point, c: nat, ns: seq<Point>, s: Snapshot, r: Snapshot)
    requires r == Relax(end, from, c, ns, s)
    ensures forall q :: q in r.cost <==> q in s.cost || q in ns
    ensures forall q :: q in r.cost ==> r.cost[q] == if q in ns && Improves(s.cost, c, q) then c else s.cost[q]
    decreases |ns|
  {
    if ns != [] {
      var p, n := ns[..|ns| - 1], ns[|ns| - 1];
      RelaxCosts(end, from, c, p, s, Relax(end, from, c, p, s));
      assert ns == p + [n];
    }
  }

  /** The same closed form for the parents: the improved neighbours get `from`. */
  lemma {:induction false} RelaxParents(end: Point, from: Point, c: nat, ns: seq<Point>, s: Snapshot, r: Snapshot)
    requires r == Relax(end, from, c, ns, s)
    ensures forall q :: q in r.parent <==> q in s.parent || (q in ns && Improves(s.cost, c, q))
    ensures forall q :: q in r.parent ==> r.parent[q] == if q in ns && Improves(s.cost, c, q) then Some(from) else s.parent[q]
    decreases |ns|
  {
    if ns != [] {
      var p, n := ns[..|ns| - 1], ns[|ns| - 1];
      var m := Relax(end, from, c, p, s);
      RelaxParents(end, from, c, p, s, m);
      RelaxCosts(end, from, c, p, s, m);
      assert ns == p + [n];
    }
  }

  /** Across one expansion a recorded cost never grows and no discovered cell is lost, since the guard `Improves` only lets a lower cost through. */
  lemma {:induction false} RelaxOnlyLowers(end: Point, from: Point, c: nat, ns: seq<Point>, s: Snapshot, r: Snapshot)
    requires r == Relax(end, from, c, ns, s)
    ensures s.cost.Keys <= r.cost.Keys
    ensures forall q :: q in s.cost ==> r.cost[q] <= s.cost[q]
    decreases |ns|
  {
    if ns != [] {
      RelaxOnlyLowers(end, from, c, ns[..|ns| - 1], s, Relax(end, from, c, ns[..|ns| - 1], s));
    }
  }

  /** After the inner loop every neighbour it went through is discovered. */
  lemma {:induction false} RelaxDiscovers(end: Point, from: Point, c: nat, ns: seq<Point>, s: Snapshot, r: Snapshot)
    requires r == Relax(end, from, c, ns, s)
    ensures forall n :: n in ns ==> n in r.cost
    decreases |ns|
  {
    if ns != [] {
      var p := ns[..|ns| - 1];
      var m := Relax(end, from, c, p, s);
      RelaxDiscovers(end, from, c, p, s, m);
      RelaxOnlyLowers(end, from, c, [ns[|ns| - 1]], m, r);
      assert ns == p + [ns[|ns| - 1]];
    }
  }

  /** The inner loop only appends to the queue. */
  lemma {:induction false} RelaxAppends(end: Point, from: Point, c: nat, ns: seq<Point>, s: Snapshot, r: Snapshot)
    requires r == Relax(end, from, c, ns, s)
    ensures |s.queue| <= |r.queue| <= |s.queue| + |ns|
    ensures r.queue[..|s.queue|] == s.queue
    decreases |ns|
  {
    if ns != [] {
      var m := Relax(end, from, c, ns[..|ns| - 1], s);
      RelaxAppends(end, from, c, ns[..|ns| - 1], s, m);
      assert r.queue[..|m.queue|] == m.queue;
    }
  }

  /**
   * Every entry the inner loop appends is for a neighbour that `c` improves
   * on, at priority `c` plus that neighbour's distance to `end`.
   */
  lemma {:induction false} RelaxQueuesImproved(end: Point, from: Point, c: nat, ns: seq<Point>, s: Snapshot, r: Snapshot)
    requires r == Relax(end, from, c, ns, s)
    ensures forall k :: |s.queue| <= k < |r.queue| ==>
      && r.queue[k].item in ns
      && Improves(s.cost, c, r.queue[k].item)
      && r.queue[k].priority == c + ManhattanDistance(end, r.queue[k].item)
    decreases |ns|
  {
    if ns != [] {
      var p, n := ns[..|ns| - 1], ns[|ns| - 1];
      var m := Relax(end, from, c, p, s);
      RelaxQueuesImproved(end, from, c, p, s, m);
      RelaxAppends(end, from, c, p, s, m);
      RelaxOnlyLowers(end, from, c, p, s, m);
      assert ns == p + [n];
    }
  }

  /** Every neighbour that `c` improves on is appended to the queue, at priority `c` plus its distance to `end`. */
  lemma {:induction false} RelaxQueuesAll(end: Point, from: Point, c: nat, ns: seq<Point>, s: Snapshot, r: Snapshot)
    requires r == Relax(end, from, c, ns, s)
    ensures forall q :: q in ns && Improves(s.cost, c, q) ==>
      exists k :: |s.queue| <= k < |r.queue| && r.queue[k] == Entry(c + ManhattanDistance(end, q), q)
    decreases |ns|
  {
    if ns != [] {
      var p, n := ns[..|ns| - 1], ns[|ns| - 1];
      var m := Relax(end, from, c, p, s);
      RelaxQueuesAll(end, from, c, p, s, m);
      RelaxAppends(end, from, c, p, s, m);
      RelaxCosts(end, from, c, p, s, m);
      assert ns == p + [n];
      assert forall k :: 0 <= k < |m.queue| ==> r.queue[k] == m.queue[k];
      if Improves(m.cost, c, n) {
        assert r.queue[|m.queue|] == Entry(c + ManhattanDistance(end, n), n);
      }
    }
  }

  /**
   * The A* priorities an expansion queues: each is the cost just recorded
   * for its cell plus the cell's distance to `end`, and, the heuristic being
   * consistent, none is below the expanded cell's own cost plus distance.
   */
  lemma RelaxPriorities(w: World, end: Point, from: Point, ns: seq<Point>, s: Snapshot, r: Snapshot)
    requires w.Valid() && from in s.cost
    requires forall n :: n in ns ==> n in w.NeighbourList(from)
    requires r == Relax(end, from, s.cost[from] + 1, ns, s)
    ensures forall k :: |s.queue| <= k < |r.queue| ==>
      r.queue[k].item in r.cost && r.queue[k].priority == r.cost[r.queue[k].item] + ManhattanDistance(end, r.queue[k].item)
    ensures forall k :: |s.queue| <= k < |r.queue| ==> s.cost[from] + ManhattanDistance(end, from) <= r.queue[k].priority
  {
    var c := s.cost[from] + 1;
    RelaxCosts(end, from, c, ns, s, r);
    RelaxQueuesImproved(end, from, c, ns, s, r);
    forall k | |s.queue| <= k < |r.queue|
      ensures r.queue[k].item in r.cost && r.queue[k].priority == r.cost[r.queue[k].item] + ManhattanDistance(end, r.queue[k].item)
      ensures s.cost[from] + ManhattanDistance(end, from) <= r.queue[k].priority
    {
      var n := r.queue[k].item;
      assert n in ns && Improves(s.cost, c, n);
      assert r.cost[n] == c;
      w.NeighbourListMembers(from, n);
      HeuristicConsistent(from, n, end);
      DistanceSymmetric(from, end);
      DistanceSymmetric(n, end);
    }
  }

  /** The expanded cell keeps its cost: no neighbour offered at a higher cost replaces it. */
  lemma {:induction false} RelaxKeepsFrom(end: Point, from: Point, c: nat, ns: seq<Point>, s: Snapshot, r: Snapshot)
    requires from in s.cost && s.cost[from] < c
    requires r == Relax(end, from, c, ns, s)
    ensures from in r.cost && r.cost[from] == s.cost[from]
    decreases |ns|
  {
    if ns != [] {
      RelaxKeepsFrom(end, from, c, ns[..|ns| - 1], s, Relax(end, from, c, ns[..|ns| - 1], s));
    }
  }

  /** Relaxing neighbours of a discovered cell keeps the search tree. */
  lemma {:induction false} RelaxKeepsTree(w: World, start: Point, end: Point, from: Point, ns: seq<Point>, s: Snapshot, r: Snapshot)
    requires w.Valid() && from in s.cost
    requires forall i :: 0 <= i < |ns| ==> ns[i] in w.NeighbourList(from)
    requires SearchTree(w, start, s.cost, s.parent)
    requires r == Relax(end, from, s.cost[from] + 1, ns, s)
    ensures SearchTree(w, start, r.cost, r.parent)
    decreases |ns|
  {
    if ns != [] {
      var c := s.cost[from] + 1;
      var p, n := ns[..|ns| - 1], ns[|ns| - 1];
      var m := Relax(end, from, c, p, s);
      RelaxKeepsTree(w, start, end, from, p, s, m);
      RelaxKeepsFrom(end, from, c, p, s, m);
      if Improves(m.cost, c, n) {
        RecordKeepsTree(w, start, m.cost, m.parent, from, n);
      }
    }
  }

  /**
   * Relaxing neighbours of a discovered cell keeps costs bounded and lowers
   * the termination measure by at least the number of entries queued.
   */
  lemma {:induction false} RelaxBoundsCosts(w: World, cells: set<Point>, end: Point, from: Point, ns: seq<Point>,
                                            s: Snapshot, r: Snapshot)
    requires w.Valid() && Covers(w, cells) && from in s.cost
    requires forall i :: 0 <= i < |ns| ==> ns[i] in w.NeighbourList(from)
    requires CostsBounded(cells, s.cost)
    requires r == Relax(end, from, s.cost[from] + 1, ns, s)
    ensures CostsBounded(cells, r.cost)
    ensures |s.queue| <= |r.queue|
    ensures Potential(cells, r.cost) + |r.queue| <= Potential(cells, s.cost) + |s.queue|
    decreases |ns|
  {
    if ns != [] {
      var c := s.cost[from] + 1;
      var p, n := ns[..|ns| - 1], ns[|ns| - 1];
      var m := Relax(end, from, c, p, s);
      RelaxBoundsCosts(w, cells, end, from, p, s, m);
      RelaxKeepsFrom(end, from, c, p, s, m);
      if Improves(m.cost, c, n) {
        RecordBoundsCosts(w, cells, m.cost, from, n);
      }
    }
  }

  /** Relaxing neighbours of a discovered cell keeps every discovered cell queued, expanded or pending. */
  lemma {:induction false} RelaxKeepsQueue(w: World, end: Point, from: Point, c: nat, ns: seq<Point>, s: Snapshot, r: Snapshot)
    requires w.Valid()
    requires QueueKnown(s.queue, s.cost)
    requires AllSettled(w, s.cost, s.queue, {from})
    requires r == Relax(end, from, c, ns, s)
    ensures QueueKnown(r.queue, r.cost)
    ensures AllSettled(w, r.cost, r.queue, {from})
    decreases |ns|
  {
    if ns != [] {
      var p, n := ns[..|ns| - 1], ns[|ns| - 1];
      var m := Relax(end, from, c, p, s);
      RelaxKeepsQueue(w, end, from, c, p, s, m);
      if Improves(m.cost, c, n) {
        RecordKeepsQueue(w, m.cost, m.queue, from, n, c + ManhattanDistance(end, n), c);
      }
    }
  }

  /** Popping `h` off a queue leaves only `h`'s cell possibly neither queued nor expanded. */
  lemma PopKeepsState(w: World, start: Point, cells: set<Point>, cost: CostMap, parent: ParentMap,
                      before: seq<Entry<Point>>, after: seq<Entry<Point>>, h: Entry<Point>)
    requires w.Valid()
    requires SearchState(w, start, cells, cost, parent, before, {})
    requires h in before
    requires multiset(after) == multiset(before) - multiset{h}
    ensures h.item in cost
    ensures SearchState(w, start, cells, cost, parent, after, {h.item})
  {
    QueuedAfterRemoval(before, after, h);
    forall q | q in cost
      ensures Settled(w, q, cost.Keys, after, {h.item})
    {
      assert Settled(w, q, cost.Keys, before, {});
    }
  }

  /** Once the popped cell's neighbours are all discovered, nothing is pending. */
  lemma ExpandedLeavesNothingPending(w: World, cost: CostMap, queue: seq<Entry<Point>>, current: Point, neighbours: seq<Point>)
    requires w.Valid()
    requires AllSettled(w, cost, queue, {current})
    requires neighbours == w.NeighbourList(current)
    requires forall n :: n in neighbours ==> n in cost
    ensures AllSettled(w, cost, queue, {})
  {
    forall q | q in cost
      ensures Settled(w, q, cost.Keys, queue, {})
    {
      assert Settled(w, q, cost.Keys, queue, {current});
    }
  }

  /** The recorded cell hangs below the expanded cell, one step further from the start. */
  lemma RecordKeepsTree(w: World, start: Point, cost: CostMap, parent: ParentMap, current: Point, next: Point)
    requires w.Valid()
    requires SearchTree(w, start, cost, parent)
    requires current in cost
    requires next in w.NeighbourList(current)
    requires next !in cost || cost[current] + 1 < cost[next]
    ensures SearchTree(w, start, cost[next := cost[current] + 1], parent[next := Some(current)])
  {
    w.NeighbourListMembers(current, next);
  }

  /** Costs stay below the number of discovered cells, all of them in `cells`. */
  lemma RecordBoundsCosts(w: World, cells: set<Point>, cost: CostMap, current: Point, next: Point)
    requires w.Valid()
    requires Covers(w, cells)
    requires CostsBounded(cells, cost)
    requires current in cost
    requires next in w.NeighbourList(current)
    requires next !in cost || cost[current] + 1 < cost[next]
    ensures CostsBounded(cells, cost[next := cost[current] + 1])
    ensures Potential(cells, cost[next := cost[current] + 1]) < Potential(cells, cost)
  {
    var v := cost[current] + 1;
    var cost' := cost[next := v];
    w.NeighbourListMembers(current, next);
    assert next in cells;
    assert cost'.Keys == cost.Keys + {next};
    SubsetSize(cost.Keys, cells);
    if next !in cost {
      assert cost.Keys < cells;
    }
    UnsettledShrinks(cells, |cells|, cost, next, v);
    SubsetSize(Unsettled(cells, |cells|, cost'), Unsettled(cells, |cells|, cost));
  }

  /** The recorded cell is queued; whatever was queued or expanded stays so. */
  lemma RecordKeepsQueue(w: World, cost: CostMap, queue: seq<Entry<Point>>, current: Point, next: Point,
                         priority: int, v: nat)
    requires w.Valid()
    requires QueueKnown(queue, cost)
    requires AllSettled(w, cost, queue, {current})
    ensures QueueKnown(queue + [Entry(priority, next)], cost[next := v])
    ensures AllSettled(w, cost[next := v], queue + [Entry(priority, next)], {current})
  {
    var cost' := cost[next := v];
    var queue' := queue + [Entry(priority, next)];
    forall q | q in cost'
      ensures Settled(w, q, cost'.Keys, queue', {current})
    {
      if q == next {
        assert queue'[|queue|] in queue';
      } else {
        assert Settled(w, q, cost.Keys, queue, {current});
        if Queued(queue, q) {
          var e :| e in queue && e.item == q;
          assert e in queue';
        }
      }
    }
  }

  /** The sequence in the opposite order (Python's `list.reverse`). */
  function Reversed<T>(s: seq<T>): (r: seq<T>)
    ensures |r| == |s|
    ensures forall i :: 0 <= i < |s| ==> r[i] == s[|s| - 1 - i]
  {
    if s == [] then [] else Reversed(s[1..]) + [s[0]]
  }

  /**
   * A trail of discovered cells walked backwards: each cell is one step from
   * the next one, and costs drop by at least one per cell along it.
   */
  ghost predicate BackTrail(w: World, cost: CostMap, trail: seq<Point>)
    requires w.Valid()
  {
    && (forall k :: 0 <= k < |trail| ==> trail[k] in cost)
    && (forall k :: 0 <= k < |trail| - 1 ==> cost[trail[k + 1]] < cost[trail[k]])
    && (forall k :: 0 <= k < |trail| - 1 ==> Step(w, trail[k + 1], trail[k]))
  }

  /** Along a back trail the cost drops by at least the distance travelled. */
  lemma {:induction false} BackTrailDescends(w: World, cost: CostMap, trail: seq<Point>, i: nat, j: nat)
    requires w.Valid()
    requires BackTrail(w, cost, trail)
    requires i <= j < |trail|
    ensures cost[trail[j]] + (j - i) <= cost[trail[i]]
    decreases j
  {
    if i < j {
      BackTrailDescends(w, cost, trail, i, j - 1);
    }
  }

  /**
   * The second half of `a_star`: follows the parent pointers back from `end`
   * to `start` and reverses the trail. A missing `end` is the `KeyError` that
   * reports that no path was found.
   */
  method ReconstructPath(ghost w: World, start: Point, end: Point, ghost cost: CostMap, parent: ParentMap)
    returns (r: Result<seq<Point>>)
    requires w.Valid()
    requires SearchTree(w, start, cost, parent)
    ensures r.Failure? <==> end !in parent
    ensures r.Failure? ==> r.error == NoPathMessage
    ensures r.Success? ==> Connects(w, start, end, r.value) && Distinct(r.value)
    ensures r.Success? ==> |r.value| <= cost[end] + 1
    ensures start == end ==> r == Success([start])
  {
    var point := end;
    var trail := [end];
    while point != start
      invariant |trail| >= 1 && trail[0] == end && trail[|trail| - 1] == point
      invariant end in cost || |trail| == 1
      invariant point == end || point in parent
      invariant end in cost ==> BackTrail(w, cost, trail)
      decreases if point in cost then cost[point] + 1 else 0
    {
      if point !in parent {
        return Failure(NoPathMessage);
      }
      point := parent[point].value;
      BackTrailExtends(w, cost, trail, point);
      trail := trail + [point];
    }
    BackTrailRoute(w, start, end, cost, trail);
    r := Success(Reversed(trail));
  }

  /** A discovered cell one step before the trail's last cell, and cheaper, extends the trail. */
  lemma BackTrailExtends(w: World, cost: CostMap, trail: seq<Point>, next: Point)
    requires w.Valid()
    requires trail != [] && BackTrail(w, cost, trail)
    requires next in cost && cost[next] < cost[trail[|trail| - 1]]
    requires Step(w, next, trail[|trail| - 1])
    ensures BackTrail(w, cost, trail + [next])
  {
    var n := |trail|;
    var t := trail + [next];
    forall k | 0 <= k < |t|
      ensures t[k] in cost
    {
    }
    forall k | 0 <= k < |t| - 1
      ensures cost[t[k + 1]] < cost[t[k]]
    {
    }
    forall k | 0 <= k < |t| - 1
      ensures Step(w, t[k + 1], t[k])
    {
    }
  }

  /** A trail from `end` back to `start`, reversed, is a route without repeats. */
  lemma BackTrailRoute(w: World, start: Point, end: Point, cost: CostMap, trail: seq<Point>)
    requires w.Valid()
    requires trail != [] && trail[0] == end && trail[|trail| - 1] == start
    requires BackTrail(w, cost, trail)
    ensures Connects(w, start, end, Reversed(trail))
    ensures Distinct(Reversed(trail))
    ensures |trail| <= cost[end] + 1
    ensures start == end ==> Reversed(trail) == [start]
  {
    BackTrailSteps(w, trail);
    BackTrailDistinct(w, cost, trail);
    BackTrailDescends(w, cost, trail, 0, |trail| - 1);
  }

  lemma BackTrailSteps(w: World, trail: seq<Point>)
    requires w.Valid()
    requires forall k :: 0 <= k < |trail| - 1 ==> Step(w, trail[k + 1], trail[k])
    ensures forall i :: 0 <= i < |trail| - 1 ==> Step(w, Reversed(trail)[i], Reversed(trail)[i + 1])
  {
    var n := |trail|;
    var path := Reversed(trail);
    forall i | 0 <= i < n - 1
      ensures Step(w, path[i], path[i + 1])
    {
      assert path[i] == trail[n - 2 - i + 1];
    }
  }

  lemma BackTrailDistinct(w: World, cost: CostMap, trail: seq<Point>)
    requires w.Valid()
    requires BackTrail(w, cost, trail)
    ensures Distinct(Reversed(trail))
  {
    var n := |trail|;
    var path := Reversed(trail);
    forall i, j | 0 <= i < j < n
      ensures path[i] != path[j]
    {
      BackTrailDescends(w, cost, trail, n - 1 - j, n - 1 - i);
    }
  }

  /** Reachability over steps. */
  ghost predicate Reachable(w: World, start: Point, end: Point)
    requires w.Valid()
  {
    exists path :: Connects(w, start, end, path)
  }

  /** Every cell of a route out of a closed set of discovered cells is discovered. */
  lemma {:induction false} RouteStaysKnown(w: World, keys: set<Point>, start: Point, end: Point, path: seq<Point>, i: nat)
    requires w.Valid()
    requires Closed(w, keys) && start in keys
    requires Connects(w, start, end, path) && i < |path|
    ensures path[i] in keys
    decreases i
  {
    if i > 0 {
      RouteStaysKnown(w, keys, start, end, path, i - 1);
      w.NeighbourListMembers(path[i - 1], path[i]);
      assert Expanded(w, path[i - 1], keys);
    }
  }

  /** A closed set of discovered cells holding the start holds every reachable cell. */
  lemma ReachableIsKnown(w: World, keys: set<Point>, start: Point, end: Point)
    requires w.Valid()
    requires Closed(w, keys) && start in keys
    requires Reachable(w, start, end)
    ensures end in keys
  {
    var path :| Connects(w, start, end, path);
    RouteStaysKnown(w, keys, start, end, path, |path| - 1);
  }

  /**
   * `a_star`: a route of steps from `start` to `end` that visits no cell
   * twice, or the failure message exactly when no such route exists.
   */
  method AStar(world: World, start: Point, end: Point) returns (r: Result<seq<Point>>)
    requires world.Valid()
    ensures r.Success? ==> Connects(world, start, end, r.value) && Distinct(r.value)
    ensures r.Failure? ==> r.error == NoPathMessage
    ensures r.Success? <==> Reachable(world, start, end)
    ensures start == end ==> r == Success([start])
  {
    var cost, parent := Search(world, start, end);
    r := ReconstructPath(world, start, end, cost, parent);
    if r.Failure? && Reachable(world, start, end) {
      ReachableIsKnown(world, cost.Keys, start, end);
    }
  }
}
