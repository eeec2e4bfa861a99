/** The obstacle map searched by the planner (class `World` of the source). */
module Grid {
  import opened Vector

  /**
   * The world as an already parsed matrix: `rows[y][x]` is true when the cell
   * held "0" (passable) and false for anything else (a wall). The world is
   * never changed after construction, so it is a value.
   */
  datatype World = World(rows: seq<seq<bool>>) {

    /**
     * The width is taken from row 0, so there must be a row 0, and no row may
     * be shorter than it (longer rows are accepted; their extra cells are
     * never looked at).
     */
    ghost predicate Valid()
    {
      |rows| > 0 && forall y :: 0 <= y < |rows| ==> |rows[y]| >= |rows[0]|
    }

    function Width(): nat
      requires |rows| > 0
    {
      |rows[0]|
    }

    function Height(): nat
    {
      |rows|
    }

    /** `point_inside`: the bounds check; it makes the cell read at `rows[y][x]` safe. */
    predicate PointInside(p: Point)
      requires |rows| > 0
      ensures PointInside(p) && Valid() ==> 0 <= p.y < |rows| && 0 <= p.x < |rows[p.y]|
    {
      0 <= p.x < Width() && 0 <= p.y < Height()
    }

    /**
     * `is_empty`: the flag read at `rows[y][x]` behind the bounds check; true
     * stands for a cell that held "0". What passability means for the search
     * is stated through `Passable` in `NeighbourListMembers`.
     */
    predicate IsEmpty(p: Point)
      requires Valid() && PointInside(p)
    {
      rows[p.y][p.x]
    }

    /** A cell the robot may stand on: inside the world and empty. */
    predicate Passable(p: Point)
      requires Valid()
    {
      PointInside(p) && IsEmpty(p)
    }

    /** Every cell of the world. */
    ghost function Cells(): (cells: set<Point>)
      requires Valid()
      ensures forall p :: p in cells <==> PointInside(p)
    {
      var cells := set x, y | 0 <= x < Width() && 0 <= y < Height() :: Point(x, y);
      assert forall p | PointInside(p) :: Point(p.x, p.y) in cells;
      cells
    }

    /** The passable cells of `s`, in the order of `s`. */
    function PassableAmong(s: seq<Point>): (r: seq<Point>)
      requires Valid()
    {
      if s == [] then []
      else PassableAmong(s[..|s| - 1]) + (if Passable(s[|s| - 1]) then [s[|s| - 1]] else [])
    }

    /** `neighbours` as a value: the passable cells among left, right, down (y+1), up (y-1). */
    function NeighbourList(p: Point): seq<Point>
      requires Valid()
    {
      PassableAmong(Candidates(p))
    }

    /** `neighbours`: collects the passable axis-aligned neighbours with an appending loop. */
    method Neighbours(p: Point) returns (ns: seq<Point>)
      requires Valid()
      ensures ns == NeighbourList(p)
    {
      ns := [];
      var potential := Candidates(p);
      for i := 0 to |potential|
        invariant ns == PassableAmong(potential[..i])
      {
        var neighbour := potential[i];
        assert potential[..i + 1][..i] == potential[..i];
        if PointInside(neighbour) {
          if IsEmpty(neighbour) {
            ns := ns + [neighbour];
          }
        }
      }
      assert potential[..|potential|] == potential;
    }

    lemma {:induction false} PassableAmongMembers(s: seq<Point>, q: Point)
      requires Valid()
      ensures q in PassableAmong(s) <==> q in s && Passable(q)
      decreases |s|
    {
      if s != [] {
        PassableAmongMembers(s[..|s| - 1], q);
        assert s == s[..|s| - 1] + [s[|s| - 1]];
      }
    }

    lemma {:induction false} PassableAmongOrdered(s: seq<Point>, p: Point)
      requires Valid()
      requires forall i, j :: 0 <= i < j < |s| ==> Slot(p, s[i]) < Slot(p, s[j])
      ensures |PassableAmong(s)| <= |s|
      ensures forall i, j :: 0 <= i < j < |PassableAmong(s)| ==>
                Slot(p, PassableAmong(s)[i]) < Slot(p, PassableAmong(s)[j])
      decreases |s|
    {
      if s != [] {
        var init := s[..|s| - 1];
        PassableAmongOrdered(init, p);
        var r := PassableAmong(init);
        forall i | 0 <= i < |r|
          ensures Slot(p, r[i]) < Slot(p, s[|s| - 1])
        {
          PassableAmongMembers(init, r[i]);
          var k :| 0 <= k < |init| && init[k] == r[i];
        }
      }
    }

    /**
     * Every neighbour is inside the world, passable and one step from `p`,
     * and every such cell is a neighbour.
     */
    lemma NeighbourListMembers(p: Point, q: Point)
      requires Valid()
      ensures q in NeighbourList(p) <==> Passable(q) && Adjacent(p, q)
    {
      PassableAmongMembers(Candidates(p), q);
      CandidatesAdjacent(p, q);
    }

    /**
     * At most four neighbours, listed strictly in the order left, right,
     * down, up; in particular no cell is listed twice.
     */
    lemma NeighbourListOrder(p: Point)
      requires Valid()
      ensures |NeighbourList(p)| <= 4
      ensures forall i, j :: 0 <= i < j < |NeighbourList(p)| ==>
                Slot(p, NeighbourList(p)[i]) < Slot(p, NeighbourList(p)[j])
      ensures forall i, j :: 0 <= i < j < |NeighbourList(p)| ==> NeighbourList(p)[i] != NeighbourList(p)[j]
    {
      PassableAmongOrdered(Candidates(p), p);
    }
  }

  /** The four cells around `p`, in the order the source tries them. */
  function Candidates(p: Point): (c: seq<Point>)
    ensures |c| == 4
  {
    [Point(p.x - 1, p.y), Point(p.x + 1, p.y), Point(p.x, p.y + 1), Point(p.x, p.y - 1)]
  }

  /** The position of `q` in the order left (0), right (1), down (2), up (3) around `p`. */
  function Slot(p: Point, q: Point): nat
  {
    if q.x < p.x then 0 else if q.x > p.x then 1 else if q.y > p.y then 2 else 3
  }

  lemma CandidatesAdjacent(p: Point, q: Point)
    ensures q in Candidates(p) <==> Adjacent(p, q)
    ensures forall i, j :: 0 <= i < j < 4 ==> Slot(p, Candidates(p)[i]) < Slot(p, Candidates(p)[j])
  {
  }
}
