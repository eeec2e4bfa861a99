/** Integer grid coordinates and the distance used as the search heuristic. */
module Vector {

  /** A cell coordinate (the source's `Vector2` named tuple): equality is structural. */
  datatype Point = Point(x: int, y: int)

  function Abs(n: int): nat
  {
    if n < 0 then -n else n
  }

  /**
   * `cartesian_distance`: in spite of its name it is the Manhattan (taxicab)
   * distance |x1 - x2| + |y1 - y2|, never negative, zero only on equal points.
   */
  function ManhattanDistance(a: Point, b: Point): (d: nat)
    ensures d == 0 <==> a == b
    ensures d >= Abs(a.x - b.x) && d >= Abs(a.y - b.y)
  {
    Abs(a.x - b.x) + Abs(a.y - b.y)
  }

  /** Two cells one horizontal or vertical step apart. */
  predicate Adjacent(a: Point, b: Point)
  {
    ManhattanDistance(a, b) == 1
  }

  lemma DistanceSymmetric(a: Point, b: Point)
    ensures ManhattanDistance(a, b) == ManhattanDistance(b, a)
  {
  }

  lemma DistanceTriangle(a: Point, b: Point, c: Point)
    ensures ManhattanDistance(a, c) <= ManhattanDistance(a, b) + ManhattanDistance(b, c)
  {
  }

  /**
   * The heuristic is consistent for unit steps: moving to an adjacent cell
   * changes the estimate to any goal by at most one.
   */
  lemma HeuristicConsistent(a: Point, b: Point, goal: Point)
    requires Adjacent(a, b)
    ensures ManhattanDistance(a, goal) <= 1 + ManhattanDistance(b, goal)
    ensures ManhattanDistance(b, goal) <= 1 + ManhattanDistance(a, goal)
  {
    DistanceTriangle(a, b, goal);
    DistanceTriangle(b, a, goal);
    DistanceSymmetric(a, b);
  }
}
