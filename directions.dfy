/**
 * The text output of the planner: one letter per move of the route, "R",
 * "L", "D" or "U", separated by single spaces and ended by a newline.
 */
module Directions {
  import opened Wrappers
  import opened Vector
  import opened Grid
  import opened Planner

  /** The four letters the planner prints. */
  predicate IsLetter(c: char)
  {
    c == 'R' || c == 'L' || c == 'D' || c == 'U'
  }

  predicate AllLetters(ls: seq<char>)
  {
    forall i :: 0 <= i < |ls| ==> IsLetter(ls[i])
  }

  /**
   * The letter printed for the move from `a` to `b`: x is compared before y,
   * and a move that is neither right, left nor down prints as "U". Between
   * adjacent cells the letter names the move exactly.
   */
  function StepLetter(a: Point, b: Point): (c: char)
    ensures IsLetter(c)
    ensures Adjacent(a, b) ==> Move(a, c) == b
  {
    if b.x > a.x then 'R'
    else if b.x < a.x then 'L'
    else if b.y > a.y then 'D'
    else 'U'
  }

  /** The cell one move from `p` in the direction of `c` (y grows downwards). */
  function Move(p: Point, c: char): (q: Point)
    requires IsLetter(c)
    ensures Adjacent(p, q)
  {
    match c
    case 'R' => Point(p.x + 1, p.y)
    case 'L' => Point(p.x - 1, p.y)
    case 'D' => Point(p.x, p.y + 1)
    case 'U' => Point(p.x, p.y - 1)
  }

  /** Each letter is printed for its own move and for no other. */
  lemma MoveThenStepLetter(p: Point, c: char)
    requires IsLetter(c)
    ensures StepLetter(p, Move(p, c)) == c
  {
  }

  /** The letters of a route, one per pair of consecutive cells. */
  function Letters(path: seq<Point>): (ls: seq<char>)
    ensures |ls| == if path == [] then 0 else |path| - 1
    ensures forall i {:trigger ls[i]} :: 0 <= i < |ls| ==> ls[i] == StepLetter(path[i], path[i + 1])
  {
    if |path| <= 1 then [] else [StepLetter(path[0], path[1])] + Letters(path[1..])
  }

  /** The cells visited when following `ls` from `p`, `p` included. */
  function Walk(p: Point, ls: seq<char>): (path: seq<Point>)
    requires AllLetters(ls)
    ensures |path| == |ls| + 1 && path[0] == p
    ensures forall i :: 0 <= i < |ls| ==> path[i + 1] == Move(path[i], ls[i])
    decreases |ls|
  {
    if ls == [] then [p] else [p] + Walk(Move(p, ls[0]), ls[1..])
  }

  /** A sequence of cells each adjacent to the next. */
  predicate Contiguous(path: seq<Point>)
  {
    forall i :: 0 <= i < |path| - 1 ==> Adjacent(path[i], path[i + 1])
  }

  /** Following the printed letters from the first cell retraces the route. */
  lemma {:induction false} WalkLetters(path: seq<Point>)
    requires path != [] && Contiguous(path)
    ensures AllLetters(Letters(path))
    ensures Walk(path[0], Letters(path)) == path
    decreases |path|
  {
    if |path| > 1 {
      assert Contiguous(path[1..]) by {
        forall i | 0 <= i < |path[1..]| - 1
          ensures Adjacent(path[1..][i], path[1..][i + 1])
        {
          assert path[1..][i] == path[i + 1] && path[1..][i + 1] == path[i + 2];
        }
      }
      WalkLetters(path[1..]);
    }
  }

  /** The letters printed for a walk are the letters it followed. */
  lemma {:induction false} LettersWalk(p: Point, ls: seq<char>)
    requires AllLetters(ls)
    ensures Contiguous(Walk(p, ls))
    ensures Letters(Walk(p, ls)) == ls
    decreases |ls|
  {
    if ls != [] {
      MoveThenStepLetter(p, ls[0]);
      LettersWalk(Move(p, ls[0]), ls[1..]);
    }
  }

  /** Every route the planner returns is printed as letters that lead from the start to the end along it. */
  lemma RouteDirections(w: World, start: Point, end: Point, path: seq<Point>)
    requires w.Valid() && Connects(w, start, end, path)
    ensures AllLetters(Letters(path))
    ensures Walk(start, Letters(path)) == path
    ensures Walk(start, Letters(path))[|Letters(path)|] == end
  {
    assert Contiguous(path) by {
      forall i | 0 <= i < |path| - 1
        ensures Adjacent(path[i], path[i + 1])
      {
        assert Step(w, path[i], path[i + 1]);
      }
    }
    WalkLetters(path);
  }

  /** Letters joined by single spaces. */
  function Spaced(ls: seq<char>): (text: string)
    ensures |text| == if ls == [] then 0 else 2 * |ls| - 1
  {
    if |ls| <= 1 then ls else [ls[0], ' '] + Spaced(ls[1..])
  }

  /** Every other character of `text`, starting with the first: drops the separators. */
  function Unspaced(text: string): (ls: seq<char>)
    ensures |ls| == (|text| + 1) / 2
  {
    if |text| <= 1 then text else [text[0]] + Unspaced(text[2..])
  }

  /** Dropping the separators of the spaced letters gives the letters back. */
  lemma {:induction false} UnspacedSpaced(ls: seq<char>)
    ensures Unspaced(Spaced(ls)) == ls
    decreases |ls|
  {
    if |ls| > 1 {
      var text := Spaced(ls);
      assert text[0] == ls[0];
      assert text[2..] == Spaced(ls[1..]);
      UnspacedSpaced(ls[1..]);
    }
  }

  /** Appending a cell to a route appends the letter of its last move. */
  lemma {:induction false} LettersAppend(path: seq<Point>, p: Point)
    requires path != []
    ensures Letters(path + [p]) == Letters(path) + [StepLetter(path[|path| - 1], p)]
    decreases |path|
  {
    if |path| > 1 {
      assert (path + [p])[1..] == path[1..] + [p];
      LettersAppend(path[1..], p);
    }
  }

  /** Appending a letter to non-empty spaced letters appends a space and the letter. */
  lemma {:induction false} SpacedAppend(ls: seq<char>, c: char)
    requires ls != []
    ensures Spaced(ls + [c]) == Spaced(ls) + [' ', c]
    decreases |ls|
  {
    if |ls| > 1 {
      assert (ls + [c])[1..] == ls[1..] + [c];
      SpacedAppend(ls[1..], c);
    }
  }

  /** The text for the first `k + 1` cells extends the text for the first `k` by one move. */
  lemma TextAppend(path: seq<Point>, k: nat)
    requires 1 <= k < |path|
    ensures Spaced(Letters(path[..k + 1]))
         == Spaced(Letters(path[..k])) + ((if k >= 2 then " " else "") + [StepLetter(path[k - 1], path[k])])
  {
    assert path[..k + 1] == path[..k] + [path[k]];
    LettersAppend(path[..k], path[k]);
    if k >= 2 {
      SpacedAppend(Letters(path[..k]), StepLetter(path[k - 1], path[k]));
    }
  }

  /**
   * The printing loop of the main program: for every cell after the first,
   * a space unless it is the first letter, then the letter of the move from
   * the previous cell; a newline at the end.
   */
  method DirectionText(path: seq<Point>) returns (text: string)
    ensures text == Spaced(Letters(path)) + "\n"
  {
    var previous: Option<Point> := None;
    var displayed := false;
    text := "";
    for k := 0 to |path|
      invariant previous == if k == 0 then None else Some(path[k - 1])
      invariant displayed <==> k >= 2
      invariant text == Spaced(Letters(path[..k]))
    {
      var point := path[k];
      if previous.Some? {
        var prev := previous.value;
        var toPrint: string;
        if displayed {
          toPrint := " ";
        } else {
          toPrint := "";
          displayed := true;
        }
        var letter: char;
        if point.x > prev.x {
          letter := 'R';
        } else if point.x < prev.x {
          letter := 'L';
        } else if point.y > prev.y {
          letter := 'D';
        } else {
          letter := 'U';
        }
        toPrint := toPrint + [letter];
        TextAppend(path, k);
        text := text + toPrint;
      }
      previous := Some(point);
    }
    assert path[..|path|] == path;
    text := text + "\n";
  }
}
