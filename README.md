# A* grid route planner, modelled in Dafny

`robotplanner.py` plans a route for a robot across a rectangular grid of
empty cells ("0") and walls. It searches with A*: a hand-written priority
queue ordered by cost-so-far plus the Manhattan distance to the goal, a
`cost` and a `parent` dictionary, and a walk back along the parents once
the search stops. It then prints the route as space-separated letters
`R`, `L`, `D`, `U` (y grows downwards), or the message
"No path could be found." when the goal cannot be reached.

The model has six modules, one per part of the program:

- `Wrappers`: `Option` and `Result`.
- `Vector`: the `Vector2` points and the `cartesian_distance` heuristic, which is the Manhattan distance.
- `Grid`: the `World` class. The world is never changed after it is built, so it is a datatype. `neighbours` is a method with the source's appending loop, proved equal to a function. `is_empty` is the predicate `IsEmpty`, which reads the cell's flag behind the bounds check; it has no contract of its own, and passability is stated through `Passable` in `NeighbourListMembers`.
- `Frontier`: the `PriorityQueue` class. It holds a `data` field of type `seq` that `put` and `pop` reassign. `pop` is specified by a stable sort of that list.
- `Planner`: `a_star`. It is split into these methods:
  - the search loop (`Search`);
  - the expansion of a popped cell (`ExpandCell`);
  - the loop over that cell's neighbours (`RelaxNeighbours`), proved equal to the function `Relax`, whose effect on the dictionaries and the queue is described by lemmas;
  - the walk back along the parents (`ReconstructPath`).

  `AStar` joins them.
- `Directions`: the printing loop at the end of the main program. It is a method that builds the printed text, proved equal to a function of the route.

Main results:

- Every route `AStar` returns starts at the start and ends at the goal. Each step is to an adjacent empty cell inside the world, and no cell repeats.
- `AStar` fails, with the source's message, exactly when no such route exists.
- Start equal to goal gives the one-cell route.
- The priority queue pops the earliest-put entry among those of the least priority.
- The printed letters, read from the start, retrace the route exactly.
- Removing the spaces from the printed text gives the letters back.

## Model

| member | source | states |
|---|---|---|
| Vector.ManhattanDistance | robotplanner.py:113-114 | The heuristic is zero exactly when the two points coincide. It is never below the distance along either axis. |
| Vector.DistanceSymmetric | robotplanner.py:113-114 | The heuristic does not depend on the order of its arguments. |
| Vector.DistanceTriangle | robotplanner.py:113-114 | The heuristic obeys the triangle inequality. |
| Vector.HeuristicConsistent | robotplanner.py:138 | Over one move, the estimate of the distance left to the goal changes by at most one. This consistency is what `Planner.RelaxPriorities` uses to bound the queued priorities from below. |
| Grid.World.PointInside | robotplanner.py:64-71 | In a valid world, a point that passes the bounds check indexes an existing row, and a cell within that row, so the read `rows[y][x]` is safe. |
| Grid.World.Neighbours | robotplanner.py:95-109 | The appending loop returns exactly the passable candidates, in the order they were tried. |
| Grid.World.PassableAmongMembers | robotplanner.py:104-107 | A point is kept by the inside-and-empty filter iff it was a candidate and is inside the world and empty. |
| Grid.World.PassableAmongOrdered | robotplanner.py:101-107 | Filtering never lengthens the list. It keeps the candidates' relative order. |
| Grid.World.NeighbourListMembers | robotplanner.py:95-109 | `q` is a neighbour of `p` iff `q` is inside the world, empty, and at Manhattan distance one from `p`. |
| Grid.World.NeighbourListOrder | robotplanner.py:95-109 | There are at most four neighbours and none repeats. They come in the order left, right, down, up. |
| Grid.CandidatesAdjacent | robotplanner.py:101-102 | The four candidate points are exactly the points at distance one. They are listed left, right, down, up. |
| Frontier.InsertPermutes | robotplanner.py:50 | Placing an entry into a list adds that entry and loses none. |
| Frontier.SortByPriority | robotplanner.py:50 | The sort by priority permutes the list: same length, and the same entries as a multiset. |
| Frontier.InsertLowerBound | robotplanner.py:50 | A lower bound on all priorities survives placing an entry that respects it. |
| Frontier.InsertSorted | robotplanner.py:50 | Placing an entry into a list sorted by priority keeps it sorted. |
| Frontier.SortSorted | robotplanner.py:50 | The sorted list is in ascending order of priority. |
| Frontier.InsertAtPriority | robotplanner.py:50 | Placing an entry in a sorted list keeps it in front of every equal-priority entry that was there. |
| Frontier.SortStable | robotplanner.py:50 | The sort is stable: for every priority, the entries of that priority keep their relative order. |
| Frontier.FirstMinimum | robotplanner.py:50-53 | Returns the index of the first entry of least priority in a non-empty list. |
| Frontier.SortHead | robotplanner.py:50-53 | The head of the sorted list is the first entry of least priority in the unsorted one. |
| Frontier.AtPriorityAppend | robotplanner.py:43 | Appending an entry adds it at the end of its own priority class and changes no other class. |
| Frontier.PriorityQueue.constructor | robotplanner.py:27-28 | A new queue holds no entries and has a history of nothing put. |
| Frontier.PriorityQueue.Empty | robotplanner.py:30-37 | `empty` is true exactly when no entry is queued. |
| Frontier.PriorityQueue.Put | robotplanner.py:39-43 | `put` appends one (priority, item) pair at the end of the list. It keeps the first-in-first-out invariant: for every priority, the queued entries are the latest ones put with it, in order. |
| Frontier.PriorityQueue.Pop | robotplanner.py:45-53 | `pop` returns `None` on an empty queue and leaves it empty. Otherwise it returns the item of the first least-priority entry and leaves the rest of the stably sorted list. Exactly that entry is removed, it is the oldest queued entry of its priority, and the invariant holds. |
| Frontier.PopKeepsSuffixes | robotplanner.py:45-53 | Removing the head of the sorted list keeps every priority class a suffix of what was put with that priority. |
| Frontier.RemoveHeadAtPriority | robotplanner.py:50-53 | The popped entry leaves only its own priority class, and from the front. |
| Frontier.PopRemovesFirstMinimum | robotplanner.py:45-53 | Sorting then popping index 0 takes exactly the first least-priority entry. It is the front of its priority class, and every other entry stays. |
| Planner.UnsettledShrinks | robotplanner.py:133-135 | Lowering a cell's cost removes pairs from the finite set of (cell, cost) pairs still to settle. This set is the termination measure of the search. |
| Planner.QueuedAfterRemoval | robotplanner.py:125 | Popping one entry leaves every other queued cell queued. |
| Planner.Search | robotplanner.py:117-142 | The search loop terminates. Its `cost` and `parent` maps form a search tree rooted at the start: the same keys, the start at cost 0 without a parent, and every other cell one step from its parent at a cost at least one higher. The goal was discovered, or every neighbour of every discovered cell was. |
| Planner.DrainedQueueClosed | robotplanner.py:124 | When the queue runs dry, every discovered cell has had all its neighbours discovered. |
| Planner.ExpandCell | robotplanner.py:132-142 | Expanding the popped cell leaves the dictionaries and the queue exactly as `Relax` describes for the cell's neighbour list at cost `cost[current] + 1`. Afterwards every neighbour of the cell is discovered. The search invariant holds again with nothing pending. The queue only grows, and the termination measure does not increase. |
| Planner.RelaxNeighbours | robotplanner.py:132-142 | The loop over the neighbours leaves `cost`, `parent` and the queue equal to `Relax` of the old ones. That is: each neighbour passing the guard of line 134 is recorded, given `current` as parent, and queued in turn. The queue's invariant is kept. |
| Planner.RelaxCosts | robotplanner.py:133-135 | Afterwards the discovered cells are the old ones plus the neighbours. A neighbour that the new cost improves on has exactly that cost. Every other cell keeps its old cost. |
| Planner.RelaxParents | robotplanner.py:134-142 | The neighbours the new cost improves on get `current` as parent. Every other parent entry stays as it was. |
| Planner.RelaxOnlyLowers | robotplanner.py:134-135 | An expansion loses no discovered cell and never raises a recorded cost. |
| Planner.RelaxDiscovers | robotplanner.py:132-135 | After the loop every neighbour has a cost. |
| Planner.RelaxAppends | robotplanner.py:139 | The loop only appends to the queue, no more entries than there are neighbours, and keeps the old entries in place. |
| Planner.RelaxQueuesImproved | robotplanner.py:134-139 | Every appended entry is for a neighbour the new cost improves on. Its priority is that cost plus the neighbour's Manhattan distance to the goal. |
| Planner.RelaxQueuesAll | robotplanner.py:134-139 | Every neighbour the new cost improves on is appended, at that cost plus its distance to the goal. |
| Planner.RelaxPriorities | robotplanner.py:136-139 | Each appended priority is its cell's recorded cost plus the cell's distance to the goal. Because the heuristic is consistent, no appended priority is below the expanded cell's own cost plus its distance to the goal. |
| Planner.RelaxKeepsFrom | robotplanner.py:133 | The expanded cell keeps its cost through the loop, so every neighbour is offered the same cost. |
| Planner.RelaxKeepsTree | robotplanner.py:134-142 | The loop keeps the search tree. |
| Planner.RelaxBoundsCosts | robotplanner.py:134-139 | The loop keeps every cost below the number of discovered cells. It lowers the termination measure by at least the number of entries it queues. |
| Planner.RelaxKeepsQueue | robotplanner.py:134-139 | The loop keeps every queued cell discovered. It keeps every discovered cell queued, expanded, or the cell being expanded. |
| Planner.RelaxExpands | robotplanner.py:132-142 | After all neighbours are relaxed, the popped cell counts as expanded, and every discovered cell is queued or expanded. |
| Planner.RelaxTreeAndCosts | robotplanner.py:132-142 | Relaxing all neighbours keeps the search tree and the bound on costs. The queue grows and the termination measure does not increase. |
| Planner.RelaxRestoresState | robotplanner.py:132-142 | Relaxing all neighbours of the popped cell restores every part of the search invariant, discovers every neighbour, and does not raise the termination measure. |
| Planner.PopKeepsState | robotplanner.py:125 | After a pop, the popped cell is discovered. Every other discovered cell is still queued or already expanded. |
| Planner.ExpandedLeavesNothingPending | robotplanner.py:132-142 | Once every neighbour of the popped cell has a cost, the popped cell counts as expanded. Nothing is left pending. |
| Planner.RecordKeepsTree | robotplanner.py:134-142 | Recording a cheaper cost and `current` as parent for a neighbour keeps the search tree. |
| Planner.RecordBoundsCosts | robotplanner.py:133-135 | Recording a cheaper cost keeps every cost below the number of discovered cells, and strictly lowers the termination measure. |
| Planner.RecordKeepsQueue | robotplanner.py:135-139 | Recording a cost and queueing the cell keeps queued cells discovered. It keeps every discovered cell queued, expanded or the cell being expanded. |
| Planner.Reversed | robotplanner.py:156 | `reverse` gives the same elements, in mirrored positions. |
| Planner.BackTrailDescends | robotplanner.py:149-151 | Along the walk back, costs fall by at least one per parent step. |
| Planner.BackTrailExtends | robotplanner.py:149-151 | Following a parent pointer extends the walk back with a cheaper cell, one step away. |
| Planner.ReconstructPath | robotplanner.py:144-158 | The walk back fails, with "No path could be found.", exactly when the goal has no parent entry. Otherwise the reversed path leads from the start to the goal with no cell repeated, and is at most one longer than the goal's recorded cost. Start equal to goal gives the one-cell route. |
| Planner.BackTrailRoute | robotplanner.py:144-158 | A walk back from the goal that reaches the start becomes, reversed, a repetition-free route no longer than the goal's cost plus one. |
| Planner.BackTrailSteps | robotplanner.py:156 | Reversing a walk back of parent steps gives a route of forward steps. |
| Planner.BackTrailDistinct | robotplanner.py:149-156 | Strictly falling costs mean the reversed walk repeats no cell. |
| Planner.RouteStaysKnown | robotplanner.py:132-134 | If every discovered cell had all its neighbours discovered, every cell of a route from the start is discovered. |
| Planner.ReachableIsKnown | robotplanner.py:147-154 | If every discovered cell had all its neighbours discovered and the goal is reachable, the goal was discovered. So the "No path" failure is only reported when no route exists. |
| Planner.AStar | robotplanner.py:117-158 | `a_star` succeeds iff a route of steps to adjacent empty cells leads from the start to the goal. On success its path is such a route, with no cell repeated. On failure it reports "No path could be found.". Start equal to goal gives the one-cell route. |
| Directions.Move | robotplanner.py:268-278 | Each letter moves to an adjacent cell. |
| Directions.StepLetter | robotplanner.py:268-278 | The printed letter is always one of the four. Between adjacent cells, moving by it from the first cell lands on the second. |
| Directions.MoveThenStepLetter | robotplanner.py:268-278 | Each letter is printed for its own move: the letters and the moves are in one-to-one correspondence. |
| Directions.Letters | robotplanner.py:260-278 | A route of n cells prints n-1 letters. Letter i names the move from cell i to cell i+1. |
| Directions.Walk | robotplanner.py:268-278 | Following n letters from a point visits n+1 cells, each one move from the one before. |
| Directions.WalkLetters | robotplanner.py:260-278 | Following the printed letters from the first cell of a contiguous route retraces the route. |
| Directions.LettersWalk | robotplanner.py:260-278 | The letters printed for a walk are the letters that were followed. The walk is contiguous. |
| Directions.RouteDirections | robotplanner.py:251-283 | For every route `a_star` returns, the printed letters lead from the start, along the route, to the goal. |
| Directions.Spaced | robotplanner.py:262-266 | n letters joined by single spaces take 2n-1 characters. |
| Directions.Unspaced | robotplanner.py:262-266 | Taking every other character keeps half the text, rounded up. |
| Directions.UnspacedSpaced | robotplanner.py:262-279 | Dropping the separators from the printed text gives back exactly the letters. |
| Directions.LettersAppend | robotplanner.py:260-281 | Extending a route by one cell adds the letter of that last move. |
| Directions.SpacedAppend | robotplanner.py:262-266 | Adding a letter after the first adds one space and the letter. |
| Directions.TextAppend | robotplanner.py:260-281 | The text for one more cell is the text so far, then a space unless this is the first letter, then the new letter. |
| Directions.DirectionText | robotplanner.py:258-283 | The printing loop outputs the route's letters joined by single spaces, then a newline. |

## Left out

- Command-line parsing, the existence check and reading of the environment file, and the width/height header line (robotplanner.py:198-233) are I/O. So are the checks that the start and end are inside the world and not on walls (234-248). `AStar` takes the world, start and end as parameters and does not need those checks.
- `err` (17-19) prints and exits the process. The model returns `Failure(NoPathMessage)` instead. The planner's other messages belong to the left-out command line.
- `graphical_route` (161-195) is an alternative display mode that draws the grid in ASCII. It is not part of this model.
- `World.__init__` (57-62) splits text lines into strings. The model takes the grid already parsed into booleans: true for "0", false for anything else, which `is_empty` treats as a wall.
- `Grid.World.Valid` requires at least one row and no row shorter than row 0. Longer rows are accepted and their extra cells never read, as in the source. The source raises an index error on an empty file. On a shorter row it raises one only when the search reads a cell past that row's end. That failure is not modelled.
- `World.__getitem__` (73-84) dispatches between row and cell access. Only cell access is used by the core, and the model reads `rows[y][x]` directly. Python's negative indices never arise, because every access is behind the bounds check.
- `Planner.AStar`: does not state that the returned route is a shortest one. The heuristic is proved consistent, but optimality of the first pop of the goal is not proved.
- `Planner.ReconstructPath`: requires the maps to form a search tree, which `Search` guarantees. In the source, the start's `None` parent is never followed either, because the walk stops at the start.
- `Planner.Search` carries a ghost set of cells and a ghost termination measure (`Unsettled`, `Potential`). The source's loop needs neither. They only show that it stops.
- `Frontier.PriorityQueue.Pop`: sorting is modelled by a stable insertion sort. Python's Timsort produces the same list, since both are stable sorts by the same key, but its algorithm and running time are not modelled.
