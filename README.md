# Lazor puzzle solver, modelled in Dafny

Lazor is a puzzle played on a grid of cells. Lasers start at given points
and move diagonally. The player places reflect (`A`), opaque (`B`) and
refract (`C`) blocks on the empty cells (`o`) until every checkpoint lies on
some laser's path. The solver reads a `.bff` puzzle file and traces every
laser through the grid. It then runs a breadth-first search over block
placements until one covers all checkpoints with its block counts summing to zero.

The project models the three core files in three modules.

- **`LazorBoard`** (`board.dfy`, from `board.py`) covers the optics engine.
  - Coordinates use the doubled point space: a point `(x, y)` is inside when
    `0 ≤ x ≤ 2·rows` and `0 ≤ y ≤ 2·cols`, and a block `(x, y)` is on the
    board when `0 ≤ x < rows` and `0 ≤ y < cols`.
  - It defines the coordinate helpers and bounds tests, and the ray tracer
    `calculate_track_by_laser`. The tracer is a pure recursive function
    `TrackFrom` together with the `while`/`break` method `TrackByLaser`,
    which is proved equal to it.
  - The closure of spawned lasers is the worklist method
    `Board.AllLasers`. It is proved equal to the least set that holds the
    sources and is closed under spawning, which is also the set of lasers
    reachable by spawn chains.
  - The `Board` class has mutable `grid` and `counts` fields. Its methods
    are `copy`, `set_block` and the closure `AllLasers`.
- **`LazorSolver`** (`solver.dfy`, from `solver.py`) covers the search.
  - `next_state` is specified with the reference definitions `Covered`,
    `Completed`, `Candidates` and `Moves`.
  - `featurize_board` is the row-major flattening `Featurize`. It is
    injective on grids of one shape.
  - `solve` is the breadth-first search. Any board it returns satisfies the
    return condition and is reachable from the start by legal placements.
    When it returns none, no reachable state satisfies the condition.
- **`LazorReader`** (`reader.dfy`, from `reader.py`) covers the `.bff` line
  reader.
  - Python's `strip` and `split` are modelled on Python's whitespace set
    (the characters `str.isspace` accepts), and `int` on ASCII digits with
    an optional sign.
  - The reader is a state machine over the stripped lines:
    `GRID START`/`GRID STOP` toggle the grid flag, grid lines add rows, and
    `A`/`B`/`C`/`L`/`P` records set counts, lasers and checkpoints.
    Python's exceptions become `Failure(IndexError)` and
    `Failure(ValueError)`.
  - The grid is transposed at the end, and the method `Reader` builds the
    board.

Point, block and direction are all the datatype `Point(x, y)`, as in the
source, where all three are integer pairs. The type codes are the source's
constants: `A = 0`, `B = 2`, `C = 1`, `O = 8`, `X = 9`. Integers are
unbounded, as they are in Python. Dafny's `/` by 2 agrees with Python's
`//` by 2, because the divisor is positive.

## Model

| member | source | states |
|---|---|---|
| LazorBoard.Rows | board.py:71-73 | the `rows` property, the number of block rows; BlockOutIffNotCell ties the bounds test on it to the set of cells |
| LazorBoard.Cols | board.py:75-77 | the `cols` property, the length of the first row; BlockOutIffNotCell ties the bounds test on it to the set of cells |
| LazorBoard.PointByDirection | board.py:128-142 | one step of a laser, componentwise addition; its partner StepBack states that stepping back along the negated direction undoes it and that it moves the point exactly when the direction is nonzero |
| LazorBoard.StepBack | board.py:142 | stepping back along the negated direction returns the point, and a step moves the point exactly when the direction is nonzero |
| LazorBoard.BlockByPointAndDirection | board.py:144-165 | the block entered from a point; its partners EnteredBlockFloor and EnteredBlockHoldsStep state which block it is |
| LazorBoard.EnteredBlockFloor | board.py:159-165 | for every point and direction, negative ones included, the entered block's coordinates are the floor halves of the moved coordinate and the kept one, chosen by the parity of `x`, as Python's `//` gives |
| LazorBoard.IsPointOut | board.py:246-270 | the point bounds test; its partner PointInsideIffOnSomeBlock ties it to the squares of the cells |
| LazorBoard.IsBlockOut | board.py:273-296 | the block bounds test; its partner BlockOutIffNotCell ties it to the set of cells |
| LazorBoard.TrackFrom | board.py:167-243 | the recursive tracer; TrackShape states its path and outcome, and TrackByLaser is proved to compute it |
| LazorBoard.Track | board.py:167-187 | the tracer started at a laser's origin and direction; TrackShape and OpenIffNotStopped state its path and outcome |
| LazorBoard.Spawns | board.py:121-123 | the lasers one trace adds to the worklist; SpawnsInBox bounds them and Closure is closed under them |
| LazorBoard.Place | board.py:96 | the grid assignment of set_block; PlaceChangesOneCell states that it changes that one cell only |
| LazorBoard.BlockOutIffNotCell | board.py:273-296 | a block is out of bounds exactly when it is not one of the `rows × cols` cells |
| LazorBoard.PointInsideIffOnSomeBlock | board.py:246-270 | on a non-empty grid, a point passes the point bounds test exactly when it lies on the closed square of some cell |
| LazorBoard.EnteredBlockHoldsStep | board.py:144-165 | from an edge midpoint (odd coordinate sum) moving diagonally, the block chosen by the parity of `x` is the one holding the middle of the step |
| LazorBoard.Reflected | board.py:200-207 | the reflected direction negates `y` when the point's `y` is even and `x` otherwise, so it keeps both magnitudes and is zero exactly when the incoming direction is |
| LazorBoard.ReflectWorkedCase | board.py:200-212 | a laser at (2, 0) moving (1, 1) on a 2×2 grid enters the `A` block (1, 0) and spawns only the laser at (2, 0) moving (1, -1) |
| LazorBoard.TrackShape | board.py:167-243 | the path starts at the origin, consecutive points differ by the direction, every point after the first is inside, and every point but the last enters a block that lets the laser through; the last point's entered block decides the outcome: leaving the board (open, no spawns), `A` (the reflected laser), `B` (nothing), `C` (the reflected and the straight laser), or otherwise the next point is out (open, no spawns) |
| LazorBoard.OpenIffNotStopped | board.py:190-240 | the trace stays open exactly when it did not stop at an `A`, `B` or `C` block, and an open trace spawns nothing |
| LazorBoard.TrackByLaser | board.py:167-243 | the `while True` walk returns the same path, spawned lasers and open flag as the recursive tracer |
| LazorBoard.SpawnsInBox | board.py:200-231 | every laser spawned by a laser whose direction components are bounded by K starts in a box of margin 2K around the point space and has components bounded by K, which bounds the closure |
| LazorBoard.Step | board.py:114-123 | one round of spawning contains its input and everything spawned by its members, and lies within every closed superset |
| LazorBoard.ClosureFrom | board.py:111-125 | iterating spawning rounds from S inside a finite universe reaches a set that contains S, is closed under spawning, and lies within every closed superset of S |
| LazorBoard.Closure | board.py:103-125 | the closure of the sources contains them, is closed under spawning, and is the least such set |
| LazorBoard.ChainInClosure | board.py:111-125 | the last laser of every spawn chain that starts at a source is in the closure |
| LazorBoard.ReachablePartClosed | board.py:111-125 | the lasers reachable by spawn chains contain the sources and are closed under spawning |
| LazorBoard.ClosureIsReachable | board.py:103-125 | a laser is in the closure exactly when a chain of spawns leads to it from a source |
| LazorBoard.WorklistStep | board.py:114-123 | one pop of a laser not yet known keeps the worklist invariant: known and queued lie in the closure, sources are known or queued, every known laser's spawns are known or queued |
| LazorBoard.PlaceChangesOneCell | board.py:96 | placing a block keeps the grid rectangular and of the same size, sets that one cell and leaves every other cell unchanged |
| LazorBoard.Board.constructor | board.py:37-41 | the new board holds the given grid, counts and set of sources |
| LazorBoard.Board.Copy | board.py:53-66 | a fresh board with the same grid, counts and sources |
| LazorBoard.Board.SetBlock | board.py:79-96 | the grid gets type t at the chosen cell and only there, and count t drops by one with the other counts unchanged |
| LazorBoard.Board.AllLasers | board.py:103-125 | the worklist returns exactly the closure of the board's sources |
| LazorSolver.PathPoints | solver.py:32-41 | the `covered` set, the points on the paths of a set of lasers; PathPointsAdd states that each laser adds exactly its path |
| LazorSolver.PathBlocks | solver.py:32-40 | the `blocks` set, the blocks entered from every path point but the last; PathBlocksAdd states that each laser adds exactly those, and PathBlocksOnBoard that they are passable cells of the board |
| LazorSolver.Covered | solver.py:25-41 | the points on the paths of the closure lasers; LaserCoverage is proved to compute it |
| LazorSolver.Completed | solver.py:43-46 | the test `covered >= checkpoints`; CompletedIffOnSomePath restates it as "each checkpoint lies on some closure laser's path", and NextState is proved to return it |
| LazorSolver.Sum | solver.py:113 | `sum(n_blocks_list, 0)`; SumOfCounts states it is the sum of the three counts |
| LazorSolver.SumOfCounts | solver.py:113 | on three counts, Sum is their total |
| LazorSolver.Goal | solver.py:113-114 | the return condition "completed and counts sum to zero"; Expand is proved to report it, and Solve's contract is stated with it |
| LazorSolver.PathPointsAdd | solver.py:32-41 | tracing one more laser adds exactly the points of its path to the covered points |
| LazorSolver.PathBlocksAdd | solver.py:32-40 | tracing one more laser adds exactly the blocks entered from the points of its path but the last |
| LazorSolver.PathBlocksOnBoard | solver.py:37-40 | every block entered from a path point but the last is a cell of the board that lets lasers through |
| LazorSolver.CompletedIffOnSomePath | solver.py:31-46 | a board is completed exactly when every checkpoint lies on the traced path of some laser of the closure |
| LazorSolver.Candidates | solver.py:37-66 | every candidate cell of a type (all cells when completed or for `B`, otherwise the blocks entered by closure paths) is a cell of the board |
| LazorSolver.Apply | solver.py:71-72 | a placement keeps a well-formed search state well-formed |
| LazorSolver.MovesAtAdd | solver.py:67-73 | adding one candidate cell adds a placement exactly when that cell holds `O` |
| LazorSolver.Moves | solver.py:51-73 | every placement produced is on the board with a type index in range |
| LazorSolver.MovesBelowNext | solver.py:51-66 | each round of the type loop adds the `O` cells among that type's candidates when its count is nonzero, and nothing otherwise |
| LazorSolver.MovesBelowAll | solver.py:51-73 | the three rounds of the type loop together give exactly the placements |
| LazorSolver.MovesCharacterized | solver.py:51-73 | a placement of type t at a cell is produced exactly when count t is nonzero, the cell is on the board and holds `O`, and the board is completed, or t is `B`, or the cell is entered by a closure laser's path |
| LazorSolver.MovesKeepCountsNonNegative | solver.py:51-53 | starting from non-negative counts, every child's counts stay non-negative |
| LazorSolver.Reach | solver.py:108-121 | every state reachable in at most n placements is well-formed |
| LazorSolver.AllCells | solver.py:56-65 | the nested loops collect exactly the cells of the board |
| LazorSolver.LaserCoverage | solver.py:25-41 | the loop over the closure collects exactly the covered points and the blocks entered from path points but the last |
| LazorSolver.AddEntered | solver.py:38-40 | the loop over `path[:-1]` adds exactly the blocks entered from those points |
| LazorSolver.MakeChild | solver.py:71-72 | the child is a fresh board equal to the parent but for the one placed cell and its one lower count, with the same sources |
| LazorSolver.PlaceEach | solver.py:67-73 | the children made for one type are one per `O` cell among the given cells, with distinct placements |
| LazorSolver.NextState | solver.py:9-74 | `completed` is exactly `Completed`, and the children are one per legal placement, each placement once, each a board equal to the parent but for that cell and count |
| LazorSolver.Featurize | solver.py:77-84 | the key of a rectangular grid has `rows · cols` entries |
| LazorSolver.FeaturizeAt | solver.py:84 | the key is the row-major flattening: entry `i · cols + j` is cell `(i, j)` |
| LazorSolver.FeaturizeInjective | solver.py:84 | two grids of the same shape with equal keys are equal |
| LazorSolver.FeaturizeMembers | solver.py:84 | a value occurs in the key exactly when it occurs in some row |
| LazorSolver.MoveKeepsDerived | solver.py:67-73 | a placement keeps a state derived from the start: more empty cells filled, counts lowered by the blocks placed |
| LazorSolver.KeyDetermines | solver.py:116-121 | two states derived from the same start with equal keys are the same state, counts included |
| LazorSolver.DerivedKeyInSpace | solver.py:104-121 | every key of a derived state lies in a finite set fixed by the start, which bounds the search |
| LazorSolver.ReachDerived | solver.py:108-121 | every reachable state is derived from the start |
| LazorSolver.ChildInReach | solver.py:116-121 | a child of a state reachable in n placements is reachable in n + 1 |
| LazorSolver.ChildExplored | solver.py:116-121 | in a set of explored states, which holds a state for the key of every child of each member, every child itself is present |
| LazorSolver.ClosedHoldsReach | solver.py:108-121 | a set holding the start and every child of each member holds every reachable state |
| LazorSolver.NewKeysStep | solver.py:104-121 | after a pop and the appends, the queued keys are still pairwise distinct and not among the explored ones |
| LazorSolver.UnseenStep | solver.py:116-121 | after a pop and the appends, no queued key is that of an explored state or of the popped one |
| LazorSolver.SearchStart | solver.py:103-106 | the start queued with its key marked visited satisfies the search invariant |
| LazorSolver.SearchStep | solver.py:108-121 | one loop round that does not return keeps the search invariant and strictly grows the visited keys or ends with an unchanged frontier and nothing enqueued |
| LazorSolver.SearchExhausted | solver.py:108-121 | when the queue empties under the invariant, no reachable state meets the return condition |
| LazorSolver.Enqueue | solver.py:116-121 | the boards appended are the children whose keys were new, the key of every child is then visited, and the appended keys are pairwise distinct and new |
| LazorSolver.Expand | solver.py:111-121 | reports exactly the return condition "completed and counts sum to zero", and otherwise enqueues as Enqueue does |
| LazorSolver.Solve | solver.py:87-121 | a returned board has the sources of the start, is completed with counts summing to zero, and is reachable from the start by legal placements; `None` means no reachable state meets that condition |
| LazorReader.Split | reader.py:38 | `line.split()`; SplitTokens states its tokens are non-empty without whitespace, SplitEmptyIff when it is empty, and SplitJoin that it inverts joining |
| LazorReader.RowOf | reader.py:49-63 | the row a grid line adds; RowOfCodes, RowOfTokens and GridRow state what it holds |
| LazorReader.Fields | reader.py:68-79 | the converted fields of a record, as many as its head reads; FieldsMeaning states which tokens they are and which exception a failure carries |
| LazorReader.InGrid | reader.py:30-44 | the `grid_start` flag after a sequence of stripped lines; InGridIff states it is set exactly when the last marker was `GRID START` |
| LazorReader.KindOf | reader.py:40-79 | the branch a stripped line takes given the flag; KindAt states that line i's role is decided by that line and the flag after the lines before it |
| LazorReader.StepLine | reader.py:40-79 | one stripped line; StepRaises and StepEffect state when it raises and what it changes |
| LazorReader.Parse | reader.py:35-79 | the whole loop over stripped lines; ParseSucceeds, ParseRaises, ParseRows, ParseCounts, ParseLasers and ParseCheckpoints state its outcome |
| LazorReader.Run | reader.py:35-79 | the loop over raw lines, each stripped first; RunBlank states what a blank line does, and Reader is proved to compute it |
| LazorReader.TrimLeft | reader.py:36 | drops exactly a leading run of whitespace |
| LazorReader.TrimRight | reader.py:36 | drops exactly a trailing run of whitespace |
| LazorReader.Strip | reader.py:36 | the result is a slice of the input with only whitespace outside it, and it neither starts nor ends with whitespace |
| LazorReader.StripIdempotent | reader.py:36 | stripping twice is stripping once |
| LazorReader.StripBlank | reader.py:36-65 | a line strips to `""` exactly when it is all whitespace |
| LazorReader.TokenLength | reader.py:38 | the first token ends at the first whitespace or the end of the line |
| LazorReader.SplitTokens | reader.py:38 | every token of `split()` is non-empty and holds no whitespace |
| LazorReader.SplitEmptyIff | reader.py:38 | `split()` gives no token exactly when the line is all whitespace |
| LazorReader.SplitJoin | reader.py:38 | splitting the tokens joined by single spaces gives back the tokens |
| LazorReader.ParseInt | reader.py:69-79 | `int()` succeeds exactly on an optional sign followed by at least one digit |
| LazorReader.NatTextValue | reader.py:69-79 | the decimal text of a natural number has that value |
| LazorReader.ParseIntText | reader.py:69-79 | `int()` of the decimal text of any integer gives that integer back |
| LazorReader.IntAt | reader.py:69-79 | `int(tokens[i])` raises IndexError exactly past the end, ValueError on a bad token, and otherwise gives that token's value |
| LazorReader.FieldsMeaning | reader.py:68-79 | a record's fields convert exactly when each of `int(tokens[1..n])` does, and then they are those values; otherwise the exception is that of the first token that fails |
| LazorReader.CellCode | reader.py:52-61 | a recognised grid token maps to one of the type codes |
| LazorReader.RowOfCodes | reader.py:49-63 | every entry of a parsed row is a type code |
| LazorReader.RowOfTokens | reader.py:52-61 | the tokens `A`, `B`, `C`, `o`, `x` read back as codes 0, 2, 1, 8, 9 |
| LazorReader.GridRow | reader.py:49-63 | the loop over a grid line's tokens builds exactly the row that keeps the recognised tokens in order |
| LazorReader.Apply | reader.py:68-79 | a record touches only counts, lasers and checkpoints and keeps three counts |
| LazorReader.Record | reader.py:66-79 | a record line with no token raises IndexError, and a successful record leaves the grid and the flag alone |
| LazorReader.ParseFailurePersists | reader.py:35-79 | once a prefix raises, the whole read raises the same exception |
| LazorReader.Where | reader.py:35-79 | the selected line indices are exactly the lines of the chosen role, in increasing order |
| LazorReader.InGridIff | reader.py:40-48 | the grid flag computed line by line is exactly "the last marker seen is `GRID START`" |
| LazorReader.KindAt | reader.py:40-79 | the role of line i is decided by that line and the flag after the lines before it |
| LazorReader.ParseInGridAfter | reader.py:40-44 | after a successful read, the grid flag is set exactly when the last marker was `GRID START` |
| LazorReader.StepRaises | reader.py:40-79 | one line raises exactly when it is a record whose fields do not convert, and then with that exception |
| LazorReader.StepEffect | reader.py:40-79 | blank lines change nothing, markers change only the flag, grid lines append their row, and records apply their fields |
| LazorReader.ParseSucceeds | reader.py:35-79 | reading succeeds exactly when no line is a record whose fields fail to convert |
| LazorReader.ParseRaises | reader.py:35-79 | a failed read raises the exception of the first line that raises, with all earlier lines fine |
| LazorReader.ParseRows | reader.py:40-63 | the rows are exactly the rows of the lines read with the grid flag set, one per line, in file order |
| LazorReader.ParseCounts | reader.py:68-73 | the count of `A`, `B` or `C` is the field of the last record with that head, or the initial 0 (reader.py:23) without one |
| LazorReader.ParseLasers | reader.py:74-77 | the lasers are those of the `L` records, one per record, in file order |
| LazorReader.ParseCheckpoints | reader.py:78-79 | a point is a checkpoint exactly when some `P` record names it |
| LazorReader.RunBlank | reader.py:48-65 | a blank line outside the grid changes nothing, and inside the grid it appends an empty row |
| LazorReader.Transpose | reader.py:82 | `zip(*grid)` as lists: as many columns as the shortest row, each holding one entry per row, `t[j][i] == rows[i][j]` |
| LazorReader.TransposeTwice | reader.py:82 | transposing a non-empty rectangular grid twice gives it back |
| LazorReader.ReadRecord | reader.py:66-79 | the record branch of the loop computes Record's new counts, lasers and checkpoints, or reports its exception |
| LazorReader.ReadLine | reader.py:36-79 | one loop iteration computes StepLine on the stripped line, or reports its exception |
| LazorReader.Reader | reader.py:22-89 | on a file that reads, the board has the transposed grid, the counts, the set of the lasers, and the checkpoints of the read; otherwise no board and the exception |

## Left out

- `printer.py` is not part of this model: it draws the solution with matplotlib and has no logic to verify.
- `Board.__str__` (board.py:43-51), the `debug` flags (board.py:15, solver.py:6), the commented-out `unset_block` (board.py:98-101) and the `__main__` block (solver.py:124-130) are left out. They are printing and scripting only.
- File opening and `readlines` (reader.py:32-35) are left out, since file I/O lies outside Dafny. `Reader` takes the file as a sequence of lines.
- Python's set iteration order is left out. The order of `queue.pop()` (board.py:115), of `for laser in lasers` (solver.py:32) and of `for block in blocks` (solver.py:67) is arbitrary. The loops pick any element, and the contracts do not depend on the order. Which solution `Solve` returns first is not specified, only that it is valid.
- LazorBoard.TrackByLaser, LazorBoard.TrackFrom: require a nonzero direction, as `Track`, `Board.AllLasers`, `NextState` and `Solve` do, so no `(0, 0)` laser is traced. The source traces such a laser to an end when the block it enters is off the board or holds `A`, `B` or `C` (board.py:196-231): it stops at once with a one-point path. Only on an `O` or `X` cell does it loop forever, since the point never moves. The model leaves out the terminating `(0, 0)` cases too. The reader itself accepts such an `L` line.
- LazorBoard.Board.Copy: the source's `__init__` builds a new set from the lasers (board.py:41). Since no code mutates it, the model shares one value.
- LazorReader.ParseInt: models `int()` on ASCII digits with an optional sign. Python's `int()` also accepts underscores between digits, surrounding whitespace (never present after `split()`) and non-ASCII digits. Those tokens raise ValueError in the model.
- LazorSolver.NextState, LazorSolver.PlaceEach: the contracts do not promise that the children are fresh objects distinct from each other and from the parent, as the source's `board.copy()` makes them (solver.py:71). MakeChild does promise it, but the search needs only the children's states, so the promise is not carried up.
- Python exceptions are modelled as `Failure(IndexError)` or `Failure(ValueError)` results, and `Reader` then returns a null board. The traceback is not modelled.
- LazorBoard.Cols: `cols` of an empty grid raises in Python (board.py:77). The model reads it as 0. Python never evaluates it on an empty grid, because `is_block_out` returns at the row test first.
- `Solve` terminates in the model. The bound is the finite set of keys derivable from the start. The source's loop ends for the same reason.
