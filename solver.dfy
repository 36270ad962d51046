/** The search of the Lazor solver: what one board covers, the boards one
    placement away, the canonical key of a grid and the breadth-first search. */
module LazorSolver {
  import opened LazorBoard

  // ---------------------------------------------------------------------
  // Coverage of a board

  /** The points on the paths of a set of lasers. */
  ghost function PathPoints(g: Grid, ls: set<Laser>): set<Point>
    requires IsRect(g) && AllValid(ls)
  {
    set l, p | l in ls && p in Track(g, l).path :: p
  }

  /** The blocks entered from every point of a path but its last. */
  ghost function PathBlocks(g: Grid, ls: set<Laser>): set<Block>
    requires IsRect(g) && AllValid(ls)
  {
    set l, k | l in ls && 0 <= k < |Track(g, l).path| - 1 :: BlockByPointAndDirection(Track(g, l).path[k], l.dir)
  }

  /** The blocks entered from the points of one path but its last. */
  function EnteredBlocks(path: seq<Point>, d: Direction, n: int): set<Block>
    requires n <= |path|
  {
    set k | 0 <= k < n :: BlockByPointAndDirection(path[k], d)
  }

  lemma PathPointsAdd(g: Grid, ls: set<Laser>, l: Laser)
    requires IsRect(g) && AllValid(ls) && ValidLaser(l)
    ensures PathPoints(g, ls + {l}) == PathPoints(g, ls) + set p | p in Track(g, l).path
  {
  }

  lemma PathBlocksAdd(g: Grid, ls: set<Laser>, l: Laser)
    requires IsRect(g) && AllValid(ls) && ValidLaser(l)
    ensures PathBlocks(g, ls + {l}) ==
            PathBlocks(g, ls) + EnteredBlocks(Track(g, l).path, l.dir, |Track(g, l).path| - 1)
  {
    var lhs := PathBlocks(g, ls + {l});
    var rhs := PathBlocks(g, ls) + EnteredBlocks(Track(g, l).path, l.dir, |Track(g, l).path| - 1);
    forall b | b in lhs ensures b in rhs {
      var l', k :| l' in ls + {l} && 0 <= k < |Track(g, l').path| - 1 &&
                   b == BlockByPointAndDirection(Track(g, l').path[k], l'.dir);
      if l' != l {
        assert b in PathBlocks(g, ls);
      }
    }
  }

  /** The blocks next to the laser paths are on the board and hold no A, B or
      C block. */
  lemma PathBlocksOnBoard(g: Grid, ls: set<Laser>)
    requires IsRect(g) && AllValid(ls)
    ensures forall b :: b in PathBlocks(g, ls) ==> LetsThrough(g, b)
  {
    forall b | b in PathBlocks(g, ls) ensures LetsThrough(g, b) {
      var l, k :| l in ls && 0 <= k < |Track(g, l).path| - 1 &&
                  b == BlockByPointAndDirection(Track(g, l).path[k], l.dir);
      TrackShape(g, l.origin, l.dir);
      assert PassesThrough(g, Track(g, l).path[k], l.dir);
    }
  }

  /** Every point on the path of some laser active on the board. */
  ghost function Covered(g: Grid, src: set<Laser>): set<Point>
    requires IsRect(g) && AllValid(src)
  {
    PathPoints(g, Closure(g, src))
  }

  ghost predicate Completed(g: Grid, src: set<Laser>, cps: set<Point>)
    requires IsRect(g) && AllValid(src)
  {
    cps <= Covered(g, src)
  }

  /** A board is completed exactly when each checkpoint lies on the traced
      path of some laser of the closure. */
  lemma CompletedIffOnSomePath(g: Grid, src: set<Laser>, cps: set<Point>)
    requires IsRect(g) && AllValid(src)
    ensures Completed(g, src, cps) <==>
            forall p :: p in cps ==> exists l :: l in Closure(g, src) && p in Track(g, l).path
  {
  }

  lemma CellsOnBoard(g: Grid)
    ensures forall c :: c in Cells(g) ==> !IsBlockOut(c, g)
  {
  }

  /** The blocks tried for a block of type t: all of them when the checkpoints
      are covered or t is B, else the blocks next to the laser paths. */
  ghost function Candidates(g: Grid, src: set<Laser>, cps: set<Point>, t: int): (r: set<Block>)
    requires IsRect(g) && AllValid(src)
    ensures forall c :: c in r ==> !IsBlockOut(c, g)
  {
    CellsOnBoard(g);
    PathBlocksOnBoard(g, Closure(g, src));
    if Completed(g, src, cps) || t == B then Cells(g) else PathBlocks(g, Closure(g, src))
  }

  // ---------------------------------------------------------------------
  // Search states and moves

  /** The part of a board that differs between search states. */
  datatype State = State(grid: Grid, counts: seq<int>)

  /** Put a block of type t at block cell. */
  datatype Move = Move(t: int, cell: Block)

  ghost function StateOf(b: Board): State
    reads b
  {
    State(b.grid, b.counts)
  }

  ghost predicate WellFormed(s: State) {
    IsRect(s.grid) && |s.counts| == 3
  }

  ghost predicate ValidMove(s: State, m: Move) {
    IsRect(s.grid) && !IsBlockOut(m.cell, s.grid) && 0 <= m.t < |s.counts|
  }

  ghost function Apply(s: State, m: Move): (r: State)
    requires ValidMove(s, m)
    ensures WellFormed(s) ==> WellFormed(r)
  {
    PlaceChangesOneCell(s.grid, m.cell, m.t);
    State(Place(s.grid, m.cell, m.t), s.counts[m.t := s.counts[m.t] - 1])
  }

  /** Empty cells among the given ones, each with a block of type t. */
  ghost function MovesAt(s: State, t: int, cells: set<Block>): set<Move>
    requires IsRect(s.grid)
  {
    set c | c in cells && !IsBlockOut(c, s.grid) && s.grid[c.x][c.y] == O :: Move(t, c)
  }

  lemma MovesAtAdd(s: State, t: int, cells: set<Block>, c: Block)
    requires IsRect(s.grid) && !IsBlockOut(c, s.grid)
    ensures MovesAt(s, t, cells + {c}) ==
            MovesAt(s, t, cells) + (if s.grid[c.x][c.y] == O then {Move(t, c)} else {})
  {
  }

  /** The placements next_state turns into child boards. */
  ghost function Moves(s: State, src: set<Laser>, cps: set<Point>): (r: set<Move>)
    requires WellFormed(s) && AllValid(src)
    ensures forall m :: m in r ==> ValidMove(s, m)
  {
    set t, c | 0 <= t < |s.counts| && s.counts[t] != 0 && c in Candidates(s.grid, src, cps, t) &&
               s.grid[c.x][c.y] == O :: Move(t, c)
  }

  ghost function MovesBelow(s: State, src: set<Laser>, cps: set<Point>, n: int): set<Move>
    requires WellFormed(s) && AllValid(src)
  {
    set m | m in Moves(s, src, cps) && m.t < n
  }

  lemma MovesBelowNext(s: State, src: set<Laser>, cps: set<Point>, t: int)
    requires WellFormed(s) && AllValid(src) && 0 <= t < 3
    ensures MovesBelow(s, src, cps, t + 1) ==
            MovesBelow(s, src, cps, t) +
            (if s.counts[t] != 0 then MovesAt(s, t, Candidates(s.grid, src, cps, t)) else {})
  {
  }

  lemma MovesBelowAll(s: State, src: set<Laser>, cps: set<Point>)
    requires WellFormed(s) && AllValid(src)
    ensures MovesBelow(s, src, cps, 3) == Moves(s, src, cps)
  {
  }

  /** Which placements are tried: a block of type t with a nonzero count goes
      into an empty cell; when the checkpoints are covered or t is B any empty
      cell of the board will do, otherwise only one entered from a point of a
      laser path other than its last. */
  lemma MovesCharacterized(s: State, src: set<Laser>, cps: set<Point>, m: Move)
    requires WellFormed(s) && AllValid(src)
    ensures m in Moves(s, src, cps) <==>
            0 <= m.t < 3 && s.counts[m.t] != 0 && !IsBlockOut(m.cell, s.grid) &&
            s.grid[m.cell.x][m.cell.y] == O &&
            (Completed(s.grid, src, cps) || m.t == B || m.cell in PathBlocks(s.grid, Closure(s.grid, src)))
  {
    BlockOutIffNotCell(m.cell, s.grid);
  }

  /** A type whose count is zero yields no child, so counts that start
      non-negative stay non-negative. */
  lemma MovesKeepCountsNonNegative(s: State, src: set<Laser>, cps: set<Point>, m: Move)
    requires WellFormed(s) && AllValid(src) && m in Moves(s, src, cps)
    requires forall t :: 0 <= t < 3 ==> s.counts[t] >= 0
    ensures forall t :: 0 <= t < 3 ==> Apply(s, m).counts[t] >= 0
  {
  }

  ghost function Children(s: State, src: set<Laser>, cps: set<Point>): set<State>
    requires WellFormed(s) && AllValid(src)
  {
    set m | m in Moves(s, src, cps) :: Apply(s, m)
  }

  function Sum(s: seq<int>): int {
    if s == [] then 0 else s[0] + Sum(s[1..])
  }

  /** On the three counts, Sum is sum(n_blocks_list, 0). */
  lemma SumOfCounts(s: seq<int>)
    requires |s| == 3
    ensures Sum(s) == s[0] + s[1] + s[2]
  {
    assert Sum(s[2..]) == s[2] + Sum(s[3..]);
    assert Sum(s[1..]) == s[1] + Sum(s[2..]);
  }

  /** The return condition of the search. */
  ghost predicate Goal(s: State, src: set<Laser>, cps: set<Point>)
    requires WellFormed(s) && AllValid(src)
  {
    Completed(s.grid, src, cps) && Sum(s.counts) == 0
  }

  /** The states one placement away from a state of R. */
  ghost function Next(R: set<State>, src: set<Laser>, cps: set<Point>): set<State>
    requires forall s :: s in R ==> WellFormed(s)
    requires AllValid(src)
  {
    set s, m | s in R && m in Moves(s, src, cps) :: Apply(s, m)
  }

  /** The states reachable from s0 in at most n placements. */
  ghost function Reach(s0: State, src: set<Laser>, cps: set<Point>, n: nat): (r: set<State>)
    requires WellFormed(s0) && AllValid(src)
    ensures forall s :: s in r ==> WellFormed(s)
  {
    if n == 0 then {s0}
    else
      var R := Reach(s0, src, cps, n - 1);
      R + Next(R, src, cps)
  }

  // ---------------------------------------------------------------------
  // Child boards

  /** Every block of the board. */
  method AllCells(board: Board) returns (blocks: set<Block>)
    requires board.Valid()
    ensures blocks == Cells(board.grid)
  {
    blocks := {};
    var rows, cols := Rows(board.grid), Cols(board.grid);
    for i := 0 to rows
      invariant blocks == set i', j' | 0 <= i' < i && 0 <= j' < cols :: Point(i', j')
    {
      for j := 0 to cols
        invariant blocks == (set i', j' | 0 <= i' < i && 0 <= j' < cols :: Point(i', j')) +
                            set j' | 0 <= j' < j :: Point(i, j')
      {
        blocks := blocks + {Point(i, j)};
      }
    }
  }

  /** The points on the paths of all lasers active on the board, and the
      blocks entered from every point of a path but its last. */
  method LaserCoverage(board: Board) returns (covered: set<Point>, blocks: set<Block>)
    requires board.Valid() && AllValid(board.lasers)
    ensures covered == Covered(board.grid, board.lasers)
    ensures blocks == PathBlocks(board.grid, Closure(board.grid, board.lasers))
  {
    ghost var g := board.grid;
    covered, blocks := {}, {};
    var lasers := board.AllLasers();
    var rest := lasers;
    while rest != {}
      invariant rest <= lasers
      invariant covered == PathPoints(g, lasers - rest)
      invariant blocks == PathBlocks(g, lasers - rest)
      decreases |rest|
    {
      var laser :| laser in rest;
      var direction := laser.dir;
      var path, spawned, isOpen := TrackByLaser(laser, board);
      TrackNonEmpty(g, laser);
      blocks := AddEntered(blocks, path, direction);
      covered := covered + set p | p in path;
      PathPointsAdd(g, lasers - rest, laser);
      PathBlocksAdd(g, lasers - rest, laser);
      MoveToDone(lasers, rest, laser);
      rest := rest - {laser};
    }
  }

  lemma TrackNonEmpty(g: Grid, l: Laser)
    requires IsRect(g) && ValidLaser(l)
    ensures |Track(g, l).path| >= 1
  {
    TrackShape(g, l.origin, l.dir);
  }

  lemma MoveToDone<T>(all: set<T>, rest: set<T>, x: T)
    requires rest <= all && x in rest
    ensures (all - rest) + {x} == all - (rest - {x})
  {
  }

  /** Adds the blocks entered from every point of path but its last. */
  method AddEntered(blocks: set<Block>, path: seq<Point>, direction: Direction) returns (r: set<Block>)
    requires |path| >= 1
    ensures r == blocks + EnteredBlocks(path, direction, |path| - 1)
  {
    r := blocks;
    for k := 0 to |path| - 1
      invariant r == blocks + EnteredBlocks(path, direction, k)
    {
      r := r + {BlockByPointAndDirection(path[k], direction)};
    }
  }

  /** No element of s occurs twice. */
  predicate AllDistinct<T(==)>(s: seq<T>) {
    forall i, j :: 0 <= i < j < |s| ==> s[i] != s[j]
  }

  /** moves lists, each once, the placements of type t at the empty cells
      among done. */
  ghost predicate ListsMovesAt(s: State, t: int, done: set<Block>, moves: seq<Move>)
    requires IsRect(s.grid)
  {
    (set m | m in moves) == MovesAt(s, t, done) &&
    (forall k :: 0 <= k < |moves| ==> moves[k].cell in done) &&
    AllDistinct(moves)
  }

  /** kid is the board made from a parent in state s by move m. */
  ghost predicate ChildBy(s: State, lasers: set<Laser>, kid: Board, m: Move)
    reads kid
  {
    kid.Valid() && kid.lasers == lasers && ValidMove(s, m) && StateOf(kid) == Apply(s, m)
  }

  /** A copy of the board with one block put in; the grid is copied so the
      child cannot affect the parent. */
  method MakeChild(board: Board, m: Move) returns (kid: Board)
    requires board.Valid() && ValidMove(StateOf(board), m)
    ensures fresh(kid) && ChildBy(StateOf(board), board.lasers, kid, m)
  {
    kid := board.Copy();
    kid.SetBlock(m.cell, m.t);
  }

  /** The move list of PlaceEach after one more block has been looked at. */
  lemma PlaceStep(s: State, t: int, done: set<Block>, block: Block, moves: seq<Move>)
    requires IsRect(s.grid) && !IsBlockOut(block, s.grid) && block !in done
    requires ListsMovesAt(s, t, done, moves)
    ensures ListsMovesAt(s, t, done + {block},
                         if s.grid[block.x][block.y] == O then moves + [Move(t, block)] else moves)
  {
    MovesAtAdd(s, t, done, block);
  }

  /** One child per empty cell among blocks, with a block of type t put there. */
  method PlaceEach(board: Board, t: int, blocks: set<Block>) returns (kids: seq<Board>, ghost moves: seq<Move>)
    requires board.Valid() && 0 <= t < |board.counts|
    requires forall c :: c in blocks ==> !IsBlockOut(c, board.grid)
    ensures |moves| == |kids|
    ensures (set m | m in moves) == MovesAt(StateOf(board), t, blocks)
    ensures AllDistinct(moves)
    ensures forall k :: 0 <= k < |kids| ==>
              moves[k].t == t && ChildBy(StateOf(board), board.lasers, kids[k], moves[k])
  {
    ghost var s := StateOf(board);
    kids, moves := [], [];
    var todo := blocks;
    ghost var done: set<Block> := {};
    while todo != {}
      invariant todo <= blocks && done == blocks - todo
      invariant StateOf(board) == s
      invariant |moves| == |kids|
      invariant ListsMovesAt(s, t, done, moves)
      invariant forall k :: 0 <= k < |kids| ==>
                  moves[k].t == t && ChildBy(s, board.lasers, kids[k], moves[k])
      decreases |todo|
    {
      var block :| block in todo;
      PlaceStep(s, t, done, block, moves);
      MoveToDone(blocks, todo, block);
      todo := todo - {block};
      done := done + {block};
      if board.grid[block.x][block.y] == O {
        var nextBoard := MakeChild(board, Move(t, block));
        kids := kids + [nextBoard];
        moves := moves + [Move(t, block)];
      }
    }
  }

  /** kids are the children of a board in state s, made by moves: one per
      placement of Moves, each placement once. */
  ghost predicate Expansion(s: State, src: set<Laser>, cps: set<Point>, kids: seq<Board>, moves: seq<Move>)
    requires WellFormed(s) && AllValid(src)
    reads kids
  {
    |moves| == |kids| && (set m | m in moves) == Moves(s, src, cps) && AllDistinct(moves) &&
    forall k :: 0 <= k < |kids| ==> ChildBy(s, src, kids[k], moves[k])
  }

  /** The coverage of the board and its children: one per placement in
      Moves, each a board equal to the parent but for that one cell and
      that one count. */
  method NextState(board: Board, checkpoints: set<Point>)
    returns (nextBoards: seq<Board>, completed: bool, ghost moves: seq<Move>)
    requires board.Valid() && AllValid(board.lasers)
    ensures completed == Completed(board.grid, board.lasers, checkpoints)
    ensures Expansion(StateOf(board), board.lasers, checkpoints, nextBoards, moves)
  {
    ghost var g, src, s := board.grid, board.lasers, StateOf(board);
    var covered, blocks := LaserCoverage(board);

    completed := false;
    if covered >= checkpoints {
      completed := true;
    }

    nextBoards := [];
    moves := [];
    var type_ := 0;
    while type_ < |board.counts|
      invariant 0 <= type_ <= |board.counts|
      invariant StateOf(board) == s
      invariant type_ <= B && !completed ==> blocks == PathBlocks(g, Closure(g, src))
      invariant |moves| == |nextBoards|
      invariant (set m | m in moves) == MovesBelow(s, src, checkpoints, type_)
      invariant forall k :: 0 <= k < |moves| ==> moves[k].t < type_
      invariant AllDistinct(moves)
      invariant forall k :: 0 <= k < |nextBoards| ==>
                  ChildBy(s, src, nextBoards[k], moves[k])
    {
      MovesBelowNext(s, src, checkpoints, type_);
      var value := board.counts[type_];
      if value == 0 {
        type_ := type_ + 1;
        continue;
      }
      if completed {
        var allBlocks := AllCells(board);
        blocks := allBlocks;
      }
      if type_ == B {
        blocks := AllCells(board);
      }
      assert blocks == Candidates(g, src, checkpoints, type_);
      var kids, kidMoves := PlaceEach(board, type_, blocks);
      AppendDistinct(moves, kidMoves, type_);
      nextBoards := nextBoards + kids;
      moves := moves + kidMoves;
      type_ := type_ + 1;
    }
    MovesBelowAll(s, src, checkpoints);
  }

  /** Moves of types below t followed by distinct moves of type t are distinct. */
  lemma AppendDistinct(ms: seq<Move>, ns: seq<Move>, t: int)
    requires forall k :: 0 <= k < |ms| ==> ms[k].t < t
    requires forall k :: 0 <= k < |ns| ==> ns[k].t == t
    requires AllDistinct(ms) && AllDistinct(ns)
    ensures AllDistinct(ms + ns)
    ensures (set m | m in ms + ns) == (set m | m in ms) + (set m | m in ns)
  {
  }

  // ---------------------------------------------------------------------
  // Canonical key

  /** The grid flattened row by row. */
  function Featurize(g: Grid): (key: seq<int>)
    ensures IsRect(g) ==> |key| == Rows(g) * Cols(g)
  {
    if |g| == 0 then []
    else
      var rest := Featurize(g[1..]);
      assert IsRect(g) ==> |rest| == (|g| - 1) * Cols(g);
      g[0] + rest
  }

  /** The key of a grid lists its cells in row-major order. */
  lemma {:induction false} FeaturizeAt(g: Grid, i: int, j: int)
    requires IsRect(g) && 0 <= i < Rows(g) && 0 <= j < Cols(g)
    ensures i * Cols(g) + j < |Featurize(g)|
    ensures Featurize(g)[i * Cols(g) + j] == g[i][j]
  {
    if i > 0 {
      var c, t := Cols(g), g[1..];
      assert t[0] == g[1];
      assert Cols(t) == c;
      FeaturizeAt(t, i - 1, j);
      var k := (i - 1) * c + j;
      MulShift(i, c);
      assert i * c + j == c + k;
      assert Featurize(g) == g[0] + Featurize(t);
    }
  }

  lemma MulShift(i: int, c: int)
    ensures i * c == c + (i - 1) * c
  {
  }

  /** Two grids of the same shape with the same key are the same grid. */
  lemma {:induction false} FeaturizeInjective(g1: Grid, g2: Grid)
    requires IsRect(g1) && IsRect(g2) && Rows(g1) == Rows(g2) && Cols(g1) == Cols(g2)
    requires Featurize(g1) == Featurize(g2)
    ensures g1 == g2
  {
    if |g1| > 0 {
      var k := Featurize(g1);
      assert g1[0] == k[..Cols(g1)] == g2[0];
      assert Featurize(g1[1..]) == k[Cols(g1)..] == Featurize(g2[1..]);
      FeaturizeInjective(g1[1..], g2[1..]);
      assert g1 == [g1[0]] + g1[1..];
      assert g2 == [g2[0]] + g2[1..];
    }
  }

  /** The values in a key are the values in the grid's rows. */
  lemma {:induction false} FeaturizeMembers(g: Grid, x: int)
    ensures x in Featurize(g) <==> exists i :: 0 <= i < |g| && x in g[i]
  {
    if |g| > 0 {
      FeaturizeMembers(g[1..], x);
      if x in Featurize(g[1..]) {
        var i :| 0 <= i < |g[1..]| && x in g[1..][i];
        assert x in g[i + 1];
      }
      if exists i :: 0 <= i < |g| && x in g[i] {
        var i :| 0 <= i < |g| && x in g[i];
        if i > 0 {
          assert x in g[1..][i - 1];
        }
      }
    }
  }

  // ---------------------------------------------------------------------
  // States derived from the start by placements

  predicate SameShape(g0: Grid, g: Grid) {
    |g0| == |g| && forall i :: 0 <= i < |g| ==> |g0[i]| == |g[i]|
  }

  /** Cells of the row that were empty in r0 and hold t in r. */
  function PlacedInRow(r0: seq<int>, r: seq<int>, t: int): nat
    requires |r0| == |r|
  {
    if |r| == 0 then 0 else (if r0[0] == O && r[0] == t then 1 else 0) + PlacedInRow(r0[1..], r[1..], t)
  }

  /** Cells of the grid that were empty in g0 and hold t in g. */
  function Placed(g0: Grid, g: Grid, t: int): nat
    requires SameShape(g0, g)
  {
    if |g| == 0 then 0 else PlacedInRow(g0[0], g[0], t) + Placed(g0[1..], g[1..], t)
  }

  lemma {:induction false} PlacedInRowUpdate(r0: seq<int>, r: seq<int>, j: int, v: int, t: int)
    requires |r0| == |r| && 0 <= j < |r|
    ensures PlacedInRow(r0, r[j := v], t) + (if r0[j] == O && r[j] == t then 1 else 0) ==
            PlacedInRow(r0, r, t) + (if r0[j] == O && v == t then 1 else 0)
  {
    if j == 0 {
      assert r[j := v][1..] == r[1..];
    } else {
      assert r[j := v][1..] == r[1..][j - 1 := v];
      PlacedInRowUpdate(r0[1..], r[1..], j - 1, v, t);
    }
  }

  lemma {:induction false} PlacedUpdate(g0: Grid, g: Grid, i: int, row: seq<int>, t: int)
    requires SameShape(g0, g) && 0 <= i < |g| && |row| == |g[i]|
    ensures SameShape(g0, g[i := row])
    ensures Placed(g0, g[i := row], t) + PlacedInRow(g0[i], g[i], t) ==
            Placed(g0, g, t) + PlacedInRow(g0[i], row, t)
  {
    if i == 0 {
      assert g[i := row][1..] == g[1..];
    } else {
      assert g[i := row][1..] == g[1..][i - 1 := row];
      PlacedUpdate(g0[1..], g[1..], i - 1, row, t);
    }
  }

  lemma {:induction false} PlacedInRowSelf(r: seq<int>, t: int)
    requires t != O
    ensures PlacedInRow(r, r, t) == 0
  {
    if |r| > 0 {
      PlacedInRowSelf(r[1..], t);
    }
  }

  lemma {:induction false} PlacedSelf(g: Grid, t: int)
    requires t != O
    requires SameShape(g, g)
    ensures Placed(g, g, t) == 0
  {
    if |g| > 0 {
      PlacedInRowSelf(g[0], t);
      PlacedSelf(g[1..], t);
    }
  }

  /** s is s0 with some empty cells filled by A, B or C blocks, and each count
      lowered by the number of blocks of its type so placed. */
  ghost predicate Derived(s0: State, s: State) {
    WellFormed(s0) && WellFormed(s) && SameShape(s0.grid, s.grid) &&
    (forall i, j :: 0 <= i < |s.grid| && 0 <= j < |s.grid[i]| ==>
       s.grid[i][j] == s0.grid[i][j] ||
       (s0.grid[i][j] == O && (s.grid[i][j] == A || s.grid[i][j] == B || s.grid[i][j] == C))) &&
    forall t :: 0 <= t < 3 ==> s.counts[t] + Placed(s0.grid, s.grid, t) == s0.counts[t]
  }

  lemma DerivedRefl(s0: State)
    requires WellFormed(s0)
    ensures Derived(s0, s0)
  {
    PlacedSelf(s0.grid, A);
    PlacedSelf(s0.grid, B);
    PlacedSelf(s0.grid, C);
  }

  /** A placement the search makes keeps a state derived from the start. */
  lemma MoveKeepsDerived(s0: State, s: State, src: set<Laser>, cps: set<Point>, m: Move)
    requires Derived(s0, s) && AllValid(src) && m in Moves(s, src, cps)
    ensures Derived(s0, Apply(s, m))
  {
    var g, c := s.grid, m.cell;
    var s' := Apply(s, m);
    PlaceChangesOneCell(g, c, m.t);
    assert g[c.x][c.y] == O;
    var row := g[c.x][c.y := m.t];
    forall t | 0 <= t < 3
      ensures s'.counts[t] + Placed(s0.grid, s'.grid, t) == s0.counts[t]
    {
      PlacedUpdate(s0.grid, g, c.x, row, t);
      PlacedInRowUpdate(s0.grid[c.x], g[c.x], c.y, m.t, t);
    }
  }

  /** Two derived states with the same key are the same state: the grid fixes
      how many blocks of each type were spent. */
  lemma KeyDetermines(s0: State, s1: State, s2: State)
    requires Derived(s0, s1) && Derived(s0, s2)
    requires Featurize(s1.grid) == Featurize(s2.grid)
    ensures s1 == s2
  {
    FeaturizeInjective(s1.grid, s2.grid);
    assert s1.counts == s2.counts;
  }

  /** Every sequence of length n over W. */
  ghost function AllSeqs(n: nat, W: set<int>): set<seq<int>> {
    if n == 0 then {[]} else set x, r | x in W && r in AllSeqs(n - 1, W) :: [x] + r
  }

  lemma {:induction false} AllSeqsComplete(s: seq<int>, W: set<int>)
    requires forall i :: 0 <= i < |s| ==> s[i] in W
    ensures s in AllSeqs(|s|, W)
  {
    if |s| > 0 {
      var x, r := s[0], s[1..];
      AllSeqsComplete(r, W);
      assert x in W && r in AllSeqs(|s| - 1, W);
      assert s == [x] + r;
      assert [x] + r in AllSeqs(|s|, W);
    }
  }

  /** The values a derived grid can hold. */
  ghost function Alphabet(s0: State): set<int> {
    (set x | x in Featurize(s0.grid)) + {A, B, C}
  }

  /** A finite set holding the key of every state derived from s0. */
  ghost function KeySpace(s0: State): set<seq<int>>
    requires WellFormed(s0)
  {
    AllSeqs(Rows(s0.grid) * Cols(s0.grid), Alphabet(s0))
  }

  lemma DerivedKeyInSpace(s0: State, s: State)
    requires Derived(s0, s)
    ensures Featurize(s.grid) in KeySpace(s0)
  {
    var key := Featurize(s.grid);
    assert Rows(s.grid) == Rows(s0.grid) && Cols(s.grid) == Cols(s0.grid);
    forall k | 0 <= k < |key| ensures key[k] in Alphabet(s0) {
      var x := key[k];
      FeaturizeMembers(s.grid, x);
      var i :| 0 <= i < |s.grid| && x in s.grid[i];
      var j :| 0 <= j < |s.grid[i]| && s.grid[i][j] == x;
      if x == s0.grid[i][j] {
        FeaturizeMembers(s0.grid, x);
      }
    }
    AllSeqsComplete(key, Alphabet(s0));
  }

  // ---------------------------------------------------------------------
  // Reachability

  ghost predicate InReach(s0: State, src: set<Laser>, cps: set<Point>, s: State)
    requires WellFormed(s0) && AllValid(src)
  {
    exists n: nat :: s in Reach(s0, src, cps, n)
  }

  /** Every reachable state is derived from the start. */
  lemma {:induction false} ReachDerived(s0: State, src: set<Laser>, cps: set<Point>, n: nat, s: State)
    requires WellFormed(s0) && AllValid(src) && s in Reach(s0, src, cps, n)
    ensures Derived(s0, s)
  {
    if n == 0 {
      DerivedRefl(s0);
    } else {
      var k: nat := n - 1;
      var R := Reach(s0, src, cps, k);
      if s in R {
        ReachDerived(s0, src, cps, k, s);
      } else {
        var p, m := NextParent(R, src, cps, s);
        ReachDerived(s0, src, cps, k, p);
        MoveKeepsDerived(s0, p, src, cps, m);
      }
    }
  }

  /** A state of Next(R) is a child of a state of R. */
  lemma NextParent(R: set<State>, src: set<Laser>, cps: set<Point>, s: State) returns (p: State, m: Move)
    requires AllValid(src) && (forall q :: q in R ==> WellFormed(q)) && s in Next(R, src, cps)
    ensures p in R && m in Moves(p, src, cps) && s == Apply(p, m)
  {
    p, m :| p in R && m in Moves(p, src, cps) && s == Apply(p, m);
  }

  lemma ChildInReach(s0: State, src: set<Laser>, cps: set<Point>, n: nat, s: State, m: Move)
    requires WellFormed(s0) && AllValid(src) && s in Reach(s0, src, cps, n) && m in Moves(s, src, cps)
    ensures Apply(s, m) in Reach(s0, src, cps, n + 1)
  {
    assert Apply(s, m) in Next(Reach(s0, src, cps, n), src, cps);
  }

  /** done is closed under placements up to keys: a state with the key of
      each child of each of its states is in it. */
  ghost predicate Explored(s0: State, src: set<Laser>, cps: set<Point>, done: set<State>)
    requires AllValid(src)
  {
    forall s :: s in done ==>
      Derived(s0, s) && forall m :: m in Moves(s, src, cps) ==> Featurize(Apply(s, m).grid) in Keys(done)
  }

  lemma ChildExplored(s0: State, src: set<Laser>, cps: set<Point>, done: set<State>, p: State, m: Move)
    requires AllValid(src) && Explored(s0, src, cps, done) && p in done && m in Moves(p, src, cps)
    ensures Apply(p, m) in done
  {
    var c := Apply(p, m);
    MoveKeepsDerived(s0, p, src, cps, m);
    var q :| q in done && Featurize(q.grid) == Featurize(c.grid);
    KeyDetermines(s0, q, c);
  }

  /** done holds every child of each of its states. */
  ghost predicate HoldsChildren(src: set<Laser>, cps: set<Point>, done: set<State>)
    requires AllValid(src)
  {
    forall p, m :: p in done && WellFormed(p) && m in Moves(p, src, cps) ==> Apply(p, m) in done
  }

  lemma ExploredClosed(s0: State, src: set<Laser>, cps: set<Point>, done: set<State>)
    requires AllValid(src) && Explored(s0, src, cps, done)
    ensures HoldsChildren(src, cps, done)
  {
    forall p, m | p in done && WellFormed(p) && m in Moves(p, src, cps) ensures Apply(p, m) in done {
      ChildExplored(s0, src, cps, done, p, m);
    }
  }

  /** A set holding the start and every child of its states holds every reachable state. */
  lemma {:induction false} ClosedHoldsReach(s0: State, src: set<Laser>, cps: set<Point>, done: set<State>, n: nat)
    requires WellFormed(s0) && AllValid(src) && s0 in done && HoldsChildren(src, cps, done)
    ensures Reach(s0, src, cps, n) <= done
  {
    if n > 0 {
      ClosedHoldsReach(s0, src, cps, done, n - 1);
      ClosedReachStep(s0, src, cps, done, n);
    }
  }

  lemma ClosedReachStep(s0: State, src: set<Laser>, cps: set<Point>, done: set<State>, n: nat)
    requires WellFormed(s0) && AllValid(src) && HoldsChildren(src, cps, done) && n > 0
    requires Reach(s0, src, cps, n - 1) <= done
    ensures Reach(s0, src, cps, n) <= done
  {
    ClosedHoldsNext(src, cps, done, Reach(s0, src, cps, n - 1));
  }

  lemma ClosedHoldsNext(src: set<Laser>, cps: set<Point>, done: set<State>, R: set<State>)
    requires AllValid(src) && (forall s :: s in R ==> WellFormed(s)) && HoldsChildren(src, cps, done) && R <= done
    ensures Next(R, src, cps) <= done
  {
    forall c | c in Next(R, src, cps) ensures c in done {
      var p, m :| p in R && m in Moves(p, src, cps) && c == Apply(p, m);
    }
  }

  // ---------------------------------------------------------------------
  // Breadth-first search

  ghost function Keys(states: set<State>): set<seq<int>> {
    set s | s in states :: Featurize(s.grid)
  }

  ghost function SeqKeys(qs: seq<State>): set<seq<int>> {
    set s | s in qs :: Featurize(s.grid)
  }

  lemma KeysAdd(done: set<State>, s: State)
    ensures Keys(done + {s}) == Keys(done) + {Featurize(s.grid)}
  {
  }

  lemma SeqKeysStep(qs: seq<State>, added: seq<State>)
    requires qs != []
    ensures SeqKeys(qs) == {Featurize(qs[0].grid)} + SeqKeys(qs[1..])
    ensures SeqKeys(qs[1..] + added) == SeqKeys(qs[1..]) + SeqKeys(added)
  {
    assert qs == [qs[0]] + qs[1..];
    forall s | s in qs ensures s == qs[0] || s in qs[1..] {
      var k :| 0 <= k < |qs| && qs[k] == s;
      if k > 0 {
        assert qs[1..][k - 1] == s;
      }
    }
  }

  lemma GrowShrinks<T>(U: set<T>, k0: set<T>, k: set<T>)
    requires k0 < k <= U
    ensures |U - k| < |U - k0|
  {
    ProperSubsetSmaller(U - k, U - k0);
  }

  /** Every explored state is derived from the start and no goal, and the key
      of each of its children is known. */
  ghost predicate Frontier(s0: State, src: set<Laser>, cps: set<Point>, done: set<State>, known: set<seq<int>>)
    requires AllValid(src)
  {
    forall s :: s in done ==>
      Derived(s0, s) && !Goal(s, src, cps) &&
      forall m :: m in Moves(s, src, cps) ==> Featurize(Apply(s, m).grid) in known
  }

  lemma FrontierExplored(s0: State, src: set<Laser>, cps: set<Point>, done: set<State>)
    requires AllValid(src) && Frontier(s0, src, cps, done, Keys(done))
    ensures Explored(s0, src, cps, done)
  {
  }

  /** The queued states are derived from the start and reachable. */
  ghost predicate QueueOk(s0: State, src: set<Laser>, cps: set<Point>, qs: seq<State>)
    requires WellFormed(s0) && AllValid(src)
  {
    forall k :: 0 <= k < |qs| ==> Derived(s0, qs[k]) && InReach(s0, src, cps, qs[k])
  }

  /** The keys of qs, in queue order. */
  ghost function KeyList(qs: seq<State>): (ks: seq<seq<int>>)
    ensures |ks| == |qs| && forall k :: 0 <= k < |qs| ==> ks[k] == Featurize(qs[k].grid)
  {
    if qs == [] then [] else [Featurize(qs[0].grid)] + KeyList(qs[1..])
  }

  /** The keys of qs are pairwise distinct and none of them is in seen. */
  ghost predicate NewKeys(qs: seq<State>, seen: set<seq<int>>) {
    var ks := KeyList(qs);
    AllDistinct(ks) && forall k :: 0 <= k < |ks| ==> ks[k] !in seen
  }

  lemma NewKeysAppend(qs: seq<State>, seen: set<seq<int>>, s: State)
    requires NewKeys(qs, seen) && Featurize(s.grid) !in seen + SeqKeys(qs)
    ensures NewKeys(qs + [s], seen)
  {
    var r := qs + [s];
    forall i, j | 0 <= i < j < |r| ensures Featurize(r[i].grid) != Featurize(r[j].grid) {
      if j == |qs| {
        assert r[i] in qs;
      }
    }
  }

  /** Popping the head into the explored set and appending new states keeps
      every queued key distinct and unexplored. */
  lemma NewKeysStep(qs: seq<State>, done: set<State>, added: seq<State>, known0: set<seq<int>>)
    requires qs != [] && NewKeys(qs, Keys(done)) && known0 == Keys(done) + SeqKeys(qs)
    requires NewKeys(added, known0)
    ensures NewKeys(qs[1..] + added, Keys(done + {qs[0]}))
  {
    var r, n := qs[1..] + added, |qs| - 1;
    var ks, kq, ka := KeyList(r), KeyList(qs), KeyList(added);
    KeysAdd(done, qs[0]);
    UnseenStep(qs, added, Keys(done), known0);
    forall i, j | 0 <= i < j < |r| ensures ks[i] != ks[j] {
      if j < n {
        assert ks[i] == kq[i + 1] && ks[j] == kq[j + 1];
      } else if i < n {
        assert ks[i] == kq[i + 1] && ks[j] == ka[j - n] && qs[i + 1] in qs;
      } else {
        assert ks[i] == ka[i - n] && ks[j] == ka[j - n];
      }
    }
  }

  lemma UnseenStep(qs: seq<State>, added: seq<State>, seen: set<seq<int>>, known0: set<seq<int>>)
    requires qs != [] && NewKeys(qs, seen) && known0 == seen + SeqKeys(qs)
    requires NewKeys(added, known0)
    ensures forall k :: 0 <= k < |qs| + |added| - 1 ==>
              KeyList(qs[1..] + added)[k] !in seen + {Featurize(qs[0].grid)}
  {
    var r, n := qs[1..] + added, |qs| - 1;
    var ks, kq, ka := KeyList(r), KeyList(qs), KeyList(added);
    var first := Featurize(qs[0].grid);
    assert kq[0] == first;
    assert qs[0] in qs;
    assert first in known0;
    forall k | 0 <= k < |r| ensures ks[k] !in seen + {first} {
      if k < n {
        assert ks[k] == kq[k + 1];
        assert kq[k + 1] !in seen && kq[k + 1] != kq[0];
      } else {
        assert ks[k] == ka[k - n];
        assert ka[k - n] !in known0;
      }
    }
  }

  /** The invariant of the search loop, on the states of the queued boards:
      they are derived from the start and reachable, their keys are distinct
      and unexplored, the explored states form a frontier, known holds exactly
      the keys of explored and queued states, and the start is explored once
      the first round is over. */
  ghost predicate SearchInv(s0: State, src: set<Laser>, cps: set<Point>, qs: seq<State>,
                            known: set<seq<int>>, done: set<State>)
  {
    WellFormed(s0) && AllValid(src) &&
    QueueOk(s0, src, cps, qs) &&
    Frontier(s0, src, cps, done, known) &&
    known == Keys(done) + SeqKeys(qs) && NewKeys(qs, Keys(done)) &&
    ((done == {} && qs == [s0]) || s0 in done) &&
    known <= KeySpace(s0)
  }

  /** The queued boards share the sources and have the states qs. */
  ghost predicate Mirrors(queue: seq<Board>, qs: seq<State>, src: set<Laser>)
    reads queue
  {
    |queue| == |qs| &&
    forall k :: 0 <= k < |queue| ==> queue[k].Valid() && queue[k].lasers == src && StateOf(queue[k]) == qs[k]
  }

  lemma MirrorsHead(queue: seq<Board>, qs: seq<State>, src: set<Laser>)
    requires Mirrors(queue, qs, src) && queue != []
    ensures queue[0].Valid() && queue[0].lasers == src && StateOf(queue[0]) == qs[0]
    ensures Mirrors(queue[1..], qs[1..], src)
  {
  }

  lemma MirrorsAppend(queue: seq<Board>, qs: seq<State>, added: seq<State>, src: set<Laser>, b: Board)
    requires Mirrors(queue, qs + added, src) && b.Valid() && b.lasers == src
    ensures Mirrors(queue + [b], qs + (added + [StateOf(b)]), src)
  {
    assert qs + (added + [StateOf(b)]) == (qs + added) + [StateOf(b)];
  }

  lemma SeqKeysAppend(qs: seq<State>, s: State)
    ensures SeqKeys(qs + [s]) == SeqKeys(qs) + {Featurize(s.grid)}
  {
  }

  lemma SearchStart(s0: State, src: set<Laser>, cps: set<Point>)
    requires WellFormed(s0) && AllValid(src)
    ensures SearchInv(s0, src, cps, [s0], {Featurize(s0.grid)}, {})
  {
    DerivedRefl(s0);
    DerivedKeyInSpace(s0, s0);
    assert s0 in Reach(s0, src, cps, 0);
    assert SeqKeys([s0]) == {Featurize(s0.grid)};
  }

  /** The children of a board, as states. */
  lemma ExpansionAt(s: State, src: set<Laser>, cps: set<Point>, kids: seq<Board>, moves: seq<Move>, k: int)
    requires WellFormed(s) && AllValid(src) && Expansion(s, src, cps, kids, moves) && 0 <= k < |kids|
    ensures kids[k].Valid() && kids[k].lasers == src && StateOf(kids[k]) in Children(s, src, cps)
  {
    assert moves[k] in moves;
  }

  /** Each child of s is one of kids, so once all their keys are known so are
      the keys of the children. */
  lemma ExpansionKeys(s: State, src: set<Laser>, cps: set<Point>, kids: seq<Board>, moves: seq<Move>,
                      known: set<seq<int>>)
    requires WellFormed(s) && AllValid(src) && Expansion(s, src, cps, kids, moves)
    requires forall k :: 0 <= k < |kids| ==> Featurize(kids[k].grid) in known
    ensures forall c :: c in Children(s, src, cps) ==> Featurize(c.grid) in known
  {
    forall c | c in Children(s, src, cps) ensures Featurize(c.grid) in known {
      var m :| m in Moves(s, src, cps) && c == Apply(s, m);
      var k :| 0 <= k < |moves| && moves[k] == m;
      assert StateOf(kids[k]) == c;
    }
  }

  /** The children of a reachable derived state are reachable, derived and
      have keys in the key space. */
  lemma ChildrenOk(s0: State, src: set<Laser>, cps: set<Point>, sb: State, added: seq<State>)
    requires WellFormed(s0) && AllValid(src) && Derived(s0, sb) && InReach(s0, src, cps, sb)
    requires forall a :: a in added ==> a in Children(sb, src, cps)
    ensures QueueOk(s0, src, cps, added)
    ensures SeqKeys(added) <= KeySpace(s0)
  {
    var n :| sb in Reach(s0, src, cps, n);
    forall a | a in added ensures Derived(s0, a) && InReach(s0, src, cps, a) && Featurize(a.grid) in KeySpace(s0) {
      var m :| m in Moves(sb, src, cps) && a == Apply(sb, m);
      ChildInReach(s0, src, cps, n, sb, m);
      MoveKeepsDerived(s0, sb, src, cps, m);
      DerivedKeyInSpace(s0, a);
    }
  }

  lemma QueueOkStep(s0: State, src: set<Laser>, cps: set<Point>, qs: seq<State>, added: seq<State>)
    requires WellFormed(s0) && AllValid(src) && qs != []
    requires QueueOk(s0, src, cps, qs) && QueueOk(s0, src, cps, added)
    ensures QueueOk(s0, src, cps, qs[1..] + added)
  {
    var r := qs[1..] + added;
    forall k | 0 <= k < |r| ensures Derived(s0, r[k]) && InReach(s0, src, cps, r[k]) {
      if k < |qs| - 1 {
        assert r[k] == qs[k + 1];
      } else {
        assert r[k] == added[k - (|qs| - 1)];
      }
    }
  }

  lemma FrontierGrow(s0: State, src: set<Laser>, cps: set<Point>, done: set<State>,
                     known0: set<seq<int>>, known: set<seq<int>>, sb: State)
    requires AllValid(src) && Frontier(s0, src, cps, done, known0) && known0 <= known
    requires Derived(s0, sb) && !Goal(sb, src, cps)
    requires forall c :: c in Children(sb, src, cps) ==> Featurize(c.grid) in known
    ensures Frontier(s0, src, cps, done + {sb}, known)
  {
    forall m | m in Moves(sb, src, cps) ensures Featurize(Apply(sb, m).grid) in known {
      assert Apply(sb, m) in Children(sb, src, cps);
    }
  }

  /** One round of the search, from popping the head of the queue to
      enqueueing its new children, keeps the invariant, and either known grows
      or the queue shrinks. */
  lemma SearchStep(s0: State, src: set<Laser>, cps: set<Point>, qs: seq<State>, known0: set<seq<int>>,
                   done: set<State>, added: seq<State>, known: set<seq<int>>)
    requires SearchInv(s0, src, cps, qs, known0, done) && qs != []
    requires !Goal(qs[0], src, cps)
    requires forall a :: a in added ==> a in Children(qs[0], src, cps)
    requires forall c :: c in Children(qs[0], src, cps) ==> Featurize(c.grid) in known
    requires known == known0 + SeqKeys(added) && NewKeys(added, known0)
    requires added != [] ==> known0 < known
    ensures SearchInv(s0, src, cps, qs[1..] + added, known, done + {qs[0]})
    ensures |KeySpace(s0) - known| < |KeySpace(s0) - known0| || (known == known0 && added == [])
  {
    var sb, U := qs[0], KeySpace(s0);
    ChildrenOk(s0, src, cps, sb, added);
    QueueOkStep(s0, src, cps, qs, added);
    FrontierGrow(s0, src, cps, done, known0, known, sb);
    KeysStep(qs, done, added, known0, known);
    NewKeysStep(qs, done, added, known0);
    assert (done == {} && qs == [s0]) || s0 in done;
    assert s0 in done + {sb};
    if added != [] {
      GrowShrinks(U, known0, known);
    }
  }

  lemma KeysStep(qs: seq<State>, done: set<State>, added: seq<State>, known0: set<seq<int>>, known: set<seq<int>>)
    requires qs != [] && known0 == Keys(done) + SeqKeys(qs) && known == known0 + SeqKeys(added)
    ensures known == Keys(done + {qs[0]}) + SeqKeys(qs[1..] + added)
  {
    SeqKeysStep(qs, added);
    KeysAdd(done, qs[0]);
  }

  /** When the queue runs out, every reachable state has been explored and
      none is a goal. */
  lemma SearchExhausted(s0: State, src: set<Laser>, cps: set<Point>, known: set<seq<int>>, done: set<State>)
    requires SearchInv(s0, src, cps, [], known, done)
    ensures forall n: nat, s :: s in Reach(s0, src, cps, n) ==> !Goal(s, src, cps)
  {
    assert SeqKeys([]) == {};
    FrontierExplored(s0, src, cps, done);
    ExploredClosed(s0, src, cps, done);
    forall n: nat ensures Reach(s0, src, cps, n) <= done {
      ClosedHoldsReach(s0, src, cps, done, n);
    }
  }

  /** Appends, in order, the boards whose keys are not yet known, adding each
      new key to known. Read as states (qs, added), the queue gains only
      children of s, and afterwards the key of every child of s is known. */
  method Enqueue(nextBoards: seq<Board>, queue: seq<Board>, known: set<seq<int>>,
                 ghost s: State, ghost src: set<Laser>, ghost cps: set<Point>,
                 ghost moves: seq<Move>, ghost qs: seq<State>)
    returns (queue': seq<Board>, known': set<seq<int>>, ghost added: seq<State>)
    requires WellFormed(s) && AllValid(src) && Expansion(s, src, cps, nextBoards, moves)
    requires Mirrors(queue, qs, src)
    ensures |queue'| == |queue| + |added| && queue'[..|queue|] == queue
    ensures Mirrors(queue', qs + added, src)
    ensures forall a :: a in added ==> a in Children(s, src, cps)
    ensures forall c :: c in Children(s, src, cps) ==> Featurize(c.grid) in known'
    ensures known' == known + SeqKeys(added) && NewKeys(added, known)
    ensures added != [] ==> known < known'
  {
    queue', known', added := queue, known, [];
    for i := 0 to |nextBoards|
      invariant |queue'| == |queue| + |added| && queue'[..|queue|] == queue
      invariant Mirrors(queue', qs + added, src)
      invariant forall a :: a in added ==> a in Children(s, src, cps)
      invariant known' == known + SeqKeys(added) && NewKeys(added, known)
      invariant forall k :: 0 <= k < i ==> Featurize(nextBoards[k].grid) in known'
      invariant added != [] ==> known < known'
    {
      var feature := Featurize(nextBoards[i].grid);
      if feature in known' {
        continue;
      }
      ghost var st := StateOf(nextBoards[i]);
      ExpansionAt(s, src, cps, nextBoards, moves, i);
      SeqKeysAppend(added, st);
      NewKeysAppend(added, known, st);
      MirrorsAppend(queue', qs, added, src, nextBoards[i]);
      queue' := queue' + [nextBoards[i]];
      added := added + [st];
      known' := known' + {feature};
    }
    ExpansionKeys(s, src, cps, nextBoards, moves, known');
  }

  /** The body of the search loop after the head board is popped: expand the
      board, report whether it meets the return condition, and otherwise
      enqueue its children whose keys are new. */
  method Expand(board: Board, queue: seq<Board>, known: set<seq<int>>, checkpoints: set<Point>,
                ghost sb: State, ghost qs: seq<State>)
    returns (solved: bool, queue': seq<Board>, known': set<seq<int>>, ghost added: seq<State>)
    requires board.Valid() && AllValid(board.lasers) && StateOf(board) == sb
    requires Mirrors(queue, qs, board.lasers)
    ensures StateOf(board) == sb && WellFormed(sb)
    ensures solved == Goal(sb, board.lasers, checkpoints)
    ensures !solved ==>
              |queue'| == |queue| + |added| && queue'[..|queue|] == queue &&
              Mirrors(queue', qs + added, board.lasers) &&
              (forall a :: a in added ==> a in Children(sb, board.lasers, checkpoints)) &&
              (forall c :: c in Children(sb, board.lasers, checkpoints) ==> Featurize(c.grid) in known') &&
              known' == known + SeqKeys(added) && NewKeys(added, known) &&
              (added != [] ==> known < known')
  {
    var nextBoards: seq<Board>, completed: bool;
    ghost var moves: seq<Move>;
    nextBoards, completed, moves := NextState(board, checkpoints);
    if completed && Sum(board.counts) == 0 {
      return true, queue, known, [];
    }
    solved := false;
    queue', known', added := Enqueue(nextBoards, queue, known, sb, board.lasers, checkpoints, moves, qs);
  }

  /** Breadth-first search from start over placements, skipping grids already
      seen. A board it returns covers the checkpoints and its counts sum to
      zero; when it returns none, no reachable board does. */
  method Solve(start: Board, checkpoints: set<Point>) returns (solution: Board?)
    requires start.Valid() && AllValid(start.lasers)
    ensures solution != null ==>
              solution.Valid() && solution.lasers == start.lasers &&
              Goal(StateOf(solution), start.lasers, checkpoints) &&
              Derived(StateOf(start), StateOf(solution)) &&
              InReach(StateOf(start), start.lasers, checkpoints, StateOf(solution))
    ensures solution == null ==>
              forall n: nat, s :: s in Reach(StateOf(start), start.lasers, checkpoints, n) ==>
                !Goal(s, start.lasers, checkpoints)
  {
    ghost var src, s0 := start.lasers, StateOf(start);
    SearchStart(s0, src, checkpoints);
    var queue := [start];
    var known := {Featurize(start.grid)};
    ghost var qs, done := [s0], {};
    while queue != []
      invariant SearchInv(s0, src, checkpoints, qs, known, done)
      invariant Mirrors(queue, qs, src)
      decreases |KeySpace(s0) - known|, |queue|
    {
      var board := queue[0];
      ghost var known0 := known;
      MirrorsHead(queue, qs, src);
      assert Derived(s0, qs[0]) && InReach(s0, src, checkpoints, qs[0]);
      queue := queue[1..];
      var solved: bool;
      ghost var added: seq<State>;
      solved, queue, known, added := Expand(board, queue, known, checkpoints, qs[0], qs[1..]);
      if solved {
        return board;
      }
      SearchStep(s0, src, checkpoints, qs, known0, done, added, known);
      qs, done := qs[1..] + added, done + {qs[0]};
    }
    SearchExhausted(s0, src, checkpoints, known, done);
    return null;
  }
}
