/** The optics engine of the Lazor solver: coordinates, the board, the ray
    tracer and the closure of all lasers active on a board. */
module LazorBoard {

  /** Block type codes stored in the grid. */
  const A: int := 0  // reflect block
  const B: int := 2  // opaque block
  const C: int := 1  // refract block
  const O: int := 8  // empty cell, a block may be placed here
  const X: int := 9  // cell where no block may be placed

  /** Points, directions and blocks are all integer pairs. Points live on the
      fine grid: block (i, j) covers the points with 2i <= x <= 2i + 2 and
      2j <= y <= 2j + 2. */
  datatype Point = Point(x: int, y: int)
  type Direction = Point
  type Block = Point

  datatype Laser = Laser(origin: Point, dir: Direction)

  /** grid[i][j] is the type code of block (i, j). */
  type Grid = seq<seq<int>>

  function Rows(g: Grid): nat { |g| }

  /** The width of the first row; an empty grid has no columns. */
  function Cols(g: Grid): nat { if |g| == 0 then 0 else |g[0]| }

  predicate IsRect(g: Grid) {
    forall i :: 0 <= i < |g| ==> |g[i]| == Cols(g)
  }

  /** The tracer can only follow a laser that moves. */
  predicate ValidLaser(l: Laser) { l.dir != Point(0, 0) }

  predicate AllValid(ls: set<Laser>) {
    forall l :: l in ls ==> ValidLaser(l)
  }

  function Abs(n: int): nat { if n < 0 then -n else n }

  // ---------------------------------------------------------------------
  // Coordinate helpers

  function PointByDirection(p: Point, d: Direction): Point {
    Point(p.x + d.x, p.y + d.y)
  }

  /** The block a laser at p moving along d is about to enter. An even x means
      the point sits on a boundary between two block rows. Dafny's `/` agrees
      with Python's `//` for the positive divisor 2. */
  function BlockByPointAndDirection(p: Point, d: Direction): Block {
    var dest := PointByDirection(p, d);
    if p.x % 2 == 0 then Point(dest.x / 2, p.y / 2) else Point(p.x / 2, dest.y / 2)
  }

  /** Stepping back along the negated direction undoes a step, and a step
      moves the point exactly when the direction is not zero. */
  lemma StepBack(p: Point, d: Direction)
    ensures PointByDirection(PointByDirection(p, d), Point(-d.x, -d.y)) == p
    ensures PointByDirection(p, d) != p <==> d != Point(0, 0)
  {
  }

  /** The entered block is the floor half of the moved coordinate and of the
      kept one, for every point and direction, negative ones included. */
  lemma EnteredBlockFloor(p: Point, d: Direction)
    ensures var b, q := BlockByPointAndDirection(p, d), PointByDirection(p, d);
            if p.x % 2 == 0 then 2 * b.x <= q.x < 2 * b.x + 2 && 2 * b.y <= p.y < 2 * b.y + 2
            else 2 * b.x <= p.x < 2 * b.x + 2 && 2 * b.y <= q.y < 2 * b.y + 2
  {
  }

  predicate IsPointOut(p: Point, g: Grid) {
    p.x > Rows(g) * 2 || p.x < 0 || p.y > Cols(g) * 2 || p.y < 0
  }

  predicate IsBlockOut(b: Block, g: Grid) {
    b.x >= Rows(g) || b.x < 0 || b.y >= Cols(g) || b.y < 0
  }

  /** Every block of the grid. */
  function Cells(g: Grid): set<Block> {
    set i, j | 0 <= i < Rows(g) && 0 <= j < Cols(g) :: Point(i, j)
  }

  /** The bounds test on blocks agrees with the set of cells the solver scans. */
  lemma BlockOutIffNotCell(b: Block, g: Grid)
    ensures IsBlockOut(b, g) <==> b !in Cells(g)
  {
    if !IsBlockOut(b, g) {
      assert b == Point(b.x, b.y);
    }
  }

  /** A point is inside the point space exactly when it lies on the closed
      square of some block. */
  lemma PointInsideIffOnSomeBlock(p: Point, g: Grid)
    requires Rows(g) > 0 && Cols(g) > 0
    ensures !IsPointOut(p, g) <==>
            exists c :: c in Cells(g) && 2 * c.x <= p.x <= 2 * c.x + 2 && 2 * c.y <= p.y <= 2 * c.y + 2
  {
    if !IsPointOut(p, g) {
      var i := if p.x / 2 < Rows(g) then p.x / 2 else Rows(g) - 1;
      var j := if p.y / 2 < Cols(g) then p.y / 2 else Cols(g) - 1;
      assert Point(i, j) in Cells(g);
    }
  }

  /** For a diagonal laser on the midpoint of a block edge (one coordinate odd,
      the other even), the entered block is the one holding the middle of the
      step: in doubled coordinates, 2p + d lies strictly inside it. */
  lemma EnteredBlockHoldsStep(p: Point, d: Direction)
    requires (p.x + p.y) % 2 == 1
    requires (d.x == 1 || d.x == -1) && (d.y == 1 || d.y == -1)
    ensures var b := BlockByPointAndDirection(p, d);
            4 * b.x < 2 * p.x + d.x < 4 * b.x + 4 && 4 * b.y < 2 * p.y + d.y < 4 * b.y + 4
  {
  }

  // ---------------------------------------------------------------------
  // Ray tracer

  /** The direction after bouncing off the block entered from p: the y part
      flips when y is even (top or bottom face), the x part otherwise. */
  function Reflected(p: Point, d: Direction): (r: Direction)
    ensures r != Point(0, 0) <==> d != Point(0, 0)
    ensures Abs(r.x) == Abs(d.x) && Abs(r.y) == Abs(d.y)
  {
    if p.y % 2 == 0 then Point(d.x, -d.y) else Point(-d.x, d.y)
  }

  /** A worked case: a laser at (2, 0) moving (1, 1) that
      strikes a reflect block bounces to (1, -1) and stays at (2, 0). */
  lemma ReflectWorkedCase()
    ensures var g := [[O, O], [A, O]];
            BlockByPointAndDirection(Point(2, 0), Point(1, 1)) == Point(1, 0) &&
            Track(g, Laser(Point(2, 0), Point(1, 1))).lasers == [Laser(Point(2, 0), Point(1, -1))]
  {
  }

  /** The outcome of tracing one laser. */
  datatype Trace = Trace(path: seq<Point>, lasers: seq<Laser>, isOpen: bool)

  /** A measure that shrinks by at least one with every step of the walk and
      stays non-negative while the point is inside the point space. */
  function Progress(g: Grid, p: Point, d: Direction): int {
    if d.x > 0 then 2 * Rows(g) - p.x
    else if d.x < 0 then p.x
    else if d.y > 0 then 2 * Cols(g) - p.y
    else p.y
  }

  /** A block of the grid that holds none of A, B or C lets a laser through. */
  predicate LetsThrough(g: Grid, b: Block)
    requires IsRect(g)
  {
    !IsBlockOut(b, g) && g[b.x][b.y] != A && g[b.x][b.y] != B && g[b.x][b.y] != C
  }

  /** A laser at p moving along d enters a block that lets it through. */
  predicate PassesThrough(g: Grid, p: Point, d: Direction)
    requires IsRect(g)
  {
    LetsThrough(g, BlockByPointAndDirection(p, d))
  }

  /** The tracer from point p. What it computes is stated by TrackShape. */
  function TrackFrom(g: Grid, p: Point, d: Direction): Trace
    requires IsRect(g) && d != Point(0, 0)
    decreases Progress(g, p, d)
  {
    var b := BlockByPointAndDirection(p, d);
    if IsBlockOut(b, g) then Trace([p], [], true)
    else
      var v := g[b.x][b.y];
      if v == A then Trace([p], [Laser(p, Reflected(p, d))], false)
      else if v == B then Trace([p], [], false)
      else if v == C then Trace([p], [Laser(p, Reflected(p, d)), Laser(PointByDirection(p, d), d)], false)
      else
        // X, O and any other code: no interaction, step on.
        var q := PointByDirection(p, d);
        if IsPointOut(q, g) then Trace([p], [], true)
        else
          var rest := TrackFrom(g, q, d);
          Trace([p] + rest.path, rest.lasers, rest.isOpen)
  }

  /** The path is a straight walk along d from p through cells that hold no
      A, B or C block, every point after the first is inside the point space,
      and the outcome is decided by the block entered from the last point:
      leaving the board keeps the laser open with no spawns; A spawns the
      reflected laser, B absorbs, C spawns the reflected and the straight
      laser; otherwise the next point is outside the point space. */
  lemma {:induction false} TrackShape(g: Grid, p: Point, d: Direction)
    requires IsRect(g) && d != Point(0, 0)
    ensures var t := TrackFrom(g, p, d);
            |t.path| >= 1 && t.path[0] == p &&
            (forall k :: 0 <= k < |t.path| - 1 ==> t.path[k + 1] == PointByDirection(t.path[k], d)) &&
            (forall k :: 1 <= k < |t.path| ==> !IsPointOut(t.path[k], g)) &&
            (forall k :: 0 <= k < |t.path| - 1 ==> PassesThrough(g, t.path[k], d))
    ensures var t := TrackFrom(g, p, d);
            var q := t.path[|t.path| - 1];
            var b := BlockByPointAndDirection(q, d);
            if IsBlockOut(b, g) then t.lasers == [] && t.isOpen
            else if g[b.x][b.y] == A then t.lasers == [Laser(q, Reflected(q, d))] && !t.isOpen
            else if g[b.x][b.y] == B then t.lasers == [] && !t.isOpen
            else if g[b.x][b.y] == C then
              t.lasers == [Laser(q, Reflected(q, d)), Laser(PointByDirection(q, d), d)] && !t.isOpen
            else t.lasers == [] && t.isOpen && IsPointOut(PointByDirection(q, d), g)
    decreases Progress(g, p, d)
  {
    var b := BlockByPointAndDirection(p, d);
    if !IsBlockOut(b, g) {
      var v := g[b.x][b.y];
      var q := PointByDirection(p, d);
      if v != A && v != B && v != C && !IsPointOut(q, g) {
        TrackShape(g, q, d);
        var rest := TrackFrom(g, q, d);
        var t := TrackFrom(g, p, d);
        assert t.path == [p] + rest.path;
        forall k | 1 <= k < |t.path| - 1 ensures t.path[k + 1] == PointByDirection(t.path[k], d) {
          assert t.path[k + 1] == rest.path[k];
        }
      }
    }
  }

  function Track(g: Grid, l: Laser): Trace
    requires IsRect(g) && ValidLaser(l)
  {
    TrackFrom(g, l.origin, l.dir)
  }

  /** The laser stays open exactly when it is not stopped by an A, B or C
      block, and an open laser spawns nothing. */
  lemma OpenIffNotStopped(g: Grid, l: Laser)
    requires IsRect(g) && ValidLaser(l)
    ensures |Track(g, l).path| >= 1
    ensures var t := Track(g, l);
            var q := t.path[|t.path| - 1];
            var b := BlockByPointAndDirection(q, l.dir);
            (t.isOpen <==> IsBlockOut(b, g) || (g[b.x][b.y] != A && g[b.x][b.y] != B && g[b.x][b.y] != C)) &&
            (t.isOpen ==> t.lasers == [])
  {
    TrackShape(g, l.origin, l.dir);
  }

  /** The lasers spawned by one laser, as a set. */
  function Spawns(g: Grid, l: Laser): set<Laser>
    requires IsRect(g) && ValidLaser(l)
  {
    set m | m in Track(g, l).lasers
  }

  /** Every laser spawned by a bounded laser lies in the box around the board
      and moves with components bounded by the same K. */
  predicate Bounded(l: Laser, K: nat) {
    ValidLaser(l) && Abs(l.dir.x) <= K && Abs(l.dir.y) <= K
  }

  ghost predicate InBox(g: Grid, K: nat, l: Laser) {
    Bounded(l, K) &&
    -2 * (K as int) <= l.origin.x <= 2 * Rows(g) + 2 * K &&
    -2 * (K as int) <= l.origin.y <= 2 * Cols(g) + 2 * K
  }

  ghost function Box(g: Grid, K: nat): set<Laser> {
    var k: int := K;
    set x, y, dx, dy |
      -2 * k <= x <= 2 * Rows(g) + 2 * k && -2 * k <= y <= 2 * Cols(g) + 2 * k &&
      -k <= dx <= k && -k <= dy <= k && Point(dx, dy) != Point(0, 0)
      :: Laser(Point(x, y), Point(dx, dy))
  }

  lemma InBoxMember(g: Grid, K: nat, l: Laser)
    requires InBox(g, K, l)
    ensures l in Box(g, K)
  {
    assert l == Laser(Point(l.origin.x, l.origin.y), Point(l.dir.x, l.dir.y));
  }

  lemma SpawnsInBox(g: Grid, l: Laser, K: nat)
    requires IsRect(g) && Bounded(l, K)
    ensures forall m :: m in Spawns(g, l) ==> InBox(g, K, m) && m in Box(g, K)
  {
    TrackShape(g, l.origin, l.dir);
    var t := Track(g, l);
    var q := t.path[|t.path| - 1];
    var d := l.dir;
    var b := BlockByPointAndDirection(q, d);
    if !IsBlockOut(b, g) {
      // The entered block is on the board, so q is within K of the point space.
      assert -(K as int) <= q.x <= 2 * Rows(g) + K && -(K as int) <= q.y <= 2 * Cols(g) + K;
    }
    forall m | m in Spawns(g, l) ensures InBox(g, K, m) && m in Box(g, K) {
      InBoxMember(g, K, m);
    }
  }

  // ---------------------------------------------------------------------
  // Closure of all lasers

  /** T holds only lasers the tracer can follow and holds everything they spawn. */
  ghost predicate Closed(g: Grid, T: set<Laser>)
    requires IsRect(g)
  {
    forall l :: l in T ==> ValidLaser(l) && Spawns(g, l) <= T
  }

  /** One round of spawning: S together with every laser spawned by a member. */
  ghost function Step(g: Grid, S: set<Laser>): (r: set<Laser>)
    requires IsRect(g) && AllValid(S)
    ensures S <= r
    ensures forall l :: l in S ==> Spawns(g, l) <= r
    ensures forall T :: S <= T && Closed(g, T) ==> r <= T
  {
    S + set l, m | l in S && m in Track(g, l).lasers :: m
  }

  /** A bound on the direction components of a set of lasers. */
  ghost function DirBound(s: set<Laser>): (k: nat)
    ensures forall l :: l in s ==> Abs(l.dir.x) <= k && Abs(l.dir.y) <= k
    decreases |s|
  {
    if s == {} then 0
    else
      var l :| l in s;
      var k := DirBound(s - {l});
      var m := if Abs(l.dir.x) < Abs(l.dir.y) then Abs(l.dir.y) else Abs(l.dir.x);
      if k < m then m else k
  }

  ghost function Universe(g: Grid, K: nat, src: set<Laser>): set<Laser> {
    src + Box(g, K)
  }

  lemma ProperSubsetSmaller<T>(a: set<T>, b: set<T>)
    requires a < b
    ensures |a| < |b|
  {
    assert b == a + (b - a);
    assert a * (b - a) == {};
  }

  /** Spawning rounds from S until nothing new appears. The result is the least
      closed set that contains S. */
  ghost function ClosureFrom(g: Grid, K: nat, src: set<Laser>, S: set<Laser>): (r: set<Laser>)
    requires IsRect(g)
    requires forall l :: l in S ==> Bounded(l, K)
    requires S <= Universe(g, K, src)
    ensures S <= r
    ensures Closed(g, r)
    ensures forall T :: S <= T && Closed(g, T) ==> r <= T
    decreases |Universe(g, K, src) - S|
  {
    forall l | l in S ensures ValidLaser(l) {
      assert Bounded(l, K);
    }
    var S' := Step(g, S);
    if S' == S then S
    else
      forall m | m in S' ensures Bounded(m, K) && m in Universe(g, K, src) {
        if m !in S {
          var l :| l in S && m in Spawns(g, l);
          SpawnsInBox(g, l, K);
        }
      }
      ProperSubsetSmaller(Universe(g, K, src) - S', Universe(g, K, src) - S);
      ClosureFrom(g, K, src, S')
  }

  /** The set of all lasers active on a board with sources src: the least set
      that contains the sources and everything its members spawn. */
  ghost function Closure(g: Grid, src: set<Laser>): (r: set<Laser>)
    requires IsRect(g) && AllValid(src)
    ensures src <= r
    ensures Closed(g, r)
    ensures forall T :: src <= T && Closed(g, T) ==> r <= T
  {
    var K := DirBound(src);
    assert forall l :: l in src ==> Bounded(l, K);
    ClosureFrom(g, K, src, src)
  }

  /** A chain of spawns that starts at a source. */
  ghost predicate IsSpawnChain(g: Grid, src: set<Laser>, ch: seq<Laser>)
    requires IsRect(g)
  {
    |ch| >= 1 && ch[0] in src &&
    forall i :: 0 <= i < |ch| - 1 ==> ValidLaser(ch[i]) && ch[i + 1] in Spawns(g, ch[i])
  }

  ghost predicate Reachable(g: Grid, src: set<Laser>, l: Laser)
    requires IsRect(g)
  {
    exists ch :: IsSpawnChain(g, src, ch) && ch[|ch| - 1] == l
  }

  lemma {:induction false} ChainInClosure(g: Grid, src: set<Laser>, ch: seq<Laser>)
    requires IsRect(g) && AllValid(src) && IsSpawnChain(g, src, ch)
    ensures ch[|ch| - 1] in Closure(g, src)
    decreases |ch|
  {
    if |ch| > 1 {
      var pre := ch[..|ch| - 1];
      assert IsSpawnChain(g, src, pre);
      ChainInClosure(g, src, pre);
    }
  }

  lemma ChainExtend(g: Grid, src: set<Laser>, ch: seq<Laser>, n: Laser)
    requires IsRect(g) && IsSpawnChain(g, src, ch)
    requires ValidLaser(ch[|ch| - 1]) && n in Spawns(g, ch[|ch| - 1])
    ensures IsSpawnChain(g, src, ch + [n])
  {
    var ch' := ch + [n];
    forall i | 0 <= i < |ch'| - 1 ensures ValidLaser(ch'[i]) && ch'[i + 1] in Spawns(g, ch'[i]) {
      if i < |ch| - 1 {
        assert ch'[i] == ch[i] && ch'[i + 1] == ch[i + 1];
      }
    }
  }

  ghost function ReachablePart(g: Grid, src: set<Laser>): set<Laser>
    requires IsRect(g) && AllValid(src)
  {
    set m | m in Closure(g, src) && Reachable(g, src, m)
  }

  /** What a reachable laser of the closure spawns is reachable and in the closure. */
  lemma ReachableSpawns(g: Grid, src: set<Laser>, m: Laser)
    requires IsRect(g) && AllValid(src) && m in ReachablePart(g, src)
    ensures ValidLaser(m) && Spawns(g, m) <= ReachablePart(g, src)
  {
    var ch :| IsSpawnChain(g, src, ch) && ch[|ch| - 1] == m;
    forall n | n in Spawns(g, m) ensures n in ReachablePart(g, src) {
      ChainExtend(g, src, ch, n);
      assert (ch + [n])[|ch + [n]| - 1] == n;
    }
  }

  /** The lasers of the closure that are reachable form a closed set. */
  lemma ReachablePartClosed(g: Grid, src: set<Laser>)
    requires IsRect(g) && AllValid(src)
    ensures src <= ReachablePart(g, src) && Closed(g, ReachablePart(g, src))
  {
    forall s | s in src ensures s in ReachablePart(g, src) {
      assert IsSpawnChain(g, src, [s]);
    }
    forall m | m in ReachablePart(g, src) ensures ValidLaser(m) && Spawns(g, m) <= ReachablePart(g, src) {
      ReachableSpawns(g, src, m);
    }
  }

  /** The closure holds exactly the lasers reachable from a source by zero or
      more spawns: nothing is missing and nothing extra. */
  lemma ClosureIsReachable(g: Grid, src: set<Laser>, l: Laser)
    requires IsRect(g) && AllValid(src)
    ensures l in Closure(g, src) <==> Reachable(g, src, l)
  {
    if l in Closure(g, src) {
      ReachablePartClosed(g, src);
    } else if Reachable(g, src, l) {
      var ch :| IsSpawnChain(g, src, ch) && ch[|ch| - 1] == l;
      ChainInClosure(g, src, ch);
    }
  }

  // ---------------------------------------------------------------------
  // The board

  /** grid with block c set to type t. */
  function Place(g: Grid, c: Block, t: int): Grid
    requires IsRect(g) && !IsBlockOut(c, g)
  {
    g[c.x := g[c.x][c.y := t]]
  }

  /** Placing a block changes that one cell and keeps the grid's shape. */
  lemma PlaceChangesOneCell(g: Grid, c: Block, t: int)
    requires IsRect(g) && !IsBlockOut(c, g)
    ensures var h := Place(g, c, t);
            IsRect(h) && Rows(h) == Rows(g) && Cols(h) == Cols(g) && h[c.x][c.y] == t &&
            forall i, j :: 0 <= i < Rows(g) && 0 <= j < Cols(g) && (i, j) != (c.x, c.y) ==> h[i][j] == g[i][j]
  {
  }

  class Board {
    var grid: Grid
    /** Remaining blocks of each type, indexed by type code: A, C, B. */
    var counts: seq<int>
    /** The laser sources of the puzzle; never changed. */
    const lasers: set<Laser>

    ghost predicate Valid()
      reads this
    {
      IsRect(grid) && |counts| == 3
    }

    constructor (grid: Grid, counts: seq<int>, lasers: set<Laser>)
      ensures this.grid == grid && this.counts == counts && this.lasers == lasers
    {
      this.grid := grid;
      this.counts := counts;
      this.lasers := lasers;
    }

    /** A new board with the same grid, counts and sources. */
    method Copy() returns (b: Board)
      ensures fresh(b)
      ensures b.grid == grid && b.counts == counts && b.lasers == lasers
    {
      b := new Board(grid, counts, lasers);
    }

    /** Puts a block of type t at block c and spends one block of that type.
        The count is not checked and may go below zero. */
    method SetBlock(c: Block, t: int)
      requires Valid() && !IsBlockOut(c, grid) && 0 <= t < |counts|
      modifies this
      ensures Valid()
      ensures grid == Place(old(grid), c, t)
      ensures counts == old(counts)[t := old(counts)[t] - 1]
    {
      counts := counts[t := counts[t] - 1];
      grid := grid[c.x := grid[c.x][c.y := t]];
    }

    /** Every laser active on the board: a worklist that traces each new laser
        once and queues what it spawns. */
    method AllLasers() returns (known: set<Laser>)
      requires Valid() && AllValid(lasers)
      ensures known == Closure(grid, lasers)
    {
      ghost var cl := Closure(grid, lasers);
      var queue := lasers;
      known := {};
      while queue != {}
        invariant known + queue <= cl
        invariant lasers <= known + queue
        invariant forall l :: l in known ==> Spawns(grid, l) <= known + queue
        decreases |cl - known|, |queue|
      {
        var laser :| laser in queue;
        if laser in known {
          queue := queue - {laser};
          continue;
        }
        ProperSubsetSmaller(cl - (known + {laser}), cl - known);
        var path, subLasers, isOpen := TrackByLaser(laser, this);
        WorklistStep(grid, cl, lasers, known, queue, laser, subLasers);
        queue := queue - {laser};
        known := known + {laser};
        queue := queue + set m | m in subLasers;
      }
      assert Closed(grid, known);
    }
  }

  /** One productive round of the worklist keeps its three invariants. */
  lemma WorklistStep(g: Grid, cl: set<Laser>, src: set<Laser>, known: set<Laser>, queue: set<Laser>,
                     laser: Laser, sub: seq<Laser>)
    requires IsRect(g) && Closed(g, cl)
    requires known + queue <= cl && src <= known + queue
    requires forall l :: l in known ==> Spawns(g, l) <= known + queue
    requires laser in queue && laser !in known && ValidLaser(laser) && sub == Track(g, laser).lasers
    ensures var known', queue' := known + {laser}, (queue - {laser}) + set m | m in sub;
            known' + queue' <= cl && src <= known' + queue' &&
            forall l :: l in known' ==> Spawns(g, l) <= known' + queue'
  {
    var spawned := set m | m in sub;
    assert spawned == Spawns(g, laser);
    var known', queue' := known + {laser}, (queue - {laser}) + spawned;
    assert known' + queue' == known + queue + spawned;
  }

  /** Follows one laser point by point until it is stopped by a block or
      leaves the board. */
  method TrackByLaser(laser: Laser, board: Board) returns (path: seq<Point>, lasers: seq<Laser>, isOpen: bool)
    requires board.Valid() && ValidLaser(laser)
    ensures Trace(path, lasers, isOpen) == Track(board.grid, laser)
  {
    var g := board.grid;
    var point := laser.origin;
    var direction := laser.dir;
    path := [];
    lasers := [];
    isOpen := true;
    while true
      invariant path + TrackFrom(g, point, direction).path == Track(g, laser).path
      invariant TrackFrom(g, point, direction).lasers == Track(g, laser).lasers
      invariant TrackFrom(g, point, direction).isOpen == Track(g, laser).isOpen
      invariant lasers == [] && isOpen
      decreases Progress(g, point, direction)
    {
      path := path + [point];
      var block := BlockByPointAndDirection(point, direction);
      if IsBlockOut(block, g) {
        assert TrackFrom(g, point, direction) == Trace([point], [], true);
        break;
      }
      var type_ := g[block.x][block.y];
      if type_ == A {
        lasers := lasers + [Laser(point, Reflected(point, direction))];
        isOpen := false;
        assert TrackFrom(g, point, direction) == Trace([point], lasers, false);
        break;
      } else if type_ == B {
        isOpen := false;
        assert TrackFrom(g, point, direction) == Trace([point], [], false);
        break;
      } else if type_ == C {
        lasers := lasers + [Laser(point, Reflected(point, direction))];
        lasers := lasers + [Laser(PointByDirection(point, direction), direction)];
        isOpen := false;
        assert TrackFrom(g, point, direction) == Trace([point], lasers, false);
        break;
      }
      // X, O and any other code: nothing happens here.
      var next := PointByDirection(point, direction);
      if IsPointOut(next, g) {
        assert TrackFrom(g, point, direction) == Trace([point], [], true);
        break;
      }
      assert TrackFrom(g, point, direction).path == [point] + TrackFrom(g, next, direction).path;
      point := next;
    }
  }
}
