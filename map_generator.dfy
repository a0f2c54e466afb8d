/**
 * World generation: the tile grid of `"0"` (grass) and `"1"` (path) cells, the
 * sector-based cat placement and the carved paths that join the spawn point
 * and the cats. The grid is a `height` x `width` array indexed `grid[y, x]`;
 * every call to the random module is an explicit draw taken from a stream
 * that depends only on the seed.
 */
module MapGenerator {
  import opened Wrappers
  import opened Geometry
  import opened Draws
  import opened Arith

  /** Border kept free of sectors on every side. */
  const Margin: int := 4
  /** Half-width of the carved path. */
  const PathWidth: int := 1
  /** A missing seed is drawn from `[0, SeedLimit - 1]`. */
  const SeedLimit: int := 1000000

  const Grass: char := '0'
  const PathTile: char := '1'

  // ---------------------------------------------------------------------------
  // The path walk
  // ---------------------------------------------------------------------------

  /**
   * The drift part of one carving step: `Calm` when `random.random() < 0.3`
   * fails, `Wander(pick)` when it holds, where `pick` is the draw for
   * `random.choice([-1, 0, 0, 1])`.
   */
  datatype DriftDraw = Calm | Wander(pick: nat)

  const DriftChoices: seq<int> := [-1, 0, 0, 1]

  /** `1 if v > 0 else -1`. */
  function Sign(v: int): int {
    if v > 0 then 1 else -1
  }

  /** `max(0, min(hi, v))`. */
  function Clamp(v: int, hi: int): (r: int)
    ensures r >= 0
    ensures 0 <= v <= hi ==> r == v
  {
    if v > hi then (if hi < 0 then 0 else hi) else if v < 0 then 0 else v
  }

  predicate InGrid(width: int, height: int, c: Cell) {
    0 <= c.0 < width && 0 <= c.1 < height
  }

  /** The stamp test: `p` is at offset `(ox, oy)` from `c` with both in `[-1, 1]` and `|ox| + |oy| <= 2`. */
  predicate InStamp(c: Cell, p: Cell) {
    var ox := p.0 - c.0;
    var oy := p.1 - c.1;
    -PathWidth <= ox <= PathWidth && -PathWidth <= oy <= PathWidth && Abs(ox) + Abs(oy) <= PathWidth + 1
  }

  /** The adjacency test that ends a walk: `abs(x1 - x2) <= 1 and abs(y1 - y2) <= 1`. */
  predicate Near(a: Cell, b: Cell) {
    Abs(a.0 - b.0) <= 1 && Abs(a.1 - b.1) <= 1
  }

  /** With a path width of 1 the diamond test admits all nine offsets: the stamp is the full 3x3 block. */
  lemma StampIsBlock(c: Cell, p: Cell)
    ensures InStamp(c, p) <==> Near(c, p)
  {
  }

  /**
   * Where the cursor goes after a step whose adjacency test failed: the
   * optional drift across the dominant axis with both coordinates clamped to
   * the grid, then one unit toward `end` on the dominant axis. `None` is the
   * `else: break` taken when the cursor already sits on `end`.
   */
  function Advance(cur: Cell, end: Cell, width: int, height: int, d: DriftDraw): Option<Cell> {
    var dx := end.0 - cur.0;
    var dy := end.1 - cur.1;
    var drifted := Drifted(cur, end, width, height, d);
    if Abs(dx) > Abs(dy) then Some((drifted.0 + Sign(dx), drifted.1))
    else if dy != 0 then Some((drifted.0, drifted.1 + Sign(dy)))
    else None
  }

  /** The cursor after the optional drift: moved across the dominant axis, then both coordinates clamped. */
  function Drifted(cur: Cell, end: Cell, width: int, height: int, d: DriftDraw): Cell {
    if d.Wander? then
      var delta := Choice(DriftChoices, d.pick);
      var moved := if Abs(end.0 - cur.0) > Abs(end.1 - cur.1) then (cur.0, cur.1 + delta) else (cur.0 + delta, cur.1);
      (Clamp(moved.0, width - 1), Clamp(moved.1, height - 1))
    else cur
  }

  /**
   * The cursors `_draw_path` stamps, from loop iteration `k` on with the
   * cursor at `cur`, when iteration `k` uses drift draw `drift(k)` and the
   * loop may run `maxSteps` iterations in all.
   */
  function Walk(cur: Cell, end: Cell, width: int, height: int, drift: nat -> DriftDraw, k: nat, maxSteps: int): seq<Cell>
    decreases maxSteps - k
  {
    if k >= maxSteps then []
    else if Near(cur, end) then [cur]
    else match Advance(cur, end, width, height, drift(k))
      case None => [cur]
      case Some(next) => [cur] + Walk(next, end, width, height, drift, k + 1, maxSteps)
  }

  /** Whether some stamp of `cursors` covers `p` (the latest stamp looked at first). */
  predicate Covered(cursors: seq<Cell>, p: Cell)
    decreases |cursors|
  {
    |cursors| > 0 && (InStamp(cursors[|cursors| - 1], p) || Covered(cursors[..|cursors| - 1], p))
  }

  /** Stamping one more cursor covers exactly its stamp in addition. */
  lemma CoverExtend(cursors: seq<Cell>, cur: Cell, p: Cell)
    ensures Covered(cursors + [cur], p) <==> Covered(cursors, p) || InStamp(cur, p)
  {
    assert (cursors + [cur])[..|cursors|] == cursors;
  }

  /** A cell is covered exactly when the stamp of one of the cursors holds it. */
  lemma {:induction false} CoveredByOne(cursors: seq<Cell>, p: Cell, i: nat)
    requires i < |cursors| && InStamp(cursors[i], p)
    ensures Covered(cursors, p)
    decreases |cursors|
  {
    if i < |cursors| - 1 {
      var front := cursors[..|cursors| - 1];
      assert front[i] == cursors[i];
      CoveredByOne(front, p, i);
    }
  }

  /** A cell covered by the stamps of a walk's tail is covered by the whole walk. */
  lemma {:induction false} CoveredPrepend(cur: Cell, rest: seq<Cell>, p: Cell)
    requires Covered(rest, p)
    ensures Covered([cur] + rest, p)
    decreases |rest|
  {
    var all := [cur] + rest;
    if !InStamp(rest[|rest| - 1], p) {
      var front := rest[..|rest| - 1];
      CoveredPrepend(cur, front, p);
      assert all[..|all| - 1] == [cur] + front;
    }
  }

  lemma AppendCursor(prev: seq<Cell>, cur: Cell, rest: seq<Cell>)
    ensures (prev + [cur]) + rest == prev + ([cur] + rest)
  {
  }

  /** Two cells sharing a side. */
  predicate Step4(a: Cell, b: Cell) {
    Abs(a.0 - b.0) + Abs(a.1 - b.1) == 1
  }

  /** A 4-connected chain of cells from `from` to `to`. */
  predicate IsRoute(route: seq<Cell>, from: Cell, to: Cell) {
    |route| > 0 && route[0] == from && route[|route| - 1] == to &&
    forall i :: 0 <= i < |route| - 1 ==> Step4(route[i], route[i + 1])
  }

  /** Every cell of `route` is in the grid and covered by a stamp of `cursors`. */
  predicate RouteCovered(route: seq<Cell>, cursors: seq<Cell>, width: int, height: int) {
    forall i :: 0 <= i < |route| ==> InGrid(width, height, route[i]) && Covered(cursors, route[i])
  }

  /** Every cell of `route` is a path cell of `grid`. */
  ghost predicate Carved(grid: array2<char>, route: seq<Cell>)
    reads grid
  {
    forall i :: 0 <= i < |route| ==>
      InGrid(grid.Length1, grid.Length0, route[i]) && grid[route[i].1, route[i].0] == PathTile
  }

  /** The cell a walk's carved region connects its start to: `end` when the walk reached it, else the last cursor. */
  function RouteTarget(cursors: seq<Cell>, end: Cell): Cell
    requires |cursors| > 0
  {
    if Near(cursors[|cursors| - 1], end) then end else cursors[|cursors| - 1]
  }

  /** The side-sharing steps from `a` to a cell `b` next to it, through the corner `(b.0, a.1)` for a diagonal. */
  function Link(a: Cell, b: Cell): (r: seq<Cell>)
    requires Near(a, b)
    ensures forall i :: 0 <= i < |r| ==> InStamp(a, r[i]) && (r[i].0 == b.0 || r[i].0 == a.0) && (r[i].1 == b.1 || r[i].1 == a.1)
    ensures a != b ==> |r| > 0 && r[|r| - 1] == b
    ensures a == b ==> r == []
  {
    if a == b then []
    else if Step4(a, b) then [b]
    else [(b.0, a.1), b]
  }

  /** `[a]` followed by the link to a neighbouring `b` is a route from `a` to `b` inside `a`'s stamp. */
  lemma LinkRoute(a: Cell, b: Cell, width: int, height: int)
    requires Near(a, b) && InGrid(width, height, a) && InGrid(width, height, b)
    ensures IsRoute([a] + Link(a, b), a, b)
    ensures forall i :: 0 <= i < |[a] + Link(a, b)| ==>
      InGrid(width, height, ([a] + Link(a, b))[i]) && InStamp(a, ([a] + Link(a, b))[i])
  {
    var r := [a] + Link(a, b);
    if a != b && !Step4(a, b) {
      assert r == [a, (b.0, a.1), b];
    }
  }

  /** Routes `from -> mid` and `mid -> to` join into a route `from -> to`. */
  lemma JoinRoutes(r1: seq<Cell>, r2: seq<Cell>, from: Cell, mid: Cell, to: Cell)
    requires IsRoute(r1, from, mid) && IsRoute(r2, mid, to)
    ensures IsRoute(r1 + r2[1..], from, to)
  {
    var r := r1 + r2[1..];
    forall i | 0 <= i < |r| - 1 ensures Step4(r[i], r[i + 1]) {
      if i < |r1| - 1 {
        assert r[i] == r1[i] && r[i + 1] == r1[i + 1];
      } else {
        assert r[i] == r2[i - |r1| + 1] && r[i + 1] == r2[i - |r1| + 2];
      }
    }
  }

  /** The clamped drift never moves an in-grid coordinate by more than one. */
  lemma ClampStep(v: int, delta: int, hi: int)
    requires 0 <= v <= hi && -1 <= delta <= 1
    ensures 0 <= Clamp(v + delta, hi) <= hi && Abs(Clamp(v + delta, hi) - v) <= 1
  {
  }

  /**
   * From an in-grid cursor toward an in-grid target that is not yet next to
   * it, the cursor always moves, stays in the grid and lands next to where it
   * was: drift is clamped and the main step goes toward the target on the
   * axis the drift did not touch.
   */
  lemma AdvanceInGrid(cur: Cell, end: Cell, width: int, height: int, d: DriftDraw)
    requires InGrid(width, height, cur) && InGrid(width, height, end) && !Near(cur, end)
    ensures var n := Advance(cur, end, width, height, d); n.Some? && InGrid(width, height, n.value) && Near(cur, n.value)
  {
    if d.Wander? {
      var delta := Choice(DriftChoices, d.pick);
      var dx, dy := end.0 - cur.0, end.1 - cur.1;
      ClampStep(cur.0, if Abs(dx) > Abs(dy) then 0 else delta, width - 1);
      ClampStep(cur.1, if Abs(dx) > Abs(dy) then delta else 0, height - 1);
    }
  }

  /** A walk runs at most its step budget. */
  lemma {:induction false} WalkBudget(cur: Cell, end: Cell, width: int, height: int, drift: nat -> DriftDraw, k: nat, maxSteps: int)
    requires k <= maxSteps
    ensures |Walk(cur, end, width, height, drift, k, maxSteps)| <= maxSteps - k
    decreases maxSteps - k
  {
    if k < maxSteps && !Near(cur, end) {
      match Advance(cur, end, width, height, drift(k))
      case None =>
      case Some(next) => WalkBudget(next, end, width, height, drift, k + 1, maxSteps);
    }
  }

  /** Between in-grid ends every cursor of the walk stays in the grid. */
  lemma {:induction false} WalkInGrid(cur: Cell, end: Cell, width: int, height: int, drift: nat -> DriftDraw, k: nat, maxSteps: int)
    requires InGrid(width, height, cur) && InGrid(width, height, end)
    ensures forall c :: c in Walk(cur, end, width, height, drift, k, maxSteps) ==> InGrid(width, height, c)
    decreases maxSteps - k
  {
    if k < maxSteps && !Near(cur, end) {
      AdvanceInGrid(cur, end, width, height, drift(k));
      var next := Advance(cur, end, width, height, drift(k)).value;
      WalkInGrid(next, end, width, height, drift, k + 1, maxSteps);
      var rest := Walk(next, end, width, height, drift, k + 1, maxSteps);
      var w := Walk(cur, end, width, height, drift, k, maxSteps);
      assert w == [cur] + rest;
      assert forall c :: c in w ==> c == cur || c in rest;
    }
  }

  /**
   * Connectivity of a carved path: between in-grid ends, the stamps of a
   * walk with budget left contain a 4-connected route from its first cursor
   * to its target, which is `end` itself when the adjacency test ended it.
   */
  lemma {:induction false} WalkConnects(cur: Cell, end: Cell, width: int, height: int, drift: nat -> DriftDraw, k: nat, maxSteps: int)
    returns (route: seq<Cell>)
    requires InGrid(width, height, cur) && InGrid(width, height, end) && k < maxSteps
    ensures var w := Walk(cur, end, width, height, drift, k, maxSteps);
      |w| > 0 && IsRoute(route, cur, RouteTarget(w, end)) && RouteCovered(route, w, width, height)
    decreases maxSteps - k
  {
    var w := Walk(cur, end, width, height, drift, k, maxSteps);
    assert w[0] == cur;
    if Near(cur, end) {
      route := HeadRoute(cur, end, w, width, height);
    } else {
      AdvanceInGrid(cur, end, width, height, drift(k));
      var next := Advance(cur, end, width, height, drift(k)).value;
      var rest := Walk(next, end, width, height, drift, k + 1, maxSteps);
      assert w == [cur] + rest;
      if k + 1 == maxSteps {
        route := [cur];
        CoveredByOne(w, cur, 0);
      } else {
        var head := HeadRoute(cur, next, w, width, height);
        var tail := WalkConnects(next, end, width, height, drift, k + 1, maxSteps);
        route := JoinCovered(cur, rest, head, tail, next, RouteTarget(rest, end), width, height);
        assert w[|w| - 1] == rest[|rest| - 1];
      }
    }
  }

  /** The link from the first cursor to a cell next to it is covered by that cursor's stamp. */
  lemma HeadRoute(cur: Cell, to: Cell, w: seq<Cell>, width: int, height: int) returns (route: seq<Cell>)
    requires Near(cur, to) && InGrid(width, height, cur) && InGrid(width, height, to)
    requires |w| > 0 && w[0] == cur
    ensures IsRoute(route, cur, to) && RouteCovered(route, w, width, height)
  {
    LinkRoute(cur, to, width, height);
    route := [cur] + Link(cur, to);
    forall i | 0 <= i < |route| ensures Covered(w, route[i]) {
      CoveredByOne(w, route[i], 0);
    }
  }

  /** Joining a covered head route with a route covered by the later cursors. */
  lemma JoinCovered(cur: Cell, rest: seq<Cell>, head: seq<Cell>, tail: seq<Cell>, mid: Cell, to: Cell, width: int, height: int)
    returns (route: seq<Cell>)
    requires IsRoute(head, cur, mid) && RouteCovered(head, [cur] + rest, width, height)
    requires IsRoute(tail, mid, to) && RouteCovered(tail, rest, width, height)
    ensures IsRoute(route, cur, to) && RouteCovered(route, [cur] + rest, width, height)
  {
    JoinRoutes(head, tail, cur, mid, to);
    route := head + tail[1..];
    forall i | 0 <= i < |route| ensures InGrid(width, height, route[i]) && Covered([cur] + rest, route[i]) {
      if i >= |head| {
        assert route[i] == tail[i - |head| + 1];
        CoveredPrepend(cur, rest, route[i]);
      }
    }
  }

  /** A route through stamped cells is carved once every stamped cell holds path. */
  lemma CoveredIsCarved(grid: array2<char>, route: seq<Cell>, cursors: seq<Cell>)
    requires RouteCovered(route, cursors, grid.Length1, grid.Length0)
    requires forall r, q :: 0 <= r < grid.Length0 && 0 <= q < grid.Length1 && Covered(cursors, (q, r)) ==> grid[r, q] == PathTile
    ensures Carved(grid, route)
  {
    forall i | 0 <= i < |route|
      ensures InGrid(grid.Length1, grid.Length0, route[i]) && grid[route[i].1, route[i].0] == PathTile
    {
      var c := route[i];
      assert Covered(cursors, (c.0, c.1));
    }
  }

  /** Writes `"1"` into every in-bounds cell of the stamp centred on `c` and nothing else. */
  method Stamp(grid: array2<char>, c: Cell, width: int, height: int)
    requires grid.Length0 == height && grid.Length1 == width
    modifies grid
    ensures forall r, q :: 0 <= r < height && 0 <= q < width ==>
      grid[r, q] == if InStamp(c, (q, r)) then PathTile else old(grid[r, q])
  {
    for ox := -PathWidth to PathWidth + 1
      invariant forall r, q :: 0 <= r < height && 0 <= q < width ==>
        grid[r, q] == if InStamp(c, (q, r)) && q - c.0 < ox then PathTile else old(grid[r, q])
    {
      for oy := -PathWidth to PathWidth + 1
        invariant forall r, q :: 0 <= r < height && 0 <= q < width ==>
          grid[r, q] == if InStamp(c, (q, r)) && (q - c.0 < ox || (q - c.0 == ox && r - c.1 < oy))
                        then PathTile else old(grid[r, q])
      {
        if Abs(ox) + Abs(oy) <= PathWidth + 1 {
          var nx, ny := c.0 + ox, c.1 + oy;
          if 0 <= nx < width && 0 <= ny < height {
            grid[ny, nx] := PathTile;
          }
        }
      }
    }
  }

  /**
   * The tail of one `_draw_path` iteration: the optional drift, clamped to
   * the grid, then one unit toward `(x2, y2)` on the dominant axis;
   * `moved` is false for the `else: break` case.
   */
  method StepToward(x1: int, y1: int, x2: int, y2: int, width: int, height: int, d: DriftDraw)
    returns (nx: int, ny: int, moved: bool)
    ensures moved <==> Advance((x1, y1), (x2, y2), width, height, d).Some?
    ensures moved ==> Advance((x1, y1), (x2, y2), width, height, d) == Some((nx, ny))
  {
    nx, ny := x1, y1;
    var dx := x2 - x1;
    var dy := y2 - y1;
    if d.Wander? {
      var delta := Choice(DriftChoices, d.pick);
      if Abs(dx) > Abs(dy) {
        ny := ny + delta;
      } else {
        nx := nx + delta;
      }
      nx := Clamp(nx, width - 1);
      ny := Clamp(ny, height - 1);
    }
    if Abs(dx) > Abs(dy) {
      nx := nx + Sign(dx);
    } else if dy != 0 {
      ny := ny + Sign(dy);
    } else {
      return nx, ny, false;
    }
    moved := true;
  }

  /**
   * `_draw_path`: the walk from `start` toward `end`, stamping the cursor at
   * every iteration, at most `width * height` iterations in all. The
   * cursors are `Walk`'s, and the cells turned into path are exactly those
   * their stamps cover; every other cell keeps its value.
   */
  method DrawPath(grid: array2<char>, start: Cell, end: Cell, width: int, height: int, drift: nat -> DriftDraw)
    returns (ghost cursors: seq<Cell>)
    requires grid.Length0 == height && grid.Length1 == width
    modifies grid
    ensures cursors == Walk(start, end, width, height, drift, 0, width * height)
    ensures |cursors| <= width * height
    ensures forall r, q :: 0 <= r < height && 0 <= q < width ==>
      grid[r, q] == if Covered(cursors, (q, r)) then PathTile else old(grid[r, q])
  {
    var x1, y1 := start.0, start.1;
    var x2, y2 := end.0, end.1;
    var maxSteps := width * height;
    var steps := 0;
    cursors := [];
    while steps < maxSteps
      invariant 0 <= steps <= maxSteps && |cursors| == steps
      invariant cursors + Walk((x1, y1), end, width, height, drift, steps, maxSteps)
             == Walk(start, end, width, height, drift, 0, maxSteps)
      invariant forall r, q :: 0 <= r < height && 0 <= q < width ==>
        grid[r, q] == if Covered(cursors, (q, r)) then PathTile else old(grid[r, q])
    {
      steps := steps + 1;
      ghost var cur := (x1, y1);
      ghost var prev := cursors;
      ghost var rest := Walk(cur, end, width, height, drift, steps - 1, maxSteps);
      Stamp(grid, (x1, y1), width, height);
      cursors := cursors + [cur];
      forall r, q | 0 <= r < height && 0 <= q < width
        ensures grid[r, q] == if Covered(cursors, (q, r)) then PathTile else old(grid[r, q])
      {
        CoverExtend(prev, cur, (q, r));
      }

      if Abs(x1 - x2) <= 1 && Abs(y1 - y2) <= 1 {
        assert cursors == Walk(start, end, width, height, drift, 0, maxSteps) by {
          assert rest == [cur];
        }
        break;
      }

      var moved;
      x1, y1, moved := StepToward(x1, y1, x2, y2, width, height, drift(steps - 1));
      if !moved {
        assert cursors == Walk(start, end, width, height, drift, 0, maxSteps) by {
          assert rest == [cur];
        }
        break;
      }
      assert rest == [cur] + Walk((x1, y1), end, width, height, drift, steps, maxSteps);
      AppendCursor(prev, cur, Walk((x1, y1), end, width, height, drift, steps, maxSteps));
    }
  }

  // ---------------------------------------------------------------------------
  // Sectors and cats
  // ---------------------------------------------------------------------------

  /** The least `k >= start` with `2 k^2 >= 3 n`, the integer form of `ceil(sqrt(1.5 n))`. */
  function CeilRoot(n: nat, start: nat): (k: nat)
    requires start == 0 || 2 * (start - 1) * (start - 1) < 3 * n
    ensures 2 * k * k >= 3 * n && (k == 0 || 2 * (k - 1) * (k - 1) < 3 * n)
    decreases 3 * n - 2 * start * start
  {
    if 2 * start * start >= 3 * n then start
    else
      assert 2 * (start + 1) * (start + 1) > 2 * start * start;
      CeilRoot(n, start + 1)
  }

  /** `max(3, ceil(sqrt(num_cats * 1.5)))`: the side of the square sector grid. */
  function GridSize(numCats: nat): (g: nat)
    ensures g >= 3 && g * g >= numCats
  {
    var k := CeilRoot(numCats, 0);
    var g := if k < 3 then 3 else k;
    assert g * g >= k * k;
    g
  }

  /** A sector `(sx, sy, ex, ey)` of the grid. */
  datatype Sector = Sector(sx: int, sy: int, ex: int, ey: int)

  /** The sector in row `row` and column `col` when sectors measure `sw` x `sh` tiles. */
  function SectorAt(row: int, col: int, sw: int, sh: int): Sector {
    var sx := Margin + col * sw;
    var sy := Margin + row * sh;
    Sector(sx, sy, sx + sw, sy + sh)
  }

  /** The `g * g` sectors in row-major order. */
  function Sectors(g: nat, sw: int, sh: int): (s: seq<Sector>)
    requires g > 0
    ensures |s| == g * g
  {
    seq(g * g, i requires 0 <= i < g * g => SectorAt(i / g, i % g, sw, sh))
  }

  lemma DivMulBelow(a: int, g: int)
    requires g > 0
    ensures (a / g) * g <= a && g * (a / g) <= a
  {
  }

  /** The sector list `generate_map` builds, row by row. */
  method BuildSectors(g: nat, sw: int, sh: int) returns (sectors: seq<Sector>)
    requires g > 0
    ensures sectors == Sectors(g, sw, sh)
  {
    sectors := [];
    for row := 0 to g
      invariant |sectors| == row * g
      invariant forall i :: 0 <= i < |sectors| ==> sectors[i] == SectorAt(i / g, i % g, sw, sh)
    {
      for col := 0 to g
        invariant |sectors| == row * g + col
        invariant forall i :: 0 <= i < |sectors| ==> sectors[i] == SectorAt(i / g, i % g, sw, sh)
      {
        var sx := Margin + col * sw;
        var sy := Margin + row * sh;
        DivUnique(row, col, g);
        sectors := sectors + [Sector(sx, sy, sx + sw, sy + sh)];
      }
    }
  }

  /** Whether `randint(sx + 2, ex - 2)` and `randint(sy + 2, ey - 2)` have something to draw from. */
  predicate Roomy(s: Sector) {
    s.sx + 2 <= s.ex - 2 && s.sy + 2 <= s.ey - 2
  }

  /** The cat position drawn in sector `s` with draws `dx` and `dy`. */
  function CatIn(s: Sector, dx: nat, dy: nat): (c: Cell)
    requires Roomy(s)
    ensures s.sx + 2 <= c.0 <= s.ex - 2 && s.sy + 2 <= c.1 <= s.ey - 2
  {
    (RandInt(s.sx + 2, s.ex - 2, dx), RandInt(s.sy + 2, s.ey - 2, dy))
  }

  /**
   * The cats of the selected sectors: sector `i` draws its column with
   * `place(2 i)` and its row with `place(2 i + 1)`; a position off the map is
   * dropped.
   */
  function CatsOf(sel: seq<Sector>, width: int, height: int, place: nat -> nat): seq<Cell>
    requires forall i :: 0 <= i < |sel| ==> Roomy(sel[i])
    decreases |sel|
  {
    if sel == [] then []
    else
      var i := |sel| - 1;
      var c := CatIn(sel[i], place(2 * i), place(2 * i + 1));
      CatsOf(sel[..i], width, height, place) + (if InGrid(width, height, c) then [c] else [])
  }

  /** The sector of `sel` whose `randint` range is empty first, if any: there `generate_map` raises. */
  function FirstCramped(sel: seq<Sector>): (r: Option<nat>)
    ensures r.Some? ==> r.value < |sel| && !Roomy(sel[r.value]) && forall i :: 0 <= i < r.value ==> Roomy(sel[i])
    ensures r.None? ==> forall i :: 0 <= i < |sel| ==> Roomy(sel[i])
  {
    if sel == [] then None
    else if !Roomy(sel[0]) then Some(0)
    else match FirstCramped(sel[1..])
      case None => None
      case Some(k) => Some(k + 1)
  }

  /**
   * The cat placement loop: either it raises at the first cramped sector, or
   * it yields `CatsOf(sel, ...)`.
   */
  method PlaceCats(sel: seq<Sector>, width: int, height: int, place: nat -> nat) returns (cats: seq<Cell>, raised: bool)
    ensures raised <==> FirstCramped(sel).Some?
    ensures !raised ==> cats == CatsOf(sel, width, height, place)
  {
    cats := [];
    var i := 0;
    while i < |sel|
      invariant 0 <= i <= |sel|
      invariant forall j :: 0 <= j < i ==> Roomy(sel[j])
      invariant cats == CatsOf(sel[..i], width, height, place)
    {
      var s := sel[i];
      if s.sx + 2 > s.ex - 2 || s.sy + 2 > s.ey - 2 {
        return cats, true;
      }
      var x := RandInt(s.sx + 2, s.ex - 2, place(2 * i));
      var y := RandInt(s.sy + 2, s.ey - 2, place(2 * i + 1));
      assert sel[..i + 1][..i] == sel[..i];
      if 0 <= x < width && 0 <= y < height {
        cats := cats + [(x, y)];
      }
      i := i + 1;
    }
    assert sel[..i] == sel;
    return cats, false;
  }

  /** Sector widths `(width - 2 * margin) // cols`, floored like Python (possibly negative). */
  function SectorSide(extent: int, numCats: nat): int {
    (extent - 2 * Margin) / GridSize(numCats)
  }

  /** Every lattice sector is roomy exactly when both sector sides are at least 4. */
  lemma LatticeRoomy(g: nat, sw: int, sh: int, i: nat)
    requires g > 0 && i < g * g
    ensures Roomy(Sectors(g, sw, sh)[i]) <==> sw >= 4 && sh >= 4
  {
  }

  /** The lattice coordinates of sector index `i` lie in the grid. */
  lemma IndexInLattice(g: nat, i: nat)
    requires g > 0 && i < g * g
    ensures 0 <= i / g < g && 0 <= i % g < g
  {
  }

  /** Each interior cell lies in exactly one sector: the sector's lattice coordinates are recovered from the cell. */
  lemma CellSector(g: nat, sw: int, sh: int, i: nat, c: Cell)
    requires g > 0 && i < g * g && sw >= 4 && sh >= 4
    requires var s := Sectors(g, sw, sh)[i]; s.sx + 2 <= c.0 <= s.ex - 2 && s.sy + 2 <= c.1 <= s.ey - 2
    ensures (c.0 - Margin) / sw == i % g && (c.1 - Margin) / sh == i / g
  {
    DivUnique(i % g, c.0 - Margin - (i % g) * sw, sw);
    DivUnique(i / g, c.1 - Margin - (i / g) * sh, sh);
  }

  /** Cats in the interiors of different lattice sectors differ. */
  lemma DistinctSectorsDistinctCats(g: nat, sw: int, sh: int, i: nat, j: nat, a: Cell, b: Cell)
    requires g > 0 && i < g * g && j < g * g && i != j && sw >= 4 && sh >= 4
    requires var s := Sectors(g, sw, sh)[i]; s.sx + 2 <= a.0 <= s.ex - 2 && s.sy + 2 <= a.1 <= s.ey - 2
    requires var s := Sectors(g, sw, sh)[j]; s.sx + 2 <= b.0 <= s.ex - 2 && s.sy + 2 <= b.1 <= s.ey - 2
    ensures a != b
  {
    CellSector(g, sw, sh, i, a);
    CellSector(g, sw, sh, j, b);
  }

  /** A lattice sector's interior lies in `[6, 4 + g sw - 2] x [6, 4 + g sh - 2]`. */
  lemma SectorInterior(g: nat, sw: int, sh: int, i: nat, c: Cell)
    requires g > 0 && i < g * g && sw >= 4 && sh >= 4
    requires var s := Sectors(g, sw, sh)[i]; s.sx + 2 <= c.0 <= s.ex - 2 && s.sy + 2 <= c.1 <= s.ey - 2
    ensures Margin + 2 <= c.0 <= Margin + g * sw - 2 && Margin + 2 <= c.1 <= Margin + g * sh - 2
  {
    IndexInLattice(g, i);
    var col, row := i % g, i / g;
    var s := Sectors(g, sw, sh)[i];
    assert s == SectorAt(row, col, sw, sh);
    MulMono(col + 1, g, sw);
    MulMono(row + 1, g, sh);
    assert col * sw + sw == (col + 1) * sw;
    assert row * sh + sh == (row + 1) * sh;
  }

  /** With roomy sectors no cat is dropped and cat `i` is drawn in sector `i`. */
  lemma {:induction false} CatsOfAllKept(sel: seq<Sector>, width: int, height: int, place: nat -> nat)
    requires forall i :: 0 <= i < |sel| ==> Roomy(sel[i])
    requires forall i :: 0 <= i < |sel| ==> InGrid(width, height, CatIn(sel[i], place(2 * i), place(2 * i + 1)))
    ensures var cats := CatsOf(sel, width, height, place);
      |cats| == |sel| && forall i :: 0 <= i < |sel| ==> cats[i] == CatIn(sel[i], place(2 * i), place(2 * i + 1))
    decreases |sel|
  {
    if sel != [] {
      var n := |sel| - 1;
      CatsOfAllKept(sel[..n], width, height, place);
    }
  }

  /** With sides of at least 4 the lattice sectors are pairwise different. */
  lemma SectorsDistinct(g: nat, sw: int, sh: int)
    requires g > 0 && sw >= 4 && sh >= 4
    ensures Distinct(Sectors(g, sw, sh))
  {
    var all := Sectors(g, sw, sh);
    forall a, b | 0 <= a < b < |all| ensures all[a] != all[b] {
      LatticeRoomy(g, sw, sh, a);
      LatticeRoomy(g, sw, sh, b);
      DistinctSectorsDistinctCats(g, sw, sh, a, b, CatIn(all[a], 0, 0), CatIn(all[b], 0, 0));
    }
  }

  /** A cat drawn in a lattice sector whose sides are at least 4 lies in `[6, width - 6] x [6, height - 6]`. */
  lemma CatInLattice(g: nat, sw: int, sh: int, width: int, height: int, s: Sector, dx: nat, dy: nat)
    requires g > 0 && sw >= 4 && sh >= 4 && g * sw <= width - 2 * Margin && g * sh <= height - 2 * Margin
    requires s in Sectors(g, sw, sh)
    ensures Roomy(s)
    ensures var c := CatIn(s, dx, dy); Margin + 2 <= c.0 <= width - 6 && Margin + 2 <= c.1 <= height - 6
  {
    var all := Sectors(g, sw, sh);
    var i :| 0 <= i < |all| && all[i] == s;
    LatticeRoomy(g, sw, sh, i);
    SectorInterior(g, sw, sh, i, CatIn(s, dx, dy));
  }

  /** Cats drawn in two different lattice sectors differ. */
  lemma CatsApart(g: nat, sw: int, sh: int, s1: Sector, s2: Sector, d1: nat, d2: nat, d3: nat, d4: nat)
    requires g > 0 && sw >= 4 && sh >= 4
    requires s1 in Sectors(g, sw, sh) && s2 in Sectors(g, sw, sh) && s1 != s2
    ensures Roomy(s1) && Roomy(s2) && CatIn(s1, d1, d2) != CatIn(s2, d3, d4)
  {
    var all := Sectors(g, sw, sh);
    var i :| 0 <= i < |all| && all[i] == s1;
    var j :| 0 <= j < |all| && all[j] == s2;
    LatticeRoomy(g, sw, sh, i);
    LatticeRoomy(g, sw, sh, j);
    DistinctSectorsDistinctCats(g, sw, sh, i, j, CatIn(s1, d1, d2), CatIn(s2, d3, d4));
  }

  /**
   * Placement in the common case that every sector has room: `num_cats`
   * cats, pairwise distinct, each in `[6, width - 6] x [6, height - 6]`.
   */
  lemma {:induction false} CatPlacement(width: int, height: int, numCats: nat, order: nat -> nat, place: nat -> nat)
    requires SectorSide(width, numCats) >= 4 && SectorSide(height, numCats) >= 4
    ensures var g := GridSize(numCats);
      var sel := Shuffle(Sectors(g, SectorSide(width, numCats), SectorSide(height, numCats)), order)[..numCats];
      (forall i :: 0 <= i < |sel| ==> Roomy(sel[i])) &&
      var cats := CatsOf(sel, width, height, place);
      |cats| == numCats && Distinct(cats) &&
      forall i :: 0 <= i < |cats| ==> Margin + 2 <= cats[i].0 <= width - 6 && Margin + 2 <= cats[i].1 <= height - 6
  {
    var g := GridSize(numCats);
    var sw, sh := SectorSide(width, numCats), SectorSide(height, numCats);
    var all := Sectors(g, sw, sh);
    var shuffled := Shuffle(all, order);
    var sel := shuffled[..numCats];
    DivMulBelow(width - 2 * Margin, g);
    DivMulBelow(height - 2 * Margin, g);
    SectorsDistinct(g, sw, sh);
    forall k | 0 <= k < |sel|
      ensures Roomy(sel[k])
      ensures var c := CatIn(sel[k], place(2 * k), place(2 * k + 1));
        Margin + 2 <= c.0 <= width - 6 && Margin + 2 <= c.1 <= height - 6
    {
      ShuffleMembers(all, order, sel[k]);
      CatInLattice(g, sw, sh, width, height, sel[k], place(2 * k), place(2 * k + 1));
    }
    CatsOfAllKept(sel, width, height, place);
    var cats := CatsOf(sel, width, height, place);
    forall a, b | 0 <= a < b < |cats| ensures cats[a] != cats[b] {
      ShuffleMembers(all, order, sel[a]);
      ShuffleMembers(all, order, sel[b]);
      assert sel[a] == shuffled[a] && sel[b] == shuffled[b];
      CatsApart(g, sw, sh, sel[a], sel[b], place(2 * a), place(2 * a + 1), place(2 * b), place(2 * b + 1));
    }
  }

  /** Cats dropped off the map never reach the list: every placed cat is in the grid. */
  lemma {:induction false} CatsOfInGrid(sel: seq<Sector>, width: int, height: int, place: nat -> nat)
    requires forall i :: 0 <= i < |sel| ==> Roomy(sel[i])
    ensures forall c :: c in CatsOf(sel, width, height, place) ==> InGrid(width, height, c)
    decreases |sel|
  {
    if sel != [] {
      CatsOfInGrid(sel[..|sel| - 1], width, height, place);
    }
  }

  // ---------------------------------------------------------------------------
  // The whole map
  // ---------------------------------------------------------------------------

  /**
   * The draws one seed yields, in the order `generate_map` consumes them:
   * the shuffle of the sectors, the cat coordinates, the drift of path
   * number `p` at step `k` as `drift(p)(k)`, the number of extra chords,
   * and the endpoints picked for chord `j` as `pick(2 j)` and `pick(2 j + 1)`.
   */
  datatype MapDraws = MapDraws(order: nat -> nat, place: nat -> nat, drift: nat -> nat -> DriftDraw, extras: nat, pick: nat -> nat)

  /** A path to carve, from its start to its end. */
  type Segment = (Cell, Cell)

  /** The seed `generate_map` uses: the given one, or one drawn from `[0, 999999]`. */
  function UsedSeed(seed: Option<int>, entropy: nat): (s: int)
    ensures seed.Some? ==> s == seed.value
    ensures seed.None? ==> 0 <= s < SeedLimit
  {
    if seed.Some? then seed.value else RandInt(0, SeedLimit - 1, entropy)
  }

  /** The sectors that receive a cat: the first `num_cats` of the shuffled lattice. */
  function Selection(width: int, height: int, numCats: nat, order: nat -> nat): (sel: seq<Sector>)
    ensures |sel| == numCats
  {
    var g := GridSize(numCats);
    Shuffle(Sectors(g, SectorSide(width, numCats), SectorSide(height, numCats)), order)[..numCats]
  }

  /** The spawn point, the centre tile of the map. */
  function Spawn(width: int, height: int): Cell {
    (width / 2, height / 2)
  }

  /** The cycle through the points of interest: segment `i` joins `pois[i]` to `pois[(i + 1) % len(pois)]`. */
  function Ring(pois: seq<Cell>): (r: seq<Segment>)
    ensures |r| == |pois|
    ensures forall i :: 0 <= i < |pois| ==> r[i] == (pois[i], pois[(i + 1) % |pois|])
  {
    seq(|pois|, i requires 0 <= i < |pois| => (pois[i], pois[(i + 1) % |pois|]))
  }

  /** The first `n` extra connections: chord `j` joins two drawn cats and is skipped when they coincide. */
  function Chords(cats: seq<Cell>, n: nat, pick: nat -> nat): seq<Segment>
    requires |cats| > 0
  {
    if n == 0 then []
    else
      var a := Choice(cats, pick(2 * (n - 1)));
      var b := Choice(cats, pick(2 * (n - 1) + 1));
      Chords(cats, n - 1, pick) + (if a != b then [(a, b)] else [])
  }

  /** The extra connections: one or two drawn chords, none with at most two cats. */
  function Extras(cats: seq<Cell>, extras: nat, pick: nat -> nat): seq<Segment> {
    if |cats| > 2 then Chords(cats, RandInt(1, 2, extras), pick) else []
  }

  /** Every segment `generate_map` carves, in order: the cycle, then the chords. */
  function Plan(width: int, height: int, cats: seq<Cell>, d: MapDraws): seq<Segment> {
    Ring([Spawn(width, height)] + cats) + Extras(cats, d.extras, d.pick)
  }

  /** The walk of segment number `p`. */
  function SegmentWalk(plan: seq<Segment>, p: nat, width: int, height: int, drift: nat -> nat -> DriftDraw): seq<Cell>
    requires p < |plan|
  {
    Walk(plan[p].0, plan[p].1, width, height, drift(p), 0, width * height)
  }

  /** Whether the stamps of some segment's walk cover `c`. */
  predicate Painted(plan: seq<Segment>, width: int, height: int, drift: nat -> nat -> DriftDraw, c: Cell)
    decreases |plan|
  {
    |plan| > 0 &&
    (Covered(SegmentWalk(plan, |plan| - 1, width, height, drift), c) || Painted(plan[..|plan| - 1], width, height, drift, c))
  }

  lemma PaintedExtend(plan: seq<Segment>, s: Segment, width: int, height: int, drift: nat -> nat -> DriftDraw, c: Cell)
    ensures Painted(plan + [s], width, height, drift, c) <==>
      Painted(plan, width, height, drift, c) || Covered(SegmentWalk(plan + [s], |plan|, width, height, drift), c)
  {
    assert (plan + [s])[..|plan|] == plan;
  }

  /** A cell covered by the walk of one segment is painted. */
  lemma {:induction false} PaintedByOne(plan: seq<Segment>, p: nat, width: int, height: int, drift: nat -> nat -> DriftDraw, c: Cell)
    requires p < |plan| && Covered(SegmentWalk(plan, p, width, height, drift), c)
    ensures Painted(plan, width, height, drift, c)
    decreases |plan|
  {
    if p < |plan| - 1 {
      var front := plan[..|plan| - 1];
      assert SegmentWalk(front, p, width, height, drift) == SegmentWalk(plan, p, width, height, drift);
      PaintedByOne(front, p, width, height, drift, c);
    }
  }

  /**
   * The outcome `generate_map` promises for given inputs and seed streams:
   * the seed used; `raised` exactly when a selected sector is too cramped
   * for `randint`; otherwise the cats of the selected sectors, the centre
   * spawn, and a `height` x `width` grid whose path cells are exactly the
   * cells the planned walks stamp.
   */
  ghost predicate MapOutcome(grid: array2<char>, cats: seq<Cell>, spawn: Cell, usedSeed: int, raised: bool,
                             width: nat, height: nat, numCats: nat, seed: Option<int>, entropy: nat, streams: int -> MapDraws)
    reads grid
  {
    usedSeed == UsedSeed(seed, entropy) &&
    var d := streams(usedSeed);
    var sel := Selection(width, height, numCats, d.order);
    (raised <==> FirstCramped(sel).Some?) &&
    (FirstCramped(sel).None? ==>
      cats == CatsOf(sel, width, height, d.place) &&
      spawn == Spawn(width, height) &&
      grid.Length0 == height && grid.Length1 == width &&
      forall r, q :: 0 <= r < height && 0 <= q < width ==>
        grid[r, q] == if Painted(Plan(width, height, cats, d), width, height, d.drift, (q, r)) then PathTile else Grass)
  }

  /**
   * `generate_map`: reseed, lay out and shuffle the sectors, place the cats,
   * carve the cycle through spawn and cats, then the extra chords. The
   * random module is replaced by `streams(seed)`; a missing seed is drawn
   * with `entropy`.
   */
  method GenerateMap(width: nat, height: nat, numCats: nat, seed: Option<int>, entropy: nat, streams: int -> MapDraws)
    returns (grid: array2<char>, cats: seq<Cell>, spawn: Cell, usedSeed: int, raised: bool)
    ensures fresh(grid)
    ensures MapOutcome(grid, cats, spawn, usedSeed, raised, width, height, numCats, seed, entropy, streams)
  {
    usedSeed := if seed.Some? then seed.value else RandInt(0, SeedLimit - 1, entropy);
    var d := streams(usedSeed);
    grid := new char[height, width]((_, _) => Grass);

    var g := GridSize(numCats);
    var sectors := BuildSectors(g, (width - 2 * Margin) / g, (height - 2 * Margin) / g);
    sectors := Shuffle(sectors, d.order);
    var sel := sectors[..numCats];
    cats, raised := PlaceCats(sel, width, height, d.place);
    spawn := (width / 2, height / 2);
    if raised {
      return;
    }

    var pois := [spawn] + cats;
    CarveRing(grid, pois, width, height, d.drift);
    CarveChords(grid, cats, Ring(pois), |pois|, width, height, d);
  }

  /** The cycle loop of `generate_map`: segment `i` is carved with the drift draws `drift(i)`. */
  method CarveRing(grid: array2<char>, pois: seq<Cell>, width: nat, height: nat, drift: nat -> nat -> DriftDraw)
    requires grid.Length0 == height && grid.Length1 == width
    requires forall r, q :: 0 <= r < height && 0 <= q < width ==> grid[r, q] == Grass
    modifies grid
    ensures forall r, q :: 0 <= r < height && 0 <= q < width ==>
      grid[r, q] == if Painted(Ring(pois), width, height, drift, (q, r)) then PathTile else Grass
  {
    ghost var plan: seq<Segment> := [];
    for i := 0 to |pois|
      invariant plan == Ring(pois)[..i]
      invariant forall r, q :: 0 <= r < height && 0 <= q < width ==>
        grid[r, q] == if Painted(plan, width, height, drift, (q, r)) then PathTile else Grass
    {
      var start, end := pois[i], pois[(i + 1) % |pois|];
      ghost var before := plan;
      var _ := DrawPath(grid, start, end, width, height, drift(i));
      plan := plan + [(start, end)];
      forall r, q | 0 <= r < height && 0 <= q < width
        ensures grid[r, q] == if Painted(plan, width, height, drift, (q, r)) then PathTile else Grass
      {
        PaintedExtend(before, (start, end), width, height, drift, (q, r));
      }
    }
    assert plan == Ring(pois);
  }

  /**
   * The extra connections of `generate_map`, carved after the segments of
   * `done`: with more than two cats, one or two chords between drawn cats,
   * each skipped when both ends are the same cat.
   */
  method CarveChords(grid: array2<char>, cats: seq<Cell>, ghost done: seq<Segment>, base: nat, width: nat, height: nat, d: MapDraws)
    requires grid.Length0 == height && grid.Length1 == width && base == |done|
    requires forall r, q :: 0 <= r < height && 0 <= q < width ==>
      grid[r, q] == if Painted(done, width, height, d.drift, (q, r)) then PathTile else Grass
    modifies grid
    ensures forall r, q :: 0 <= r < height && 0 <= q < width ==>
      grid[r, q] == if Painted(done + Extras(cats, d.extras, d.pick), width, height, d.drift, (q, r)) then PathTile else Grass
  {
    if |cats| > 2 {
      ghost var plan := done;
      var extra := RandInt(1, 2, d.extras);
      var carved := base;
      for j := 0 to extra
        invariant plan == done + Chords(cats, j, d.pick) && carved == |plan|
        invariant forall r, q :: 0 <= r < height && 0 <= q < width ==>
          grid[r, q] == if Painted(plan, width, height, d.drift, (q, r)) then PathTile else Grass
      {
        var start := Choice(cats, d.pick(2 * j));
        var end := Choice(cats, d.pick(2 * j + 1));
        if start != end {
          ghost var before := plan;
          var _ := DrawPath(grid, start, end, width, height, d.drift(carved));
          plan := plan + [(start, end)];
          carved := carved + 1;
          forall r, q | 0 <= r < height && 0 <= q < width
            ensures grid[r, q] == if Painted(plan, width, height, d.drift, (q, r)) then PathTile else Grass
          {
            PaintedExtend(before, (start, end), width, height, d.drift, (q, r));
          }
        }
      }
    } else {
      assert done + Extras(cats, d.extras, d.pick) == done;
    }
  }

  /** `map_initialization`: the map is always regenerated from its seed, so it is `generate_map` with the same arguments. */
  method MapInitialization(width: nat, height: nat, numCats: nat, seed: Option<int>, entropy: nat, streams: int -> MapDraws)
    returns (grid: array2<char>, cats: seq<Cell>, spawn: Cell, usedSeed: int, raised: bool)
    ensures fresh(grid)
    ensures MapOutcome(grid, cats, spawn, usedSeed, raised, width, height, numCats, seed, entropy, streams)
  {
    grid, cats, spawn, usedSeed, raised := GenerateMap(width, height, numCats, seed, entropy, streams);
  }

  // ---------------------------------------------------------------------------
  // Properties of the generated map
  // ---------------------------------------------------------------------------

  /** The chords: at most `n`, each joining two different cats. */
  lemma {:induction false} ChordsJoinCats(cats: seq<Cell>, n: nat, pick: nat -> nat)
    requires |cats| > 0
    ensures |Chords(cats, n, pick)| <= n
    ensures forall s :: s in Chords(cats, n, pick) ==> s.0 in cats && s.1 in cats && s.0 != s.1
  {
    if n > 0 {
      ChordsJoinCats(cats, n - 1, pick);
    }
  }

  /**
   * The plan: segment `i` of the first `len(cats) + 1` joins `pois[i]` to
   * `pois[(i + 1) % len(pois)]`; after them come at most two chords, none
   * unless there are more than two cats, each between two different cats.
   */
  lemma PlanShape(width: int, height: int, cats: seq<Cell>, d: MapDraws)
    ensures var plan := Plan(width, height, cats, d); var pois := [Spawn(width, height)] + cats;
      |pois| <= |plan| <= |pois| + 2 &&
      (|cats| <= 2 ==> |plan| == |pois|) &&
      (forall i :: 0 <= i < |pois| ==> plan[i] == (pois[i], pois[(i + 1) % |pois|])) &&
      (forall i :: |pois| <= i < |plan| ==> plan[i].0 in cats && plan[i].1 in cats && plan[i].0 != plan[i].1)
  {
    var pois := [Spawn(width, height)] + cats;
    var extra := Extras(cats, d.extras, d.pick);
    var plan := Plan(width, height, cats, d);
    if |cats| > 2 {
      ChordsJoinCats(cats, RandInt(1, 2, d.extras), d.pick);
    }
    forall i | |pois| <= i < |plan| ensures plan[i].0 in cats && plan[i].1 in cats && plan[i].0 != plan[i].1 {
      assert plan[i] == extra[i - |pois|];
      assert extra[i - |pois|] in extra;
    }
  }

  /** On a map with tiles, every segment of the plan runs between in-grid cells when every cat is in the grid. */
  lemma PlanInGrid(width: int, height: int, cats: seq<Cell>, d: MapDraws)
    requires width > 0 && height > 0
    requires forall c :: c in cats ==> InGrid(width, height, c)
    ensures var plan := Plan(width, height, cats, d);
      forall p :: 0 <= p < |plan| ==> InGrid(width, height, plan[p].0) && InGrid(width, height, plan[p].1)
  {
    PlanShape(width, height, cats, d);
    var pois := [Spawn(width, height)] + cats;
    assert forall i :: 0 <= i < |pois| ==> InGrid(width, height, pois[i]) by {
      forall i | 0 <= i < |pois| ensures InGrid(width, height, pois[i]) {
        if i > 0 { assert pois[i] == cats[i - 1]; }
      }
    }
  }

  /**
   * Connectivity of one carved segment: when its ends are in the grid and
   * every painted cell holds path, a 4-connected route of path cells runs
   * from its start to its walk's target — its end whenever the walk stopped
   * next to it.
   */
  lemma PaintedRoute(grid: array2<char>, plan: seq<Segment>, width: int, height: int, drift: nat -> nat -> DriftDraw, p: nat)
    returns (route: seq<Cell>)
    requires p < |plan| && InGrid(width, height, plan[p].0) && InGrid(width, height, plan[p].1)
    requires grid.Length0 == height && grid.Length1 == width
    requires forall r, q :: 0 <= r < height && 0 <= q < width && Painted(plan, width, height, drift, (q, r)) ==> grid[r, q] == PathTile
    ensures var w := SegmentWalk(plan, p, width, height, drift);
      |w| > 0 && IsRoute(route, plan[p].0, RouteTarget(w, plan[p].1)) && Carved(grid, route)
  {
    MulMono(1, width, height);
    var w := SegmentWalk(plan, p, width, height, drift);
    route := WalkConnects(plan[p].0, plan[p].1, width, height, drift(p), 0, width * height);
    forall r, q | 0 <= r < height && 0 <= q < width && Covered(w, (q, r)) ensures grid[r, q] == PathTile {
      PaintedByOne(plan, p, width, height, drift, (q, r));
    }
    CoveredIsCarved(grid, route, w);
  }

  /**
   * Connectivity of the generated map: each planned segment — spawn to the
   * first cat, cat to cat, the last cat back to spawn, and each chord — is
   * joined by a 4-connected route of path cells from its start to its walk's
   * target.
   */
  lemma MapConnected(grid: array2<char>, cats: seq<Cell>, spawn: Cell, usedSeed: int, raised: bool,
                     width: nat, height: nat, numCats: nat, seed: Option<int>, entropy: nat, streams: int -> MapDraws, p: nat)
    returns (route: seq<Cell>)
    requires MapOutcome(grid, cats, spawn, usedSeed, raised, width, height, numCats, seed, entropy, streams)
    requires !raised && width > 0 && height > 0
    requires p < |Plan(width, height, cats, streams(usedSeed))|
    ensures var d := streams(usedSeed); var plan := Plan(width, height, cats, d);
      var w := SegmentWalk(plan, p, width, height, d.drift);
      |w| > 0 && IsRoute(route, plan[p].0, RouteTarget(w, plan[p].1)) && Carved(grid, route)
  {
    var d := streams(usedSeed);
    var sel := Selection(width, height, numCats, d.order);
    CatsOfInGrid(sel, width, height, d.place);
    PlanInGrid(width, height, cats, d);
    route := PaintedRoute(grid, Plan(width, height, cats, d), width, height, d.drift, p);
  }

  /**
   * The error condition: `generate_map` raises exactly when it has cats to
   * place and one sector side is below 4, so that `randint(sx + 2, ex - 2)`
   * or `randint(sy + 2, ey - 2)` has an empty range.
   */
  lemma RaisesIffCramped(width: int, height: int, numCats: nat, order: nat -> nat)
    ensures FirstCramped(Selection(width, height, numCats, order)).Some? <==>
      numCats > 0 && (SectorSide(width, numCats) < 4 || SectorSide(height, numCats) < 4)
  {
    var g := GridSize(numCats);
    var sw, sh := SectorSide(width, numCats), SectorSide(height, numCats);
    var all := Sectors(g, sw, sh);
    var sel := Selection(width, height, numCats, order);
    forall k | 0 <= k < |sel| ensures Roomy(sel[k]) <==> sw >= 4 && sh >= 4 {
      ShuffleMembers(all, order, sel[k]);
      var i :| 0 <= i < |all| && all[i] == sel[k];
      LatticeRoomy(g, sw, sh, i);
    }
    if numCats > 0 && !(sw >= 4 && sh >= 4) {
      assert !Roomy(sel[0]);
    }
  }

  /** The map is a function of its inputs and the seed's draws: two outcomes for the same arguments agree. */
  lemma Deterministic(grid1: array2<char>, cats1: seq<Cell>, spawn1: Cell, seed1: int, raised1: bool,
                      grid2: array2<char>, cats2: seq<Cell>, spawn2: Cell, seed2: int, raised2: bool,
                      width: nat, height: nat, numCats: nat, seed: Option<int>, entropy: nat, streams: int -> MapDraws)
    requires MapOutcome(grid1, cats1, spawn1, seed1, raised1, width, height, numCats, seed, entropy, streams)
    requires MapOutcome(grid2, cats2, spawn2, seed2, raised2, width, height, numCats, seed, entropy, streams)
    ensures seed1 == seed2 && raised1 == raised2
    ensures !raised1 ==> cats1 == cats2 && spawn1 == spawn2
    ensures !raised1 ==> forall r, q :: 0 <= r < height && 0 <= q < width ==> grid1[r, q] == grid2[r, q]
  {
  }
}
