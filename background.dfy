/**
 * The world background of the current game: the tile map converted from the
 * generated grid, trees on isolated grass, a spatial index of trees and trunk
 * rectangles in 16 x 16-tile chunks, and the cats and collectibles placed on
 * path tiles. Drawing is outside the model; every random draw is explicit.
 */
module Background {
  import opened Wrappers
  import opened Geometry
  import opened Arith
  import opened Tiles
  import opened Draws
  import AssetCache

  /** `TILE_SIZE`, the tile side in pixels the game uses. */
  const TilePx: int := 64
  /** `TREE_SIZE`, the side of a tree sprite in pixels. */
  const TreeSize: int := 128
  const TrunkWidth: nat := 30
  const TrunkHeight: nat := 40
  /** Two tree variants are loaded, so `randrange(len(tree_images))` draws from `[0, 2)`. */
  const TreeImages: nat := 2

  const LoreCats: nat := 5
  const CatTries: nat := 500
  const CatSpacing: nat := 15
  const MaxCollectibles: nat := 10
  const ItemTries: nat := 1000
  const ItemSpacing: nat := 12
  const ItemCatSpacing: nat := 8
  /** `min_distance_from_spawn = 20` tiles, squared. */
  const ItemSpawnDistance2: nat := 400
  /** `proximity = 60` pixels for cats, squared. */
  const CatProximity2: nat := 3600
  /** `proximity = 50` pixels for collectibles, squared. */
  const ItemProximity2: nat := 2500

  // ---------------------------------------------------------------------------
  // The tile map
  // ---------------------------------------------------------------------------

  /** Every row of a character grid has the length of the first. */
  predicate RectangularGrid(g: seq<seq<char>>) {
    forall y :: 0 <= y < |g| ==> |g[y]| == |g[0]|
  }

  /** `_convert_grid`: no grid gives an empty map; otherwise the same shape with `'1'` as path and anything else as grass. */
  function ConvertGrid(grid: Option<seq<seq<char>>>): (m: MapData)
    ensures grid.None? ==> m == []
    ensures grid.Some? ==> |m| == |grid.value|
    ensures grid.Some? ==> forall y :: 0 <= y < |m| ==> |m[y]| == |grid.value[y]|
    ensures grid.Some? ==> forall y, x :: 0 <= y < |m| && 0 <= x < |m[y]| ==> (m[y][x] == Path <==> grid.value[y][x] == '1')
    ensures grid.Some? && RectangularGrid(grid.value) ==> Rectangular(m)
  {
    if grid.None? then []
    else
      var g := grid.value;
      seq(|g|, y requires 0 <= y < |g| => seq(|g[y]|, x requires 0 <= x < |g[y]| => if g[y][x] == '1' then Path else Grass))
  }

  /** Some path tile lies in the in-bounds 3 x 3 block around `(x, y)`. */
  predicate PathNear(m: MapData, x: int, y: int)
    requires Rectangular(m)
  {
    exists nx, ny :: x - 1 <= nx <= x + 1 && y - 1 <= ny <= y + 1 && IsPath(m, nx, ny)
  }

  /** A tile that may grow a tree: grass with no path around it. */
  predicate Eligible(m: MapData, x: int, y: int)
    requires Rectangular(m) && OnMap(m, x, y)
  {
    m[y][x] == Grass && !PathNear(m, x, y)
  }

  // ---------------------------------------------------------------------------
  // Trees
  // ---------------------------------------------------------------------------

  /**
   * The draws for one eligible tile: `Bare` when `random.random() < 0.5`
   * fails, `Plant(pick)` when it holds, with `pick` the draw of
   * `randrange(len(tree_images))`.
   */
  datatype TreeDraw = Bare | Plant(pick: nat)

  /** The tree `_generate_trees` emits at `(x, y)`, if any. */
  function TreeAt(m: MapData, x: int, y: int, plant: Cell -> TreeDraw): seq<Tree>
    requires Rectangular(m) && OnMap(m, x, y)
  {
    if Eligible(m, x, y) && plant((x, y)).Plant? then [Tree(x, y, plant((x, y)).pick % TreeImages)] else []
  }

  /** The trees of row `y` among its first `n` tiles, left to right. */
  function RowTrees(m: MapData, y: int, n: nat, plant: Cell -> TreeDraw): seq<Tree>
    requires Rectangular(m) && 0 <= y < |m| && n <= Width(m)
  {
    if n == 0 then [] else RowTrees(m, y, n - 1, plant) + TreeAt(m, n - 1, y, plant)
  }

  /** The trees of the first `rows` rows, in row-major order. */
  function TreesUpTo(m: MapData, rows: nat, plant: Cell -> TreeDraw): seq<Tree>
    requires Rectangular(m) && rows <= |m|
  {
    if rows == 0 then [] else TreesUpTo(m, rows - 1, plant) + RowTrees(m, rows - 1, Width(m), plant)
  }

  /** `_generate_trees` for the draws `plant`. */
  function Trees(m: MapData, plant: Cell -> TreeDraw): seq<Tree>
    requires Rectangular(m)
  {
    TreesUpTo(m, |m|, plant)
  }

  /** What a planted tree is: an eligible tile with a planting draw, and an image index in range. */
  predicate Planted(m: MapData, plant: Cell -> TreeDraw, t: Tree)
    requires Rectangular(m)
  {
    OnMap(m, t.x, t.y) && Eligible(m, t.x, t.y) && plant((t.x, t.y)).Plant? &&
    t.idx == plant((t.x, t.y)).pick % TreeImages
  }

  /** `(a.y, a.x)` comes before `(b.y, b.x)`. */
  predicate RowMajorBefore(a: Cell, b: Cell) {
    a.1 < b.1 || (a.1 == b.1 && a.0 < b.0)
  }

  predicate TreesSorted(ts: seq<Tree>) {
    forall i, j :: 0 <= i < j < |ts| ==> RowMajorBefore((ts[i].x, ts[i].y), (ts[j].x, ts[j].y))
  }

  lemma {:induction false} RowTreesMembers(m: MapData, y: int, n: nat, plant: Cell -> TreeDraw)
    requires Rectangular(m) && 0 <= y < |m| && n <= Width(m)
    ensures forall t :: t in RowTrees(m, y, n, plant) <==> t.y == y && 0 <= t.x < n && Planted(m, plant, t)
  {
    if n > 0 {
      RowTreesMembers(m, y, n - 1, plant);
    }
  }

  lemma {:induction false} RowTreesBounds(m: MapData, y: int, n: nat, plant: Cell -> TreeDraw)
    requires Rectangular(m) && 0 <= y < |m| && n <= Width(m)
    ensures forall t :: t in RowTrees(m, y, n, plant) ==> t.y == y && 0 <= t.x < n
  {
    if n > 0 {
      RowTreesBounds(m, y, n - 1, plant);
    }
  }

  lemma {:induction false} RowTreesSorted(m: MapData, y: int, n: nat, plant: Cell -> TreeDraw)
    requires Rectangular(m) && 0 <= y < |m| && n <= Width(m)
    ensures TreesSorted(RowTrees(m, y, n, plant))
  {
    if n > 0 {
      RowTreesSorted(m, y, n - 1, plant);
      RowTreesBounds(m, y, n - 1, plant);
      var a, b := RowTrees(m, y, n - 1, plant), TreeAt(m, n - 1, y, plant);
      assert |b| <= 1;
      assert forall t :: t in b ==> t.x == n - 1 && t.y == y;
      assert forall s, t :: s in a && t in b ==> RowMajorBefore((s.x, s.y), (t.x, t.y));
      SortedConcat(a, b);
      assert RowTrees(m, y, n, plant) == a + b;
    }
  }

  lemma {:induction false} TreesUpToBounds(m: MapData, rows: nat, plant: Cell -> TreeDraw)
    requires Rectangular(m) && rows <= |m|
    ensures forall t :: t in TreesUpTo(m, rows, plant) ==> 0 <= t.y < rows
  {
    if rows > 0 {
      TreesUpToBounds(m, rows - 1, plant);
      RowTreesBounds(m, rows - 1, Width(m), plant);
    }
  }

  lemma SortedConcat(a: seq<Tree>, b: seq<Tree>)
    requires TreesSorted(a) && TreesSorted(b)
    requires forall s, t :: s in a && t in b ==> RowMajorBefore((s.x, s.y), (t.x, t.y))
    ensures TreesSorted(a + b)
  {
    var ab := a + b;
    forall i, j | 0 <= i < j < |ab| ensures RowMajorBefore((ab[i].x, ab[i].y), (ab[j].x, ab[j].y)) {
      if j < |a| {
        assert ab[i] == a[i] && ab[j] == a[j];
      } else if i >= |a| {
        assert ab[i] == b[i - |a|] && ab[j] == b[j - |a|];
      } else {
        assert ab[i] == a[i] && a[i] in a;
        assert ab[j] == b[j - |a|] && b[j - |a|] in b;
      }
    }
  }

  lemma {:induction false} TreesUpToMembers(m: MapData, rows: nat, plant: Cell -> TreeDraw)
    requires Rectangular(m) && rows <= |m|
    ensures forall t :: t in TreesUpTo(m, rows, plant) <==> 0 <= t.y < rows && Planted(m, plant, t)
  {
    if rows > 0 {
      TreesUpToMembers(m, rows - 1, plant);
      RowTreesMembers(m, rows - 1, Width(m), plant);
      var a, b := TreesUpTo(m, rows - 1, plant), RowTrees(m, rows - 1, Width(m), plant);
      forall t ensures t in a + b <==> t in a || t in b {
      }
    }
  }

  lemma {:induction false} TreesUpToSorted(m: MapData, rows: nat, plant: Cell -> TreeDraw)
    requires Rectangular(m) && rows <= |m|
    ensures TreesSorted(TreesUpTo(m, rows, plant))
  {
    if rows > 0 {
      TreesUpToSorted(m, rows - 1, plant);
      TreesUpToBounds(m, rows - 1, plant);
      RowTreesBounds(m, rows - 1, Width(m), plant);
      RowTreesSorted(m, rows - 1, Width(m), plant);
      SortedConcat(TreesUpTo(m, rows - 1, plant), RowTrees(m, rows - 1, Width(m), plant));
    }
  }

  /**
   * `_generate_trees`: a tree stands on exactly the eligible tiles whose
   * draw plants one, with an image index below `len(tree_images)`; trees
   * come in row-major order, so no tile holds two.
   */
  lemma TreesCharacterised(m: MapData, plant: Cell -> TreeDraw)
    requires Rectangular(m)
    ensures forall t :: t in Trees(m, plant) <==> Planted(m, plant, t)
    ensures forall t :: t in Trees(m, plant) ==> t.idx < TreeImages
    ensures TreesSorted(Trees(m, plant))
  {
    TreesUpToMembers(m, |m|, plant);
    TreesUpToSorted(m, |m|, plant);
  }

  // ---------------------------------------------------------------------------
  // The chunk index
  // ---------------------------------------------------------------------------

  function TreeChunk(t: Tree): Cell {
    ChunkOf(t.x, t.y)
  }

  /** The trees of chunk `k`, in list order: the reference the chunk lists are compared with. */
  function InChunk(ts: seq<Tree>, k: Cell): seq<Tree> {
    if ts == [] then []
    else InChunk(ts[..|ts| - 1], k) + (if TreeChunk(ts[|ts| - 1]) == k then [ts[|ts| - 1]] else [])
  }

  /** The dictionary `_build_tree_chunks` builds: each tree appended to the list of its chunk key. */
  function TreeChunks(ts: seq<Tree>): map<Cell, seq<Tree>> {
    if ts == [] then map[]
    else
      var c := TreeChunks(ts[..|ts| - 1]);
      var t := ts[|ts| - 1];
      var k := TreeChunk(t);
      c[k := (if k in c then c[k] else []) + [t]]
  }

  /** `pygame.Rect(trunk_x, trunk_y, 30, 40)` for a tree: the trunk at the bottom centre of its 128-pixel sprite. */
  function Trunk(t: Tree, ts: int): (r: Rect)
    ensures r == Rect(t.x * ts + 17, t.y * ts + 46, TrunkWidth, TrunkHeight)
  {
    var treeX := t.x * ts - (TreeSize - TilePx) / 2;
    var treeY := t.y * ts - (TreeSize - TilePx) / 2;
    Rect(treeX + (TreeSize - TrunkWidth) / 2, treeY + TreeSize - TrunkHeight - 10, TrunkWidth, TrunkHeight)
  }

  /** The trunk of every tree, in tree order. */
  function Trunks(trees: seq<Tree>, ts: int): (r: seq<Rect>)
    ensures |r| == |trees| && forall i :: 0 <= i < |trees| ==> r[i] == Trunk(trees[i], ts)
  {
    seq(|trees|, i requires 0 <= i < |trees| => Trunk(trees[i], ts))
  }

  /** The dictionary `_build_collision_chunks` builds: each trunk appended to the list of its tree's chunk key. */
  function CollisionChunks(trees: seq<Tree>, ts: int): map<Cell, seq<Rect>> {
    if trees == [] then map[]
    else
      var c := CollisionChunks(trees[..|trees| - 1], ts);
      var t := trees[|trees| - 1];
      var k := TreeChunk(t);
      c[k := (if k in c then c[k] else []) + [Trunk(t, ts)]]
  }

  lemma {:induction false} InChunkMembers(trees: seq<Tree>, k: Cell)
    ensures forall t :: t in InChunk(trees, k) <==> t in trees && TreeChunk(t) == k
  {
    if trees != [] {
      var front := trees[..|trees| - 1];
      InChunkMembers(front, k);
      assert trees == front + [trees[|trees| - 1]];
    }
  }

  /**
   * `_build_tree_chunks`: the list under key `k` is exactly the trees of
   * chunk `k` in `tree_positions` order, and no key maps to an empty list.
   */
  lemma {:induction false} TreeChunksAreFilters(trees: seq<Tree>)
    ensures forall k :: k in TreeChunks(trees) <==> InChunk(trees, k) != []
    ensures forall k :: k in TreeChunks(trees) ==> TreeChunks(trees)[k] == InChunk(trees, k)
  {
    if trees != [] {
      TreeChunksAreFilters(trees[..|trees| - 1]);
    }
  }

  lemma TrunksAppend(a: seq<Tree>, t: Tree, ts: int)
    ensures Trunks(a + [t], ts) == Trunks(a, ts) + [Trunk(t, ts)]
  {
  }

  /**
   * `_build_collision_chunks`: the same keys as the tree chunks, and the
   * list under each key holds the trunks of that key's trees, index-parallel.
   */
  lemma {:induction false} CollisionChunksParallel(trees: seq<Tree>, ts: int)
    ensures forall k :: k in CollisionChunks(trees, ts) <==> k in TreeChunks(trees)
    ensures forall k :: k in CollisionChunks(trees, ts) ==> CollisionChunks(trees, ts)[k] == Trunks(InChunk(trees, k), ts)
  {
    if trees != [] {
      var front := trees[..|trees| - 1];
      var t := trees[|trees| - 1];
      CollisionChunksParallel(front, ts);
      TreeChunksAreFilters(front);
      forall k | k in CollisionChunks(trees, ts)
        ensures CollisionChunks(trees, ts)[k] == Trunks(InChunk(trees, k), ts)
      {
        if k == TreeChunk(t) {
          TrunksAppend(InChunk(front, k), t, ts);
        }
      }
    }
  }

  /** The chunk `check_tree_collision` centres its search on: that of the tile under the query's centre. */
  function QueryChunk(q: Rect, ts: int): Cell
    requires ts > 0
  {
    ChunkOf(q.CenterX() / ts, q.CenterY() / ts)
  }

  /** Some trunk listed under a chunk key within one of the query's chunk overlaps the query; absent keys hold nothing. */
  predicate ChunkHit(chunks: map<Cell, seq<Rect>>, q: Rect, ts: int)
    requires ts > 0
  {
    var c := QueryChunk(q, ts);
    exists k :: k in chunks && Abs(k.0 - c.0) <= 1 && Abs(k.1 - c.1) <= 1 && CollidesAny(q, chunks[k])
  }

  /**
   * A query at most one chunk (1024 pixels) wide and high can only overlap
   * trunks of trees whose chunk is next to the query's chunk: a trunk lies
   * within 23 pixels of its anchor tile.
   */
  lemma TrunkNearQuery(t: Tree, q: Rect)
    requires q.w <= ChunkSize * TilePx && q.h <= ChunkSize * TilePx && Collide(q, Trunk(t, TilePx))
    ensures var c := QueryChunk(q, TilePx); Abs(TreeChunk(t).0 - c.0) <= 1 && Abs(TreeChunk(t).1 - c.1) <= 1
  {
    DivDiv(q.CenterX(), TilePx, ChunkSize);
    DivDiv(q.CenterY(), TilePx, ChunkSize);
    var cx, cy := q.CenterX() / (TilePx * ChunkSize), q.CenterY() / (TilePx * ChunkSize);
    assert q.CenterX() == cx * 1024 + q.CenterX() % 1024;
    assert q.CenterY() == cy * 1024 + q.CenterY() % 1024;
    var tx, ty := t.x / ChunkSize, t.y / ChunkSize;
    assert t.x == tx * 16 + t.x % 16 && t.y == ty * 16 + t.y % 16;
  }

  /** Each rectangle listed under a collision chunk key is the trunk of some tree. */
  lemma ChunkRectIsTrunk(trees: seq<Tree>, k: Cell, i: nat) returns (j: nat)
    requires k in CollisionChunks(trees, TilePx) && i < |CollisionChunks(trees, TilePx)[k]|
    ensures j < |trees| && CollisionChunks(trees, TilePx)[k][i] == Trunk(trees[j], TilePx)
  {
    CollisionChunksParallel(trees, TilePx);
    var members := InChunk(trees, k);
    InChunkMembers(trees, k);
    assert members[i] in members;
    j :| 0 <= j < |trees| && trees[j] == members[i];
  }

  /** Each tree's trunk is listed under the tree's chunk key. */
  lemma TrunkIsListed(trees: seq<Tree>, j: nat) returns (i: nat)
    requires j < |trees|
    ensures TreeChunk(trees[j]) in CollisionChunks(trees, TilePx)
    ensures i < |CollisionChunks(trees, TilePx)[TreeChunk(trees[j])]|
    ensures CollisionChunks(trees, TilePx)[TreeChunk(trees[j])][i] == Trunk(trees[j], TilePx)
  {
    var t := trees[j];
    var k := TreeChunk(t);
    CollisionChunksParallel(trees, TilePx);
    TreeChunksAreFilters(trees);
    var members := InChunk(trees, k);
    InChunkMembers(trees, k);
    assert t in members;
    i :| 0 <= i < |members| && members[i] == t;
  }

  /**
   * The chunked collision test agrees with the linear scan over every
   * trunk for queries at most one chunk wide and high.
   */
  lemma ChunkedMatchesLinear(trees: seq<Tree>, q: Rect)
    requires q.w <= ChunkSize * TilePx && q.h <= ChunkSize * TilePx
    ensures ChunkHit(CollisionChunks(trees, TilePx), q, TilePx) <==> CollidesAny(q, Trunks(trees, TilePx))
  {
    var chunks := CollisionChunks(trees, TilePx);
    var all := Trunks(trees, TilePx);
    var c := QueryChunk(q, TilePx);
    if ChunkHit(chunks, q, TilePx) {
      var k :| k in chunks && Abs(k.0 - c.0) <= 1 && Abs(k.1 - c.1) <= 1 && CollidesAny(q, chunks[k]);
      var i :| 0 <= i < |chunks[k]| && Collide(q, chunks[k][i]);
      var j := ChunkRectIsTrunk(trees, k, i);
      assert Collide(q, all[j]);
    }
    if CollidesAny(q, all) {
      var j :| 0 <= j < |all| && Collide(q, all[j]);
      TrunkNearQuery(trees[j], q);
      var i := TrunkIsListed(trees, j);
      var k := TreeChunk(trees[j]);
      assert Collide(q, chunks[k][i]);
    }
  }

  // ---------------------------------------------------------------------------
  // Candidate tiles for cats and collectibles
  // ---------------------------------------------------------------------------

  /**
   * A path tile outside `blocked`; for collectibles (`far == Some(spawn)`)
   * also more than 20 tiles from the spawn point, compared squared.
   */
  predicate Candidate(m: MapData, blocked: set<Cell>, far: Option<Cell>, x: int, y: int)
    requires Rectangular(m) && OnMap(m, x, y)
  {
    m[y][x] == Path && (x, y) !in blocked && (far.Some? ==> Dist2((x, y), far.value) > ItemSpawnDistance2)
  }

  /** The candidate tiles among the first `n` of row `y`, left to right. */
  function RowSpots(m: MapData, blocked: set<Cell>, far: Option<Cell>, y: int, n: nat): seq<Cell>
    requires Rectangular(m) && 0 <= y < |m| && n <= Width(m)
  {
    if n == 0 then []
    else RowSpots(m, blocked, far, y, n - 1) + (if Candidate(m, blocked, far, n - 1, y) then [(n - 1, y)] else [])
  }

  /** The candidate tiles of the first `rows` rows, in row-major order. */
  function SpotsUpTo(m: MapData, blocked: set<Cell>, far: Option<Cell>, rows: nat): seq<Cell>
    requires Rectangular(m) && rows <= |m|
  {
    if rows == 0 then [] else SpotsUpTo(m, blocked, far, rows - 1) + RowSpots(m, blocked, far, rows - 1, Width(m))
  }

  /** The `path_positions` list of `_generate_cats` and `_generate_collectibles`. */
  function Spots(m: MapData, blocked: set<Cell>, far: Option<Cell>): seq<Cell>
    requires Rectangular(m)
  {
    SpotsUpTo(m, blocked, far, |m|)
  }

  lemma {:induction false} RowSpotsMembers(m: MapData, blocked: set<Cell>, far: Option<Cell>, y: int, n: nat)
    requires Rectangular(m) && 0 <= y < |m| && n <= Width(m)
    ensures forall c :: c in RowSpots(m, blocked, far, y, n) <==> c.1 == y && 0 <= c.0 < n && Candidate(m, blocked, far, c.0, c.1)
  {
    if n > 0 {
      RowSpotsMembers(m, blocked, far, y, n - 1);
    }
  }

  lemma {:induction false} SpotsUpToMembers(m: MapData, blocked: set<Cell>, far: Option<Cell>, rows: nat)
    requires Rectangular(m) && rows <= |m|
    ensures forall c :: c in SpotsUpTo(m, blocked, far, rows) <==> 0 <= c.1 < rows && OnMap(m, c.0, c.1) && Candidate(m, blocked, far, c.0, c.1)
  {
    if rows > 0 {
      SpotsUpToMembers(m, blocked, far, rows - 1);
      RowSpotsMembers(m, blocked, far, rows - 1, Width(m));
    }
  }

  /** The candidate list holds exactly the candidate tiles of the map. */
  lemma SpotsMembers(m: MapData, blocked: set<Cell>, far: Option<Cell>)
    requires Rectangular(m)
    ensures forall c :: c in Spots(m, blocked, far) <==> OnMap(m, c.0, c.1) && Candidate(m, blocked, far, c.0, c.1)
  {
    SpotsUpToMembers(m, blocked, far, |m|);
  }

  // ---------------------------------------------------------------------------
  // Spread-out selection
  // ---------------------------------------------------------------------------

  /** `all(abs(pos[0] - p[0]) + abs(pos[1] - p[1]) >= gap for p in others)`. */
  predicate SpacedFrom(pos: Cell, others: seq<Cell>, gap: nat) {
    forall i :: 0 <= i < |others| ==> Manhattan(pos, others[i]) >= gap
  }

  /**
   * The `selected` list after `n` passes of the selection loop: a pass
   * stops the loop once `cap` tiles are chosen or there is no candidate;
   * otherwise it draws `random.choice(cands)` with draw `picks(n - 1)` and
   * keeps the tile when it is `gap` away from every chosen tile and
   * `avoidGap` away from every tile of `avoid`.
   */
  function Selected(cands: seq<Cell>, picks: nat -> nat, n: nat, cap: nat, gap: nat, avoid: seq<Cell>, avoidGap: nat): seq<Cell>
  {
    if n == 0 then []
    else
      var prev := Selected(cands, picks, n - 1, cap, gap, avoid, avoidGap);
      if |prev| >= cap || cands == [] then prev
      else
        var pos := Choice(cands, picks(n - 1));
        if SpacedFrom(pos, prev, gap) && SpacedFrom(pos, avoid, avoidGap) then prev + [pos] else prev
  }

  /** The selection is spread out as promised: at most `cap` and at most one per pass, all candidates, pairwise `gap` apart and `avoidGap` from `avoid`. */
  lemma {:induction false} SelectedSpread(cands: seq<Cell>, picks: nat -> nat, n: nat, cap: nat, gap: nat, avoid: seq<Cell>, avoidGap: nat)
    ensures var r := Selected(cands, picks, n, cap, gap, avoid, avoidGap);
      |r| <= cap && |r| <= n && forall i :: 0 <= i < |r| ==> r[i] in cands
    ensures var r := Selected(cands, picks, n, cap, gap, avoid, avoidGap);
      forall i, j :: 0 <= i < j < |r| ==> Manhattan(r[i], r[j]) >= gap
    ensures var r := Selected(cands, picks, n, cap, gap, avoid, avoidGap);
      forall i :: 0 <= i < |r| ==> SpacedFrom(r[i], avoid, avoidGap)
  {
    if n > 0 {
      SelectedSpread(cands, picks, n - 1, cap, gap, avoid, avoidGap);
      var prev := Selected(cands, picks, n - 1, cap, gap, avoid, avoidGap);
      if |prev| < cap && cands != [] {
        var pos := Choice(cands, picks(n - 1));
        if SpacedFrom(pos, prev, gap) && SpacedFrom(pos, avoid, avoidGap) {
          var r := prev + [pos];
          forall i, j | 0 <= i < j < |r| ensures Manhattan(r[i], r[j]) >= gap {
            if j == |prev| {
              assert Manhattan(pos, prev[i]) >= gap;
            }
          }
        }
      }
    }
  }

  /** Once the loop would break, further passes change nothing. */
  lemma {:induction false} SelectedStalls(cands: seq<Cell>, picks: nat -> nat, n: nat, n': nat, cap: nat, gap: nat, avoid: seq<Cell>, avoidGap: nat)
    requires n <= n'
    requires |Selected(cands, picks, n, cap, gap, avoid, avoidGap)| >= cap || cands == []
    ensures Selected(cands, picks, n', cap, gap, avoid, avoidGap) == Selected(cands, picks, n, cap, gap, avoid, avoidGap)
    decreases n' - n
  {
    if n < n' {
      SelectedStalls(cands, picks, n, n' - 1, cap, gap, avoid, avoidGap);
    }
  }

  /** The given positions that are not in `blocked`, in order. */
  function Unblocked(ps: seq<Cell>, blocked: set<Cell>): (r: seq<Cell>)
    ensures forall c :: c in r <==> c in ps && c !in blocked
  {
    if ps == [] then []
    else Unblocked(ps[..|ps| - 1], blocked) + (if ps[|ps| - 1] in blocked then [] else [ps[|ps| - 1]])
  }

  /** `lst[:n]`. */
  function Take<T>(s: seq<T>, n: nat): (r: seq<T>)
    ensures |r| <= n && |r| <= |s| && r == s[..|r|]
    ensures |s| >= n ==> |r| == n
    ensures |s| < n ==> r == s
  {
    if |s| <= n then s else s[..n]
  }

  /** The entries `_setup_cats` or `_setup_collectibles` keep: the first `cap` unblocked positions, numbered from 0. */
  function SetupEntries(ps: seq<Cell>, blocked: set<Cell>, cap: nat): seq<Entry> {
    Numbered(Take(Unblocked(ps, blocked), cap))
  }

  /** The cells of placed entries, `[(cx, cy) for cx, cy, _ in cat_positions]`. */
  function Cells(es: seq<Entry>): (r: seq<Cell>)
    ensures |r| == |es| && forall i :: 0 <= i < |es| ==> r[i] == (es[i].x, es[i].y)
  {
    seq(|es|, i requires 0 <= i < |es| => (es[i].x, es[i].y))
  }

  /**
   * `_setup_cats`/`_setup_collectibles`: at most `cap` entries, numbered
   * `0..k-1`, each a given position outside `blocked`; and when enough
   * positions are usable, exactly `cap` of them.
   */
  lemma SetupEntriesFacts(ps: seq<Cell>, blocked: set<Cell>, cap: nat)
    ensures var es := SetupEntries(ps, blocked, cap);
      |es| <= cap && forall i :: 0 <= i < |es| ==> es[i].idx == i && (es[i].x, es[i].y) in ps && (es[i].x, es[i].y) !in blocked
    ensures |Unblocked(ps, blocked)| >= cap ==> |SetupEntries(ps, blocked, cap)| == cap
  {
    var u := Unblocked(ps, blocked);
    var t := Take(u, cap);
    forall i | 0 <= i < |t| ensures t[i] in u {
      assert t[i] == u[i];
    }
  }

  /**
   * `_generate_cats`: at most five cats, numbered from 0, each on a path
   * tile of the map not under a tree, pairwise at least 15 tiles apart.
   */
  lemma GeneratedCatsFacts(m: MapData, trees: seq<Tree>, picks: nat -> nat)
    requires Rectangular(m)
    ensures var es := Numbered(Selected(Spots(m, TreeTiles(trees), None), picks, CatTries, LoreCats, CatSpacing, [], 0));
      |es| <= LoreCats && forall i :: 0 <= i < |es| ==> es[i].idx == i && IsPath(m, es[i].x, es[i].y) && (es[i].x, es[i].y) !in TreeTiles(trees)
    ensures var es := Numbered(Selected(Spots(m, TreeTiles(trees), None), picks, CatTries, LoreCats, CatSpacing, [], 0));
      forall i, j :: 0 <= i < j < |es| ==> Manhattan((es[i].x, es[i].y), (es[j].x, es[j].y)) >= CatSpacing
  {
    var cands := Spots(m, TreeTiles(trees), None);
    SpotsMembers(m, TreeTiles(trees), None);
    SelectedSpread(cands, picks, CatTries, LoreCats, CatSpacing, [], 0);
  }

  /**
   * `_generate_collectibles`: at most ten collectibles, numbered from 0,
   * each on a path tile under no tree and no cat, more than 20 tiles from
   * spawn, at least 12 tiles from each other and 8 from every cat.
   */
  lemma GeneratedItemsFacts(m: MapData, trees: seq<Tree>, cats: seq<Entry>, spawn: Cell, picks: nat -> nat)
    requires Rectangular(m)
    ensures var es := Numbered(Selected(Spots(m, TreeTiles(trees) + EntryTiles(cats), Some(spawn)), picks, ItemTries, MaxCollectibles, ItemSpacing, Cells(cats), ItemCatSpacing));
      |es| <= MaxCollectibles && forall i :: 0 <= i < |es| ==> es[i].idx == i && IsPath(m, es[i].x, es[i].y)
    ensures var es := Numbered(Selected(Spots(m, TreeTiles(trees) + EntryTiles(cats), Some(spawn)), picks, ItemTries, MaxCollectibles, ItemSpacing, Cells(cats), ItemCatSpacing));
      forall i :: 0 <= i < |es| ==> (es[i].x, es[i].y) !in TreeTiles(trees) && (es[i].x, es[i].y) !in EntryTiles(cats)
    ensures var es := Numbered(Selected(Spots(m, TreeTiles(trees) + EntryTiles(cats), Some(spawn)), picks, ItemTries, MaxCollectibles, ItemSpacing, Cells(cats), ItemCatSpacing));
      forall i :: 0 <= i < |es| ==> Dist2((es[i].x, es[i].y), spawn) > ItemSpawnDistance2
    ensures var es := Numbered(Selected(Spots(m, TreeTiles(trees) + EntryTiles(cats), Some(spawn)), picks, ItemTries, MaxCollectibles, ItemSpacing, Cells(cats), ItemCatSpacing));
      forall i, j :: 0 <= i < j < |es| ==> Manhattan((es[i].x, es[i].y), (es[j].x, es[j].y)) >= ItemSpacing
    ensures var es := Numbered(Selected(Spots(m, TreeTiles(trees) + EntryTiles(cats), Some(spawn)), picks, ItemTries, MaxCollectibles, ItemSpacing, Cells(cats), ItemCatSpacing));
      forall i, k :: 0 <= i < |es| && 0 <= k < |cats| ==> Manhattan((es[i].x, es[i].y), (cats[k].x, cats[k].y)) >= ItemCatSpacing
  {
    var blocked := TreeTiles(trees) + EntryTiles(cats);
    var cands := Spots(m, blocked, Some(spawn));
    SpotsMembers(m, blocked, Some(spawn));
    SelectedSpread(cands, picks, ItemTries, MaxCollectibles, ItemSpacing, Cells(cats), ItemCatSpacing);
    var sel := Selected(cands, picks, ItemTries, MaxCollectibles, ItemSpacing, Cells(cats), ItemCatSpacing);
    forall i, k | 0 <= i < |sel| && 0 <= k < |cats|
      ensures Manhattan(sel[i], (cats[k].x, cats[k].y)) >= ItemCatSpacing
    {
      assert Cells(cats)[k] == (cats[k].x, cats[k].y);
    }
  }

  // ---------------------------------------------------------------------------
  // Clearing an area
  // ---------------------------------------------------------------------------

  predicate InArea(t: Tree, minX: int, minY: int, maxX: int, maxY: int) {
    minX <= t.x <= maxX && minY <= t.y <= maxY
  }

  /** The trees that survive `clear_trees_in_area`, in their original order. */
  function OutsideArea(ts: seq<Tree>, minX: int, minY: int, maxX: int, maxY: int): seq<Tree> {
    if ts == [] then []
    else
      OutsideArea(ts[..|ts| - 1], minX, minY, maxX, maxY) +
      (if InArea(ts[|ts| - 1], minX, minY, maxX, maxY) then [] else [ts[|ts| - 1]])
  }

  /** Clearing removes exactly the trees inside the inclusive rectangle and keeps every other one. */
  lemma {:induction false} OutsideAreaMembers(ts: seq<Tree>, minX: int, minY: int, maxX: int, maxY: int)
    ensures forall t :: t in OutsideArea(ts, minX, minY, maxX, maxY) <==> t in ts && !InArea(t, minX, minY, maxX, maxY)
    ensures |OutsideArea(ts, minX, minY, maxX, maxY)| <= |ts|
  {
    if ts != [] {
      OutsideAreaMembers(ts[..|ts| - 1], minX, minY, maxX, maxY);
      assert ts == ts[..|ts| - 1] + [ts[|ts| - 1]];
    }
  }

  /** Every tree of a sorted list before its last tree comes before that tree. */
  lemma SortedBeforeLast(ts: seq<Tree>, t: Tree)
    requires ts != [] && TreesSorted(ts) && t in ts[..|ts| - 1]
    ensures RowMajorBefore((t.x, t.y), (ts[|ts| - 1].x, ts[|ts| - 1].y))
  {
    var k :| 0 <= k < |ts| - 1 && ts[..|ts| - 1][k] == t;
    assert ts[k] == t;
  }

  /** Clearing keeps row-major order. */
  lemma {:induction false} OutsideAreaSorted(ts: seq<Tree>, minX: int, minY: int, maxX: int, maxY: int)
    requires TreesSorted(ts)
    ensures TreesSorted(OutsideArea(ts, minX, minY, maxX, maxY))
  {
    if ts != [] {
      var front := ts[..|ts| - 1];
      var last := ts[|ts| - 1];
      assert TreesSorted(front) by {
        forall i, j | 0 <= i < j < |front| ensures RowMajorBefore((front[i].x, front[i].y), (front[j].x, front[j].y)) {
          assert front[i] == ts[i] && front[j] == ts[j];
        }
      }
      OutsideAreaSorted(front, minX, minY, maxX, maxY);
      var r := OutsideArea(front, minX, minY, maxX, maxY);
      if !InArea(last, minX, minY, maxX, maxY) {
        OutsideAreaMembers(front, minX, minY, maxX, maxY);
        forall u | u in r ensures RowMajorBefore((u.x, u.y), (last.x, last.y)) {
          SortedBeforeLast(ts, u);
        }
        SortedConcat(r, [last]);
      }
    }
  }

  // ---------------------------------------------------------------------------
  // Proximity
  // ---------------------------------------------------------------------------

  /** The entry's anchor `(x * tile_size, y * tile_size)` is closer to the query's centre than `sqrt(radius2)`. */
  predicate Near(e: Entry, q: Rect, ts: int, radius2: nat) {
    Dist2((e.x * ts, e.y * ts), (q.CenterX(), q.CenterY())) < radius2
  }

  // ---------------------------------------------------------------------------
  // The background object
  // ---------------------------------------------------------------------------

  class Background {
    var mapWidth: int
    var mapHeight: int
    var tileSize: int
    var spawnPoint: Cell
    var mapData: MapData
    var treePositions: seq<Tree>
    var treeChunks: map<Cell, seq<Tree>>
    var collisionChunks: map<Cell, seq<Rect>>
    var catPositions: seq<Entry>
    var collectiblePositions: seq<Entry>
    /** `_trees_cache_used`: the trees came from the tree cache. */
    var treesCacheUsed: bool

    /** A rectangular map and a positive tile size, which the index arithmetic divides by. */
    predicate Valid()
      reads this`mapData, this`tileSize
    {
      Rectangular(mapData) && tileSize > 0
    }

    /** Both chunk dictionaries are the ones built from `tree_positions`. */
    predicate Indexed()
      reads this`treePositions, this`treeChunks, this`collisionChunks, this`tileSize
    {
      treeChunks == TreeChunks(treePositions) && collisionChunks == CollisionChunks(treePositions, tileSize)
    }

    /** The dimensions and spawn point the instance was built with. */
    predicate Settings(w: int, h: int, ts: int, spawn: Cell)
      reads this`mapWidth, this`mapHeight, this`tileSize, this`spawnPoint
    {
      mapWidth == w && mapHeight == h && tileSize == ts && spawnPoint == spawn
    }

    /** `map_data` is `_convert_grid(grid)`. */
    predicate Converted(grid: Option<seq<seq<char>>>)
      reads this`mapData
    {
      mapData == ConvertGrid(grid)
    }

    /**
     * The trees after construction: a cached record is used as it is and
     * marks the instance as built from cache; otherwise the trees are those
     * the draws plant and both indexes are built from them.
     */
    predicate TreesLoaded(cached: Option<AssetCache.TreeRecord>, plant: Cell -> TreeDraw)
      reads this`mapData, this`tileSize, this`treePositions, this`treeChunks, this`collisionChunks, this`treesCacheUsed
    {
      (treesCacheUsed <==> cached.Some?) &&
      (cached.Some? ==> treePositions == cached.value.trees && treeChunks == cached.value.treeChunks &&
                        collisionChunks == cached.value.collisionChunks) &&
      (cached.None? ==> Rectangular(mapData) && treePositions == Trees(mapData, plant) && Indexed())
    }

    /**
     * The cats and collectibles after construction: given (non-empty)
     * positions are filtered and numbered, otherwise positions are chosen
     * from the candidate tiles. Collectibles avoid the cats placed first.
     */
    predicate EntriesPlaced(cats: seq<Cell>, items: seq<Cell>, catPicks: nat -> nat, itemPicks: nat -> nat)
      reads this`mapData, this`tileSize, this`treePositions, this`catPositions, this`collectiblePositions, this`spawnPoint
      requires Valid()
    {
      CatsPlaced(cats, catPicks) && ItemsPlaced(items, itemPicks)
    }

    /** The cats after construction. */
    predicate CatsPlaced(cats: seq<Cell>, catPicks: nat -> nat)
      reads this`mapData, this`tileSize, this`treePositions, this`catPositions, this`collectiblePositions, this`spawnPoint
      requires Valid()
    {
      (cats != [] ==> catPositions == SetupEntries(cats, TreeTiles(treePositions), LoreCats)) &&
      (cats == [] ==> catPositions == Numbered(Selected(Spots(mapData, TreeTiles(treePositions), None), catPicks, CatTries, LoreCats, CatSpacing, [], 0)))
    }

    /** The collectibles after construction; they avoid the cats placed first. */
    predicate ItemsPlaced(items: seq<Cell>, itemPicks: nat -> nat)
      reads this`mapData, this`tileSize, this`treePositions, this`catPositions, this`collectiblePositions, this`spawnPoint
      requires Valid()
    {
      var blocked := TreeTiles(treePositions) + EntryTiles(catPositions);
      (items != [] ==> collectiblePositions == SetupEntries(items, blocked, MaxCollectibles)) &&
      (items == [] ==> collectiblePositions == Numbered(Selected(Spots(mapData, blocked, Some(spawnPoint)),
          itemPicks, ItemTries, MaxCollectibles, ItemSpacing, Cells(catPositions), ItemCatSpacing)))
    }

    /** The key `clear_trees_in_area` stores the cleared trees under. */
    function ClearedKey(): AssetCache.TreeKey
      reads this
    {
      (mapWidth, mapHeight, Some(spawnPoint))
    }

    /**
     * `Background(...)`. Positions given as an empty list count as not
     * given, as in the source's truth test. `plant` holds the tree draws,
     * `catPicks` and `itemPicks` the `random.choice` draws of the two
     * selection loops.
     */
    constructor (mapWidth: int, mapHeight: int, tileSize: int, catPositions: seq<Cell>, collectiblePositions: seq<Cell>,
                 spawnPoint: Option<Cell>, grid: Option<seq<seq<char>>>, cache: AssetCache.Cache,
                 plant: Cell -> TreeDraw, catPicks: nat -> nat, itemPicks: nat -> nat)
      requires tileSize > 0
      requires grid.Some? ==> RectangularGrid(grid.value)
      ensures Valid()
      ensures Settings(mapWidth, mapHeight, tileSize, if spawnPoint.Some? then spawnPoint.value else (mapWidth / 2, mapHeight / 2))
      ensures Converted(grid)
      ensures TreesLoaded(cache.GetCachedTrees((mapWidth, mapHeight, spawnPoint)), plant)
      ensures EntriesPlaced(catPositions, collectiblePositions, catPicks, itemPicks)
    {
      this.mapWidth := mapWidth;
      this.mapHeight := mapHeight;
      this.tileSize := tileSize;
      this.spawnPoint := if spawnPoint.Some? then spawnPoint.value else (mapWidth / 2, mapHeight / 2);
      mapData := ConvertGrid(grid);
      treePositions := [];
      treeChunks := map[];
      collisionChunks := map[];
      this.catPositions := [];
      this.collectiblePositions := [];
      treesCacheUsed := false;
      new;
      assert Settings(mapWidth, mapHeight, tileSize, this.spawnPoint) && Converted(grid);
      var cached := cache.GetCachedTrees((mapWidth, mapHeight, spawnPoint));
      InitTrees(cached, plant);
      assert Settings(mapWidth, mapHeight, tileSize, this.spawnPoint) && Converted(grid) && TreesLoaded(cached, plant);
      InitEntries(catPositions, collectiblePositions, catPicks, itemPicks);
    }

    /** The tree half of the constructor: a cached record is copied in, otherwise trees and both indexes are built. */
    method InitTrees(cached: Option<AssetCache.TreeRecord>, plant: Cell -> TreeDraw)
      requires Valid()
      modifies this`treePositions, this`treeChunks, this`collisionChunks, this`treesCacheUsed
      ensures TreesLoaded(cached, plant)
    {
      if cached.Some? {
        treePositions := cached.value.trees;
        treeChunks := cached.value.treeChunks;
        collisionChunks := cached.value.collisionChunks;
        treesCacheUsed := true;
      } else {
        treePositions := GenerateTrees(plant);
        treeChunks := BuildTreeChunks();
        collisionChunks := BuildCollisionChunks();
        treesCacheUsed := false;
      }
    }

    /** The cat and collectible half of the constructor: given positions are filtered, otherwise positions are generated. */
    method InitEntries(cats: seq<Cell>, items: seq<Cell>, catPicks: nat -> nat, itemPicks: nat -> nat)
      requires Valid()
      modifies this`catPositions, this`collectiblePositions
      ensures EntriesPlaced(cats, items, catPicks, itemPicks)
    {
      if cats != [] {
        catPositions := SetupCats(cats);
      } else {
        catPositions := GenerateCats(catPicks);
      }
      if items != [] {
        collectiblePositions := SetupCollectibles(items);
      } else {
        collectiblePositions := GenerateCollectibles(itemPicks);
      }
    }

    /** `_is_isolated_grass`: no in-bounds tile of the 3 x 3 block around `(x, y)` is path. */
    method IsIsolatedGrass(x: int, y: int) returns (r: bool)
      requires Valid() && |mapData| > 0
      ensures r <==> !PathNear(mapData, x, y)
    {
      var dy := -1;
      while dy <= 1
        invariant -1 <= dy <= 2
        invariant forall nx, ny :: x - 1 <= nx <= x + 1 && y - 1 <= ny < y + dy ==> !IsPath(mapData, nx, ny)
      {
        var dx := -1;
        while dx <= 1
          invariant -1 <= dx <= 2
          invariant forall nx, ny :: x - 1 <= nx <= x + 1 && y - 1 <= ny < y + dy ==> !IsPath(mapData, nx, ny)
          invariant forall nx, ny :: x - 1 <= nx < x + dx && ny == y + dy ==> !IsPath(mapData, nx, ny)
        {
          var nx, ny := x + dx, y + dy;
          if 0 <= nx < |mapData[0]| && 0 <= ny < |mapData| {
            if mapData[ny][nx] == Path {
              assert IsPath(mapData, nx, ny);
              return false;
            }
          }
          dx := dx + 1;
        }
        dy := dy + 1;
      }
      return true;
    }

    /** `_generate_trees`: the trees the draws plant, scanning rows top to bottom and each row left to right. */
    method GenerateTrees(plant: Cell -> TreeDraw) returns (trees: seq<Tree>)
      requires Valid()
      ensures trees == Trees(mapData, plant)
    {
      trees := [];
      var y := 0;
      while y < |mapData|
        invariant 0 <= y <= |mapData|
        invariant trees == TreesUpTo(mapData, y, plant)
      {
        var row := RowOfTrees(y, plant);
        trees := trees + row;
        y := y + 1;
      }
    }

    /** The inner loop of `_generate_trees` over one row. */
    method RowOfTrees(y: int, plant: Cell -> TreeDraw) returns (row: seq<Tree>)
      requires Valid() && 0 <= y < |mapData|
      ensures row == RowTrees(mapData, y, Width(mapData), plant)
    {
      row := [];
      var x := 0;
      while x < |mapData[y]|
        invariant 0 <= x <= Width(mapData)
        invariant row == RowTrees(mapData, y, x, plant)
      {
        if mapData[y][x] == Grass {
          var isolated := IsIsolatedGrass(x, y);
          if isolated {
            var d := plant((x, y));
            if d.Plant? {
              row := row + [Tree(x, y, d.pick % TreeImages)];
            }
          }
        }
        x := x + 1;
      }
    }

    /** `_build_tree_chunks`, proved equal to the fold `TreeChunks`. */
    method BuildTreeChunks() returns (chunks: map<Cell, seq<Tree>>)
      ensures chunks == TreeChunks(treePositions)
    {
      chunks := map[];
      var i := 0;
      while i < |treePositions|
        invariant 0 <= i <= |treePositions|
        invariant chunks == TreeChunks(treePositions[..i])
      {
        var t := treePositions[i];
        var key := (t.x / ChunkSize, t.y / ChunkSize);
        if key !in chunks {
          chunks := chunks[key := []];
        }
        chunks := chunks[key := chunks[key] + [t]];
        assert treePositions[..i + 1][..i] == treePositions[..i];
        i := i + 1;
      }
      assert treePositions[..i] == treePositions;
    }

    /** `_build_collision_chunks`, proved equal to the fold `CollisionChunks`. */
    method BuildCollisionChunks() returns (chunks: map<Cell, seq<Rect>>)
      ensures chunks == CollisionChunks(treePositions, tileSize)
    {
      chunks := map[];
      var i := 0;
      while i < |treePositions|
        invariant 0 <= i <= |treePositions|
        invariant chunks == CollisionChunks(treePositions[..i], tileSize)
      {
        var t := treePositions[i];
        var treeX := t.x * tileSize - (TreeSize - TilePx) / 2;
        var treeY := t.y * tileSize - (TreeSize - TilePx) / 2;
        var rect := Rect(treeX + (TreeSize - TrunkWidth) / 2, treeY + TreeSize - TrunkHeight - 10, TrunkWidth, TrunkHeight);
        var key := (t.x / ChunkSize, t.y / ChunkSize);
        if key !in chunks {
          chunks := chunks[key := []];
        }
        chunks := chunks[key := chunks[key] + [rect]];
        assert treePositions[..i + 1][..i] == treePositions[..i];
        i := i + 1;
      }
      assert treePositions[..i] == treePositions;
    }

    /** The `enumerate` loop that numbers the chosen positions. */
    method NumberCells(cells: seq<Cell>) returns (es: seq<Entry>)
      ensures es == Numbered(cells)
    {
      es := [];
      var i := 0;
      while i < |cells|
        invariant 0 <= i <= |cells|
        invariant es == Numbered(cells[..i])
      {
        es := es + [Entry(cells[i].0, cells[i].1, i)];
        i := i + 1;
      }
      assert cells[..i] == cells;
    }

    /** `_setup_cats`: the first five given positions not under a tree, numbered as lore indexes. */
    method SetupCats(positions: seq<Cell>) returns (cats: seq<Entry>)
      ensures cats == SetupEntries(positions, TreeTiles(treePositions), LoreCats)
    {
      var valid := Take(Unblocked(positions, TreeTiles(treePositions)), LoreCats);
      cats := NumberCells(valid);
    }

    /** `_setup_collectibles`: the first ten given positions under no tree and no cat, numbered. */
    method SetupCollectibles(positions: seq<Cell>) returns (items: seq<Entry>)
      ensures items == SetupEntries(positions, TreeTiles(treePositions) + EntryTiles(catPositions), MaxCollectibles)
    {
      var valid := Take(Unblocked(positions, TreeTiles(treePositions) + EntryTiles(catPositions)), MaxCollectibles);
      items := NumberCells(valid);
    }

    /** The scan for `path_positions`. */
    method CollectSpots(blocked: set<Cell>, far: Option<Cell>) returns (spots: seq<Cell>)
      requires Valid()
      ensures spots == Spots(mapData, blocked, far)
    {
      spots := [];
      var y := 0;
      while y < |mapData|
        invariant 0 <= y <= |mapData|
        invariant spots == SpotsUpTo(mapData, blocked, far, y)
      {
        var x := 0;
        var row := [];
        while x < |mapData[y]|
          invariant 0 <= x <= Width(mapData)
          invariant row == RowSpots(mapData, blocked, far, y, x)
        {
          if mapData[y][x] == Path && (x, y) !in blocked {
            if far.None? || Dist2((x, y), far.value) > ItemSpawnDistance2 {
              row := row + [(x, y)];
            }
          }
          x := x + 1;
        }
        spots := spots + row;
        y := y + 1;
      }
    }

    /** The selection loop: at most `tries` passes, stopping once `cap` tiles are chosen or there is no candidate. */
    method PickSpread(cands: seq<Cell>, picks: nat -> nat, tries: nat, cap: nat, gap: nat, avoid: seq<Cell>, avoidGap: nat)
      returns (selected: seq<Cell>)
      ensures selected == Selected(cands, picks, tries, cap, gap, avoid, avoidGap)
    {
      selected := [];
      var n := 0;
      while n < tries
        invariant 0 <= n <= tries
        invariant selected == Selected(cands, picks, n, cap, gap, avoid, avoidGap)
      {
        if |selected| >= cap || cands == [] {
          SelectedStalls(cands, picks, n, tries, cap, gap, avoid, avoidGap);
          return;
        }
        var pos := cands[picks(n) % |cands|];
        if SpacedFrom(pos, selected, gap) && SpacedFrom(pos, avoid, avoidGap) {
          selected := selected + [pos];
        }
        n := n + 1;
      }
    }

    /**
     * `_generate_cats`: up to five path tiles not under a tree, pairwise at
     * least 15 tiles apart in Manhattan distance, numbered as lore indexes.
     */
    method GenerateCats(picks: nat -> nat) returns (cats: seq<Entry>)
      requires Valid()
      ensures cats == Numbered(Selected(Spots(mapData, TreeTiles(treePositions), None), picks, CatTries, LoreCats, CatSpacing, [], 0))
    {
      var pathPositions := CollectSpots(TreeTiles(treePositions), None);
      var selected := PickSpread(pathPositions, picks, CatTries, LoreCats, CatSpacing, [], 0);
      cats := NumberCells(selected);
    }

    /**
     * `_generate_collectibles`: up to ten path tiles under no tree and no
     * cat, more than 20 tiles from spawn, 12 apart from each other and 8
     * from every cat.
     */
    method GenerateCollectibles(picks: nat -> nat) returns (items: seq<Entry>)
      requires Valid()
      ensures items == Numbered(Selected(Spots(mapData, TreeTiles(treePositions) + EntryTiles(catPositions), Some(spawnPoint)),
        picks, ItemTries, MaxCollectibles, ItemSpacing, Cells(catPositions), ItemCatSpacing))
    {
      var pathPositions := CollectSpots(TreeTiles(treePositions) + EntryTiles(catPositions), Some(spawnPoint));
      var selected := PickSpread(pathPositions, picks, ItemTries, MaxCollectibles, ItemSpacing, Cells(catPositions), ItemCatSpacing);
      items := NumberCells(selected);
    }

    /**
     * `check_tree_collision`: scans the 3 x 3 block of chunk keys around
     * the chunk of the query centre's tile, absent keys holding nothing,
     * and reports whether some trunk there strictly overlaps the query.
     */
    method CheckTreeCollision(q: Rect) returns (hit: bool)
      requires Valid()
      ensures hit <==> ChunkHit(collisionChunks, q, tileSize)
      ensures Indexed() && tileSize == TilePx && q.w <= ChunkSize * TilePx && q.h <= ChunkSize * TilePx ==>
        (hit <==> CollidesAny(q, Trunks(treePositions, TilePx)))
    {
      if Indexed() && tileSize == TilePx && q.w <= ChunkSize * TilePx && q.h <= ChunkSize * TilePx {
        ChunkedMatchesLinear(treePositions, q);
      }
      var c := ChunkOf(q.CenterX() / tileSize, q.CenterY() / tileSize);
      var dx := -1;
      while dx < 2
        invariant -1 <= dx <= 2
        invariant forall k :: k in collisionChunks && c.0 - 1 <= k.0 < c.0 + dx && Abs(k.1 - c.1) <= 1 ==> !CollidesAny(q, collisionChunks[k])
      {
        var dy := -1;
        while dy < 2
          invariant -1 <= dy <= 2
          invariant forall k :: k in collisionChunks && c.0 - 1 <= k.0 < c.0 + dx && Abs(k.1 - c.1) <= 1 ==> !CollidesAny(q, collisionChunks[k])
          invariant forall k :: k in collisionChunks && k.0 == c.0 + dx && c.1 - 1 <= k.1 < c.1 + dy ==> !CollidesAny(q, collisionChunks[k])
        {
          var key := (c.0 + dx, c.1 + dy);
          if key in collisionChunks {
            var rects := collisionChunks[key];
            var i := 0;
            while i < |rects|
              invariant 0 <= i <= |rects|
              invariant forall j :: 0 <= j < i ==> !Collide(q, rects[j])
            {
              if Collide(q, rects[i]) {
                return true;
              }
              i := i + 1;
            }
          }
          dy := dy + 1;
        }
        dx := dx + 1;
      }
      return false;
    }

    /**
     * The loop of `check_cat_proximity` and `check_collectible_proximity`:
     * the first entry whose anchor is nearer the query centre than the
     * radius, with its image index; `None` stands for `(None, None)`.
     */
    method FirstNear(es: seq<Entry>, q: Rect, radius2: nat) returns (r: Option<(nat, nat)>)
      ensures r.Some? ==> r.value.0 < |es| && Near(es[r.value.0], q, tileSize, radius2) && r.value.1 == es[r.value.0].idx
      ensures r.Some? ==> forall j :: 0 <= j < r.value.0 ==> !Near(es[j], q, tileSize, radius2)
      ensures r.None? <==> forall j :: 0 <= j < |es| ==> !Near(es[j], q, tileSize, radius2)
    {
      var i := 0;
      while i < |es|
        invariant 0 <= i <= |es|
        invariant forall j :: 0 <= j < i ==> !Near(es[j], q, tileSize, radius2)
      {
        var e := es[i];
        var cx, cy := e.x * tileSize, e.y * tileSize;
        var dist2 := (cx - q.CenterX()) * (cx - q.CenterX()) + (cy - q.CenterY()) * (cy - q.CenterY());
        if dist2 < radius2 {
          return Some((i, e.idx));
        }
        i := i + 1;
      }
      return None;
    }

    /** `check_cat_proximity`: the first cat within 60 pixels of the query centre. */
    method CheckCatProximity(q: Rect) returns (r: Option<(nat, nat)>)
      ensures r.Some? ==> r.value.0 < |catPositions| && Near(catPositions[r.value.0], q, tileSize, CatProximity2)
      ensures r.Some? ==> r.value.1 == catPositions[r.value.0].idx
      ensures r.Some? ==> forall j :: 0 <= j < r.value.0 ==> !Near(catPositions[j], q, tileSize, CatProximity2)
      ensures r.None? <==> forall j :: 0 <= j < |catPositions| ==> !Near(catPositions[j], q, tileSize, CatProximity2)
    {
      r := FirstNear(catPositions, q, CatProximity2);
    }

    /** `check_collectible_proximity`: the first collectible within 50 pixels of the query centre. */
    method CheckCollectibleProximity(q: Rect) returns (r: Option<(nat, nat)>)
      ensures r.Some? ==> r.value.0 < |collectiblePositions| && Near(collectiblePositions[r.value.0], q, tileSize, ItemProximity2)
      ensures r.Some? ==> r.value.1 == collectiblePositions[r.value.0].idx
      ensures r.Some? ==> forall j :: 0 <= j < r.value.0 ==> !Near(collectiblePositions[j], q, tileSize, ItemProximity2)
      ensures r.None? <==> forall j :: 0 <= j < |collectiblePositions| ==> !Near(collectiblePositions[j], q, tileSize, ItemProximity2)
    {
      r := FirstNear(collectiblePositions, q, ItemProximity2);
    }

    /** `collect_cat`: an index in range removes and returns that cat; any other index returns `None` and changes nothing. */
    method CollectCat(index: int) returns (r: Option<Entry>)
      modifies this`catPositions
      ensures 0 <= index < |old(catPositions)| ==> r == Some(old(catPositions)[index]) && catPositions == RemoveAt(old(catPositions), index)
      ensures !(0 <= index < |old(catPositions)|) ==> r == None && catPositions == old(catPositions)
    {
      if 0 <= index < |catPositions| {
        r := Some(catPositions[index]);
        catPositions := catPositions[..index] + catPositions[index + 1..];
      } else {
        r := None;
      }
    }

    /** `collect_collectible`: as `collect_cat`, on the collectibles. */
    method CollectCollectible(index: int) returns (r: Option<Entry>)
      modifies this`collectiblePositions
      ensures 0 <= index < |old(collectiblePositions)| ==>
        r == Some(old(collectiblePositions)[index]) && collectiblePositions == RemoveAt(old(collectiblePositions), index)
      ensures !(0 <= index < |old(collectiblePositions)|) ==> r == None && collectiblePositions == old(collectiblePositions)
    {
      if 0 <= index < |collectiblePositions| {
        r := Some(collectiblePositions[index]);
        collectiblePositions := collectiblePositions[..index] + collectiblePositions[index + 1..];
      } else {
        r := None;
      }
    }

    /**
     * `clear_trees_in_area`: an instance built from cache changes nothing;
     * otherwise the trees inside the inclusive rectangle go, both indexes
     * are rebuilt and the result is stored in the tree cache under
     * `(map_width, map_height, spawn_point)`, every other cache entry kept.
     */
    method ClearTreesInArea(minX: int, minY: int, maxX: int, maxY: int, cache: AssetCache.Cache)
      modifies this`treePositions, this`treeChunks, this`collisionChunks, cache
      ensures treesCacheUsed ==> treePositions == old(treePositions) && treeChunks == old(treeChunks)
      ensures treesCacheUsed ==> collisionChunks == old(collisionChunks) && cache.trees == old(cache.trees)
      ensures !treesCacheUsed ==> treePositions == OutsideArea(old(treePositions), minX, minY, maxX, maxY) && Indexed()
      ensures !treesCacheUsed ==> cache.GetCachedTrees(ClearedKey()) == Some(AssetCache.TreeRecord(treePositions, treeChunks, collisionChunks))
      ensures !treesCacheUsed ==> forall k :: k != ClearedKey() ==>
        (k in cache.trees <==> k in old(cache.trees)) && (k in cache.trees ==> cache.trees[k] == old(cache.trees)[k])
      ensures cache.images == old(cache.images) && cache.fonts == old(cache.fonts) && cache.maps == old(cache.maps)
      ensures cache.enemySpawns == old(cache.enemySpawns) && cache.initialized == old(cache.initialized)
    {
      if treesCacheUsed {
        return;
      }
      treePositions := OutsideArea(treePositions, minX, minY, maxX, maxY);
      treeChunks := BuildTreeChunks();
      collisionChunks := BuildCollisionChunks();
      cache.SetCachedTrees((mapWidth, mapHeight, Some(spawnPoint)), treePositions, treeChunks, collisionChunks);
    }
  }
}
