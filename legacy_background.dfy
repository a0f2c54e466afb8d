/**
 * The background of the first version of the game: the tile map read from
 * `map.txt`, trees on isolated grass by the same rule as the current game,
 * one flat list of trunk rectangles scanned linearly, and up to three cats
 * with image indexes drawn at random.
 */
module LegacyBackground {
  import opened Wrappers
  import opened Geometry
  import opened Tiles
  import opened Background

  /** Three cat images are loaded, so `randrange(len(cat_images))` draws from `[0, 3)`. */
  const CatImages: nat := 3
  const LegacyCatTries: nat := 100
  const LegacyMaxCats: nat := 3
  const LegacyCatSpacing: nat := 8

  /** Cats at `cells`, the `i`-th with image index `randrange(3)` for draw `idx(i)`. */
  function WithImages(cells: seq<Cell>, idx: nat -> nat): (es: seq<Entry>)
    ensures |es| == |cells|
    ensures forall i :: 0 <= i < |cells| ==> es[i] == Entry(cells[i].0, cells[i].1, idx(i) % CatImages)
  {
    seq(|cells|, i requires 0 <= i < |cells| => Entry(cells[i].0, cells[i].1, idx(i) % CatImages))
  }

  /** Every cat the first version places has an image index below `len(cat_images)`. */
  lemma WithImagesInRange(cells: seq<Cell>, idx: nat -> nat)
    ensures forall e :: e in WithImages(cells, idx) ==> e.idx < CatImages
  {
  }

  lemma WithImagesAppend(cells: seq<Cell>, c: Cell, idx: nat -> nat)
    ensures WithImages(cells + [c], idx) == WithImages(cells, idx) + [Entry(c.0, c.1, idx(|cells|) % CatImages)]
  {
  }

  /**
   * `_generate_cats` of the first version: at most three cats, each on a
   * path tile not under a tree, pairwise at least 8 tiles apart.
   */
  lemma GeneratedLegacyCats(m: MapData, trees: seq<Tree>, picks: nat -> nat, idx: nat -> nat)
    requires Rectangular(m)
    ensures var es := WithImages(Selected(Spots(m, TreeTiles(trees), None), picks, LegacyCatTries, LegacyMaxCats, LegacyCatSpacing, [], 0), idx);
      |es| <= LegacyMaxCats && forall i :: 0 <= i < |es| ==> IsPath(m, es[i].x, es[i].y) && (es[i].x, es[i].y) !in TreeTiles(trees)
    ensures var es := WithImages(Selected(Spots(m, TreeTiles(trees), None), picks, LegacyCatTries, LegacyMaxCats, LegacyCatSpacing, [], 0), idx);
      forall i, j :: 0 <= i < j < |es| ==> Manhattan((es[i].x, es[i].y), (es[j].x, es[j].y)) >= LegacyCatSpacing
  {
    var cands := Spots(m, TreeTiles(trees), None);
    SpotsMembers(m, TreeTiles(trees), None);
    SelectedSpread(cands, picks, LegacyCatTries, LegacyMaxCats, LegacyCatSpacing, [], 0);
  }

  class LegacyBackground {
    var mapWidth: int
    var mapHeight: int
    var tileSize: int
    var mapData: MapData
    var treePositions: seq<Tree>
    var catPositions: seq<Entry>
    var treeCollisionRects: seq<Rect>

    predicate Valid()
      reads this`mapData, this`tileSize
    {
      Rectangular(mapData) && tileSize > 0
    }

    /**
     * `Background(...)` of the first version. `mapData` is the map read
     * from `map.txt`; `plant`, `picks` and `idx` hold the random draws.
     */
    constructor (mapWidth: int, mapHeight: int, tileSize: int, catPositions: seq<Cell>, mapData: MapData,
                 plant: Cell -> TreeDraw, picks: nat -> nat, idx: nat -> nat)
      requires tileSize > 0 && Rectangular(mapData)
      ensures Valid() && this.mapData == mapData && this.tileSize == tileSize
      ensures treePositions == Trees(mapData, plant)
      ensures catPositions != [] ==> this.catPositions == WithImages(Unblocked(catPositions, TreeTiles(treePositions)), idx)
      ensures catPositions == [] ==>
        this.catPositions == WithImages(Selected(Spots(mapData, TreeTiles(treePositions), None), picks, LegacyCatTries, LegacyMaxCats, LegacyCatSpacing, [], 0), idx)
      ensures treeCollisionRects == Trunks(treePositions, tileSize)
    {
      this.mapWidth := mapWidth;
      this.mapHeight := mapHeight;
      this.tileSize := tileSize;
      this.mapData := mapData;
      treePositions := [];
      this.catPositions := [];
      treeCollisionRects := [];
      new;
      treePositions := GenerateTrees(plant);
      var cats;
      if catPositions != [] {
        cats := SetupCats(catPositions, idx);
      } else {
        cats := GenerateCats(picks, idx);
      }
      this.catPositions := cats;
      treeCollisionRects := GenerateTreeCollisions();
    }

    /** `_is_isolated_grass`: no in-bounds tile of the 3 x 3 block around `(x, y)` is path. */
    method IsIsolatedGrass(x: int, y: int) returns (r: bool)
      requires Valid() && |mapData| > 0
      ensures r <==> !PathNear(mapData, x, y)
    {
      var dy := -1;
      while dy <= 1
        invariant -1 <= dy <= 2
        invariant forall nx, ny :: x - 1 <= nx <= x + 1 && y - 1 <= ny < y + dy ==> !IsPath(mapData, nx, ny)
      {
        var dx := -1;
        while dx <= 1
          invariant -1 <= dx <= 2
          invariant forall nx, ny :: x - 1 <= nx <= x + 1 && y - 1 <= ny < y + dy ==> !IsPath(mapData, nx, ny)
          invariant forall nx, ny :: x - 1 <= nx < x + dx && ny == y + dy ==> !IsPath(mapData, nx, ny)
        {
          var nx, ny := x + dx, y + dy;
          if 0 <= nx < |mapData[0]| && 0 <= ny < |mapData| {
            if mapData[ny][nx] == Path {
              assert IsPath(mapData, nx, ny);
              return false;
            }
          }
          dx := dx + 1;
        }
        dy := dy + 1;
      }
      return true;
    }

    /** `_generate_trees`: the same placement rule as the current game. */
    method GenerateTrees(plant: Cell -> TreeDraw) returns (trees: seq<Tree>)
      requires Valid()
      ensures trees == Trees(mapData, plant)
    {
      trees := [];
      var y := 0;
      while y < |mapData|
        invariant 0 <= y <= |mapData|
        invariant trees == TreesUpTo(mapData, y, plant)
      {
        var row := RowOfTrees(y, plant);
        trees := trees + row;
        y := y + 1;
      }
    }

    /** The inner loop of `_generate_trees` over one row. */
    method RowOfTrees(y: int, plant: Cell -> TreeDraw) returns (row: seq<Tree>)
      requires Valid() && 0 <= y < |mapData|
      ensures row == RowTrees(mapData, y, Width(mapData), plant)
    {
      row := [];
      var x := 0;
      while x < |mapData[y]|
        invariant 0 <= x <= Width(mapData)
        invariant row == RowTrees(mapData, y, x, plant)
      {
        if mapData[y][x] == Grass {
          var isolated := IsIsolatedGrass(x, y);
          if isolated {
            var d := plant((x, y));
            if d.Plant? {
              row := row + [Tree(x, y, d.pick % TreeImages)];
            }
          }
        }
        x := x + 1;
      }
    }

    /** `_generate_tree_collisions`: one trunk rectangle per tree, in tree order. */
    method GenerateTreeCollisions() returns (rects: seq<Rect>)
      ensures rects == Trunks(treePositions, tileSize)
    {
      rects := [];
      var i := 0;
      while i < |treePositions|
        invariant 0 <= i <= |treePositions|
        invariant rects == Trunks(treePositions[..i], tileSize)
      {
        var t := treePositions[i];
        var treeX := t.x * tileSize - (TreeSize - TilePx) / 2;
        var treeY := t.y * tileSize - (TreeSize - TilePx) / 2;
        rects := rects + [Rect(treeX + (TreeSize - TrunkWidth) / 2, treeY + TreeSize - TrunkHeight - 10, TrunkWidth, TrunkHeight)];
        i := i + 1;
      }
      assert treePositions[..i] == treePositions;
    }

    /** `_setup_cats` of the first version: every given position not under a tree, with no cap, each with a drawn image. */
    method SetupCats(positions: seq<Cell>, idx: nat -> nat) returns (cats: seq<Entry>)
      ensures cats == WithImages(Unblocked(positions, TreeTiles(treePositions)), idx)
    {
      var treeTiles := TreeTiles(treePositions);
      cats := [];
      var i := 0;
      while i < |positions|
        invariant 0 <= i <= |positions|
        invariant cats == WithImages(Unblocked(positions[..i], treeTiles), idx)
      {
        assert positions[..i + 1][..i] == positions[..i];
        ghost var kept := Unblocked(positions[..i], treeTiles);
        if positions[i] !in treeTiles {
          WithImagesAppend(kept, positions[i], idx);
          cats := cats + [Entry(positions[i].0, positions[i].1, idx(|cats|) % CatImages)];
        }
        i := i + 1;
      }
      assert positions[..i] == positions;
    }

    /** `_generate_cats` of the first version: up to three spread-out path tiles after at most 100 draws. */
    method GenerateCats(picks: nat -> nat, idx: nat -> nat) returns (cats: seq<Entry>)
      requires Valid()
      ensures cats == WithImages(Selected(Spots(mapData, TreeTiles(treePositions), None), picks, LegacyCatTries, LegacyMaxCats, LegacyCatSpacing, [], 0), idx)
    {
      var pathPositions := PathPositions(TreeTiles(treePositions));
      var selected := SelectSpread(pathPositions, picks);
      cats := [];
      var i := 0;
      while i < |selected|
        invariant 0 <= i <= |selected|
        invariant cats == WithImages(selected[..i], idx)
      {
        assert selected[..i + 1] == selected[..i] + [selected[i]];
        WithImagesAppend(selected[..i], selected[i], idx);
        cats := cats + [Entry(selected[i].0, selected[i].1, idx(i) % CatImages)];
        i := i + 1;
      }
      assert selected[..i] == selected;
    }

    /** The scan for `path_positions` in `_generate_cats`. */
    method PathPositions(treeTiles: set<Cell>) returns (spots: seq<Cell>)
      requires Valid()
      ensures spots == Spots(mapData, treeTiles, None)
    {
      spots := [];
      var y := 0;
      while y < |mapData|
        invariant 0 <= y <= |mapData|
        invariant spots == SpotsUpTo(mapData, treeTiles, None, y)
      {
        var x := 0;
        var row := [];
        while x < |mapData[y]|
          invariant 0 <= x <= Width(mapData)
          invariant row == RowSpots(mapData, treeTiles, None, y, x)
        {
          if mapData[y][x] == Path && (x, y) !in treeTiles {
            row := row + [(x, y)];
          }
          x := x + 1;
        }
        spots := spots + row;
        y := y + 1;
      }
    }

    /** The selection loop of `_generate_cats`: 100 passes at most, three cats at most, 8 tiles apart. */
    method SelectSpread(cands: seq<Cell>, picks: nat -> nat) returns (selected: seq<Cell>)
      ensures selected == Selected(cands, picks, LegacyCatTries, LegacyMaxCats, LegacyCatSpacing, [], 0)
    {
      selected := [];
      var n := 0;
      while n < LegacyCatTries
        invariant 0 <= n <= LegacyCatTries
        invariant selected == Selected(cands, picks, n, LegacyMaxCats, LegacyCatSpacing, [], 0)
      {
        if |selected| >= LegacyMaxCats || cands == [] {
          SelectedStalls(cands, picks, n, LegacyCatTries, LegacyMaxCats, LegacyCatSpacing, [], 0);
          return;
        }
        var pos := cands[picks(n) % |cands|];
        if SpacedFrom(pos, selected, LegacyCatSpacing) {
          selected := selected + [pos];
        }
        n := n + 1;
      }
    }

    /** `check_tree_collision` of the first version: some trunk rectangle strictly overlaps the query. */
    method CheckTreeCollision(q: Rect) returns (hit: bool)
      ensures hit <==> CollidesAny(q, treeCollisionRects)
    {
      var i := 0;
      while i < |treeCollisionRects|
        invariant 0 <= i <= |treeCollisionRects|
        invariant forall j :: 0 <= j < i ==> !Collide(q, treeCollisionRects[j])
      {
        if Collide(q, treeCollisionRects[i]) {
          return true;
        }
        i := i + 1;
      }
      return false;
    }

    /** `check_cat_proximity` of the first version: the first cat within 60 pixels of the query centre. */
    method CheckCatProximity(q: Rect) returns (r: Option<(nat, nat)>)
      ensures r.Some? ==> r.value.0 < |catPositions| && Near(catPositions[r.value.0], q, tileSize, CatProximity2)
      ensures r.Some? ==> r.value.1 == catPositions[r.value.0].idx
      ensures r.Some? ==> forall j :: 0 <= j < r.value.0 ==> !Near(catPositions[j], q, tileSize, CatProximity2)
      ensures r.None? <==> forall j :: 0 <= j < |catPositions| ==> !Near(catPositions[j], q, tileSize, CatProximity2)
    {
      var i := 0;
      while i < |catPositions|
        invariant 0 <= i <= |catPositions|
        invariant forall j :: 0 <= j < i ==> !Near(catPositions[j], q, tileSize, CatProximity2)
      {
        var e := catPositions[i];
        var cx, cy := e.x * tileSize, e.y * tileSize;
        if (cx - q.CenterX()) * (cx - q.CenterX()) + (cy - q.CenterY()) * (cy - q.CenterY()) < CatProximity2 {
          return Some((i, e.idx));
        }
        i := i + 1;
      }
      return None;
    }

    /** `collect_cat`: an index in range removes and returns that cat; any other index returns `None` and changes nothing. */
    method CollectCat(index: int) returns (r: Option<Entry>)
      modifies this`catPositions
      ensures 0 <= index < |old(catPositions)| ==> r == Some(old(catPositions)[index]) && catPositions == RemoveAt(old(catPositions), index)
      ensures !(0 <= index < |old(catPositions)|) ==> r == None && catPositions == old(catPositions)
    {
      if 0 <= index < |catPositions| {
        r := Some(catPositions[index]);
        catPositions := catPositions[..index] + catPositions[index + 1..];
      } else {
        r := None;
      }
    }
  }

  /**
   * The first version's linear scan and the current game's chunked check
   * agree on the same trees for queries at most one chunk wide and high.
   */
  lemma LinearScanMatchesChunks(trees: seq<Tree>, q: Rect)
    requires q.w <= ChunkSize * TilePx && q.h <= ChunkSize * TilePx
    ensures CollidesAny(q, Trunks(trees, TilePx)) <==> ChunkHit(CollisionChunks(trees, TilePx), q, TilePx)
  {
    ChunkedMatchesLinear(trees, q);
  }
}
