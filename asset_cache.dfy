/**
 * The session-wide asset cache: module-level dictionaries for images,
 * fonts, maps, generated trees and enemy spawn positions, kept for the
 * whole game session so that a respawn does not reload or regenerate them.
 * Loading a file is outside the model: its outcome is a parameter.
 */
module AssetCache {
  import opened Wrappers
  import opened Geometry
  import opened Tiles

  /** A loaded, converted and scaled image. */
  datatype Surface = Surface(id: nat)

  /** A loaded font. */
  datatype Font = Font(id: nat)

  /** `(path, size)`, the image cache key; `convert_alpha` is not part of it. */
  type ImageKey = (string, Option<(int, int)>)

  /** `(map_width, map_height, spawn_point)`, the tree cache key. */
  type TreeKey = (int, int, Option<Cell>)

  /** `(rows, columns, spawn_point, num_enemies)`, the enemy spawn cache key. */
  type SpawnKey = (int, int, Cell, int)

  /** The cached trees of one map with both chunk indexes. */
  datatype TreeRecord = TreeRecord(trees: seq<Tree>, treeChunks: map<Cell, seq<Tree>>, collisionChunks: map<Cell, seq<Rect>>)

  class Cache {
    var images: map<ImageKey, Surface>
    var fonts: map<nat, Font>
    var maps: map<string, seq<string>>
    var trees: map<TreeKey, TreeRecord>
    var enemySpawns: map<SpawnKey, seq<Cell>>
    var initialized: bool

    /** The caches at import time: all empty, the font module not yet initialised. */
    constructor ()
      ensures images == map[] && fonts == map[] && maps == map[] && trees == map[] && enemySpawns == map[]
      ensures !initialized
    {
      images, fonts, maps, trees, enemySpawns := map[], map[], map[], map[], map[];
      initialized := false;
    }

    /**
     * `get_image`: a stored surface is returned without loading; otherwise
     * `loaded` is the outcome of loading the file (`None` when loading
     * raised), which is stored on success and nothing is stored on failure.
     */
    method GetImage(path: string, size: Option<(int, int)>, loaded: Option<Surface>) returns (img: Option<Surface>)
      modifies this
      ensures (path, size) in old(images) ==> img == Some(old(images)[(path, size)]) && images == old(images)
      ensures (path, size) !in old(images) && loaded.Some? ==> img == loaded && images == old(images)[(path, size) := loaded.value]
      ensures (path, size) !in old(images) && loaded.None? ==> img == None && images == old(images)
      ensures fonts == old(fonts) && maps == old(maps) && trees == old(trees) && enemySpawns == old(enemySpawns)
      ensures initialized == old(initialized)
    {
      var key := (path, size);
      if key in images {
        return Some(images[key]);
      }
      if loaded.None? {
        return None;
      }
      images := images[key := loaded.value];
      return loaded;
    }

    /**
     * `get_font`: initialises the font module once, then returns the font
     * stored for `size`, loading (`loaded`) and storing it the first time.
     */
    method GetFont(size: nat, loaded: Font) returns (font: Font)
      modifies this
      ensures initialized
      ensures size in old(fonts) ==> font == old(fonts)[size] && fonts == old(fonts)
      ensures size !in old(fonts) ==> font == loaded && fonts == old(fonts)[size := loaded]
      ensures images == old(images) && maps == old(maps) && trees == old(trees) && enemySpawns == old(enemySpawns)
    {
      if !initialized {
        initialized := true;
      }
      if size in fonts {
        return fonts[size];
      }
      fonts := fonts[size := loaded];
      return loaded;
    }

    /** `get_cached_trees`: the stored record, or `None` for an unknown key. */
    function GetCachedTrees(key: TreeKey): (r: Option<TreeRecord>)
      reads this
      ensures r.Some? <==> key in trees
      ensures r.Some? ==> r.value == trees[key]
    {
      if key in trees then Some(trees[key]) else None
    }

    /** `set_cached_trees`: stores copies under `key`; every other key keeps its entry. */
    method SetCachedTrees(key: TreeKey, ts: seq<Tree>, treeChunks: map<Cell, seq<Tree>>, collisionChunks: map<Cell, seq<Rect>>)
      modifies this
      ensures GetCachedTrees(key) == Some(TreeRecord(ts, treeChunks, collisionChunks))
      ensures forall k :: k != key ==> (k in trees <==> k in old(trees)) && (k in trees ==> trees[k] == old(trees)[k])
      ensures images == old(images) && fonts == old(fonts) && maps == old(maps) && enemySpawns == old(enemySpawns)
      ensures initialized == old(initialized)
    {
      trees := trees[key := TreeRecord(ts, treeChunks, collisionChunks)];
    }

    /** `get_cached_enemy_spawns`: the stored positions, or `None` for an unknown key. */
    function GetCachedEnemySpawns(key: SpawnKey): (r: Option<seq<Cell>>)
      reads this
      ensures r.Some? <==> key in enemySpawns
      ensures r.Some? ==> r.value == enemySpawns[key]
    {
      if key in enemySpawns then Some(enemySpawns[key]) else None
    }

    /** `set_cached_enemy_spawns`: stores a copy under `key`; every other key keeps its entry. */
    method SetCachedEnemySpawns(key: SpawnKey, positions: seq<Cell>)
      modifies this
      ensures GetCachedEnemySpawns(key) == Some(positions)
      ensures forall k :: k != key ==> (k in enemySpawns <==> k in old(enemySpawns)) && (k in enemySpawns ==> enemySpawns[k] == old(enemySpawns)[k])
      ensures images == old(images) && fonts == old(fonts) && maps == old(maps) && trees == old(trees)
      ensures initialized == old(initialized)
    {
      enemySpawns := enemySpawns[key := positions];
    }

    /** `clear_cache`: empties all five caches. */
    method ClearCache()
      modifies this
      ensures images == map[] && fonts == map[] && maps == map[] && trees == map[] && enemySpawns == map[]
      ensures initialized == old(initialized)
    {
      images, fonts, maps, trees, enemySpawns := map[], map[], map[], map[], map[];
    }

    /** `clear_all_caches`: empties the map, tree and spawn caches and keeps images and fonts. */
    method ClearAllCaches()
      modifies this
      ensures maps == map[] && trees == map[] && enemySpawns == map[]
      ensures images == old(images) && fonts == old(fonts) && initialized == old(initialized)
    {
      maps, trees, enemySpawns := map[], map[], map[];
    }
  }

  /** Asking twice for the same image returns the first answer and leaves the cache as the first call left it. */
  method ImageMemoised(c: Cache, path: string, size: Option<(int, int)>, first: Option<Surface>, second: Option<Surface>)
    returns (a: Option<Surface>, b: Option<Surface>)
    modifies c
    ensures a.Some? ==> b == a
    ensures a.None? ==> b == second
  {
    a := c.GetImage(path, size, first);
    b := c.GetImage(path, size, second);
  }

  /** Asking twice for the same font size returns the same font. */
  method FontMemoised(c: Cache, size: nat, first: Font, second: Font) returns (a: Font, b: Font)
    modifies c
    ensures a == b
  {
    a := c.GetFont(size, first);
    b := c.GetFont(size, second);
  }
}
