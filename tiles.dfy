/**
 * The tile map the world code reads: `map_data[y][x]` is `'path'` or
 * `'grass'`, trees and the placed cats and collectibles are `(x, y, idx)`
 * triples, and the chunk index buckets tiles into 16 x 16 blocks.
 */
module Tiles {
  import opened Geometry

  datatype Terrain = Path | Grass

  /** Rows of tiles, `map_data[y][x]`. */
  type MapData = seq<seq<Terrain>>

  /** A tree at tile `(x, y)` drawn with image `idx`. */
  datatype Tree = Tree(x: int, y: int, idx: nat)

  /** A cat or collectible at tile `(x, y)` with lore or image index `idx`. */
  datatype Entry = Entry(x: int, y: int, idx: nat)

  /** Side of a chunk of the spatial index, in tiles. */
  const ChunkSize: int := 16

  /** The width `len(map_data[0])` the bound checks use; 0 for an empty map. */
  function Width(m: MapData): nat {
    if |m| == 0 then 0 else |m[0]|
  }

  /** Every row has the width of the first. */
  predicate Rectangular(m: MapData) {
    forall y :: 0 <= y < |m| ==> |m[y]| == Width(m)
  }

  /** `0 <= y < len(map_data) and 0 <= x < len(map_data[0])`. */
  predicate OnMap(m: MapData, x: int, y: int) {
    0 <= y < |m| && 0 <= x < Width(m)
  }

  /** The tile is on the map and is path. */
  predicate IsPath(m: MapData, x: int, y: int)
    requires Rectangular(m)
  {
    OnMap(m, x, y) && m[y][x] == Path
  }

  /** The chunk key `(x // 16, y // 16)` of a tile. */
  function ChunkOf(x: int, y: int): Cell {
    (x / ChunkSize, y / ChunkSize)
  }

  /** The tiles of the trees, `set((x, y) for x, y, _ in tree_positions)`. */
  function TreeTiles(trees: seq<Tree>): (r: set<Cell>)
    ensures forall i :: 0 <= i < |trees| ==> (trees[i].x, trees[i].y) in r
    ensures forall c :: c in r ==> exists i :: 0 <= i < |trees| && c == (trees[i].x, trees[i].y)
  {
    set i | 0 <= i < |trees| :: (trees[i].x, trees[i].y)
  }

  /** The tiles of placed entries. */
  function EntryTiles(es: seq<Entry>): (r: set<Cell>)
    ensures forall i :: 0 <= i < |es| ==> (es[i].x, es[i].y) in r
    ensures forall c :: c in r ==> exists i :: 0 <= i < |es| && c == (es[i].x, es[i].y)
  {
    set i | 0 <= i < |es| :: (es[i].x, es[i].y)
  }

  /** Manhattan distance `abs(a.0 - b.0) + abs(a.1 - b.1)`. */
  function Manhattan(a: Cell, b: Cell): nat {
    Abs(a.0 - b.0) + Abs(a.1 - b.1)
  }

  /** Squared Euclidean distance, the exact form of the game's `sqrt` comparisons. */
  function Dist2(a: Cell, b: Cell): nat {
    (a.0 - b.0) * (a.0 - b.0) + (a.1 - b.1) * (a.1 - b.1)
  }

  /** `enumerate`: the positions numbered from 0. */
  function Numbered(cells: seq<Cell>): (es: seq<Entry>)
    ensures |es| == |cells|
    ensures forall i :: 0 <= i < |cells| ==> es[i] == Entry(cells[i].0, cells[i].1, i)
  {
    seq(|cells|, i requires 0 <= i < |cells| => Entry(cells[i].0, cells[i].1, i))
  }

  /** `lst.pop(i)` after the bound check: the list without entry `i`. */
  function RemoveAt<T>(s: seq<T>, i: nat): (r: seq<T>)
    requires i < |s|
    ensures |r| == |s| - 1
    ensures forall k :: 0 <= k < i ==> r[k] == s[k]
    ensures forall k :: i <= k < |r| ==> r[k] == s[k + 1]
  {
    s[..i] + s[i + 1..]
  }
}
