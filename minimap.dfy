/**
 * The minimap's fog of war: the set of map tiles the player has seen, grown
 * by a disc of radius 8 around the player's tile and kept within the map,
 * with a flag that asks for the minimap to be redrawn, and the minimap's
 * place in the top-right corner of the screen.
 */
module Minimap {
  import opened Geometry
  import Arith

  /** The minimap's side in pixels. */
  const MinimapSize: int := 180
  const Margin: int := 15
  /** `reveal_radius`, in tiles. */
  const RevealRadius: int := 8

  /** The tile lies on the `w` x `h` map. */
  predicate OnMap(w: int, h: int, t: Cell) {
    0 <= t.0 < w && 0 <= t.1 < h
  }

  /** `update(px, py)` reveals the tile: it is on the map and within the radius of the player's tile. */
  predicate Reveals(px: int, py: int, w: int, h: int, t: Cell) {
    (t.0 - px) * (t.0 - px) + (t.1 - py) * (t.1 - py) <= RevealRadius * RevealRadius && OnMap(w, h, t)
  }

  lemma SquareBound(d: int, rest: int)
    requires rest >= 0 && d * d + rest <= RevealRadius * RevealRadius
    ensures -RevealRadius <= d <= RevealRadius
  {
    assert d * d == Abs(d) * Abs(d);
    if Abs(d) > RevealRadius {
      Arith.MulMono(RevealRadius + 1, Abs(d), Abs(d));
      assert false;
    }
  }

  /** A square offset within the radius is within the loops' `-8 .. 8` range on each axis. */
  lemma DiscInSquare(d: int, e: int)
    requires d * d + e * e <= RevealRadius * RevealRadius
    ensures -RevealRadius <= d <= RevealRadius && -RevealRadius <= e <= RevealRadius
  {
    SquareBound(d, e * e);
    SquareBound(e, d * d);
  }

  /** The tiles one `update(px, py)` reveals on a `w` x `h` map. */
  function Revealed(px: int, py: int, w: int, h: int): (r: set<Cell>)
    ensures forall t :: t in r <==> Reveals(px, py, w, h, t)
    ensures forall t :: t in r ==> OnMap(w, h, t)
  {
    var r := set x, y | px - RevealRadius <= x <= px + RevealRadius && py - RevealRadius <= y <= py + RevealRadius
                         && Reveals(px, py, w, h, (x, y)) :: (x, y);
    assert forall t :: Reveals(px, py, w, h, t) ==> t in r by {
      forall t | Reveals(px, py, w, h, t) ensures t in r {
        DiscInSquare(t.0 - px, t.1 - py);
      }
    }
    r
  }

  /** The player's tile itself is revealed whenever it is on the map. */
  lemma RevealsOwnTile(px: int, py: int, w: int, h: int)
    requires OnMap(w, h, (px, py))
    ensures (px, py) in Revealed(px, py, w, h)
  {
  }

  /** If every visited tile lies on the map, so does every tile after an update. */
  lemma UpdateStaysOnMap(visited: set<Cell>, px: int, py: int, w: int, h: int)
    requires forall t :: t in visited ==> OnMap(w, h, t)
    ensures forall t :: t in visited + Revealed(px, py, w, h) ==> OnMap(w, h, t)
  {
  }

  /** Revealing twice from the same tile adds nothing the second time. */
  lemma UpdateIdempotent(visited: set<Cell>, px: int, py: int, w: int, h: int)
    ensures visited + Revealed(px, py, w, h) + Revealed(px, py, w, h) == visited + Revealed(px, py, w, h)
  {
  }

  /** Every element of the list is in the set and every element of the set is listed, once. */
  predicate Lists(l: seq<Cell>, s: set<Cell>) {
    (forall i :: 0 <= i < |l| ==> l[i] in s) && (forall t :: t in s ==> t in l) &&
    (forall i, j :: 0 <= i < j < |l| ==> l[i] != l[j])
  }

  /** `set(tuple(t) for t in tiles)`. */
  function ElementsOf(l: seq<Cell>): (s: set<Cell>)
    ensures forall t :: t in s <==> t in l
  {
    set t | t in l
  }

  /** Restoring a saved listing of the set gives the set back. */
  lemma SaveRestore(l: seq<Cell>, s: set<Cell>)
    requires Lists(l, s)
    ensures ElementsOf(l) == s
    ensures |l| == |s|
  {
    SaveRestoreCount(l, s);
  }

  lemma {:induction false} SaveRestoreCount(l: seq<Cell>, s: set<Cell>)
    requires Lists(l, s)
    ensures |l| == |s|
    decreases |l|
  {
    if l != [] {
      var last := l[|l| - 1];
      var front := l[..|l| - 1];
      assert Lists(front, s - {last}) by {
        forall t | t in s - {last} ensures t in front {
          var i :| 0 <= i < |l| && l[i] == t;
          assert i != |l| - 1;
          assert front[i] == t;
        }
      }
      SaveRestoreCount(front, s - {last});
    } else {
      assert s == {};
    }
  }

  class Minimap {
    var screenWidth: int
    var screenHeight: int
    const mapWidth: int
    const mapHeight: int
    const tileSize: int
    var x: int
    var y: int
    var visitedTiles: set<Cell>
    var needsRedraw: bool

    /** Every visited tile is on the map. */
    predicate OnTheMap()
      reads this`visitedTiles
    {
      forall t :: t in visitedTiles ==> OnMap(mapWidth, mapHeight, t)
    }

    /** `scale = size / max(map_width, map_height)` raises `ZeroDivisionError` when that maximum is 0. */
    constructor (screenWidth: int, screenHeight: int, mapWidth: int, mapHeight: int, tileSize: int)
      requires (if mapWidth >= mapHeight then mapWidth else mapHeight) != 0
      ensures this.screenWidth == screenWidth && this.screenHeight == screenHeight
      ensures this.mapWidth == mapWidth && this.mapHeight == mapHeight && this.tileSize == tileSize
      ensures x == screenWidth - MinimapSize - Margin && y == Margin
      ensures visitedTiles == {} && needsRedraw
      ensures OnTheMap()
    {
      this.screenWidth := screenWidth;
      this.screenHeight := screenHeight;
      this.mapWidth := mapWidth;
      this.mapHeight := mapHeight;
      this.tileSize := tileSize;
      x := screenWidth - MinimapSize - Margin;
      y := Margin;
      visitedTiles := {};
      needsRedraw := true;
    }

    /** `update_position`: the minimap keeps a 15-pixel margin from the top-right corner of the resized screen. */
    method UpdatePosition(screenWidth: int, screenHeight: int)
      modifies this`screenWidth, this`screenHeight, this`x, this`y
      ensures this.screenWidth == screenWidth && this.screenHeight == screenHeight
      ensures x == screenWidth - MinimapSize - Margin && y == Margin
    {
      this.screenWidth := screenWidth;
      this.screenHeight := screenHeight;
      x := screenWidth - MinimapSize - Margin;
      y := Margin;
    }

    /**
     * `update`: the nested scan of the 17 x 17 square around the player's
     * tile adds exactly the revealed tiles, and asks for a redraw exactly
     * when one of them was new.
     */
    method Update(playerTileX: int, playerTileY: int)
      modifies this`visitedTiles, this`needsRedraw
      ensures visitedTiles == old(visitedTiles) + Revealed(playerTileX, playerTileY, mapWidth, mapHeight)
      ensures needsRedraw == (old(needsRedraw) || !(Revealed(playerTileX, playerTileY, mapWidth, mapHeight) <= old(visitedTiles)))
      ensures old(OnTheMap()) ==> OnTheMap()
    {
      ghost var before := visitedTiles;
      ghost var r := Revealed(playerTileX, playerTileY, mapWidth, mapHeight);
      var dy := -RevealRadius;
      while dy < RevealRadius + 1
        invariant -RevealRadius <= dy <= RevealRadius + 1
        invariant forall t :: t in visitedTiles <==> t in before || (t in r && t.1 - playerTileY < dy)
        invariant needsRedraw == (old(needsRedraw) || exists t :: t in r && t.1 - playerTileY < dy && t !in before)
      {
        ScanRow(playerTileX, playerTileY, dy, before, r);
        dy := dy + 1;
      }
      forall t | t in r ensures t.1 - playerTileY < dy {
        DiscInSquare(t.0 - playerTileX, t.1 - playerTileY);
      }
      assert visitedTiles == before + r;
    }

    /** One row `dy` of `update`'s scan. */
    method ScanRow(px: int, py: int, dy: int, ghost before: set<Cell>, ghost r: set<Cell>)
      requires r == Revealed(px, py, mapWidth, mapHeight)
      requires forall t :: t in visitedTiles <==> t in before || (t in r && t.1 - py < dy)
      modifies this`visitedTiles, this`needsRedraw
      ensures forall t :: t in visitedTiles <==> t in before || (t in r && t.1 - py < dy + 1)
      ensures needsRedraw == (old(needsRedraw) || exists t :: t in r && t.1 - py == dy && t !in before)
    {
      var dx := -RevealRadius;
      while dx < RevealRadius + 1
        invariant -RevealRadius <= dx <= RevealRadius + 1
        invariant forall t :: t in visitedTiles <==> t in before || (t in r && (t.1 - py < dy || (t.1 - py == dy && t.0 - px < dx)))
        invariant needsRedraw == (old(needsRedraw) || exists t :: t in r && t.1 - py == dy && t.0 - px < dx && t !in before)
      {
        if dx * dx + dy * dy <= RevealRadius * RevealRadius {
          var tx := px + dx;
          var ty := py + dy;
          if 0 <= tx < mapWidth && 0 <= ty < mapHeight {
            if (tx, ty) !in visitedTiles {
              visitedTiles := visitedTiles + {(tx, ty)};
              needsRedraw := true;
            }
          }
        }
        dx := dx + 1;
      }
      forall t | t in r && t.1 - py == dy ensures t.0 - px < dx {
        DiscInSquare(t.0 - px, t.1 - py);
      }
    }

    /** `set_visited_tiles`: replace the set by the tiles of the saved list and ask for a redraw. */
    method SetVisitedTiles(tiles: seq<Cell>)
      modifies this`visitedTiles, this`needsRedraw
      ensures visitedTiles == ElementsOf(tiles) && needsRedraw
    {
      visitedTiles := set t | t in tiles;
      needsRedraw := true;
    }

    /** `get_visited_tiles`: the set as a list, each tile once, in no particular order. */
    method GetVisitedTiles() returns (l: seq<Cell>)
      ensures Lists(l, visitedTiles)
    {
      l := [];
      var rest := visitedTiles;
      while rest != {}
        invariant rest <= visitedTiles
        invariant forall i :: 0 <= i < |l| ==> l[i] in visitedTiles && l[i] !in rest
        invariant forall t :: t in visitedTiles ==> t in rest || t in l
        invariant forall i, j :: 0 <= i < j < |l| ==> l[i] != l[j]
        decreases |rest|
      {
        var t :| t in rest;
        l := l + [t];
        rest := rest - {t};
      }
    }
  }
}
