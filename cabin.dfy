/**
 * The starting cabin: a fixed 6 x 5 tile layout placed above the spawn
 * point, whose wall and roof tiles block movement, whose door row lets the
 * player out, and whose surroundings are cleared of trees.
 */
module Cabin {
  import opened Geometry
  import opened Arith

  datatype Kind = Floor | Wall | Door | Roof

  const CabinWidth: int := 6
  const CabinHeight: int := 5

  /** The layout, row by row from the top: roof, three rows of wall-floor-wall, then walls around a double door. */
  const Layout: seq<seq<Kind>> := [
    [Roof, Roof, Roof, Roof, Roof, Roof],
    [Wall, Floor, Floor, Floor, Floor, Wall],
    [Wall, Floor, Floor, Floor, Floor, Wall],
    [Wall, Floor, Floor, Floor, Floor, Wall],
    [Wall, Wall, Door, Door, Wall, Wall]
  ]

  /** The layout cell in column `c` of row `r`, read off the rows above. */
  function KindAt(c: int, r: int): Kind {
    if r == 0 then Roof
    else if r == CabinHeight - 1 then (if c == 2 || c == 3 then Door else Wall)
    else if c == 0 || c == CabinWidth - 1 then Wall
    else Floor
  }

  /** The layout list and `KindAt` agree on every cell of the 6 x 5 grid. */
  lemma LayoutKinds()
    ensures |Layout| == CabinHeight && forall r :: 0 <= r < CabinHeight ==> |Layout[r]| == CabinWidth
    ensures forall r, c :: 0 <= r < CabinHeight && 0 <= c < CabinWidth ==> Layout[r][c] == KindAt(c, r)
  {
  }

  /** Walls and roof collide; floor and door do not. */
  predicate Blocks(k: Kind) {
    k == Wall || k == Roof
  }

  /** The blocking cells of layout row `r` among its first `n` columns, as `(column, row)`. */
  function RowWalls(r: nat, n: nat): seq<Cell>
  {
    if n == 0 then [] else RowWalls(r, n - 1) + (if Blocks(KindAt(n - 1, r)) then [(n - 1, r)] else [])
  }

  /** The tile-sized rectangle of tile `c`. */
  function TileRect(c: Cell, ts: nat): Rect {
    Rect(c.0 * ts, c.1 * ts, ts, ts)
  }

  /** The rectangles of the blocking cells of row `r` among its first `n` columns, for a cabin whose top-left tile is `(x, y)`. */
  function RowRects(r: nat, n: nat, x: int, y: int, ts: nat): seq<Rect>
  {
    if n == 0 then [] else RowRects(r, n - 1, x, y, ts) + (if Blocks(KindAt(n - 1, r)) then [TileRect((x + n - 1, y + r), ts)] else [])
  }

  /** The wall rectangles of the first `rows` rows, row by row. */
  function RectsUpTo(rows: nat, x: int, y: int, ts: nat): seq<Rect>
  {
    if rows == 0 then [] else RectsUpTo(rows - 1, x, y, ts) + RowRects(rows - 1, CabinWidth, x, y, ts)
  }

  /** `_build_wall_collisions`: one tile rectangle per wall or roof cell, in layout order. */
  function WallRects(x: int, y: int, ts: nat): seq<Rect> {
    RectsUpTo(CabinHeight, x, y, ts)
  }

  /** `get_bounds`: one tile of margin around the cabin, two below it. */
  function Bounds(x: int, y: int): (int, int, int, int) {
    (x - 1, y - 1, x + CabinWidth + 1, y + CabinHeight + 2)
  }

  /** The tile lies in the (inclusive) bounding box. */
  predicate InBounds(b: (int, int, int, int), c: Cell) {
    b.0 <= c.0 <= b.2 && b.1 <= c.1 <= b.3
  }

  lemma {:induction false} RowRectsLength(r: nat, n: nat, x: int, y: int, ts: nat)
    ensures |RowRects(r, n, x, y, ts)| == |RowWalls(r, n)|
  {
    if n > 0 {
      RowRectsLength(r, n - 1, x, y, ts);
    }
  }

  /** There are 16 wall rectangles: the six roof cells and ten wall cells. */
  lemma WallCount(x: int, y: int, ts: nat)
    ensures |WallRects(x, y, ts)| == 16
  {
    assert RowWalls(0, 6) == [(0, 0), (1, 0), (2, 0), (3, 0), (4, 0), (5, 0)];
    assert RowWalls(1, 6) == [(0, 1), (5, 1)];
    assert RowWalls(2, 6) == [(0, 2), (5, 2)];
    assert RowWalls(3, 6) == [(0, 3), (5, 3)];
    assert RowWalls(4, 6) == [(0, 4), (1, 4), (4, 4), (5, 4)];
    var rows := 0;
    while rows < CabinHeight
      invariant 0 <= rows <= CabinHeight
      invariant |RectsUpTo(rows, x, y, ts)| == [0, 6, 8, 10, 12, 16][rows]
    {
      RowRectsLength(rows, CabinWidth, x, y, ts);
      rows := rows + 1;
    }
  }

  /** Two tile rectangles overlap exactly when they are the same tile. */
  lemma TileOverlap(a: Cell, b: Cell, ts: nat)
    requires ts > 0
    ensures Collide(TileRect(a, ts), TileRect(b, ts)) <==> a == b
  {
    if a.0 < b.0 {
      MulMono(a.0 + 1, b.0, ts);
    } else if b.0 < a.0 {
      MulMono(b.0 + 1, a.0, ts);
    } else if a.1 < b.1 {
      MulMono(a.1 + 1, b.1, ts);
    } else if b.1 < a.1 {
      MulMono(b.1 + 1, a.1, ts);
    }
  }

  lemma CollidesAnyAppend(q: Rect, a: seq<Rect>, b: seq<Rect>)
    ensures CollidesAny(q, a + b) <==> CollidesAny(q, a) || CollidesAny(q, b)
  {
    if CollidesAny(q, a + b) {
      var i :| 0 <= i < |a + b| && Collide(q, (a + b)[i]);
      if i >= |a| {
        assert b[i - |a|] == (a + b)[i];
      }
    }
    if CollidesAny(q, a) {
      var i :| 0 <= i < |a| && Collide(q, a[i]);
      assert (a + b)[i] == a[i];
    }
    if CollidesAny(q, b) {
      var i :| 0 <= i < |b| && Collide(q, b[i]);
      assert (a + b)[|a| + i] == b[i];
    }
  }

  /** A tile collides with row `r`'s first `n` rectangles exactly when it is one of that row's blocking cells. */
  lemma {:induction false} RowRectsHit(r: nat, n: nat, x: int, y: int, ts: nat, t: Cell)
    requires ts > 0
    ensures CollidesAny(TileRect(t, ts), RowRects(r, n, x, y, ts))
      <==> (t.1 - y == r && 0 <= t.0 - x < n && Blocks(KindAt(t.0 - x, r)))
  {
    if n > 0 {
      RowRectsHit(r, n - 1, x, y, ts, t);
      var last := if Blocks(KindAt(n - 1, r)) then [TileRect((x + n - 1, y + r), ts)] else [];
      CollidesAnyAppend(TileRect(t, ts), RowRects(r, n - 1, x, y, ts), last);
      TileOverlap(t, (x + n - 1, y + r), ts);
      if Blocks(KindAt(n - 1, r)) {
        assert CollidesAny(TileRect(t, ts), last) <==> Collide(TileRect(t, ts), last[0]);
      }
    }
  }

  /** Over the first `rows` layout rows, a tile collides exactly when it is one of their blocking cells. */
  lemma {:induction false} RectsUpToHit(rows: nat, x: int, y: int, ts: nat, t: Cell)
    requires ts > 0
    ensures CollidesAny(TileRect(t, ts), RectsUpTo(rows, x, y, ts))
      <==> (0 <= t.1 - y < rows && 0 <= t.0 - x < CabinWidth && Blocks(KindAt(t.0 - x, t.1 - y)))
  {
    if rows > 0 {
      RectsUpToHit(rows - 1, x, y, ts, t);
      RowRectsHit(rows - 1, CabinWidth, x, y, ts, t);
      CollidesAnyAppend(TileRect(t, ts), RectsUpTo(rows - 1, x, y, ts), RowRects(rows - 1, CabinWidth, x, y, ts));
    }
  }

  /** A tile rectangle is clear of the walls exactly when the tile is not a blocking cell of the layout. */
  lemma TileClear(x: int, y: int, ts: nat, t: Cell)
    requires ts > 0
    ensures CollidesAny(TileRect(t, ts), WallRects(x, y, ts))
      <==> (0 <= t.1 - y < CabinHeight && 0 <= t.0 - x < CabinWidth && Blocks(KindAt(t.0 - x, t.1 - y)))
  {
    RectsUpToHit(CabinHeight, x, y, ts, t);
  }

  /** The two door tiles never block. */
  lemma DoorsOpen(x: int, y: int, ts: nat)
    requires ts > 0
    ensures !CollidesAny(TileRect((x + 2, y + 4), ts), WallRects(x, y, ts))
    ensures !CollidesAny(TileRect((x + 3, y + 4), ts), WallRects(x, y, ts))
  {
    TileClear(x, y, ts, (x + 2, y + 4));
    TileClear(x, y, ts, (x + 3, y + 4));
  }

  /**
   * For the cabin placed for spawn `(sx, sy)`, the spawn tile and the
   * Sprytek tile lie inside the cleared bounds and clear of every wall.
   */
  lemma SpawnAndSprytekClear(sx: int, sy: int, ts: nat)
    requires ts > 0
    ensures var x, y := sx - CabinWidth / 2, sy - CabinHeight - 1;
      InBounds(Bounds(x, y), (sx, sy)) && !CollidesAny(TileRect((sx, sy), ts), WallRects(x, y, ts))
    ensures var x, y := sx - CabinWidth / 2, sy - CabinHeight - 1;
      InBounds(Bounds(x, y), (sx - 1, sy + 1)) && !CollidesAny(TileRect((sx - 1, sy + 1), ts), WallRects(x, y, ts))
  {
    var x, y := sx - CabinWidth / 2, sy - CabinHeight - 1;
    TileClear(x, y, ts, (sx, sy));
    TileClear(x, y, ts, (sx - 1, sy + 1));
  }

  /** The cabin next to the spawn point. */
  class Cabin {
    const tileSize: nat
    const x: int
    const y: int
    const sprytekTileX: int
    const sprytekTileY: int
    var wallRects: seq<Rect>

    /** Centred horizontally on the spawn, with its bottom row one tile above it; Sprytek stands one tile left and below. */
    constructor (spawnX: int, spawnY: int, tileSize: nat)
      ensures this.tileSize == tileSize
      ensures x == spawnX - CabinWidth / 2 && y == spawnY - CabinHeight - 1
      ensures sprytekTileX == spawnX - 1 && sprytekTileY == spawnY + 1
      ensures wallRects == WallRects(x, y, tileSize)
    {
      this.tileSize := tileSize;
      x := spawnX - CabinWidth / 2;
      y := spawnY - CabinHeight - 1;
      sprytekTileX := spawnX - 1;
      sprytekTileY := spawnY + 1;
      new;
      wallRects := BuildWallCollisions();
    }

    /** `_build_wall_collisions`: the nested loop over the layout. */
    method BuildWallCollisions() returns (rects: seq<Rect>)
      ensures rects == WallRects(x, y, tileSize)
    {
      LayoutKinds();
      rects := [];
      var r := 0;
      while r < |Layout|
        invariant 0 <= r <= |Layout|
        invariant rects == RectsUpTo(r, x, y, tileSize)
      {
        var c := 0;
        while c < |Layout[r]|
          invariant 0 <= c <= |Layout[r]| == CabinWidth
          invariant rects == RectsUpTo(r, x, y, tileSize) + RowRects(r, c, x, y, tileSize)
        {
          if Layout[r][c] == Wall || Layout[r][c] == Roof {
            rects := rects + [Rect((x + c) * tileSize, (y + r) * tileSize, tileSize, tileSize)];
          }
          c := c + 1;
        }
        r := r + 1;
      }
    }

    /** `check_collision`: whether the query overlaps some wall rectangle. */
    method CheckCollision(q: Rect) returns (hit: bool)
      ensures hit <==> CollidesAny(q, wallRects)
    {
      var i := 0;
      while i < |wallRects|
        invariant 0 <= i <= |wallRects|
        invariant forall k :: 0 <= k < i ==> !Collide(q, wallRects[k])
      {
        if Collide(q, wallRects[i]) {
          return true;
        }
        i := i + 1;
      }
      return false;
    }

    /** `get_sprytek_position`: the top-left pixel of the Sprytek tile. */
    function GetSprytekPosition(): (p: Cell)
      ensures tileSize > 0 ==> p.0 / tileSize == sprytekTileX && p.0 % tileSize == 0
      ensures tileSize > 0 ==> p.1 / tileSize == sprytekTileY && p.1 % tileSize == 0
    {
      if tileSize > 0 then
        DivUnique(sprytekTileX, 0, tileSize);
        DivUnique(sprytekTileY, 0, tileSize);
        (sprytekTileX * tileSize, sprytekTileY * tileSize)
      else (sprytekTileX * tileSize, sprytekTileY * tileSize)
    }

    /** `get_bounds`: the tile box cleared of trees around the cabin. */
    function GetBounds(): (b: (int, int, int, int))
      ensures forall t: Cell :: x <= t.0 < x + CabinWidth && y <= t.1 < y + CabinHeight ==> InBounds(b, t)
      ensures InBounds(b, (x + CabinWidth / 2, y + CabinHeight + 1))
      ensures sprytekTileX == x + 2 && sprytekTileY == y + CabinHeight + 2 ==> InBounds(b, (sprytekTileX, sprytekTileY))
      ensures !InBounds(b, (x - 2, y)) && !InBounds(b, (x + CabinWidth + 2, y)) && !InBounds(b, (x, y - 2)) && !InBounds(b, (x, y + CabinHeight + 3))
    {
      Bounds(x, y)
    }
  }
}
