/**
 * The earlier enemies: 50 x 50 rectangles that wander along path tiles
 * only, turning at random intervals in a random direction, placed by a
 * manager on path tiles away from spawn.
 */
module LegacyEnemy {
  import opened Wrappers
  import opened Geometry
  import opened Tiles
  import opened Draws
  import opened Arith
  import opened Enemy

  /** The rectangle is the full 50 x 50 sprite. */
  const LegacySize: nat := 50
  /** `speed = 2` pixels per update; the direction probe moves `speed * 2`. */
  const LegacySpeed: int := 2
  const LegacyProbe: int := 4
  /** Spawns lie more than 15 tiles from the player's spawn, squared. */
  const LegacySpawnDistance2: nat := 225

  /** `_can_move_to`: the four corner pixels (right and bottom edges exclusive) lie on path tiles. */
  predicate PathCorners(m: MapData, ts: int, r: Rect)
    requires Rectangular(m) && ts > 0
  {
    IsPath(m, r.x / ts, r.y / ts) && IsPath(m, (r.Right() - 1) / ts, r.y / ts) &&
    IsPath(m, r.x / ts, (r.Bottom() - 1) / ts) && IsPath(m, (r.Right() - 1) / ts, (r.Bottom() - 1) / ts)
  }

  /** `_choose_new_direction`'s scan: the first direction whose 4-pixel probe stays on path, else `current`. */
  function LegacyFirstOpen(m: MapData, ts: int, r: Rect, dirs: seq<Dir>, current: Dir, i: nat): (d: Dir)
    requires Rectangular(m) && ts > 0 && i <= |dirs|
    ensures d == current || exists j :: i <= j < |dirs| && d == dirs[j] && PathCorners(m, ts, Shift(r, d, LegacyProbe))
    ensures (exists j :: i <= j < |dirs| && PathCorners(m, ts, Shift(r, dirs[j], LegacyProbe))) ==> PathCorners(m, ts, Shift(r, d, LegacyProbe))
    decreases |dirs| - i
  {
    if i == |dirs| then current
    else if PathCorners(m, ts, Shift(r, dirs[i], LegacyProbe)) then dirs[i]
    else LegacyFirstOpen(m, ts, r, dirs, current, i + 1)
  }

  /** Everything `update` reads or writes on one earlier enemy. */
  datatype LegacyState = LegacyState(x: int, y: int, rect: Rect, direction: Dir, dirTimer: int, interval: int)

  /** `x` and `y` mirror the rectangle, which keeps its 50 x 50 size. */
  predicate LegacyValid(s: LegacyState) {
    s.x == s.rect.x && s.y == s.rect.y && s.rect.w == LegacySize && s.rect.h == LegacySize
  }

  /** The rectangle of an enemy spawned on tile `(tx, ty)`. */
  function SpawnRect(tx: int, ty: int, ts: int): Rect {
    Rect(tx * ts, ty * ts, LegacySize, LegacySize)
  }

  /** A freshly constructed enemy: `random.choice` direction and `randint(60, 180)` interval from the draws. */
  function LegacySpawned(tx: int, ty: int, ts: int, dirDraw: nat, intervalDraw: nat): (s: LegacyState)
    ensures LegacyValid(s) && s.rect == SpawnRect(tx, ty, ts) && s.dirTimer == 0 && 60 <= s.interval <= 180
  {
    LegacyState(tx * ts, ty * ts, SpawnRect(tx, ty, ts), Choice(Directions, dirDraw), 0, RandInt(60, 180, intervalDraw))
  }

  /** The draws one `update` may consume: `randint(30, 120)` and `random.choice` of the directions. */
  datatype LegacyInputs = LegacyInputs(intervalDraw: nat, dirDraw: nat)

  /** The turn of `update`: once the counter reaches the interval, reset it and draw interval and direction blindly. */
  function LegacyTurned(s: LegacyState, inp: LegacyInputs): (t: LegacyState)
    ensures s.dirTimer + 1 >= s.interval ==> t.dirTimer == 0 && 30 <= t.interval <= 120 && t.direction == Choice(Directions, inp.dirDraw)
    ensures s.dirTimer + 1 < s.interval ==> t.dirTimer == s.dirTimer + 1 && t.interval == s.interval && t.direction == s.direction
    ensures t.rect == s.rect && t.x == s.x && t.y == s.y
  {
    if s.dirTimer + 1 >= s.interval then
      s.(dirTimer := 0, interval := RandInt(30, 120, inp.intervalDraw), direction := Choice(Directions, inp.dirDraw))
    else s.(dirTimer := s.dirTimer + 1)
  }

  /**
   * One call of `update()`: the counter resets and the interval and
   * direction are redrawn when due, otherwise the counter counts up; then
   * the rectangle moves 2 pixels in the (new) direction exactly when all
   * four corners of the moved rectangle lie on path, and stays otherwise.
   */
  function LegacyStep(s: LegacyState, m: MapData, ts: int, inp: LegacyInputs): (t: LegacyState)
    requires Rectangular(m) && ts > 0
    ensures s.dirTimer + 1 >= s.interval ==> t.dirTimer == 0 && 30 <= t.interval <= 120 && t.direction == Choice(Directions, inp.dirDraw)
    ensures s.dirTimer + 1 < s.interval ==> t.dirTimer == s.dirTimer + 1 && t.interval == s.interval && t.direction == s.direction
    ensures PathCorners(m, ts, Shift(s.rect, t.direction, LegacySpeed)) ==>
      t.rect == Shift(s.rect, t.direction, LegacySpeed) && t.x == t.rect.x && t.y == t.rect.y
    ensures !PathCorners(m, ts, Shift(s.rect, t.direction, LegacySpeed)) ==> t.rect == s.rect && t.x == s.x && t.y == s.y
    ensures t.rect == s.rect || PathCorners(m, ts, t.rect)
    ensures LegacyValid(s) ==> LegacyValid(t)
  {
    var u := LegacyTurned(s, inp);
    var next := Shift(s.rect, u.direction, LegacySpeed);
    if PathCorners(m, ts, next) then u.(rect := next, x := next.x, y := next.y) else u
  }

  /** The state after the updates with inputs `inputs`, in order. */
  function Run(s: LegacyState, m: MapData, ts: int, inputs: seq<LegacyInputs>): LegacyState
    requires Rectangular(m) && ts > 0
    decreases |inputs|
  {
    if inputs == [] then s else Run(LegacyStep(s, m, ts, inputs[0]), m, ts, inputs[1..])
  }

  /** A path tile no smaller than the sprite holds the whole spawn rectangle. */
  lemma SpawnOnPath(m: MapData, ts: int, tx: int, ty: int)
    requires Rectangular(m) && ts >= LegacySize && IsPath(m, tx, ty)
    ensures PathCorners(m, ts, SpawnRect(tx, ty, ts))
  {
    DivUnique(tx, 0, ts);
    DivUnique(ty, 0, ts);
    DivUnique(tx, LegacySize - 1, ts);
    DivUnique(ty, LegacySize - 1, ts);
  }

  /** Over any sequence of updates an enemy that starts on path keeps all four corners on path. */
  lemma {:induction false} RunStaysOnPath(s: LegacyState, m: MapData, ts: int, inputs: seq<LegacyInputs>)
    requires Rectangular(m) && ts > 0 && PathCorners(m, ts, s.rect) && LegacyValid(s)
    ensures PathCorners(m, ts, Run(s, m, ts, inputs).rect) && LegacyValid(Run(s, m, ts, inputs))
    decreases |inputs|
  {
    if inputs != [] {
      RunStaysOnPath(LegacyStep(s, m, ts, inputs[0]), m, ts, inputs[1..]);
    }
  }

  /** An enemy spawned on a path tile of a map with tiles no smaller than 50 pixels never has a corner off path. */
  lemma SpawnedStaysOnPath(m: MapData, ts: int, tx: int, ty: int, dirDraw: nat, intervalDraw: nat, inputs: seq<LegacyInputs>)
    requires Rectangular(m) && ts >= LegacySize && IsPath(m, tx, ty)
    ensures PathCorners(m, ts, Run(LegacySpawned(tx, ty, ts, dirDraw, intervalDraw), m, ts, inputs).rect)
  {
    SpawnOnPath(m, ts, tx, ty);
    RunStaysOnPath(LegacySpawned(tx, ty, ts, dirDraw, intervalDraw), m, ts, inputs);
  }

  /** One earlier enemy. */
  class LegacyEnemy {
    const tileSize: int
    const mapData: MapData
    var x: int
    var y: int
    var rect: Rect
    var direction: Dir
    var changeDirectionTimer: int
    var changeDirectionInterval: int

    function State(): LegacyState
      reads this
    {
      LegacyState(x, y, rect, direction, changeDirectionTimer, changeDirectionInterval)
    }

    predicate Valid()
      reads this
    {
      LegacyValid(State())
    }

    /** An enemy on tile `(tx, ty)` with the draws for its direction and first interval. */
    constructor (tx: int, ty: int, tileSize: int, mapData: MapData, dirDraw: nat, intervalDraw: nat)
      ensures this.tileSize == tileSize && this.mapData == mapData
      ensures State() == LegacySpawned(tx, ty, tileSize, dirDraw, intervalDraw)
      ensures Valid()
    {
      this.tileSize := tileSize;
      this.mapData := mapData;
      x := tx * tileSize;
      y := ty * tileSize;
      rect := Rect(x, y, LegacySize, LegacySize);
      direction := Choice(Directions, dirDraw);
      changeDirectionTimer := 0;
      changeDirectionInterval := RandInt(60, 180, intervalDraw);
    }

    /** `check_collision`: the rectangle and the player's overlap with positive area, whichever is taken first. */
    function CheckCollision(q: Rect): (hit: bool)
      reads this
      ensures hit <==> Collide(q, rect)
    {
      Collide(rect, q)
    }

    /** `_can_move_to`: the corner loop returns false at the first corner off path. */
    method CanMove(r: Rect) returns (ok: bool)
      requires Rectangular(mapData) && tileSize > 0
      ensures ok == PathCorners(mapData, tileSize, r)
    {
      var corners := [(r.x, r.y), (r.Right() - 1, r.y), (r.x, r.Bottom() - 1), (r.Right() - 1, r.Bottom() - 1)];
      var i := 0;
      while i < |corners|
        invariant 0 <= i <= |corners|
        invariant forall k :: 0 <= k < i ==> IsPath(mapData, corners[k].0 / tileSize, corners[k].1 / tileSize)
      {
        var tx, ty := corners[i].0 / tileSize, corners[i].1 / tileSize;
        if !(0 <= ty < |mapData| && 0 <= tx < Width(mapData) && mapData[ty][tx] == Path) {
          return false;
        }
        i := i + 1;
      }
      assert IsPath(mapData, corners[0].0 / tileSize, corners[0].1 / tileSize) && IsPath(mapData, corners[1].0 / tileSize, corners[1].1 / tileSize);
      assert IsPath(mapData, corners[2].0 / tileSize, corners[2].1 / tileSize) && IsPath(mapData, corners[3].0 / tileSize, corners[3].1 / tileSize);
      return true;
    }

    /**
     * `_choose_new_direction`, given `dirs`, the four directions after its
     * `random.shuffle`: the first whose 4-pixel probe stays on path.
     * `update` does not call it.
     */
    method ChooseNewDirection(dirs: seq<Dir>) returns (d: Dir)
      requires Rectangular(mapData) && tileSize > 0
      ensures d == LegacyFirstOpen(mapData, tileSize, rect, dirs, direction, 0)
    {
      var i := 0;
      while i < |dirs|
        invariant 0 <= i <= |dirs|
        invariant LegacyFirstOpen(mapData, tileSize, rect, dirs, direction, i) == LegacyFirstOpen(mapData, tileSize, rect, dirs, direction, 0)
      {
        var ok := CanMove(Shift(rect, dirs[i], LegacyProbe));
        if ok {
          return dirs[i];
        }
        i := i + 1;
      }
      return direction;
    }

    /** `update`: count, turn blindly when due, and step 2 pixels when the corners stay on path. */
    method Update(inp: LegacyInputs)
      requires Rectangular(mapData) && tileSize > 0
      modifies this
      ensures State() == LegacyStep(old(State()), mapData, tileSize, inp)
    {
      changeDirectionTimer := changeDirectionTimer + 1;
      if changeDirectionTimer >= changeDirectionInterval {
        changeDirectionTimer := 0;
        changeDirectionInterval := RandInt(30, 120, inp.intervalDraw);
        direction := Choice(Directions, inp.dirDraw);
      }
      var next := Shift(rect, direction, LegacySpeed);
      var ok := CanMove(next);
      if ok {
        rect := next;
        x := rect.x;
        y := rect.y;
      }
    }
  }

  /** All earlier enemies of a level. */
  class LegacyEnemyManager {
    const tileSize: int
    const mapData: MapData
    var enemies: seq<LegacyEnemy>

    /** The enemies are distinct objects, each consistent and on the manager's map. */
    predicate Valid()
      reads this, enemies
    {
      (forall i, j :: 0 <= i < j < |enemies| ==> enemies[i] != enemies[j]) &&
      (forall i :: 0 <= i < |enemies| ==> enemies[i].Valid() && enemies[i].mapData == mapData && enemies[i].tileSize == tileSize)
    }

    /** `enemies[i]` stands where its construction from `positions[i]` with the `i`-th draws put it. */
    predicate SpawnedAt(positions: seq<Cell>, dirDraws: nat -> nat, intervalDraws: nat -> nat)
      reads this, enemies
    {
      |enemies| == |positions| &&
      forall i :: 0 <= i < |enemies| ==> enemies[i].State() == LegacySpawned(positions[i].0, positions[i].1, tileSize, dirDraws(i), intervalDraws(i))
    }

    /** The manager: spawn positions searched with the shuffle draws, then one enemy per position. */
    constructor (tileSize: int, mapData: MapData, spawn: Cell, numEnemies: int, shuffleDraw: nat -> nat, dirDraws: nat -> nat, intervalDraws: nat -> nat)
      ensures this.tileSize == tileSize && this.mapData == mapData
      ensures Valid()
      ensures SpawnedAt(SpawnPositions(mapData, spawn, LegacySpawnDistance2, numEnemies, shuffleDraw), dirDraws, intervalDraws)
    {
      this.tileSize := tileSize;
      this.mapData := mapData;
      enemies := [];
      new;
      var positions := FindSpawnPositions(spawn, numEnemies, shuffleDraw);
      CreateEnemies(positions, dirDraws, intervalDraws);
    }

    /** The creation loop: one fresh enemy per position. */
    method CreateEnemies(positions: seq<Cell>, dirDraws: nat -> nat, intervalDraws: nat -> nat)
      requires enemies == []
      modifies this`enemies
      ensures Valid() && SpawnedAt(positions, dirDraws, intervalDraws)
      ensures forall i :: 0 <= i < |enemies| ==> fresh(enemies[i])
    {
      var i := 0;
      while i < |positions|
        invariant 0 <= i <= |positions| && |enemies| == i
        invariant Valid()
        invariant forall k :: 0 <= k < i ==> fresh(enemies[k])
        invariant forall k :: 0 <= k < i ==>
          enemies[k].State() == LegacySpawned(positions[k].0, positions[k].1, tileSize, dirDraws(k), intervalDraws(k))
      {
        var e := new LegacyEnemy(positions[i].0, positions[i].1, tileSize, mapData, dirDraws(i), intervalDraws(i));
        enemies := enemies + [e];
        i := i + 1;
      }
    }

    /** The scan of `_find_spawn_positions`: path tiles farther than 15 tiles from spawn, row by row. */
    method PathPositions(spawn: Cell) returns (valid: seq<Cell>)
      ensures valid == SpawnCandidates(mapData, spawn, LegacySpawnDistance2)
    {
      valid := [];
      var y := 0;
      while y < |mapData|
        invariant 0 <= y <= |mapData|
        invariant valid == CandidatesUpTo(mapData, spawn, LegacySpawnDistance2, y)
      {
        var row := [];
        var x := 0;
        while x < |mapData[y]|
          invariant 0 <= x <= |mapData[y]|
          invariant row == RowCandidates(mapData, spawn, LegacySpawnDistance2, y, x)
        {
          if mapData[y][x] == Path && Dist2((x, y), spawn) > LegacySpawnDistance2 {
            row := row + [(x, y)];
          }
          x := x + 1;
        }
        valid := valid + row;
        y := y + 1;
      }
    }

    /** `_find_spawn_positions`: shuffle with the draws, then keep positions 8 tiles apart up to the count. */
    method FindSpawnPositions(spawn: Cell, num: int, draw: nat -> nat) returns (selected: seq<Cell>)
      ensures selected == SpawnPositions(mapData, spawn, LegacySpawnDistance2, num, draw)
    {
      var valid := PathPositions(spawn);
      var shuffled := Shuffle(valid, draw);
      selected := [];
      var i := 0;
      while i < |shuffled|
        invariant 0 <= i <= |shuffled|
        invariant selected == Spread(shuffled[..i], num)
      {
        if |selected| >= num {
          SpreadStalls(shuffled, num, i);
          return;
        }
        SpreadPrefix(shuffled, num, i);
        var close := TooClose(shuffled[i], selected);
        if !close {
          selected := selected + [shuffled[i]];
        }
        i := i + 1;
      }
      assert shuffled[..i] == shuffled;
    }

    /** The `too_close` loop: some kept position is nearer than 8 tiles. */
    method TooClose(pos: Cell, selected: seq<Cell>) returns (close: bool)
      ensures close <==> !FarFromAll(pos, selected)
    {
      var i := 0;
      while i < |selected|
        invariant 0 <= i <= |selected|
        invariant forall k :: 0 <= k < i ==> Dist2(pos, selected[k]) >= EnemySpacing2
      {
        if Dist2(pos, selected[i]) < EnemySpacing2 {
          return true;
        }
        i := i + 1;
      }
      return false;
    }

    /** `update`: every enemy steps, enemy `i` with the draws `inputs(i)`. */
    method Update(inputs: nat -> LegacyInputs)
      requires Valid() && Rectangular(mapData) && tileSize > 0
      modifies set e | e in enemies
      ensures Valid()
      ensures forall i :: 0 <= i < |enemies| ==> enemies[i].State() == LegacyStep(old(enemies[i].State()), mapData, tileSize, inputs(i))
    {
      var i := 0;
      while i < |enemies|
        invariant 0 <= i <= |enemies|
        invariant Valid()
        invariant forall k :: 0 <= k < i ==> enemies[k].State() == LegacyStep(old(enemies[k].State()), mapData, tileSize, inputs(k))
        invariant forall k :: i <= k < |enemies| ==> enemies[k].State() == old(enemies[k].State())
      {
        enemies[i].Update(inputs(i));
        i := i + 1;
      }
    }

    /** `check_player_collision`: whether any enemy rectangle overlaps the player's. */
    method CheckPlayerCollision(q: Rect) returns (hit: bool)
      ensures hit <==> exists i :: 0 <= i < |enemies| && Collide(enemies[i].rect, q)
    {
      var i := 0;
      while i < |enemies|
        invariant 0 <= i <= |enemies|
        invariant forall k :: 0 <= k < i ==> !Collide(enemies[k].rect, q)
      {
        if enemies[i].CheckCollision(q) {
          return true;
        }
        i := i + 1;
      }
      return false;
    }
  }
}
