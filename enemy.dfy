/**
 * The hostile agents of the current game: their walkability test on the
 * tile grid, the four-corner movement probe, direction choice, the chase
 * with its hysteresis and axis fallbacks, patrolling, and the manager that
 * places them on path tiles away from spawn and checks them against the
 * player. Random draws and the integer effect of fractional speeds are
 * inputs.
 */
module Enemy {
  import opened Wrappers
  import opened Geometry
  import opened Tiles
  import opened Draws
  import AssetCache

  datatype Dir = Up | Down | Left | Right

  /** The list `['up', 'down', 'left', 'right']` choices and shuffles start from. */
  const Directions: seq<Dir> := [Up, Down, Left, Right]

  /** The 80 x 80 sprite carries a 40 x 40 hitbox at offset `(80 - 40) // 2`. */
  const SpriteSize: int := 80
  const HitboxSize: nat := 40
  const HitboxOffset: int := (SpriteSize - HitboxSize) / 2
  /** Corner probes are taken 10 pixels inside the hitbox. */
  const CornerInset: int := 10
  /** The direction probe moves `speed * 2` = 3 pixels, an exact integer. */
  const ProbeStep: int := 3
  /** `chase_distance = 150` and `lose_distance = 350`, squared. */
  const ChaseDistance2: nat := 22500
  const LoseDistance2: nat := 122500
  const AnimationSpeed: int := 150
  /** Four animation frames are loaded. */
  const AnimationFrames: nat := 4
  /** Spawns lie more than 25 tiles from the player's spawn and at least 8 tiles from each other, squared. */
  const SpawnDistance2: nat := 625
  const EnemySpacing2: nat := 64

  /** `rect.copy()` shifted by `s` pixels in direction `d`. */
  function Shift(r: Rect, d: Dir, s: int): Rect {
    match d
    case Up => r.Moved(0, -s)
    case Down => r.Moved(0, s)
    case Left => r.Moved(-s, 0)
    case Right => r.Moved(s, 0)
  }

  /** What an enemy's movement is checked against: the tile map, the tree tiles and the tile size. */
  datatype Ground = Ground(m: MapData, trees: set<Cell>, ts: int)

  /** `_is_walkable`: a tile in grid bounds without a tree; path and grass alike. */
  predicate Walkable(g: Ground, tx: int, ty: int) {
    0 <= ty < |g.m| && 0 <= tx < Width(g.m) && (tx, ty) !in g.trees
  }

  /** The four probe points, 10 pixels inside each corner of the rectangle. */
  function Corners(r: Rect): seq<Cell> {
    [(r.x + CornerInset, r.y + CornerInset), (r.Right() - CornerInset, r.y + CornerInset),
     (r.x + CornerInset, r.Bottom() - CornerInset), (r.Right() - CornerInset, r.Bottom() - CornerInset)]
  }

  /** The tile under pixel `p` is walkable. */
  predicate PointWalkable(g: Ground, p: Cell)
    requires g.ts > 0
  {
    Walkable(g, p.0 / g.ts, p.1 / g.ts)
  }

  /** `_can_move_to`: every probe point lies on a walkable tile. */
  predicate CanMoveTo(g: Ground, r: Rect)
    requires g.ts > 0
  {
    var c := Corners(r);
    PointWalkable(g, c[0]) && PointWalkable(g, c[1]) && PointWalkable(g, c[2]) && PointWalkable(g, c[3])
  }

  /** Walkability does not look at the terrain: any map of the same shape with the same trees agrees. */
  lemma WalkableIgnoresTerrain(g: Ground, m': MapData, tx: int, ty: int)
    requires |m'| == |g.m| && Width(m') == Width(g.m)
    ensures Walkable(g, tx, ty) <==> Walkable(Ground(m', g.trees, g.ts), tx, ty)
  {
  }

  /** The 3-pixel probe in direction `d` is clear. */
  predicate Open(g: Ground, r: Rect, d: Dir)
    requires g.ts > 0
  {
    CanMoveTo(g, Shift(r, d, ProbeStep))
  }

  /** The scan of `dirs` from position `i`: the first open direction, or `current` when none is. */
  function FirstOpenFrom(g: Ground, r: Rect, dirs: seq<Dir>, current: Dir, i: nat): (d: Dir)
    requires g.ts > 0 && i <= |dirs|
    ensures d == current || exists j :: i <= j < |dirs| && d == dirs[j] && Open(g, r, d)
    ensures (exists j :: i <= j < |dirs| && Open(g, r, dirs[j])) ==> Open(g, r, d)
    decreases |dirs| - i
  {
    if i == |dirs| then current
    else if Open(g, r, dirs[i]) then dirs[i]
    else FirstOpenFrom(g, r, dirs, current, i + 1)
  }

  /**
   * The loop of `_choose_new_direction` over the shuffled list: the first
   * direction whose 3-pixel probe is clear, or `current` when none is.
   */
  function FirstOpen(g: Ground, r: Rect, dirs: seq<Dir>, current: Dir): (d: Dir)
    requires g.ts > 0
    ensures d == current || (d in dirs && Open(g, r, d))
    ensures (exists i :: 0 <= i < |dirs| && Open(g, r, dirs[i])) ==> Open(g, r, d)
    ensures (forall i :: 0 <= i < |dirs| ==> !Open(g, r, dirs[i])) ==> d == current
  {
    FirstOpenFrom(g, r, dirs, current, 0)
  }

  /**
   * The facing `_get_movement_towards` sets for the offset `(dx, dy)`:
   * horizontal when the horizontal offset is strictly larger, towards the
   * offset's sign, with `up` for a zero vertical offset.
   */
  function Facing(dx: int, dy: int): (d: Dir)
    ensures (d == Left || d == Right) <==> Abs(dx) > Abs(dy)
    ensures d == Right ==> dx > 0
    ensures d == Left ==> dx <= 0
    ensures d == Down ==> dy > 0
    ensures d == Up ==> dy <= 0
  {
    if Abs(dx) > Abs(dy) then (if dx > 0 then Right else Left)
    else (if dy > 0 then Down else Up)
  }

  /**
   * The chase step: the full move if clear, else the horizontal part, else
   * the vertical part, else no move. Whatever is accepted is clear.
   */
  function ChaseMove(g: Ground, r: Rect, mx: int, my: int): (q: Rect)
    requires g.ts > 0
    ensures q == r || CanMoveTo(g, q)
    ensures q in [r.Moved(mx, my), r.Moved(mx, 0), r.Moved(0, my), r]
    ensures CanMoveTo(g, r.Moved(mx, my)) ==> q == r.Moved(mx, my)
    ensures q == r ==> !CanMoveTo(g, r.Moved(mx, my)) || (mx == 0 && my == 0)
  {
    if CanMoveTo(g, r.Moved(mx, my)) then r.Moved(mx, my)
    else if CanMoveTo(g, r.Moved(mx, 0)) then r.Moved(mx, 0)
    else if CanMoveTo(g, r.Moved(0, my)) then r.Moved(0, my)
    else r
  }

  /** `if player_rect:` — a pygame rectangle is true only when it has area. */
  predicate Present(player: Option<Rect>) {
    player.Some? && player.value.w > 0 && player.value.h > 0
  }

  /** Squared distance between the centres of two rectangles. */
  function CentreDist2(a: Rect, b: Rect): nat {
    Dist2((a.CenterX(), a.CenterY()), (b.CenterX(), b.CenterY()))
  }

  /**
   * The chase flag after one update: set nearer than 150 pixels, cleared
   * farther than 350, otherwise (and with no player) unchanged.
   */
  function NextChasing(chasing: bool, player: Option<Rect>, r: Rect): (c: bool)
    ensures Present(player) && CentreDist2(player.value, r) < ChaseDistance2 ==> c
    ensures Present(player) && CentreDist2(player.value, r) > LoseDistance2 ==> !c
    ensures !Present(player) ==> c == chasing
    ensures Present(player) && ChaseDistance2 <= CentreDist2(player.value, r) <= LoseDistance2 ==> c == chasing
  {
    if !Present(player) then chasing
    else
      var d2 := CentreDist2(player.value, r);
      if d2 < ChaseDistance2 then true else if d2 > LoseDistance2 then false else chasing
  }

  // ---------------------------------------------------------------------------
  // Spawn selection
  // ---------------------------------------------------------------------------

  /** The tile lies in row `y` of the map, whose own length bounds `x`. */
  predicate InGrid(m: MapData, x: int, y: int) {
    0 <= y < |m| && 0 <= x < |m[y]|
  }

  /** A path tile farther from spawn than `sqrt(min2)`. */
  predicate SpawnOk(m: MapData, spawn: Cell, min2: nat, x: int, y: int)
    requires InGrid(m, x, y)
  {
    m[y][x] == Path && Dist2((x, y), spawn) > min2
  }

  function RowCandidates(m: MapData, spawn: Cell, min2: nat, y: int, n: nat): seq<Cell>
    requires 0 <= y < |m| && n <= |m[y]|
  {
    if n == 0 then []
    else RowCandidates(m, spawn, min2, y, n - 1) + (if SpawnOk(m, spawn, min2, n - 1, y) then [(n - 1, y)] else [])
  }

  function CandidatesUpTo(m: MapData, spawn: Cell, min2: nat, rows: nat): seq<Cell>
    requires rows <= |m|
  {
    if rows == 0 then [] else CandidatesUpTo(m, spawn, min2, rows - 1) + RowCandidates(m, spawn, min2, rows - 1, |m[rows - 1]|)
  }

  /** The `valid_positions` list of `_find_spawn_positions`, in row-major order. */
  function SpawnCandidates(m: MapData, spawn: Cell, min2: nat): seq<Cell> {
    CandidatesUpTo(m, spawn, min2, |m|)
  }

  lemma {:induction false} RowCandidatesMembers(m: MapData, spawn: Cell, min2: nat, y: int, n: nat)
    requires 0 <= y < |m| && n <= |m[y]|
    ensures forall c :: c in RowCandidates(m, spawn, min2, y, n) <==> c.1 == y && 0 <= c.0 < n && SpawnOk(m, spawn, min2, c.0, c.1)
  {
    if n > 0 {
      RowCandidatesMembers(m, spawn, min2, y, n - 1);
    }
  }

  lemma {:induction false} CandidatesUpToMembers(m: MapData, spawn: Cell, min2: nat, rows: nat)
    requires rows <= |m|
    ensures forall c :: c in CandidatesUpTo(m, spawn, min2, rows) <==> 0 <= c.1 < rows && InGrid(m, c.0, c.1) && SpawnOk(m, spawn, min2, c.0, c.1)
  {
    if rows > 0 {
      CandidatesUpToMembers(m, spawn, min2, rows - 1);
      RowCandidatesMembers(m, spawn, min2, rows - 1, |m[rows - 1]|);
      var front := CandidatesUpTo(m, spawn, min2, rows - 1);
      var row := RowCandidates(m, spawn, min2, rows - 1, |m[rows - 1]|);
      forall c: Cell ensures c in front + row <==> 0 <= c.1 < rows && InGrid(m, c.0, c.1) && SpawnOk(m, spawn, min2, c.0, c.1) {
        assert c in front + row <==> c in front || c in row;
      }
    }
  }

  /** The candidates are exactly the path tiles farther than `sqrt(min2)` from spawn. */
  lemma SpawnCandidatesMembers(m: MapData, spawn: Cell, min2: nat)
    ensures forall c :: c in SpawnCandidates(m, spawn, min2) <==> InGrid(m, c.0, c.1) && SpawnOk(m, spawn, min2, c.0, c.1)
  {
    CandidatesUpToMembers(m, spawn, min2, |m|);
  }

  /** Not `too_close`: no chosen position is nearer than 8 tiles. */
  predicate FarFromAll(pos: Cell, others: seq<Cell>) {
    forall i :: 0 <= i < |others| ==> Dist2(pos, others[i]) >= EnemySpacing2
  }

  /** The greedy pass over the shuffled candidates: keep a position when fewer than `num` are kept and it is far from all of them. */
  function Spread(s: seq<Cell>, num: int): seq<Cell> {
    if s == [] then []
    else
      var p := Spread(s[..|s| - 1], num);
      if |p| >= num then p else if FarFromAll(s[|s| - 1], p) then p + [s[|s| - 1]] else p
  }

  /** `idx` lists, in increasing order, where each element of `a` sits in `b`. */
  predicate Embeds<T(==)>(a: seq<T>, b: seq<T>, idx: seq<nat>) {
    |idx| == |a| &&
    (forall k :: 0 <= k < |a| ==> idx[k] < |b| && a[k] == b[idx[k]]) &&
    (forall k, l :: 0 <= k < l < |a| ==> idx[k] < idx[l])
  }

  /**
   * The kept positions are a subsequence of the shuffled list, at most
   * `num` of them, pairwise at least 8 tiles apart.
   */
  lemma {:induction false} SpreadFacts(s: seq<Cell>, num: int) returns (idx: seq<nat>)
    ensures Embeds(Spread(s, num), s, idx)
    ensures |Spread(s, num)| <= if num < 0 then 0 else num
    ensures forall i, j :: 0 <= i < j < |Spread(s, num)| ==> Dist2(Spread(s, num)[j], Spread(s, num)[i]) >= EnemySpacing2
  {
    if s == [] {
      idx := [];
    } else {
      var front := s[..|s| - 1];
      var p := Spread(front, num);
      var pidx := SpreadFacts(front, num);
      if |p| < num && FarFromAll(s[|s| - 1], p) {
        idx := pidx + [|s| - 1];
        var r := p + [s[|s| - 1]];
        forall i, j | 0 <= i < j < |r| ensures Dist2(r[j], r[i]) >= EnemySpacing2 {
          if j == |p| {
            assert r[j] == s[|s| - 1] && r[i] == p[i];
          }
        }
      } else {
        idx := pidx;
      }
    }
  }

  /** Once `num` positions are kept the pass keeps no more: the loop's `break` changes nothing. */
  lemma {:induction false} SpreadStalls(s: seq<Cell>, num: int, i: nat)
    requires i <= |s| && |Spread(s[..i], num)| >= num
    ensures Spread(s, num) == Spread(s[..i], num)
  {
    if |s| > i {
      var front := s[..|s| - 1];
      assert front[..i] == s[..i];
      SpreadStalls(front, num, i);
    } else {
      assert s[..i] == s;
    }
  }

  /** Extending the scanned prefix by one position. */
  lemma SpreadPrefix(s: seq<Cell>, num: int, i: nat)
    requires i < |s|
    ensures Spread(s[..i + 1], num) == var p := Spread(s[..i], num);
      if |p| >= num then p else if FarFromAll(s[i], p) then p + [s[i]] else p
  {
    assert s[..i + 1][..i] == s[..i];
  }

  /** `_find_spawn_positions` for the shuffle draws `draw`. */
  function SpawnPositions(m: MapData, spawn: Cell, min2: nat, num: int, draw: nat -> nat): seq<Cell> {
    Spread(Shuffle(SpawnCandidates(m, spawn, min2), draw), num)
  }

  /**
   * Every spawn position is a path tile of the map farther than
   * `sqrt(min2)` from spawn; there are at most `num`, pairwise at least 8
   * tiles apart, and they are a subsequence of the shuffled candidates.
   */
  lemma SpawnPositionsFacts(m: MapData, spawn: Cell, min2: nat, num: int, draw: nat -> nat) returns (idx: seq<nat>)
    ensures var r := SpawnPositions(m, spawn, min2, num, draw);
      forall i :: 0 <= i < |r| ==> InGrid(m, r[i].0, r[i].1) && m[r[i].1][r[i].0] == Path && Dist2(r[i], spawn) > min2
    ensures |SpawnPositions(m, spawn, min2, num, draw)| <= if num < 0 then 0 else num
    ensures var r := SpawnPositions(m, spawn, min2, num, draw);
      forall i, j :: 0 <= i < j < |r| ==> Dist2(r[j], r[i]) >= EnemySpacing2
    ensures Embeds(SpawnPositions(m, spawn, min2, num, draw), Shuffle(SpawnCandidates(m, spawn, min2), draw), idx)
  {
    var cands := SpawnCandidates(m, spawn, min2);
    var shuffled := Shuffle(cands, draw);
    idx := SpreadFacts(shuffled, num);
    SpawnCandidatesMembers(m, spawn, min2);
    var r := Spread(shuffled, num);
    forall i | 0 <= i < |r| ensures InGrid(m, r[i].0, r[i].1) && m[r[i].1][r[i].0] == Path && Dist2(r[i], spawn) > min2 {
      ShuffleMembers(cands, draw, r[i]);
    }
  }

  // ---------------------------------------------------------------------------
  // One enemy's state and its update
  // ---------------------------------------------------------------------------

  /** Everything `update` reads or writes on one enemy. */
  datatype EnemyState = EnemyState(frame: nat, animTimer: int, x: int, y: int, rect: Rect, direction: Dir,
                                   dirTimer: int, interval: int, chasing: bool)

  /**
   * The per-update inputs the source takes from floating point and the
   * random module: the integer chase move `(move_x, move_y)` once added to
   * the rectangle, the integer patrol step of each direction (`speed`
   * = 1.5 after the rectangle's rounding), the `randint(30, 120)` draw and
   * the order `random.shuffle` leaves the four directions in.
   */
  datatype Inputs = Inputs(chase: Cell, patrol: Dir -> int, intervalDraw: nat, order: seq<Dir>)

  /** `order` is a rearrangement of the four directions, as `random.shuffle` produces. */
  predicate Permutes(order: seq<Dir>) {
    multiset(order) == multiset(Directions)
  }

  /** The sprite position trails the hitbox by the hitbox offset; the hitbox is 40 x 40. */
  predicate StateValid(s: EnemyState) {
    s.x == s.rect.x - HitboxOffset && s.y == s.rect.y - HitboxOffset &&
    s.rect.w == HitboxSize && s.rect.h == HitboxSize && s.frame < AnimationFrames
  }

  /** A freshly constructed enemy on tile `(tx, ty)`. */
  function Spawned(tx: int, ty: int, ts: int, dirDraw: nat, intervalDraw: nat): (s: EnemyState)
    ensures StateValid(s) && !s.chasing && s.dirTimer == 0 && 60 <= s.interval <= 180
    ensures s.x == tx * ts && s.y == ty * ts
  {
    EnemyState(0, 0, tx * ts, ty * ts, Rect(tx * ts + HitboxOffset, ty * ts + HitboxOffset, HitboxSize, HitboxSize),
               Choice(Directions, dirDraw), 0, RandInt(60, 180, intervalDraw), false)
  }

  /** The animation step: after 150 ms or more the timer resets and the frame advances modulo 4. */
  function Animate(frame: nat, timer: int, dt: int): (r: (nat, int))
    ensures timer + dt >= AnimationSpeed ==> r.1 == 0 && r.0 == (frame + 1) % AnimationFrames
    ensures timer + dt < AnimationSpeed ==> r == (frame, timer + dt)
    ensures frame < AnimationFrames ==> r.0 < AnimationFrames
  {
    if timer + dt >= AnimationSpeed then ((frame + 1) % AnimationFrames, 0) else (frame, timer + dt)
  }

  /** The hitbox either stayed put or moved to a clear rectangle. */
  predicate MoveOk(g: Ground, before: Rect, after: Rect)
    requires g.ts > 0
  {
    after == before || CanMoveTo(g, after)
  }

  /** Adopt `r` as the new hitbox, moving the sprite with it, or keep the old position when `r` is the old hitbox. */
  function MovedTo(s: EnemyState, moved: bool, r: Rect): EnemyState {
    if moved then s.(rect := r, x := r.x - HitboxOffset, y := r.y - HitboxOffset) else s
  }

  /** `update` in the chase mode: move towards the player with axis fallbacks and face along the larger offset. */
  function ChaseStep(s: EnemyState, g: Ground, player: Rect, inp: Inputs): (t: EnemyState)
    requires g.ts > 0
    ensures t.rect == ChaseMove(g, s.rect, inp.chase.0, inp.chase.1)
    ensures t.direction == Facing(player.CenterX() - s.rect.CenterX(), player.CenterY() - s.rect.CenterY())
    ensures t.dirTimer == s.dirTimer && t.interval == s.interval && t.chasing == s.chasing
    ensures MoveOk(g, s.rect, t.rect)
    ensures (t.frame, t.animTimer) == (s.frame, s.animTimer)
    ensures StateValid(s) ==> StateValid(t)
  {
    var r := ChaseMove(g, s.rect, inp.chase.0, inp.chase.1);
    var d := Facing(player.CenterX() - s.rect.CenterX(), player.CenterY() - s.rect.CenterY());
    var moved := CanMoveTo(g, s.rect.Moved(inp.chase.0, inp.chase.1)) || CanMoveTo(g, s.rect.Moved(inp.chase.0, 0))
      || CanMoveTo(g, s.rect.Moved(0, inp.chase.1));
    MovedTo(s, moved, r).(direction := d)
  }

  /** The redraw of the patrol mode: due once the counter reaches the interval. */
  function Turned(s: EnemyState, g: Ground, inp: Inputs, order: seq<Dir>): (t: EnemyState)
    requires g.ts > 0
    ensures s.dirTimer >= s.interval ==> t.dirTimer == 0 && 30 <= t.interval <= 120
    ensures s.dirTimer >= s.interval ==> t.direction == FirstOpen(g, s.rect, order, s.direction)
    ensures s.dirTimer < s.interval ==> t == s
    ensures t.rect == s.rect && t.x == s.x && t.y == s.y && t.chasing == s.chasing && (t.frame, t.animTimer) == (s.frame, s.animTimer)
  {
    if s.dirTimer >= s.interval then
      s.(dirTimer := 0, interval := RandInt(30, 120, inp.intervalDraw),
         direction := FirstOpen(g, s.rect, order, s.direction))
    else s
  }

  /** The patrol move: step along the direction when the way is clear. */
  function Walked(s: EnemyState, g: Ground, inp: Inputs): (t: EnemyState)
    requires g.ts > 0
    ensures var next := Shift(s.rect, s.direction, inp.patrol(s.direction));
      t.rect == (if CanMoveTo(g, next) then next else s.rect)
    ensures MoveOk(g, s.rect, t.rect)
    ensures t.direction == s.direction && t.dirTimer == s.dirTimer && t.interval == s.interval && t.chasing == s.chasing
    ensures (t.frame, t.animTimer) == (s.frame, s.animTimer)
    ensures StateValid(s) ==> StateValid(t)
  {
    var next := Shift(s.rect, s.direction, inp.patrol(s.direction));
    MovedTo(s, CanMoveTo(g, next), next)
  }

  /** `update` in the patrol mode: maybe pick a new direction and interval, then step if the way is clear. */
  function PatrolStep(s: EnemyState, g: Ground, inp: Inputs, order: seq<Dir>): (t: EnemyState)
    requires g.ts > 0
    ensures s.dirTimer >= s.interval ==> t.dirTimer == 0 && 30 <= t.interval <= 120
    ensures s.dirTimer >= s.interval ==> t.direction == FirstOpen(g, s.rect, order, s.direction)
    ensures s.dirTimer < s.interval ==> t.dirTimer == s.dirTimer && t.interval == s.interval && t.direction == s.direction
    ensures var next := Shift(s.rect, t.direction, inp.patrol(t.direction));
      t.rect == (if CanMoveTo(g, next) then next else s.rect)
    ensures t.chasing == s.chasing
    ensures MoveOk(g, s.rect, t.rect)
    ensures (t.frame, t.animTimer) == (s.frame, s.animTimer)
    ensures StateValid(s) ==> StateValid(t)
  {
    Walked(Turned(s, g, inp, order), g, inp)
  }

  /** The bookkeeping at the head of `update`: the direction counter, the animation and the chase flag. */
  function Tick(s: EnemyState, dt: int, player: Option<Rect>): (t: EnemyState)
    ensures t.dirTimer == s.dirTimer + 1 && t.chasing == NextChasing(s.chasing, player, s.rect)
    ensures (t.frame, t.animTimer) == Animate(s.frame, s.animTimer, dt)
    ensures t.rect == s.rect && t.x == s.x && t.y == s.y && t.direction == s.direction && t.interval == s.interval
    ensures StateValid(s) ==> StateValid(t)
  {
    var a := Animate(s.frame, s.animTimer, dt);
    s.(frame := a.0, animTimer := a.1, dirTimer := s.dirTimer + 1, chasing := NextChasing(s.chasing, player, s.rect))
  }

  /** One call of `update(dt, player_rect)`. */
  function Step(s: EnemyState, g: Ground, dt: int, player: Option<Rect>, inp: Inputs): (t: EnemyState)
    requires g.ts > 0
    ensures MoveOk(g, s.rect, t.rect)
    ensures StateValid(s) ==> StateValid(t)
    ensures t.chasing == NextChasing(s.chasing, player, s.rect)
    ensures (t.frame, t.animTimer) == Animate(s.frame, s.animTimer, dt)
  {
    var u := Tick(s, dt, player);
    if u.chasing && Present(player) then ChaseStep(u, g, player.value, inp) else PatrolStep(u, g, inp, inp.order)
  }

  /** A chasing enemy with a player in sight takes the chase step; the direction timer still counts. */
  lemma StepChases(s: EnemyState, g: Ground, dt: int, player: Option<Rect>, inp: Inputs)
    requires g.ts > 0 && Present(player) && NextChasing(s.chasing, player, s.rect)
    ensures Step(s, g, dt, player, inp).rect == ChaseMove(g, s.rect, inp.chase.0, inp.chase.1)
    ensures Step(s, g, dt, player, inp).dirTimer == s.dirTimer + 1
    ensures Step(s, g, dt, player, inp).interval == s.interval
  {
  }

  /**
   * Without the chase the enemy patrols: once the counter reaches the
   * interval it resets, a new interval in [30, 120] is drawn, and the new
   * direction is open whenever any direction is.
   */
  lemma StepPatrols(s: EnemyState, g: Ground, dt: int, player: Option<Rect>, inp: Inputs, open: Dir)
    requires g.ts > 0 && !(Present(player) && NextChasing(s.chasing, player, s.rect))
    ensures s.dirTimer + 1 >= s.interval ==> Step(s, g, dt, player, inp).dirTimer == 0 && 30 <= Step(s, g, dt, player, inp).interval <= 120
    ensures s.dirTimer + 1 < s.interval ==> Step(s, g, dt, player, inp).dirTimer == s.dirTimer + 1 && Step(s, g, dt, player, inp).direction == s.direction
    ensures s.dirTimer + 1 >= s.interval && Permutes(inp.order) && Open(g, s.rect, open) ==> Open(g, s.rect, Step(s, g, dt, player, inp).direction)
  {
    if s.dirTimer + 1 >= s.interval && Permutes(inp.order) && Open(g, s.rect, open) {
      assert open in multiset(Directions);
      var i :| 0 <= i < |inp.order| && inp.order[i] == open;
    }
  }

  /** One hostile agent; its map, tree tiles and tile size are fixed at construction. */
  class Enemy {
    const tileSize: int
    const mapData: MapData
    const treeTiles: set<Cell>
    var currentFrame: nat
    var animationTimer: int
    var x: int
    var y: int
    var rect: Rect
    var direction: Dir
    var changeDirectionTimer: int
    var changeDirectionInterval: int
    var isChasing: bool

    /** What movement is checked against. */
    function World(): Ground {
      Ground(mapData, treeTiles, tileSize)
    }

    function State(): EnemyState
      reads this
    {
      EnemyState(currentFrame, animationTimer, x, y, rect, direction, changeDirectionTimer, changeDirectionInterval, isChasing)
    }

    predicate Valid()
      reads this
    {
      StateValid(State())
    }

    /**
     * An enemy on tile `(tx, ty)`: the 40 x 40 hitbox centred in the
     * 80 x 80 sprite, a `random.choice` direction and a
     * `randint(60, 180)` interval from the draws.
     */
    constructor (tx: int, ty: int, tileSize: int, mapData: MapData, treeTiles: set<Cell>, dirDraw: nat, intervalDraw: nat)
      ensures this.tileSize == tileSize && this.mapData == mapData && this.treeTiles == treeTiles
      ensures State() == Spawned(tx, ty, tileSize, dirDraw, intervalDraw)
      ensures Valid()
    {
      this.tileSize := tileSize;
      this.mapData := mapData;
      this.treeTiles := treeTiles;
      currentFrame := 0;
      animationTimer := 0;
      x := tx * tileSize;
      y := ty * tileSize;
      rect := Rect(tx * tileSize + HitboxOffset, ty * tileSize + HitboxOffset, HitboxSize, HitboxSize);
      direction := Choice(Directions, dirDraw);
      changeDirectionTimer := 0;
      changeDirectionInterval := RandInt(60, 180, intervalDraw);
      isChasing := false;
    }

    /** `_get_current_tile`: the tile holding the hitbox centre. */
    function CurrentTile(): (c: Cell)
      requires tileSize > 0
      reads this
      ensures c.0 * tileSize <= rect.CenterX() < c.0 * tileSize + tileSize
      ensures c.1 * tileSize <= rect.CenterY() < c.1 * tileSize + tileSize
    {
      (rect.CenterX() / tileSize, rect.CenterY() / tileSize)
    }

    /** `check_collision`: the hitbox and the player's rectangle overlap with positive area, whichever is taken first. */
    function CheckCollision(q: Rect): (hit: bool)
      reads this
      ensures hit <==> Collide(q, rect)
    {
      Collide(rect, q)
    }

    /** `_can_move_to`: the corner loop returns false at the first unwalkable probe. */
    method CanMove(r: Rect) returns (ok: bool)
      requires tileSize > 0
      ensures ok == CanMoveTo(World(), r)
    {
      var corners := Corners(r);
      var i := 0;
      while i < |corners|
        invariant 0 <= i <= |corners|
        invariant forall k :: 0 <= k < i ==> PointWalkable(World(), corners[k])
      {
        var p := corners[i];
        var tx, ty := p.0 / tileSize, p.1 / tileSize;
        if !(0 <= ty < |mapData| && 0 <= tx < Width(mapData) && (tx, ty) !in treeTiles) {
          return false;
        }
        i := i + 1;
      }
      return true;
    }

    /**
     * `_choose_new_direction`, given `dirs`, the four directions after its
     * `random.shuffle`: probe them in order.
     */
    method ChooseNewDirection(dirs: seq<Dir>) returns (d: Dir)
      requires tileSize > 0
      ensures d == FirstOpen(World(), rect, dirs, direction)
    {
      var i := 0;
      while i < |dirs|
        invariant 0 <= i <= |dirs|
        invariant FirstOpenFrom(World(), rect, dirs, direction, i) == FirstOpen(World(), rect, dirs, direction)
      {
        var ok := CanMove(Shift(rect, dirs[i], ProbeStep));
        if ok {
          return dirs[i];
        }
        i := i + 1;
      }
      return direction;
    }

    /** Adopt the rectangle `r` as hitbox and move the sprite with it. */
    method MoveTo(r: Rect)
      modifies this`rect, this`x, this`y
      ensures rect == r && x == r.x - HitboxOffset && y == r.y - HitboxOffset
    {
      rect := r;
      x := rect.x - HitboxOffset;
      y := rect.y - HitboxOffset;
    }

    /** `update`: counters and animation, the chase flag, then a chase or patrol move. */
    method Update(dt: int, player: Option<Rect>, inp: Inputs)
      requires tileSize > 0
      modifies this
      ensures State() == Step(old(State()), World(), dt, player, inp)
    {
      changeDirectionTimer := changeDirectionTimer + 1;
      animationTimer := animationTimer + dt;
      if animationTimer >= AnimationSpeed {
        animationTimer := 0;
        currentFrame := (currentFrame + 1) % AnimationFrames;
      }
      if Present(player) {
        var d2 := CentreDist2(player.value, rect);
        if d2 < ChaseDistance2 {
          isChasing := true;
        } else if d2 > LoseDistance2 {
          isChasing := false;
        }
      }
      assert State() == Tick(old(State()), dt, player);
      if isChasing && Present(player) {
        Chase(player.value, inp);
      } else {
        Patrol(inp, inp.order);
      }
    }

    /** The chase branch of `update`: face the player, then the full, horizontal or vertical move that is clear. */
    method Chase(target: Rect, inp: Inputs)
      requires tileSize > 0
      modifies this`direction, this`rect, this`x, this`y
      ensures State() == ChaseStep(old(State()), World(), target, inp)
    {
      var mx, my := inp.chase.0, inp.chase.1;
      var full, alongX, alongY := rect.Moved(mx, my), rect.Moved(mx, 0), rect.Moved(0, my);
      direction := Facing(target.CenterX() - rect.CenterX(), target.CenterY() - rect.CenterY());
      var ok := CanMove(full);
      if ok {
        MoveTo(full);
      } else {
        ok := CanMove(alongX);
        if ok {
          MoveTo(alongX);
        } else {
          ok := CanMove(alongY);
          if ok {
            MoveTo(alongY);
          }
        }
      }
    }

    /** The patrol branch of `update`: redraw interval and direction when due, then step if clear. */
    method Patrol(inp: Inputs, order: seq<Dir>)
      requires tileSize > 0
      modifies this`direction, this`rect, this`x, this`y, this`changeDirectionTimer, this`changeDirectionInterval
      ensures State() == PatrolStep(old(State()), World(), inp, order)
    {
      ghost var s0 := State();
      if changeDirectionTimer >= changeDirectionInterval {
        var d := ChooseNewDirection(order);
        changeDirectionTimer := 0;
        changeDirectionInterval := RandInt(30, 120, inp.intervalDraw);
        direction := d;
        assert State() == s0.(dirTimer := 0, interval := RandInt(30, 120, inp.intervalDraw), direction := d);
      }
      assert State() == Turned(s0, World(), inp, order);
      var next := Shift(rect, direction, inp.patrol(direction));
      var ok := CanMove(next);
      if ok {
        MoveTo(next);
      }
    }
  }

  /** `_is_near_tree`: some tree tile lies in the square of half-width `radius` around `(x, y)`. */
  predicate NearTree(tiles: set<Cell>, x: int, y: int, radius: int) {
    exists t :: t in tiles && Abs(t.0 - x) <= radius && Abs(t.1 - y) <= radius
  }

  /** The spawn-cache key: map height, map width (0 for an empty map), spawn and enemy count. */
  function SpawnCacheKey(m: MapData, spawn: Cell, num: int): AssetCache.SpawnKey {
    (|m|, Width(m), spawn, num)
  }

  /** A non-empty cached list is reused; otherwise the positions are searched afresh. */
  function ChosenSpawns(cached: Option<seq<Cell>>, m: MapData, spawn: Cell, num: int, draw: nat -> nat): (r: seq<Cell>)
    ensures cached.Some? && cached.value != [] ==> r == cached.value
    ensures !(cached.Some? && cached.value != []) ==> r == SpawnPositions(m, spawn, SpawnDistance2, num, draw)
  {
    if cached.Some? && cached.value != [] then cached.value else SpawnPositions(m, spawn, SpawnDistance2, num, draw)
  }

  /** All enemies of a level, sharing one tree-tile set. */
  class EnemyManager {
    const tileSize: int
    const mapData: MapData
    const treePositions: seq<Tree>
    const treeTiles: set<Cell>
    var enemies: seq<Enemy>

    function World(): Ground {
      Ground(mapData, treeTiles, tileSize)
    }

    /** The enemies are distinct objects, each in a consistent state on the manager's map. */
    predicate Valid()
      reads this, enemies
    {
      (forall i, j :: 0 <= i < j < |enemies| ==> enemies[i] != enemies[j]) &&
      (forall i :: 0 <= i < |enemies| ==> enemies[i].Valid() && enemies[i].World() == World())
    }

    /** The enemy states, in list order. */
    function States(): (r: seq<EnemyState>)
      reads this, enemies
      ensures |r| == |enemies|
    {
      seq(|enemies|, i reads this, enemies requires 0 <= i < |enemies| => enemies[i].State())
    }

    /** `enemies[i]` stands where its construction from `positions[i]` with the `i`-th draws put it. */
    predicate SpawnedAt(positions: seq<Cell>, dirDraws: nat -> nat, intervalDraws: nat -> nat)
      reads this, enemies
    {
      |enemies| == |positions| &&
      forall i :: 0 <= i < |enemies| ==> enemies[i].State() == Spawned(positions[i].0, positions[i].1, tileSize, dirDraws(i), intervalDraws(i))
    }

    /**
     * The manager: tree tiles from the tree list, spawn positions from the
     * cache when it holds a non-empty list under the key and otherwise
     * searched and stored, and one enemy per position. Enemy `i` takes
     * its direction and interval from `dirDraws(i)` and `intervalDraws(i)`.
     */
    constructor (tileSize: int, mapData: MapData, spawn: Cell, treePositions: seq<Tree>, numEnemies: int,
                 cache: AssetCache.Cache, shuffleDraw: nat -> nat, dirDraws: nat -> nat, intervalDraws: nat -> nat)
      modifies cache
      ensures this.tileSize == tileSize && this.mapData == mapData && this.treePositions == treePositions
      ensures treeTiles == TreeTiles(treePositions)
      ensures Valid()
      ensures SpawnedAt(ChosenSpawns(old(cache.GetCachedEnemySpawns(SpawnCacheKey(mapData, spawn, numEnemies))), mapData, spawn, numEnemies, shuffleDraw), dirDraws, intervalDraws)
      ensures cache.enemySpawns == if old(cache.GetCachedEnemySpawns(SpawnCacheKey(mapData, spawn, numEnemies))) .Some? &&
                                      old(cache.enemySpawns[SpawnCacheKey(mapData, spawn, numEnemies)]) != []
        then old(cache.enemySpawns)
        else old(cache.enemySpawns)[SpawnCacheKey(mapData, spawn, numEnemies) := SpawnPositions(mapData, spawn, SpawnDistance2, numEnemies, shuffleDraw)]
      ensures cache.trees == old(cache.trees)
    {
      this.tileSize := tileSize;
      this.mapData := mapData;
      this.treePositions := treePositions;
      treeTiles := TreeTiles(treePositions);
      enemies := [];
      new;
      var positions := LoadSpawns(cache, spawn, numEnemies, shuffleDraw);
      CreateEnemies(positions, dirDraws, intervalDraws);
    }

    /** The spawn half of the constructor: a non-empty cached list is taken, otherwise positions are searched and stored. */
    method LoadSpawns(cache: AssetCache.Cache, spawn: Cell, numEnemies: int, shuffleDraw: nat -> nat) returns (positions: seq<Cell>)
      modifies cache
      ensures positions == ChosenSpawns(old(cache.GetCachedEnemySpawns(SpawnCacheKey(mapData, spawn, numEnemies))), mapData, spawn, numEnemies, shuffleDraw)
      ensures cache.enemySpawns == if old(cache.GetCachedEnemySpawns(SpawnCacheKey(mapData, spawn, numEnemies))) .Some? &&
                                      old(cache.enemySpawns[SpawnCacheKey(mapData, spawn, numEnemies)]) != []
        then old(cache.enemySpawns)
        else old(cache.enemySpawns)[SpawnCacheKey(mapData, spawn, numEnemies) := SpawnPositions(mapData, spawn, SpawnDistance2, numEnemies, shuffleDraw)]
      ensures cache.trees == old(cache.trees) && cache.images == old(cache.images)
    {
      var key := SpawnCacheKey(mapData, spawn, numEnemies);
      var cached := cache.GetCachedEnemySpawns(key);
      if cached.Some? && cached.value != [] {
        positions := cached.value;
      } else {
        positions := FindSpawnPositions(spawn, numEnemies, shuffleDraw);
        cache.SetCachedEnemySpawns(key, positions);
        assert cache.enemySpawns == old(cache.enemySpawns)[key := positions];
      }
    }

    /** The creation loop: one fresh enemy per position, sharing the tree tiles. */
    method CreateEnemies(positions: seq<Cell>, dirDraws: nat -> nat, intervalDraws: nat -> nat)
      requires enemies == []
      modifies this`enemies
      ensures Valid() && SpawnedAt(positions, dirDraws, intervalDraws)
      ensures forall i :: 0 <= i < |enemies| ==> fresh(enemies[i])
    {
      var i := 0;
      while i < |positions|
        invariant 0 <= i <= |positions| && |enemies| == i
        invariant Valid()
        invariant forall k :: 0 <= k < i ==> fresh(enemies[k])
        invariant forall k :: 0 <= k < i ==>
          enemies[k].State() == Spawned(positions[k].0, positions[k].1, tileSize, dirDraws(k), intervalDraws(k))
      {
        var e := new Enemy(positions[i].0, positions[i].1, tileSize, mapData, treeTiles, dirDraws(i), intervalDraws(i));
        enemies := enemies + [e];
        i := i + 1;
      }
    }

    /** `_is_near_tree`: scan the square around `(x, y)` for a tree tile. */
    method IsNearTree(x: int, y: int, radius: int) returns (near: bool)
      ensures near <==> NearTree(treeTiles, x, y, radius)
    {
      var dx := -radius;
      while dx <= radius
        invariant radius >= 0 ==> -radius <= dx <= radius + 1
        invariant forall t :: t in treeTiles && Abs(t.1 - y) <= radius ==> !(-radius <= t.0 - x < dx)
      {
        near := NearTreeColumn(x + dx, y, radius);
        if near {
          assert Abs(x + dx - x) <= radius;
          return;
        }
        dx := dx + 1;
      }
      near := false;
    }

    /** The inner loop of `_is_near_tree` for one column `cx`. */
    method NearTreeColumn(cx: int, y: int, radius: int) returns (near: bool)
      ensures near <==> exists t :: t in treeTiles && t.0 == cx && Abs(t.1 - y) <= radius
    {
      var dy := -radius;
      while dy <= radius
        invariant radius >= 0 ==> -radius <= dy <= radius + 1
        invariant forall t :: t in treeTiles && t.0 == cx ==> !(-radius <= t.1 - y < dy)
      {
        if (cx, y + dy) in treeTiles {
          assert Abs(y + dy - y) <= radius;
          return true;
        }
        dy := dy + 1;
      }
      return false;
    }

    /** The tiles of `mapData` that may hold an enemy, in row-major order. */
    method ValidPositions(spawn: Cell) returns (valid: seq<Cell>)
      ensures valid == SpawnCandidates(mapData, spawn, SpawnDistance2)
    {
      valid := [];
      var y := 0;
      while y < |mapData|
        invariant 0 <= y <= |mapData|
        invariant valid == CandidatesUpTo(mapData, spawn, SpawnDistance2, y)
      {
        var row := RowPositions(spawn, y);
        valid := valid + row;
        y := y + 1;
      }
    }

    /** The inner loop over one row of `_find_spawn_positions`. */
    method RowPositions(spawn: Cell, y: int) returns (row: seq<Cell>)
      requires 0 <= y < |mapData|
      ensures row == RowCandidates(mapData, spawn, SpawnDistance2, y, |mapData[y]|)
    {
      row := [];
      var x := 0;
      while x < |mapData[y]|
        invariant 0 <= x <= |mapData[y]|
        invariant row == RowCandidates(mapData, spawn, SpawnDistance2, y, x)
      {
        if mapData[y][x] == Path && Dist2((x, y), spawn) > SpawnDistance2 {
          row := row + [(x, y)];
        }
        x := x + 1;
      }
    }

    /** The `too_close` loop: some kept position is nearer than 8 tiles. */
    method TooClose(pos: Cell, selected: seq<Cell>) returns (close: bool)
      ensures close <==> !FarFromAll(pos, selected)
    {
      var i := 0;
      while i < |selected|
        invariant 0 <= i <= |selected|
        invariant forall k :: 0 <= k < i ==> Dist2(pos, selected[k]) >= EnemySpacing2
      {
        if Dist2(pos, selected[i]) < EnemySpacing2 {
          return true;
        }
        i := i + 1;
      }
      return false;
    }

    /** `_find_spawn_positions`: scan, shuffle with the draws, then keep spaced positions up to the count. */
    method FindSpawnPositions(spawn: Cell, num: int, draw: nat -> nat) returns (selected: seq<Cell>)
      ensures selected == SpawnPositions(mapData, spawn, SpawnDistance2, num, draw)
    {
      var valid := ValidPositions(spawn);
      var shuffled := Shuffle(valid, draw);
      selected := [];
      var i := 0;
      while i < |shuffled|
        invariant 0 <= i <= |shuffled|
        invariant selected == Spread(shuffled[..i], num)
      {
        if |selected| >= num {
          SpreadStalls(shuffled, num, i);
          return;
        }
        SpreadPrefix(shuffled, num, i);
        var close := TooClose(shuffled[i], selected);
        if !close {
          selected := selected + [shuffled[i]];
        }
        i := i + 1;
      }
      assert shuffled[..i] == shuffled;
    }

    /** `update`: every enemy takes one step, enemy `i` with the inputs `inputs(i)`. */
    method Update(dt: int, player: Option<Rect>, inputs: nat -> Inputs)
      requires Valid() && tileSize > 0
      modifies set e | e in enemies
      ensures Valid()
      ensures forall i :: 0 <= i < |enemies| ==> enemies[i].State() == Step(old(enemies[i].State()), World(), dt, player, inputs(i))
    {
      var i := 0;
      while i < |enemies|
        invariant 0 <= i <= |enemies|
        invariant Valid()
        invariant forall k :: 0 <= k < i ==> enemies[k].State() == Step(old(enemies[k].State()), World(), dt, player, inputs(k))
        invariant forall k :: i <= k < |enemies| ==> enemies[k].State() == old(enemies[k].State())
      {
        StepEnemy(i, dt, player, inputs(i));
        i := i + 1;
      }
    }

    /** One pass of the update loop: enemy `i` steps and every other enemy keeps its state. */
    method StepEnemy(i: nat, dt: int, player: Option<Rect>, inp: Inputs)
      requires Valid() && tileSize > 0 && i < |enemies|
      modifies enemies[i]
      ensures Valid()
      ensures enemies[i].State() == Step(old(enemies[i].State()), World(), dt, player, inp)
      ensures forall k :: 0 <= k < |enemies| && k != i ==> enemies[k].State() == old(enemies[k].State())
    {
      var e := enemies[i];
      e.Update(dt, player, inp);
      assert e.Valid();
    }

    /** `check_player_collision`: whether any enemy's hitbox overlaps the player's rectangle. */
    method CheckPlayerCollision(q: Rect) returns (hit: bool)
      ensures hit <==> exists i :: 0 <= i < |enemies| && Collide(enemies[i].rect, q)
    {
      var i := 0;
      while i < |enemies|
        invariant 0 <= i <= |enemies|
        invariant forall k :: 0 <= k < i ==> !Collide(enemies[k].rect, q)
      {
        if enemies[i].CheckCollision(q) {
          return true;
        }
        i := i + 1;
      }
      return false;
    }
  }
}
