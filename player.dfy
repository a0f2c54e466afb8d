/**
 * The player of the current game: a 70 x 70 sprite rectangle moved five
 * pixels per frame by the arrow keys or WASD, horizontally and then
 * vertically, each axis committed only when the moved rectangle is clear
 * of Sprytek, the tree trunks and the cabin walls; plus its tile position
 * and a two-frame walk animation.
 */
module Player {
  import opened Wrappers
  import opened Geometry
  import opened Input
  import Background
  import Cabin
  import Arith

  /** `PLAYER_SIZE`: the scaled sprite, whose rectangle is the player's. */
  const PlayerSide: nat := 70
  const Speed: int := 5
  /** `animation_speed`: milliseconds between walk frames. */
  const AnimationSpeed: int := 200
  /** `len(walk_animation)`. */
  const WalkFrames: int := 2
  /** The tile `map_position` starts on when no spawn is given. */
  const DefaultTile: int := 10

  // ---------------------------------------------------------------------------
  // Keys
  // ---------------------------------------------------------------------------

  predicate RightHeld(k: Keys) { k.d || k.right }
  predicate LeftHeld(k: Keys) { k.a || k.left }
  predicate UpHeld(k: Keys) { k.w || k.up }
  predicate DownHeld(k: Keys) { k.s || k.down }

  /** The horizontal step: +5 for right, then -5 for left. */
  function DeltaX(k: Keys): (dx: int)
    ensures dx == 0 || dx == Speed || dx == -Speed
    ensures dx == Speed <==> RightHeld(k) && !LeftHeld(k)
    ensures dx == -Speed <==> LeftHeld(k) && !RightHeld(k)
  {
    (if RightHeld(k) then Speed else 0) - (if LeftHeld(k) then Speed else 0)
  }

  /** The vertical step: -5 for up, then +5 for down. */
  function DeltaY(k: Keys): (dy: int)
    ensures dy == 0 || dy == Speed || dy == -Speed
    ensures dy == Speed <==> DownHeld(k) && !UpHeld(k)
    ensures dy == -Speed <==> UpHeld(k) && !DownHeld(k)
  {
    (if DownHeld(k) then Speed else 0) - (if UpHeld(k) then Speed else 0)
  }

  /** `is_walking`: some movement key is held, even when opposite keys cancel. */
  predicate Walking(k: Keys) {
    RightHeld(k) || LeftHeld(k) || UpHeld(k) || DownHeld(k)
  }

  /** `facing_right`: set by right, then cleared by left, so left wins; kept when neither is held. */
  function Facing(k: Keys, facingRight: bool): (f: bool)
    ensures LeftHeld(k) ==> !f
    ensures RightHeld(k) && !LeftHeld(k) ==> f
    ensures !RightHeld(k) && !LeftHeld(k) ==> f == facingRight
  {
    if LeftHeld(k) then false else if RightHeld(k) then true else facingRight
  }

  // ---------------------------------------------------------------------------
  // Obstacles and movement
  // ---------------------------------------------------------------------------

  /**
   * What `update` checks a moved rectangle against: Sprytek's rectangle,
   * the background's trunk chunks with its tile size when a background is
   * given, and the cabin's wall rectangles when a cabin is given.
   */
  datatype Obstacles = Obstacles(sprytek: Rect, trees: Option<(map<Cell, seq<Rect>>, int)>, walls: Option<seq<Rect>>)

  /** The moved rectangle may not be taken: it hits Sprytek, a tree trunk or a cabin wall. */
  predicate Blocked(o: Obstacles, q: Rect) {
    Collide(q, o.sprytek)
    || (o.trees.Some? && o.trees.value.1 > 0 && Background.ChunkHit(o.trees.value.0, q, o.trees.value.1))
    || (o.walls.Some? && CollidesAny(q, o.walls.value))
  }

  /** One axis: the rectangle moved by `(dx, dy)` when that is clear, else the rectangle as it was. */
  function Try(r: Rect, dx: int, dy: int, o: Obstacles): (r': Rect)
    ensures r'.w == r.w && r'.h == r.h
    ensures r' == r || r' == r.Moved(dx, dy)
    ensures !Blocked(o, r.Moved(dx, dy)) ==> r' == r.Moved(dx, dy)
    ensures r' != r ==> !Blocked(o, r')
  {
    var q := r.Moved(dx, dy);
    if Blocked(o, q) then r else q
  }

  /** The rectangle after the horizontal attempt and then the vertical attempt from where that left it. */
  function Resolve(r: Rect, k: Keys, o: Obstacles): Rect {
    Try(Try(r, DeltaX(k), 0, o), 0, DeltaY(k), o)
  }

  // ---------------------------------------------------------------------------
  // Animation and the whole frame
  // ---------------------------------------------------------------------------

  /** The walk animation's `(current_frame, animation_timer)` after `dt` milliseconds. */
  function Animate(walking: bool, frame: int, timer: int, dt: nat): (r: (int, int))
    ensures 0 <= frame < WalkFrames ==> 0 <= r.0 < WalkFrames
    ensures !walking ==> r == (frame, timer)
    ensures walking && timer + dt > AnimationSpeed ==> r.1 == 0 && r.0 == (frame + 1) % WalkFrames
    ensures walking && timer + dt <= AnimationSpeed ==> r == (frame, timer + dt)
  {
    if walking then
      var t := timer + dt;
      if t > AnimationSpeed then ((frame + 1) % WalkFrames, 0) else (frame, t)
    else (frame, timer)
  }

  /** The player's state: rectangle, tile position, animation counters and the walking and facing flags. */
  datatype PlayerState = PlayerState(rect: Rect, mapPosition: seq<int>, frame: int, timer: int, walking: bool, facingRight: bool)

  predicate StateValid(s: PlayerState) {
    |s.mapPosition| == 2 && 0 <= s.frame < WalkFrames && s.rect.w == PlayerSide && s.rect.h == PlayerSide
  }

  /** `Player.__init__`: a spawn tile puts the rectangle's corner on it; otherwise the rectangle is centred on the screen. */
  function Spawned(screenWidth: int, screenHeight: int, ts: int, spawn: Option<Cell>): (s: PlayerState)
    ensures StateValid(s) && s.frame == 0 && s.timer == 0 && !s.walking && s.facingRight
  {
    var r := if spawn.Some? then Rect(spawn.value.0 * ts, spawn.value.1 * ts, PlayerSide, PlayerSide)
             else Rect(screenWidth / 2 - PlayerSide / 2, screenHeight / 2 - PlayerSide / 2, PlayerSide, PlayerSide);
    var pos := if spawn.Some? then [spawn.value.0, spawn.value.1] else [DefaultTile, DefaultTile];
    PlayerState(r, pos, 0, 0, false, true)
  }

  /** `Player.update` for one frame of `dt` milliseconds. */
  function Step(s: PlayerState, k: Keys, dt: nat, o: Obstacles, ts: int): (s': PlayerState)
    requires ts > 0
    ensures StateValid(s) ==> StateValid(s')
    ensures s'.walking == Walking(k) && s'.facingRight == Facing(k, s.facingRight)
    ensures (s'.frame, s'.timer) == Animate(Walking(k), s.frame, s.timer, dt)
  {
    var r := Resolve(s.rect, k, o);
    var a := Animate(Walking(k), s.frame, s.timer, dt);
    PlayerState(r, [r.x / ts, r.y / ts], a.0, a.1, Walking(k), Facing(k, s.facingRight))
  }

  /** `update` called once per frame with the given keys and clock times. */
  function Run(s: PlayerState, frames: seq<(Keys, nat)>, o: Obstacles, ts: int): PlayerState
    requires ts > 0
    decreases |frames|
  {
    if frames == [] then s else Run(Step(s, frames[0].0, frames[0].1, o, ts), frames[1..], o, ts)
  }

  // ---------------------------------------------------------------------------
  // Properties
  // ---------------------------------------------------------------------------

  /**
   * Each axis is resolved on its own: the horizontal move is taken exactly
   * when the horizontally moved rectangle is clear, and the vertical move,
   * from wherever that left the player, exactly when that one is clear.
   */
  lemma StepAxes(s: PlayerState, k: Keys, dt: nat, o: Obstacles, ts: int)
    requires ts > 0
    ensures var h := s.rect.Moved(DeltaX(k), 0);
      var x := if Blocked(o, h) then s.rect.x else s.rect.x + DeltaX(k);
      var v := Rect(x, s.rect.y, s.rect.w, s.rect.h).Moved(0, DeltaY(k));
      Step(s, k, dt, o, ts).rect.x == x &&
      Step(s, k, dt, o, ts).rect.y == (if Blocked(o, v) then s.rect.y else s.rect.y + DeltaY(k))
  {
  }

  /** Per axis the player moves by -5, 0 or +5, and never changes size. */
  lemma StepDisplacement(s: PlayerState, k: Keys, dt: nat, o: Obstacles, ts: int)
    requires ts > 0
    ensures var d := Step(s, k, dt, o, ts).rect.x - s.rect.x; d == -Speed || d == 0 || d == Speed
    ensures var d := Step(s, k, dt, o, ts).rect.y - s.rect.y; d == -Speed || d == 0 || d == Speed
    ensures Step(s, k, dt, o, ts).rect.w == s.rect.w && Step(s, k, dt, o, ts).rect.h == s.rect.h
  {
  }

  /** Opposite keys cancel the move on their axis but still count as walking. */
  lemma OppositeKeysCancel(s: PlayerState, k: Keys, dt: nat, o: Obstacles, ts: int)
    requires ts > 0 && RightHeld(k) && LeftHeld(k) && UpHeld(k) && DownHeld(k)
    ensures Step(s, k, dt, o, ts).rect == s.rect
    ensures Step(s, k, dt, o, ts).walking
  {
  }

  /** A player that starts clear of every obstacle is still clear after the frame. */
  lemma StepStaysClear(s: PlayerState, k: Keys, dt: nat, o: Obstacles, ts: int)
    requires ts > 0 && !Blocked(o, s.rect)
    ensures !Blocked(o, Step(s, k, dt, o, ts).rect)
  {
  }

  /** The same over any number of frames. */
  lemma {:induction false} RunStaysClear(s: PlayerState, frames: seq<(Keys, nat)>, o: Obstacles, ts: int)
    requires ts > 0 && !Blocked(o, s.rect)
    ensures !Blocked(o, Run(s, frames, o, ts).rect)
    ensures StateValid(s) ==> StateValid(Run(s, frames, o, ts))
    decreases |frames|
  {
    if frames != [] {
      StepStaysClear(s, frames[0].0, frames[0].1, o, ts);
      RunStaysClear(Step(s, frames[0].0, frames[0].1, o, ts), frames[1..], o, ts);
    }
  }

  /** `map_position` is the tile under the rectangle's top-left corner (floor division). */
  lemma StepMapPosition(s: PlayerState, k: Keys, dt: nat, o: Obstacles, ts: int)
    requires ts > 0
    ensures var s' := Step(s, k, dt, o, ts);
      |s'.mapPosition| == 2 &&
      s'.mapPosition[0] * ts <= s'.rect.x < (s'.mapPosition[0] + 1) * ts &&
      s'.mapPosition[1] * ts <= s'.rect.y < (s'.mapPosition[1] + 1) * ts
  {
    var r := Resolve(s.rect, k, o);
    assert Step(s, k, dt, o, ts).rect == r && Step(s, k, dt, o, ts).mapPosition == [r.x / ts, r.y / ts];
    Arith.FloorBounds(r.x, ts);
    Arith.FloorBounds(r.y, ts);
  }

  /** The walk frame only changes while walking, once the timer has passed 200 ms, and then it resets the timer. */
  lemma StepFrame(s: PlayerState, k: Keys, dt: nat, o: Obstacles, ts: int)
    requires ts > 0
    ensures var s' := Step(s, k, dt, o, ts);
      s'.frame != s.frame ==> Walking(k) && s.timer + dt > AnimationSpeed && s'.timer == 0
    ensures !Walking(k) ==> Step(s, k, dt, o, ts).frame == s.frame && Step(s, k, dt, o, ts).timer == s.timer
  {
  }

  /** With a spawn tile and a positive tile size, the rectangle's corner is the spawn's pixel and its tile is the spawn. */
  lemma SpawnTile(screenWidth: int, screenHeight: int, ts: int, spawn: Cell)
    requires ts > 0
    ensures var s := Spawned(screenWidth, screenHeight, ts, Some(spawn));
      s.rect.x == spawn.0 * ts && s.rect.y == spawn.1 * ts &&
      s.rect.x / ts == spawn.0 && s.rect.y / ts == spawn.1 && s.mapPosition == [spawn.0, spawn.1]
  {
    Arith.DivUnique(spawn.0, 0, ts);
    Arith.DivUnique(spawn.1, 0, ts);
  }

  // ---------------------------------------------------------------------------
  // The player object
  // ---------------------------------------------------------------------------

  /** The obstacles the player object sees: Sprytek's rectangle and whichever of background and cabin were passed. */
  function ObstaclesOf(sprytek: Rect, background: Background.Background?, cabin: Cabin.Cabin?): Obstacles
    reads background, cabin
  {
    Obstacles(sprytek,
              if background == null then None else Some((background.collisionChunks, background.tileSize)),
              if cabin == null then None else Some(cabin.wallRects))
  }

  class Player {
    const tileSize: int
    var currentFrame: int
    var animationTimer: int
    var isWalking: bool
    var facingRight: bool
    /** `map_position`, the two-element list `[tile_x, tile_y]`. */
    var mapPosition: seq<int>
    var playerRect: Rect

    function State(): PlayerState
      reads this
    {
      PlayerState(playerRect, mapPosition, currentFrame, animationTimer, isWalking, facingRight)
    }

    constructor (screenWidth: int, screenHeight: int, tileSize: int, spawn: Option<Cell>)
      ensures this.tileSize == tileSize
      ensures State() == Spawned(screenWidth, screenHeight, tileSize, spawn)
    {
      this.tileSize := tileSize;
      currentFrame := 0;
      animationTimer := 0;
      isWalking := false;
      facingRight := true;
      if spawn.Some? {
        mapPosition := [spawn.value.0, spawn.value.1];
        playerRect := Rect(spawn.value.0 * tileSize, spawn.value.1 * tileSize, PlayerSide, PlayerSide);
      } else {
        mapPosition := [DefaultTile, DefaultTile];
        playerRect := Rect(screenWidth / 2 - PlayerSide / 2, screenHeight / 2 - PlayerSide / 2, PlayerSide, PlayerSide);
      }
    }

    /** The collision test of one axis: Sprytek, then the trees if a background is given, then the cabin if one is given. */
    method CanMove(newPos: Rect, sprytek: Rect, background: Background.Background?, cabin: Cabin.Cabin?) returns (ok: bool)
      requires background != null ==> background.Valid()
      ensures ok <==> !Blocked(ObstaclesOf(sprytek, background, cabin), newPos)
    {
      ok := !Collide(newPos, sprytek);
      if ok && background != null {
        var hit := background.CheckTreeCollision(newPos);
        ok := !hit;
      }
      if ok && cabin != null {
        var hit := cabin.CheckCollision(newPos);
        ok := !hit;
      }
    }

    /** The horizontal half of `update`: right then left on a copy, committed when clear. */
    method MoveHorizontal(keys: Keys, sprytek: Rect, background: Background.Background?, cabin: Cabin.Cabin?)
      requires background != null ==> background.Valid()
      modifies this`isWalking, this`facingRight, this`playerRect
      ensures playerRect == Try(old(playerRect), DeltaX(keys), 0, ObstaclesOf(sprytek, background, cabin))
      ensures isWalking == (old(isWalking) || RightHeld(keys) || LeftHeld(keys))
      ensures facingRight == Facing(keys, old(facingRight))
    {
      var newPos := playerRect;
      if keys.d || keys.right {
        newPos := newPos.(x := newPos.x + Speed);
        isWalking := true;
        facingRight := true;
      }
      if keys.a || keys.left {
        newPos := newPos.(x := newPos.x - Speed);
        isWalking := true;
        facingRight := false;
      }
      assert newPos == old(playerRect).Moved(DeltaX(keys), 0);
      var ok := CanMove(newPos, sprytek, background, cabin);
      if ok {
        playerRect := playerRect.(x := newPos.x);
      }
    }

    /** The vertical half of `update`: up then down on a copy of the rectangle the horizontal half left, committed when clear. */
    method MoveVertical(keys: Keys, sprytek: Rect, background: Background.Background?, cabin: Cabin.Cabin?)
      requires background != null ==> background.Valid()
      modifies this`isWalking, this`playerRect
      ensures playerRect == Try(old(playerRect), 0, DeltaY(keys), ObstaclesOf(sprytek, background, cabin))
      ensures isWalking == (old(isWalking) || UpHeld(keys) || DownHeld(keys))
    {
      var newPos := playerRect;
      if keys.w || keys.up {
        newPos := newPos.(y := newPos.y - Speed);
        isWalking := true;
      }
      if keys.s || keys.down {
        newPos := newPos.(y := newPos.y + Speed);
        isWalking := true;
      }
      assert newPos == old(playerRect).Moved(0, DeltaY(keys));
      var ok := CanMove(newPos, sprytek, background, cabin);
      if ok {
        playerRect := playerRect.(y := newPos.y);
      }
    }

    /** `update`: move each axis if clear, refresh the tile position, advance the walk animation. */
    method Update(keys: Keys, dt: nat, sprytek: Rect, background: Background.Background?, cabin: Cabin.Cabin?)
      requires tileSize > 0 && |mapPosition| == 2
      requires background != null ==> background.Valid()
      modifies this`currentFrame, this`animationTimer, this`isWalking, this`facingRight, this`mapPosition, this`playerRect
      ensures State() == Step(old(State()), keys, dt, ObstaclesOf(sprytek, background, cabin), tileSize)
    {
      ghost var s0 := State();
      ghost var o := ObstaclesOf(sprytek, background, cabin);
      isWalking := false;
      MoveHorizontal(keys, sprytek, background, cabin);
      MoveVertical(keys, sprytek, background, cabin);
      assert playerRect == Resolve(s0.rect, keys, o);
      assert isWalking == Walking(keys) && facingRight == Facing(keys, s0.facingRight);

      mapPosition := mapPosition[0 := playerRect.x / tileSize];
      mapPosition := mapPosition[1 := playerRect.y / tileSize];
      assert mapPosition == [playerRect.x / tileSize, playerRect.y / tileSize];
      AdvanceAnimation(dt);
    }

    /** The animation tail of `update`: while walking, add the frame time and step the frame once it passes 200 ms. */
    method AdvanceAnimation(dt: nat)
      modifies this`currentFrame, this`animationTimer
      ensures (currentFrame, animationTimer) == Animate(isWalking, old(currentFrame), old(animationTimer), dt)
    {
      if isWalking {
        animationTimer := animationTimer + dt;
        if animationTimer > AnimationSpeed {
          animationTimer := 0;
          currentFrame := (currentFrame + 1) % WalkFrames;
        }
      }
    }
  }
}
