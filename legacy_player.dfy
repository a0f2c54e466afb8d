/**
 * The player of the older top-level game: the same 70 x 70 rectangle, keys,
 * speed and walk animation as the current player, but every held direction
 * key moves the rectangle straight away, with no collision test.
 */
module LegacyPlayer {
  import opened Wrappers
  import opened Geometry
  import opened Input
  import opened Player

  /** The older player's state: rectangle, animation counters and the walking and facing flags. */
  datatype LegacyState = LegacyState(rect: Rect, frame: int, timer: int, walking: bool, facingRight: bool)

  /** `Player.__init__`: the rectangle centred on the screen, facing right, not walking. */
  function LegacySpawned(screenWidth: int, screenHeight: int): (s: LegacyState)
    ensures s.rect.CenterX() == screenWidth / 2 && s.rect.CenterY() == screenHeight / 2
    ensures s.rect.w == PlayerSide && s.rect.h == PlayerSide
    ensures s.frame == 0 && s.timer == 0 && !s.walking && s.facingRight
  {
    LegacyState(Rect(screenWidth / 2 - PlayerSide / 2, screenHeight / 2 - PlayerSide / 2, PlayerSide, PlayerSide), 0, 0, false, true)
  }

  /**
   * `Player.update` for one frame of `dt` milliseconds: each axis moves by
   * -5, 0 or +5 with nothing in the way, the size is kept, the player walks
   * exactly when one of the eight movement keys is held, left wins the
   * facing, and the walk frame advances past 200 ms of walking.
   */
  function LegacyStep(s: LegacyState, k: Keys, dt: nat): (s': LegacyState)
    ensures s'.rect.w == s.rect.w && s'.rect.h == s.rect.h
    ensures s'.rect.x - s.rect.x in {-Speed, 0, Speed} && s'.rect.y - s.rect.y in {-Speed, 0, Speed}
    ensures s'.rect.x == s.rect.x + Speed <==> RightHeld(k) && !LeftHeld(k)
    ensures s'.rect.x == s.rect.x - Speed <==> LeftHeld(k) && !RightHeld(k)
    ensures s'.rect.y == s.rect.y + Speed <==> DownHeld(k) && !UpHeld(k)
    ensures s'.rect.y == s.rect.y - Speed <==> UpHeld(k) && !DownHeld(k)
    ensures s'.walking <==> k.d || k.right || k.a || k.left || k.w || k.up || k.s || k.down
    ensures (LeftHeld(k) ==> !s'.facingRight) && (RightHeld(k) && !LeftHeld(k) ==> s'.facingRight)
    ensures !RightHeld(k) && !LeftHeld(k) ==> s'.facingRight == s.facingRight
    ensures 0 <= s.frame < WalkFrames ==> 0 <= s'.frame < WalkFrames
    ensures !s'.walking ==> s'.frame == s.frame && s'.timer == s.timer
    ensures s'.walking && s.timer + dt > AnimationSpeed ==> s'.timer == 0 && s'.frame == (s.frame + 1) % WalkFrames
    ensures s'.walking && s.timer + dt <= AnimationSpeed ==> s'.frame == s.frame && s'.timer == s.timer + dt
  {
    var a := Animate(Walking(k), s.frame, s.timer, dt);
    LegacyState(s.rect.Moved(DeltaX(k), DeltaY(k)), a.0, a.1, Walking(k), Facing(k, s.facingRight))
  }

  /** `update` called once per frame with the given keys and clock times. */
  function LegacyRun(s: LegacyState, frames: seq<(Keys, nat)>): LegacyState
    decreases |frames|
  {
    if frames == [] then s else LegacyRun(LegacyStep(s, frames[0].0, frames[0].1), frames[1..])
  }

  /** `is_walking` holds exactly when one of the eight movement keys is held. */
  lemma LegacyWalkingKeys(s: LegacyState, k: Keys, dt: nat)
    ensures LegacyStep(s, k, dt).walking <==> k.d || k.right || k.a || k.left || k.w || k.up || k.s || k.down
  {
  }

  /** Over any run the walk frame stays in `[0, 2)` and the size never changes. */
  lemma {:induction false} LegacyRunFrames(s: LegacyState, frames: seq<(Keys, nat)>)
    requires 0 <= s.frame < WalkFrames
    ensures 0 <= LegacyRun(s, frames).frame < WalkFrames
    ensures LegacyRun(s, frames).rect.w == s.rect.w && LegacyRun(s, frames).rect.h == s.rect.h
    decreases |frames|
  {
    if frames != [] {
      LegacyRunFrames(LegacyStep(s, frames[0].0, frames[0].1), frames[1..]);
    }
  }

  /** An obstacle set that never blocks: a zero-area Sprytek, no background, no cabin. */
  const Nothing: Obstacles := Obstacles(Rect(0, 0, 0, 0), None, None)

  /** With nothing to collide with, the current player moves, animates and turns exactly like the older one. */
  lemma MatchesUnobstructed(s: LegacyState, p: PlayerState, k: Keys, dt: nat, ts: int)
    requires ts > 0
    requires p.rect == s.rect && p.frame == s.frame && p.timer == s.timer && p.facingRight == s.facingRight
    ensures var p', s' := Step(p, k, dt, Nothing, ts), LegacyStep(s, k, dt);
      p'.rect == s'.rect && p'.frame == s'.frame && p'.timer == s'.timer &&
      p'.walking == s'.walking && p'.facingRight == s'.facingRight
  {
    assert !Blocked(Nothing, s.rect.Moved(DeltaX(k), 0));
    assert !Blocked(Nothing, s.rect.Moved(DeltaX(k), 0).Moved(0, DeltaY(k)));
  }

  class LegacyPlayer {
    var currentFrame: int
    var animationTimer: int
    var isWalking: bool
    var facingRight: bool
    var playerRect: Rect

    function State(): LegacyState
      reads this
    {
      LegacyState(playerRect, currentFrame, animationTimer, isWalking, facingRight)
    }

    constructor (screenWidth: int, screenHeight: int)
      ensures State() == LegacySpawned(screenWidth, screenHeight)
    {
      currentFrame := 0;
      animationTimer := 0;
      isWalking := false;
      facingRight := true;
      playerRect := Rect(screenWidth / 2 - PlayerSide / 2, screenHeight / 2 - PlayerSide / 2, PlayerSide, PlayerSide);
    }

    /** `update`: each held key moves the rectangle in place, then the walk animation advances. */
    method Update(keys: Keys, dt: nat)
      modifies this
      ensures State() == LegacyStep(old(State()), keys, dt)
    {
      isWalking := false;
      MoveHorizontal(keys);
      MoveVertical(keys);
      AdvanceAnimation(dt);
    }

    /** Right then left, straight onto the rectangle. */
    method MoveHorizontal(keys: Keys)
      modifies this`playerRect, this`isWalking, this`facingRight
      ensures playerRect == old(playerRect).Moved(DeltaX(keys), 0)
      ensures isWalking == (old(isWalking) || RightHeld(keys) || LeftHeld(keys))
      ensures facingRight == Facing(keys, old(facingRight))
    {
      if keys.d || keys.right {
        playerRect := playerRect.(x := playerRect.x + Speed);
        isWalking := true;
        facingRight := true;
      }
      if keys.a || keys.left {
        playerRect := playerRect.(x := playerRect.x - Speed);
        isWalking := true;
        facingRight := false;
      }
    }

    /** Up then down, straight onto the rectangle. */
    method MoveVertical(keys: Keys)
      modifies this`playerRect, this`isWalking
      ensures playerRect == old(playerRect).Moved(0, DeltaY(keys))
      ensures isWalking == (old(isWalking) || UpHeld(keys) || DownHeld(keys))
    {
      if keys.w || keys.up {
        playerRect := playerRect.(y := playerRect.y - Speed);
        isWalking := true;
      }
      if keys.s || keys.down {
        playerRect := playerRect.(y := playerRect.y + Speed);
        isWalking := true;
      }
    }

    /** The animation tail of `update`, as in the current player. */
    method AdvanceAnimation(dt: nat)
      modifies this`currentFrame, this`animationTimer
      ensures (currentFrame, animationTimer) == Animate(isWalking, old(currentFrame), old(animationTimer), dt)
    {
      if isWalking {
        animationTimer := animationTimer + dt;
        if animationTimer > AnimationSpeed {
          animationTimer := 0;
          currentFrame := (currentFrame + 1) % WalkFrames;
        }
      }
    }
  }
}
