/**
 * The game-over screen: shows why the player lost, animates the enemy, and
 * after a one-second delay restarts the game on SPACE or F.
 */
module GameOver {
  import opened Input

  /** Frames before a restart is accepted (one second at 60 frames a second). */
  const RestartDelay: int := 60
  /** The enemy animation moves on every 10th frame. */
  const FramePeriod: int := 10

  /** The action `update` returns. */
  datatype Action = NoAction | Restart

  datatype GameOverState = GameOverState(showing: bool, reason: string, cooldown: int, animTimer: int, currentFrame: int)

  /** `show(reason)`: visible with the reason, the restart delay, and the animation clock at 0; the frame is kept. */
  function Shown(g: GameOverState, reason: string): (r: GameOverState)
    ensures r.showing && r.reason == reason && r.cooldown == RestartDelay && r.animTimer == 0
    ensures r.currentFrame == g.currentFrame
  {
    g.(showing := true, reason := reason, cooldown := RestartDelay, animTimer := 0)
  }

  /** `update(keys)` with `frames` enemy images loaded. */
  function Step(g: GameOverState, k: Keys, frames: nat): (GameOverState, Action) {
    if !g.showing then (g, NoAction)
    else
      var g := g.(animTimer := g.animTimer + 1);
      var g := if g.animTimer % FramePeriod == 0 && frames > 0 then g.(currentFrame := (g.currentFrame + 1) % frames) else g;
      if g.cooldown > 0 then (g.(cooldown := g.cooldown - 1), NoAction)
      else if k.space || k.f then (g.(showing := false, reason := ""), Restart)
      else (g, NoAction)
  }

  /** The frame is one of the loaded images (or 0 when there are none) and the cooldown is not negative. */
  predicate Inv(g: GameOverState, frames: nat) {
    g.cooldown >= 0 && 0 <= g.currentFrame && (frames > 0 ==> g.currentFrame < frames)
  }

  /** While hidden, an update does nothing. */
  lemma HiddenInert(g: GameOverState, k: Keys, frames: nat)
    requires !g.showing
    ensures Step(g, k, frames) == (g, NoAction)
  {
  }

  /**
   * While showing, the animation clock ticks on every update, the frame
   * moves on exactly on every 10th tick (when there are images) and stays
   * below their number, and the invariant holds.
   */
  lemma Animates(g: GameOverState, k: Keys, frames: nat)
    requires g.showing && Inv(g, frames)
    ensures var r := Step(g, k, frames).0;
      r.animTimer == g.animTimer + 1 &&
      (r.currentFrame != g.currentFrame ==> r.animTimer % FramePeriod == 0) &&
      (frames > 1 && r.animTimer % FramePeriod == 0 ==> r.currentFrame == (g.currentFrame + 1) % frames) &&
      Inv(r, frames)
  {
  }

  /** No restart while the delay runs; after it, SPACE or F restarts exactly, hiding the screen and clearing the reason. */
  lemma RestartAfterDelay(g: GameOverState, k: Keys, frames: nat)
    requires g.showing
    ensures var (r, a) := Step(g, k, frames);
      (g.cooldown > 0 ==> a == NoAction && r.showing && r.cooldown == g.cooldown - 1) &&
      (g.cooldown <= 0 ==> (a == Restart <==> k.space || k.f)) &&
      (a == Restart ==> !r.showing && r.reason == "")
  {
  }

  /** From `show`, the first 60 updates never restart, whatever is pressed. */
  lemma {:induction false} DelayHolds(g: GameOverState, ks: seq<Keys>, frames: nat)
    requires g.showing && g.cooldown >= |ks|
    ensures Run(g, ks, frames).showing && Run(g, ks, frames).cooldown == g.cooldown - |ks|
    decreases |ks|
  {
    if ks != [] {
      RestartAfterDelay(g, ks[0], frames);
      DelayHolds(Step(g, ks[0], frames).0, ks[1..], frames);
    }
  }

  /** The screen over a run of frames. */
  function Run(g: GameOverState, ks: seq<Keys>, frames: nat): GameOverState
    decreases |ks|
  {
    if ks == [] then g else Run(Step(g, ks[0], frames).0, ks[1..], frames)
  }

  class GameOverScreen {
    const screenWidth: int
    const screenHeight: int
    /** The number of enemy images that loaded (up to four). */
    const enemyFrames: nat
    var isShowing: bool
    var deathReason: string
    var cooldown: int
    var animTimer: int
    var currentFrame: int

    function State(): GameOverState
      reads this
    {
      GameOverState(isShowing, deathReason, cooldown, animTimer, currentFrame)
    }

    constructor (screenWidth: int, screenHeight: int, enemyFrames: nat)
      ensures State() == GameOverState(false, "", 0, 0, 0) && this.enemyFrames == enemyFrames
      ensures Inv(State(), enemyFrames)
    {
      this.screenWidth := screenWidth;
      this.screenHeight := screenHeight;
      this.enemyFrames := enemyFrames;
      isShowing := false;
      deathReason := "";
      cooldown := 0;
      animTimer := 0;
      currentFrame := 0;
    }

    method Show(reason: string)
      modifies this
      ensures State() == Shown(old(State()), reason)
    {
      isShowing := true;
      deathReason := reason;
      cooldown := RestartDelay;
      animTimer := 0;
    }

    method Update(keys: Keys) returns (action: Action)
      modifies this
      ensures (State(), action) == Step(old(State()), keys, enemyFrames)
    {
      if !isShowing {
        return NoAction;
      }
      animTimer := animTimer + 1;
      if animTimer % FramePeriod == 0 && enemyFrames > 0 {
        currentFrame := (currentFrame + 1) % enemyFrames;
      }
      if cooldown > 0 {
        cooldown := cooldown - 1;
        return NoAction;
      }
      if keys.space || keys.f {
        isShowing := false;
        deathReason := "";
        return Restart;
      }
      return NoAction;
    }
  }
}
