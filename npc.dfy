/**
 * Sprytek, the NPC by the cabin: it notices the player within 25 pixels of
 * its sprite rectangle and, on each fresh press of F outside a short
 * cooldown, starts a dialog, advances its text, or ends it and moves on to
 * the next dialog, cyclically. Walking away ends the talk. Dialogs are
 * given by the number of texts in each.
 */
module Npc {
  import opened Wrappers
  import opened Geometry
  import opened Input

  /** The scaled Sprytek sprite. */
  const SpriteWidth: nat := 60
  const SpriteHeight: nat := 70
  /** `inflate(50, 50)`: the proximity margin, 25 pixels on each side. */
  const Reach: nat := 50
  /** Frames between accepted presses. */
  const Cooldown: nat := 15

  /** The dialog state `update` changes. */
  datatype NpcState = NpcState(isTalking: bool, dialogIndex: int, textIndex: int, cooldown: int, playerNear: bool, fKeyPressed: bool)

  /** `get_rect(center=(x, y))` of the sprite. */
  function SpriteRect(x: int, y: int): (r: Rect)
    ensures r.CenterX() == x && r.CenterY() == y && r.w == SpriteWidth && r.h == SpriteHeight
  {
    Rect(x - SpriteWidth / 2, y - SpriteHeight / 2, SpriteWidth, SpriteHeight)
  }

  /** The player counts as near: its rectangle overlaps Sprytek's grown by 25 pixels on every side. */
  predicate Near(sprytek: Rect, player: Rect) {
    Collide(sprytek.Inflate(Reach, Reach), player)
  }

  /** The cooldown after this frame's decrement. */
  function Cooled(cooldown: int): (c: int)
    ensures cooldown > 0 ==> c == cooldown - 1
    ensures cooldown <= 0 ==> c == cooldown
  {
    if cooldown > 0 then cooldown - 1 else cooldown
  }

  /** F is taken this frame: held, not held the frame before, and no cooldown left after the decrement. */
  predicate Accepted(s: NpcState, f: bool) {
    f && !s.fKeyPressed && Cooled(s.cooldown) == 0
  }

  /** The start of `update`: the proximity test and the cooldown decrement. */
  function Sense(s: NpcState, near: bool): NpcState {
    s.(playerNear := near, cooldown := Cooled(s.cooldown))
  }

  /**
   * The F block of `update` on a sensed state: a fresh press with no
   * cooldown latches F and, near Sprytek, starts, advances or ends the
   * talk and restarts the cooldown; a frame without F releases the latch.
   * `None` when the press would read a dialog that does not exist (an
   * `IndexError` for an empty dialog list or an index past it).
   */
  function Press(s: NpcState, f: bool, dialogs: seq<nat>): Option<NpcState> {
    if f && !s.fKeyPressed && s.cooldown == 0 then
      if !s.playerNear then Some(s.(fKeyPressed := true))
      else if !s.isTalking then Some(s.(fKeyPressed := true, isTalking := true, textIndex := 0, cooldown := Cooldown))
      else if !(0 <= s.dialogIndex < |dialogs|) then None
      else if s.textIndex + 1 >= dialogs[s.dialogIndex] then
        Some(s.(fKeyPressed := true, isTalking := false, textIndex := 0, dialogIndex := (s.dialogIndex + 1) % |dialogs|, cooldown := Cooldown))
      else Some(s.(fKeyPressed := true, textIndex := s.textIndex + 1, cooldown := Cooldown))
    else if !f then Some(s.(fKeyPressed := false))
    else Some(s)
  }

  /** The end of `update`: a player who is no longer near ends the talk. */
  function Leave(s: NpcState): NpcState {
    if !s.playerNear && s.isTalking then s.(isTalking := false, textIndex := 0) else s
  }

  /** `update` for one frame. */
  function Step(s: NpcState, f: bool, sprytek: Rect, player: Rect, dialogs: seq<nat>): (r: Option<NpcState>)
    ensures r.None? <==> Accepted(s, f) && Near(sprytek, player) && s.isTalking && !(0 <= s.dialogIndex < |dialogs|)
    ensures r.Some? ==> r.value.playerNear == Near(sprytek, player) && r.value.fKeyPressed == (f && (s.fKeyPressed || Accepted(s, f)))
    ensures r.Some? ==> r.value.cooldown == (if Accepted(s, f) && Near(sprytek, player) then Cooldown else Cooled(s.cooldown))
    ensures r.Some? && !Near(sprytek, player) ==> !r.value.isTalking && r.value.dialogIndex == s.dialogIndex
    ensures r.Some? && !Accepted(s, f) ==> r.value.dialogIndex == s.dialogIndex && (r.value.isTalking ==> r.value.textIndex == s.textIndex && s.isTalking)
  {
    match Press(Sense(s, Near(sprytek, player)), f, dialogs)
    case None => None
    case Some(t) => Some(Leave(t))
  }

  /** Dialogs `update` can always read: at least one, each with at least one text. */
  predicate DialogsOk(dialogs: seq<nat>) {
    |dialogs| > 0 && forall i :: 0 <= i < |dialogs| ==> dialogs[i] > 0
  }

  /** The state keeps its indices inside the dialogs and its cooldown within `[0, 15]`. */
  predicate Inv(s: NpcState, dialogs: seq<nat>) {
    0 <= s.dialogIndex < |dialogs| && 0 <= s.cooldown <= Cooldown &&
    (s.isTalking ==> 0 <= s.textIndex < dialogs[s.dialogIndex])
  }

  /** With readable dialogs, `update` never fails and keeps the invariant. */
  lemma StepKeepsInv(s: NpcState, f: bool, sprytek: Rect, player: Rect, dialogs: seq<nat>)
    requires DialogsOk(dialogs) && Inv(s, dialogs)
    ensures Step(s, f, sprytek, player, dialogs).Some?
    ensures Inv(Step(s, f, sprytek, player, dialogs).value, dialogs)
  {
  }

  /** A fresh press near Sprytek while not talking starts the current dialog at its first text. */
  lemma PressStartsTalk(s: NpcState, sprytek: Rect, player: Rect, dialogs: seq<nat>)
    requires Accepted(s, true) && Near(sprytek, player) && !s.isTalking
    ensures var r := Step(s, true, sprytek, player, dialogs);
      r.Some? && r.value.isTalking && r.value.textIndex == 0 && r.value.dialogIndex == s.dialogIndex && r.value.cooldown == Cooldown
  {
  }

  /**
   * A fresh press while talking moves to the next text, or past the last
   * one ends the talk and turns to the next dialog, wrapping around.
   */
  lemma PressAdvances(s: NpcState, sprytek: Rect, player: Rect, dialogs: seq<nat>)
    requires Accepted(s, true) && Near(sprytek, player) && s.isTalking && 0 <= s.dialogIndex < |dialogs|
    ensures var r := Step(s, true, sprytek, player, dialogs);
      r.Some? &&
      (s.textIndex + 1 < dialogs[s.dialogIndex] ==> r.value.isTalking && r.value.textIndex == s.textIndex + 1 && r.value.dialogIndex == s.dialogIndex) &&
      (s.textIndex + 1 >= dialogs[s.dialogIndex] ==> !r.value.isTalking && r.value.textIndex == 0 && r.value.dialogIndex == (s.dialogIndex + 1) % |dialogs|)
  {
  }

  /** Holding F does not act again: the next frame with F still held leaves the dialog where it was. */
  lemma HeldKeyIgnored(s: NpcState, sprytek: Rect, player: Rect, dialogs: seq<nat>)
    requires s.fKeyPressed
    ensures var r := Step(s, true, sprytek, player, dialogs);
      r.Some? && r.value.dialogIndex == s.dialogIndex && r.value.fKeyPressed &&
      (Near(sprytek, player) ==> r.value.isTalking == s.isTalking && r.value.textIndex == s.textIndex)
  {
  }

  /** Walking away ends the talk and resets the text, but keeps the dialog it was on. */
  lemma LeavingEndsTalk(s: NpcState, f: bool, sprytek: Rect, player: Rect, dialogs: seq<nat>)
    requires !Near(sprytek, player)
    ensures var r := Step(s, f, sprytek, player, dialogs);
      r.Some? && !r.value.isTalking && r.value.textIndex == (if s.isTalking then 0 else s.textIndex) && r.value.dialogIndex == s.dialogIndex
  {
  }

  /** `update` on a run of frames, stopping at a failure. */
  function Run(s: NpcState, frames: seq<(bool, Rect)>, sprytek: Rect, dialogs: seq<nat>): Option<NpcState>
    decreases |frames|
  {
    if frames == [] then Some(s) else
      match Step(s, frames[0].0, sprytek, frames[0].1, dialogs)
      case None => None
      case Some(s') => Run(s', frames[1..], sprytek, dialogs)
  }

  /** Over any run with readable dialogs, `update` never fails and the invariant holds throughout. */
  lemma {:induction false} RunKeepsInv(s: NpcState, frames: seq<(bool, Rect)>, sprytek: Rect, dialogs: seq<nat>)
    requires DialogsOk(dialogs) && Inv(s, dialogs)
    ensures Run(s, frames, sprytek, dialogs).Some? && Inv(Run(s, frames, sprytek, dialogs).value, dialogs)
    decreases |frames|
  {
    if frames != [] {
      StepKeepsInv(s, frames[0].0, sprytek, frames[0].1, dialogs);
      RunKeepsInv(Step(s, frames[0].0, sprytek, frames[0].1, dialogs).value, frames[1..], sprytek, dialogs);
    }
  }

  class Npc {
    const sprytekPosition: Cell
    const sprytekRect: Rect
    const screenWidth: int
    const screenHeight: int
    /** The number of texts of each Sprytek dialog, in file order. */
    const dialogs: seq<nat>
    var isTalking: bool
    var currentDialogIndex: int
    var currentTextIndex: int
    var dialogCooldown: int
    var playerNear: bool
    var fKeyPressed: bool

    function State(): NpcState
      reads this
    {
      NpcState(isTalking, currentDialogIndex, currentTextIndex, dialogCooldown, playerNear, fKeyPressed)
    }

    constructor (screenWidth: int, screenHeight: int, x: int, y: int, dialogs: seq<nat>)
      ensures sprytekPosition == (x, y) && sprytekRect == SpriteRect(x, y) && this.dialogs == dialogs
      ensures this.screenWidth == screenWidth && this.screenHeight == screenHeight
      ensures State() == NpcState(false, 0, 0, 0, false, false)
      ensures |dialogs| > 0 ==> Inv(State(), dialogs)
    {
      sprytekPosition := (x, y);
      sprytekRect := SpriteRect(x, y);
      this.screenWidth := screenWidth;
      this.screenHeight := screenHeight;
      this.dialogs := dialogs;
      isTalking := false;
      currentDialogIndex := 0;
      currentTextIndex := 0;
      dialogCooldown := 0;
      playerNear := false;
      fKeyPressed := false;
    }

    /** `update`; `raised` stands for the `IndexError`, after which the fields are left as the failing frame had set them. */
    method Update(keys: Keys, playerRect: Rect) returns (raised: bool)
      modifies this`isTalking, this`currentDialogIndex, this`currentTextIndex, this`dialogCooldown, this`playerNear, this`fKeyPressed
      ensures raised <==> Step(old(State()), keys.f, sprytekRect, playerRect, dialogs).None?
      ensures !raised ==> State() == Step(old(State()), keys.f, sprytekRect, playerRect, dialogs).value
    {
      var proximityRect := sprytekRect.Inflate(Reach, Reach);
      playerNear := Collide(proximityRect, playerRect);
      if dialogCooldown > 0 {
        dialogCooldown := dialogCooldown - 1;
      }
      raised := HandleF(keys.f);
      if raised {
        return;
      }
      if !playerNear && isTalking {
        isTalking := false;
        currentTextIndex := 0;
      }
    }

    /** The F block of `update`. */
    method HandleF(f: bool) returns (raised: bool)
      modifies this`isTalking, this`currentDialogIndex, this`currentTextIndex, this`dialogCooldown, this`fKeyPressed
      ensures raised <==> Press(old(State()), f, dialogs).None?
      ensures !raised ==> State() == Press(old(State()), f, dialogs).value
    {
      if f && !fKeyPressed && dialogCooldown == 0 {
        fKeyPressed := true;
        if playerNear {
          if !isTalking {
            isTalking := true;
            currentTextIndex := 0;
          } else {
            currentTextIndex := currentTextIndex + 1;
            if !(0 <= currentDialogIndex < |dialogs|) {
              return true;
            }
            if currentTextIndex >= dialogs[currentDialogIndex] {
              isTalking := false;
              currentTextIndex := 0;
              currentDialogIndex := (currentDialogIndex + 1) % |dialogs|;
            }
          }
          dialogCooldown := Cooldown;
        }
      }
      if !f {
        fKeyPressed := false;
      }
      return false;
    }
  }
}
