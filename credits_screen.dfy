/** The credits screen: shown with a half-second delay, left again on any key. */
module CreditsScreen {
  import opened Input

  /** Frames before a key can close the screen. */
  const ShowDelay: int := 30

  /** The kind of a pygame event the screen looks at. */
  datatype Event = KeyDown | OtherEvent

  /** The action `update` returns. */
  datatype Action = NoAction | Back

  /** Some key is held, or some event of the frame is a key press. */
  predicate AnyInput(k: Keys, events: seq<Event>) {
    k.Any() || exists i :: 0 <= i < |events| && events[i] == KeyDown
  }

  /** `update(keys, events)` on `(is_showing, input_cooldown)`. */
  function Step(showing: bool, cooldown: int, k: Keys, events: seq<Event>): (r: (bool, int, Action)) {
    if !showing then (showing, cooldown, NoAction)
    else if cooldown > 0 then (showing, cooldown - 1, NoAction)
    else if AnyInput(k, events) then (false, cooldown, Back)
    else (showing, cooldown, NoAction)
  }

  /**
   * Hidden, nothing happens; during the delay it only counts down; after
   * it, "back" comes exactly on some input and hides the screen.
   */
  lemma StepCases(showing: bool, cooldown: int, k: Keys, events: seq<Event>)
    ensures var (s, c, a) := Step(showing, cooldown, k, events);
      (!showing ==> s == showing && c == cooldown && a == NoAction) &&
      (showing && cooldown > 0 ==> s && c == cooldown - 1 && a == NoAction) &&
      (showing && cooldown <= 0 ==> (a == Back <==> AnyInput(k, events)) && (s <==> a == NoAction)) &&
      (a == Back ==> !s && showing && cooldown <= 0)
  {
  }

  /** The screen over frames `(keys, events)`. */
  function Run(showing: bool, cooldown: int, frames: seq<(Keys, seq<Event>)>): (bool, int)
    decreases |frames|
  {
    if frames == [] then (showing, cooldown)
    else var (s, c, _) := Step(showing, cooldown, frames[0].0, frames[0].1); Run(s, c, frames[1..])
  }

  /** Once shown, the screen stays up through the first 30 frames, whatever is pressed. */
  lemma {:induction false} DelayHolds(cooldown: int, frames: seq<(Keys, seq<Event>)>)
    requires cooldown >= |frames|
    ensures Run(true, cooldown, frames) == (true, cooldown - |frames|)
    decreases |frames|
  {
    if frames != [] {
      assert Step(true, cooldown, frames[0].0, frames[0].1) == (true, cooldown - 1, NoAction);
      DelayHolds(cooldown - 1, frames[1..]);
    }
  }

  class CreditsScreen {
    const screenWidth: int
    const screenHeight: int
    var isShowing: bool
    var inputCooldown: int

    constructor (screenWidth: int, screenHeight: int)
      ensures !isShowing && inputCooldown == 0
    {
      this.screenWidth := screenWidth;
      this.screenHeight := screenHeight;
      isShowing := false;
      inputCooldown := 0;
    }

    method Show()
      modifies this`isShowing, this`inputCooldown
      ensures isShowing && inputCooldown == ShowDelay
    {
      isShowing := true;
      inputCooldown := ShowDelay;
    }

    method Hide()
      modifies this`isShowing
      ensures !isShowing
    {
      isShowing := false;
    }

    method Update(keys: Keys, events: seq<Event>) returns (action: Action)
      modifies this`isShowing, this`inputCooldown
      ensures (isShowing, inputCooldown, action) == Step(old(isShowing), old(inputCooldown), keys, events)
    {
      if !isShowing {
        return NoAction;
      }
      if inputCooldown > 0 {
        inputCooldown := inputCooldown - 1;
        return NoAction;
      }
      var keyDown := KeyDownIn(events);
      if keys.Any() || keyDown {
        Hide();
        return Back;
      }
      return NoAction;
    }

    /** `any(event.type == pygame.KEYDOWN for event in events)`. */
    method KeyDownIn(events: seq<Event>) returns (found: bool)
      ensures found <==> exists i :: 0 <= i < |events| && events[i] == KeyDown
    {
      var i := 0;
      while i < |events|
        invariant 0 <= i <= |events|
        invariant forall j :: 0 <= j < i ==> events[j] != KeyDown
      {
        if events[i] == KeyDown {
          return true;
        }
        i := i + 1;
      }
      return false;
    }
  }
}
