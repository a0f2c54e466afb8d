/**
 * The in-game pause menu: five entries (Resume, Save Game, Options, Main
 * Menu, Quit), confirmation dialogs before leaving for the main menu or
 * quitting, an input cooldown, and a save-feedback message that shows for
 * 90 frames.
 */
module PauseMenu {
  import opened Input

  const OptionCount: int := 5
  const ResumeOption: int := 0
  const SaveOption: int := 1
  const OptionsOption: int := 2
  const MainMenuOption: int := 3
  const QuitOption: int := 4
  const NavCooldown: int := 12
  const ActionCooldown: int := 15
  /** Frames the save message stays up (1.5 seconds at 60 frames a second). */
  const MessageFrames: int := 90

  datatype Screen = Main | ConfirmQuit | ConfirmMenu

  /** The action `update` returns; its data is always `None`. */
  datatype Action = NoAction | Resume | Save | OpenOptions | ToMainMenu | Quit

  datatype Pause = Pause(showing: bool, screen: Screen, selectedIndex: int, cooldown: int, message: string, messageTimer: int)

  /** `show`: visible on the main screen, first entry, with a cooldown against the ESC that opened it. */
  function Shown(p: Pause): (r: Pause)
    ensures r.showing && r.screen == Main && r.selectedIndex == 0 && r.cooldown == ActionCooldown
    ensures r.message == p.message && r.messageTimer == p.messageTimer
  {
    p.(showing := true, screen := Main, selectedIndex := 0, cooldown := ActionCooldown)
  }

  /** `show_save_message(success)`. */
  function WithMessage(p: Pause, success: bool): (r: Pause)
    ensures r.messageTimer == MessageFrames && r.message != ""
    ensures r.(message := p.message, messageTimer := p.messageTimer) == p
  {
    p.(message := if success then "Game Saved!" else "Save Failed!", messageTimer := MessageFrames)
  }

  /** The message timer of one frame: it counts down, and the message goes when it reaches 0. */
  function TickMessage(p: Pause): Pause {
    if p.messageTimer > 0 then
      var p := p.(messageTimer := p.messageTimer - 1);
      if p.messageTimer == 0 then p.(message := "") else p
    else p
  }

  /** `_update_main`: navigation, selection, then ESC. */
  function MainStep(p: Pause, k: Keys): (Pause, Action)
    requires 0 <= p.selectedIndex < OptionCount
  {
    var p := if k.NavUp() then p.(selectedIndex := (p.selectedIndex - 1) % OptionCount, cooldown := NavCooldown)
             else if k.NavDown() then p.(selectedIndex := (p.selectedIndex + 1) % OptionCount, cooldown := NavCooldown)
             else p;
    var (p, a) :=
      if !k.Select() then (p, NoAction)
      else
        var p := p.(cooldown := ActionCooldown);
        if p.selectedIndex == ResumeOption then (p.(showing := false), Resume)
        else if p.selectedIndex == SaveOption then (p, Save)
        else if p.selectedIndex == OptionsOption then (p, OpenOptions)
        else if p.selectedIndex == MainMenuOption then (p.(screen := ConfirmMenu), NoAction)
        else (p.(screen := ConfirmQuit), NoAction);
    if a != NoAction then (p, a)
    else if k.escape then (p.(showing := false, cooldown := ActionCooldown), Resume)
    else (p, NoAction)
  }

  /** `_update_confirm_quit`: yes quits (the menu stays up), no goes back. */
  function ConfirmQuitStep(p: Pause, k: Keys): (Pause, Action) {
    if k.Yes() then (p.(cooldown := ActionCooldown), Quit)
    else if k.No() then (p.(screen := Main, cooldown := ActionCooldown), NoAction)
    else (p, NoAction)
  }

  /** `_update_confirm_menu`: yes hides the menu and leaves for the main menu, no goes back. */
  function ConfirmMenuStep(p: Pause, k: Keys): (Pause, Action) {
    if k.Yes() then (p.(showing := false, cooldown := ActionCooldown), ToMainMenu)
    else if k.No() then (p.(screen := Main, cooldown := ActionCooldown), NoAction)
    else (p, NoAction)
  }

  /** `update(keys, events)`. */
  function Step(p: Pause, k: Keys): (Pause, Action)
    requires 0 <= p.selectedIndex < OptionCount
  {
    if !p.showing then (p, NoAction)
    else
      var p := TickMessage(p);
      if p.cooldown > 0 then (p.(cooldown := p.cooldown - 1), NoAction)
      else match p.screen
        case Main => MainStep(p, k)
        case ConfirmQuit => ConfirmQuitStep(p, k)
        case ConfirmMenu => ConfirmMenuStep(p, k)
  }

  /** The highlight is one of the five entries, the cooldown is not negative, and a message is up exactly while its timer runs. */
  predicate Inv(p: Pause) {
    0 <= p.selectedIndex < OptionCount && p.cooldown >= 0 && p.messageTimer >= 0 &&
    (p.messageTimer == 0 <==> p.message == "")
  }

  lemma ShownInv(p: Pause, success: bool)
    requires Inv(p)
    ensures Inv(Shown(p)) && Inv(WithMessage(p, success))
  {
  }

  /** While hidden, an update changes nothing and does nothing. */
  lemma HiddenInert(p: Pause, k: Keys)
    requires Inv(p) && !p.showing
    ensures Step(p, k) == (p, NoAction)
  {
  }

  /**
   * While showing, the message timer counts down on every update, the
   * cooldown's included, and the message is cleared exactly when the timer
   * reaches 0.
   */
  lemma MessageCountsDown(p: Pause, k: Keys)
    requires Inv(p) && p.showing
    ensures var r := Step(p, k).0;
      r.messageTimer == (if p.messageTimer > 0 then p.messageTimer - 1 else 0) &&
      (r.message == "" <==> r.messageTimer == 0) &&
      (r.messageTimer > 0 ==> r.message == p.message)
  {
    var t := TickMessage(p);
    assert t.messageTimer == (if p.messageTimer > 0 then p.messageTimer - 1 else 0);
    assert Step(p, k).0.messageTimer == t.messageTimer && Step(p, k).0.message == t.message by {
      if t.cooldown == 0 && t.screen == Main {
        MainKeepsMessage(t, k);
      }
    }
  }

  lemma MainKeepsMessage(p: Pause, k: Keys)
    requires 0 <= p.selectedIndex < OptionCount
    ensures MainStep(p, k).0.messageTimer == p.messageTimer && MainStep(p, k).0.message == p.message
  {
  }

  /** Each update keeps the invariant. */
  lemma StepKeepsInv(p: Pause, k: Keys)
    requires Inv(p)
    ensures Inv(Step(p, k).0)
  {
    if p.showing {
      MessageCountsDown(p, k);
      var t := TickMessage(p);
      if t.cooldown == 0 && t.screen == Main {
        assert Step(p, k) == MainStep(t, k);
        MainKeepsRange(t, k);
      }
    }
  }

  lemma MainKeepsRange(p: Pause, k: Keys)
    requires 0 <= p.selectedIndex < OptionCount && p.cooldown >= 0
    ensures 0 <= MainStep(p, k).0.selectedIndex < OptionCount && MainStep(p, k).0.cooldown >= 0
  {
  }

  /** The highlight wraps around the five entries. */
  lemma IndexWraps(p: Pause, k: Keys)
    requires 0 <= p.selectedIndex < OptionCount && !k.Select() && !k.escape
    ensures k.NavUp() ==> MainStep(p, k).0.selectedIndex == (p.selectedIndex + OptionCount - 1) % OptionCount
    ensures !k.NavUp() && k.NavDown() ==> MainStep(p, k).0.selectedIndex == (p.selectedIndex + 1) % OptionCount
  {
  }

  /**
   * On the main screen, "resume" is returned exactly when Resume is chosen
   * or ESC is held without another entry returning first, and it always
   * hides the menu.
   */
  lemma ResumeHides(p: Pause, k: Keys)
    requires 0 <= p.selectedIndex < OptionCount
    ensures var (r, a) := MainStep(p, k);
      (a == Resume ==> !r.showing) &&
      (k.escape ==> a == Resume || a == Save || a == OpenOptions) &&
      a != Quit && a != ToMainMenu
  {
  }

  /**
   * Main Menu and Quit only open their confirmation: "main_menu" and
   * "quit" come only from the confirmation screens, on yes; "main_menu"
   * hides the menu; no goes back to the main screen.
   */
  lemma ConfirmationsGuard(p: Pause, k: Keys)
    requires Inv(p)
    ensures var (r, a) := Step(p, k);
      (a == Quit ==> p.showing && p.screen == ConfirmQuit && k.Yes()) &&
      (a == ToMainMenu ==> p.showing && p.screen == ConfirmMenu && k.Yes() && !r.showing)
    ensures p.showing && TickMessage(p).cooldown == 0 && p.screen != Main && !k.Yes() && k.No() ==>
      Step(p, k).0.screen == Main && Step(p, k).1 == NoAction
  {
    if p.showing {
      var t := TickMessage(p);
      if t.cooldown == 0 && t.screen == Main {
        assert Step(p, k) == MainStep(t, k);
        ResumeHides(t, k);
      }
    }
  }

  class PauseMenu {
    const screenWidth: int
    const screenHeight: int
    var screen: Screen
    var selectedIndex: int
    var isShowing: bool
    var inputCooldown: int
    var saveMessage: string
    var saveMessageTimer: int

    function State(): Pause
      reads this
    {
      Pause(isShowing, screen, selectedIndex, inputCooldown, saveMessage, saveMessageTimer)
    }

    constructor (screenWidth: int, screenHeight: int)
      ensures State() == Pause(false, Main, 0, 0, "", 0)
      ensures Inv(State())
    {
      this.screenWidth := screenWidth;
      this.screenHeight := screenHeight;
      screen := Main;
      selectedIndex := 0;
      isShowing := false;
      inputCooldown := 0;
      saveMessage := "";
      saveMessageTimer := 0;
    }

    method Show()
      modifies this`isShowing, this`screen, this`selectedIndex, this`inputCooldown
      ensures State() == Shown(old(State()))
    {
      isShowing := true;
      screen := Main;
      selectedIndex := 0;
      inputCooldown := ActionCooldown;
    }

    method Hide()
      modifies this`isShowing
      ensures !isShowing
    {
      isShowing := false;
    }

    method ShowSaveMessage(success: bool)
      modifies this`saveMessage, this`saveMessageTimer
      ensures State() == WithMessage(old(State()), success)
    {
      saveMessage := if success then "Game Saved!" else "Save Failed!";
      saveMessageTimer := MessageFrames;
    }

    method Update(keys: Keys) returns (action: Action)
      requires 0 <= selectedIndex < OptionCount
      modifies this
      ensures (State(), action) == Step(old(State()), keys)
    {
      if !isShowing {
        return NoAction;
      }
      if saveMessageTimer > 0 {
        saveMessageTimer := saveMessageTimer - 1;
        if saveMessageTimer == 0 {
          saveMessage := "";
        }
      }
      if inputCooldown > 0 {
        inputCooldown := inputCooldown - 1;
        return NoAction;
      }
      if screen == Main {
        action := UpdateMain(keys);
      } else if screen == ConfirmQuit {
        action := UpdateConfirmQuit(keys);
      } else {
        action := UpdateConfirmMenu(keys);
      }
    }

    method UpdateMain(keys: Keys) returns (action: Action)
      requires 0 <= selectedIndex < OptionCount
      modifies this`selectedIndex, this`inputCooldown, this`isShowing, this`screen
      ensures (State(), action) == MainStep(old(State()), keys)
    {
      if keys.NavUp() {
        selectedIndex := (selectedIndex - 1) % OptionCount;
        inputCooldown := NavCooldown;
      } else if keys.NavDown() {
        selectedIndex := (selectedIndex + 1) % OptionCount;
        inputCooldown := NavCooldown;
      }
      if keys.Select() {
        inputCooldown := ActionCooldown;
        if selectedIndex == ResumeOption {
          Hide();
          return Resume;
        } else if selectedIndex == SaveOption {
          return Save;
        } else if selectedIndex == OptionsOption {
          return OpenOptions;
        } else if selectedIndex == MainMenuOption {
          screen := ConfirmMenu;
        } else {
          screen := ConfirmQuit;
        }
      }
      if keys.escape {
        Hide();
        inputCooldown := ActionCooldown;
        return Resume;
      }
      return NoAction;
    }

    method UpdateConfirmQuit(keys: Keys) returns (action: Action)
      modifies this`screen, this`inputCooldown
      ensures (State(), action) == ConfirmQuitStep(old(State()), keys)
    {
      if keys.Yes() {
        inputCooldown := ActionCooldown;
        return Quit;
      } else if keys.No() {
        screen := Main;
        inputCooldown := ActionCooldown;
      }
      return NoAction;
    }

    method UpdateConfirmMenu(keys: Keys) returns (action: Action)
      modifies this`screen, this`inputCooldown, this`isShowing
      ensures (State(), action) == ConfirmMenuStep(old(State()), keys)
    {
      if keys.Yes() {
        Hide();
        inputCooldown := ActionCooldown;
        return ToMainMenu;
      } else if keys.No() {
        screen := Main;
        inputCooldown := ActionCooldown;
      }
      return NoAction;
    }
  }
}
