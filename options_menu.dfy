/**
 * The options menu: a fullscreen toggle and three volume sliders, moved
 * through with UP/DOWN, changed with LEFT/RIGHT (and select keys for the
 * toggle), and left with ESC, which writes the settings back.
 */
module OptionsMenu {
  import opened Wrappers
  import opened Input

  /** The four entries: Fullscreen, Master Volume, Music Volume, SFX Volume. */
  const OptionCount: int := 4
  const FullscreenOption: int := 0
  const SliderStep: int := 5
  const MinVolume: int := 0
  const MaxVolume: int := 100
  const NavCooldown: int := 12
  const SliderCooldown: int := 8
  const ActionCooldown: int := 15

  /** The settings record `load_settings` returns, with its defaults merged in. */
  datatype Settings = Settings(fullscreen: bool, masterVolume: int, musicVolume: int, sfxVolume: int, tutorialCompleted: bool)

  /** The defaults of `load_settings`. */
  const DefaultSettings := Settings(false, 80, 60, 100, false)

  /** The action and data `update` returns. */
  datatype Action = NoAction | Back | ToggleFullscreen(on: bool)

  datatype Options = Options(showing: bool, selectedIndex: int, settings: Settings, cooldown: int, fullscreenChanged: bool)

  /** The value of slider entry `i` (1, 2 or 3). */
  function Volume(s: Settings, i: int): int
    requires 1 <= i < OptionCount
  {
    if i == 1 then s.masterVolume else if i == 2 then s.musicVolume else s.sfxVolume
  }

  /** The settings with slider entry `i` set to `v`. */
  function WithVolume(s: Settings, i: int, v: int): (r: Settings)
    requires 1 <= i < OptionCount
    ensures Volume(r, i) == v && r.fullscreen == s.fullscreen && r.tutorialCompleted == s.tutorialCompleted
    ensures forall j :: 1 <= j < OptionCount && j != i ==> Volume(r, j) == Volume(s, j)
  {
    if i == 1 then s.(masterVolume := v) else if i == 2 then s.(musicVolume := v) else s.(sfxVolume := v)
  }

  /** One slider move: down or up by 5, clamped to `[0, 100]`. */
  function Slide(v: int, up: bool): (r: int)
    ensures up ==> r == (if v + SliderStep < MaxVolume then v + SliderStep else MaxVolume)
    ensures !up ==> r == (if v - SliderStep > MinVolume then v - SliderStep else MinVolume)
  {
    if up then (if MaxVolume < v + SliderStep then MaxVolume else v + SliderStep)
    else (if MinVolume > v - SliderStep then MinVolume else v - SliderStep)
  }

  /** A slider move changes an in-range value by at most 5 and keeps it within `[0, 100]`, moving it in the pressed direction. */
  lemma SlideClamps(v: int, up: bool)
    requires MinVolume <= v <= MaxVolume
    ensures MinVolume <= Slide(v, up) <= MaxVolume
    ensures up ==> v <= Slide(v, up) <= v + SliderStep
    ensures !up ==> v - SliderStep <= Slide(v, up) <= v
    ensures up && v <= MaxVolume - SliderStep ==> Slide(v, up) == v + SliderStep
    ensures !up && v >= MinVolume + SliderStep ==> Slide(v, up) == v - SliderStep
  {
  }

  /** The LEFT/RIGHT adjustment of the highlighted entry; returns early for the fullscreen toggle. */
  function Adjust(o: Options, k: Keys): (Options, Action)
    requires 0 <= o.selectedIndex < OptionCount
  {
    if o.selectedIndex == FullscreenOption then
      if k.Select() || k.left || k.right then
        var on := !o.settings.fullscreen;
        (o.(settings := o.settings.(fullscreen := on), cooldown := ActionCooldown, fullscreenChanged := true), ToggleFullscreen(on))
      else (o, NoAction)
    else
      if k.left || k.a then
        (o.(settings := WithVolume(o.settings, o.selectedIndex, Slide(Volume(o.settings, o.selectedIndex), false)),
            cooldown := SliderCooldown), NoAction)
      else if k.right || k.d then
        (o.(settings := WithVolume(o.settings, o.selectedIndex, Slide(Volume(o.settings, o.selectedIndex), true)),
            cooldown := SliderCooldown), NoAction)
      else (o, NoAction)
  }

  /**
   * `update(keys, events)`: the new menu, the action, and the settings
   * `hide` hands to `save_settings`, if it is called.
   */
  function Step(o: Options, k: Keys): (Options, Action, Option<Settings>)
    requires 0 <= o.selectedIndex < OptionCount
  {
    if !o.showing then (o, NoAction, None)
    else if o.cooldown > 0 then (o.(cooldown := o.cooldown - 1), NoAction, None)
    else
      var o := if k.NavUp() then o.(selectedIndex := (o.selectedIndex - 1) % OptionCount, cooldown := NavCooldown)
               else if k.NavDown() then o.(selectedIndex := (o.selectedIndex + 1) % OptionCount, cooldown := NavCooldown)
               else o;
      var (o, a) := Adjust(o, k);
      if a != NoAction then (o, a, None)
      else if k.escape then (o.(showing := false, cooldown := ActionCooldown), Back, Some(o.settings))
      else (o, NoAction, None)
  }

  /** The highlight is one of the four entries, the cooldown is not negative, and every volume is within `[0, 100]`. */
  predicate Inv(o: Options) {
    0 <= o.selectedIndex < OptionCount && o.cooldown >= 0 &&
    forall i :: 1 <= i < OptionCount ==> MinVolume <= Volume(o.settings, i) <= MaxVolume
  }

  /** `show`: visible on the first entry with a fresh cooldown, the reloaded settings, and no fullscreen change yet. */
  function Shown(o: Options, loaded: Settings): (r: Options)
    ensures r.showing && r.selectedIndex == 0 && r.cooldown == ActionCooldown && r.settings == loaded && !r.fullscreenChanged
  {
    Options(true, 0, loaded, ActionCooldown, false)
  }

  /** While hidden, an update does nothing; during the cooldown it only counts down. */
  lemma Inert(o: Options, k: Keys)
    requires 0 <= o.selectedIndex < OptionCount
    ensures !o.showing ==> Step(o, k) == (o, NoAction, None)
    ensures o.showing && o.cooldown > 0 ==> Step(o, k) == (o.(cooldown := o.cooldown - 1), NoAction, None)
  {
  }

  /** Every update keeps the invariant. */
  lemma StepKeepsInv(o: Options, k: Keys)
    requires Inv(o)
    ensures Inv(Step(o, k).0)
  {
    if o.showing && o.cooldown == 0 {
      var o1 := if k.NavUp() then o.(selectedIndex := (o.selectedIndex - 1) % OptionCount, cooldown := NavCooldown)
                else if k.NavDown() then o.(selectedIndex := (o.selectedIndex + 1) % OptionCount, cooldown := NavCooldown)
                else o;
      assert Inv(o1);
      AdjustKeepsInv(o1, k);
    }
  }

  lemma AdjustKeepsInv(o: Options, k: Keys)
    requires Inv(o)
    ensures Inv(Adjust(o, k).0)
  {
    var r := Adjust(o, k).0;
    if o.selectedIndex != FullscreenOption {
      SlideClamps(Volume(o.settings, o.selectedIndex), false);
      SlideClamps(Volume(o.settings, o.selectedIndex), true);
    } else {
      forall j | 1 <= j < OptionCount ensures Volume(r.settings, j) == Volume(o.settings, j) {
      }
    }
  }

  /**
   * On the fullscreen entry any of RETURN, SPACE, F, LEFT or RIGHT flips
   * fullscreen, marks it changed and returns the new value; the volumes
   * stay as they were.
   */
  lemma ToggleFlips(o: Options, k: Keys)
    requires 0 <= o.selectedIndex < OptionCount
    requires o.selectedIndex == FullscreenOption && (k.Select() || k.left || k.right)
    ensures var (r, a) := Adjust(o, k);
      r.settings == o.settings.(fullscreen := !o.settings.fullscreen) && r.fullscreenChanged &&
      a == ToggleFullscreen(!o.settings.fullscreen)
  {
  }

  /** A slider entry changes only its own volume, by the clamped step. */
  lemma SliderMoves(o: Options, k: Keys)
    requires 1 <= o.selectedIndex < OptionCount
    ensures var (r, a) := Adjust(o, k);
      a == NoAction &&
      r.settings.fullscreen == o.settings.fullscreen &&
      (forall j :: 1 <= j < OptionCount && j != o.selectedIndex ==> Volume(r.settings, j) == Volume(o.settings, j)) &&
      ((k.left || k.a) ==> Volume(r.settings, o.selectedIndex) == Slide(Volume(o.settings, o.selectedIndex), false)) &&
      (!(k.left || k.a) && (k.right || k.d) ==> Volume(r.settings, o.selectedIndex) == Slide(Volume(o.settings, o.selectedIndex), true)) &&
      (!(k.left || k.a || k.right || k.d) ==> r == o)
  {
  }

  /** The highlight wraps around the four entries. */
  lemma IndexWraps(o: Options, k: Keys)
    requires Inv(o) && o.showing && o.cooldown == 0
    ensures var r := Step(o, k).0;
      (k.NavUp() ==> r.selectedIndex == (o.selectedIndex + OptionCount - 1) % OptionCount) &&
      (!k.NavUp() && k.NavDown() ==> r.selectedIndex == (o.selectedIndex + 1) % OptionCount) &&
      (!k.NavUp() && !k.NavDown() ==> r.selectedIndex == o.selectedIndex)
  {
  }

  /** ESC, unless the toggle returned first, hides the menu, writes the settings and goes back. */
  lemma EscapeGoesBack(o: Options, k: Keys)
    requires 0 <= o.selectedIndex < OptionCount && o.showing && o.cooldown == 0 && k.escape
    ensures var (r, a, saved) := Step(o, k);
      (a == Back <==> !a.ToggleFullscreen?) &&
      (a == Back ==> !r.showing && saved == Some(r.settings))
  {
  }

  class OptionsMenu {
    const screenWidth: int
    const screenHeight: int
    var selectedIndex: int
    var isShowing: bool
    var settings: Settings
    var inputCooldown: int
    var fullscreenChanged: bool

    function State(): Options
      reads this
    {
      Options(isShowing, selectedIndex, settings, inputCooldown, fullscreenChanged)
    }

    /** Hidden, first entry, with the settings `load_settings` gives (`loaded`). */
    constructor (screenWidth: int, screenHeight: int, loaded: Settings)
      ensures State() == Options(false, 0, loaded, 0, false)
    {
      this.screenWidth := screenWidth;
      this.screenHeight := screenHeight;
      selectedIndex := 0;
      isShowing := false;
      settings := loaded;
      inputCooldown := 0;
      fullscreenChanged := false;
    }

    /** `show`; `loaded` is what `load_settings` returns now. */
    method Show(loaded: Settings)
      modifies this
      ensures State() == Shown(old(State()), loaded)
    {
      isShowing := true;
      selectedIndex := 0;
      inputCooldown := ActionCooldown;
      settings := loaded;
      fullscreenChanged := false;
    }

    /** `hide`: returns the settings it hands to `save_settings`. */
    method Hide() returns (saved: Settings)
      modifies this`isShowing
      ensures !isShowing && saved == settings
    {
      isShowing := false;
      saved := settings;
    }

    method Update(keys: Keys) returns (action: Action, saved: Option<Settings>)
      requires 0 <= selectedIndex < OptionCount
      modifies this
      ensures (State(), action, saved) == Step(old(State()), keys)
    {
      if !isShowing {
        return NoAction, None;
      }
      if inputCooldown > 0 {
        inputCooldown := inputCooldown - 1;
        return NoAction, None;
      }
      if keys.NavUp() {
        selectedIndex := (selectedIndex - 1) % OptionCount;
        inputCooldown := NavCooldown;
      } else if keys.NavDown() {
        selectedIndex := (selectedIndex + 1) % OptionCount;
        inputCooldown := NavCooldown;
      }
      action := AdjustValue(keys);
      if action != NoAction {
        return action, None;
      }
      if keys.escape {
        var written := Hide();
        inputCooldown := ActionCooldown;
        return Back, Some(written);
      }
      return NoAction, None;
    }

    /** The value adjustment of `update`. */
    method AdjustValue(keys: Keys) returns (action: Action)
      requires 0 <= selectedIndex < OptionCount
      modifies this`settings, this`inputCooldown, this`fullscreenChanged
      ensures (State(), action) == Adjust(old(State()), keys)
    {
      action := NoAction;
      if selectedIndex == FullscreenOption {
        if keys.Select() || keys.left || keys.right {
          settings := settings.(fullscreen := !settings.fullscreen);
          inputCooldown := ActionCooldown;
          fullscreenChanged := true;
          return ToggleFullscreen(settings.fullscreen);
        }
      } else {
        var v := Volume(settings, selectedIndex);
        if keys.left || keys.a {
          var nv := if MinVolume > v - SliderStep then MinVolume else v - SliderStep;
          settings := WithVolume(settings, selectedIndex, nv);
          inputCooldown := SliderCooldown;
        } else if keys.right || keys.d {
          var nv := if MaxVolume < v + SliderStep then MaxVolume else v + SliderStep;
          settings := WithVolume(settings, selectedIndex, nv);
          inputCooldown := SliderCooldown;
        }
      }
    }
  }
}
