/**
 * The title screen: a five-entry main menu, the choice among the three save
 * slots (to start a new game or to load one), and the two confirmation
 * dialogs for deleting and for overwriting a save. Every update first
 * honours an input cooldown that debounces held keys.
 */
module MainMenu {
  import opened Wrappers
  import opened Input

  /** The number of entries of the main menu: New Game, Load Game, Options, Credits, Quit. */
  const MainOptionCount: int := 5
  const NewGameOption: int := 0
  const LoadGameOption: int := 1
  const OptionsOption: int := 2
  const CreditsOption: int := 3
  const QuitOption: int := 4
  /** The save slots, numbered 1 to 3 outside the menu and 0 to 2 inside it. */
  const SlotCount: int := 3
  const NavCooldown: int := 12
  const ActionCooldown: int := 15
  /** `reset_cooldown`'s cooldown, set when the game returns to the menu. */
  const ReturnCooldown: int := 20

  datatype Screen = Main | SaveSelect | ConfirmDelete | ConfirmOverwrite

  /** The first element of the `(action, data)` pair `update` returns. */
  datatype Action = NoAction | NewGame | LoadGame | OpenOptions | OpenCredits | Quit

  /** What a save slot summary says; the menu only tells an empty slot from a full one. */
  datatype SaveInfo = SaveInfo(summary: map<string, string>)

  datatype Menu = Menu(
    screen: Screen, selectedIndex: int, loadingMode: bool, saveSlots: seq<Option<SaveInfo>>,
    selectedSlot: int, slotToDelete: Option<int>, slotToOverwrite: Option<int>,
    cooldown: int, animTimer: int)

  /**
   * One update's outcome: the new menu, the `(action, data)` pair, and the
   * slot number handed to `delete_save`, if any.
   */
  datatype Reply = Reply(menu: Menu, action: Action, data: Option<int>, deleted: Option<int>)

  // ---------------------------------------------------------------------------
  // Save slots
  // ---------------------------------------------------------------------------

  predicate AnySaved(slots: seq<Option<SaveInfo>>) {
    exists i :: 0 <= i < |slots| && slots[i].Some?
  }

  /** The first non-empty slot. */
  function FirstSaved(slots: seq<Option<SaveInfo>>): (i: int)
    requires AnySaved(slots)
    ensures 0 <= i < |slots| && slots[i].Some?
    ensures forall j :: 0 <= j < i ==> slots[j].None?
    decreases |slots|
  {
    if slots[0].Some? then 0
    else
      var j :| 0 <= j < |slots| && slots[j].Some?;
      assert slots[1..][j - 1].Some?;
      1 + FirstSaved(slots[1..])
  }

  /** The load-mode search of `_navigate_slots`: up to `tries` moves in `direction`, stopping at a full slot. */
  function SeekSaved(slots: seq<Option<SaveInfo>>, slot: int, direction: int, tries: nat): (r: int)
    requires |slots| == SlotCount
    ensures 0 <= r < SlotCount || (tries == 0 && r == slot)
    decreases tries
  {
    if tries == 0 then slot
    else
      var next := (slot + direction) % SlotCount;
      if slots[next].Some? then next else SeekSaved(slots, next, direction, tries - 1)
  }

  /** `_navigate_slots(direction)`. */
  function Navigate(loadingMode: bool, slots: seq<Option<SaveInfo>>, slot: int, direction: int): int
    requires |slots| == SlotCount
  {
    if loadingMode then SeekSaved(slots, slot, direction, SlotCount) else (slot + direction) % SlotCount
  }

  /**
   * `_navigate_slots` keeps the slot within `[0, 3)`; a new-game move is a
   * plain step around the three slots; in load mode it lands on a full slot
   * whenever there is one, and stays put when there is none.
   */
  lemma NavigateLands(loadingMode: bool, slots: seq<Option<SaveInfo>>, slot: int, direction: int)
    requires |slots| == SlotCount && 0 <= slot < SlotCount
    requires direction == 1 || direction == -1
    ensures 0 <= Navigate(loadingMode, slots, slot, direction) < SlotCount
    ensures !loadingMode ==> Navigate(loadingMode, slots, slot, direction) == (slot + direction) % SlotCount
    ensures loadingMode && AnySaved(slots) ==> slots[Navigate(loadingMode, slots, slot, direction)].Some?
    ensures loadingMode && !AnySaved(slots) ==> Navigate(loadingMode, slots, slot, direction) == slot
  {
    var a := (slot + direction) % SlotCount;
    var b := (a + direction) % SlotCount;
    var c := (b + direction) % SlotCount;
    assert c == slot;
    assert a != b && b != c && a != c;
    if loadingMode && AnySaved(slots) {
      var i :| 0 <= i < |slots| && slots[i].Some?;
      assert i == a || i == b || i == c;
    }
  }

  // ---------------------------------------------------------------------------
  // One update
  // ---------------------------------------------------------------------------

  /** The menu's invariant: indices in range, slots listed once the menu leaves the main screen, dialogs with their slot. */
  predicate Inv(m: Menu) {
    0 <= m.selectedIndex < MainOptionCount && 0 <= m.selectedSlot < SlotCount && m.cooldown >= 0 &&
    (m.screen != Main ==> |m.saveSlots| == SlotCount) &&
    (m.screen == ConfirmDelete ==> m.slotToDelete.Some? && 1 <= m.slotToDelete.value <= SlotCount) &&
    (m.screen == ConfirmOverwrite ==> m.slotToOverwrite.Some? && 1 <= m.slotToOverwrite.value <= SlotCount)
  }

  function NoReply(m: Menu): Reply {
    Reply(m, NoAction, None, None)
  }

  /** The UP/W and DOWN/S handling of the main screen. */
  function MainNav(m: Menu, k: Keys): Menu {
    if k.NavUp() then m.(selectedIndex := (m.selectedIndex - 1) % MainOptionCount, cooldown := NavCooldown)
    else if k.NavDown() then m.(selectedIndex := (m.selectedIndex + 1) % MainOptionCount, cooldown := NavCooldown)
    else m
  }

  /** Selecting the highlighted main-menu entry; `listing` is what `list_saves()` gives this frame. */
  function Choose(m: Menu, listing: seq<Option<SaveInfo>>): (r: (Menu, Action))
    requires 0 <= m.selectedIndex < MainOptionCount
  {
    var m := m.(cooldown := ActionCooldown);
    if m.selectedIndex == NewGameOption then
      (m.(loadingMode := false, saveSlots := listing, screen := SaveSelect, selectedSlot := 0), NoAction)
    else if m.selectedIndex == LoadGameOption then
      var m := m.(loadingMode := true, saveSlots := listing);
      if AnySaved(listing) then (m.(screen := SaveSelect, selectedSlot := FirstSaved(listing)), NoAction)
      else (m, NoAction)
    else if m.selectedIndex == OptionsOption then (m, OpenOptions)
    else if m.selectedIndex == CreditsOption then (m, OpenCredits)
    else (m, Quit)
  }

  /** `_update_main_menu`: navigation, then selection, then ESC. */
  function MainStep(m: Menu, k: Keys, listing: seq<Option<SaveInfo>>): Reply
    requires 0 <= m.selectedIndex < MainOptionCount
  {
    var m1 := MainNav(m, k);
    var (m2, a) := if k.Select() then Choose(m1, listing) else (m1, NoAction);
    if a != NoAction then Reply(m2, a, None, None)
    else if k.escape then Reply(m2, Quit, None, None)
    else NoReply(m2)
  }

  /** The slot navigation of the save-select screen. */
  function SlotNav(m: Menu, k: Keys): Menu
    requires |m.saveSlots| == SlotCount
  {
    if k.NavUp() then m.(selectedSlot := Navigate(m.loadingMode, m.saveSlots, m.selectedSlot, -1), cooldown := NavCooldown)
    else if k.NavDown() then m.(selectedSlot := Navigate(m.loadingMode, m.saveSlots, m.selectedSlot, 1), cooldown := NavCooldown)
    else m
  }

  /** Selecting the highlighted slot: load a full one, start on an empty one, or ask before overwriting. */
  function Pick(m: Menu): Reply
    requires 0 <= m.selectedSlot < |m.saveSlots|
  {
    var m := m.(cooldown := ActionCooldown);
    var full := m.saveSlots[m.selectedSlot].Some?;
    if m.loadingMode then
      if full then Reply(m, LoadGame, Some(m.selectedSlot + 1), None) else NoReply(m)
    else if !full then Reply(m, NewGame, Some(m.selectedSlot + 1), None)
    else NoReply(m.(slotToOverwrite := Some(m.selectedSlot + 1), screen := ConfirmOverwrite))
  }

  /** The D key: ask before deleting a full slot. */
  function OfferDelete(m: Menu, d: bool): Menu
    requires 0 <= m.selectedSlot < |m.saveSlots|
  {
    if d && m.saveSlots[m.selectedSlot].Some? then
      m.(slotToDelete := Some(m.selectedSlot + 1), screen := ConfirmDelete, cooldown := ActionCooldown)
    else m
  }

  /** `_update_save_select`: navigation, selection, delete, then ESC back to the main screen. */
  function SaveSelectStep(m: Menu, k: Keys): Reply
    requires |m.saveSlots| == SlotCount && 0 <= m.selectedSlot < SlotCount
  {
    var m1 := SlotNav(m, k);
    NavigateLands(m.loadingMode, m.saveSlots, m.selectedSlot, -1);
    NavigateLands(m.loadingMode, m.saveSlots, m.selectedSlot, 1);
    var r := if k.Select() then Pick(m1) else NoReply(m1);
    if r.action != NoAction then r
    else
      var m3 := OfferDelete(r.menu, k.d);
      NoReply(if k.escape then m3.(screen := Main, cooldown := ActionCooldown) else m3)
  }

  /** `_update_confirm_delete`: yes deletes and relists the saves, no cancels; both go back to the slots. */
  function ConfirmDeleteStep(m: Menu, k: Keys, listing: seq<Option<SaveInfo>>): Reply {
    if k.Yes() then
      Reply(m.(saveSlots := listing, slotToDelete := None, screen := SaveSelect, cooldown := ActionCooldown),
            NoAction, None, m.slotToDelete)
    else if k.No() then NoReply(m.(slotToDelete := None, screen := SaveSelect, cooldown := ActionCooldown))
    else NoReply(m)
  }

  /** `_update_confirm_overwrite`: yes starts the new game in the slot, no goes back to the slots. */
  function ConfirmOverwriteStep(m: Menu, k: Keys): Reply {
    if k.Yes() then
      Reply(m.(slotToOverwrite := None, screen := Main, cooldown := ActionCooldown), NewGame, m.slotToOverwrite, None)
    else if k.No() then NoReply(m.(slotToOverwrite := None, screen := SaveSelect, cooldown := ActionCooldown))
    else NoReply(m)
  }

  /** `update(keys, events)`; `listing` is what `list_saves()` would give if called this frame. */
  function Step(m: Menu, k: Keys, listing: seq<Option<SaveInfo>>): Reply
    requires Inv(m)
  {
    var m := m.(animTimer := m.animTimer + 1);
    if m.cooldown > 0 then NoReply(m.(cooldown := m.cooldown - 1))
    else match m.screen
      case Main => MainStep(m, k, listing)
      case SaveSelect => SaveSelectStep(m, k)
      case ConfirmDelete => ConfirmDeleteStep(m, k, listing)
      case ConfirmOverwrite => ConfirmOverwriteStep(m, k)
  }

  // ---------------------------------------------------------------------------
  // What an update promises
  // ---------------------------------------------------------------------------

  /** While the cooldown runs, an update only counts it down and ticks the animation. */
  lemma CooldownInert(m: Menu, k: Keys, listing: seq<Option<SaveInfo>>)
    requires Inv(m) && m.cooldown > 0
    ensures Step(m, k, listing) == NoReply(m.(cooldown := m.cooldown - 1, animTimer := m.animTimer + 1))
  {
  }

  /** The main-menu highlight wraps around the five entries. */
  lemma MainIndexWraps(m: Menu, k: Keys)
    requires 0 <= m.selectedIndex < MainOptionCount
    ensures k.NavUp() ==> MainNav(m, k).selectedIndex == (m.selectedIndex + MainOptionCount - 1) % MainOptionCount
    ensures !k.NavUp() && k.NavDown() ==> MainNav(m, k).selectedIndex == (m.selectedIndex + 1) % MainOptionCount
    ensures 0 <= MainNav(m, k).selectedIndex < MainOptionCount
    ensures m.selectedIndex == 0 && k.NavUp() ==> MainNav(m, k).selectedIndex == QuitOption
    ensures m.selectedIndex == QuitOption && !k.NavUp() && k.NavDown() ==> MainNav(m, k).selectedIndex == 0
  {
  }

  /**
   * New Game always opens the slots in new-game mode on the first slot;
   * Load Game opens them, on the first full slot, exactly when some slot
   * is full.
   */
  lemma ChooseEntersSlots(m: Menu, listing: seq<Option<SaveInfo>>)
    requires 0 <= m.selectedIndex < MainOptionCount && m.screen == Main
    ensures var (m', a) := Choose(m, listing);
      (m.selectedIndex == NewGameOption ==> a == NoAction && m'.screen == SaveSelect && !m'.loadingMode && m'.selectedSlot == 0) &&
      (m.selectedIndex == LoadGameOption ==> a == NoAction && m'.loadingMode && (m'.screen == SaveSelect <==> AnySaved(listing))) &&
      (m.selectedIndex == LoadGameOption && AnySaved(listing) ==>
        m'.saveSlots[m'.selectedSlot].Some? && forall j :: 0 <= j < m'.selectedSlot ==> m'.saveSlots[j].None?)
  {
  }

  /**
   * On the slots screen a load is emitted only for a full slot, a new game
   * only for an empty one, and a full slot in new-game mode asks before
   * overwriting; the emitted number is the 1-based slot.
   */
  lemma PickEmits(m: Menu)
    requires 0 <= m.selectedSlot < |m.saveSlots| && m.screen == SaveSelect
    ensures var r := Pick(m);
      (r.action == LoadGame <==> m.loadingMode && m.saveSlots[m.selectedSlot].Some?) &&
      (r.action == NewGame <==> !m.loadingMode && m.saveSlots[m.selectedSlot].None?) &&
      (r.action != NoAction ==> r.data == Some(m.selectedSlot + 1)) &&
      (r.menu.screen == ConfirmOverwrite <==> !m.loadingMode && m.saveSlots[m.selectedSlot].Some?) &&
      (r.menu.screen == ConfirmOverwrite ==> r.menu.slotToOverwrite == Some(m.selectedSlot + 1))
  {
  }

  /** Delete is offered exactly for a full slot. */
  lemma DeleteOnlyFull(m: Menu)
    requires 0 <= m.selectedSlot < |m.saveSlots| && m.screen != ConfirmDelete
    ensures OfferDelete(m, true).screen == ConfirmDelete <==> m.saveSlots[m.selectedSlot].Some?
    ensures OfferDelete(m, true).screen == ConfirmDelete ==> OfferDelete(m, true).slotToDelete == Some(m.selectedSlot + 1)
  {
  }

  /** Both answers of a confirmation dialog leave it with its slot cleared. */
  lemma DialogsClear(m: Menu, k: Keys, listing: seq<Option<SaveInfo>>)
    ensures (k.Yes() || k.No()) ==> ConfirmDeleteStep(m, k, listing).menu.screen == SaveSelect
    ensures (k.Yes() || k.No()) ==> ConfirmDeleteStep(m, k, listing).menu.slotToDelete.None?
    ensures k.Yes() ==> ConfirmDeleteStep(m, k, listing).deleted == m.slotToDelete
    ensures !k.Yes() ==> ConfirmDeleteStep(m, k, listing).deleted.None?
    ensures k.Yes() ==> ConfirmOverwriteStep(m, k) == Reply(
      m.(slotToOverwrite := None, screen := Main, cooldown := ActionCooldown), NewGame, m.slotToOverwrite, None)
    ensures !k.Yes() && k.No() ==> ConfirmOverwriteStep(m, k).menu.screen == SaveSelect
    ensures !k.Yes() && k.No() ==> ConfirmOverwriteStep(m, k).menu.slotToOverwrite.None?
  {
  }

  /**
   * A well-formed reply: the menu keeps its invariant, a slot number comes
   * exactly with a game to start or load, and every slot number emitted or
   * deleted is one of 1, 2, 3.
   */
  predicate WellFormed(r: Reply) {
    Inv(r.menu) &&
    (r.data.Some? <==> r.action == NewGame || r.action == LoadGame) &&
    (r.data.Some? ==> 1 <= r.data.value <= SlotCount) &&
    (r.deleted.Some? ==> 1 <= r.deleted.value <= SlotCount)
  }

  /** Every update from a well-formed menu gives a well-formed reply. */
  lemma StepKeepsInv(m: Menu, k: Keys, listing: seq<Option<SaveInfo>>)
    requires Inv(m) && |listing| == SlotCount
    ensures WellFormed(Step(m, k, listing))
  {
    var m0 := m.(animTimer := m.animTimer + 1);
    var r := Step(m, k, listing);
    if m0.cooldown > 0 {
      assert r == NoReply(m0.(cooldown := m0.cooldown - 1));
    } else if m0.screen == Main {
      assert r == MainStep(m0, k, listing);
      MainKeepsInv(m0, k, listing);
    } else if m0.screen == SaveSelect {
      assert r == SaveSelectStep(m0, k);
      SaveSelectKeepsInv(m0, k);
    } else if m0.screen == ConfirmDelete {
      assert r == ConfirmDeleteStep(m0, k, listing);
      ConfirmDeleteKeepsInv(m0, k, listing);
    } else {
      assert r == ConfirmOverwriteStep(m0, k);
      ConfirmOverwriteKeepsInv(m0, k);
    }
  }

  lemma ConfirmDeleteKeepsInv(m: Menu, k: Keys, listing: seq<Option<SaveInfo>>)
    requires Inv(m) && m.screen == ConfirmDelete && |listing| == SlotCount
    ensures WellFormed(ConfirmDeleteStep(m, k, listing))
    ensures ConfirmDeleteStep(m, k, listing).action == NoAction
  {
  }

  lemma ConfirmOverwriteKeepsInv(m: Menu, k: Keys)
    requires Inv(m) && m.screen == ConfirmOverwrite
    ensures WellFormed(ConfirmOverwriteStep(m, k))
    ensures ConfirmOverwriteStep(m, k).deleted.None? && ConfirmOverwriteStep(m, k).action != LoadGame
  {
  }

  lemma MainKeepsInv(m: Menu, k: Keys, listing: seq<Option<SaveInfo>>)
    requires Inv(m) && m.screen == Main && |listing| == SlotCount
    ensures WellFormed(MainStep(m, k, listing))
    ensures MainStep(m, k, listing).data.None? && MainStep(m, k, listing).deleted.None?
  {
  }

  lemma SaveSelectKeepsInv(m: Menu, k: Keys)
    requires Inv(m) && m.screen == SaveSelect
    ensures WellFormed(SaveSelectStep(m, k))
    ensures SaveSelectStep(m, k).deleted.None?
  {
    NavigateLands(m.loadingMode, m.saveSlots, m.selectedSlot, -1);
    NavigateLands(m.loadingMode, m.saveSlots, m.selectedSlot, 1);
  }

  // ---------------------------------------------------------------------------
  // The menu object
  // ---------------------------------------------------------------------------

  class MainMenu {
    const screenWidth: int
    const screenHeight: int
    var screen: Screen
    var selectedIndex: int
    var isLoadingMode: bool
    var saveSlots: seq<Option<SaveInfo>>
    var selectedSlot: int
    var slotToDelete: Option<int>
    var slotToOverwrite: Option<int>
    var inputCooldown: int
    var animTimer: int

    function State(): Menu
      reads this
    {
      Menu(screen, selectedIndex, isLoadingMode, saveSlots, selectedSlot, slotToDelete, slotToOverwrite,
           inputCooldown, animTimer)
    }

    /** The main screen on New Game, no slots listed yet, no cooldown. */
    constructor (screenWidth: int, screenHeight: int)
      ensures State() == Menu(Main, 0, false, [], 0, None, None, 0, 0)
      ensures Inv(State())
    {
      this.screenWidth := screenWidth;
      this.screenHeight := screenHeight;
      screen := Main;
      selectedIndex := 0;
      isLoadingMode := false;
      saveSlots := [];
      selectedSlot := 0;
      slotToDelete := None;
      slotToOverwrite := None;
      inputCooldown := 0;
      animTimer := 0;
    }

    /** `refresh_saves`, given what `list_saves()` returns. */
    method RefreshSaves(listing: seq<Option<SaveInfo>>)
      modifies this`saveSlots
      ensures saveSlots == listing
    {
      saveSlots := listing;
    }

    method ResetCooldown()
      modifies this`inputCooldown
      ensures inputCooldown == ReturnCooldown
    {
      inputCooldown := ReturnCooldown;
    }

    /**
     * `update(keys, events)`. `listing` is what `list_saves()` returns if
     * the update calls it; `deleted` is the slot it passes to `delete_save`.
     */
    method Update(keys: Keys, listing: seq<Option<SaveInfo>>) returns (action: Action, data: Option<int>, deleted: Option<int>)
      requires Inv(State())
      modifies this
      ensures Reply(State(), action, data, deleted) == Step(old(State()), keys, listing)
    {
      animTimer := animTimer + 1;
      if inputCooldown > 0 {
        inputCooldown := inputCooldown - 1;
        return NoAction, None, None;
      }
      deleted := None;
      if screen == Main {
        action, data := UpdateMainMenu(keys, listing);
      } else if screen == SaveSelect {
        action, data := UpdateSaveSelect(keys);
      } else if screen == ConfirmDelete {
        deleted := UpdateConfirmDelete(keys, listing);
        action, data := NoAction, None;
      } else {
        action, data := UpdateConfirmOverwrite(keys);
      }
    }

    method UpdateMainMenu(keys: Keys, listing: seq<Option<SaveInfo>>) returns (action: Action, data: Option<int>)
      requires 0 <= selectedIndex < MainOptionCount
      modifies this`selectedIndex, this`inputCooldown, this`isLoadingMode, this`saveSlots, this`screen, this`selectedSlot
      ensures Reply(State(), action, data, None) == MainStep(old(State()), keys, listing)
    {
      ghost var m0 := State();
      if keys.NavUp() {
        selectedIndex := (selectedIndex - 1) % MainOptionCount;
        inputCooldown := NavCooldown;
      } else if keys.NavDown() {
        selectedIndex := (selectedIndex + 1) % MainOptionCount;
        inputCooldown := NavCooldown;
      }
      assert State() == MainNav(m0, keys);
      data := None;
      if keys.Select() {
        action := ChooseOption(listing);
        if action != NoAction {
          return;
        }
      }
      if keys.escape {
        return Quit, None;
      }
      return NoAction, None;
    }

    /** The selection branch of `_update_main_menu`. */
    method ChooseOption(listing: seq<Option<SaveInfo>>) returns (action: Action)
      requires 0 <= selectedIndex < MainOptionCount
      modifies this`inputCooldown, this`isLoadingMode, this`saveSlots, this`screen, this`selectedSlot
      ensures (State(), action) == Choose(old(State()), listing)
    {
      inputCooldown := ActionCooldown;
      action := NoAction;
      if selectedIndex == NewGameOption {
        isLoadingMode := false;
        RefreshSaves(listing);
        screen := SaveSelect;
        selectedSlot := 0;
      } else if selectedIndex == LoadGameOption {
        isLoadingMode := true;
        RefreshSaves(listing);
        var found, first := FindFirstSaved(saveSlots);
        if found {
          screen := SaveSelect;
          selectedSlot := first;
        }
      } else if selectedIndex == OptionsOption {
        action := OpenOptions;
      } else if selectedIndex == CreditsOption {
        action := OpenCredits;
      } else {
        action := Quit;
      }
    }

    /** `any(slot is not None ...)` and the search for the first full slot. */
    method FindFirstSaved(slots: seq<Option<SaveInfo>>) returns (found: bool, first: int)
      ensures found <==> AnySaved(slots)
      ensures found ==> first == FirstSaved(slots)
    {
      var i := 0;
      while i < |slots|
        invariant 0 <= i <= |slots|
        invariant forall j :: 0 <= j < i ==> slots[j].None?
      {
        if slots[i].Some? {
          FirstSavedUnique(slots, i);
          return true, i;
        }
        i := i + 1;
      }
      return false, 0;
    }

    method UpdateSaveSelect(keys: Keys) returns (action: Action, data: Option<int>)
      requires |saveSlots| == SlotCount && 0 <= selectedSlot < SlotCount
      modifies this`selectedSlot, this`inputCooldown, this`slotToOverwrite, this`screen, this`slotToDelete
      ensures Reply(State(), action, data, None) == SaveSelectStep(old(State()), keys)
    {
      ghost var m0 := State();
      MoveSelection(keys);
      ghost var m1 := State();
      if keys.Select() {
        action, data := PickSlot();
        if action != NoAction {
          return;
        }
      }
      assert State() == (if keys.Select() then Pick(m1) else NoReply(m1)).menu;
      DeleteOrBack(keys);
      return NoAction, None;
    }

    /** The UP/W and DOWN/S handling of `_update_save_select`. */
    method MoveSelection(keys: Keys)
      requires |saveSlots| == SlotCount && 0 <= selectedSlot < SlotCount
      modifies this`selectedSlot, this`inputCooldown
      ensures State() == SlotNav(old(State()), keys)
      ensures 0 <= selectedSlot < SlotCount
    {
      NavigateLands(isLoadingMode, saveSlots, selectedSlot, -1);
      NavigateLands(isLoadingMode, saveSlots, selectedSlot, 1);
      if keys.NavUp() {
        NavigateSlots(-1);
        inputCooldown := NavCooldown;
      } else if keys.NavDown() {
        NavigateSlots(1);
        inputCooldown := NavCooldown;
      }
    }

    /** The D and ESC handling of `_update_save_select`. */
    method DeleteOrBack(keys: Keys)
      requires 0 <= selectedSlot < |saveSlots|
      modifies this`slotToDelete, this`screen, this`inputCooldown
      ensures var m := OfferDelete(old(State()), keys.d);
        State() == if keys.escape then m.(screen := Main, cooldown := ActionCooldown) else m
    {
      if keys.d && saveSlots[selectedSlot].Some? {
        slotToDelete := Some(selectedSlot + 1);
        screen := ConfirmDelete;
        inputCooldown := ActionCooldown;
      }
      if keys.escape {
        screen := Main;
        inputCooldown := ActionCooldown;
      }
    }

    /** The selection branch of `_update_save_select`. */
    method PickSlot() returns (action: Action, data: Option<int>)
      requires 0 <= selectedSlot < |saveSlots|
      modifies this`inputCooldown, this`slotToOverwrite, this`screen
      ensures Reply(State(), action, data, None) == Pick(old(State()))
    {
      inputCooldown := ActionCooldown;
      var slotInfo := saveSlots[selectedSlot];
      if isLoadingMode {
        if slotInfo.Some? {
          return LoadGame, Some(selectedSlot + 1);
        }
      } else {
        if slotInfo.None? {
          return NewGame, Some(selectedSlot + 1);
        } else {
          slotToOverwrite := Some(selectedSlot + 1);
          screen := ConfirmOverwrite;
        }
      }
      return NoAction, None;
    }

    /** `_navigate_slots(direction)`: in load mode up to three moves, stopping at a full slot. */
    method NavigateSlots(direction: int)
      requires |saveSlots| == SlotCount
      modifies this`selectedSlot
      ensures selectedSlot == Navigate(isLoadingMode, saveSlots, old(selectedSlot), direction)
    {
      if isLoadingMode {
        ghost var start := selectedSlot;
        var n := 0;
        while n < SlotCount
          invariant 0 <= n <= SlotCount
          invariant SeekSaved(saveSlots, selectedSlot, direction, SlotCount - n) == SeekSaved(saveSlots, start, direction, SlotCount)
        {
          selectedSlot := (selectedSlot + direction) % SlotCount;
          if saveSlots[selectedSlot].Some? {
            return;
          }
          n := n + 1;
        }
      } else {
        selectedSlot := (selectedSlot + direction) % SlotCount;
      }
    }

    /** `_update_confirm_delete`; returns the slot handed to `delete_save`, if the deletion is confirmed. */
    method UpdateConfirmDelete(keys: Keys, listing: seq<Option<SaveInfo>>) returns (deleted: Option<int>)
      modifies this`saveSlots, this`slotToDelete, this`screen, this`inputCooldown
      ensures Reply(State(), NoAction, None, deleted) == ConfirmDeleteStep(old(State()), keys, listing)
    {
      deleted := None;
      if keys.Yes() {
        deleted := slotToDelete;
        RefreshSaves(listing);
        slotToDelete := None;
        screen := SaveSelect;
        inputCooldown := ActionCooldown;
      } else if keys.No() {
        slotToDelete := None;
        screen := SaveSelect;
        inputCooldown := ActionCooldown;
      }
    }

    method UpdateConfirmOverwrite(keys: Keys) returns (action: Action, data: Option<int>)
      modifies this`slotToOverwrite, this`screen, this`inputCooldown
      ensures Reply(State(), action, data, None) == ConfirmOverwriteStep(old(State()), keys)
    {
      if keys.Yes() {
        var slot := slotToOverwrite;
        slotToOverwrite := None;
        screen := Main;
        inputCooldown := ActionCooldown;
        return NewGame, slot;
      } else if keys.No() {
        slotToOverwrite := None;
        screen := SaveSelect;
        inputCooldown := ActionCooldown;
      }
      return NoAction, None;
    }
  }

  /** A full slot with only empty slots before it is the first full slot. */
  lemma FirstSavedUnique(slots: seq<Option<SaveInfo>>, i: int)
    requires 0 <= i < |slots| && slots[i].Some?
    requires forall j :: 0 <= j < i ==> slots[j].None?
    ensures AnySaved(slots) && FirstSaved(slots) == i
  {
    var f := FirstSaved(slots);
    assert !(f < i) && !(i < f);
  }
}
