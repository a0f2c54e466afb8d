/**
 * The lore window of the older top-level game: shows an item's lore one
 * page per fresh press of F, with a 15-frame cooldown between presses,
 * and closes itself after the last page.
 */
module LoreDisplay {
  import opened Wrappers
  import opened Input

  const WindowWidth: int := 500
  const WindowHeight: int := 400
  /** Frames between accepted presses. */
  const Cooldown: int := 15

  /** An item's lore record: its name and its pages of lore (an absent `"lore"` key is no pages). */
  datatype LoreItem = LoreItem(name: string, lore: seq<string>)

  /** The window state `show_lore` and `update` change. */
  datatype LoreState = LoreState(showing: bool, item: Option<LoreItem>, page: int, fKeyPressed: bool, cooldown: int)

  /** The number of pages of the shown item; none when no item is shown. */
  function Pages(item: Option<LoreItem>): nat {
    if item.Some? then |item.value.lore| else 0
  }

  /** `show_lore`: show the item from its first page, treating F as already held so the press that opened it is not taken. */
  function Shown(item: LoreItem): (s: LoreState)
    ensures s.showing && s.item == Some(item) && s.page == 0 && s.fKeyPressed && s.cooldown == Cooldown
  {
    LoreState(true, Some(item), 0, true, Cooldown)
  }

  /** `update` for one frame: the new state and whether the window is still showing. */
  function Step(s: LoreState, f: bool): (r: (LoreState, bool))
    ensures !s.showing ==> r == (s, false)
    ensures s.showing ==> r.0.cooldown == Cooldown || r.0.cooldown == (if s.cooldown > 0 then s.cooldown - 1 else s.cooldown)
  {
    if !s.showing then (s, false)
    else
      var cd := if s.cooldown > 0 then s.cooldown - 1 else s.cooldown;
      if f && !s.fKeyPressed && cd == 0 then
        var page := s.page + 1;
        if page >= Pages(s.item) then (LoreState(false, None, 0, true, Cooldown), false)
        else (s.(page := page, fKeyPressed := true, cooldown := Cooldown), true)
      else (s.(cooldown := cd, fKeyPressed := if !f then false else s.fKeyPressed), true)
  }

  /** F is taken this frame: held, not held before, and no cooldown left after the decrement. */
  predicate Accepted(s: LoreState, f: bool) {
    f && !s.fKeyPressed && (if s.cooldown > 0 then s.cooldown - 1 else s.cooldown) == 0
  }

  /**
   * A taken press turns exactly one page and restarts the cooldown;
   * turning past the last page closes the window, drops the item and
   * reports it closed. Otherwise the window stays open on its page.
   */
  lemma StepPaging(s: LoreState, f: bool)
    requires s.showing
    ensures var (s', open) := Step(s, f);
      (Accepted(s, f) && s.page + 1 < Pages(s.item) ==> open && s'.page == s.page + 1 && s'.cooldown == Cooldown && s'.item == s.item) &&
      (Accepted(s, f) && s.page + 1 >= Pages(s.item) ==> !open && !s'.showing && s'.item.None? && s'.page == 0) &&
      (!Accepted(s, f) ==> open && s'.page == s.page && s'.item == s.item && s'.showing)
  {
  }

  /** The key that opened the window, still held, does not turn the page. */
  lemma OpeningPressNotTaken(item: LoreItem)
    ensures Step(Shown(item), true).0.page == 0 && Step(Shown(item), true).1
  {
  }

  /** While showing, there is an item, the page is within its lore (when it has any) and the cooldown within `[0, 15]`. */
  predicate Inv(s: LoreState) {
    0 <= s.cooldown <= Cooldown && 0 <= s.page &&
    (s.showing ==> s.item.Some? && (Pages(s.item) > 0 ==> s.page < Pages(s.item)))
  }

  lemma ShownInv(item: LoreItem)
    ensures Inv(Shown(item))
  {
  }

  lemma StepKeepsInv(s: LoreState, f: bool)
    requires Inv(s)
    ensures Inv(Step(s, f).0)
    ensures Step(s, f).1 <==> Step(s, f).0.showing
  {
  }

  class LoreDisplay {
    const screenWidth: int
    const screenHeight: int
    const windowX: int
    const windowY: int
    var isShowing: bool
    var currentItem: Option<LoreItem>
    var currentPage: int
    var fKeyPressed: bool
    var cooldown: int

    function State(): LoreState
      reads this
    {
      LoreState(isShowing, currentItem, currentPage, fKeyPressed, cooldown)
    }

    /** Closed, with the 500 x 400 window centred on the screen. */
    constructor (screenWidth: int, screenHeight: int)
      ensures State() == LoreState(false, None, 0, false, 0)
      ensures windowX == (screenWidth - WindowWidth) / 2 && windowY == (screenHeight - WindowHeight) / 2
    {
      this.screenWidth := screenWidth;
      this.screenHeight := screenHeight;
      windowX := (screenWidth - WindowWidth) / 2;
      windowY := (screenHeight - WindowHeight) / 2;
      isShowing := false;
      currentItem := None;
      currentPage := 0;
      fKeyPressed := false;
      cooldown := 0;
    }

    method ShowLore(itemData: LoreItem)
      modifies this
      ensures State() == Shown(itemData)
    {
      isShowing := true;
      currentItem := Some(itemData);
      currentPage := 0;
      fKeyPressed := true;
      cooldown := Cooldown;
    }

    method Update(keys: Keys) returns (stillShowing: bool)
      modifies this
      ensures (State(), stillShowing) == Step(old(State()), keys.f)
    {
      if !isShowing {
        return false;
      }
      if cooldown > 0 {
        cooldown := cooldown - 1;
      }
      if keys.f && !fKeyPressed && cooldown == 0 {
        fKeyPressed := true;
        currentPage := currentPage + 1;
        cooldown := Cooldown;
        var pages := if currentItem.Some? then |currentItem.value.lore| else 0;
        if currentPage >= pages {
          isShowing := false;
          currentItem := None;
          currentPage := 0;
          return false;
        }
      }
      if !keys.f {
        fKeyPressed := false;
      }
      return true;
    }
  }
}
