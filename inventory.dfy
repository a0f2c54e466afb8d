/**
 * The inventory of the current game: a single carry slot for a cat, the list
 * of collected item indices, the inventory panel opened and closed by the E
 * key (once per press), and the choice of which pick-up hint is shown.
 */
module Inventory {
  import opened Wrappers
  import opened Input

  // ---------------------------------------------------------------------------
  // The E toggle
  // ---------------------------------------------------------------------------

  /**
   * One frame of the E toggle on `(inventory_open, toggle_pressed)`: a press
   * that is not yet latched flips the panel and latches; any frame without E
   * releases the latch.
   */
  function Toggle(open: bool, pressed: bool, e: bool): (r: (bool, bool))
    ensures r.1 == e
    ensures r.0 == (if e && !pressed then !open else open)
  {
    var (o, p) := if e && !pressed then (!open, true) else (open, pressed);
    if !e then (o, false) else (o, p)
  }

  /** The toggle over a run of frames, `es[i]` telling whether E is held in frame `i`. */
  function ToggleRun(open: bool, pressed: bool, es: seq<bool>): (bool, bool)
    decreases |es|
  {
    if es == [] then (open, pressed) else
      var r := Toggle(open, pressed, es[0]);
      ToggleRun(r.0, r.1, es[1..])
  }

  /** The presses in a run: frames with E held that follow a frame without it (or a released latch at the start). */
  function Presses(pressed: bool, es: seq<bool>): nat
    decreases |es|
  {
    if es == [] then 0 else (if es[0] && !pressed then 1 else 0) + Presses(es[0], es[1..])
  }

  /** The panel flips once per press: its final state is the initial one flipped by the parity of the presses. */
  lemma {:induction false} ToggleRunParity(open: bool, pressed: bool, es: seq<bool>)
    ensures ToggleRun(open, pressed, es).0 == (if Presses(pressed, es) % 2 == 0 then open else !open)
    ensures es != [] ==> ToggleRun(open, pressed, es).1 == es[|es| - 1]
    decreases |es|
  {
    if es != [] {
      var r := Toggle(open, pressed, es[0]);
      ToggleRunParity(r.0, r.1, es[1..]);
      if |es| > 1 {
        assert es[1..][|es[1..]| - 1] == es[|es| - 1];
      }
    }
  }

  /** Holding E, once latched, never flips the panel again. */
  lemma {:induction false} HoldingDoesNotFlip(open: bool, n: nat)
    ensures ToggleRun(open, true, seq(n, _ => true)) == (open, true)
    decreases n
  {
    if n > 0 {
      assert seq(n, _ => true)[1..] == seq(n - 1, _ => true);
      HoldingDoesNotFlip(open, n - 1);
    }
  }

  // ---------------------------------------------------------------------------
  // The carry slot and the hints
  // ---------------------------------------------------------------------------

  /** `pick_up_cat` on the carry slot: succeeds and stores the index only with empty hands. */
  function PickUp(slot: Option<nat>, cat: nat): (r: (Option<nat>, bool))
    ensures r.1 <==> slot.None?
    ensures r.0 == (if r.1 then Some(cat) else slot)
  {
    if slot.None? then (Some(cat), true) else (slot, false)
  }

  /** `put_down_cat` on the carry slot: returns what was carried and empties the hands. */
  function PutDown(slot: Option<nat>): (r: (Option<nat>, Option<nat>))
    ensures r.0 == slot && r.1.None?
  {
    (slot, None)
  }

  /** Picking a cat up with empty hands and putting it down gives that cat back and leaves the hands empty. */
  lemma PickPutRoundTrip(cat: nat)
    ensures PickUp(None, cat).1 && PutDown(PickUp(None, cat).0) == (Some(cat), None)
  {
  }

  /** A second pick-up while carrying changes nothing. */
  lemma PickWhileCarrying(slot: Option<nat>, cat: nat)
    requires slot.Some?
    ensures PickUp(slot, cat) == (slot, false)
  {
  }

  /** The hint lines `update_inventory` may draw. */
  datatype Hint = NoHint | CatHint | ItemHint | StorageHint

  /** The hint chain of `update_inventory`. */
  function ChosenHint(showCollect: bool, showCollectible: bool, showStorage: bool, slot: Option<nat>): Hint {
    if showCollect && slot.None? then CatHint
    else if showCollectible then ItemHint
    else if showStorage && slot.Some? then StorageHint
    else NoHint
  }

  /**
   * The cat hint needs empty hands, the storage hint needs a carried cat,
   * and the item hint shows exactly when the cat hint does not and the item
   * flag is set.
   */
  lemma HintPriority(showCollect: bool, showCollectible: bool, showStorage: bool, slot: Option<nat>)
    ensures ChosenHint(showCollect, showCollectible, showStorage, slot) == CatHint <==> showCollect && slot.None?
    ensures ChosenHint(showCollect, showCollectible, showStorage, slot) == ItemHint <==> !(showCollect && slot.None?) && showCollectible
    ensures ChosenHint(showCollect, showCollectible, showStorage, slot) == StorageHint <==> !showCollectible && showStorage && slot.Some?
    ensures ChosenHint(showCollect, showCollectible, showStorage, slot) == NoHint <==>
      !(showCollect && slot.None?) && !showCollectible && !(showStorage && slot.Some?)
  {
  }

  // ---------------------------------------------------------------------------
  // The inventory object
  // ---------------------------------------------------------------------------

  class Inventory {
    var inventoryOpen: bool
    var togglePressed: bool
    const screenWidth: int
    const screenHeight: int
    /** `collected_items`: the collectible indices in the order they were found. */
    var collectedItems: seq<nat>
    /** `carried_cat`: the index of the cat in the player's hands, if any. */
    var carriedCat: Option<nat>
    var showCollectHint: bool
    var showCollectibleHint: bool
    var showStorageHint: bool

    constructor (screenWidth: int, screenHeight: int)
      ensures !inventoryOpen && !togglePressed
      ensures this.screenWidth == screenWidth && this.screenHeight == screenHeight
      ensures collectedItems == [] && carriedCat.None?
      ensures !showCollectHint && !showCollectibleHint && !showStorageHint
    {
      inventoryOpen := false;
      togglePressed := false;
      this.screenWidth := screenWidth;
      this.screenHeight := screenHeight;
      collectedItems := [];
      carriedCat := None;
      showCollectHint := false;
      showCollectibleHint := false;
      showStorageHint := false;
    }

    method PickUpCat(catIndex: nat) returns (ok: bool)
      modifies this`carriedCat
      ensures (carriedCat, ok) == PickUp(old(carriedCat), catIndex)
    {
      if carriedCat.None? {
        carriedCat := Some(catIndex);
        return true;
      }
      return false;
    }

    method IsCarryingCat() returns (b: bool)
      ensures b <==> carriedCat.Some?
    {
      return carriedCat.Some?;
    }

    method GetCarriedCat() returns (c: Option<nat>)
      ensures c == carriedCat
    {
      return carriedCat;
    }

    method PutDownCat() returns (cat: Option<nat>)
      modifies this`carriedCat
      ensures (cat, carriedCat) == PutDown(old(carriedCat))
    {
      cat := carriedCat;
      carriedCat := None;
    }

    /** `add_collectible`: the index goes at the end of the list. */
    method AddCollectible(collectibleIndex: nat)
      modifies this`collectedItems
      ensures collectedItems == old(collectedItems) + [collectibleIndex]
      ensures |collectedItems| == |old(collectedItems)| + 1
    {
      collectedItems := collectedItems + [collectibleIndex];
    }

    method GetCollectibleCount() returns (n: nat)
      ensures n == |collectedItems|
    {
      return |collectedItems|;
    }

    method SetStorageHint(show: bool)
      modifies this`showStorageHint
      ensures showStorageHint == show
    {
      showStorageHint := show;
    }

    method SetCollectHint(show: bool)
      modifies this`showCollectHint
      ensures showCollectHint == show
    {
      showCollectHint := show;
    }

    method SetCollectibleHint(show: bool)
      modifies this`showCollectibleHint
      ensures showCollectibleHint == show
    {
      showCollectibleHint := show;
    }

    /**
     * `update_inventory`: the E toggle, then what is drawn: the panel when
     * it is open, and the chosen hint. Counters and the carried-cat badge
     * are drawing only.
     */
    method UpdateInventory(keys: Keys) returns (panelShown: bool, hint: Hint)
      modifies this`inventoryOpen, this`togglePressed
      ensures (inventoryOpen, togglePressed) == Toggle(old(inventoryOpen), old(togglePressed), keys.e)
      ensures panelShown == inventoryOpen
      ensures hint == ChosenHint(showCollectHint, showCollectibleHint, showStorageHint, carriedCat)
    {
      if keys.e && !togglePressed {
        inventoryOpen := !inventoryOpen;
        togglePressed := true;
      }
      if !keys.e {
        togglePressed := false;
      }
      panelShown := inventoryOpen;
      if showCollectHint && carriedCat.None? {
        hint := CatHint;
      } else if showCollectibleHint {
        hint := ItemHint;
      } else if showStorageHint && carriedCat.Some? {
        hint := StorageHint;
      } else {
        hint := NoHint;
      }
    }
  }
}
