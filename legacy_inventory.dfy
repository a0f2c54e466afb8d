/** The inventory of the older top-level game: only the panel and its E toggle. */
module LegacyInventory {
  import opened Input
  import opened Inventory

  class LegacyInventory {
    var inventoryOpen: bool
    var togglePressed: bool

    /** The panel starts closed and the latch released. */
    constructor (screenWidth: int, screenHeight: int)
      ensures !inventoryOpen && !togglePressed
    {
      inventoryOpen := false;
      togglePressed := false;
    }

    /** `update_inventory`: the same edge-triggered toggle as the current inventory; returns whether the panel is drawn. */
    method UpdateInventory(keys: Keys) returns (panelShown: bool)
      modifies this
      ensures (inventoryOpen, togglePressed) == Toggle(old(inventoryOpen), old(togglePressed), keys.e)
      ensures panelShown == inventoryOpen
    {
      if keys.e && !togglePressed {
        inventoryOpen := !inventoryOpen;
        togglePressed := true;
      }
      if !keys.e {
        togglePressed := false;
      }
      panelShown := inventoryOpen;
    }
  }

  /** From the start state, one press opens the panel and holding E keeps it open. */
  lemma FirstPressOpens(n: nat)
    ensures ToggleRun(false, false, [true] + seq(n, _ => true)) == (true, true)
  {
    assert ([true] + seq(n, _ => true))[1..] == seq(n, _ => true);
    HoldingDoesNotFlip(true, n);
  }
}
