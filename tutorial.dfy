/**
 * The first-play tutorial: four steps (talk to Sprytek, brew coffee, open
 * the inventory, find the cats), each completed by something the player
 * does, with a hint box that fades in.
 */
module Tutorial {
  import opened Wrappers
  import opened Input
  import Npc
  import Inventory

  const StepTalkToSprytek: int := 0
  const StepBrewCoffee: int := 1
  const StepOpenInventory: int := 2
  const StepFindCats: int := 3
  const StepCompleted: int := 4
  const BoxWidth: int := 500
  const BoxHeight: int := 120
  const FadeStep: int := 10
  const MaxAlpha: int := 255
  const Cooldown: int := 15

  datatype TutorialState = TutorialState(
    active: bool, step: int, fadeAlpha: int, fadeIn: bool, fKeyPressed: bool, cooldown: int,
    talked: bool, coffeeBrewed: bool, inventoryOpened: bool)

  /** What `update` reads of the NPC, when one is given: its dialog index and whether it is talking. */
  datatype NpcView = NpcView(dialogIndex: int, talking: bool)

  /**
   * What `update` reads of the inventory, when one is given: whether its
   * panel is open, and the answer of `has_coffee_available()`, which is
   * an input here.
   */
  datatype InventoryView = InventoryView(open: bool, coffeeAvailable: bool)

  function Completed(s: TutorialState): bool {
    s.step >= StepCompleted
  }

  /** `start`: active at the first step, fade restarted, progress flags cleared; the key latch and cooldown are kept. */
  function Started(s: TutorialState): (r: TutorialState)
    ensures r.active && r.step == StepTalkToSprytek && !Completed(r)
    ensures r.fadeAlpha == 0 && r.fadeIn && !r.talked && !r.coffeeBrewed && !r.inventoryOpened
    ensures r.fKeyPressed == s.fKeyPressed && r.cooldown == s.cooldown
  {
    s.(active := true, step := StepTalkToSprytek, fadeAlpha := 0, fadeIn := true,
       talked := false, coffeeBrewed := false, inventoryOpened := false)
  }

  /** `stop`: inactive and completed; nothing else changes. */
  function Stopped(s: TutorialState): (r: TutorialState)
    ensures !r.active && r.step == StepCompleted && Completed(r)
    ensures r.(active := s.active, step := s.step) == s
  {
    s.(active := false, step := StepCompleted)
  }

  /** `_advance_step`: one step further, the fade restarted, and the tutorial switched off on reaching the end. */
  function Advanced(s: TutorialState): (r: TutorialState)
    ensures r.step == s.step + 1 && r.fadeAlpha == 0 && r.fadeIn
    ensures r.active <==> s.active && r.step < StepCompleted
    ensures r.(step := s.step, fadeAlpha := s.fadeAlpha, fadeIn := s.fadeIn, active := s.active) == s
  {
    var t := s.(step := s.step + 1, fadeAlpha := 0, fadeIn := true);
    if t.step >= StepCompleted then t.(active := false) else t
  }

  /** The fade of one frame: up by 10 to at most 255, or down by 10 to at least 0. */
  function Faded(alpha: int, fadeIn: bool): (a: int)
    requires 0 <= alpha <= MaxAlpha
    ensures 0 <= a <= MaxAlpha
    ensures fadeIn ==> a == (if alpha + FadeStep > MaxAlpha then MaxAlpha else alpha + FadeStep)
    ensures !fadeIn ==> a == (if alpha - FadeStep < 0 then 0 else alpha - FadeStep)
  {
    if fadeIn then (if alpha + FadeStep < MaxAlpha then alpha + FadeStep else MaxAlpha)
    else (if alpha - FadeStep > 0 then alpha - FadeStep else 0)
  }

  /** Step 0: done once the NPC has reached its second dialog and is no longer talking. */
  function TalkCheck(s: TutorialState, npc: Option<NpcView>): TutorialState {
    var t := if npc.Some? && npc.value.dialogIndex >= 1 then s.(talked := true) else s;
    if t.talked && (npc.None? || !npc.value.talking) then Advanced(t) else t
  }

  /** Step 1: done as soon as the inventory reports coffee. */
  function CoffeeCheck(s: TutorialState, inventory: Option<InventoryView>): TutorialState {
    if inventory.Some? && inventory.value.coffeeAvailable then Advanced(s.(coffeeBrewed := true)) else s
  }

  /** Step 2: done once the panel has been seen open and is now closed. */
  function InventoryCheck(s: TutorialState, inventory: Option<InventoryView>): TutorialState {
    var t := if inventory.Some? && inventory.value.open then s.(inventoryOpened := true) else s;
    if t.inventoryOpened && (inventory.None? || !inventory.value.open) then Advanced(t) else t
  }

  /** Step 3: done on a fresh press of F with no cooldown left. */
  function CatsCheck(s: TutorialState, f: bool): TutorialState {
    if f && !s.fKeyPressed && s.cooldown == 0 then Advanced(s.(fKeyPressed := true, cooldown := Cooldown)) else s
  }

  /** The completion check of the current step, on a state whose cooldown and fade are already updated. */
  function CheckStep(s: TutorialState, f: bool, npc: Option<NpcView>, inventory: Option<InventoryView>): TutorialState {
    if s.step == StepTalkToSprytek then TalkCheck(s, npc)
    else if s.step == StepBrewCoffee then CoffeeCheck(s, inventory)
    else if s.step == StepOpenInventory then InventoryCheck(s, inventory)
    else if s.step == StepFindCats then CatsCheck(s, f)
    else s
  }

  /** The cooldown and fade of one frame. */
  function Ticked(s: TutorialState): (r: TutorialState)
    requires 0 <= s.fadeAlpha <= MaxAlpha
    ensures r.cooldown == (if s.cooldown > 0 then s.cooldown - 1 else s.cooldown)
    ensures r.fadeAlpha == Faded(s.fadeAlpha, s.fadeIn)
    ensures r.(cooldown := s.cooldown, fadeAlpha := s.fadeAlpha) == s
  {
    s.(cooldown := if s.cooldown > 0 then s.cooldown - 1 else s.cooldown, fadeAlpha := Faded(s.fadeAlpha, s.fadeIn))
  }

  /** One `update`: nothing while inactive or completed; otherwise cooldown, fade, the step check, and the F release. */
  function Step(s: TutorialState, f: bool, npc: Option<NpcView>, inventory: Option<InventoryView>): TutorialState
    requires 0 <= s.fadeAlpha <= MaxAlpha
  {
    if !s.active || Completed(s) then s
    else
      var u := CheckStep(Ticked(s), f, npc, inventory);
      if !f then u.(fKeyPressed := false) else u
  }

  /** The fade stays within `[0, 255]` and the cooldown is never negative. */
  predicate Inv(s: TutorialState) {
    0 <= s.fadeAlpha <= MaxAlpha && s.cooldown >= 0 && s.step >= 0
  }

  /** An update while inactive or completed changes nothing. */
  lemma InertWhenOff(s: TutorialState, f: bool, npc: Option<NpcView>, inventory: Option<InventoryView>)
    requires 0 <= s.fadeAlpha <= MaxAlpha
    requires !s.active || Completed(s)
    ensures Step(s, f, npc, inventory) == s
  {
  }

  /** Each update keeps the invariant, never lowers the step, and advances it by at most one. */
  lemma StepKeepsInv(s: TutorialState, f: bool, npc: Option<NpcView>, inventory: Option<InventoryView>)
    requires Inv(s)
    ensures var r := Step(s, f, npc, inventory);
      Inv(r) && (r.step == s.step || r.step == s.step + 1)
  {
    if s.active && !Completed(s) {
      CheckKeepsInv(Ticked(s), f, npc, inventory);
    }
  }

  lemma CheckKeepsInv(s: TutorialState, f: bool, npc: Option<NpcView>, inventory: Option<InventoryView>)
    requires Inv(s)
    ensures var r := CheckStep(s, f, npc, inventory);
      Inv(r) && (r.step == s.step || r.step == s.step + 1)
  {
    if s.step == StepTalkToSprytek {
      TalkKeepsInv(s, npc);
    } else if s.step == StepBrewCoffee {
      CoffeeKeepsInv(s, inventory);
    } else if s.step == StepOpenInventory {
      InventoryKeepsInv(s, inventory);
    } else if s.step == StepFindCats {
      CatsKeepsInv(s, f);
    }
  }

  lemma TalkKeepsInv(s: TutorialState, npc: Option<NpcView>)
    requires Inv(s)
    ensures var r := TalkCheck(s, npc); Inv(r) && (r.step == s.step || r.step == s.step + 1)
  {
  }

  lemma CoffeeKeepsInv(s: TutorialState, inventory: Option<InventoryView>)
    requires Inv(s)
    ensures var r := CoffeeCheck(s, inventory); Inv(r) && (r.step == s.step || r.step == s.step + 1)
  {
  }

  lemma InventoryKeepsInv(s: TutorialState, inventory: Option<InventoryView>)
    requires Inv(s)
    ensures var r := InventoryCheck(s, inventory); Inv(r) && (r.step == s.step || r.step == s.step + 1)
  {
  }

  lemma CatsKeepsInv(s: TutorialState, f: bool)
    requires Inv(s)
    ensures var r := CatsCheck(s, f); Inv(r) && (r.step == s.step || r.step == s.step + 1)
  {
  }

  /** The step moves on exactly when its own condition holds. */
  lemma StepConditions(s: TutorialState, f: bool, npc: Option<NpcView>, inventory: Option<InventoryView>)
    requires Inv(s) && s.active && !Completed(s)
    ensures var r := Step(s, f, npc, inventory);
      (s.step == StepTalkToSprytek ==>
        (r.step == s.step + 1 <==> (s.talked || (npc.Some? && npc.value.dialogIndex >= 1)) && (npc.None? || !npc.value.talking))) &&
      (s.step == StepBrewCoffee ==>
        (r.step == s.step + 1 <==> inventory.Some? && inventory.value.coffeeAvailable)) &&
      (s.step == StepOpenInventory ==>
        (r.step == s.step + 1 <==> (s.inventoryOpened || (inventory.Some? && inventory.value.open)) && (inventory.None? || !inventory.value.open))) &&
      (s.step == StepFindCats ==>
        (r.step == s.step + 1 <==> f && !s.fKeyPressed && s.cooldown <= 1))
  {
  }

  /** The inventory step does not move on in the frame the panel is open: it needs a later frame with the panel closed. */
  lemma InventoryNeedsClosing(s: TutorialState, f: bool, npc: Option<NpcView>, open: bool, coffee: bool)
    requires Inv(s) && s.active && s.step == StepOpenInventory
    ensures open ==> Step(s, f, npc, Some(InventoryView(open, coffee))).step == s.step
    ensures open ==> Step(s, f, npc, Some(InventoryView(open, coffee))).inventoryOpened
  {
  }

  /** The tutorial over a run of frames. */
  function Run(s: TutorialState, frames: seq<(bool, Option<NpcView>, Option<InventoryView>)>): TutorialState
    requires Inv(s)
    decreases |frames|
  {
    if frames == [] then s
    else
      StepKeepsInv(s, frames[0].0, frames[0].1, frames[0].2);
      Run(Step(s, frames[0].0, frames[0].1, frames[0].2), frames[1..])
  }

  /** Over any run the invariant holds, the step never decreases, and it rises by at most one step per frame. */
  lemma {:induction false} RunMonotone(s: TutorialState, frames: seq<(bool, Option<NpcView>, Option<InventoryView>)>)
    requires Inv(s)
    ensures Inv(Run(s, frames))
    ensures s.step <= Run(s, frames).step <= s.step + |frames|
    decreases |frames|
  {
    if frames != [] {
      StepKeepsInv(s, frames[0].0, frames[0].1, frames[0].2);
      RunMonotone(Step(s, frames[0].0, frames[0].1, frames[0].2), frames[1..]);
    }
  }

  class TutorialSystem {
    const screenWidth: int
    const screenHeight: int
    const boxX: int
    const boxY: int
    var currentStep: int
    var isActive: bool
    var fadeAlpha: int
    var fadeIn: bool
    var fKeyPressed: bool
    var cooldown: int
    var talkedToSprytekComplete: bool
    var coffeeBrewed: bool
    var inventoryOpened: bool

    function State(): TutorialState
      reads this
    {
      TutorialState(isActive, currentStep, fadeAlpha, fadeIn, fKeyPressed, cooldown,
                    talkedToSprytekComplete, coffeeBrewed, inventoryOpened)
    }

    /** Inactive at the first step, with the hint box centred 20 pixels from the top. */
    constructor (screenWidth: int, screenHeight: int)
      ensures State() == TutorialState(false, StepTalkToSprytek, 0, true, false, 0, false, false, false)
      ensures boxX == (screenWidth - BoxWidth) / 2 && boxY == 20
      ensures Inv(State())
    {
      this.screenWidth := screenWidth;
      this.screenHeight := screenHeight;
      currentStep := StepTalkToSprytek;
      isActive := false;
      boxX := (screenWidth - BoxWidth) / 2;
      boxY := 20;
      fadeAlpha := 0;
      fadeIn := true;
      fKeyPressed := false;
      cooldown := 0;
      talkedToSprytekComplete := false;
      coffeeBrewed := false;
      inventoryOpened := false;
    }

    method Start()
      modifies this
      ensures State() == Started(old(State()))
    {
      isActive := true;
      currentStep := StepTalkToSprytek;
      fadeAlpha := 0;
      fadeIn := true;
      talkedToSprytekComplete := false;
      coffeeBrewed := false;
      inventoryOpened := false;
    }

    method Stop()
      modifies this
      ensures State() == Stopped(old(State()))
    {
      isActive := false;
      currentStep := StepCompleted;
    }

    method IsCompleted() returns (done: bool)
      ensures done <==> currentStep >= StepCompleted
    {
      return currentStep >= StepCompleted;
    }

    method AdvanceStep()
      modifies this`currentStep, this`fadeAlpha, this`fadeIn, this`isActive
      ensures State() == Advanced(old(State()))
    {
      currentStep := currentStep + 1;
      fadeAlpha := 0;
      fadeIn := true;
      if currentStep >= StepCompleted {
        isActive := false;
      }
    }

    /**
     * `update(keys, npc, inventory)`: `coffeeAvailable` stands for the
     * inventory's `has_coffee_available()`.
     */
    method Update(keys: Keys, npc: Npc.Npc?, inventory: Inventory.Inventory?, coffeeAvailable: bool)
      requires 0 <= fadeAlpha <= MaxAlpha
      modifies this
      ensures State() == Step(old(State()), keys.f, NpcOf(npc), InventoryOf(inventory, coffeeAvailable))
    {
      var done := IsCompleted();
      if !isActive || done {
        return;
      }
      ghost var s0 := State();
      var nv := if npc == null then None else Some(NpcView(npc.currentDialogIndex, npc.isTalking));
      var iv := if inventory == null then None else Some(InventoryView(inventory.inventoryOpen, coffeeAvailable));
      assert nv == NpcOf(npc) && iv == InventoryOf(inventory, coffeeAvailable);
      Tick();
      assert State() == Ticked(s0);
      CheckCurrentStep(keys.f, nv, iv);
      ghost var u := State();
      assert u == CheckStep(Ticked(s0), keys.f, nv, iv);
      if !keys.f {
        fKeyPressed := false;
      }
      assert State() == if !keys.f then u.(fKeyPressed := false) else u;
    }

    /** The cooldown count-down and the fade of `update`. */
    method Tick()
      requires 0 <= fadeAlpha <= MaxAlpha
      modifies this`cooldown, this`fadeAlpha
      ensures State() == Ticked(old(State()))
    {
      if cooldown > 0 {
        cooldown := cooldown - 1;
      }
      if fadeIn {
        fadeAlpha := if fadeAlpha + FadeStep < MaxAlpha then fadeAlpha + FadeStep else MaxAlpha;
      } else {
        fadeAlpha := if fadeAlpha - FadeStep > 0 then fadeAlpha - FadeStep else 0;
      }
    }

    /** The `if`/`elif` chain of `update` over the four steps. */
    method CheckCurrentStep(f: bool, npc: Option<NpcView>, inventory: Option<InventoryView>)
      modifies this
      ensures State() == CheckStep(old(State()), f, npc, inventory)
    {
      if currentStep == StepTalkToSprytek {
        if npc.Some? && npc.value.dialogIndex >= 1 {
          talkedToSprytekComplete := true;
        }
        if talkedToSprytekComplete && (npc.None? || !npc.value.talking) {
          AdvanceStep();
        }
      } else if currentStep == StepBrewCoffee {
        if inventory.Some? && inventory.value.coffeeAvailable {
          coffeeBrewed := true;
          AdvanceStep();
        }
      } else if currentStep == StepOpenInventory {
        if inventory.Some? && inventory.value.open {
          inventoryOpened := true;
        }
        if inventoryOpened && (inventory.None? || !inventory.value.open) {
          AdvanceStep();
        }
      } else if currentStep == StepFindCats {
        if f && !fKeyPressed && cooldown == 0 {
          fKeyPressed := true;
          cooldown := Cooldown;
          AdvanceStep();
        }
      }
    }
  }

  /** What `update` sees of an NPC that may be absent. */
  function NpcOf(npc: Npc.Npc?): Option<NpcView>
    reads npc
  {
    if npc == null then None else Some(NpcView(npc.currentDialogIndex, npc.isTalking))
  }

  /** What `update` sees of an inventory that may be absent. */
  function InventoryOf(inventory: Inventory.Inventory?, coffeeAvailable: bool): Option<InventoryView>
    reads inventory
  {
    if inventory == null then None else Some(InventoryView(inventory.inventoryOpen, coffeeAvailable))
  }
}
