/**
 * The store object itself: one mutable record, replaced by each action with
 * the record its updater computes from the current one.
 */
module EnergySystemStore {
  import EnergySystem

  class Store {
    var state: EnergySystem.State

    /** The object invariant: the switch is never on while the inverter is off. */
    ghost predicate Valid()
      reads this
    {
      EnergySystem.Consistent(state)
    }

    /** Creates the store holding the default record. */
    constructor ()
      ensures Valid()
      ensures state == EnergySystem.Init()
    {
      state := EnergySystem.Init();
    }

    /** The current record, as a caller reading the store sees it. */
    method Snapshot() returns (s: EnergySystem.State)
      requires Valid()
      ensures s == state
      ensures s.switchActive ==> s.inverterActive
    {
      s := state;
    }

    method SetInverterActive(active: bool)
      requires Valid()
      modifies this
      ensures Valid()
      ensures state == EnergySystem.SetInverterActive(old(state), active)
    {
      state := EnergySystem.SetInverterActive(state, active);
    }

    method SetSwitchActive(active: bool)
      requires Valid()
      modifies this
      ensures Valid()
      ensures state == EnergySystem.SetSwitchActive(old(state), active)
    {
      state := EnergySystem.SetSwitchActive(state, active);
    }

    method SetShowHeroSection(show: bool)
      requires Valid()
      modifies this
      ensures Valid()
      ensures state == EnergySystem.SetShowHeroSection(old(state), show)
    {
      state := EnergySystem.SetShowHeroSection(state, show);
    }

    method SetShowTagSection(show: bool)
      requires Valid()
      modifies this
      ensures Valid()
      ensures state == EnergySystem.SetShowTagSection(old(state), show)
    {
      state := EnergySystem.SetShowTagSection(state, show);
    }

    method SetAnimationPhase(phase: int)
      requires Valid()
      modifies this
      ensures Valid()
      ensures state == EnergySystem.SetAnimationPhase(old(state), phase)
    {
      state := EnergySystem.SetAnimationPhase(state, phase);
    }

    method IncrementEnergySaved()
      requires Valid()
      modifies this
      ensures Valid()
      ensures state == EnergySystem.IncrementEnergySaved(old(state))
    {
      state := EnergySystem.IncrementEnergySaved(state);
    }

    method IncrementCo2Reduced()
      requires Valid()
      modifies this
      ensures Valid()
      ensures state == EnergySystem.IncrementCo2Reduced(old(state))
    {
      state := EnergySystem.IncrementCo2Reduced(state);
    }

    method SetBooting(booting: bool)
      requires Valid()
      modifies this
      ensures Valid()
      ensures state == EnergySystem.SetBooting(old(state), booting)
    {
      state := EnergySystem.SetBooting(state, booting);
    }

    method ActivateFullSystem()
      requires Valid()
      modifies this
      ensures Valid()
      ensures state == EnergySystem.ActivateFullSystem(old(state))
    {
      state := EnergySystem.ActivateFullSystem(state);
    }

    method DeactivateFullSystem()
      requires Valid()
      modifies this
      ensures Valid()
      ensures state == EnergySystem.DeactivateFullSystem(old(state))
    {
      state := EnergySystem.DeactivateFullSystem(state);
    }
  }

  /**
   * A caller of the store: starting from the defaults, switches the inverter
   * off, tries the switch, powers up again and turns the switch on, and
   * returns the record seen after each step.
   */
  method PowerCycle() returns (off: EnergySystem.State, refused: EnergySystem.State, on: EnergySystem.State)
    ensures EnergySystem.IsPoweredDown(off) && off.energySaved == 0 && off.co2Reduced == 0 && !off.booting
    ensures refused == off
    ensures on.inverterActive && on.switchActive && on.animationPhase == 0
    ensures on.showHeroSection && on.showTagSection
  {
    var store := new Store();
    store.SetInverterActive(false);
    off := store.Snapshot();
    store.SetSwitchActive(true);
    refused := store.Snapshot();
    store.SetInverterActive(true);
    store.SetSwitchActive(true);
    on := store.Snapshot();
  }
}
