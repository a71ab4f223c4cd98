# Energy-system UI store, modelled in Dafny

The repository's only component is a small client-side store (built on
zustand) that drives an "energy system" animation: an inverter and a switch,
two visibility flags for the hero and tag sections, a `booting` flag, an
animation phase, and two display counters (energy saved and CO2 reduced).
Every action is synchronous and total: it reads the current record, builds
the next one and hands it to `set`.

The model has two modules.

- `EnergySystem` (`energy_system.dfy`) is the pure part. `State` is the
  record; one function per action computes the next record from the current
  one, exactly as the updater passed to `set` does. `Merge` and `Patch` model
  zustand's shallow merge, which matters for the one updater that returns a
  partial object (the inverter shutdown, which has no `booting` key, so
  `booting` is kept). `Get` and `ChangedFields` give a field-by-field view of
  a record, so that every transition can say which fields it may change and
  which it leaves alone. `Action`, `Apply` and `Run` describe histories of
  calls, over which the store's invariant (`Consistent`: the switch is on
  only while the inverter is on) and the counter arithmetic are proved.
- `EnergySystemStore` (`store.dfy`) is the stateful part: class `Store` holds
  the single mutable `state` field; its constructor sets the defaults and
  each method replaces `state` with the corresponding pure transition of the
  old record. `Valid()` is `Consistent(state)`; the constructor establishes
  it and every method keeps it, so every store a caller can hold meets the
  `requires Valid()` of its methods. `PowerCycle` is a caller that walks the
  store through the documented shutdown-and-restart scenario.

The two counters are integers in hundredths: `incrementEnergySaved` adds
`EnergyStep` = 5 (0.05) and `incrementCo2Reduced` adds `Co2Step` = 2 (0.02).

## Model

| member | source | states |
|---|---|---|
| EnergySystem.Init | store/energySystemStore.ts:35-42 | the default record is fully on (all four power flags true, phase 1), not booting, both counters 0, and satisfies the switch-implies-inverter invariant |
| EnergySystem.MergeAt | store/energySystemStore.ts:45-56 | `set` shallow-merges: each field the returned object names takes that value, every other field keeps its old value |
| EnergySystem.MergeChangesOnlyNamed | store/energySystemStore.ts:48-56 | a merge changes no field the returned object leaves out |
| EnergySystem.MergeWhole | store/energySystemStore.ts:58-64 | merging an object that spreads a whole record replaces the record with it |
| EnergySystem.ShutdownPatch | store/energySystemStore.ts:48-56 | the shutdown object names every field except `booting` |
| EnergySystem.SetInverterActive | store/energySystemStore.ts:45-65 | off: all four power flags false and phase 0, only power fields change (booting and both counters kept); on: inverter, hero and tag true and phase 1, switch, booting and counters kept; the invariant is preserved |
| EnergySystem.SetSwitchActive | store/energySystemStore.ts:67-85 | with the inverter off the record is unchanged for either argument; with it on, `true` sets the switch and phase 0 and changes nothing else, `false` clears only the switch; the invariant is preserved |
| EnergySystem.SetShowHeroSection | store/energySystemStore.ts:87-91 | the hero flag takes the argument and no other field changes |
| EnergySystem.SetShowTagSection | store/energySystemStore.ts:93-97 | the tag flag takes the argument and no other field changes |
| EnergySystem.SetAnimationPhase | store/energySystemStore.ts:99 | the phase takes the argument and no other field changes |
| EnergySystem.IncrementEnergySaved | store/energySystemStore.ts:101-102 | energy saved grows by exactly one step and is the only field that changes |
| EnergySystem.IncrementCo2Reduced | store/energySystemStore.ts:104-105 | CO2 reduced grows by exactly one step and is the only field that changes |
| EnergySystem.SetBooting | store/energySystemStore.ts:107 | the booting flag takes the argument and no other field changes |
| EnergySystem.ActivateFullSystem | store/energySystemStore.ts:110-118 | the result is fully on and consistent, and only power fields change |
| EnergySystem.DeactivateFullSystem | store/energySystemStore.ts:120-128 | the result is powered down and consistent, and only power fields change |
| EnergySystem.ShutdownForgetsPowerState | store/energySystemStore.ts:47-56 | switching the inverter off gives the same record from any two states that agree on booting and the counters |
| EnergySystem.ShutdownIsFullDeactivation | store/energySystemStore.ts:47-56 | switching the inverter off equals a full deactivation of the same record |
| EnergySystem.PowerCycleLeavesSwitchOff | store/energySystemStore.ts:47-64 | after a shutdown the switch stays off when the inverter comes back on, and a switch request during the shutdown is refused |
| EnergySystem.ActivateIsInverterThenSwitch | store/energySystemStore.ts:110-118 | full activation equals inverter on, then switch on, then phase 1 |
| EnergySystem.ActivateFullSystemIdempotent | store/energySystemStore.ts:110-118 | activating twice equals activating once; a fully-on record is a fixed point |
| EnergySystem.DeactivateFullSystemIdempotent | store/energySystemStore.ts:120-128 | deactivating twice equals deactivating once; a powered-down record is a fixed point |
| EnergySystem.Apply | store/energySystemStore.ts:45-128 | every action keeps the invariant, only the increments move the counters (by one step each), and only `setBooting` moves `booting` |
| EnergySystem.RunPreservesConsistent | store/energySystemStore.ts:45-128 | every history of actions from a consistent record ends in a consistent record |
| EnergySystem.RunMetrics | store/energySystemStore.ts:101-105 | after any history each counter equals its start plus one step per increment call in it |
| EnergySystem.MetricsNeverDecrease | store/energySystemStore.ts:101-105 | no history of actions lowers either counter |
| EnergySystem.BootingOnlyBySetBooting | store/energySystemStore.ts:107 | a history without `setBooting` leaves `booting` as it was |
| EnergySystem.RepeatedEnergyIncrements | store/energySystemStore.ts:101-102 | n energy increments add n steps to energy saved and change nothing else |
| EnergySystem.RepeatedCo2Increments | store/energySystemStore.ts:104-105 | n CO2 increments add n steps to CO2 reduced and change nothing else |
| EnergySystem.IncrementsFromDefaults | store/energySystemStore.ts:40-42 | from the defaults, n increments give a counter of exactly n steps |
| EnergySystem.DefaultsShutdownAndRestart | store/energySystemStore.ts:35-85 | defaults then inverter off is the all-off record with zero counters; a switch request there changes nothing; inverter on then switch on gives switch on and phase 0 |
| EnergySystemStore.Store.constructor | store/energySystemStore.ts:35-42 | a new store holds the default record and is valid |
| EnergySystemStore.Store.Snapshot | store/energySystemStore.ts:33 | returns the current record, which satisfies the invariant |
| EnergySystemStore.Store.SetInverterActive | store/energySystemStore.ts:45-65 | the new record is the inverter transition of the old; the invariant is kept |
| EnergySystemStore.Store.SetSwitchActive | store/energySystemStore.ts:67-85 | the new record is the switch transition of the old; the invariant is kept |
| EnergySystemStore.Store.SetShowHeroSection | store/energySystemStore.ts:87-91 | the new record is the hero transition of the old; the invariant is kept |
| EnergySystemStore.Store.SetShowTagSection | store/energySystemStore.ts:93-97 | the new record is the tag transition of the old; the invariant is kept |
| EnergySystemStore.Store.SetAnimationPhase | store/energySystemStore.ts:99 | the new record is the phase transition of the old; the invariant is kept |
| EnergySystemStore.Store.IncrementEnergySaved | store/energySystemStore.ts:101-102 | the new record is the energy increment of the old; the invariant is kept |
| EnergySystemStore.Store.IncrementCo2Reduced | store/energySystemStore.ts:104-105 | the new record is the CO2 increment of the old; the invariant is kept |
| EnergySystemStore.Store.SetBooting | store/energySystemStore.ts:107 | the new record is the booting transition of the old; the invariant is kept |
| EnergySystemStore.Store.ActivateFullSystem | store/energySystemStore.ts:110-118 | the new record is the full activation of the old; the invariant is kept |
| EnergySystemStore.Store.DeactivateFullSystem | store/energySystemStore.ts:120-128 | the new record is the full deactivation of the old; the invariant is kept |
| EnergySystemStore.PowerCycle | store/energySystemStore.ts:35-85 | a caller driving the store from the defaults sees the all-off record after shutdown, no change on a refused switch request, and switch on with phase 0 after powering up |

## Left out

- The zustand `create` call, the React hook it returns and the `"use client"` directive (lines 1-3 and 33): library and framework plumbing. `set` is modelled as `Merge` of the updater's result into the current record; the unused `get` parameter has no counterpart beyond `Store.Snapshot`.
- The function-valued members of the `EnergySystemState` interface (lines 19-30): they are the actions, modelled as functions and methods, not data.
- Floating-point arithmetic of `+ 0.05` and `+ 0.02` (lines 102 and 105): the counters are exact integer hundredths, so rounding drift of repeated float additions is not modelled.
- `animationPhase` is a JavaScript number; the model takes it as an unbounded integer, so non-integer, NaN or infinite phases passed to `setAnimationPhase` are not modelled.
- The timers, boot sequence and UI event handlers that decide when each action fires are callers outside the store; they are represented only by arbitrary histories of `Action` values.
- Subscriptions and re-rendering on state change are part of zustand and React, not of this model.
