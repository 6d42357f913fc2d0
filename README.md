# SCADA tank simulator: step machine

This project models the tank-process simulator of a small SCADA demo. The
simulator holds a step counter `passo`, an emergency latch `emergencia` and
the published state `estado`: five flags for low level, high level, inlet
valve, outlet valve and the emergency indicator. Three buttons change it:

- "next" (`proximo_pass`) advances through a closed five-row step table;
- "emergency" (`ativar_emergencia`) latches and publishes a safe state;
- "reset" (`reiniciar`) returns to start-up.

The model has three modules:

- `ScadaState` (`scada_state.dfy`) is the value-level model. It has the
  `Flags` record, the `Plant` state, the step table `StepRow`, and the
  transitions `Advance`, `ActivateEmergency` and `Reset` as functions. It
  also has the invariant `Inv` of every reachable state.
- `ScadaSimulator` (`scada_simulator.dfy`) is the class `Simulator` with the
  three fields the source updates in place. Its handlers `ProximoPass`,
  `AtivarEmergencia` and `Reiniciar` state their whole new state. They state
  it directly and also as the matching `ScadaState` transition. The method
  `Scenario` there is a client of the class alone: from start-up, six
  presses of "next" come back to the start-up state, the emergency button
  blocks "next", and reset unblocks it. It shows that the handlers'
  contracts are enough to reason about a sequence of presses.
- `ScadaProperties` (`scada_properties.dfy`) holds the lemmas about whole runs.

Sound cues and the warning popup are outputs. `ProximoPass` returns an
`Outcome` (`Advanced`, `BlockedByEmergency`) and a `Cue` (`NoCue`,
`ValveCue`); `AtivarEmergencia` returns `AlarmCue`; `Reiniciar` returns
nothing, since reset plays no sound.

The wrap is modelled as the code has it. Counter values 0 to 4 each publish a
row and add one. Any other value, which is 5 in practice, publishes all-false
and sets the counter to -1 and then to 0. So one full cycle from reset is six
presses, not five. The invariant `Inv` captures this: while not latched, the
flags are `StepRow(passo - 1)`, and `StepRow(-1)` is all-false.

## Model

| member | source | states |
|---|---|---|
| ScadaState.StepRow | scada_simulator.py:58-70 | every row of the step table has the emergency flag clear, never both level flags, never both valve flags; an open inlet comes with low level and an open outlet with high level; a counter outside 0..4 gives all flags false |
| ScadaState.NextStep | scada_simulator.py:59-74 | after an unblocked advance the counter is in 0..5; it is 0 exactly when the old counter was outside 0..4, and otherwise it is one more than before |
| ScadaState.StepCue | scada_simulator.py:59-68 | the valve cue plays exactly for counter 0 or 3, and an advance never plays the alarm |
| ScadaState.Advance | scada_simulator.py:54-74 | blocked exactly when latched, and then the state is unchanged and no cue plays; otherwise the latch stays clear, all five flags are replaced by the current step's row with no carry-over, the counter goes up by one inside 0..4 and to 0 outside it with all flags false; every advanced state has the emergency flag clear and both exclusions; the valve cue plays exactly on an unblocked advance from 0 or 3 |
| ScadaState.ActivateEmergency | scada_simulator.py:77-80 | the latch is set, the counter is kept, the four process flags are cleared and the emergency flag is set |
| ScadaState.Reset | scada_simulator.py:84-87 | whatever the prior state: latch clear, counter 0, all five flags false |
| ScadaSimulator.Simulator.constructor | scada_simulator.py:13-15 | start-up state: counter 0, latch clear, all flags false; it satisfies the reachable-state invariant |
| ScadaSimulator.Simulator.ProximoPass | scada_simulator.py:54-75 | when latched: reports the block, plays nothing, leaves counter, latch and flags unchanged; otherwise: reports the advance, keeps the latch clear, sets the flags to the current step's row and the counter to its successor; valve cue exactly from 0 or 3; the new fields equal `Advance` of the old ones; the invariant is kept |
| ScadaSimulator.Simulator.AtivarEmergencia | scada_simulator.py:77-82 | the latch is set, the counter kept, the flags become the emergency flags, the alarm cue plays; the new fields equal `ActivateEmergency` of the old ones; the invariant is kept |
| ScadaSimulator.Simulator.Reiniciar | scada_simulator.py:84-88 | latch clear, counter 0, all flags false, equal to `Reset` of the old fields; the result satisfies the invariant whatever the prior state |
| ScadaProperties.ApplyKeepsInv | scada_simulator.py:54-87 | each of the three buttons keeps the reachable-state invariant |
| ScadaProperties.RunKeepsInv | scada_simulator.py:54-87 | any sequence of button presses keeps the reachable-state invariant |
| ScadaProperties.ReachableStates | scada_simulator.py:13-87 | every state reached from start-up by any presses has counter in 0..5, never both level flags, never both valve flags, the emergency flag set exactly when latched, and the emergency flags while latched |
| ScadaProperties.OneAdvanceOnCycle | scada_simulator.py:58-74 | from a reachable unlatched state one advance lands on the next counter value (5 wraps to 0) with that value's flags |
| ScadaProperties.AdvancesOnCycle | scada_simulator.py:58-74 | from the unlatched state with counter p, k advances give the unlatched state with counter (p + k) mod 6 |
| ScadaProperties.CycleIsSix | scada_simulator.py:58-74 | from any reachable unlatched state, six advances return to the same state and one to five advances do not return to the same counter |
| ScadaProperties.CycleFromReset | scada_simulator.py:58-87 | after reset, five advances reach counter 5 with the step-4 row, and the sixth returns to counter 0 with all flags false |
| ScadaProperties.LatchBlocks | scada_simulator.py:54-57 | while latched, any number of advances leave the state unchanged and each one reports the block |
| ScadaProperties.EmergencyThenAdvances | scada_simulator.py:54-81 | after the emergency button, any number of advances keep the emergency state |
| ScadaProperties.EmergencyIdempotent | scada_simulator.py:77-80 | pressing emergency twice gives the same state as once |
| ScadaProperties.ResetUnblocks | scada_simulator.py:84-87 | after reset, "next" is no longer blocked; reset after emergency gives the same state as reset alone |
| ScadaProperties.NoCarryOver | scada_simulator.py:58-73 | an unblocked advance depends only on the counter, not on the previous flags |

## Left out

- The Tkinter interface (`build_ui`, `update_ui`, the warning popup and the
  main loop, scada_simulator.py:32-52, 56, 90-94) is display only. The popup
  is the `BlockedByEmergency` outcome.
- Image and sound loading and playback (`load_resources` and the `.play()`
  calls, scada_simulator.py:20-30, 61, 68, 81) are library calls. Only the
  abstract `Cue` output is kept.
- ScadaSimulator.Simulator.constructor: `__init__` sets `estado` to an empty
  dictionary (line 15), and the main program then sets it to all-false
  (line 93). The display reads a missing key as false, so the model starts
  from all-false directly.
- CLIENT/main.cpp is not part of this model. It is socket setup, console
  prompts, a connect-retry loop with a fixed sleep, and blocking send and
  receive. Its only decision is an input filter for "0", "1" and "exit".
- The server's accept loop, its acknowledgement strings and any shared
  state across threads are not in the modelled files, so they are not
  modelled.
