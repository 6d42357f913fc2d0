/**
 The value-level model of the tank process driven by the SCADA simulator:
 the five indicator flags, the plant state (step counter, emergency latch,
 flags), the closed step table, and the three transitions (advance,
 emergency, reset) as pure functions. The class in ScadaSimulator is
 specified by these functions.
 */
module ScadaState {

  /** The five flags of `estado`: low level, high level, inlet valve,
      outlet valve and the emergency indicator. */
  datatype Flags = Flags(
    nivelBaixo: bool,
    nivelAlto: bool,
    valvulaEntrada: bool,
    valvulaSaida: bool,
    emergencia: bool)

  /** A sound cue produced by a transition (the audio itself is not modelled). */
  datatype Cue = NoCue | ValveCue | AlarmCue

  /** What an advance reports to its caller: it happened, or the latch refused it
      (the source shows a warning popup in that case). */
  datatype Outcome = Advanced | BlockedByEmergency

  /** The whole simulator state: `passo`, the `emergencia` latch and `estado`. */
  datatype Plant = Plant(passo: int, latched: bool, estado: Flags)

  /** The plant state after a transition, with what it reports and the cue it plays. */
  datatype StepResult = StepResult(after: Plant, outcome: Outcome, cue: Cue)

  /** Every flag false. */
  const AllOff := Flags(false, false, false, false, false)

  /** The state published by the emergency operation: the four process
      flags cleared and the emergency indicator set. */
  const EmergencyFlags := Flags(false, false, false, false, true)

  /** State right after start-up and after a reset. */
  const Init := Plant(0, false, AllOff)

  /** The two physical exclusions: the tank is never reported both low and
      high, and the two valves are never open together. */
  predicate Exclusive(f: Flags) {
    !(f.nivelBaixo && f.nivelAlto) && !(f.valvulaEntrada && f.valvulaSaida)
  }

  /** The row of the step table for a given counter value. Every step starts
      from all flags false and sets only the flags of its row; a counter
      outside 0..4 publishes the all-false state. */
  function StepRow(passo: int): (f: Flags)
    ensures Exclusive(f) && !f.emergencia
    ensures !(0 <= passo < 5) ==> f == AllOff
    ensures f.valvulaEntrada ==> f.nivelBaixo
    ensures f.valvulaSaida ==> f.nivelAlto
  {
    if passo == 0 then AllOff.(nivelBaixo := true, valvulaEntrada := true)
    else if passo == 1 then AllOff.(nivelBaixo := true, valvulaEntrada := true)
    else if passo == 2 then AllOff.(nivelAlto := true)
    else if passo == 3 then AllOff.(nivelAlto := true, valvulaSaida := true)
    else if passo == 4 then AllOff.(nivelBaixo := true)
    else AllOff
  }

  /** The counter after an unblocked advance: one more for a defined step,
      otherwise it is reset to -1 and then incremented, i.e. it becomes 0. */
  function NextStep(passo: int): (n: int)
    ensures 0 <= n <= 5
    ensures n == 0 <==> !(0 <= passo < 5)
    ensures n != 0 ==> n == passo + 1
  {
    var p := if 0 <= passo < 5 then passo else -1;
    p + 1
  }

  /** The cue an unblocked advance plays from a given counter value. */
  function StepCue(passo: int): (c: Cue)
    ensures c == ValveCue <==> passo == 0 || passo == 3
    ensures c != AlarmCue
  {
    if passo == 0 || passo == 3 then ValveCue else NoCue
  }

  /** One press of "next", as a transition on plant states. */
  function Advance(s: Plant): (r: StepResult)
    ensures r.outcome == BlockedByEmergency <==> s.latched
    ensures s.latched ==> r.after == s && r.cue == NoCue
    ensures !s.latched ==> !r.after.latched
    ensures !s.latched ==> r.after.estado == StepRow(s.passo)
    ensures !s.latched && 0 <= s.passo < 5 ==> r.after.passo == s.passo + 1
    ensures !s.latched && !(0 <= s.passo < 5) ==> r.after.passo == 0 && r.after.estado == AllOff
    ensures r.outcome == Advanced ==> Exclusive(r.after.estado) && !r.after.estado.emergencia
    ensures r.cue == ValveCue <==> !s.latched && (s.passo == 0 || s.passo == 3)
    ensures r.cue != AlarmCue
  {
    if s.latched then StepResult(s, BlockedByEmergency, NoCue)
    else StepResult(Plant(NextStep(s.passo), false, StepRow(s.passo)), Advanced, StepCue(s.passo))
  }

  /** The emergency button: latch, publish the emergency flags, keep the counter. */
  function ActivateEmergency(s: Plant): (t: Plant)
    ensures t.latched && t.passo == s.passo
    ensures t.estado.emergencia
    ensures !t.estado.nivelBaixo && !t.estado.nivelAlto
    ensures !t.estado.valvulaEntrada && !t.estado.valvulaSaida
  {
    Plant(s.passo, true, EmergencyFlags)
  }

  /** The reset button: whatever the prior state, back to the start-up state. */
  function Reset(s: Plant): (t: Plant)
    ensures !t.latched && t.passo == 0
    ensures t.estado == Flags(false, false, false, false, false)
  {
    Init
  }

  /** The three buttons of the simulator. */
  datatype Op = Next | Emergency | Restart

  /** The plant state after pressing a button. */
  function Apply(s: Plant, op: Op): Plant {
    match op
    case Next => Advance(s).after
    case Emergency => ActivateEmergency(s)
    case Restart => Reset(s)
  }

  /** The plant state after pressing a sequence of buttons in order. */
  function Run(s: Plant, ops: seq<Op>): Plant
    decreases |ops|
  {
    if ops == [] then s else Run(Apply(s, ops[0]), ops[1..])
  }

  /** The plant state after `n` presses of "next". */
  function Advances(s: Plant, n: nat): Plant
    decreases n
  {
    if n == 0 then s else Advances(Advance(s).after, n - 1)
  }

  /** The invariant of every state reachable from start-up: the counter is in
      0..5; while latched the emergency flags are shown; otherwise the flags
      are the row of the step just taken (`StepRow(-1)` is all-false, which is
      what start-up, reset and the wrap from step 5 publish). */
  predicate Inv(s: Plant) {
    && 0 <= s.passo <= 5
    && (s.latched ==> s.estado == EmergencyFlags)
    && (!s.latched ==> s.estado == StepRow(s.passo - 1))
  }
}
