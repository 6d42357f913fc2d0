/**
 The simulator object: the three fields the buttons update in place and the
 three button handlers. Each handler states its complete new state, directly
 and as the matching transition of ScadaState.
 */
module ScadaSimulator {
  import opened ScadaState

  class Simulator {
    /** The step counter. */
    var passo: int
    /** The emergency latch. */
    var emergencia: bool
    /** The published flags. */
    var estado: Flags

    /** The fields as a plant state. */
    function State(): Plant
      reads this
    {
      Plant(passo, emergencia, estado)
    }

    /** Start-up: counter 0, latch clear, every flag false. */
    constructor ()
      ensures State() == Init
      ensures Inv(State())
    {
      passo := 0;
      emergencia := false;
      estado := AllOff;
    }

    /** The "next" button. Refused while latched; otherwise every flag is
        replaced by the row of the current step and the counter moves on,
        wrapping through -1 to 0 past the last row. */
    method ProximoPass() returns (outcome: Outcome, cue: Cue)
      modifies this
      ensures old(emergencia) ==>
        outcome == BlockedByEmergency && cue == NoCue &&
        passo == old(passo) && emergencia && estado == old(estado)
      ensures !old(emergencia) ==>
        outcome == Advanced && !emergencia &&
        estado == StepRow(old(passo)) && passo == NextStep(old(passo))
      ensures cue == ValveCue <==> !old(emergencia) && (old(passo) == 0 || old(passo) == 3)
      ensures StepResult(State(), outcome, cue) == Advance(old(State()))
      ensures old(Inv(State())) ==> Inv(State())
    {
      cue := NoCue;
      if emergencia {
        outcome := BlockedByEmergency;
        return;
      }
      var st := AllOff;
      if passo == 0 {
        st := st.(nivelBaixo := true, valvulaEntrada := true);
        cue := ValveCue;
      } else if passo == 1 {
        st := st.(nivelBaixo := true, valvulaEntrada := true);
      } else if passo == 2 {
        st := st.(nivelAlto := true);
      } else if passo == 3 {
        st := st.(nivelAlto := true, valvulaSaida := true);
        cue := ValveCue;
      } else if passo == 4 {
        st := st.(nivelBaixo := true);
      } else {
        passo := -1;
      }
      estado := st;
      passo := passo + 1;
      outcome := Advanced;
    }

    /** The emergency button: latch, clear the four process flags, set the
        emergency indicator, keep the counter, sound the alarm. */
    method AtivarEmergencia() returns (cue: Cue)
      modifies this
      ensures emergencia && passo == old(passo)
      ensures estado == EmergencyFlags
      ensures cue == AlarmCue
      ensures State() == ActivateEmergency(old(State()))
      ensures old(Inv(State())) ==> Inv(State())
    {
      emergencia := true;
      estado := Flags(false, false, false, false, false);
      estado := estado.(emergencia := true);
      cue := AlarmCue;
    }

    /** The reset button: latch clear, counter 0, every flag false, whatever
        the prior state. */
    method Reiniciar()
      modifies this
      ensures !emergencia && passo == 0 && estado == AllOff
      ensures State() == Reset(old(State()))
      ensures Inv(State())
    {
      emergencia := false;
      passo := 0;
      estado := AllOff;
    }
  }

  /** A client of the three handlers: from start-up, six presses of "next"
      come back to the start-up state, the fifth press does not yet wrap,
      the emergency button blocks "next", and reset unblocks it. */
  method Scenario() {
    var sim := new Simulator();
    var o, c := sim.ProximoPass();
    assert c == ValveCue && sim.passo == 1;
    o, c := sim.ProximoPass();
    o, c := sim.ProximoPass();
    o, c := sim.ProximoPass();
    assert c == ValveCue;
    o, c := sim.ProximoPass();
    assert sim.passo == 5 && sim.estado == StepRow(4);
    o, c := sim.ProximoPass();
    assert sim.State() == Init;
    c := sim.AtivarEmergencia();
    o, c := sim.ProximoPass();
    assert o == BlockedByEmergency && sim.estado == EmergencyFlags;
    sim.Reiniciar();
    o, c := sim.ProximoPass();
    assert o == Advanced;
  }
}
