/**
 Properties of the step machine over whole runs: the reachable states stay
 in bounds and keep the flag exclusions, the cycle from reset is six
 advances long, the latch blocks every advance until a reset, emergency is
 idempotent and reset is total.
 */
module ScadaProperties {
  import opened ScadaState

  /** One button press keeps the invariant. */
  lemma ApplyKeepsInv(s: Plant, op: Op)
    requires Inv(s)
    ensures Inv(Apply(s, op))
  {
  }

  /** Any sequence of button presses keeps the invariant. */
  lemma {:induction false} RunKeepsInv(s: Plant, ops: seq<Op>)
    requires Inv(s)
    ensures Inv(Run(s, ops))
    decreases |ops|
  {
    if ops != [] {
      ApplyKeepsInv(s, ops[0]);
      RunKeepsInv(Apply(s, ops[0]), ops[1..]);
    }
  }

  /** Every state reachable from start-up by any sequence of presses has its
      counter in 0..5, never both level flags nor both valve flags set, the
      emergency indicator set exactly when the latch is, and, while latched,
      the four process flags clear. */
  lemma ReachableStates(ops: seq<Op>)
    ensures var t := Run(Init, ops);
      && 0 <= t.passo <= 5
      && Exclusive(t.estado)
      && (t.estado.emergencia <==> t.latched)
      && (t.latched ==> t.estado == EmergencyFlags)
  {
    assert Inv(Init) by { assert Init.estado == StepRow(-1); }
    RunKeepsInv(Init, ops);
  }

  /** From an invariant state that is not latched, one press of "next" lands
      on the state of the following counter value, 5 wrapping to 0. */
  lemma OneAdvanceOnCycle(s: Plant)
    requires Inv(s) && !s.latched
    ensures var q := if s.passo < 5 then s.passo + 1 else 0;
      Advance(s).after == Plant(q, false, StepRow(q - 1))
  {
    if s.passo == 5 {
      assert StepRow(5) == StepRow(-1);
    }
  }

  /** The unlatched invariant state with counter `p`. */
  function CycleState(p: int): (s: Plant)
    requires 0 <= p <= 5
    ensures Inv(s) && !s.latched && s.passo == p
  {
    Plant(p, false, StepRow(p - 1))
  }

  /** Counting one step with 5 wrapping to 0, then the rest, is counting modulo six. */
  lemma WrapArithmetic(p: int, k: nat)
    requires 0 <= p <= 5 && k > 0
    ensures ((if p < 5 then p + 1 else 0) + (k - 1)) % 6 == (p + k) % 6
  {
    if p == 5 {
      assert p + k == (k - 1) + 1 * 6;
    }
  }

  /** From the unlatched state with counter `p`, `k` presses of "next" give
      the unlatched state with counter `(p + k) % 6`. */
  lemma {:induction false} AdvancesOnCycle(p: int, k: nat)
    requires 0 <= p <= 5
    ensures Advances(CycleState(p), k) == CycleState((p + k) % 6)
    decreases k
  {
    if k > 0 {
      var q := if p < 5 then p + 1 else 0;
      OneAdvanceOnCycle(CycleState(p));
      AdvancesOnCycle(q, k - 1);
      WrapArithmetic(p, k);
    }
  }

  /** The cycle is six presses long: from any reachable unlatched state, six
      presses of "next" return to the same state, and no fewer do. */
  lemma CycleIsSix(s: Plant, k: nat)
    requires Inv(s) && !s.latched
    ensures Advances(s, 6) == s
    ensures 0 < k < 6 ==> Advances(s, k).passo != s.passo
  {
    assert s == CycleState(s.passo);
    AdvancesOnCycle(s.passo, 6);
    AdvancesOnCycle(s.passo, k);
  }

  /** From reset, five presses of "next" reach counter 5 with the step-4 row
      published; the sixth publishes all-false and brings the counter to 0. */
  lemma CycleFromReset(s: Plant)
    ensures Advances(Reset(s), 5) == Plant(5, false, StepRow(4))
    ensures Advances(Reset(s), 6) == Init
  {
    AdvancesOnCycle(0, 5);
    AdvancesOnCycle(0, 6);
  }

  /** While latched, any number of presses of "next" leaves the state as it
      is, and each of them reports the block. */
  lemma {:induction false} LatchBlocks(s: Plant, n: nat)
    requires s.latched
    ensures Advances(s, n) == s
    ensures Advance(Advances(s, n)).outcome == BlockedByEmergency
    decreases n
  {
    if n > 0 {
      LatchBlocks(Advance(s).after, n - 1);
    }
  }

  /** The emergency button followed by any number of presses of "next" leaves
      the emergency state in place. */
  lemma EmergencyThenAdvances(s: Plant, n: nat)
    ensures Advances(ActivateEmergency(s), n) == ActivateEmergency(s)
    ensures Advances(ActivateEmergency(s), n).estado == EmergencyFlags
  {
    LatchBlocks(ActivateEmergency(s), n);
  }

  /** Pressing the emergency button twice gives the same state as pressing it once. */
  lemma EmergencyIdempotent(s: Plant)
    ensures ActivateEmergency(ActivateEmergency(s)) == ActivateEmergency(s)
  {
  }

  /** After a reset "next" is no longer blocked, whatever came before. */
  lemma ResetUnblocks(s: Plant)
    ensures Advance(Reset(s)).outcome == Advanced
    ensures Reset(s) == Reset(ActivateEmergency(s))
  {
  }

  /** An unblocked advance depends only on the counter: the previous flags do
      not carry over. */
  lemma NoCarryOver(s: Plant, t: Plant)
    requires !s.latched && !t.latched && s.passo == t.passo
    ensures Advance(s) == Advance(t)
  {
  }
}
