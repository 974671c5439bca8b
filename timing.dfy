/** What a call of `wait_us` or `gate_us` may observe and what it then does,
    stated over the sequence of counter readings the call takes. Every
    `self.time()` in the source is one reading, in source order. */
module Timing {
  import opened Counter

  /** The readings of one call never go backwards, neither among themselves
      nor below `before`, the counter value when the call began. */
  predicate Ascending(before: Tick, readings: seq<Tick>)
  {
    (forall i :: 0 <= i < |readings| ==> before <= readings[i]) &&
    (forall i, j :: 0 <= i <= j < |readings| ==> readings[i] <= readings[j])
  }

  /** The readings taken by the loop `while self.time() - from < us {}`: every
      poll but the last is short of `us` after `from`, and the last one is not. */
  predicate Spin(from: Tick, us: nat, polls: seq<Tick>)
  {
    |polls| > 0 &&
    (forall i :: 0 <= i < |polls| - 1 ==> polls[i] - from < us) &&
    polls[|polls| - 1] - from >= us
  }

  /** The readings of one `wait_us(us)`: the start reading, then the polls.
      So the call never returns early: its last reading is at least `us` past
      the start, and every earlier poll was short of that. */
  predicate WaitRun(us: nat, before: Tick, readings: seq<Tick>)
  {
    Ascending(before, readings) && |readings| >= 2 && Spin(readings[0], us, readings[1..])
  }

  /** `gating` and `gate_start` of a `Wait`. */
  datatype GateState = GateState(gating: bool, gateStart: Tick)

  /** `Result<(), u64>` of `gate_us`; `Err` carries the time elapsed since the anchor. */
  datatype GateResult = Ok | Err(elapsed: nat)

  datatype GateStep = GateStep(state: GateState, result: GateResult)

  /** Before the first gate call the anchor is still the 0 that `new` put
      there; afterwards it is no later than `now`, the latest reading. */
  predicate Consistent(s: GateState, now: Tick)
  {
    if s.gating then s.gateStart <= now else s.gateStart == 0
  }

  /** The readings of one `gate_us(us)` from state `s`:
      - not gating: one reading, which becomes the anchor;
      - gating and the first reading is more than `us` past the anchor: three
        readings (the test, the error value, the new anchor);
      - otherwise: the test reading, the polls of the spin on the anchor, and
        the reading that becomes the new anchor. */
  predicate GateRun(s: GateState, us: nat, before: Tick, readings: seq<Tick>)
  {
    Ascending(before, readings) &&
    if !s.gating then |readings| == 1
    else
      |readings| >= 1 &&
      if readings[0] - s.gateStart > us then |readings| == 3
      else |readings| >= 3 && Spin(s.gateStart, us, readings[1..|readings| - 1])
  }

  /** The outcome of one `gate_us(us)` call that took the readings `readings`.
      The overrun value is the elapsed time since the anchor at the second
      reading; the source computes the difference the other way round, which
      always underflows (see module Overrun). */
  function GateCall(s: GateState, us: nat, before: Tick, readings: seq<Tick>): (step: GateStep)
    requires Consistent(s, before) && GateRun(s, us, before, readings)
    ensures step.state.gating
    ensures Consistent(step.state, readings[|readings| - 1])
    ensures !s.gating ==> step.result == Ok && step.state.gateStart == readings[0]
    ensures step.result.Err? <==> s.gating && readings[0] - s.gateStart > us
    ensures step.result.Err? ==>
              step.result.elapsed > us && s.gateStart + step.result.elapsed == readings[1] &&
              readings[0] <= step.state.gateStart
    ensures s.gating ==> s.gateStart + us <= step.state.gateStart
    ensures s.gateStart <= step.state.gateStart
  {
    if !s.gating then
      GateStep(GateState(true, readings[0]), Ok)
    else if Sub(readings[0], s.gateStart) > us then
      GateStep(GateState(true, readings[2]), Err(Sub(readings[1], s.gateStart)))
    else
      GateStep(GateState(true, readings[|readings| - 1]), Ok)
  }

  /** The overrun path of `gate_us` from its three readings. */
  lemma OverrunPath(s: GateState, us: nat, before: Tick, probe: Tick, later: Tick, anchor: Tick)
    requires Consistent(s, before) && s.gating
    requires before <= probe <= later <= anchor && probe - s.gateStart > us
    ensures GateRun(s, us, before, [probe, later, anchor])
    ensures GateCall(s, us, before, [probe, later, anchor]) ==
            GateStep(GateState(true, anchor), Err(later - s.gateStart))
  {
  }

  /** The waiting path of `gate_us` from its parts: the test reading was not
      past the period, the polls are those of the spin on the anchor, and the
      new anchor is read after the last poll. */
  lemma WaitingPath(s: GateState, us: nat, before: Tick, probe: Tick, polls: seq<Tick>, anchor: Tick)
    requires Consistent(s, before) && s.gating && before <= probe
    requires Ascending(probe, polls) && Spin(s.gateStart, us, polls)
    requires probe - s.gateStart <= us && polls[|polls| - 1] <= anchor
    ensures GateRun(s, us, before, [probe] + polls + [anchor])
    ensures GateCall(s, us, before, [probe] + polls + [anchor]) == GateStep(GateState(true, anchor), Ok)
  {
    var readings := [probe] + polls + [anchor];
    assert readings[1..|readings| - 1] == polls;
    forall i, j | 0 <= i <= j < |readings|
      ensures readings[i] <= readings[j]
    {
      if 0 < i && j < |readings| - 1 {
        assert readings[i] == polls[i - 1] && readings[j] == polls[j - 1];
      } else if 0 < i < |readings| - 1 {
        assert readings[i] == polls[i - 1] <= polls[|polls| - 1];
      } else if 0 < j < |readings| - 1 {
        assert readings[j] == polls[j - 1];
      }
    }
  }

  /** `wait_us(0)` polls exactly once: the first poll is already 0 past the start. */
  lemma WaitZeroPollsOnce(before: Tick, readings: seq<Tick>)
    requires WaitRun(0, before, readings)
    ensures |readings| == 2
  {
    assert readings[1..][0] == readings[1];
  }

  /** When exactly `us` has elapsed at the test, the call succeeds and the spin
      exits on its first poll. */
  lemma GateTieDoesNotSpin(s: GateState, us: nat, before: Tick, readings: seq<Tick>)
    requires Consistent(s, before) && GateRun(s, us, before, readings)
    requires s.gating && readings[0] - s.gateStart == us
    ensures |readings| == 3
    ensures GateCall(s, us, before, readings).result == Ok
  {
    assert readings[1..|readings| - 1][0] == readings[1];
  }

  /** The code does not keep the period exact: the anchor is re-read after the
      spin, so it can land after `gateStart + us`. */
  lemma AnchorMayDrift(us: nat)
    ensures exists readings: seq<Tick> ::
              GateRun(GateState(true, 0), us, 0, readings) &&
              GateCall(GateState(true, 0), us, 0, readings).state.gateStart == us + 1
  {
    var readings: seq<Tick> := [0, us, us + 1];
    assert Spin(0, us, readings[1..2]);
    assert GateRun(GateState(true, 0), us, 0, readings);
  }
}
