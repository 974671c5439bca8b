/** Repeated gate calls on one `Wait`, each with its own period, as in the loop
    the crate's documentation shows (`gate_sec(1)` and `gate_ms(500)` taking
    turns): what the gate guarantees over many calls. */
module Cadence {
  import opened Counter
  import opened Timing

  function Last(readings: seq<Tick>): Tick
    requires |readings| > 0
  {
    readings[|readings| - 1]
  }

  function Sum(periods: seq<nat>): nat
  {
    if periods == [] then 0 else periods[0] + Sum(periods[1..])
  }

  /** `calls[k]` are the readings of the k-th call and `periods[k]` its period
      in microseconds; each call begins no earlier than the last reading of the
      one before it (the work in between may take any time). */
  predicate Series(s: GateState, periods: seq<nat>, before: Tick, calls: seq<seq<Tick>>)
    decreases |calls|
  {
    |periods| == |calls| &&
    (calls == [] ||
     (Consistent(s, before) && GateRun(s, periods[0], before, calls[0]) &&
      Series(GateCall(s, periods[0], before, calls[0]).state, periods[1..], Last(calls[0]), calls[1..])))
  }

  /** The gate state after the whole series. */
  function After(s: GateState, periods: seq<nat>, before: Tick, calls: seq<seq<Tick>>): GateState
    requires Series(s, periods, before, calls)
    decreases |calls|
  {
    if calls == [] then s
    else
      After(GateCall(s, periods[0], before, calls[0]).state, periods[1..], Last(calls[0]), calls[1..])
  }

  /** The outcomes of the calls, in order. */
  function Results(s: GateState, periods: seq<nat>, before: Tick, calls: seq<seq<Tick>>): (rs: seq<GateResult>)
    requires Series(s, periods, before, calls)
    ensures |rs| == |calls|
    ensures !s.gating && calls != [] ==> rs[0] == Ok
    decreases |calls|
  {
    if calls == [] then []
    else
      var step := GateCall(s, periods[0], before, calls[0]);
      [step.result] + Results(step.state, periods[1..], Last(calls[0]), calls[1..])
  }

  /** Nothing turns gating off: after any call, every later state is gating. */
  lemma {:induction false} GatingSticks(s: GateState, periods: seq<nat>, before: Tick, calls: seq<seq<Tick>>)
    requires Series(s, periods, before, calls)
    requires s.gating || calls != []
    ensures After(s, periods, before, calls).gating
    decreases |calls|
  {
    if calls != [] {
      GatingSticks(GateCall(s, periods[0], before, calls[0]).state, periods[1..], Last(calls[0]), calls[1..]);
    }
  }

  /** No period starts early: over gated calls, whatever their outcome, the
      anchor moves on by at least the sum of their periods. */
  lemma {:induction false} NeverEarly(s: GateState, periods: seq<nat>, before: Tick, calls: seq<seq<Tick>>)
    requires s.gating && Series(s, periods, before, calls)
    ensures s.gateStart + Sum(periods) <= After(s, periods, before, calls).gateStart
    decreases |calls|
  {
    if calls != [] {
      var next := GateCall(s, periods[0], before, calls[0]).state;
      NeverEarly(next, periods[1..], Last(calls[0]), calls[1..]);
    }
  }

  /** On a fresh `Wait` the first call is a free pass that anchors on its one
      reading, and from there each later call moves the anchor on by at least
      its own period. */
  lemma {:induction false} FreshGateSeries(periods: seq<nat>, before: Tick, calls: seq<seq<Tick>>)
    requires Series(GateState(false, 0), periods, before, calls) && calls != []
    ensures Results(GateState(false, 0), periods, before, calls)[0] == Ok
    ensures |calls[0]| == 1
    ensures calls[0][0] + Sum(periods[1..]) <= After(GateState(false, 0), periods, before, calls).gateStart
  {
    var first := GateCall(GateState(false, 0), periods[0], before, calls[0]);
    NeverEarly(first.state, periods[1..], Last(calls[0]), calls[1..]);
  }

  /** A sum of `n` periods that are all `us` is `n * us`. */
  lemma {:induction false} SumOfEqualPeriods(periods: seq<nat>, us: nat)
    requires forall k :: 0 <= k < |periods| ==> periods[k] == us
    ensures Sum(periods) == |periods| * us
  {
    if periods != [] {
      SumOfEqualPeriods(periods[1..], us);
      assert |periods| * us == us + |periods[1..]| * us;
    }
  }

  /** With one period throughout, `n` gated calls move the anchor on by at
      least `n` periods. */
  lemma EqualPeriods(s: GateState, us: nat, periods: seq<nat>, before: Tick, calls: seq<seq<Tick>>)
    requires s.gating && Series(s, periods, before, calls)
    requires forall k :: 0 <= k < |periods| ==> periods[k] == us
    ensures s.gateStart + |calls| * us <= After(s, periods, before, calls).gateStart
  {
    NeverEarly(s, periods, before, calls);
    SumOfEqualPeriods(periods, us);
  }
}
