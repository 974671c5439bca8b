/** The overrun value of `gate_us` as the source writes it: `gate_start`
    minus a reading that is already past it. */
module Overrun {
  import opened Counter
  import opened Timing

  datatype Option<T> = None | Some(value: T)

  /** `a - b` on `u64` in a debug build: `None` is the overflow panic. */
  function CheckedSub(a: Tick, b: Tick): (r: Option<nat>)
    ensures r.None? <==> a < b
    ensures r.Some? ==> b + r.value == a
  {
    if b <= a then Some(a - b) else None
  }

  /** Where no underflow is possible, the debug-build subtraction is `Sub`. */
  lemma CheckedSubAgrees(a: Tick, b: Tick)
    requires b <= a
    ensures CheckedSub(a, b) == Some(Sub(a, b))
  {
  }

  /** `a - b` on `u64` in a release build: wraps modulo 2^64. */
  function WrappingSub(a: U64, b: U64): (r: U64)
    ensures (r - (a - b)) % U64_LIMIT == 0
  {
    if b <= a then a - b else a - b + U64_LIMIT
  }

  /** The error value as computed at the overrun branch, in a debug build. */
  function OverrunValueAsWritten(gateStart: Tick, t: Tick): (r: Option<nat>)
    ensures r.Some? ==> t <= gateStart
  {
    CheckedSub(gateStart, t)
  }

  /** On every path that reaches the overrun branch, the subtraction as written
      underflows: the second reading is already more than `us` past the anchor. */
  lemma AsWrittenOverrunPanics(s: GateState, us: nat, before: Tick, readings: seq<Tick>)
    requires Consistent(s, before) && GateRun(s, us, before, readings)
    requires s.gating && readings[0] - s.gateStart > us
    ensures OverrunValueAsWritten(s.gateStart, readings[1]) == None
    ensures GateCall(s, us, before, readings).result == Err(readings[1] - s.gateStart)
  {
  }

  /** In a release build the wrapped value is 2^64 minus the true elapsed time,
      so a short overrun is reported as an enormous one. */
  lemma ReleaseOverrunWraps(gateStart: U64, t: U64)
    requires gateStart < t
    ensures WrappingSub(gateStart, t) == U64_LIMIT - (t - gateStart)
    ensures t - gateStart < U64_LIMIT / 2 ==> WrappingSub(gateStart, t) > U64_LIMIT / 2
  {
  }

  /** A concrete run: anchor 0, period 500000, the test reading at 900000. The
      as-written subtraction panics where the corrected gate reports 900000. */
  lemma OverrunExample()
    ensures GateRun(GateState(true, 0), 500000, 0, [900000, 900000, 900000])
    ensures OverrunValueAsWritten(0, 900000) == None
    ensures GateCall(GateState(true, 0), 500000, 0, [900000, 900000, 900000]) ==
            GateStep(GateState(true, 900000), Err(900000))
  {
  }
}
