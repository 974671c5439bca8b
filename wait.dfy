/** The `Wait` struct: spin-waits and the period gate over a borrowed timer. */
module WaitTimer {
  import opened Counter
  import opened Timing

  /** A log that grew by `recent` still begins with what it held before. */
  lemma Appended(earlier: seq<Tick>, recent: seq<Tick>)
    ensures (earlier + recent)[..|earlier|] == earlier
    ensures (earlier + recent)[|earlier|..] == recent
  {
  }

  class Wait {
    /** The borrowed `&Timer`; the `Wait` never replaces it. */
    const timer: Timer
    var gating: bool
    var gateStart: Tick

    /** Before the first gate call the anchor is 0; afterwards it is no
        later than the latest reading. */
    ghost predicate Valid()
      reads this, timer
    {
      Consistent(State(), timer.now)
    }

    function State(): GateState
      reads this
    {
      GateState(gating, gateStart)
    }

    /** The readings taken since the log had `n` entries. */
    ghost function ReadingsSince(n: nat): seq<Tick>
      reads timer
      requires n <= |timer.log|
    {
      timer.log[n..]
    }

    /** The log still begins with `earlier`, and the counter stands at the
        latest reading, which came after them. */
    ghost predicate Extends(earlier: seq<Tick>)
      reads timer
    {
      |earlier| < |timer.log| && timer.log[..|earlier|] == earlier &&
      timer.now == timer.log[|timer.log| - 1]
    }

    /** `Wait::new`: not gating, anchor 0, and the timer is not read. */
    constructor (timer: Timer)
      ensures this.timer == timer && !gating && gateStart == 0
      ensures Valid()
      ensures timer.now == old(timer.now) && timer.log == old(timer.log)
    {
      this.timer := timer;
      gating, gateStart := false, 0;
    }

    /** `time`: one reading of the counter; the gate state is untouched. */
    method Time() returns (t: Tick)
      requires Valid()
      modifies timer
      ensures Valid() && State() == old(State())
      ensures old(timer.now) <= t && t == timer.now
      ensures timer.log == old(timer.log) + [t]
    {
      t := timer.Read();
    }

    /** `wait_us`: read a start, then poll until `us` has elapsed since it. */
    method WaitUs(us: U64)
      requires Valid()
      modifies timer
      ensures Valid() && State() == old(State())
      ensures Extends(old(timer.log))
      ensures WaitRun(us, old(timer.now), ReadingsSince(|old(timer.log)|))
    {
      ghost var before := timer.now;
      var start := timer.Read();
      var t := timer.Read();
      ghost var readings: seq<Tick> := [start, t];
      while Sub(t, start) < us
        invariant timer.log == old(timer.log) + readings
        invariant |readings| >= 2 && readings[0] == start
        invariant t == timer.now == readings[|readings| - 1]
        invariant Ascending(before, readings)
        invariant forall i :: 1 <= i < |readings| - 1 ==> readings[i] - start < us
        invariant Valid()
        decreases start + us - t, timer.stall
      {
        t := timer.Read();
        readings := readings + [t];
      }
      assert ReadingsSince(|old(timer.log)|) == readings;
      assert forall i :: 0 <= i < |readings| - 2 ==> readings[1..][i] == readings[i + 1];
    }

    /** `wait_ms`: `wait_us(ms * 1000)`; the product must fit in a `u64`. */
    method WaitMs(ms: U64)
      requires Valid()
      requires ms * 1000 <= U64_MAX
      modifies timer
      ensures Valid() && State() == old(State())
      ensures Extends(old(timer.log))
      ensures WaitRun(ms * 1000, old(timer.now), ReadingsSince(|old(timer.log)|))
    {
      WaitUs(ms * 1000);
    }

    /** `wait_sec`: `wait_ms(sec * 1000)`; both products must fit in a `u64`. */
    method WaitSec(sec: U64)
      requires Valid()
      requires sec * 1000 * 1000 <= U64_MAX
      modifies timer
      ensures Valid() && State() == old(State())
      ensures Extends(old(timer.log))
      ensures WaitRun(sec * 1000 * 1000, old(timer.now), ReadingsSince(|old(timer.log)|))
    {
      WaitMs(sec * 1000);
    }

    /** `gate_us`: a free pass the first time; afterwards either report an
        overrun at once, or spin until `us` has elapsed since the anchor; in
        every case re-anchor on a fresh reading. */
    method GateUs(us: U64) returns (r: GateResult)
      requires Valid()
      modifies this, timer
      ensures Valid()
      ensures Extends(old(timer.log))
      ensures GateRun(old(State()), us, old(timer.now), ReadingsSince(|old(timer.log)|))
      ensures GateStep(State(), r) ==
              GateCall(old(State()), us, old(timer.now), ReadingsSince(|old(timer.log)|))
    {
      ghost var before := timer.now;
      ghost var s := State();
      if !gating {
        gateStart := timer.Read();
        gating := true;
        Appended(old(timer.log), [gateStart]);
        return Ok;
      }
      var probe := timer.Read();
      if Sub(probe, gateStart) > us {
        var later := timer.Read();
        var elapsed := Sub(later, gateStart);
        gateStart := timer.Read();
        assert timer.log == old(timer.log) + [probe, later, gateStart];
        Appended(old(timer.log), [probe, later, gateStart]);
        OverrunPath(s, us, before, probe, later, gateStart);
        return Err(elapsed);
      }
      var t := timer.Read();
      ghost var polls: seq<Tick> := [t];
      while Sub(t, gateStart) < us
        invariant timer.log == old(timer.log) + [probe] + polls
        invariant |polls| >= 1 && t == timer.now == polls[|polls| - 1]
        invariant Ascending(probe, polls)
        invariant forall i :: 0 <= i < |polls| - 1 ==> polls[i] - gateStart < us
        invariant State() == s
        decreases gateStart + us - t, timer.stall
      {
        t := timer.Read();
        polls := polls + [t];
      }
      var anchor := timer.Read();
      assert timer.log == old(timer.log) + ([probe] + polls + [anchor]);
      Appended(old(timer.log), [probe] + polls + [anchor]);
      WaitingPath(s, us, before, probe, polls, anchor);
      gateStart := anchor;
      r := Ok;
    }

    /** `gate_ms`: `gate_us(ms * 1000)`; the product must fit in a `u64`. */
    method GateMs(ms: U64) returns (r: GateResult)
      requires Valid()
      requires ms * 1000 <= U64_MAX
      modifies this, timer
      ensures Valid()
      ensures Extends(old(timer.log))
      ensures GateRun(old(State()), ms * 1000, old(timer.now), ReadingsSince(|old(timer.log)|))
      ensures GateStep(State(), r) ==
              GateCall(old(State()), ms * 1000, old(timer.now), ReadingsSince(|old(timer.log)|))
    {
      r := GateUs(ms * 1000);
    }

    /** `gate_sec`: `gate_ms(sec * 1000)`; both products must fit in a `u64`. */
    method GateSec(sec: U64) returns (r: GateResult)
      requires Valid()
      requires sec * 1000 * 1000 <= U64_MAX
      modifies this, timer
      ensures Valid()
      ensures Extends(old(timer.log))
      ensures GateRun(old(State()), sec * 1000 * 1000, old(timer.now), ReadingsSince(|old(timer.log)|))
      ensures GateStep(State(), r) ==
              GateCall(old(State()), sec * 1000 * 1000, old(timer.now), ReadingsSince(|old(timer.log)|))
    {
      r := GateMs(sec * 1000);
    }

    /** One pass of the loop in the crate's documentation, a client of the
        struct rather than one of its methods: `gate_sec(1)` (A) then
        `gate_ms(500)` (B). `anchorA` is the anchor A leaves. When the gate was
        already running, it is at least 1 s after the previous anchor; on a
        fresh `Wait` A is the free pass and anchors on the first reading of
        the round. Either way B's anchor is at least 500 ms after A's. */
    method DocumentedRound() returns (a: GateResult, b: GateResult, ghost anchorA: Tick)
      requires Valid()
      modifies this, timer
      ensures Valid() && gating
      ensures Extends(old(timer.log))
      ensures old(timer.now) <= timer.now
      ensures old(gating) ==> old(gateStart) + 1_000_000 <= anchorA
      ensures !old(gating) ==> a == Ok && old(timer.now) <= anchorA
      ensures !old(gating) ==> anchorA == timer.log[|old(timer.log)|]
      ensures anchorA + 500_000 <= gateStart
    {
      a := GateSec(1);
      anchorA := gateStart;
      ghost var logA := timer.log;
      assert !old(gating) ==> anchorA == logA[|old(timer.log)|];
      b := GateMs(500);
      assert timer.log[..|old(timer.log)|] == logA[..|old(timer.log)|];
    }
  }
}
