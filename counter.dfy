/** The free-running microsecond counter that `Wait` polls, and the unsigned
    64-bit arithmetic the crate applies to durations and readings. */
module Counter {

  /** 2^64: one more than the largest `u64`. */
  const U64_LIMIT: int := 0x1_0000_0000_0000_0000
  const U64_MAX: int := U64_LIMIT - 1

  /** A Rust `u64`. Arguments in microseconds, milliseconds and seconds have this type. */
  type U64 = x: int | 0 <= x < U64_LIMIT

  /** A counter reading in microseconds. The hardware counter is 64 bits wide;
      it is assumed never to wrap, so readings are modelled as unbounded naturals. */
  type Tick = nat

  /** `a - b` on `u64` where Rust would panic on underflow: the precondition is the
      obligation that the subtraction does not underflow. It is used where the
      code's subtraction is correct; `Overrun.CheckedSub` spells out the panic
      for the one place where it is not, and `Overrun.CheckedSubAgrees` ties
      the two together. */
  function Sub(a: Tick, b: Tick): (d: nat)
    requires b <= a
    ensures b + d == a
  {
    a - b
  }

  /** The hardware timer, seen only through its reads. `now` is the value of the
      latest reading (or the value before any read), `log` is every value ever
      returned, oldest first.

      Progress assumption: a read may return the same value as the previous one
      (the processor polls faster than the counter ticks), but only while the
      budget `stall` lasts, and `stall` strictly decreases on every such read.
      When the counter advances, the budget is replenished by an arbitrary
      amount. So the counter cannot stand still forever, and nothing else is
      said about how fast it runs. */
  class Timer {
    var now: Tick
    var stall: nat
    ghost var log: seq<Tick>

    constructor (start: Tick, budget: nat)
      ensures now == start && stall == budget && log == []
    {
      now, stall := start, budget;
      log := [];
    }

    /** One read of the counter (`get_counter().ticks()`): never smaller than
        the previous reading, and equal to it only by spending stall budget. */
    method Read() returns (t: Tick)
      modifies this
      ensures old(now) <= t && now == t
      ensures t == old(now) ==> stall < old(stall)
      ensures log == old(log) + [t]
    {
      var hold: bool :| true;
      if hold && stall > 0 {
        t := now;
        stall := stall - 1;
      } else {
        var step: nat :| step > 0;
        var budget: nat :| true;
        t, stall := now + step, budget;
      }
      now := t;
      log := log + [t];
    }
  }
}
