# rp2040_wait: the `Wait` timing engine, modelled in Dafny

The crate wraps the RP2040's free-running microsecond counter in a struct
`Wait` with two facilities:

- **spin-waits**: `wait_us`, `wait_ms` and `wait_sec` read a start value and
  poll the counter until the requested time has elapsed since it;
- **the gate**: `gate_us`, `gate_ms` and `gate_sec` keep the time between
  successive gate calls at least one period. The first call is a free pass
  that only records an anchor. A later call reports an overrun at once when
  more than the period has passed since the anchor. Otherwise it spins until
  the period has passed. Either way, it then re-anchors on a fresh reading.

The model has five modules:

- `Counter` (counter.dfy): the hardware timer as a class `Timer` whose only
  operation is `Read`. Each read returns a value no smaller than the previous
  one and is recorded in a ghost log. It also defines `u64` and the
  underflow-checked subtraction the source relies on.
- `Timing` (timing.dfy): what one call does, as pure definitions over the
  sequence of readings it takes. Every `self.time()` in the source is a
  separate reading, in source order: `gate_us` reads once on its first call,
  three times on an overrun, and test, polls, anchor on the waiting path.
  `GateCall` gives the outcome and new state of one gate call.
- `WaitTimer` (wait.dfy): the class `Wait` with fields `gating` and
  `gateStart` and the seven methods of the struct. `new` and `time` state
  their new state in full. The waits are proved against `Timing.WaitRun`:
  the readings they took form a run of that shape. The gates are proved
  against `Timing.GateCall`: their readings form a gate run, and their new
  state and result are those `GateCall` gives. The class also holds
  `DocumentedRound`, a client of the struct: one pass of the loop shown in
  the crate's documentation.
- `Cadence` (cadence.dfy): series of gate calls, and what holds over many
  periods.
- `Overrun` (overrun.dfy): the overrun value as the source computes it, in
  debug and release builds (see Findings).

Modelling assumptions:

- **Progress.** A read may return the same value as the previous read,
  because the processor polls faster than the counter ticks. It may do so
  only while a budget `stall` lasts, and each such read strictly decreases
  that budget. When the counter advances, the budget is replenished by an
  arbitrary amount. This is what makes the polling loops terminate. Their
  measure is the remaining time to the deadline, then the stall budget.
- **No wrap.** The counter never wraps at 2^64. Readings are unbounded
  naturals.
- **u64 overflow is an obligation.** Where Rust's `u64` arithmetic would
  overflow or underflow, the model has a precondition instead. This covers
  `ms * 1000`, `sec * 1000` and the second `* 1000` that follows it, and every `reading - anchor` subtraction
  (`Counter.Sub`).

Two points where the code does less than one might expect:

- **The anchor can drift.** One might expect each new anchor to be exactly
  the old anchor plus the period. The code re-reads the counter after the
  spin (src/lib.rs:100), so the new anchor is only at least the old anchor
  plus the period. `Timing.AnchorMayDrift` exhibits a run where it is one
  tick later.
- **The overrun value.** The code's variable is named `elapsed_time`, so the
  corrected value here is the elapsed time since the anchor,
  `reading - gate_start`. Another reading of the overrun value is the excess
  over the period. See Findings for the subtraction as written.

## Model

| member | source | states |
|---|---|---|
| `Counter.Timer.Read` | src/lib.rs:69 | a counter read never goes backwards; repeating a value uses up the stall budget; the value is appended to the log |
| `WaitTimer.Wait.constructor` | src/lib.rs:63-65 | `new` binds the given timer, starts with `gating == false` and `gate_start == 0`, and does not read the counter |
| `WaitTimer.Wait.Time` | src/lib.rs:68-70 | `time` is exactly one counter read, no smaller than the counter before it; `gating` and `gate_start` are unchanged |
| `WaitTimer.Wait.WaitUs` | src/lib.rs:73-76 | the readings taken are a start reading followed by polls, all ascending; every poll but the last is short of `us` after the start and the last is not, so the call never returns early; earlier log entries are unchanged and the counter ends at the last poll; gate state unchanged |
| `WaitTimer.Wait.WaitMs` | src/lib.rs:78-80 | behaves as `wait_us(ms * 1000)`; requires the product to fit in a `u64` (otherwise the multiplication overflows) |
| `WaitTimer.Wait.WaitSec` | src/lib.rs:82-84 | behaves as `wait_ms(sec * 1000)`, i.e. `wait_us(sec * 1000 * 1000)`; requires both products to fit in a `u64` |
| `WaitTimer.Wait.GateUs` | src/lib.rs:88-102 | the readings taken are a possible run of the gate from the old state, and the new `gating`/`gate_start` and the result are those `Timing.GateCall` gives for them; earlier log entries are unchanged and the counter ends at the call's last reading; the object invariant (anchor 0 before the first call, afterwards no later than the latest reading) is kept |
| `WaitTimer.Wait.GateMs` | src/lib.rs:105-107 | behaves as `gate_us(ms * 1000)`; requires the product to fit in a `u64` |
| `WaitTimer.Wait.GateSec` | src/lib.rs:110-112 | behaves as `gate_us(sec * 1000 * 1000)`; requires both products to fit in a `u64` |
| `Timing.GateCall` | src/lib.rs:88-102 | after any call `gating` is true; the first call returns `Ok` and anchors on its single reading; `Err` is returned iff the test reading is more than `us` past the anchor, and then carries the elapsed time (more than `us`) and the new anchor is no earlier than the test reading; on every gated path the new anchor is at least the old anchor plus `us`; on every path the anchor never moves back; the new anchor is never after the call's last reading |
| `Timing.WaitZeroPollsOnce` | src/lib.rs:73-76 | `wait_us(0)` polls exactly once and the loop body never runs |
| `Timing.OverrunPath` | src/lib.rs:94-97 | a test reading more than `us` past the anchor, then two later readings, form a run of the gate whose result is `Err(second - anchor)` and whose new anchor is the third reading |
| `Timing.WaitingPath` | src/lib.rs:94-101 | a test reading not past the period, the polls of the spin on the anchor and a later reading form a run of the gate that returns `Ok` and anchors on that later reading |
| `Timing.GateTieDoesNotSpin` | src/lib.rs:94-101 | when exactly `us` has elapsed at the test, the call returns `Ok` and its spin exits on the first poll |
| `Timing.AnchorMayDrift` | src/lib.rs:99-100 | for every period there is a run on the waiting path whose new anchor is later than old anchor plus period, so the period is not kept exactly |
| `Cadence.GatingSticks` | src/lib.rs:89-101 | once gating is on, or after any call, every later state of the series is gating; nothing resets it |
| `Cadence.NeverEarly` | src/lib.rs:94-101 | over a series of gated calls, each with its own period and whatever their outcomes, the anchor moves on by at least the sum of the periods |
| `Cadence.EqualPeriods` | src/lib.rs:94-101 | `n` gated calls, all with period `us`, move the anchor on by at least `n * us`, whatever their outcomes |
| `Cadence.FreshGateSeries` | src/lib.rs:88-102 | on a fresh `Wait` the first call returns `Ok` after one reading, and after the series the anchor is at least that reading plus the periods of all later calls |
| `WaitTimer.Wait.DocumentedRound` | src/lib.rs:39-50 | one pass of the documented loop, `gate_sec(1)` then `gate_ms(500)`, naming the anchor the first call leaves: when the gate was running, that anchor is at least 1 s after the previous one; on a fresh `Wait` the first call returns `Ok` and anchors on the first reading taken during the call; either way the second call's anchor is at least 500 ms after the first's; the counter never goes back |
| `Overrun.CheckedSub` | src/lib.rs:95 | debug-build `u64` subtraction: it panics exactly when the subtrahend is larger, and otherwise returns the difference |
| `Overrun.CheckedSubAgrees` | src/lib.rs:75 | where no underflow is possible, debug-build subtraction is the `Counter.Sub` the rest of the model uses |
| `Overrun.WrappingSub` | src/lib.rs:95 | release-build `u64` subtraction: the result is a `u64` congruent to the difference modulo 2^64 |
| `Overrun.OverrunValueAsWritten` | src/lib.rs:95 | `gate_start - time()` as written yields a value only when the reading is not after `gate_start` |
| `Overrun.AsWrittenOverrunPanics` | src/lib.rs:94-97 | on every run that reaches the overrun branch, the subtraction as written underflows, while the corrected gate returns `Err(reading - gate_start)` |
| `Overrun.ReleaseOverrunWraps` | src/lib.rs:95 | in a release build the reported value is 2^64 minus the true elapsed time, which is larger than 2^63 whenever the elapsed time is smaller |
| `Overrun.OverrunExample` | src/lib.rs:94-97 | anchor 0, period 500000 and readings at 900000: the subtraction as written panics, and the corrected gate returns `Err(900000)` with new anchor 900000 |

## Findings

| source | as written | input that shows it | evidently intended | confidence | as-written member | corrected member |
|---|---|---|---|---|---|---|
| src/lib.rs:95 | `let elapsed_time = self.gate_start - self.time();` subtracts a reading that is already more than `us` past `gate_start` from `gate_start`. This `u64` subtraction always underflows: a panic in debug builds, 2^64 minus the elapsed time in release builds | any overrun, e.g. `gate_start == 0`, `us == 500000`, readings 900000 | `self.time() - self.gate_start`, the elapsed time since the anchor, which is what the variable name says | high that it underflows; medium that elapsed time, not the excess over the period, was meant; not executed | `Overrun.OverrunValueAsWritten` | `Timing.GateCall` |

## Left out

- The example program `examples/led_wait.rs` (clock, watchdog, boot loader and GPIO set-up, then `wait_ms(500)` in a loop) is board bring-up over a HAL that is not part of this model.
- The internals of `rp2040_hal::timer::Timer::get_counter().ticks()` are not part of this model. The timer appears only as an abstract non-decreasing counter with the progress assumption above.
- Real elapsed time, the cost of each poll and the jitter between reads are left out. Only the order of successive readings is modelled.
- Counter wrap-around at 2^64 is excluded by assumption. Readings and `gate_start` are unbounded naturals rather than `u64`, and so is the value carried by `Err`.
- Release-build wrapping of `ms * 1000` and `sec * 1000` is left out. Both products are required to fit in a `u64`, which is the debug build's no-panic condition.
- Concurrency and sharing of the timer are left out. The code has none, and `&mut self` on the gate methods rules out aliasing of the `Wait`.
