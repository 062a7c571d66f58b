/**
 The clock of the KVM timer: 64-bit words that wrap, floats as reals.  Simulated time is read off the
 guest's time stamp counter, anchored at the counter value of the next deadline; the kernel module
 accumulates the differences between deadlines.
 */
module KvmClock {
  const U64: nat := 0x1_0000_0000_0000_0000
  const I64: int := 0x8000_0000_0000_0000

  /** What the clock is computed from: counter and anchor in guest ticks, ticks per ns, deadline in ns. */
  datatype Reading = Reading(rdtsc: nat, tscOffset: nat, timerValue: nat, freq: real, nextDeadline: nat)

  predicate Valid(r: Reading) {
    r.rdtsc < U64 && r.tscOffset < U64 && r.timerValue < U64 && r.freq > 0.0
  }

  function WrapSub(a: nat, b: nat): nat { (a - b) % U64 }

  /** Conversion of a float to a 64-bit word saturates. */
  function ToWord(x: real): nat
    requires x >= 0.0
  {
    if x.Floor >= U64 then U64 - 1 else x.Floor
  }

  /** A word read as a signed number. */
  function Signed(w: int): int {
    if w % U64 >= I64 then w % U64 - U64 else w % U64
  }

  function Ticks(r: Reading): nat { (r.rdtsc + r.tscOffset) % U64 }

  /** The guest's counter, as a number of ticks: the host's plus the guest's offset, or 2^64 less when the sum does not fit. */
  predicate Counter(r: Reading, ticks: nat) {
    ticks < U64 && (r.rdtsc + r.tscOffset == ticks || r.rdtsc + r.tscOffset == ticks + U64)
  }

  lemma TicksAreCounter(r: Reading, ticks: nat)
    requires Valid(r)
    ensures Counter(r, ticks) <==> ticks == Ticks(r)
  {
    if r.rdtsc + r.tscOffset >= U64 { Congruent(r.rdtsc + r.tscOffset, -1); }
  }

  /** The time the design asks for at this counter value: an affine map through the next deadline at the timer's value. */
  function Exact(r: Reading, ticks: nat): real
    requires r.freq > 0.0
  {
    r.nextDeadline as real + (ticks as real - r.timerValue as real) / r.freq
  }

  /** Guest ticks in nanoseconds. */
  function Nanos(ticks: nat, freq: real): nat
    requires freq > 0.0
  {
    NonNegative(ticks as real, freq);
    ToWord(ticks as real / freq)
  }

  lemma NonNegative(x: real, y: real)
    requires x >= 0.0 && y > 0.0
    ensures x / y >= 0.0
  {}

  /** `simulation_now`. */
  function SimulationNow(r: Reading): nat
    requires Valid(r)
  {
    var offset := WrapSub(Nanos(r.timerValue, r.freq), r.nextDeadline % U64);
    var vmTime := WrapSub(Nanos(Ticks(r), r.freq), offset);
    if Signed(vmTime) < 0 then 0 else Signed(vmTime)
  }

  /** The intended time: nanoseconds since the anchor, added to the deadline. */
  function Intended(r: Reading): int
    requires Valid(r)
  {
    Nanos(Ticks(r), r.freq) - Nanos(r.timerValue, r.freq) + r.nextDeadline
  }

  lemma WrapTwice(now: nat, anchor: nat, deadline: nat)
    ensures WrapSub(now, WrapSub(anchor, deadline % U64)) == (now - anchor + deadline) % U64
  {
    var inner := anchor - deadline % U64;
    assert inner % U64 == inner - inner / U64 * U64;
    assert deadline % U64 == deadline - deadline / U64 * U64;
    Congruent(now - anchor + deadline, inner / U64 - deadline / U64);
    assert now - inner % U64 == now - anchor + deadline + (inner / U64 - deadline / U64) * U64;
  }

  lemma Congruent(x: int, k: int)
    ensures (x + k * U64) % U64 == x % U64
  {
    assert x == x / U64 * U64 + x % U64;
    assert x + k * U64 == (x / U64 + k) * U64 + x % U64;
  }

  lemma SignedWrap(now: nat, anchor: nat, deadline: nat)
    ensures Signed(WrapSub(now, WrapSub(anchor, deadline % U64))) == Signed(now - anchor + deadline)
  {
    WrapTwice(now, anchor, deadline);
  }

  /** For all inputs the two wrapping subtractions amount to one signed 64-bit value, negative ones cut to 0. */
  lemma NowIsWrappedIntended(r: Reading)
    requires Valid(r)
    ensures SimulationNow(r) == if Signed(Intended(r)) < 0 then 0 else Signed(Intended(r))
  {
    SignedWrap(Nanos(Ticks(r), r.freq), Nanos(r.timerValue, r.freq), r.nextDeadline);
  }

  lemma SignedInRange(t: int)
    requires -I64 <= t < I64
    ensures Signed(t) == t
  {
    if t < 0 { Congruent(t, 1); }
  }

  /** The time read is the intended one (or 0 before the start) unless that leaves the signed range. */
  lemma NowIsIntended(r: Reading)
    requires Valid(r) && -I64 <= Intended(r) < I64
    ensures SimulationNow(r) == if Intended(r) < 0 then 0 else Intended(r)
  {
    NowIsWrappedIntended(r);
    SignedInRange(Intended(r));
  }

  /** From 2^63 ns on, a positive time is never read correctly: the exact limit of the conversion. */
  lemma NowIsCorrectIff(r: Reading)
    requires Valid(r) && Intended(r) >= 0
    ensures SimulationNow(r) == Intended(r) <==> Intended(r) < I64
  {
    if Intended(r) < I64 { NowIsIntended(r); }
  }

  lemma NanosMonotone(a: nat, b: nat, freq: real)
    requires a <= b && freq > 0.0
    ensures Nanos(a, freq) <= Nanos(b, freq)
  {
    NonNegative((b - a) as real, freq);
    assert b as real / freq == a as real / freq + (b - a) as real / freq;
  }

  /** Between two deadlines time follows the counter: it never goes back. */
  lemma NowMonotone(r: Reading, r': Reading, ticks: nat, ticks': nat)
    requires Valid(r) && Valid(r') && r' == r.(rdtsc := r'.rdtsc) && Counter(r, ticks) && Counter(r', ticks') && ticks <= ticks'
    requires -I64 <= Intended(r) && Intended(r') < I64
    ensures SimulationNow(r) <= SimulationNow(r')
  {
    TicksAreCounter(r, ticks);
    TicksAreCounter(r', ticks');
    NanosMonotone(ticks, ticks', r.freq);
    NowIsIntended(r);
    NowIsIntended(r');
  }

  /** At the counter value of the deadline the time is the deadline; it is later exactly when a whole nanosecond more has passed. */
  lemma NowAgainstDeadline(r: Reading, ticks: nat)
    requires Valid(r) && -I64 <= Intended(r) < I64 && Counter(r, ticks)
    ensures ticks == r.timerValue ==> SimulationNow(r) == r.nextDeadline
    ensures ticks <= r.timerValue ==> SimulationNow(r) <= r.nextDeadline
    ensures SimulationNow(r) > r.nextDeadline <==> Nanos(ticks, r.freq) > Nanos(r.timerValue, r.freq)
  {
    TicksAreCounter(r, ticks);
    NowIsIntended(r);
    if ticks <= r.timerValue { NanosMonotone(ticks, r.timerValue, r.freq); }
  }

  lemma NanosIsFloor(ticks: nat, freq: real)
    requires freq > 0.0 && ticks as real / freq < U64 as real
    ensures Nanos(ticks, freq) as real <= ticks as real / freq < Nanos(ticks, freq) as real + 1.0
  {
    NonNegative(ticks as real, freq);
  }

  lemma DivideDifference(x: real, y: real, f: real)
    requires f > 0.0
    ensures (x - y) / f == x / f - y / f
  {}

  /** A count of nanoseconds that does not fit a word is cut to the greatest one. */
  lemma NanosSaturates(ticks: nat, freq: real)
    requires freq > 0.0 && ticks as real / freq >= U64 as real
    ensures Nanos(ticks, freq) == U64 - 1
  {
    NonNegative(ticks as real, freq);
  }

  lemma IntendedIsAffine(r: Reading, ticks: nat)
    requires Valid(r) && Counter(r, ticks)
    requires ticks as real / r.freq < U64 as real && r.timerValue as real / r.freq < U64 as real
    ensures Exact(r, ticks) - 1.0 < Intended(r) as real < Exact(r, ticks) + 1.0
  {
    TicksAreCounter(r, ticks);
    NanosIsFloor(ticks, r.freq);
    NanosIsFloor(r.timerValue, r.freq);
    DivideDifference(ticks as real, r.timerValue as real, r.freq);
  }

  /** The time read is within a nanosecond of the affine map of the counter that the design asks for. */
  lemma NowIsAffine(r: Reading, ticks: nat)
    requires Valid(r) && Counter(r, ticks) && 1.0 <= Exact(r, ticks) <= (I64 - 1) as real
    requires ticks as real / r.freq < U64 as real && r.timerValue as real / r.freq < U64 as real
    ensures Exact(r, ticks) - 1.0 < SimulationNow(r) as real < Exact(r, ticks) + 1.0
  {
    IntendedIsAffine(r, ticks);
    NowIsIntended(r);
  }

  /** Exactly: the whole nanoseconds of the counter, less those of the timer's value, added to the deadline, and never below 0. */
  lemma NowIsDifference(r: Reading, ticks: nat, now: nat, anchor: nat)
    requires Valid(r) && Counter(r, ticks) && now < U64 && anchor < U64
    requires now as real <= ticks as real / r.freq < now as real + 1.0
    requires anchor as real <= r.timerValue as real / r.freq < anchor as real + 1.0
    requires -I64 <= now - anchor + r.nextDeadline < I64
    ensures SimulationNow(r) == if now - anchor + r.nextDeadline < 0 then 0 else now - anchor + r.nextDeadline
  {
    TicksAreCounter(r, ticks);
    NanosIs(ticks, r.freq, now);
    NanosIs(r.timerValue, r.freq, anchor);
    NowIsIntended(r);
  }

  lemma NanosIs(ticks: nat, freq: real, n: nat)
    requires freq > 0.0 && n < U64 && n as real <= ticks as real / freq < n as real + 1.0
    ensures Nanos(ticks, freq) == n
  {
    NonNegative(ticks as real, freq);
    FloorIs(ticks as real / freq, n);
  }

  lemma FloorIs(x: real, n: nat)
    requires n as real <= x < n as real + 1.0
    ensures x.Floor == n
  {}

  /** At the timer's value the time is the deadline, whatever the frequency and however the counter wrapped. */
  lemma NowAtTimerValue(r: Reading)
    requires Valid(r) && r.nextDeadline < I64 && Counter(r, r.timerValue)
    ensures SimulationNow(r) == r.nextDeadline
  {
    TicksAreCounter(r, r.timerValue);
    NowIsIntended(r);
  }

  // ---------------------------------------------------------------- deadlines

  /** The client's two deadlines and the kernel module's accumulated one, in nanoseconds. */
  class TimerContext {
    var prevDeadline: nat
    var nextDeadline: nat
    var vmxTimerValue: nat
    var tscFreq: real
    var kernelDeadline: nat
    var kernelDeadlineTsc: nat

    /** The kernel's sum of differences is the deadline the client knows, modulo 2^64. */
    predicate Valid()
      reads this
    {
      prevDeadline <= nextDeadline && kernelDeadline == nextDeadline % U64 && tscFreq >= 0.0
    }

    constructor ()
      ensures Valid() && prevDeadline == nextDeadline == 0
    {
      prevDeadline, nextDeadline, vmxTimerValue, tscFreq := 0, 0, 0, 0.0;
      kernelDeadline, kernelDeadlineTsc := 0, 0;
    }

    /** `TANSIV_REGISTER_DEADLINE`: `loaded` is the counter value the preemption timer was set to. */
    method RegisterDeadline(deadline: nat, deadlineTsc: nat, loaded: nat) returns (vmxTimerValue: nat)
      requires deadline < U64
      modifies this`kernelDeadline, this`kernelDeadlineTsc
      ensures kernelDeadline == (old(kernelDeadline) + deadline) % U64 && kernelDeadlineTsc == deadlineTsc && vmxTimerValue == loaded
    {
      kernelDeadline := (kernelDeadline + deadline) % U64;
      kernelDeadlineTsc := deadlineTsc;
      vmxTimerValue := loaded;
    }

    /** `set_next_deadline`; the subtraction of durations panics if the deadline goes back. */
    method SetNextDeadline(deadline: nat, loaded: nat)
      requires Valid() && nextDeadline <= deadline
      modifies this`prevDeadline, this`nextDeadline, this`vmxTimerValue, this`kernelDeadline, this`kernelDeadlineTsc
      ensures Valid() && prevDeadline == old(nextDeadline) && nextDeadline == deadline && vmxTimerValue == loaded
      ensures kernelDeadlineTsc == SlotTicks(old(nextDeadline), deadline, tscFreq)
    {
      var timerDeadline := (deadline - nextDeadline) % U64;
      var timerDeadlineTsc := SlotTicks(nextDeadline, deadline, tscFreq);
      SumWraps(nextDeadline, deadline);
      prevDeadline, nextDeadline := nextDeadline, deadline;
      vmxTimerValue := RegisterDeadline(timerDeadline, timerDeadlineTsc, loaded);
    }

    /** The end of `deadline_handler`: the length of the slot that begins. */
    method SlotLength() returns (length: nat)
      requires Valid()
      ensures length == (nextDeadline - prevDeadline) % U64
      ensures (prevDeadline + length) % U64 == kernelDeadline
    {
      length := WrapSub(nextDeadline % U64, prevDeadline % U64);
      WordDifference(nextDeadline, prevDeadline);
      SumWraps(prevDeadline, nextDeadline);
      SumOfWords(prevDeadline, length);
    }
  }

  /** The length of a slot in ticks. */
  function SlotTicks(from: nat, to: nat, freq: real): nat
    requires from <= to && freq >= 0.0
  {
    ToWord(((to - from) % U64) as real * freq)
  }

  /** The kernel counts the slot in ticks to less than one tick, and back in time to less than one tick's length. */
  lemma SlotTicksAreExact(from: nat, to: nat, freq: real)
    requires from <= to && to - from < U64 && freq > 0.0 && (to - from) as real * freq < U64 as real
    ensures SlotTicks(from, to, freq) as real <= (to - from) as real * freq < SlotTicks(from, to, freq) as real + 1.0
    ensures SlotTicks(from, to, freq) as real / freq <= (to - from) as real < (SlotTicks(from, to, freq) as real + 1.0) / freq
  {
    var slot := to - from;
    assert slot % U64 == slot;
    var x := slot as real * freq;
    assert SlotTicks(from, to, freq) == ToWord(x);
    TicksAreExact(slot as real, freq, x);
  }

  /** A slot longer than 2^64 ns is counted modulo 2^64 ns, and one of more than 2^64 ticks as 2^64 - 1. */
  lemma SlotTicksWrap(from: nat, to: nat, freq: real)
    requires from <= to && freq > 0.0
    ensures SlotTicks(from, to, freq) == SlotTicks(0, (to - from) % U64, freq)
    ensures ((to - from) % U64) as real * freq >= U64 as real ==> SlotTicks(from, to, freq) == U64 - 1
  {
    assert (to - from) % U64 % U64 == (to - from) % U64;
  }

  lemma TicksAreExact(n: real, freq: real, x: real)
    requires freq > 0.0 && x == n * freq && 0.0 <= x < U64 as real
    ensures ToWord(x) as real <= x < ToWord(x) as real + 1.0
    ensures ToWord(x) as real / freq <= n < (ToWord(x) as real + 1.0) / freq
  {
    DivideOrder(ToWord(x) as real, n, freq);
    DivideOrder(ToWord(x) as real + 1.0, n, freq);
  }

  lemma DivideOrder(k: real, n: real, freq: real)
    requires freq > 0.0
    ensures k <= n * freq <==> k / freq <= n
  {
    assert k == k / freq * freq;
    if k <= n * freq { MulOrder(k / freq, n, freq); }
  }

  lemma MulOrder(a: real, b: real, f: real)
    requires f > 0.0 && a * f <= b * f
    ensures a <= b
  {
    assert (b - a) * f >= 0.0;
  }

  lemma SumOfWords(a: nat, b: nat)
    ensures (a % U64 + b) % U64 == (a + b) % U64
  {
    assert a == a / U64 * U64 + a % U64;
    Congruent(a % U64 + b, a / U64);
  }

  lemma WordDifference(a: nat, b: nat)
    ensures (a % U64 - b % U64) % U64 == (a - b) % U64
  {
    assert a == a / U64 * U64 + a % U64 && b == b / U64 * U64 + b % U64;
    Congruent(a % U64 - b % U64, a / U64 - b / U64);
  }

  lemma SumWraps(next: nat, deadline: nat)
    requires next <= deadline
    ensures (next % U64 + (deadline - next) % U64) % U64 == deadline % U64
  {
    var d := deadline - next;
    assert next == next / U64 * U64 + next % U64 && d == d / U64 * U64 + d % U64;
    Congruent(next % U64 + d % U64, next / U64 + d / U64);
  }

  /** What the kernel holds after a sequence of registrations. */
  function Accumulated(deadlines: seq<nat>): nat {
    if |deadlines| == 0 then 0
    else
      var n := |deadlines| - 1;
      (Accumulated(deadlines[..n]) + (deadlines[n] - if n == 0 then 0 else deadlines[n - 1]) % U64) % U64
  }

  /** The differences telescope: over every run the kernel's deadline is the client's last one. */
  lemma {:induction false} DifferencesTelescope(deadlines: seq<nat>)
    requires forall i, j :: 0 <= i <= j < |deadlines| ==> deadlines[i] <= deadlines[j]
    ensures Accumulated(deadlines) == if deadlines == [] then 0 else deadlines[|deadlines| - 1] % U64
  {
    if deadlines != [] {
      var n := |deadlines| - 1;
      DifferencesTelescope(deadlines[..n]);
      SumWraps(if n == 0 then 0 else deadlines[n - 1], deadlines[n]);
    }
  }
}
