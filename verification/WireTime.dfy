/**
 Simulated time as the coordinator keeps it (seconds, a real or infinity), as it travels (seconds and
 nanoseconds) and as a client keeps it (nanoseconds).  Doubles are modelled as exact reals.
 */
module WireTime {
  import opened Basics

  /** A date of the simulator: finite, or the infinity that no event will reach. */
  datatype Instant = At(t: real) | Never

  datatype Wire = Wire(seconds: nat, nseconds: nat)

  datatype DecodeError = TimeOutOfBounds

  const U64: nat := 0x1_0000_0000_0000_0000
  const U32: nat := 0x1_0000_0000
  const GIGA: nat := 1_000_000_000
  const NS: real := 0.000_000_001

  predicate Le(a: Instant, b: Instant) { b.Never? || (a.At? && a.t <= b.t) }

  predicate Lt(a: Instant, b: Instant) { !Le(b, a) }

  function Min(a: Instant, b: Instant): Instant { if Le(a, b) then a else b }

  function Plus(t: real, d: Instant): Instant { if d.Never? then Never else At(t + d.t) }

  /** `simgridToVmTime`; the bound 2^64 - 1 is compared as a double, which is 2^64. */
  function SimgridToVmTime(i: Instant): Wire
    requires i.At? ==> i.t >= 0.0
  {
    if i.Never? || i.t > U64 as real then
      Wire(U64 - 1, U64 - 1)
    else
      Wire(i.t.Floor, ((i.t - i.t.Floor as real) * GIGA as real).Floor)
  }

  /** `vmToSimgridTime`. */
  function VmToSimgridTime(w: Wire): real {
    w.seconds as real + w.nseconds as real * NS
  }

  /** The date of a GotoDeadline as `MsgIn::recv` validates it, in nanoseconds. */
  function Decode(w: Wire): Result<nat, DecodeError> {
    if w.seconds < U64 && w.nseconds < U32 && w.nseconds < GIGA then Ok(w.seconds * GIGA + w.nseconds)
    else Err(TimeOutOfBounds)
  }

  /** `Duration::as_secs` and `subsec_nanos`, as a client writes its timestamps. */
  function FromNanos(ns: nat): Wire {
    Wire(ns / GIGA, ns % GIGA)
  }

  function FloorNs(t: real): int {
    (t * GIGA as real).Floor
  }

  /** A client deadline seen by the coordinator. */
  function Seconds(ns: nat): real {
    ns as real * NS
  }

  /** For every pair: it is accepted exactly when it is a number of seconds and less than a second more, and denotes their sum. */
  lemma DecodeDenotes(w: Wire)
    ensures Decode(w).Ok? <==> w.seconds < U64 && w.nseconds < GIGA
    ensures Decode(w).Ok? ==> Seconds(Decode(w).value) == w.seconds as real + w.nseconds as real / 1_000_000_000.0
  {}

  /** Every deadline below 2^64 s is accepted and denotes its floor in nanoseconds. */
  lemma EncodingIsFloor(t: real)
    requires 0.0 <= t < U64 as real
    ensures Decode(SimgridToVmTime(At(t))) == Ok(FloorNs(t))
  {
    var s := t.Floor;
    var frac := (t - s as real) * GIGA as real;
    assert t * GIGA as real == (s * GIGA) as real + frac;
  }

  /** A deadline is accepted exactly when it is finite and below 2^64 s; infinity never is. */
  lemma AcceptedIffFinite(i: Instant)
    requires i.At? ==> i.t >= 0.0
    ensures Decode(SimgridToVmTime(i)).Ok? <==> i.At? && i.t < U64 as real
  {
    if i.At? && i.t < U64 as real { EncodingIsFloor(i.t); }
  }

  lemma FloorMonotone(t: real, u: real)
    requires t <= u
    ensures FloorNs(t) <= FloorNs(u)
  {}

  /** Deadlines in order on the coordinator's side stay in order on the wire. */
  lemma EncodingMonotone(t: real, u: real)
    requires 0.0 <= t <= u < U64 as real
    ensures Decode(SimgridToVmTime(At(t))).value <= Decode(SimgridToVmTime(At(u))).value
  {
    EncodingIsFloor(t);
    EncodingIsFloor(u);
  }

  /** Decoding a valid pair to a date and encoding it again gives the pair back. */
  lemma DecodeThenEncode(w: Wire)
    requires w.seconds < U64 && w.nseconds < GIGA
    ensures SimgridToVmTime(At(VmToSimgridTime(w))) == w
  {
    var t := VmToSimgridTime(w);
    assert t.Floor == w.seconds;
    assert (t - w.seconds as real) * GIGA as real == w.nseconds as real;
  }

  /** A timestamp in nanoseconds reaches the coordinator unchanged. */
  lemma TimestampIsExact(ns: nat)
    ensures VmToSimgridTime(FromNanos(ns)) == Seconds(ns)
  {
    assert ns as real == (ns / GIGA * GIGA) as real + (ns % GIGA) as real;
  }

  /** Rounding loses less than a nanosecond. */
  lemma FloorWithinOneNs(t: real)
    requires t >= 0.0
    ensures FloorNs(t) >= 0
    ensures Seconds(FloorNs(t)) <= t < Seconds(FloorNs(t)) + NS
  {}
}
