/**
 The timer of a process client: the simulated clock is the monotonic clock plus an offset kept in a
 sequence lock; the deadline handler freezes it, and on thawing subtracts the pause from the offset.
 Times are in nanoseconds.  The application is single-threaded: the handler is a signal handler that
 runs to completion between any two steps of `simulation_now`.
 */
module ProcessTimer {
  import opened Basics
  import O = OutputSide

  const SECOND: int := 1_000_000_000

  /** A signed duration as its two machine words, the nanoseconds being in [0, 1 s). */
  datatype Words = Words(secs: int, nanos: int) {
    function Total(): int { secs * SECOND + nanos }
  }

  function ToWords(d: int): (w: Words)
    ensures w.Total() == d && 0 <= w.nanos < SECOND
  {
    Words(d / SECOND, d % SECOND)
  }

  /** The fields of `TimerContext` that carry simulated time; `count` is the lock's counter. */
  datatype Timer = Timer(count: nat, offset: Words, atDeadline: bool, prev: nat, next: nat, nextRaw: int, stopped: bool)

  const NEW_TIMER := Timer(0, Words(0, 0), true, 0, 0, 0, true)

  /** `freeze_time`: from now on simulated time stands still. */
  function Freeze(t: Timer): Timer {
    t.(atDeadline := true)
  }

  /** `thaw_time_to_deadline`, sampling the clock at `now`; a first call has no freeze time. */
  function Thaw(t: Timer, frozenAt: Option<int>, now: int, deadline: nat): Timer {
    var offset := if frozenAt.Some? then t.offset.Total() - (now - frozenAt.value) else -now;
    Timer(t.count + 2, ToWords(offset), false, t.next, deadline, now + (deadline - t.next), t.stopped)
  }

  /** The object of the source, with the samples of the monotonic clock as arguments. */
  class TimerContext {
    var seqCount: nat            // counter of the sequence lock around `simulation_time`
    var simulationTime: Words
    var atDeadline: bool
    var prevDeadline: nat
    var nextDeadline: nat
    var nextDeadlineRaw: int
    var stopped: bool

    function View(): Timer
      reads this
    {
      Timer(seqCount, simulationTime, atDeadline, prevDeadline, nextDeadline, nextDeadlineRaw, stopped)
    }

    constructor ()
      ensures View() == NEW_TIMER
    {
      seqCount, simulationTime, atDeadline := 0, Words(0, 0), true;
      prevDeadline, nextDeadline, nextDeadlineRaw, stopped := 0, 0, 0, true;
    }

    method FreezeTime(now: int) returns (freezeTime: int)
      modifies this`atDeadline
      ensures View() == Freeze(old(View())) && freezeTime == now && atDeadline
    {
      atDeadline := true;
      freezeTime := now;
    }

    /** `AdjustedTime::adjust`: one write of the sequence lock. */
    method Adjust(offset: int)
      modifies this`seqCount, this`simulationTime
      ensures View() == old(View()).(count := old(seqCount) + 2, offset := ToWords(offset))
      ensures simulationTime.Total() == offset
    {
      seqCount := seqCount + 1;
      simulationTime := ToWords(offset);
      seqCount := seqCount + 1;
    }

    /** The differences are unsigned in the source, so deadlines and samples must not go back. */
    method ThawTimeToDeadline(freezeTime: Option<int>, now: int, deadline: nat)
      requires nextDeadline <= deadline
      requires freezeTime.Some? ==> freezeTime.value <= now
      modifies this
      ensures View() == Thaw(old(View()), freezeTime, now, deadline)
      ensures prevDeadline == old(nextDeadline) && nextDeadline == deadline && nextDeadlineRaw - now == deadline - old(nextDeadline)
      ensures freezeTime.None? ==> now + simulationTime.Total() == 0
      ensures freezeTime.Some? ==> now + simulationTime.Total() == freezeTime.value + old(simulationTime.Total())
      ensures !atDeadline && stopped == old(stopped) && seqCount == old(seqCount) + 2
    {
      var nextDeadlineVal := nextDeadline;
      prevDeadline := nextDeadlineVal;
      nextDeadline := deadline;
      var slot: nat := deadline - nextDeadlineVal;
      nextDeadlineRaw := now + slot;
      if freezeTime.Some? {
        var elapsed: nat := now - freezeTime.value;
        Adjust(simulationTime.Total() - elapsed);
      } else {
        Adjust(-now);
      }
      atDeadline := false;
    }

    /** `armed` is the answer of `timer::settime`. */
    method Start(now: int, deadline: nat, armed: bool) returns (ok: bool)
      requires nextDeadline <= deadline
      modifies this
      ensures ok == armed && View() == Thaw(old(View()), None, now, deadline).(stopped := !armed)
      ensures now + simulationTime.Total() == 0 && nextDeadline == deadline && stopped == !armed
    {
      stopped := false;
      ThawTimeToDeadline(None, now, deadline);
      if !armed { stopped := true; }
      ok := armed;
    }

    /** `deadline_handler`: `after` is the next deadline, or None when the simulation ends. */
    method DeadlineHandler(freezeNow: int, thawNow: int, after: Option<nat>)
      requires after.Some? ==> nextDeadline <= after.value
      requires freezeNow <= thawNow
      modifies this
      ensures View() == if after.Some? then Thaw(Freeze(old(View())), Some(freezeNow), thawNow, after.value)
                        else Freeze(old(View())).(stopped := true)
      ensures after.Some? ==> nextDeadline == after.value && stopped == old(stopped)
      ensures after.Some? ==> thawNow + simulationTime.Total() == freezeNow + old(simulationTime.Total())
      ensures after.None? ==> atDeadline && stopped && nextDeadline == old(nextDeadline) && simulationTime == old(simulationTime)
    {
      var freezeTime := FreezeTime(freezeNow);
      if after.Some? {
        ThawTimeToDeadline(Some(freezeTime), thawNow, after.value);
      } else {
        stopped := true;
      }
    }
  }

  // ---------------------------------------------------------------- the clock under interruption

  /** Where the application stands in `simulation_now`. */
  datatype App =
    | Away
    | Counted(count: nat)                                  // loaded an even counter
    | HalfRead(count: nat, secsFirst: bool, word: int, mid: nat)  // copied one word when the counter was mid
    | Copied(count: nat, secsFirst: bool, offset: Words, torn: bool)  // copied both words
    | Sampled(count: nat, at: int, value: nat)             // `read_fn` took the clock at `at` and added the offset
    | Panicked                                             // the conversion to an unsigned duration failed

  /** `last` is the last value returned, `delays` the firing delays of the timer so far. */
  datatype State = State(now: int, timer: Timer, app: App, started: bool, last: nat, delays: seq<nat>)

  datatype Step =
    | Tick(d: nat)
    | StartTimer(deadline: nat)
    | LoadCount
    | ReadFirst(secsFirst: bool)   // the order of the two copies is not specified
    | ReadSecond
    | Sample
    | Check
    | Handle(entry: nat, pause: nat, tail: nat, deadline: nat)
    | Finish(entry: nat)

  ghost predicate Init(s: State) {
    s.timer == NEW_TIMER && s.app == Away && !s.started && s.last == 0 && s.delays == []
  }

  predicate Enabled(s: State, a: Step) {
    match a
    case Tick(_) => true
    case StartTimer(deadline) => !s.started && s.app.Away? && s.timer.next <= deadline
    case LoadCount => s.started && s.app.Away? && !s.timer.atDeadline
    case ReadFirst(_) => s.app.Counted?
    case ReadSecond => s.app.HalfRead?
    case Sample => s.app.Copied?
    case Check => s.app.Sampled?
    // the timer is armed and does not fire early; deadlines come in order
    case Handle(entry, _, _, deadline) =>
      s.started && !s.timer.atDeadline && s.now + entry >= s.timer.nextRaw && s.timer.next <= deadline
    case Finish(entry) => s.started && !s.timer.atDeadline && s.now + entry >= s.timer.nextRaw
  }

  function Do(s: State, a: Step): State
    requires Enabled(s, a)
  {
    match a
    case Tick(d) => s.(now := s.now + d)
    case StartTimer(deadline) =>
      s.(timer := Thaw(s.timer, None, s.now, deadline).(stopped := false), started := true)
    case LoadCount => s.(app := Counted(s.timer.count))
    case ReadFirst(secsFirst) =>
      var word := if secsFirst then s.timer.offset.secs else s.timer.offset.nanos;
      s.(app := HalfRead(s.app.count, secsFirst, word, s.timer.count))
    case ReadSecond =>
      var w := if s.app.secsFirst then Words(s.app.word, s.timer.offset.nanos) else Words(s.timer.offset.secs, s.app.word);
      s.(app := Copied(s.app.count, s.app.secsFirst, w, s.app.mid != s.timer.count))
    case Sample =>
      var value := s.now + s.app.offset.Total();
      s.(app := if value < 0 then Panicked else Sampled(s.app.count, s.now, value))
    case Check =>
      if s.app.count == s.timer.count then s.(app := Away, last := s.app.value)
      else s.(app := Counted(s.timer.count))
    case Handle(entry, pause, tail, deadline) =>
      var frozen := s.now + entry;
      s.(now := frozen + pause + tail,
         timer := Thaw(Freeze(s.timer), Some(frozen), frozen + pause, deadline),
         delays := s.delays + [frozen - s.timer.nextRaw])
    case Finish(entry) =>
      s.(now := s.now + entry, timer := Freeze(s.timer).(stopped := true),
         delays := s.delays + [s.now + entry - s.timer.nextRaw])
  }

  /** The simulated time at this instant. */
  function SimTime(s: State): int {
    s.now + s.timer.offset.Total()
  }

  function Sum(xs: seq<nat>): nat {
    if xs == [] then 0 else Sum(xs[..|xs| - 1]) + xs[|xs| - 1]
  }

  ghost predicate AppOk(s: State) {
    match s.app
    case Away => true
    case Panicked => true
    case Counted(count) => s.started && count <= s.timer.count
    case HalfRead(count, secsFirst, word, mid) =>
      && s.started && count <= mid <= s.timer.count
      && (if secsFirst then word >= s.timer.offset.secs else 0 <= word < SECOND)
      && (mid == s.timer.count ==> word == if secsFirst then s.timer.offset.secs else s.timer.offset.nanos)
    case Copied(count, secsFirst, offset, torn) =>
      && s.started && count <= s.timer.count
      && (!torn || secsFirst ==> offset.Total() >= s.timer.offset.Total())
      && offset.secs >= s.timer.offset.secs && 0 <= offset.nanos < SECOND
      && (count == s.timer.count ==> offset == s.timer.offset)
    case Sampled(count, at, value) =>
      && s.started && count <= s.timer.count
      && (count == s.timer.count ==> s.last <= value <= SimTime(s) && SlotStart(s.timer) <= at && value == at + s.timer.offset.Total())
  }

  /** When the clock was thawed for the slot of this timer. */
  function SlotStart(t: Timer): int { t.nextRaw - (t.next - t.prev) }

  ghost predicate Good(s: State) {
    && AppOk(s)
    && (s.started ==> s.last <= SimTime(s) && SlotStart(s.timer) <= s.now)
    && (s.started && !s.timer.atDeadline ==> s.timer.nextRaw + s.timer.offset.Total() == s.timer.next + Sum(s.delays))
    && s.timer.prev <= s.timer.next && 0 <= s.timer.offset.nanos < SECOND
    && (!s.started ==> s.timer == NEW_TIMER && s.app.Away? && s.last == 0 && s.delays == [])
  }

  lemma AppStepGood(s: State, a: Step)
    requires Good(s) && Enabled(s, a) && !a.Handle? && !a.Finish?
    ensures Good(Do(s, a))
  {}

  lemma HandlerStepGood(s: State, a: Step)
    requires Good(s) && Enabled(s, a) && (a.Handle? || a.Finish?)
    ensures Good(Do(s, a))
  {
    assert Do(s, a).delays[..|s.delays|] == s.delays;
  }

  lemma StepGood(s: State, a: Step)
    requires Good(s) && Enabled(s, a)
    ensures Good(Do(s, a))
  {
    if a.Handle? || a.Finish? { HandlerStepGood(s, a); } else { AppStepGood(s, a); }
  }

  // ---------------------------------------------------------------- main results

  ghost predicate IsRun(run: seq<State>, acts: seq<Step>) {
    && |run| == |acts| + 1
    && Init(run[0])
    && forall i :: 0 <= i < |acts| ==> Enabled(run[i], acts[i]) && run[i + 1] == Do(run[i], acts[i])
  }

  lemma {:induction false} RunGood(run: seq<State>, acts: seq<Step>, i: nat)
    requires IsRun(run, acts) && i < |run|
    ensures Good(run[i])
  {
    if i > 0 {
      RunGood(run, acts, i - 1);
      StepGood(run[i - 1], acts[i - 1]);
    }
  }

  /** `simulation_now` returns at this step. */
  predicate Returns(s: State, a: Step) {
    a.Check? && s.app.Sampled? && s.app.count == s.timer.count
  }

  /** Over any run, with the handler at any point, the values returned never decrease. */
  lemma {:induction false} TimeNeverGoesBack(run: seq<State>, acts: seq<Step>, i: nat, j: nat)
    requires IsRun(run, acts) && i <= j < |run|
    ensures 0 <= run[i].last <= run[j].last
  {
    if i < j {
      TimeNeverGoesBack(run, acts, i, j - 1);
      RunGood(run, acts, j - 1);
    }
  }

  /**
   A returned value is a clock sample plus the offset in force when it was sampled: between the load of
   the counter at step i and the return at step j no handler ran, and the value lies in the simulated
   time that elapsed in between.
   */
  lemma {:induction false} SamplePairsWithOffset(run: seq<State>, acts: seq<Step>, i: nat, j: nat)
    requires IsRun(run, acts) && i < j < |acts|
    requires run[i + 1].app == Counted(run[i].timer.count) && (acts[i].LoadCount? || acts[i].Check?)
    requires forall k :: i < k < j ==> !acts[k].LoadCount? && !acts[k].Check?
    requires Returns(run[j], acts[j])
    ensures run[i + 1].timer.offset == run[j].timer.offset
    ensures SimTime(run[i + 1]) <= run[j].app.value <= SimTime(run[j])
  {
    SinceCounted(run, acts, i, j);
  }

  /** As long as the counter is the one loaded at step i, everything read since then is consistent. */
  lemma {:induction false} SinceCounted(run: seq<State>, acts: seq<Step>, i: nat, j: nat)
    requires IsRun(run, acts) && i < j < |run|
    requires run[i + 1].app == Counted(run[i].timer.count) && (acts[i].LoadCount? || acts[i].Check?)
    requires forall k :: i < k < j ==> !acts[k].LoadCount? && !acts[k].Check?
    ensures Consistent(run[i + 1], run[j])
  {
    if j > i + 1 {
      SinceCounted(run, acts, i, j - 1);
      RunGood(run, acts, j - 1);
      StaysConsistent(run[i + 1], run[j - 1], acts[j - 1]);
    }
  }

  /** s comes after s0, in which the application had just loaded the counter. */
  predicate Consistent(s0: State, s: State) {
    && s0.timer.count <= s.timer.count && s0.now <= s.now
    && (s.app.Panicked? || (!s.app.Away? && s.app.count == s0.timer.count))
    && (s.timer.count == s0.timer.count ==> s.timer.offset == s0.timer.offset)
    && (s.timer.count == s0.timer.count && s.app.Sampled? ==> SimTime(s0) <= s.app.value <= SimTime(s))
  }

  lemma StaysConsistent(s0: State, s: State, a: Step)
    requires Consistent(s0, s) && Good(s) && Enabled(s, a) && !a.LoadCount? && !a.Check? && !a.StartTimer?
    ensures Consistent(s0, Do(s, a))
  {}

  /** The k-th freeze happens at simulated time D_k plus all firing delays so far, so never before D_k. */
  lemma DriftLaw(run: seq<State>, acts: seq<Step>, i: nat)
    requires IsRun(run, acts) && i < |acts| && (acts[i].Handle? || acts[i].Finish?)
    ensures var frozen := run[i].now + acts[i].entry;
      frozen + run[i].timer.offset.Total() == run[i].timer.next + Sum(run[i + 1].delays) >= run[i].timer.next
  {
    RunGood(run, acts, i);
    assert run[i + 1].delays[..|run[i].delays|] == run[i].delays;
  }

  /**
   A time returned outside the handler is not before the slot plus all firing delays so far, and it is
   beyond the slot's deadline exactly when the clock was sampled in the last of the slot's real time that
   the delays add up to: in all of it once they exceed its length.
   */
  lemma StampLaw(run: seq<State>, acts: seq<Step>, i: nat)
    requires IsRun(run, acts) && i < |acts| && Returns(run[i], acts[i]) && !run[i].timer.atDeadline
    ensures var t, drift := run[i].timer, Sum(run[i].delays);
      && run[i].app.value == run[i].app.at + t.offset.Total() >= t.prev + drift
      && (run[i].app.value > t.next <==> run[i].app.at > t.nextRaw - drift)
      && (drift > t.next - t.prev ==> run[i].app.value > t.next)
  {
    RunGood(run, acts, i);
  }

  /** The packet carries the time that `simulation_now` returned at step i. */
  predicate Stamped(run: seq<State>, acts: seq<Step>, i: nat, m: OutputMsg) {
    i < |run| && i < |acts| && Returns(run[i], acts[i]) && !run[i].timer.atDeadline && m.sendTime == run[i].app.value
  }

  /**
   The clock sample behind the time returned at step i came later than the instant of this deadline minus
   all firing delays; in the slot of that deadline, within the last sum of the delays.
   */
  predicate Drifted(run: seq<State>, i: nat, deadline: nat) {
    && i < |run| && run[i].app.Sampled?
    && run[i].app.at > run[i].timer.nextRaw + (deadline - run[i].timer.next) - Sum(run[i].delays)
  }

  /** In the slot of this deadline, the firing delays exceed the length of the slot. */
  predicate Outrun(run: seq<State>, i: nat, deadline: nat) {
    i < |run| && run[i].timer.next == deadline && Sum(run[i].delays) > deadline - run[i].timer.prev
  }

  lemma DriftedIsLate(run: seq<State>, acts: seq<Step>, i: nat, m: OutputMsg, deadline: nat)
    requires IsRun(run, acts) && Stamped(run, acts, i, m)
    ensures m.sendTime > deadline <==> Drifted(run, i, deadline)
    ensures Outrun(run, i, deadline) ==> Drifted(run, i, deadline)
  {
    StampLaw(run, acts, i);
    RunGood(run, acts, i);
  }

  /**
   A process client gives up at a deadline exactly when one of the packets drained was stamped later than
   the deadline minus the firing delays, in the same slot or an earlier one; so with any packet of the slot
   once the delays exceed its length.  `at[k]` is the step that stamped the k-th packet.
   */
  lemma ProcessGivesUpIff(run: seq<State>, acts: seq<Step>, o: O.Out, at: seq<nat>)
    requires IsRun(run, acts) && o.prev <= o.next && |at| == |o.outgoing|
    requires forall k :: 0 <= k < |at| ==> Stamped(run, acts, at[k], o.outgoing[k])
    ensures O.Aborts(o) <==> exists k :: 0 <= k < |at| && Drifted(run, at[k], o.next)
    ensures forall k :: 0 <= k < |at| && Outrun(run, at[k], o.next) ==> O.Aborts(o)
  {
    forall k | 0 <= k < |at|
      ensures o.outgoing[k].sendTime > o.next <==> Drifted(run, at[k], o.next)
      ensures Outrun(run, at[k], o.next) ==> Drifted(run, at[k], o.next)
    {
      DriftedIsLate(run, acts, at[k], o.outgoing[k], o.next);
    }
    O.AbortsIffOverrun(o);
  }

  /** Whatever the pause, simulated time resumes at the thaw with its value at the freeze, for a slot up to the next deadline. */
  lemma ResumesWhereFrozen(run: seq<State>, acts: seq<Step>, i: nat)
    requires IsRun(run, acts) && i < |acts| && acts[i].Handle?
    ensures var frozen := run[i].now + acts[i].entry;
      && frozen + run[i].timer.offset.Total() == frozen + acts[i].pause + run[i + 1].timer.offset.Total()
      && run[i + 1].timer.prev == run[i].timer.next && run[i + 1].timer.next == acts[i].deadline
      && run[i + 1].timer.nextRaw - (frozen + acts[i].pause) == acts[i].deadline - run[i].timer.next
  {}

  /** The conversion panics only when the handler ran between the copies of nanoseconds and seconds. */
  lemma PanicNeedsTornOffset(run: seq<State>, acts: seq<Step>, i: nat)
    requires IsRun(run, acts) && i < |acts| && !run[i].app.Panicked? && run[i + 1].app.Panicked?
    ensures run[i].app.Copied? && run[i].app.torn && !run[i].app.secsFirst
  {
    RunGood(run, acts, i);
  }

  /**
   Exactly when it panics: the offset copied lags behind the one in force by more than the simulated
   time.  The lag is below one second, so there is no panic from simulated time 1 s - 1 ns on.
   */
  lemma PanicsIff(run: seq<State>, acts: seq<Step>, i: nat)
    requires IsRun(run, acts) && i < |acts| && acts[i].Sample?
    ensures run[i].app.Copied?
    ensures run[i + 1].app.Panicked? <==> run[i].timer.offset.Total() - run[i].app.offset.Total() > SimTime(run[i])
    ensures run[i + 1].app.Panicked? ==> 0 <= SimTime(run[i]) < SECOND - 1
  {
    RunGood(run, acts, i);
  }

  /**
   The bound is sharp: at every earlier simulated time t some run panics.  The offset is a whole number
   of seconds when its nanoseconds are copied, and a pause of 1 ns follows before its seconds are.
   */
  lemma PanicsAtEveryEarlyTime(t: nat) returns (run: seq<State>, acts: seq<Step>)
    requires t < SECOND - 1
    ensures IsRun(run, acts) && acts != [] && acts[|acts| - 1] == Sample
    ensures SimTime(run[|acts| - 1]) == t && run[|acts|].app.Panicked?
  {
    run, acts := NanosCopied(t);
    run, acts := Extend(run, acts, Handle(t, 1, 0, t));
    run, acts := Extend(run, acts, ReadSecond);
    run, acts := Extend(run, acts, Sample);
  }

  /** The nanoseconds of an offset of -10 s were copied. */
  lemma NanosCopied(t: nat) returns (run: seq<State>, acts: seq<Step>)
    ensures IsRun(run, acts)
    ensures run[|acts|] == State(10 * SECOND, Timer(2, Words(-10, 0), false, 0, t, 10 * SECOND + t, false), HalfRead(2, false, 0, 2), true, 0, [])
  {
    run, acts := [State(10 * SECOND, NEW_TIMER, Away, false, 0, [])], [];
    run, acts := Extend(run, acts, StartTimer(t));
    run, acts := Extend(run, acts, LoadCount);
    run, acts := Extend(run, acts, ReadFirst(false));
  }

  lemma Extend(run: seq<State>, acts: seq<Step>, a: Step) returns (run': seq<State>, acts': seq<Step>)
    requires IsRun(run, acts) && Enabled(run[|acts|], a)
    ensures IsRun(run', acts') && |acts'| == |acts| + 1 && run'[|acts'|] == Do(run[|acts|], a)
    ensures acts'[|acts|] == a && run'[|acts|] == run[|acts|]
  {
    run', acts' := run + [Do(run[|acts|], a)], acts + [a];
  }
}
