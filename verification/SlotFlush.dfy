/**
 The deadline handler's pass over the slots and its pops from the queue, among any steps of the senders,
 against the flush of OutputSide, which is one step over two sequences.
 */
module SlotFlush {
  import opened Basics
  import opened SlotMachine
  import opened SlotTheorems
  import O = OutputSide

  function Msgs(items: seq<Item>): seq<OutputMsg> {
    seq(|items|, i requires 0 <= i < |items| => items[i].msg)
  }

  function PassMsgs(pass: map<nat, Item>, k: nat): seq<OutputMsg> { Msgs(PassItems(pass, k)) }

  /** What the handler writes when it is done with a message: a packet of a slot is brought into the slot of time. */
  function Written(s: State, a: Step, prev: nat): seq<O.MsgOut> {
    if a.Sent? && s.drainer.Sending? && !a.abort then [O.SendPacket(O.Clamp(s.drainer.item.msg, prev))]
    else if a.PopSent? && s.drainer.Popped? then [O.SendPacket(s.drainer.item.msg)]
    else []
  }

  function Wrote(run: seq<State>, acts: seq<Step>, j: nat, i: nat, prev: nat): seq<O.MsgOut>
    requires j <= i <= |acts| && |run| == |acts| + 1
    decreases i
  {
    if i == j then [] else Wrote(run, acts, j, i - 1, prev) + Written(run[i - 1], acts[i - 1], prev)
  }

  predicate InPass(d: Drainer) { !d.Resting? && !d.Popped? }

  /** `at_deadline` gives up on a packet beyond the deadline. */
  predicate Judges(s: State, a: Step, prev: nat, next: nat) {
    a.Sent? && s.drainer.Sending? ==> (a.abort <==> O.Late(s.drainer.item.msg, prev, next))
  }

  /** A pass begins at step j and is over, completed or given up, in state e. */
  ghost predicate Drains(run: seq<State>, acts: seq<Step>, j: nat, e: nat, prev: nat, next: nat) {
    && |run| == |acts| + 1 && j < e < |run| && acts[j].BeginPass? && run[e].drainer.Resting?
    && (forall k :: j < k < e ==> InPass(run[k].drainer))
    && (forall k {:trigger acts[k]} :: j < k < e ==> Judges(run[k], acts[k], prev, next))
  }

  /** With the queue locked, the handler pops from state l to state i what is due and nothing else. */
  ghost predicate Pops(run: seq<State>, acts: seq<Step>, l: nat, i: nat, next: nat) {
    && |run| == |acts| + 1 && l <= i < |run| && run[l].drainer.Resting? && run[i].drainer.Resting?
    && (forall k :: l <= k < i ==> !acts[k].PushQueue? && !acts[k].BeginPass?)
    && (forall k {:trigger acts[k]} :: l <= k < i && acts[k].Pop? && run[k].queue != [] ==> run[k].queue[0].msg.sendTime <= next)
    && (run[i].queue == [] || run[i].queue[0].msg.sendTime > next)
  }

  ghost predicate Stepped(run: seq<State>, acts: seq<Step>, i: nat) {
    |run| == |acts| + 1 && i < |acts| && Enabled(run[i], acts[i]) && run[i + 1] == Do(run[i], acts[i])
  }

  /** The steps of a run; to be used one at a time. */
  ghost predicate Runs(run: seq<State>, acts: seq<Step>) {
    |run| == |acts| + 1 && forall i: nat {:trigger Stepped(run, acts, i)} :: i < |acts| ==> Stepped(run, acts, i)
  }

  lemma IsRunOf(run: seq<State>, acts: seq<Step>, n: nat, e: nat)
    requires IsRun(run, acts, n) && 0 < e < |run|
    ensures Runs(run, acts) && |run[e].slots| == n == |run[e - 1].slots|
  {
    RunGood(run, acts, n, e - 1);
    RunGood(run, acts, n, e);
  }

  // ---------------------------------------------------------------- the pass

  ghost predicate NoneLate(ms: seq<OutputMsg>, prev: nat, next: nat) {
    forall i :: 0 <= i < |ms| ==> !O.Late(ms[i], prev, next)
  }

  lemma {:induction false} ClampedMore(ms: seq<OutputMsg>, m: OutputMsg, prev: nat, next: nat)
    requires NoneLate(ms, prev, next)
    ensures O.Clamped(ms + [m], prev, next) ==
            O.Clamped(ms, prev, next) + if O.Late(m, prev, next) then [] else [O.SendPacket(O.Clamp(m, prev))]
  {
    if ms == [] {
      assert [] + [m] == [m] && [m][1..] == [];
    } else {
      assert (ms + [m])[1..] == ms[1..] + [m];
      ClampedMore(ms[1..], m, prev, next);
    }
  }

  /** During the pass, at slot k: the handler wrote the packets of the slots before, brought into the slot of time. */
  ghost predicate PassOk(s: State, w: seq<O.MsgOut>, k: nat, prev: nat, next: nat) {
    && InPass(s.drainer) && s.drainer.k == k && (forall i :: i in s.pass ==> i < k)
    && NoneLate(PassMsgs(s.pass, k), prev, next) && w == O.Clamped(PassMsgs(s.pass, k), prev, next)
  }

  /** In the pass, at some slot. */
  ghost predicate Passing(s: State, w: seq<O.MsgOut>, prev: nat, next: nat) { exists k: nat :: PassOk(s, w, k, prev, next) }

  /** The pass is over, given up if `aborted`. */
  ghost predicate PassDone(s: State, w: seq<O.MsgOut>, n: nat, aborted: bool, prev: nat, next: nat) {
    && w == O.Clamped(PassMsgs(s.pass, n), prev, next)
    && (NoneLate(PassMsgs(s.pass, n), prev, next) <==> !aborted)
  }

  lemma SentWrites(pass: map<nat, Item>, k: nat, item: Item, prev: nat, next: nat)
    requires (forall i :: i in pass ==> i < k) && NoneLate(PassMsgs(pass, k), prev, next)
    ensures var ms := PassMsgs(pass[k := item], k + 1);
      && ms == PassMsgs(pass, k) + [item.msg] && (NoneLate(ms, prev, next) <==> !O.Late(item.msg, prev, next))
      && O.Clamped(ms, prev, next) == O.Clamped(PassMsgs(pass, k), prev, next)
           + if O.Late(item.msg, prev, next) then [] else [O.SendPacket(O.Clamp(item.msg, prev))]
  {
    PassItemsMore(pass, k, item);
    ClampedMore(PassMsgs(pass, k), item.msg, prev, next);
    var ms := PassMsgs(pass[k := item], k + 1);
    assert ms[|ms| - 1] == item.msg && ms[..|ms| - 1] == PassMsgs(pass, k);
    forall i | 0 <= i < |ms| - 1 ensures !O.Late(ms[i], prev, next) { assert ms[i] == PassMsgs(pass, k)[i]; }
  }

  lemma SentStep(s: State, a: Step, w: seq<O.MsgOut>, k: nat, prev: nat, next: nat)
    requires Enabled(s, a) && a.Sent? && PassOk(s, w, k, prev, next) && Judges(s, a, prev, next)
    ensures var s', w' := Do(s, a), w + Written(s, a, prev);
      if a.abort then PassDone(s', w', |s.slots|, true, prev, next) else PassOk(s', w', k + 1, prev, next)
  {
    SentWrites(s.pass, k, s.drainer.item, prev, next);
    PassItemsUpto(s.pass[k := s.drainer.item], k + 1, |s.slots|);
  }

  lemma SenderStep(s: State, a: Step)
    requires Enabled(s, a) && !ByDrainerStep(a)
    ensures Do(s, a).drainer == s.drainer && Do(s, a).pass == s.pass
  {}

  /** A step of the handler that is not the end of a message. */
  lemma LookStep(s: State, a: Step, w: seq<O.MsgOut>, k: nat, prev: nat, next: nat)
    requires Enabled(s, a) && ByDrainerStep(a) && !a.Sent? && PassOk(s, w, k, prev, next)
    ensures var s' := Do(s, a);
      if InPass(s'.drainer) then PassOk(s', w, s'.drainer.k, prev, next)
      else s.drainer == Looking(|s.slots|) && s'.pass == s.pass && PassDone(s', w, |s.slots|, false, prev, next)
  {
    PassItemsUpto(s.pass, k, k + 1);
  }

  lemma QuietStep(s: State, a: Step, w: seq<O.MsgOut>, k: nat, prev: nat, next: nat)
    requires Enabled(s, a) && !a.Sent? && PassOk(s, w, k, prev, next)
    ensures var s', w' := Do(s, a), w + Written(s, a, prev);
      if InPass(s'.drainer) then PassOk(s', w', s'.drainer.k, prev, next)
      else s.drainer == Looking(|s.slots|) && s'.pass == s.pass && PassDone(s', w', |s.slots|, false, prev, next)
  {
    assert w + Written(s, a, prev) == w;
    if ByDrainerStep(a) { LookStep(s, a, w, k, prev, next); } else { SenderStep(s, a); }
  }

  lemma PassStep(s: State, a: Step, w: seq<O.MsgOut>, prev: nat, next: nat)
    requires Enabled(s, a) && Passing(s, w, prev, next) && Judges(s, a, prev, next)
    ensures var s', w' := Do(s, a), w + Written(s, a, prev);
      if InPass(s'.drainer) then Passing(s', w', prev, next) else PassDone(s', w', |s.slots|, a.Sent?, prev, next)
    ensures !InPass(Do(s, a).drainer) && !a.Sent? ==> s.drainer == Looking(|s.slots|) && Do(s, a).pass == s.pass
  {
    var k: nat :| PassOk(s, w, k, prev, next);
    if a.Sent? { SentStep(s, a, w, k, prev, next); } else { QuietStep(s, a, w, k, prev, next); }
  }

  /** In the pass that began at step j, before step k. */
  ghost predicate PassedTo(run: seq<State>, acts: seq<Step>, j: nat, k: nat, prev: nat, next: nat)
    requires j <= k <= |acts| && |run| == |acts| + 1
  {
    exists w :: w == Wrote(run, acts, j, k, prev) && Passing(run[k], w, prev, next)
  }

  lemma PassStarts(run: seq<State>, acts: seq<Step>, j: nat, prev: nat, next: nat)
    requires Runs(run, acts) && j < |acts| && acts[j].BeginPass?
    ensures PassedTo(run, acts, j, j + 1, prev, next) && InPass(run[j + 1].drainer)
  {
    assert Stepped(run, acts, j);
    assert Wrote(run, acts, j, j + 1, prev) == Wrote(run, acts, j, j, prev) + [];
    assert PassOk(run[j + 1], [], 0, prev, next);
    assert Passing(run[j + 1], Wrote(run, acts, j, j + 1, prev), prev, next);
  }

  lemma PassOn(run: seq<State>, acts: seq<Step>, j: nat, k: nat, prev: nat, next: nat)
    requires Runs(run, acts) && j < k < |acts| && Judges(run[k], acts[k], prev, next)
    requires PassedTo(run, acts, j, k, prev, next) && InPass(run[k + 1].drainer)
    ensures PassedTo(run, acts, j, k + 1, prev, next)
  {
    assert Stepped(run, acts, k);
    PassStep(run[k], acts[k], Wrote(run, acts, j, k, prev), prev, next);
    assert Passing(run[k + 1], Wrote(run, acts, j, k + 1, prev), prev, next);
  }

  lemma PassGoesOn(run: seq<State>, acts: seq<Step>, j: nat, i: nat, prev: nat, next: nat)
    requires Runs(run, acts) && j < i < |acts| && PassedTo(run, acts, j, j + 1, prev, next)
    requires forall k :: j < k <= i ==> InPass(run[k].drainer)
    requires forall k {:trigger acts[k]} :: j < k < i ==> Judges(run[k], acts[k], prev, next)
    ensures PassedTo(run, acts, j, i, prev, next)
  {
    for k := j + 1 to i
      invariant PassedTo(run, acts, j, k, prev, next)
    {
      PassOn(run, acts, j, k, prev, next);
    }
  }

  lemma PassTakesTime(run: seq<State>, acts: seq<Step>, j: nat, e: nat, prev: nat, next: nat)
    requires Runs(run, acts) && Drains(run, acts, j, e, prev, next)
    ensures j < e - 1 && PassedTo(run, acts, j, j + 1, prev, next)
  {
    PassStarts(run, acts, j, prev, next);
  }

  /** The handler's state and output before the last step of a pass. */
  lemma PassUpto(run: seq<State>, acts: seq<Step>, j: nat, e: nat, prev: nat, next: nat)
    requires Runs(run, acts) && Drains(run, acts, j, e, prev, next)
    ensures j < e - 1 && PassedTo(run, acts, j, e - 1, prev, next)
  {
    PassTakesTime(run, acts, j, e, prev, next);
    PassGoesOn(run, acts, j, e - 1, prev, next);
  }

  /** A whole pass writes what the flush writes of the packets it took out, and gives up when the flush does. */
  lemma PassWrites(run: seq<State>, acts: seq<Step>, j: nat, e: nat, prev: nat, next: nat)
    requires Runs(run, acts) && Drains(run, acts, j, e, prev, next)
    ensures PassDone(run[e], Wrote(run, acts, j, e, prev), |run[e - 1].slots|, acts[e - 1].Sent?, prev, next)
    ensures !acts[e - 1].Sent? ==> j < e - 1 && run[e - 1].drainer == Looking(|run[e - 1].slots|) && run[e].pass == run[e - 1].pass
  {
    PassUpto(run, acts, j, e, prev, next);
    assert Stepped(run, acts, e - 1);
    PassStep(run[e - 1], acts[e - 1], Wrote(run, acts, j, e - 1, prev), prev, next);
  }

  // ---------------------------------------------------------------- the queue

  lemma {:induction false} DueIs(ms: seq<OutputMsg>, next: nat, c: nat)
    requires c <= |ms| && (forall x :: 0 <= x < c ==> ms[x].sendTime <= next) && (c == |ms| || ms[c].sendTime > next)
    ensures O.Due(ms, next) == c
  {
    if c > 0 { DueIs(ms[1..], next, c - 1); }
  }

  /** c items of the queue q0 were popped, all due; the last of them may not be written yet. */
  ghost predicate PopOk(s: State, w: seq<O.MsgOut>, q0: seq<Item>, c: nat, next: nat) {
    && c <= |q0| && s.queue == q0[c..] && (forall x :: 0 <= x < c ==> q0[x].msg.sendTime <= next)
    && (s.drainer.Resting? || (s.drainer.Popped? && c > 0 && s.drainer.item == q0[c - 1]))
    && w == O.Packets(Msgs(q0[..if s.drainer.Popped? then c - 1 else c]))
  }

  lemma PacketsMore(q0: seq<Item>, c: nat)
    requires c < |q0|
    ensures O.Packets(Msgs(q0[..c])) + [O.SendPacket(q0[c].msg)] == O.Packets(Msgs(q0[..c + 1]))
  {}

  lemma PopStep(s: State, a: Step, w: seq<O.MsgOut>, q0: seq<Item>, c: nat, prev: nat, next: nat)
    requires Enabled(s, a) && PopOk(s, w, q0, c, next) && !a.PushQueue? && !a.BeginPass?
    requires a.Pop? ==> s.queue[0].msg.sendTime <= next
    ensures PopOk(Do(s, a), w + Written(s, a, prev), q0, if a.Pop? then c + 1 else c, next)
  {
    if a.PopSent? { PacketsMore(q0, c - 1); }
    if a.Pop? { assert q0[c..][0] == q0[c] && q0[c..][1..] == q0[c + 1..]; }
  }

  /** Between the pops, for some number of them. */
  ghost predicate Popping(s: State, w: seq<O.MsgOut>, q0: seq<Item>, next: nat) { exists c: nat :: PopOk(s, w, q0, c, next) }

  lemma PoppingOn(s: State, a: Step, w: seq<O.MsgOut>, q0: seq<Item>, prev: nat, next: nat)
    requires Enabled(s, a) && Popping(s, w, q0, next) && !a.PushQueue? && !a.BeginPass?
    requires a.Pop? && s.queue != [] ==> s.queue[0].msg.sendTime <= next
    ensures Popping(Do(s, a), w + Written(s, a, prev), q0, next)
  {
    var c: nat :| PopOk(s, w, q0, c, next);
    PopStep(s, a, w, q0, c, prev, next);
  }

  lemma NoPopYet(s: State, next: nat)
    requires s.drainer.Resting?
    ensures Popping(s, [], s.queue, next)
  {
    assert PopOk(s, [], s.queue, 0, next);
  }

  lemma PopsOn(run: seq<State>, acts: seq<Step>, l: nat, k: nat, prev: nat, next: nat)
    requires Runs(run, acts) && l <= k < |acts| && Popping(run[k], Wrote(run, acts, l, k, prev), run[l].queue, next)
    requires !acts[k].PushQueue? && !acts[k].BeginPass? && (acts[k].Pop? && run[k].queue != [] ==> run[k].queue[0].msg.sendTime <= next)
    ensures Popping(run[k + 1], Wrote(run, acts, l, k + 1, prev), run[l].queue, next)
  {
    assert Stepped(run, acts, k);
    PoppingOn(run[k], acts[k], Wrote(run, acts, l, k, prev), run[l].queue, prev, next);
  }

  lemma PopsAt(run: seq<State>, acts: seq<Step>, l: nat, i: nat, prev: nat, next: nat)
    requires Runs(run, acts) && Pops(run, acts, l, i, next)
    ensures Popping(run[i], Wrote(run, acts, l, i, prev), run[l].queue, next)
  {
    NoPopYet(run[l], next);
    for k := l to i
      invariant Popping(run[k], Wrote(run, acts, l, k, prev), run[l].queue, next)
    {
      PopsOn(run, acts, l, k, prev, next);
    }
  }

  lemma PoppedAll(s: State, w: seq<O.MsgOut>, q0: seq<Item>, next: nat)
    requires Popping(s, w, q0, next) && s.drainer.Resting? && (s.queue == [] || s.queue[0].msg.sendTime > next)
    ensures var ms := Msgs(q0); var due := O.Due(ms, next); w == O.Packets(ms[..due]) && Msgs(s.queue) == ms[due..]
  {
    var c: nat :| PopOk(s, w, q0, c, next);
    var ms := Msgs(q0);
    if c < |q0| { assert s.queue[0] == q0[c]; }
    DueIs(ms, next, c);
    assert Msgs(q0[..c]) == ms[..c] && Msgs(q0[c..]) == ms[c..];
  }

  /** The pops write what the flush writes of the queue, and leave what it leaves. */
  lemma PopsWrite(run: seq<State>, acts: seq<Step>, l: nat, i: nat, prev: nat, next: nat)
    requires Runs(run, acts) && Pops(run, acts, l, i, next)
    ensures var ms := Msgs(run[l].queue); var due := O.Due(ms, next);
      Wrote(run, acts, l, i, prev) == O.Packets(ms[..due]) && Msgs(run[i].queue) == ms[due..]
  {
    PopsAt(run, acts, l, i, prev, next);
    PoppedAll(run[i], Wrote(run, acts, l, i, prev), run[l].queue, next);
  }

  // ---------------------------------------------------------------- the flush

  /** What one flush sees: the packets the pass took out, in the order of the slots, and the queue when it is locked. */
  function Seen(drained: State, locked: State, prev: nat, next: nat): O.Out {
    O.Out(prev, next, PassMsgs(drained.pass, |drained.slots|), Msgs(locked.queue))
  }

  /**
   However the senders interleave with it, the handler's pass and pops write exactly what one flush of
   OutputSide writes, and leave the queue that it leaves; the pass is given up exactly when the flush
   aborts.
   */
  lemma FlushIsOnePass(run: seq<State>, acts: seq<Step>, n: nat, j: nat, e: nat, l: nat, i: nat, prev: nat, next: nat)
    requires IsRun(run, acts, n) && Drains(run, acts, j, e, prev, next) && e <= l && Pops(run, acts, l, i, next)
    ensures var o := Seen(run[e], run[l], prev, next);
      && (O.Aborts(o) <==> acts[e - 1].Sent?)
      && (O.Aborts(o) ==> O.Sends(o) == Wrote(run, acts, j, e, prev))
      && (!O.Aborts(o) ==> O.Sends(o) == Wrote(run, acts, j, e, prev) + Wrote(run, acts, l, i, prev) + [O.AtDeadline])
      && Msgs(run[i].queue) == O.Flushed(o).upcoming
  {
    IsRunOf(run, acts, n, e);
    PassWrites(run, acts, j, e, prev, next);
    PopsWrite(run, acts, l, i, prev, next);
  }

  lemma Completed(run: seq<State>, acts: seq<Step>, j: nat, e: nat, prev: nat, next: nat)
    requires Runs(run, acts) && Drains(run, acts, j, e, prev, next) && !acts[e - 1].Sent?
    ensures j < e - 1 && run[e - 1].drainer == Looking(|run[e - 1].slots|) && run[e].pass == run[e - 1].pass
    ensures forall l :: j < l < e - 1 ==> !acts[l].BeginPass?
  {
    PassWrites(run, acts, j, e, prev, next);
    forall l | j < l < e - 1 ensures !acts[l].BeginPass? { assert Stepped(run, acts, l); }
  }

  ghost predicate OnePass(acts: seq<Step>, j: nat, i: nat) {
    j < i <= |acts| && acts[j].BeginPass? && forall l :: j < l < i ==> !acts[l].BeginPass?
  }

  ghost predicate Whole(acts: seq<Step>, j: nat, i: nat) { exists e: nat :: e == i && OnePass(acts, j, e) }

  lemma TookIt(run: seq<State>, acts: seq<Step>, n: nat, j: nat, i: nat, k: nat)
    requires IsRun(run, acts, n) && i < |run| && Whole(acts, j, i) && run[i].drainer == Looking(n)
    requires j < |run| && k < |run[j].slots| && run[j].slots[k].valid
    ensures k in run[i].pass && Some(run[i].pass[k]) == run[j].slots[k].cell
  {
    PassMissesNothing(run, acts, n, j, i, k);
  }

  lemma CompletedRun(run: seq<State>, acts: seq<Step>, n: nat, j: nat, e: nat, prev: nat, next: nat)
    requires IsRun(run, acts, n) && Drains(run, acts, j, e, prev, next) && !acts[e - 1].Sent?
    ensures j < e - 1 && run[e - 1].drainer == Looking(n) && run[e].pass == run[e - 1].pass && Whole(acts, j, e - 1)
  {
    IsRunOf(run, acts, n, e);
    Completed(run, acts, j, e, prev, next);
    assert OnePass(acts, j, e - 1);
  }

  /** And a pass that is not given up takes out everything that was published when it began. */
  lemma FlushSeesAll(run: seq<State>, acts: seq<Step>, n: nat, j: nat, e: nat, prev: nat, next: nat, k: nat)
    requires IsRun(run, acts, n) && Drains(run, acts, j, e, prev, next) && !acts[e - 1].Sent?
    requires k < |run[j].slots| && run[j].slots[k].valid
    ensures k in run[e].pass && Some(run[e].pass[k]) == run[j].slots[k].cell
  {
    CompletedRun(run, acts, n, j, e, prev, next);
    assert Whole(acts, j, e - 1);
    TookIt(run, acts, n, j, e - 1, k);
  }
}
