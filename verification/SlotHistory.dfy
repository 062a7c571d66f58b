/** What the state of the output side says about the steps that led to it. */
module SlotHistory {
  import opened Basics
  import opened SlotMachine
  import opened SlotTheorems

  // ---------------------------------------------------------------- messages in and out

  /** The message that an application hands to `send` at this step. */
  function In(a: Step): multiset<OutputMsg> {
    if a.BeginInsert? || a.PushQueue? then multiset{a.msg} else multiset{}
  }

  /** The message that leaves for the coordinator at this step. */
  function Away(s: State, a: Step): multiset<OutputMsg> {
    if (a.Sent? && s.drainer.Sending?) || (a.PopSent? && s.drainer.Popped?) then multiset{s.drainer.item.msg} else multiset{}
  }

  function Submitted(acts: seq<Step>, i: nat): multiset<OutputMsg>
    requires i <= |acts|
  {
    if i == 0 then multiset{} else Submitted(acts, i - 1) + In(acts[i - 1])
  }

  function HandedOver(run: seq<State>, acts: seq<Step>, i: nat): multiset<OutputMsg>
    requires i <= |acts| && |run| == |acts| + 1
  {
    if i == 0 then multiset{} else HandedOver(run, acts, i - 1) + Away(run[i - 1], acts[i - 1])
  }

  lemma StepAccepts(s: State, a: Step)
    requires Enabled(s, a)
    ensures Do(s, a).accepted == s.accepted + In(a)
  {
    if !a.BeginInsert? && !a.PushQueue? {
      AcceptsNothing(s, a);
      assert s.accepted + multiset{} == s.accepted;
    }
  }

  lemma AcceptsNothing(s: State, a: Step)
    requires Enabled(s, a) && !a.BeginInsert? && !a.PushQueue?
    ensures Do(s, a).accepted == s.accepted
  {}

  lemma StepDrains(s: State, a: Step)
    requires Enabled(s, a)
    ensures Do(s, a).drained == s.drained + Away(s, a)
  {
    if !a.Sent? && !a.PopSent? {
      DrainsNothing(s, a);
      assert s.drained + multiset{} == s.drained;
    }
  }

  lemma DrainsNothing(s: State, a: Step)
    requires Enabled(s, a) && !a.Sent? && !a.PopSent?
    ensures Do(s, a).drained == s.drained
  {}

  lemma CountsAre(run: seq<State>, acts: seq<Step>, n: nat, i: nat)
    requires IsRun(run, acts, n) && i < |run|
    ensures run[i].accepted == Submitted(acts, i) && run[i].drained == HandedOver(run, acts, i)
  {
    for k := 0 to i
      invariant run[k].accepted == Submitted(acts, k) && run[k].drained == HandedOver(run, acts, k)
    {
      StepAccepts(run[k], acts[k]);
      StepDrains(run[k], acts[k]);
    }
  }

  /**
   In every interleaving, for every message: the times it was given to `send` are the times it was handed
   to the coordinator plus the copies still in buffers.
   */
  lemma NothingLost(run: seq<State>, acts: seq<Step>, n: nat, i: nat, m: OutputMsg)
    requires IsRun(run, acts, n) && i < |run|
    ensures Submitted(acts, i)[m] == HandedOver(run, acts, i)[m] + Copies(run[i].bufs, m)
  {
    CountsAre(run, acts, n, i);
    RunGood(run, acts, n, i);
    assert Conserved(run[i], m);
  }

  // ---------------------------------------------------------------- the overrun queue

  /** What joins the queue at this step. */
  function Pushed(s: State, a: Step): seq<Item> {
    if a.PushQueue? && a.t < |s.senders| && s.senders[a.t].Holding? then [Item(a.msg, s.senders[a.t].buf)] else []
  }

  /** What the handler holds after this step has popped it. */
  function Popped(a: Step, s': State): seq<Item> {
    if a.Pop? && s'.drainer.Popped? then [s'.drainer.item] else []
  }

  function AllPushed(run: seq<State>, acts: seq<Step>, i: nat): seq<Item>
    requires i <= |acts| && |run| == |acts| + 1
  {
    if i == 0 then [] else AllPushed(run, acts, i - 1) + Pushed(run[i - 1], acts[i - 1])
  }

  function AllPopped(run: seq<State>, acts: seq<Step>, i: nat): seq<Item>
    requires i <= |acts| && |run| == |acts| + 1
  {
    if i == 0 then [] else AllPopped(run, acts, i - 1) + Popped(acts[i - 1], run[i])
  }

  /** At one end only something is taken, at the other only something is added. */
  lemma StepMovesQueue(s: State, a: Step)
    requires Enabled(s, a)
    ensures s.queue + Pushed(s, a) == Popped(a, Do(s, a)) + Do(s, a).queue
  {
    if a.Pop? {
      assert s.queue + [] == [s.queue[0]] + s.queue[1..];
    } else {
      assert Popped(a, Do(s, a)) == [];
      if !a.PushQueue? { QueueSame(s, a); }
    }
  }

  lemma QueueSame(s: State, a: Step)
    requires Enabled(s, a) && !a.Pop? && !a.PushQueue?
    ensures Do(s, a).queue == s.queue
  {}

  lemma StillFifo(pushed: seq<Item>, popped: seq<Item>, queue: seq<Item>, more: seq<Item>, less: seq<Item>, queue': seq<Item>)
    requires pushed == popped + queue && queue + more == less + queue'
    ensures pushed + more == popped + less + queue'
  {
    assert pushed + more == popped + (queue + more);
    assert popped + less + queue' == popped + (less + queue');
  }

  /** The overrun queue is first in, first out: what was pushed is what was popped, in that order, and then the queue. */
  lemma QueueIsFifo(run: seq<State>, acts: seq<Step>, n: nat, i: nat)
    requires IsRun(run, acts, n) && i < |run|
    ensures AllPushed(run, acts, i) == AllPopped(run, acts, i) + run[i].queue
  {
    for k := 0 to i
      invariant AllPushed(run, acts, k) == AllPopped(run, acts, k) + run[k].queue
    {
      StepMovesQueue(run[k], acts[k]);
      StillFifo(AllPushed(run, acts, k), AllPopped(run, acts, k), run[k].queue, Pushed(run[k], acts[k]), Popped(acts[k], run[k + 1]), run[k + 1].queue);
    }
  }

  // ---------------------------------------------------------------- allocation

  predicate Busy(s: State, b: nat) { b < |s.bufs| && s.bufs[b].busy }

  /** Buffer b was busy in some state after j and up to i. */
  ghost predicate SeenBusy(run: seq<State>, j: nat, i: nat, b: nat) {
    exists l :: j < l <= i && l < |run| && Busy(run[l], b)
  }

  /** A buffer obtained was free and is the first free one from where the scan stands; a scan that fails saw the end. */
  lemma TryIs(s: State, t: nat)
    requires Enabled(s, TryBuffer(t))
    ensures var k, l := s.senders[t].k, Do(s, TryBuffer(t)).senders[t];
      && (l.Holding? ==> l.buf == k && k < |s.bufs| && !Busy(s, k) && Busy(Do(s, TryBuffer(t)), k))
      && (l.Allocating? ==> l.k == k + 1 && Busy(s, k))
      && (l.Idle? ==> k == |s.bufs|) && (l.Holding? || l.Allocating? || l.Idle?)
  {}

  lemma OtherSteps(s: State, a: Step, t: nat)
    requires Enabled(s, a) && t < |s.senders| && s.senders[t].Allocating? && a != TryBuffer(t)
    ensures t < |Do(s, a).senders| && Do(s, a).senders[t] == s.senders[t]
  {}

  ghost predicate Scanned(run: seq<State>, j: nat, i: nat, k: nat) {
    forall b: nat :: b < k ==> SeenBusy(run, j, i, b)
  }

  lemma ScannedMore(run: seq<State>, j: nat, i: nat, k: nat)
    requires Scanned(run, j, i, k) && j < i < |run|
    ensures Scanned(run, j, i + 1, k) && (Busy(run[i], k) ==> Scanned(run, j, i + 1, k + 1))
  {
    var i' := i + 1;
    forall b: nat | b < k ensures SeenBusy(run, j, i', b) {
      assert SeenBusy(run, j, i, b);
      var l :| j < l <= i && l < |run| && Busy(run[l], b);
    }
  }

  lemma ScanStep(run: seq<State>, acts: seq<Step>, n: nat, j: nat, k: nat, t: nat)
    requires IsRun(run, acts, n) && j < k < |acts| && t < |run[k].senders| && run[k].senders[t].Allocating?
    requires Scanned(run, j, k, run[k].senders[t].k)
    ensures t < |run[k + 1].senders|
    ensures run[k + 1].senders[t].Allocating? ==> Scanned(run, j, k + 1, run[k + 1].senders[t].k)
  {
    ScannedMore(run, j, k, run[k].senders[t].k);
    if acts[k] == TryBuffer(t) { TryIs(run[k], t); } else { OtherSteps(run[k], acts[k], t); }
  }

  lemma StartScans(s: State, t: nat)
    requires Enabled(s, Start(t))
    ensures Do(s, Start(t)).senders[t] == Allocating(0)
  {}

  lemma ScanTo(run: seq<State>, acts: seq<Step>, n: nat, j: nat, i: nat, t: nat)
    requires IsRun(run, acts, n) && j < i < |run| && acts[j] == Start(t)
    requires forall k :: j < k <= i ==> t < |run[k].senders| && run[k].senders[t].Allocating?
    ensures Scanned(run, j, i, run[i].senders[t].k)
  {
    StartScans(run[j], t);
    for k := j + 1 to i
      invariant Scanned(run, j, k, run[k].senders[t].k)
    {
      ScanStep(run, acts, n, j, k, t);
    }
  }

  lemma FailsAtEnd(s: State, a: Step, t: nat)
    requires Enabled(s, a) && a == TryBuffer(t) && Do(s, a).senders[t].Idle?
    ensures s.senders[t].k == |s.bufs|
  {
    TryIs(s, t);
  }

  /**
   In every interleaving, `send` reports that no buffer is available only if it saw each buffer of the pool
   busy since it was called at step j.
   */
  lemma NoBufferOnlyIfBusy(run: seq<State>, acts: seq<Step>, n: nat, j: nat, i: nat, t: nat, b: nat)
    requires IsRun(run, acts, n) && j < i < |acts| && acts[j] == Start(t) && acts[i] == TryBuffer(t)
    requires forall k :: j < k <= i ==> t < |run[k].senders| && run[k].senders[t].Allocating?
    requires t < |run[i + 1].senders| && run[i + 1].senders[t].Idle? && b < |run[i].bufs|
    ensures SeenBusy(run, j, i, b)
  {
    ScanTo(run, acts, n, j, i, t);
    FailsAtEnd(run[i], acts[i], t);
  }
}
