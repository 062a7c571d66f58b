/**
 What a client sends at a deadline: the packets of the last slot, clamped into the slot, then the
 packets stamped in earlier slots beyond their deadline, then AtDeadline.  Times in nanoseconds.
 */
module OutputSide {
  import opened Basics

  datatype MsgOut = SendPacket(m: OutputMsg) | AtDeadline

  /** The two deadlines of the timer, the drained messages in slot order, and the overrun queue. */
  datatype Out = Out(prev: nat, next: nat, outgoing: seq<OutputMsg>, upcoming: seq<OutputMsg>)

  /** A packet inserted after its slot ended is moved to the start of the current slot. */
  function Clamp(m: OutputMsg, prev: nat): OutputMsg {
    if m.sendTime < prev then m.(sendTime := prev) else m
  }

  /** The packets written before the first one that is beyond the deadline. */
  function Clamped(ms: seq<OutputMsg>, prev: nat, next: nat): seq<MsgOut> {
    if ms == [] || Late(ms[0], prev, next) then []
    else [SendPacket(Clamp(ms[0], prev))] + Clamped(ms[1..], prev, next)
  }

  predicate Late(m: OutputMsg, prev: nat, next: nat) { m.sendTime >= prev && m.sendTime > next }

  /** Some drained packet is beyond the deadline: `at_deadline` gives up. */
  predicate Aborts(o: Out) {
    exists i :: 0 <= i < |o.outgoing| && Late(o.outgoing[i], o.prev, o.next)
  }

  /** How many queued packets are due. */
  function Due(ms: seq<OutputMsg>, next: nat): (k: nat)
    ensures k <= |ms|
  {
    if ms == [] || ms[0].sendTime > next then 0 else 1 + Due(ms[1..], next)
  }

  function Packets(ms: seq<OutputMsg>): seq<MsgOut> {
    seq(|ms|, i requires 0 <= i < |ms| => SendPacket(ms[i]))
  }

  /** Everything a deadline writes to the coordinator when no write fails. */
  function Sends(o: Out): seq<MsgOut> {
    if Aborts(o) then Clamped(o.outgoing, o.prev, o.next)
    else Clamped(o.outgoing, o.prev, o.next) + Packets(o.upcoming[..Due(o.upcoming, o.next)]) + [AtDeadline]
  }

  /** The queues after a deadline that did not abort. */
  function Flushed(o: Out): Out {
    o.(outgoing := [], upcoming := o.upcoming[Due(o.upcoming, o.next)..])
  }

  /** The timer moves to the next slot. */
  function NextSlot(o: Out, deadline: nat): Out {
    o.(prev := o.next, next := deadline)
  }

  /** `check_deadline_overrun` of the KVM timer: a late packet goes to the queue, not before its tail. */
  function CheckDeadlineOverrun(o: Out, sendTime: nat): Option<nat> {
    if sendTime <= o.next then None
    else if o.upcoming != [] && o.upcoming[|o.upcoming| - 1].sendTime > sendTime
      then Some(o.upcoming[|o.upcoming| - 1].sendTime)
    else Some(sendTime)
  }

  /** The tail of `send`; the process timer never reports an overrun. */
  function Enqueue(o: Out, m: OutputMsg, kvm: bool): Out {
    match if kvm then CheckDeadlineOverrun(o, m.sendTime) else None
    case Some(t) => o.(upcoming := o.upcoming + [m.(sendTime := t)])
    case None => o.(outgoing := o.outgoing + [m])
  }

  // ---------------------------------------------------------------- invariants

  predicate Sorted(ms: seq<OutputMsg>) {
    forall i, j :: 0 <= i < j < |ms| ==> ms[i].sendTime <= ms[j].sendTime
  }

  /** The queue is sorted and strictly beyond the last deadline that was handled. */
  predicate QueueOk(o: Out) {
    && o.prev <= o.next && Sorted(o.upcoming)
    && forall i :: 0 <= i < |o.upcoming| ==> o.upcoming[i].sendTime > o.prev
  }

  /** No packet waits in a slot with a timestamp beyond the deadline. */
  predicate InTime(o: Out) {
    forall i :: 0 <= i < |o.outgoing| ==> o.outgoing[i].sendTime <= o.next
  }

  ghost predicate InWindow(msgs: seq<MsgOut>, lo: nat, hi: nat) {
    forall i :: 0 <= i < |msgs| && msgs[i].SendPacket? ==> lo <= msgs[i].m.sendTime <= hi
  }

  lemma {:induction false} ClampedInWindow(ms: seq<OutputMsg>, prev: nat, next: nat)
    requires prev <= next
    ensures InWindow(Clamped(ms, prev, next), prev, next)
  {
    if ms != [] { ClampedInWindow(ms[1..], prev, next); }
  }

  /** The first packet that is beyond the deadline, and not before the slot, stops the writing. */
  lemma {:induction false} ClampedStops(ms: seq<OutputMsg>, prev: nat, next: nat)
    ensures var n := |Clamped(ms, prev, next)|;
      && n <= |ms| && (forall i :: 0 <= i < n ==> ms[i].sendTime < prev || ms[i].sendTime <= next)
      && (n < |ms| ==> ms[n].sendTime >= prev && ms[n].sendTime > next)
  {
    if ms != [] && !Late(ms[0], prev, next) {
      ClampedStops(ms[1..], prev, next);
      assert forall i :: 0 < i < |ms| ==> ms[i] == ms[1..][i - 1];
    }
  }

  /** Same sender, destination and payload; the time is the packet's own, or the previous deadline if that is later. */
  predicate Carries(out: MsgOut, m: OutputMsg, prev: nat) {
    && out.SendPacket? && out.m.src == m.src && out.m.dst == m.dst && out.m.payload == m.payload
    && m.sendTime <= out.m.sendTime && prev <= out.m.sendTime && (out.m.sendTime == m.sendTime || out.m.sendTime == prev)
  }

  lemma {:induction false} ClampedCarries(ms: seq<OutputMsg>, prev: nat, next: nat, i: nat)
    requires i < |Clamped(ms, prev, next)|
    ensures i < |ms| && Carries(Clamped(ms, prev, next)[i], ms[i], prev)
  {
    if i > 0 { ClampedCarries(ms[1..], prev, next, i - 1); }
  }

  lemma {:induction false} DueStops(ms: seq<OutputMsg>, next: nat)
    ensures var k := Due(ms, next);
      (forall i :: 0 <= i < k ==> ms[i].sendTime <= next) && (k < |ms| ==> ms[k].sendTime > next)
  {
    if ms != [] && ms[0].sendTime <= next {
      DueStops(ms[1..], next);
      assert forall i :: 0 < i < |ms| ==> ms[i] == ms[1..][i - 1];
    }
  }

  /**
   What a deadline writes, packet by packet: the drained ones up to the first that is beyond the deadline,
   with their content and their time brought up to the previous deadline; if there is no such packet, the
   front of the overrun queue as far as it is due, unchanged, and AtDeadline.  The rest stays queued.
   */
  lemma SendsAre(o: Out) returns (n: nat, due: nat)
    ensures n <= |o.outgoing| && due <= |o.upcoming|
    ensures forall i :: 0 <= i < n ==> o.outgoing[i].sendTime < o.prev || o.outgoing[i].sendTime <= o.next
    ensures n < |o.outgoing| ==> o.outgoing[n].sendTime >= o.prev && o.outgoing[n].sendTime > o.next
    ensures forall i :: 0 <= i < due ==> o.upcoming[i].sendTime <= o.next
    ensures due < |o.upcoming| ==> o.upcoming[due].sendTime > o.next
    ensures |Sends(o)| == if n < |o.outgoing| then n else n + due + 1
    ensures forall i :: 0 <= i < n ==> Carries(Sends(o)[i], o.outgoing[i], o.prev)
    ensures n == |o.outgoing| ==> (forall i :: 0 <= i < due ==> Sends(o)[n + i] == SendPacket(o.upcoming[i])) && Sends(o)[n + due] == AtDeadline
    ensures Flushed(o) == Out(o.prev, o.next, [], o.upcoming[due..])
  {
    var c := Clamped(o.outgoing, o.prev, o.next);
    n, due := |c|, Due(o.upcoming, o.next);
    ClampedStops(o.outgoing, o.prev, o.next);
    DueStops(o.upcoming, o.next);
    assert Aborts(o) <==> n < |o.outgoing| by {
      if n < |o.outgoing| { assert Late(o.outgoing[n], o.prev, o.next); }
    }
    forall i | 0 <= i < n ensures Carries(Sends(o)[i], o.outgoing[i], o.prev) {
      ClampedCarries(o.outgoing, o.prev, o.next, i);
      assert Sends(o)[i] == c[i];
    }
  }

  lemma {:induction false} DueIsExact(ms: seq<OutputMsg>, next: nat)
    requires Sorted(ms)
    ensures forall i :: 0 <= i < |ms| ==> (i < Due(ms, next) <==> ms[i].sendTime <= next)
  {
    if ms != [] && ms[0].sendTime <= next { DueIsExact(ms[1..], next); }
  }

  /** Every packet written at a deadline carries a time between the previous deadline and this one. */
  lemma TimestampWindow(o: Out)
    requires QueueOk(o)
    ensures InWindow(Sends(o), o.prev, o.next)
  {
    ClampedInWindow(o.outgoing, o.prev, o.next);
    DueIsExact(o.upcoming, o.next);
  }

  /** After the deadline what is left in the queue is strictly beyond it, so the next slot starts well. */
  lemma DeadlineKeepsQueue(o: Out, deadline: nat)
    requires QueueOk(o) && o.next <= deadline
    ensures QueueOk(NextSlot(Flushed(o), deadline)) && InTime(NextSlot(Flushed(o), deadline))
  {
    DueIsExact(o.upcoming, o.next);
  }

  lemma EnqueueKeepsQueue(o: Out, m: OutputMsg, kvm: bool)
    requires QueueOk(o)
    ensures QueueOk(Enqueue(o, m, kvm))
    ensures kvm && InTime(o) ==> InTime(Enqueue(o, m, kvm))
  {}

  /** The overrun check: a packet is late exactly beyond the deadline; its time is then the greater of its own and the tail's. */
  lemma OverrunIs(o: Out, sendTime: nat)
    ensures CheckDeadlineOverrun(o, sendTime).None? <==> sendTime <= o.next
    ensures forall t :: CheckDeadlineOverrun(o, sendTime) == Some(t) ==>
      && sendTime <= t && (t == sendTime || (o.upcoming != [] && t == o.upcoming[|o.upcoming| - 1].sendTime))
      && (o.upcoming != [] ==> o.upcoming[|o.upcoming| - 1].sendTime <= t)
  {}

  /** Nothing in the queue is due any more. */
  predicate Settled(o: Out) {
    forall i :: 0 <= i < |o.upcoming| ==> o.upcoming[i].sendTime > o.next
  }

  lemma FlushSettles(o: Out)
    requires QueueOk(o)
    ensures QueueOk(Flushed(o)) && Settled(Flushed(o))
  {
    DueIsExact(o.upcoming, o.next);
  }

  /** Every packet written was sent by someone who sent a waiting one. */
  lemma SendersKept(o: Out, v: nat)
    requires forall m :: m in o.outgoing || m in o.upcoming ==> m.src == v
    ensures forall i :: 0 <= i < |Sends(o)| && Sends(o)[i].SendPacket? ==> Sends(o)[i].m.src == v
    ensures forall i :: 0 <= i < |Sends(o)| && Sends(o)[i].AtDeadline? ==> i == |Sends(o)| - 1
  {
    ClampedSenders(o.outgoing, o.prev, o.next, v);
  }

  lemma {:induction false} ClampedSenders(ms: seq<OutputMsg>, prev: nat, next: nat, v: nat)
    requires forall m :: m in ms ==> m.src == v
    ensures forall i :: 0 <= i < |Clamped(ms, prev, next)| ==>
      Clamped(ms, prev, next)[i].SendPacket? && Clamped(ms, prev, next)[i].m.src == v
  {
    if ms != [] { ClampedSenders(ms[1..], prev, next, v); }
  }

  // ---------------------------------------------------------------- any number of senders

  /**
   `send` checks for an overrun and then pushes, taking the queue's lock twice.  `pushes` and `flushes`
   are auxiliary: the pushes so far at the check, and the flushes up to which its answer stays good.
   */
  datatype Sender = Idle | Holding(m: OutputMsg, overrun: Option<nat>, pushes: nat, flushes: nat)

  /** `flushed` holds between the flush of a deadline and the start of the next slot. */
  datatype State = State(out: Out, flushed: bool, senders: seq<Sender>, pushes: nat, flushes: nat)

  datatype Event = Check(t: nat, m: OutputMsg) | Push(t: nat) | Flush | Slot(deadline: nat)

  predicate Enabled(s: State, e: Event, kvm: bool) {
    match e
    case Check(t, m) => t < |s.senders| && s.senders[t].Idle?
    case Push(t) => t < |s.senders| && s.senders[t].Holding?
    case Flush => !s.flushed && !Aborts(s.out)
    case Slot(deadline) => s.flushed && s.out.next <= deadline
  }

  function Do(s: State, e: Event, kvm: bool): State
    requires Enabled(s, e, kvm)
  {
    match e
    case Check(t, m) =>
      var overrun := if kvm then CheckDeadlineOverrun(s.out, m.sendTime) else None;
      s.(senders := s.senders[t := Holding(m, overrun, s.pushes, s.flushes + if s.flushed then 0 else 1)])
    case Push(t) => DoPush(s, t)
    case Flush => s.(out := Flushed(s.out), flushed := true, flushes := s.flushes + 1)
    case Slot(deadline) => s.(out := NextSlot(s.out, deadline), flushed := false)
  }

  function DoPush(s: State, t: nat): State
    requires t < |s.senders| && s.senders[t].Holding?
  {
    var h, s1 := s.senders[t], s.(senders := s.senders[t := Idle]);
    match h.overrun
    case None => s1.(out := s.out.(outgoing := s.out.outgoing + [h.m]))
    case Some(time) => s1.(out := s.out.(upcoming := s.out.upcoming + [h.m.(sendTime := time)]), pushes := s.pushes + 1)
  }

  /** Check and push with nothing in between: the packet, with its content, goes where `send` puts it. */
  lemma CheckThenPush(s: State, t: nat, m: OutputMsg, kvm: bool)
    requires Enabled(s, Check(t, m), kvm)
    ensures Enabled(Do(s, Check(t, m), kvm), Push(t), kvm)
    ensures var o := Do(Do(s, Check(t, m), kvm), Push(t), kvm).out;
      if kvm && m.sendTime > s.out.next
      then exists time :: o == s.out.(upcoming := s.out.upcoming + [OutputMsg(m.src, m.dst, time, m.payload)])
                          && m.sendTime <= time && CheckDeadlineOverrun(s.out, m.sendTime) == Some(time)
      else o == s.out.(outgoing := s.out.outgoing + [m])
  {}

  /** The last deadline that was flushed. */
  function Floor(o: Out, flushed: bool): nat { if flushed then o.next else o.prev }

  /** A packet with this time may join the queue. */
  predicate Joins(o: Out, flushed: bool, time: nat) {
    time > Floor(o, flushed) && (o.upcoming == [] || o.upcoming[|o.upcoming| - 1].sendTime <= time)
  }

  predicate OutOk(o: Out, flushed: bool) { QueueOk(o) && (flushed ==> Settled(o)) }

  /** The push keeps the queue in order and beyond the flushed deadlines exactly for such a time. */
  lemma PushKeepsIff(o: Out, flushed: bool, m: OutputMsg)
    requires OutOk(o, flushed)
    ensures OutOk(o.(upcoming := o.upcoming + [m]), flushed) <==> Joins(o, flushed, m.sendTime)
  {
    var o', n := o.(upcoming := o.upcoming + [m]), |o.upcoming|;
    assert o'.upcoming[n] == m && forall i :: 0 <= i < n ==> o'.upcoming[i] == o.upcoming[i];
    if o.upcoming != [] { assert o'.upcoming[n - 1] == o.upcoming[n - 1]; }
  }

  /** No other push, and no flush of a deadline beyond the one compared with, since the check. */
  predicate Calm(s: State, h: Sender)
    requires h.Holding?
  {
    s.pushes == h.pushes && s.flushes <= h.flushes
  }

  ghost predicate SenderOk(s: State, h: Sender, kvm: bool) {
    h.Holding? ==>
      && h.pushes <= s.pushes && h.flushes <= s.flushes + 1
      && (h.overrun.Some? ==> kvm && (Calm(s, h) ==> Joins(s.out, s.flushed, h.overrun.value)))
      && (h.overrun.Some? && Calm(s, h) && s.flushes < h.flushes ==> !s.flushed && h.overrun.value > s.out.next)
      && (h.overrun.None? && kvm ==> h.m.sendTime <= s.out.next)
  }

  ghost predicate Good(s: State, kvm: bool) {
    && OutOk(s.out, s.flushed) && (kvm ==> InTime(s.out))
    && forall t :: 0 <= t < |s.senders| ==> SenderOk(s, s.senders[t], kvm)
  }

  ghost predicate IsRun(run: seq<State>, events: seq<Event>, kvm: bool) {
    && |run| == |events| + 1
    && run[0].out.prev == 0 && run[0].out.outgoing == [] && run[0].out.upcoming == [] && !run[0].flushed
    && (forall t :: 0 <= t < |run[0].senders| ==> run[0].senders[t].Idle?)
    && forall i :: 0 <= i < |events| ==> Enabled(run[i], events[i], kvm) && run[i + 1] == Do(run[i], events[i], kvm)
  }

  /** Every overrun push before step i was calm. */
  ghost predicate CalmUntil(run: seq<State>, events: seq<Event>, i: nat)
    requires |run| == |events| + 1 && i <= |events|
  {
    forall k :: 0 <= k < i && Overruns(run[k], events[k]) ==> Calm(run[k], run[k].senders[events[k].t])
  }

  /** A packet joins the overrun queue at this step. */
  predicate Overruns(s: State, e: Event) {
    e.Push? && e.t < |s.senders| && s.senders[e.t].Holding? && s.senders[e.t].overrun.Some?
  }

  lemma StepKeepsOut(s: State, e: Event, kvm: bool)
    requires Good(s, kvm) && Enabled(s, e, kvm) && (Overruns(s, e) ==> Calm(s, s.senders[e.t]))
    ensures OutOk(Do(s, e, kvm).out, Do(s, e, kvm).flushed) && (kvm ==> InTime(Do(s, e, kvm).out))
  {
    if Overruns(s, e) {
      var h := s.senders[e.t];
      PushKeepsIff(s.out, s.flushed, h.m.(sendTime := h.overrun.value));
    }
    FlushSettles(s.out);
  }

  lemma StepKeepsSender(s: State, e: Event, kvm: bool, t: nat)
    requires OutOk(s.out, s.flushed) && Enabled(s, e, kvm) && t < |s.senders| && SenderOk(s, s.senders[t], kvm)
    ensures SenderOk(Do(s, e, kvm), Do(s, e, kvm).senders[t], kvm)
  {
    if e.Flush? { FlushKeepsSender(s, kvm, t); }
  }

  lemma FlushKeepsSender(s: State, kvm: bool, t: nat)
    requires OutOk(s.out, s.flushed) && Enabled(s, Flush, kvm) && t < |s.senders| && SenderOk(s, s.senders[t], kvm)
    ensures SenderOk(Do(s, Flush, kvm), s.senders[t], kvm)
  {
    FlushSettles(s.out);
  }

  lemma StepGood(s: State, e: Event, kvm: bool)
    requires Good(s, kvm) && Enabled(s, e, kvm) && (Overruns(s, e) ==> Calm(s, s.senders[e.t]))
    ensures Good(Do(s, e, kvm), kvm)
  {
    StepKeepsOut(s, e, kvm);
    forall t | 0 <= t < |s.senders| ensures SenderOk(Do(s, e, kvm), Do(s, e, kvm).senders[t], kvm) {
      StepKeepsSender(s, e, kvm, t);
    }
  }

  /**
   In every run, with any number of senders and deadlines between a check and its push, each flush writes
   only packets of its own slot as long as the overrun pushes were calm; with KVM it never aborts.
   */
  lemma {:induction false} WindowInEveryRun(run: seq<State>, events: seq<Event>, kvm: bool, i: nat)
    requires IsRun(run, events, kvm) && i < |run| && CalmUntil(run, events, i)
    ensures Good(run[i], kvm) && InWindow(Sends(run[i].out), run[i].out.prev, run[i].out.next)
    ensures kvm ==> !Aborts(run[i].out)
  {
    if i > 0 {
      WindowInEveryRun(run, events, kvm, i - 1);
      StepGood(run[i - 1], events[i - 1], kvm);
    }
    TimestampWindow(run[i].out);
  }

  /** With the process timer a deadline aborts exactly when a packet was stamped beyond it. */
  lemma AbortsIffOverrun(o: Out)
    requires o.prev <= o.next
    ensures Aborts(o) <==> !InTime(o)
    ensures |Clamped(o.outgoing, o.prev, o.next)| == |o.outgoing| <==> !Aborts(o)
  {
    if !InTime(o) {
      var i :| 0 <= i < |o.outgoing| && o.outgoing[i].sendTime > o.next;
      assert Late(o.outgoing[i], o.prev, o.next);
    }
    ClampedLength(o.outgoing, o.prev, o.next);
  }

  lemma {:induction false} ClampedLength(ms: seq<OutputMsg>, prev: nat, next: nat)
    ensures |Clamped(ms, prev, next)| <= |ms|
    ensures |Clamped(ms, prev, next)| == |ms| <==> forall i :: 0 <= i < |ms| ==> !Late(ms[i], prev, next)
  {
    if ms != [] { ClampedLength(ms[1..], prev, next); }
  }

  /**
   Another push in between breaks it: two senders check before either pushes, the earlier time comes
   second, and a deadline n1 between the two times is flushed; the next flush then writes a packet from
   before its slot.
   */
  lemma OtherPushBreaksWindow(o: Out, a: OutputMsg, b: OutputMsg, n1: nat, n2: nat)
    requires QueueOk(o) && o.upcoming == [] && o.outgoing == []
    requires o.next < b.sendTime < n1 < a.sendTime <= n2
    ensures CheckDeadlineOverrun(o, a.sendTime) == Some(a.sendTime) && CheckDeadlineOverrun(o, b.sendTime) == Some(b.sendTime)
    ensures var o1 := o.(upcoming := [a, b]);
      var o2 := NextSlot(Flushed(NextSlot(Flushed(o1), n1)), n2);
      !Sorted(o1.upcoming) && !InWindow(Sends(o2), o2.prev, o2.next)
  {
    var o1 := o.(upcoming := [a, b]);
    var o2 := NextSlot(Flushed(NextSlot(Flushed(o1), n1)), n2);
    assert o1.upcoming[0].sendTime > o1.upcoming[1].sendTime;
    assert o2 == Out(n1, n2, [], [a, b]);
    assert [a, b][1..] == [b] && Due([b], n2) == 1 + Due([b][1..], n2);
    assert Sends(o2)[1] == SendPacket(b);
  }

  /**
   So does a second deadline, with a single sender: the packet is stamped beyond the deadline it was
   compared with, but is pushed when the deadline n1 beyond its own time has been flushed as well.
   */
  lemma SecondFlushBreaksWindow(o: Out, m: OutputMsg, n1: nat, n2: nat)
    requires QueueOk(o) && o.upcoming == [] && o.outgoing == []
    requires o.next < m.sendTime < n1 <= n2
    ensures CheckDeadlineOverrun(o, m.sendTime) == Some(m.sendTime)
    ensures var o2 := NextSlot(Flushed(NextSlot(Flushed(o), n1)), n2);
      var o3 := o2.(upcoming := o2.upcoming + [m]);
      !QueueOk(o3) && !InWindow(Sends(o3), o3.prev, o3.next)
  {
    var o2 := NextSlot(Flushed(NextSlot(Flushed(o), n1)), n2);
    var o3 := o2.(upcoming := o2.upcoming + [m]);
    assert o3 == Out(n1, n2, [], [m]) && o3.upcoming[0].sendTime < n1;
    assert Due([m], n2) == 1 + Due([m][1..], n2);
    assert Sends(o3)[0] == SendPacket(m);
  }
}
