/** `Context`: sending, receiving, and what the deadline handler does between freeze and thaw. */
module ClientContext {
  import opened Basics
  import opened WireTime
  import opened OutputSide

  datatype Packet = Packet(src: nat, dst: nat, payload: seq<Byte>)

  datatype MsgIn = DeliverPacket(p: Packet) | GoToDeadline(time: Wire) | EndSimulation

  datatype AfterDeadline = NextDeadline(deadline: nat) | Over

  datatype Error = NoMemoryAvailable | SizeTooBig | NoMessageAvailable | ProtocolViolation | AlreadyStarted | IoFailure

  const MAX_PACKET_SIZE: nat := 2048

  datatype Intake = Intake(queue: seq<Packet>, after: AfterDeadline, rest: seq<MsgIn>)

  /**
   The receive loop of `at_deadline`.  Every message needs a free input buffer, a queued packet keeps
   its buffer, and `held` buffers are still with the application; the end of `msgs` is a closed socket.
   */
  function TakeIn(queue: seq<Packet>, held: nat, n: nat, msgs: seq<MsgIn>): Intake
    decreases |msgs|
  {
    if msgs == [] || |queue| + held >= n then Intake(queue, Over, msgs)
    else
      match msgs[0]
      case DeliverPacket(p) => TakeIn(queue + [p], held, n, msgs[1..])
      case EndSimulation => Intake(queue, Over, msgs[1..])
      case GoToDeadline(time) =>
        match Decode(time)
        case Ok(d) => Intake(queue, NextDeadline(d), msgs[1..])
        case Err(_) => Intake(queue, Over, msgs[1..])
  }

  function Delivered(msgs: seq<MsgIn>): seq<Packet>
    requires forall i :: 0 <= i < |msgs| ==> msgs[i].DeliverPacket?
  {
    seq(|msgs|, i requires 0 <= i < |msgs| => msgs[i].p)
  }

  /** The first k messages are packets, each of which finds a buffer. */
  ghost predicate Fits(queue: seq<Packet>, held: nat, n: nat, msgs: seq<MsgIn>, k: nat) {
    k <= |msgs| && forall i :: 0 <= i < k ==> msgs[i].DeliverPacket? && |queue| + held + i < n
  }

  /** Nothing more is taken in after the first k messages. */
  predicate StopsAt(queue: seq<Packet>, held: nat, n: nat, msgs: seq<MsgIn>, k: nat) {
    k >= |msgs| || |queue| + held + k >= n || !msgs[k].DeliverPacket?
  }

  /** The (k+1)-st message gets a buffer and is a deadline that denotes d. */
  predicate IsDeadline(queue: seq<Packet>, held: nat, n: nat, msgs: seq<MsgIn>, k: nat, d: nat) {
    k < |msgs| && |queue| + held + k < n && msgs[k].GoToDeadline? && Decode(msgs[k].time) == Ok(d)
  }

  /**
   The receive loop, message by message: the packets at the front that fit join the queue in order; the
   slot goes on exactly if a deadline follows them and gets a buffer, and the simulation is over otherwise,
   on a closed socket, a full pool, an end message or a date that is not accepted.
   */
  lemma {:induction false} TakeInIs(queue: seq<Packet>, held: nat, n: nat, msgs: seq<MsgIn>, k: nat)
    requires Fits(queue, held, n, msgs, k) && StopsAt(queue, held, n, msgs, k)
    ensures var r := TakeIn(queue, held, n, msgs);
      && |r.queue| == |queue| + k && r.queue[..|queue|] == queue && (forall i :: 0 <= i < k ==> r.queue[|queue| + i] == msgs[i].p)
      && (forall d :: r.after == NextDeadline(d) <==> IsDeadline(queue, held, n, msgs, k, d))
      && r.rest == if k < |msgs| && |queue| + held + k < n then msgs[k + 1..] else msgs[k..]
    decreases k
  {
    if k > 0 {
      var q := queue + [msgs[0].p];
      OneTakenIn(queue, held, n, msgs, k);
      TakeInIs(q, held, n, msgs[1..], k - 1);
      var r := TakeIn(queue, held, n, msgs);
      assert r.queue[..|q|] == q && r.queue[|queue|] == q[|queue|] && r.queue[..|queue|] == q[..|queue|];
      forall i | 0 <= i < k ensures r.queue[|queue| + i] == msgs[i].p {
        if i > 0 { assert r.queue[|q| + (i - 1)] == msgs[1..][i - 1].p; }
      }
      forall d ensures IsDeadline(q, held, n, msgs[1..], k - 1, d) <==> IsDeadline(queue, held, n, msgs, k, d) {}
    }
  }

  lemma OneTakenIn(queue: seq<Packet>, held: nat, n: nat, msgs: seq<MsgIn>, k: nat)
    requires 0 < k && Fits(queue, held, n, msgs, k) && StopsAt(queue, held, n, msgs, k)
    ensures var q := queue + [msgs[0].p]; Fits(q, held, n, msgs[1..], k - 1) && StopsAt(q, held, n, msgs[1..], k - 1)
  {
    var q := queue + [msgs[0].p];
    forall i | 0 <= i < k - 1 ensures msgs[1..][i].DeliverPacket? && |q| + held + i < n {
      assert msgs[i + 1].DeliverPacket? && |queue| + held + (i + 1) < n;
    }
    if k < |msgs| { assert msgs[1..][k - 1] == msgs[k]; }
  }

  /** For every input there is such a k. */
  lemma {:induction false} TakenIn(queue: seq<Packet>, held: nat, n: nat, msgs: seq<MsgIn>) returns (k: nat)
    ensures Fits(queue, held, n, msgs, k) && StopsAt(queue, held, n, msgs, k)
    decreases |msgs|
  {
    if msgs == [] || |queue| + held >= n || !msgs[0].DeliverPacket? {
      k := 0;
    } else {
      var rest := TakenIn(queue + [msgs[0].p], held, n, msgs[1..]);
      k := rest + 1;
      forall i | 0 <= i < k ensures msgs[i].DeliverPacket? && |queue| + held + i < n {
        if i > 0 { assert msgs[1..][i - 1].DeliverPacket? && |queue + [msgs[0].p]| + held + (i - 1) < n; }
      }
      if k < |msgs| { assert msgs[k] == msgs[1..][rest]; }
    }
  }

  /** A slot goes on with deadline d if and only if the input begins with packets that fit and then has that deadline. */
  lemma GoesOnIff(queue: seq<Packet>, held: nat, n: nat, msgs: seq<MsgIn>, d: nat)
    ensures TakeIn(queue, held, n, msgs).after == NextDeadline(d) <==>
            exists k: nat :: Fits(queue, held, n, msgs, k) && IsDeadline(queue, held, n, msgs, k, d)
  {
    var k := TakenIn(queue, held, n, msgs);
    TakeInIs(queue, held, n, msgs, k);
    if j: nat :| Fits(queue, held, n, msgs, j) && IsDeadline(queue, held, n, msgs, j, d) {
      TakeInIs(queue, held, n, msgs, j);
    }
  }

  /** A slot goes on exactly when the input is DeliverPacket* GotoDeadline and all packets fit. */
  lemma {:induction false} TakeInAccepts(queue: seq<Packet>, held: nat, n: nat, msgs: seq<MsgIn>, k: nat, d: nat)
    requires k < |msgs| && msgs[k].GoToDeadline? && Decode(msgs[k].time) == Ok(d)
    requires forall i :: 0 <= i < k ==> msgs[i].DeliverPacket?
    ensures |queue| + held + k < n ==>
      TakeIn(queue, held, n, msgs) == Intake(queue + Delivered(msgs[..k]), NextDeadline(d), msgs[k + 1..])
    ensures |queue| + held + k >= n ==> TakeIn(queue, held, n, msgs).after == Over
    decreases k
  {
    if k == 0 {
      assert queue + Delivered(msgs[..0]) == queue;
    } else if |queue| + held < n {
      TakeInAccepts(queue + [msgs[0].p], held, n, msgs[1..], k - 1, d);
      assert queue + [msgs[0].p] + Delivered(msgs[1..][..k - 1]) == queue + Delivered(msgs[..k]);
    }
  }

  /** The packets a deadline writes, before AtDeadline. */
  function Waiting(o: Out): seq<MsgOut> {
    if Aborts(o) then Clamped(o.outgoing, o.prev, o.next)
    else Clamped(o.outgoing, o.prev, o.next) + Packets(o.upcoming[..Due(o.upcoming, o.next)])
  }

  function UpTo<T>(xs: seq<T>, n: nat): seq<T> { if |xs| <= n then xs else xs[..n] }

  /** The time itself, or that of the last message if it is later. */
  function NotBefore(now: nat, ms: seq<OutputMsg>): (t: nat)
    ensures now <= t && (t == now || (ms != [] && t == ms[|ms| - 1].sendTime)) && (ms != [] ==> ms[|ms| - 1].sendTime <= t)
  {
    if ms != [] && ms[|ms| - 1].sendTime > now then ms[|ms| - 1].sendTime else now
  }

  lemma CutBoth<T>(a: seq<T>, b: seq<T>, n: nat)
    ensures UpTo(a + b, n) == if n < |a| then a[..n] else a + UpTo(b, n - |a|)
  {}

  lemma PacketsCut(ms: seq<OutputMsg>, due: nat, n: nat)
    requires due <= |ms|
    ensures UpTo(Packets(ms[..due]), n) == Packets(ms[..if due <= n then due else n])
  {}

  /** What is written of the waiting packets when `allowed` writes succeed, queue by queue. */
  lemma WaitingCut(o: Out, allowed: nat)
    ensures var a, due := Clamped(o.outgoing, o.prev, o.next), Due(o.upcoming, o.next);
      if Aborts(o) || |a| > allowed
      then UpTo(Waiting(o), allowed) == a[..if |a| <= allowed then |a| else allowed] && (Aborts(o) || |Waiting(o)| > allowed)
      else |Waiting(o)| == |a| + due
           && UpTo(Waiting(o), allowed) == a + Packets(o.upcoming[..if due <= allowed - |a| then due else allowed - |a|])
  {
    var a, due := Clamped(o.outgoing, o.prev, o.next), Due(o.upcoming, o.next);
    CutBoth(a, Packets(o.upcoming[..due]), allowed);
    if |a| <= allowed {
      assert a[..|a|] == a;
      PacketsCut(o.upcoming, due, allowed - |a|);
    }
  }

  lemma SuffixOk(o: Out, o': Out, k: nat)
    requires QueueOk(o) && k <= |o.upcoming| && o'.upcoming == o.upcoming[k..] && o'.prev == o.prev && o'.next == o.next
    ensures QueueOk(o')
  {}

  class Context {
    const address: nat
    const numBuffers: nat
    const kvm: bool
    var started: bool
    var prevDeadline: nat
    var nextDeadline: nat
    var outgoing: seq<OutputMsg>
    var upcoming: seq<OutputMsg>
    var inputQueue: seq<Packet>
    var held: nat             // packets popped from the queue whose buffer is not dropped yet
    var sent: seq<MsgOut>     // written to the coordinator
    var notified: nat         // calls of `recv_callback`
    var announced: seq<nat>   // arguments of `deadline_callback`

    /** Buffers never exceed the pools, and the input queue is as large as its pool. */
    ghost predicate Valid()
      reads this
    {
      && |outgoing| + |upcoming| <= numBuffers
      && |inputQueue| + held <= numBuffers
      && QueueOk(View())
      && (!started ==> nextDeadline == 0)
    }

    function View(): Out
      reads this
    {
      Out(prevDeadline, nextDeadline, outgoing, upcoming)
    }

    constructor (address: nat, numBuffers: nat, kvm: bool)
      ensures Valid() && this.address == address && this.numBuffers == numBuffers && this.kvm == kvm
      ensures View() == Out(0, 0, [], []) && inputQueue == [] && held == 0 && sent == [] && notified == 0 && announced == []
      ensures !started
    {
      this.address, this.numBuffers, this.kvm, started := address, numBuffers, kvm, false;
      prevDeadline, nextDeadline, outgoing, upcoming := 0, 0, [], [];
      inputQueue, held, sent, notified, announced := [], 0, [], 0, [];
    }

    /** `start`: the first message must be a deadline. */
    method Start(incoming: seq<MsgIn>) returns (r: Result<nat, Error>, rest: seq<MsgIn>)
      requires Valid()
      modifies this`started, this`prevDeadline, this`nextDeadline, this`announced
      ensures Valid() && started
      ensures r.Ok? <==> !old(started) && incoming != [] && |inputQueue| + held < numBuffers
                         && incoming[0].GoToDeadline? && Decode(incoming[0].time).Ok?
      ensures r.Ok? ==> Decode(incoming[0].time) == Ok(r.value) && rest == incoming[1..]
                        && View() == NextSlot(old(View()), r.value) && announced == old(announced) + [r.value]
      ensures r.Ok? ==> prevDeadline == old(nextDeadline) && nextDeadline == r.value
      ensures r.Err? ==> View() == old(View()) && announced == old(announced)
    {
      rest := incoming;
      if started { return Err(AlreadyStarted), rest; }
      started := true;
      if incoming == [] || |inputQueue| + held >= numBuffers { return Err(IoFailure), rest; }
      rest := incoming[1..];
      match incoming[0]
      case GoToDeadline(time) =>
        match Decode(time) {
          case Ok(deadline) =>
            announced := announced + [deadline];
            prevDeadline, nextDeadline := nextDeadline, deadline;
            return Ok(deadline), rest;
          case Err(_) => return Err(IoFailure), rest;
        }
      case _ => return Err(ProtocolViolation), rest;
    }

    /** `send`, with the simulated time `now` already read. */
    method Send(now: nat, dst: nat, msg: seq<Byte>) returns (r: Result<(), Error>)
      requires Valid()
      modifies this`outgoing, this`upcoming
      ensures Valid()
      ensures r == if |msg| > MAX_PACKET_SIZE then Err(SizeTooBig)
                   else if old(|outgoing| + |upcoming|) == numBuffers then Err(NoMemoryAvailable)
                   else Ok(())
      ensures View() == if r.Ok? then Enqueue(old(View()), OutputMsg(address, dst, now, msg), kvm) else old(View())
      ensures r.Ok? && !(kvm && now > nextDeadline) ==>
        outgoing == old(outgoing) + [OutputMsg(address, dst, now, msg)] && upcoming == old(upcoming)
      ensures r.Ok? && kvm && now > nextDeadline ==>
        && outgoing == old(outgoing)
        && upcoming == old(upcoming) + [OutputMsg(address, dst, NotBefore(now, old(upcoming)), msg)]
    {
      if |msg| > MAX_PACKET_SIZE { return Err(SizeTooBig); }
      if |outgoing| + |upcoming| == numBuffers { return Err(NoMemoryAvailable); }
      var overrun := if kvm then CheckDeadlineOverrun(View(), now) else None;
      EnqueueKeepsQueue(View(), OutputMsg(address, dst, now, msg), kvm);
      match overrun {
        case Some(sendTime) => upcoming := upcoming + [OutputMsg(address, dst, sendTime, msg)];
        case None => outgoing := outgoing + [OutputMsg(address, dst, now, msg)];
      }
      return Ok(());
    }

    /** `recv`: a packet too large for the caller's buffer is lost. */
    method Recv(room: nat) returns (r: Result<Packet, Error>)
      requires Valid()
      modifies this`inputQueue
      ensures Valid()
      ensures old(inputQueue) == [] ==> r == Err(NoMessageAvailable) && inputQueue == []
      ensures old(inputQueue) != [] ==>
        && inputQueue == old(inputQueue)[1..]
        && r == if room >= |old(inputQueue)[0].payload| then Ok(old(inputQueue)[0]) else Err(SizeTooBig)
    {
      if inputQueue == [] { return Err(NoMessageAvailable); }
      var p := inputQueue[0];
      inputQueue := inputQueue[1..];
      if room >= |p.payload| { return Ok(p); } else { return Err(SizeTooBig); }
    }

    /** `handle_actor_msg`: the message already has its buffer, so the push finds room. */
    method HandleActorMsg(msg: MsgIn, deadline: Result<nat, DecodeError>) returns (r: Option<AfterDeadline>)
      requires Valid() && |inputQueue| + held < numBuffers
      requires msg.GoToDeadline? ==> deadline == Decode(msg.time) && deadline.Ok?
      modifies this`inputQueue
      ensures Valid()
      ensures match msg
        case DeliverPacket(p) => r == None && inputQueue == old(inputQueue) + [p]
        case GoToDeadline(time) => r == Some(NextDeadline(deadline.value)) && inputQueue == old(inputQueue)
        case EndSimulation => r == Some(Over) && inputQueue == old(inputQueue)
    {
      match msg
      case DeliverPacket(p) =>
        if |inputQueue| < numBuffers { inputQueue := inputQueue + [p]; }
        return None;
      case GoToDeadline(_) => return Some(NextDeadline(deadline.value));
      case EndSimulation => return Some(Over);
    }

    /** The drain loop of `at_deadline`: `allowed` writes succeed before one fails. */
    method SendDrained(allowed: nat) returns (ok: bool)
      requires Valid()
      modifies this`outgoing, this`sent
      ensures var all := Clamped(old(outgoing), prevDeadline, nextDeadline);
        && ok == (!Aborts(old(View())) && |all| <= allowed)
        && sent == old(sent) + all[..if |all| <= allowed then |all| else allowed]
        && |outgoing| <= |old(outgoing)| && (ok ==> outgoing == [])
    {
      var messages := outgoing;
      AbortsIffOverrun(View());
      ClampedLength(messages, prevDeadline, nextDeadline);
      ghost var all := Clamped(messages, prevDeadline, nextDeadline);
      var i := 0;
      while i < |messages|
        invariant i <= |messages| && i <= allowed && i <= |all|
        invariant outgoing == messages[i..]
        invariant sent == old(sent) + all[..i]
        invariant all[i..] == Clamped(messages[i..], prevDeadline, nextDeadline)
      {
        var m := messages[i];
        outgoing := messages[i + 1..];
        if m.sendTime >= prevDeadline && m.sendTime > nextDeadline {
          assert Late(messages[i], prevDeadline, nextDeadline);
          return false;
        }
        if i == allowed { return false; }
        assert messages[i..][1..] == messages[i + 1..] && all[i..][1..] == all[i + 1..];
        sent := sent + [SendPacket(Clamp(m, prevDeadline))];
        i := i + 1;
      }
      return true;
    }

    /** The loop over the overrun queue. */
    method SendUpcoming(allowed: nat) returns (ok: bool)
      requires Valid()
      modifies this`upcoming, this`sent
      ensures var due := Due(old(upcoming), nextDeadline);
        && ok == (due <= allowed)
        && sent == old(sent) + Packets(old(upcoming)[..if ok then due else allowed])
        && upcoming == old(upcoming)[if ok then due else allowed + 1..]
    {
      ghost var due := Due(upcoming, nextDeadline);
      var i := 0;
      while upcoming != [] && upcoming[0].sendTime <= nextDeadline
        invariant i <= allowed && i <= due <= |old(upcoming)|
        invariant upcoming == old(upcoming)[i..]
        invariant due == i + Due(upcoming, nextDeadline)
        invariant sent == old(sent) + Packets(old(upcoming)[..i])
        decreases |upcoming|
      {
        var message := upcoming[0];
        upcoming := upcoming[1..];
        if i == allowed { return false; }
        sent := sent + [SendPacket(message)];
        assert Packets(old(upcoming)[..i]) + [SendPacket(message)] == Packets(old(upcoming)[..i + 1]);
        i := i + 1;
      }
      return true;
    }

    /** Both loops: the packets of the slot, then the overrun queue. */
    method SendQueues(allowed: nat) returns (ok: bool)
      requires Valid()
      modifies this`outgoing, this`upcoming, this`sent
      ensures Valid() && ok == (!Aborts(old(View())) && |Waiting(old(View()))| <= allowed)
      ensures sent == old(sent) + UpTo(Waiting(old(View())), allowed)
      ensures ok ==> View() == Flushed(old(View()))
    {
      ghost var o, sent0 := View(), sent;
      var before := |sent|;
      ok := SendDrained(allowed);
      WaitingCut(o, allowed);
      if !ok { return; }
      ghost var a := Clamped(o.outgoing, o.prev, o.next);
      assert sent == sent0 + a by { assert a[..|a|] == a; }
      var left := allowed - (|sent| - before);
      ok := SendUpcoming(left);
      SuffixOk(o, View(), |o.upcoming| - |upcoming|);
      Associates(sent0, a, Packets(o.upcoming[..if ok then Due(o.upcoming, o.next) else left]));
    }

    /** The write side of `at_deadline`: all packets of the slot, then AtDeadline. */
    method FlushSlot(allowed: nat) returns (ok: bool)
      requires Valid()
      modifies this`outgoing, this`upcoming, this`sent
      ensures Valid()
      ensures ok == (!Aborts(old(View())) && |Sends(old(View()))| <= allowed)
      ensures sent == old(sent) + UpTo(Sends(old(View())), allowed)
      ensures ok ==> View() == Flushed(old(View()))
    {
      ghost var o := View();
      var before := |sent|;
      ok := SendQueues(allowed);
      CutBoth(Waiting(o), [MsgOut.AtDeadline], allowed);
      if !ok { return; }
      if |sent| - before == allowed { return false; }
      sent := sent + [MsgOut.AtDeadline];
    }

    /** The receive loop: `connector.recv` fails on a closed socket, an empty pool or a bad date. */
    method ReceiveAll(incoming: seq<MsgIn>) returns (after: AfterDeadline, rest: seq<MsgIn>)
      requires Valid()
      modifies this`inputQueue
      ensures Valid()
      ensures Intake(inputQueue, after, rest) == TakeIn(old(inputQueue), held, numBuffers, incoming)
    {
      rest := incoming;
      while true
        invariant Valid()
        invariant TakeIn(inputQueue, held, numBuffers, rest) == TakeIn(old(inputQueue), held, numBuffers, incoming)
        decreases |rest|
      {
        if rest == [] || |inputQueue| + held >= numBuffers { return Over, rest; }
        var msg := rest[0];
        var deadline := if msg.GoToDeadline? then Decode(msg.time) else Ok(0);
        if deadline.Err? { return Over, rest[1..]; }
        var r := HandleActorMsg(msg, deadline);
        rest := rest[1..];
        if r.Some? { return r.value, rest; }
      }
    }

    /**
     `at_deadline`: flush the slot, say AtDeadline, take in the packets of others and the next deadline.
     Of the writes, `allowed` succeed before one fails.
     */
    method AtDeadline(allowed: nat, incoming: seq<MsgIn>) returns (after: AfterDeadline, rest: seq<MsgIn>)
      requires Valid()
      modifies this`outgoing, this`upcoming, this`sent, this`inputQueue, this`notified, this`announced
      ensures Valid()
      ensures sent == old(sent) + UpTo(Sends(old(View())), allowed)
      ensures if !Aborts(old(View())) && |Sends(old(View()))| <= allowed then
        && View() == Flushed(old(View()))
        && Intake(inputQueue, after, rest) == TakeIn(old(inputQueue), held, numBuffers, incoming)
        && notified == old(notified) + (if old(inputQueue) == [] && inputQueue != [] then 1 else 0)
        && announced == old(announced) + (if after.NextDeadline? then [after.deadline] else [])
      else
        after == Over && rest == incoming && inputQueue == old(inputQueue)
        && notified == old(notified) && announced == old(announced)
    {
      var ok := FlushSlot(allowed);
      if !ok { return Over, incoming; }
      var mayNotify := inputQueue == [];
      after, rest := ReceiveAll(incoming);
      if mayNotify && inputQueue != [] { notified := notified + 1; }
      if after.NextDeadline? { announced := announced + [after.deadline]; }
    }
  }
}
