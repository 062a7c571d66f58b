/**
 No packet is lost, repeated or made up between the application that sends it and the coordinator.  The
 deadline may move a packet's timestamp, so packets are followed by sender, destination and payload.
 */
module LockStepLetters {
  import opened Basics
  import opened WireTime
  import opened Coordinator
  import opened CoordinatorTheorems
  import opened LockStep
  import opened LockStepTheorems
  import O = OutputSide
  import V = VmsInterface

  datatype Letter = Letter(src: nat, dst: nat, payload: seq<Byte>)

  function One(m: OutputMsg, x: Letter): nat { if Letter(m.src, m.dst, m.payload) == x then 1 else 0 }

  function Count(ms: seq<OutputMsg>, x: Letter): nat {
    if ms == [] then 0 else Count(ms[..|ms| - 1], x) + One(ms[|ms| - 1], x)
  }

  function OneUp(f: V.Up, x: Letter): nat { if f.SendPacket? then One(f.m, x) else 0 }

  function CountUp(frames: seq<V.Up>, x: Letter): nat {
    if frames == [] then 0 else CountUp(frames[..|frames| - 1], x) + OneUp(frames[|frames| - 1], x)
  }

  // ---------------------------------------------------------------- counting

  lemma {:induction false} CountSplit(a: seq<OutputMsg>, b: seq<OutputMsg>, x: Letter)
    ensures Count(a + b, x) == Count(a, x) + Count(b, x)
  {
    if b == [] {
      assert a + b == a;
    } else {
      CountSplit(a, b[..|b| - 1], x);
      assert (a + b)[..|a + b| - 1] == a + b[..|b| - 1];
    }
  }

  lemma {:induction false} CountUpSplit(a: seq<V.Up>, b: seq<V.Up>, x: Letter)
    ensures CountUp(a + b, x) == CountUp(a, x) + CountUp(b, x)
  {
    if b == [] {
      assert a + b == a;
    } else {
      CountUpSplit(a, b[..|b| - 1], x);
      assert (a + b)[..|a + b| - 1] == a + b[..|b| - 1];
    }
  }

  lemma CountMore(ms: seq<OutputMsg>, m: OutputMsg, x: Letter)
    ensures Count(ms + [m], x) == Count(ms, x) + One(m, x)
  {
    assert (ms + [m])[..|ms|] == ms;
  }

  lemma CountUpFirst(frames: seq<V.Up>, x: Letter)
    requires frames != []
    ensures CountUp(frames, x) == OneUp(frames[0], x) + CountUp(frames[1..], x)
  {
    CountUpSplit([frames[0]], frames[1..], x);
    assert [frames[0]] + frames[1..] == frames && [frames[0]][..0] == [];
  }

  lemma CountWithout(b: seq<OutputMsg>, j: nat, x: Letter)
    requires j < |b|
    ensures Count(b, x) == Count(b[..j] + b[j + 1..], x) + One(b[j], x)
  {
    assert b == b[..j] + ([b[j]] + b[j + 1..]) && [b[j]][..0] == [];
    CountSplit(b[..j], [b[j]] + b[j + 1..], x);
    CountSplit([b[j]], b[j + 1..], x);
    CountSplit(b[..j], b[j + 1..], x);
  }

  lemma MultisetWithout(b: seq<OutputMsg>, j: nat)
    requires j < |b|
    ensures multiset(b[..j] + b[j + 1..]) == multiset(b) - multiset{b[j]}
  {
    assert b == b[..j] + [b[j]] + b[j + 1..];
  }

  /** Sorting does not change the count. */
  lemma {:induction false} CountPermuted(a: seq<OutputMsg>, b: seq<OutputMsg>, x: Letter)
    requires multiset(a) == multiset(b)
    ensures Count(a, x) == Count(b, x)
    decreases |a|
  {
    if a == [] {
      assert |b| == |multiset(b)| == 0;
    } else {
      var n := |a| - 1;
      assert a[..n] + a[n + 1..] == a[..n] && a[n] in multiset(a);
      MultisetWithout(a, n);
      var j :| 0 <= j < |b| && b[j] == a[n];
      MultisetWithout(b, j);
      CountPermuted(a[..n], b[..j] + b[j + 1..], x);
      CountWithout(b, j, x);
    }
  }

  // ---------------------------------------------------------------- what a deadline writes

  function Waiting(o: O.Out, x: Letter): nat { Count(o.outgoing, x) + Count(o.upcoming, x) }

  function OneOut(f: O.MsgOut, x: Letter): nat { if f.SendPacket? then One(f.m, x) else 0 }

  function CountOut(w: seq<O.MsgOut>, x: Letter): nat {
    if w == [] then 0 else CountOut(w[..|w| - 1], x) + OneOut(w[|w| - 1], x)
  }

  /** What is written is what the coordinator can read. */
  lemma {:induction false} ToUpCount(w: seq<O.MsgOut>, x: Letter)
    ensures CountUp(ToUp(w), x) == CountOut(w, x)
  {
    if w != [] {
      ToUpCount(w[..|w| - 1], x);
      assert ToUp(w)[..|w| - 1] == ToUp(w[..|w| - 1]);
    }
  }

  lemma OneMoreOut(w: seq<O.MsgOut>, k: nat, x: Letter)
    requires k < |w|
    ensures CountOut(w[..k + 1], x) == CountOut(w[..k], x) + OneOut(w[k], x)
  {
    assert w[..k + 1][..k] == w[..k];
  }

  /** The first k writes carry the first k packets drained. */
  lemma {:induction false} WritesDrained(w: seq<O.MsgOut>, ms: seq<OutputMsg>, prev: nat, k: nat, x: Letter)
    requires k <= |w| && k <= |ms| && forall i :: 0 <= i < k ==> O.Carries(w[i], ms[i], prev)
    ensures CountOut(w[..k], x) == Count(ms[..k], x)
  {
    if k > 0 {
      WritesDrained(w, ms, prev, k - 1, x);
      OneMoreOut(w, k - 1, x);
      assert ms[..k][..k - 1] == ms[..k - 1];
    }
  }

  /** The k writes after the first n carry the first k packets of the overrun queue. */
  lemma {:induction false} WritesQueued(w: seq<O.MsgOut>, n: nat, ms: seq<OutputMsg>, k: nat, x: Letter)
    requires n + k <= |w| && k <= |ms| && forall i :: 0 <= i < k ==> w[n + i] == O.SendPacket(ms[i])
    ensures CountOut(w[..n + k], x) == CountOut(w[..n], x) + Count(ms[..k], x)
  {
    if k > 0 {
      WritesQueued(w, n, ms, k - 1, x);
      OneMoreOut(w, n + k - 1, x);
      assert ms[..k][..k - 1] == ms[..k - 1];
    }
  }

  lemma {:induction false} CountPrefix(ms: seq<OutputMsg>, k: nat, x: Letter)
    requires k <= |ms|
    ensures Count(ms, x) == Count(ms[..k], x) + Count(ms[k..], x)
  {
    assert ms == ms[..k] + ms[k..];
    CountSplit(ms[..k], ms[k..], x);
  }

  /** w begins with the packets in ms, then has those of the queue up to `due`, then nothing more that counts. */
  ghost predicate Writes(w: seq<O.MsgOut>, ms: seq<OutputMsg>, prev: nat, n: nat, queue: seq<OutputMsg>, due: nat) {
    && n <= |ms| && n <= |w| && due <= |queue| && (forall i :: 0 <= i < n ==> O.Carries(w[i], ms[i], prev))
    && (n < |ms| ==> |w| == n)
    && (n == |ms| ==> |w| == n + due + 1 && w[n + due] == O.AtDeadline && forall i :: 0 <= i < due ==> w[n + i] == O.SendPacket(queue[i]))
  }

  lemma DrainedAtMost(w: seq<O.MsgOut>, ms: seq<OutputMsg>, prev: nat, k: nat, x: Letter)
    requires k <= |w| && k <= |ms| && forall i :: 0 <= i < k ==> O.Carries(w[i], ms[i], prev)
    ensures CountOut(w[..k], x) <= Count(ms, x) && (k == |ms| ==> CountOut(w[..k], x) == Count(ms, x))
  {
    WritesDrained(w, ms, prev, k, x);
    CountPrefix(ms, k, x);
    if k == |ms| { assert ms[..k] == ms; }
  }

  /** The first k writes carry no more than was waiting. */
  lemma WritesAtMost(w: seq<O.MsgOut>, ms: seq<OutputMsg>, prev: nat, n: nat, queue: seq<OutputMsg>, due: nat, k: nat, x: Letter)
    requires Writes(w, ms, prev, n, queue, due) && k <= |w|
    ensures CountOut(w[..k], x) <= Count(ms, x) + Count(queue, x)
  {
    if k <= n {
      DrainedAtMost(w, ms, prev, k, x);
    } else {
      DrainedAtMost(w, ms, prev, n, x);
      QueuedAtMost(w, n, queue, due, k, x);
    }
  }

  lemma QueuedAtMost(w: seq<O.MsgOut>, n: nat, queue: seq<OutputMsg>, due: nat, k: nat, x: Letter)
    requires |w| == n + due + 1 && due <= |queue| && w[n + due] == O.AtDeadline && n <= k <= |w|
    requires forall i :: 0 <= i < due ==> w[n + i] == O.SendPacket(queue[i])
    ensures CountOut(w[..k], x) <= CountOut(w[..n], x) + Count(queue, x)
  {
    var b := if k <= n + due then k - n else due;
    WritesQueued(w, n, queue, b, x);
    CountPrefix(queue, b, x);
    if k > n + due { OneMoreOut(w, n + due, x); }
  }

  /** All of them carry what was drained and what was due. */
  lemma WritesEverything(w: seq<O.MsgOut>, ms: seq<OutputMsg>, prev: nat, queue: seq<OutputMsg>, due: nat, x: Letter)
    requires Writes(w, ms, prev, |ms|, queue, due)
    ensures CountOut(w, x) + Count(queue[due..], x) == Count(ms, x) + Count(queue, x)
  {
    DrainedAtMost(w, ms, prev, |ms|, x);
    QueuedExactly(w, |ms|, queue, due, x);
    CountPrefix(queue, due, x);
  }

  lemma QueuedExactly(w: seq<O.MsgOut>, n: nat, queue: seq<OutputMsg>, due: nat, x: Letter)
    requires |w| == n + due + 1 && due <= |queue| && w[n + due] == O.AtDeadline
    requires forall i :: 0 <= i < due ==> w[n + i] == O.SendPacket(queue[i])
    ensures CountOut(w, x) == CountOut(w[..n], x) + Count(queue[..due], x)
  {
    WritesQueued(w, n, queue, due, x);
    assert w[..|w| - 1] == w[..n + due];
  }

  lemma SendsWrites(o: O.Out) returns (n: nat, due: nat)
    ensures Writes(O.Sends(o), o.outgoing, o.prev, n, o.upcoming, due)
    ensures O.Flushed(o) == O.Out(o.prev, o.next, [], o.upcoming[due..]) && (!O.Aborts(o) ==> n == |o.outgoing|)
  {
    n, due := O.SendsAre(o);
    if n < |o.outgoing| { assert O.Late(o.outgoing[n], o.prev, o.next); }
  }

  /** A deadline writes no more than was waiting; one that succeeds moves exactly what it takes from the queues. */
  lemma FlushCounts(o: O.Out, k: nat, x: Letter)
    requires k <= |O.Sends(o)|
    ensures CountUp(ToUp(O.Sends(o)[..k]), x) <= Waiting(o, x)
    ensures !O.Aborts(o) ==> CountUp(ToUp(O.Sends(o)), x) + Waiting(O.Flushed(o), x) == Waiting(o, x)
  {
    var n, due := SendsWrites(o);
    ToUpCount(O.Sends(o)[..k], x);
    ToUpCount(O.Sends(o), x);
    WritesAtMost(O.Sends(o), o.outgoing, o.prev, n, o.upcoming, due, k, x);
    if !O.Aborts(o) { WritesEverything(O.Sends(o), o.outgoing, o.prev, o.upcoming, due, x); }
  }

  // ---------------------------------------------------------------- the balance

  function Collected(s: State, x: Letter): nat { if s.stage.Collecting? then Count(s.stage.got, x) else 0 }

  /** On the way from x's sender to the coordinator's list, outside the sender. */
  function Underway(s: State, x: Letter): nat
    requires x.src in s.up
  {
    CountUp(s.up[x.src], x) + Collected(s, x)
  }

  /**
   `sent` letters x were sent and `taken` were taken over by the simulator: of a living sender all others are
   in its queues, in its socket or collected, and of any sender there are no more than it sent.
   */
  ghost predicate Balance(s: State, x: Letter, sent: nat, taken: nat) {
    && x.src in s.clients && x.src in s.up
    && Underway(s, x) + taken <= sent
    && (Living(s.clients[x.src]) ==> Waiting(s.clients[x.src].out, x) + Underway(s, x) + taken == sent)
  }

  /** However many writes succeed, what reaches the socket is a prefix of what the deadline writes, frame by frame. */
  lemma FlushWrites(s: State, v: nat, allowed: nat, i: nat)
    requires v in s.clients && v in s.up
    ensures var w, up := O.Sends(s.clients[v].out), DoFlush(s, v, allowed).up;
      && v in up && s.up[v] <= up[v] && |up[v]| == |s.up[v]| + (if |w| <= allowed then |w| else allowed)
      && (|s.up[v]| + i < |up[v]| ==> up[v][|s.up[v]| + i] == if w[i].SendPacket? then V.SendPacket(w[i].m) else V.AtDeadline)
  {}

  lemma SendBalance(s: State, v: nat, m: OutputMsg, queued: bool, x: Letter, sent: nat, taken: nat)
    requires v in s.clients && m.src == v && Living(s.clients[v]) && Balance(s, x, sent, taken)
    ensures Balance(DoSend(s, v, m, queued), x, sent + One(m, x), taken)
  {
    if x.src == v {
      CountMore(s.clients[v].out.outgoing, m, x);
      CountMore(s.clients[v].out.upcoming, m, x);
    }
  }

  lemma FlushBalance(s: State, v: nat, allowed: nat, x: Letter, sent: nat, taken: nat)
    requires v in s.clients && v in s.up && s.clients[v].phase == Running && Balance(s, x, sent, taken)
    ensures Balance(DoFlush(s, v, allowed), x, sent, taken)
  {
    if x.src == v {
      var all := O.Sends(s.clients[v].out);
      var k := if |all| <= allowed then |all| else allowed;
      CountUpSplit(s.up[v], ToUp(all[..k]), x);
      FlushCounts(s.clients[v].out, k, x);
      if |all| <= allowed { assert all[..k] == all; }
    }
  }

  lemma CollectBalance(s: State, v: nat, x: Letter, sent: nat, taken: nat)
    requires s.stage.Collecting? && v in s.clients && v in s.up && s.up[v] != [] && SocketOk(s, v) && Balance(s, x, sent, taken)
    ensures Balance(DoCollect(s, v), x, sent, taken)
  {
    if x.src == v {
      OwnCollected(s, v, x);
    } else {
      FirstIsOwn(s.up[v], v, NsAt(s.gotos, |s.gotos| - 1), NsAt(s.gotos, |s.gotos|));
      OtherCollected(s, v, x);
    }
  }

  lemma FirstIsOwn(frames: seq<V.Up>, v: nat, lo: int, hi: int)
    requires UpOk(frames, v, lo, hi) && frames != []
    ensures frames[0].SendPacket? ==> frames[0].m.src == v
  {}

  /** What one frame adds to the list. */
  function Added(got: seq<OutputMsg>, f: V.Up): seq<OutputMsg> { if f.SendPacket? then got + [f.m] else got }

  lemma CountAdded(got: seq<OutputMsg>, f: V.Up, x: Letter)
    ensures Count(Added(got, f), x) == Count(got, x) + OneUp(f, x)
  {
    if f.SendPacket? { CountMore(got, f.m, x); }
  }

  lemma CollectIs(s: State, v: nat, w: nat)
    requires s.stage.Collecting? && v in s.up && s.up[v] != [] && w in s.up
    ensures var s' := DoCollect(s, v);
      && s'.stage.Collecting? && s'.stage.got == Added(s.stage.got, s.up[v][0]) && s'.clients == s.clients
      && w in s'.up && s'.up[w] == if w == v then s.up[v][1..] else s.up[w]
  {}

  lemma OwnCollected(s: State, v: nat, x: Letter)
    requires s.stage.Collecting? && v in s.up && s.up[v] != [] && x.src == v
    ensures x.src in DoCollect(s, v).up && Underway(DoCollect(s, v), x) == Underway(s, x)
  {
    CollectIs(s, v, v);
    CountUpFirst(s.up[v], x);
    CountAdded(s.stage.got, s.up[v][0], x);
  }

  lemma OtherCollected(s: State, v: nat, x: Letter)
    requires s.stage.Collecting? && v in s.up && s.up[v] != [] && x.src in s.up && x.src != v
    requires s.up[v][0].SendPacket? ==> s.up[v][0].m.src == v
    ensures x.src in DoCollect(s, v).up && Underway(DoCollect(s, v), x) == Underway(s, x)
  {
    CollectIs(s, v, x.src);
    CountAdded(s.stage.got, s.up[v][0], x);
  }

  lemma EndBalance(p: Platform, s: State, ms: seq<OutputMsg>, ends: seq<Instant>, outs: seq<OutputMsg>, x: Letter, sent: nat, taken: nat)
    requires s.stage.Collecting? && EndOk(p, s, ms, ends, outs) && Balance(s, x, sent, taken)
    ensures Balance(DoEnd(p, s, ms, ends, outs), x, sent, taken + Count(ms, x))
  {
    CountPermuted(ms, s.stage.got, x);
  }

  /** Nothing that counts changes, and no client comes back to life. */
  lemma SameBalance(s: State, s': State, x: Letter, sent: nat, taken: nat)
    requires Balance(s, x, sent, taken) && x.src in s'.clients && x.src in s'.up && s'.up[x.src] == s.up[x.src] && Collected(s', x) == Collected(s, x)
    requires var c, c' := s.clients[x.src], s'.clients[x.src];
      c'.out.outgoing == c.out.outgoing && c'.out.upcoming == c.out.upcoming && (Living(c') ==> Living(c))
    ensures Balance(s', x, sent, taken)
  {}

  lemma HearKeepsQueues(s: State, v: nat, room: bool, w: nat)
    requires v in s.clients && v in s.down && s.down[v] != [] && Living(s.clients[v]) && w in s.clients
    ensures var s' := DoHear(s, v, room);
      && s'.up == s.up && s'.stage == s.stage && w in s'.clients
      && s'.clients[w].out.outgoing == s.clients[w].out.outgoing && s'.clients[w].out.upcoming == s.clients[w].out.upcoming
      && (Living(s'.clients[w]) ==> Living(s.clients[w]))
  {}

  lemma HearBalance(s: State, v: nat, room: bool, x: Letter, sent: nat, taken: nat)
    requires v in s.clients && v in s.down && s.down[v] != [] && Living(s.clients[v]) && Balance(s, x, sent, taken)
    ensures Balance(DoHear(s, v, room), x, sent, taken)
  {
    HearKeepsQueues(s, v, room, x.src);
    SameBalance(s, DoHear(s, v, room), x, sent, taken);
  }

  /** The packet an application sends at this step, and the letters the simulator takes over. */
  function Sent(a: Step, x: Letter): nat { if a.Send? then One(a.m, x) else 0 }

  function Taken(a: Step, x: Letter): nat { if a.End? then Count(a.ms, x) else 0 }

  lemma OtherBalance(p: Platform, s: State, a: Step, x: Letter, sent: nat, taken: nat)
    requires Enabled(p, s, a) && (a.Begin? || a.Visit? || a.Lose? || a.Abort? || a.Die?) && Balance(s, x, sent, taken)
    ensures Balance(Do(p, s, a), x, sent, taken)
  {}

  lemma StepBalance(p: Platform, s: State, a: Step, x: Letter, sent: nat, taken: nat)
    requires AllEach(s) && Enabled(p, s, a) && Balance(s, x, sent, taken)
    ensures Balance(Do(p, s, a), x, sent + Sent(a, x), taken + Taken(a, x))
  {
    match a
    case Send(v, m, queued, _) => SendBalance(s, v, m, queued, x, sent, taken);
    case Flush(v, allowed) => FlushBalance(s, v, allowed, x, sent, taken);
    case Collect(v) => assert Each(s, v); CollectBalance(s, v, x, sent, taken);
    case End(ms, ends, outs) => EndBalance(p, s, ms, ends, outs, x, sent, taken);
    case Hear(v, room) => HearBalance(s, v, room, x, sent, taken);
    case _ => OtherBalance(p, s, a, x, sent, taken);
  }

  function SentBy(acts: seq<Step>, i: nat, x: Letter): nat
    requires i <= |acts|
  {
    if i == 0 then 0 else SentBy(acts, i - 1, x) + Sent(acts[i - 1], x)
  }

  function TakenBy(acts: seq<Step>, i: nat, x: Letter): nat
    requires i <= |acts|
  {
    if i == 0 then 0 else TakenBy(acts, i - 1, x) + Taken(acts[i - 1], x)
  }

  lemma RunBalance(p: Platform, run: seq<State>, acts: seq<Step>, k: nat, x: Letter)
    requires IsRun(p, run, acts) && k < |acts| && Balance(run[k], x, SentBy(acts, k, x), TakenBy(acts, k, x))
    ensures Balance(run[k + 1], x, SentBy(acts, k + 1, x), TakenBy(acts, k + 1, x))
  {
    RunGood(p, run, acts, k);
    StepBalance(p, run[k], acts[k], x, SentBy(acts, k, x), TakenBy(acts, k, x));
  }

  /**
   In every run, for every sender, destination and payload: what the simulator took over, was collected or is
   in the socket was sent; and of a living VM everything it sent is there or in its queues, once each.
   */
  lemma LettersConserved(p: Platform, run: seq<State>, acts: seq<Step>, i: nat, x: Letter)
    requires IsRun(p, run, acts) && i < |run| && x.src in run[0].clients
    ensures Balance(run[i], x, SentBy(acts, i, x), TakenBy(acts, i, x))
  {
    for k := 0 to i
      invariant Balance(run[k], x, SentBy(acts, k, x), TakenBy(acts, k, x))
    {
      RunBalance(p, run, acts, k, x);
    }
  }

  // ---------------------------------------------------------------- the queues of one client

  /** The event of the output side that a step of client v stands for; a push comes with the answer of its check. */
  function EventOf(s: State, a: Step): Option<O.Event> {
    match a
    case Send(_, _, _, _) => Some(O.Push(0))
    case Flush(_, _) => Some(O.Flush)
    case Hear(v, _) => if v in s.down && s.down[v] != [] && s.down[v][0].GotoDeadline? && Decode(s.down[v][0].time).Ok?
      then Some(O.Slot(Decode(s.down[v][0].time).value)) else None
    case _ => None
  }

  /** Client v as the output side sees it, with the sender that is about to push. */
  function OutputOf(s: State, a: Step, v: nat): O.State
    requires v in s.clients
  {
    var c := s.clients[v];
    var sender := if a.Send? then O.Holding(a.m, if a.queued then Some(a.m.sendTime) else None, 0, 0) else O.Idle;
    O.State(c.out, c.phase != Running, [sender], 0, 0)
  }

  /** The queues and deadlines of client v go from s to s' as event e of the output side makes them go. */
  predicate IsEvent(s: State, a: Step, v: nat, e: O.Event, s': State)
    requires v in s.clients && v in s'.clients
  {
    var o := OutputOf(s, a, v);
    O.Enabled(o, e, s.clients[v].kvm) && s'.clients[v].out == O.Do(o, e, s.clients[v].kvm).out
  }

  /**
   What a client does in the whole system is what the output side does on its own: a step that succeeds
   changes its queues and deadlines as the event does.
   */
  lemma ClientIsOutputSide(p: Platform, s: State, a: Step, v: nat)
    requires Good(p, s) && Enabled(p, s, a) && (a.Send? || a.Flush? || a.Hear?) && a.v == v && EventOf(s, a).Some?
    requires v in Do(p, s, a).clients && Living(Do(p, s, a).clients[v])
    ensures v in s.clients && IsEvent(s, a, v, EventOf(s, a).value, Do(p, s, a))
  {
    assert Each(s, v);
    match a {
      case Send(_, _, _, _) => SendIsPush(s, a);
      case Flush(_, _) => FlushIsFlush(s, a);
      case Hear(_, _) => HearIsSlot(s, a);
    }
  }

  lemma SendIsPush(s: State, a: Step)
    requires a.Send? && a.v in s.clients
    ensures IsEvent(s, a, a.v, O.Push(0), DoSend(s, a.v, a.m, a.queued))
  {
  }

  lemma FlushIsFlush(s: State, a: Step)
    requires a.Flush? && a.v in s.clients && a.v in s.up && s.clients[a.v].phase == Running
    requires Living(DoFlush(s, a.v, a.allowed).clients[a.v])
    ensures IsEvent(s, a, a.v, O.Flush, DoFlush(s, a.v, a.allowed))
  {
  }

  lemma HearIsSlot(s: State, a: Step)
    requires a.Hear? && a.v in s.clients && a.v in s.up && a.v in s.down && s.down[a.v] != [] && EventOf(s, a).Some?
    requires Each(s, a.v) && Ordered(s.gotos) && (s.clients[a.v].phase == Boot || s.clients[a.v].phase == Frozen)
    requires Living(DoHear(s, a.v, a.room).clients[a.v])
    ensures IsEvent(s, a, a.v, EventOf(s, a).value, DoHear(s, a.v, a.room))
  {
    AcceptedIffFinite(Last(s.gotos));
    EncodingIsFloor(Last(s.gotos).t);
    HeardTime(s.gotos, |s.gotos|);
  }

  // ---------------------------------------------------------------- one VM after the other

  /** What the coordinator reads at this step. */
  function ReadAt(s: State, a: Step): seq<V.Up> {
    if a.Collect? && a.v in s.up && s.up[a.v] != [] then [s.up[a.v][0]] else []
  }

  function ReadIn(run: seq<State>, acts: seq<Step>, j: nat, i: nat): seq<V.Up>
    requires j <= i <= |acts| && |run| == |acts| + 1
    decreases i
  {
    if i == j then [] else ReadIn(run, acts, j, i - 1) + ReadAt(run[i - 1], acts[i - 1])
  }

  lemma {:induction false} PacketsMore(frames: seq<V.Up>, f: V.Up)
    requires forall k :: 0 <= k < |frames| ==> !frames[k].AtDeadline?
    ensures V.PacketsOf(frames + [f]) == V.PacketsOf(frames) + if f.SendPacket? then [f.m] else []
  {
    if frames == [] {
      assert [] + [f] == [f] && [f][1..] == [];
    } else {
      PacketsMore(frames[1..], f);
      assert (frames + [f])[1..] == frames[1..] + [f];
    }
  }

  /** The coordinator has read `frames` of VM v since it had `got0`. */
  ghost predicate ReadingFrom(s: State, v: nat, got0: seq<OutputMsg>, frames: seq<V.Up>) {
    && s.stage.Collecting? && s.stage.reading == Some(v) && (forall k :: 0 <= k < |frames| ==> !frames[k].AtDeadline?)
    && s.stage.got == got0 + V.PacketsOf(frames)
  }

  /** It is done with v: the last frame was AtDeadline. */
  ghost predicate ReadAll(s: State, got0: seq<OutputMsg>, frames: seq<V.Up>) {
    && s.stage.Collecting? && s.stage.reading.None? && s.stage.got == got0 + V.PacketsOf(frames)
    && frames != [] && frames[|frames| - 1].AtDeadline? && forall k :: 0 <= k < |frames| - 1 ==> !frames[k].AtDeadline?
  }

  lemma CollectReads(s: State, v: nat, got0: seq<OutputMsg>, frames: seq<V.Up>)
    requires v in s.up && s.up[v] != [] && ReadingFrom(s, v, got0, frames)
    ensures var s', fs := DoCollect(s, v), frames + [s.up[v][0]]; if s.up[v][0].AtDeadline? then ReadAll(s', got0, fs) else ReadingFrom(s', v, got0, fs)
  {
    PacketsMore(frames, s.up[v][0]);
  }

  lemma OthersDoNotRead(p: Platform, s: State, a: Step, v: nat, got0: seq<OutputMsg>, frames: seq<V.Up>)
    requires Enabled(p, s, a) && GotOk(s) && ReadingFrom(s, v, got0, frames) && !a.Collect? && !a.Lose?
    ensures ReadingFrom(Do(p, s, a), v, got0, frames) && ReadAt(s, a) == []
  {}

  ghost predicate ReadSoFar(s: State, v: nat, got0: seq<OutputMsg>, frames: seq<V.Up>) {
    ReadingFrom(s, v, got0, frames) || ReadAll(s, got0, frames)
  }

  lemma ReadStep(p: Platform, s: State, a: Step, v: nat, got0: seq<OutputMsg>, frames: seq<V.Up>)
    requires Enabled(p, s, a) && GotOk(s) && ReadSoFar(s, v, got0, frames) && s.stage.Collecting? && s.stage.reading == Some(v) && !a.Lose?
    ensures ReadSoFar(Do(p, s, a), v, got0, frames + ReadAt(s, a))
  {
    if a.Collect? {
      CollectReads(s, v, got0, frames);
    } else {
      OthersDoNotRead(p, s, a, v, got0, frames);
      assert frames + [] == frames;
    }
  }

  ghost predicate Stepped(p: Platform, run: seq<State>, acts: seq<Step>, i: nat) {
    |run| == |acts| + 1 && i < |acts| && GotOk(run[i]) && Enabled(p, run[i], acts[i]) && run[i + 1] == Do(p, run[i], acts[i])
  }

  /** The steps of a run; to be used one at a time. */
  ghost predicate Runs(p: Platform, run: seq<State>, acts: seq<Step>) {
    |run| == |acts| + 1 && forall i: nat {:trigger Stepped(p, run, acts, i)} :: i < |acts| ==> Stepped(p, run, acts, i)
  }

  lemma IsRunOf(p: Platform, run: seq<State>, acts: seq<Step>)
    requires IsRun(p, run, acts)
    ensures Runs(p, run, acts)
  {
    forall i: nat | i < |acts| ensures Stepped(p, run, acts, i) { RunGot(p, run, acts, i); }
  }

  ghost predicate ReadTo(run: seq<State>, acts: seq<Step>, j: nat, k: nat, v: nat, got0: seq<OutputMsg>)
    requires j <= k <= |acts| && |run| == |acts| + 1
  {
    exists frames :: frames == ReadIn(run, acts, j, k) && ReadSoFar(run[k], v, got0, frames)
  }

  lemma ReadOn(p: Platform, run: seq<State>, acts: seq<Step>, j: nat, k: nat, v: nat, got0: seq<OutputMsg>)
    requires Runs(p, run, acts) && j < k < |acts| && run[k].stage.Collecting? && run[k].stage.reading == Some(v) && !acts[k].Lose?
    requires ReadTo(run, acts, j, k, v, got0)
    ensures ReadTo(run, acts, j, k + 1, v, got0)
  {
    assert Stepped(p, run, acts, k);
    ReadStep(p, run[k], acts[k], v, got0, ReadIn(run, acts, j, k));
    assert ReadSoFar(run[k + 1], v, got0, ReadIn(run, acts, j, k + 1));
  }

  lemma ReadStarts(p: Platform, run: seq<State>, acts: seq<Step>, j: nat, v: nat)
    requires Runs(p, run, acts) && j < |acts| && acts[j] == Visit(v)
    ensures run[j].stage.Collecting? && ReadTo(run, acts, j, j + 1, v, run[j].stage.got)
  {
    assert Stepped(p, run, acts, j);
    assert V.PacketsOf([]) == [] && run[j].stage.got + [] == run[j].stage.got;
    assert ReadIn(run, acts, j, j + 1) == ReadIn(run, acts, j, j) + [];
    assert ReadSoFar(run[j + 1], v, run[j].stage.got, ReadIn(run, acts, j, j + 1));
  }

  lemma ReadsOn(p: Platform, run: seq<State>, acts: seq<Step>, j: nat, i: nat, v: nat, got0: seq<OutputMsg>)
    requires Runs(p, run, acts) && j < i < |run| && ReadTo(run, acts, j, j + 1, v, got0)
    requires forall k :: j < k < i ==> run[k].stage.Collecting? && run[k].stage.reading == Some(v)
    requires forall k :: j < k < i ==> !acts[k].Lose?
    ensures ReadTo(run, acts, j, i, v, got0)
  {
    for k := j + 1 to i
      invariant ReadTo(run, acts, j, k, v, got0)
    {
      ReadOn(p, run, acts, j, k, v, got0);
    }
  }

  /**
   In every run, from the moment the coordinator turns to a VM until it reads its AtDeadline, the list of
   collected messages grows by exactly the packets `goTo` takes from the frames read, whatever else happens.
   */
  lemma CollectionIsGoTo(p: Platform, run: seq<State>, acts: seq<Step>, j: nat, i: nat, v: nat)
    requires IsRun(p, run, acts) && j < i < |run| && acts[j] == Visit(v)
    requires forall k :: j < k < i ==> run[k].stage.Collecting? && run[k].stage.reading == Some(v)
    requires forall k :: j < k < i ==> !acts[k].Lose?
    ensures run[j].stage.Collecting? && ReadSoFar(run[i], v, run[j].stage.got, ReadIn(run, acts, j, i))
  {
    IsRunOf(p, run, acts);
    ReadStarts(p, run, acts, j, v);
    ReadsOn(p, run, acts, j, i, v, run[j].stage.got);
  }
}
