/** What every run of the whole system guarantees. */
module LockStepTheorems {
  import opened Basics
  import opened WireTime
  import opened Coordinator
  import opened CoordinatorTheorems
  import opened LockStep
  import O = OutputSide
  import V = VmsInterface

  /** The r-th deadline in nanoseconds, as every client that took it in knows it; 0 before the first. */
  function NsAt(gotos: seq<Instant>, r: nat): int
    requires r <= |gotos|
  {
    if r == 0 || gotos[r - 1].Never? then 0 else FloorNs(gotos[r - 1].t)
  }

  predicate Usable(d: Instant) { d.At? && 0.0 <= d.t < U64 as real }

  function Last<T>(xs: seq<T>): T
    requires xs != []
  {
    xs[|xs| - 1]
  }

  /** What a socket towards the coordinator may hold: packets of the current slot, AtDeadline at the end. */
  ghost predicate UpOk(frames: seq<V.Up>, v: nat, lo: int, hi: int) {
    forall i :: 0 <= i < |frames| ==>
      && !frames[i].Malformed?
      && (frames[i].AtDeadline? ==> i == |frames| - 1)
      && (frames[i].SendPacket? ==> frames[i].m.src == v && lo <= frames[i].m.sendTime <= hi)
  }

  predicate Packets(frames: seq<V.Down>) {
    forall i :: 0 <= i < |frames| ==> frames[i].DeliverPacket?
  }

  /** The deadlines are in order. */
  ghost predicate Ordered(gotos: seq<Instant>) {
    && (forall i :: 0 <= i < |gotos| ==> Dated(gotos[i]))
    && (forall i, j :: 0 <= i <= j < |gotos| ==> Le(gotos[i], gotos[j]))
  }

  /** The clock is at the last deadline that was completed, and someone is left only if it was usable. */
  ghost predicate ClockOk(s: State) {
    var done := if s.stage.Idle? || s.gotos == [] then s.gotos else s.gotos[..|s.gotos| - 1];
    && s.coord.clock >= 0.0
    && (done == [] ==> s.coord.clock == 0.0)
    && (done != [] && Last(done).At? ==> s.coord.clock == Last(done).t)
    && (done != [] && s.coord.sockets != {} ==> Usable(Last(done)))
    && (s.stage.Collecting? && s.gotos == [] ==> false)
  }

  /** The round in progress waits for the last deadline announced. */
  ghost predicate RoundStarted(p: Platform, s: State) {
    s.stage.Collecting? ==>
      s.gotos != [] && Last(s.gotos) == Target(p, s) && EventOk(s.coord, s.stage.nextEvent) && s.coord.sockets != {}
  }

  /** Socket and collection state, whether the VM is alive or not. */
  ghost predicate SocketOk(s: State, v: nat)
    requires v in s.clients && v in s.up
  {
    match s.stage
    case Idle => s.up[v] == []
    case Collecting(_, todo, _, gone, _) =>
      && (v in todo ==> v in s.coord.sockets && v !in gone)
      && (v !in todo ==> s.up[v] == [])
      && s.gotos != []
      && UpOk(s.up[v], v, NsAt(s.gotos, |s.gotos| - 1), NsAt(s.gotos, |s.gotos|))
      && (s.up[v] != [] ==> Usable(Last(s.gotos)))
      && (v in s.coord.sockets ==> v in todo || v in gone || Usable(Last(s.gotos)))
  }

  /** The queues of a client. */
  ghost predicate OutOk(c: Client, v: nat) {
    && O.QueueOk(c.out) && (c.kvm ==> O.InTime(c.out)) && (c.phase != Running ==> O.Settled(c.out))
    && forall m :: m in c.out.outgoing || m in c.out.upcoming ==> m.src == v
  }

  /** The deadlines a client knows. */
  ghost predicate TimesOk(c: Client, gotos: seq<Instant>) {
    && c.heard <= |gotos| && c.out.next == NsAt(gotos, c.heard) && (c.phase == Boot <==> c.heard == 0)
    && (c.heard > 0 ==> Usable(gotos[c.heard - 1]) && c.out.prev == NsAt(gotos, c.heard - 1))
  }

  /** The client knows the current deadline: how far it is with it. */
  ghost predicate InStep(s: State, v: nat)
    requires v in s.clients && v in s.up && v in s.down
  {
    match s.clients[v].phase
    case Boot => s.stage.Idle? && s.down[v] == []
    case Running => s.stage.Collecting? && v in s.stage.todo && s.down[v] == [] && s.up[v] == []
    case Frozen =>
      && (s.stage.Idle? ==> Packets(s.down[v]))
      && (s.stage.Collecting? ==> s.down[v] == [] && (v in s.stage.todo ==> s.up[v] != [] && Last(s.up[v]).AtDeadline?))
    case Ended => true
    case Dead => true
  }

  /** The current deadline is still on its way to the client, behind the packets of the last round. */
  ghost predicate Behind(s: State, v: nat)
    requires v in s.clients && v in s.up && v in s.down
  {
    var down := s.down[v];
    && s.stage.Collecting? && v in s.stage.todo && s.up[v] == [] && s.clients[v].phase != Running
    && s.gotos != [] && Dated(Last(s.gotos))
    && down != [] && Last(down) == V.GotoDeadline(SimgridToVmTime(Last(s.gotos)))
    && Packets(down[..|down| - 1]) && (s.clients[v].phase == Boot ==> |down| == 1)
  }

  /** A living client is in step: it knows the current deadline, or that deadline is on its way. */
  ghost predicate ClientOk(s: State, v: nat)
    requires v in s.clients && v in s.up && v in s.down
  {
    var c := s.clients[v];
    Living(c) ==>
      && v in s.coord.sockets && (s.stage.Collecting? ==> v !in s.stage.gone)
      && OutOk(c, v) && TimesOk(c, s.gotos)
      && if c.heard == |s.gotos| then InStep(s, v) else c.heard == |s.gotos| - 1 && Behind(s, v)
  }

  /** What was collected so far in this round. */
  ghost predicate GotOk(s: State) {
    s.stage.Collecting? ==>
      && s.gotos != []
      && (forall m :: m in s.stage.got ==>
            && m.src in s.coord.sockets && Usable(Last(s.gotos))
            && NsAt(s.gotos, |s.gotos| - 1) <= m.sendTime <= NsAt(s.gotos, |s.gotos|))
      && (forall v :: v in s.stage.gone || v in s.stage.todo ==> v in s.coord.sockets)
      && (s.stage.reading.Some? ==> s.stage.reading.value in s.stage.todo)
  }

  ghost predicate Each(s: State, v: nat)
    requires v in s.clients && v in s.up && v in s.down
  {
    SocketOk(s, v) && ClientOk(s, v)
  }

  predicate SameKeys(s: State) { s.clients.Keys == s.up.Keys == s.down.Keys == s.coord.hosts.Keys }

  ghost predicate AllTimely(p: Platform, c: Coord) { forall x :: x in c.pending ==> Timely(p, c, x) }

  /** The coordinator can abort only once it has read every VM. */
  predicate AbortOk(s: State) { s.aborted ==> s.stage.Collecting? && s.stage.todo == {} }

  /** Everything that does not concern one client. */
  ghost predicate Global(p: Platform, s: State) {
    && Inv(p, s.coord) && AllTimely(p, s.coord)
    && ClockOk(s) && Ordered(s.gotos) && RoundStarted(p, s) && GotOk(s) && AbortOk(s) && !s.violated
  }

  ghost predicate AllEach(s: State) {
    SameKeys(s) && forall v :: v in s.clients ==> Each(s, v)
  }

  ghost predicate Good(p: Platform, s: State) { Global(p, s) && AllEach(s) }

  lemma InitInv(p: Platform, s: State)
    requires Init(p, s)
    ensures Inv(p, s.coord)
  {
    forall m ensures Conserved(s.coord, m) {}
  }

  lemma InitEach(p: Platform, s: State, v: nat)
    requires Init(p, s) && v in s.clients
    ensures Each(s, v)
  {}

  lemma InitGood(p: Platform, s: State)
    requires Init(p, s)
    ensures Good(p, s)
  {
    InitInv(p, s);
    assert ClockOk(s) && Ordered(s.gotos);
    forall v | v in s.clients ensures Each(s, v) { InitEach(p, s, v); }
  }

  // ---------------------------------------------------------------- steps of a client

  /** A step of client v leaves the coordinator and every other client alone. */
  predicate OnlyClient(s: State, s': State, v: nat) {
    && s'.coord == s.coord && s'.stage == s.stage && s'.gotos == s.gotos && s'.aborted == s.aborted
    && s'.clients.Keys == s.clients.Keys && s'.up.Keys == s.up.Keys && s'.down.Keys == s.down.Keys
    && forall w :: w in s.clients && w in s.up && w in s.down && w != v ==>
         s'.clients[w] == s.clients[w] && s'.up[w] == s.up[w] && s'.down[w] == s.down[w]
  }

  lemma OthersKept(s: State, s': State, v: nat, w: nat)
    requires OnlyClient(s, s', v) && w != v && w in s.clients && w in s.up && w in s.down && Each(s, w)
    ensures Each(s', w)
  {}

  lemma ClientStep(s: State, s': State, v: nat)
    requires AllEach(s) && OnlyClient(s, s', v)
    requires v in s.clients ==> Each(s', v)
    ensures AllEach(s')
  {
    forall w | w in s'.clients ensures Each(s', w) {
      if w != v { OthersKept(s, s', v, w); }
    }
  }

  lemma GlobalKept(p: Platform, s: State, s': State)
    requires Global(p, s) && s'.coord == s.coord && s'.stage == s.stage && s'.gotos == s.gotos
    requires s'.aborted == s.aborted && !s'.violated
    ensures Global(p, s')
  {}

  lemma SendKeepsOut(c: Client, v: nat, m: OutputMsg, queued: bool, frame: nat)
    requires OutOk(c, v) && SendOk(c, v, m, queued, frame)
    ensures OutOk(if queued then c.(out := c.out.(upcoming := c.out.upcoming + [m])) else c.(out := c.out.(outgoing := c.out.outgoing + [m])), v)
  {
    O.PushKeepsIff(c.out, c.phase != Running, m);
  }

  lemma SelfSend(s: State, v: nat, m: OutputMsg, queued: bool, frame: nat)
    requires v in s.clients && v in s.up && v in s.down && Each(s, v) && SendOk(s.clients[v], v, m, queued, frame)
    ensures Each(DoSend(s, v, m, queued), v)
  {
    SendKeepsOut(s.clients[v], v, m, queued, frame);
  }

  lemma SelfDie(s: State, v: nat)
    requires v in s.clients && v in s.up && v in s.down && Each(s, v)
    ensures Each(SetClient(s, v, s.clients[v].(phase := Dead)), v)
  {}

  lemma FlushedFrames(o: O.Out, v: nat, k: nat)
    requires O.QueueOk(o) && (forall m :: m in o.outgoing || m in o.upcoming ==> m.src == v) && k <= |O.Sends(o)|
    ensures UpOk(ToUp(O.Sends(o)[..k]), v, o.prev, o.next)
    ensures !O.Aborts(o) && k == |O.Sends(o)| ==> k > 0 && Last(ToUp(O.Sends(o)[..k])).AtDeadline?
  {
    O.TimestampWindow(o);
    O.SendersKept(o, v);
  }

  /** The client after the deadline, and what it wrote, in terms of its queues only. */
  lemma SelfFlush(s: State, v: nat, allowed: nat)
    requires v in s.clients && v in s.up && v in s.down && Each(s, v) && s.clients[v].phase == Running
    ensures Each(DoFlush(s, v, allowed), v)
  {
    var o := s.clients[v].out;
    var all := O.Sends(o);
    var k := if |all| <= allowed then |all| else allowed;
    FlushedFrames(o, v, k);
    O.FlushSettles(o);
    FlushedEach(s, v, DoFlush(s, v, allowed), ToUp(all[..k]));
  }

  predicate FlushedTo(s: State, v: nat, s': State, frames: seq<V.Up>)
    requires v in s.clients && v in s.up && v in s.down
  {
    && s'.coord == s.coord && s'.stage == s.stage && s'.gotos == s.gotos && s'.down == s.down
    && v in s'.clients && v in s'.up && s'.up[v] == s.up[v] + frames
  }

  lemma FlushedEach(s: State, v: nat, s': State, frames: seq<V.Up>)
    requires v in s.clients && v in s.up && v in s.down && Each(s, v) && s.clients[v].phase == Running
    requires FlushedTo(s, v, s', frames) && UpOk(frames, v, s.clients[v].out.prev, s.clients[v].out.next)
    requires var c, c' := s.clients[v], s'.clients[v];
      !Living(c') || (c' == c.(phase := Frozen, out := O.Flushed(c.out)) && O.QueueOk(c'.out) && O.Settled(c'.out)
                           && frames != [] && Last(frames).AtDeadline?)
    ensures Each(s', v)
  {
    assert s.up[v] + frames == frames;
    assert SocketOk(s', v);
    if Living(s'.clients[v]) { assert OutOk(s'.clients[v], v); }
  }

  lemma HeardTime(gotos: seq<Instant>, r: nat)
    requires Ordered(gotos) && 0 < r <= |gotos| && Usable(gotos[r - 1])
    ensures 0 <= NsAt(gotos, r - 1) <= NsAt(gotos, r)
  {
    FloorWithinOneNs(gotos[r - 1].t);
    if r > 1 {
      assert Le(gotos[r - 2], gotos[r - 1]);
      FloorWithinOneNs(gotos[r - 2].t);
      FloorMonotone(gotos[r - 2].t, gotos[r - 1].t);
    }
  }

  /** The client takes in the deadline of the round. */
  lemma SelfHearGoto(s: State, v: nat, room: bool)
    requires v in s.clients && v in s.up && v in s.down && Each(s, v) && Living(s.clients[v])
    requires Behind(s, v) && s.clients[v].heard == |s.gotos| - 1 && |s.down[v]| == 1 && Ordered(s.gotos)
    ensures Each(DoHear(s, v, room), v) && (DoHear(s, v, room).violated <==> s.violated)
  {
    if room && Usable(Last(s.gotos)) { SelfHearUsable(s, v); } else { SelfHearFails(s, v, room); }
  }

  lemma SelfHearUsable(s: State, v: nat)
    requires v in s.clients && v in s.up && v in s.down && Each(s, v) && Living(s.clients[v])
    requires Behind(s, v) && s.clients[v].heard == |s.gotos| - 1 && |s.down[v]| == 1 && Ordered(s.gotos) && Usable(Last(s.gotos))
    ensures Each(DoHear(s, v, true), v) && (DoHear(s, v, true).violated <==> s.violated)
  {
    EncodingIsFloor(Last(s.gotos).t);
    HeardTime(s.gotos, |s.gotos|);
  }

  lemma SelfHearFails(s: State, v: nat, room: bool)
    requires v in s.clients && v in s.up && v in s.down && Each(s, v) && Living(s.clients[v])
    requires Behind(s, v) && |s.down[v]| == 1 && (!room || !Usable(Last(s.gotos)))
    ensures Each(DoHear(s, v, room), v) && (DoHear(s, v, room).violated <==> s.violated)
  {
    AcceptedIffFinite(Last(s.gotos));
  }

  /** The client takes in a packet. */
  lemma SelfHearPacket(s: State, v: nat, room: bool)
    requires v in s.clients && v in s.up && v in s.down && Each(s, v) && s.clients[v].phase == Frozen
    requires s.down[v] != [] && s.down[v][0].DeliverPacket?
    ensures Each(DoHear(s, v, room), v) && (DoHear(s, v, room).violated <==> s.violated)
  {
    if Behind(s, v) { TailIsPackets(s.down[v]); }
  }

  lemma TailIsPackets(down: seq<V.Down>)
    requires down != [] && Packets(down[..|down| - 1]) && down[0].DeliverPacket? && Last(down).GotoDeadline?
    ensures |down| > 1 && Last(down[1..]) == Last(down) && Packets(down[1..][..|down| - 2])
  {
    assert down[1..][..|down| - 2] == down[..|down| - 1][1..];
  }

  lemma SelfHear(s: State, v: nat, room: bool)
    requires v in s.clients && v in s.up && v in s.down && Each(s, v) && Ordered(s.gotos) && s.down[v] != []
    requires s.clients[v].phase == Boot || s.clients[v].phase == Frozen
    ensures Each(DoHear(s, v, room), v) && (DoHear(s, v, room).violated <==> s.violated)
  {
    if s.clients[v].heard != |s.gotos| && |s.down[v]| == 1 {
      SelfHearGoto(s, v, room);
    } else {
      assert s.down[v][0].DeliverPacket? by {
        if s.clients[v].heard != |s.gotos| { assert s.down[v][0] == s.down[v][..|s.down[v]| - 1][0]; }
      }
      SelfHearPacket(s, v, room);
    }
  }

  // ---------------------------------------------------------------- steps of the coordinator

  /** A deadline is never in the past. */
  lemma DeadlineNotPast(p: Platform, c: Coord, nextEvent: Instant)
    requires Inv(p, c) && EventOk(c, nextEvent)
    ensures Le(At(c.clock), Deadline(Pruned(p, c), nextEvent))
  {
    LookaheadPositive(p, c);
  }

  lemma BeginEach(p: Platform, s: State, nextEvent: Instant, v: nat)
    requires Dated(Deadline(Pruned(p, s.coord), nextEvent)) && s.stage.Idle?
    requires v in s.clients && v in s.up && v in s.down && Each(s, v)
    ensures Each(DoBegin(p, s, nextEvent), v)
  {
    var s', c := DoBegin(p, s, nextEvent), s.clients[v];
    if Living(c) {
      assert s'.down[v][..|s'.down[v]| - 1] == s.down[v];
      assert NsAt(s'.gotos, c.heard) == NsAt(s.gotos, c.heard);
    }
  }

  lemma BeginOrdered(p: Platform, s: State, nextEvent: Instant)
    requires Dated(Deadline(Pruned(p, s.coord), nextEvent)) && Le(At(s.coord.clock), Deadline(Pruned(p, s.coord), nextEvent))
    requires s.stage.Idle? && ClockOk(s) && Ordered(s.gotos) && s.coord.sockets != {} && EventOk(s.coord, nextEvent)
    ensures var s' := DoBegin(p, s, nextEvent); ClockOk(s') && Ordered(s'.gotos) && RoundStarted(p, s') && GotOk(s')
  {
    var d, n := Deadline(Pruned(p, s.coord), nextEvent), |s.gotos|;
    if n > 0 { assert Le(s.gotos[n - 1], d); }
    OneMoreDeadline(s.gotos, d);
    assert (s.gotos + [d])[..n] == s.gotos;
  }

  lemma OneMoreDeadline(gotos: seq<Instant>, d: Instant)
    requires Ordered(gotos) && Dated(d) && (gotos != [] ==> Le(gotos[|gotos| - 1], d))
    ensures Ordered(gotos + [d])
  {
    forall i | 0 <= i < |gotos| ensures Le(gotos[i], d) { assert Le(gotos[i], gotos[|gotos| - 1]); }
  }

  lemma CollectEach(s: State, v: nat, w: nat)
    requires s.stage.Collecting? && v in s.stage.todo && v in s.clients && v in s.up && v in s.down && s.up[v] != [] && Each(s, v)
    requires w in s.clients && w in s.up && w in s.down && Each(s, w)
    ensures Each(DoCollect(s, v), w)
  {}

  lemma CollectGot(s: State, v: nat)
    requires s.stage.Collecting? && v in s.stage.todo && v in s.clients && v in s.up && s.up[v] != [] && SocketOk(s, v) && GotOk(s)
    ensures GotOk(DoCollect(s, v))
  {}

  lemma LoseEach(s: State, v: nat, w: nat)
    requires s.stage.Collecting? && v in s.stage.todo && v in s.clients && v in s.up && v in s.down && s.up[v] == []
    requires s.clients[v].phase == Dead && Each(s, v)
    requires w in s.clients && w in s.up && w in s.down && Each(s, w)
    ensures Each(DoLose(s, v), w)
  {}

  /** What was collected respects the lookahead: the round is one of disciplined VMs. */
  lemma EndRoundOk(p: Platform, s: State, ms: seq<OutputMsg>, ends: seq<Instant>, outs: seq<OutputMsg>)
    requires Inv(p, s.coord) && RoundStarted(p, s) && GotOk(s) && s.stage.Collecting? && EndOk(p, s, ms, ends, outs)
    ensures RoundOk(p, s.coord, s.stage.nextEvent, ms, s.stage.gone, ends)
  {
    forall m | m in ms ensures m.src in s.coord.sockets && Le(At(SentTime(m)), Target(p, s)) {
      assert m in multiset(ms);
      assert m in s.stage.got;
      FloorWithinOneNs(Last(s.gotos).t);
    }
  }

  lemma {:induction false} ForPackets(outs: seq<OutputMsg>, v: nat)
    ensures Packets(For(outs, v))
  {
    if outs != [] { ForPackets(outs[..|outs| - 1], v); }
  }

  lemma EndEach(p: Platform, s: State, ms: seq<OutputMsg>, ends: seq<Instant>, outs: seq<OutputMsg>, v: nat)
    requires s.stage.Collecting? && s.stage.todo == {} && EndOk(p, s, ms, ends, outs)
    requires v in s.clients && v in s.up && v in s.down && Each(s, v)
    ensures Each(DoEnd(p, s, ms, ends, outs), v)
  {
    ForPackets(outs, v);
  }

  lemma EndClock(p: Platform, s: State, ms: seq<OutputMsg>, ends: seq<Instant>, outs: seq<OutputMsg>)
    requires SameKeys(s) && s.stage.Collecting? && s.stage.todo == {} && EndOk(p, s, ms, ends, outs)
    requires RoundOk(p, s.coord, s.stage.nextEvent, ms, s.stage.gone, ends) && ClockOk(s) && RoundStarted(p, s)
    requires forall v :: v in s.coord.sockets && v in s.clients && v in s.up ==> SocketOk(s, v)
    ensures ClockOk(DoEnd(p, s, ms, ends, outs))
  {
    RoundEndsAtDeadline(p, s.coord, s.stage.nextEvent, ms, s.stage.gone, ends);
    var s' := DoEnd(p, s, ms, ends, outs);
    if s'.coord.sockets != {} {
      var v :| v in s'.coord.sockets;
      assert v in s.coord.sockets && v !in s.stage.gone && v in s.clients && SocketOk(s, v);
    }
  }

  // ---------------------------------------------------------------- every step

  lemma BeginGood(p: Platform, s: State, nextEvent: Instant)
    requires Global(p, s) && s.stage.Idle? && s.coord.sockets != {} && EventOk(s.coord, nextEvent)
    requires Dated(Deadline(Pruned(p, s.coord), nextEvent))
    ensures Global(p, DoBegin(p, s, nextEvent))
  {
    DeadlineNotPast(p, s.coord, nextEvent);
    BeginOrdered(p, s, nextEvent);
  }

  lemma BeginAll(p: Platform, s: State, nextEvent: Instant)
    requires AllEach(s) && s.stage.Idle? && Dated(Deadline(Pruned(p, s.coord), nextEvent))
    ensures AllEach(DoBegin(p, s, nextEvent))
  {
    var s' := DoBegin(p, s, nextEvent);
    forall v | v in s'.clients ensures Each(s', v) { BeginEach(p, s, nextEvent, v); }
  }

  lemma VisitGood(p: Platform, s: State, v: nat)
    requires Global(p, s) && s.stage.Collecting? && v in s.stage.todo
    ensures Global(p, s.(stage := s.stage.(reading := Some(v))))
  {}

  lemma VisitEach(s: State, v: nat, w: nat)
    requires s.stage.Collecting? && w in s.clients && w in s.up && w in s.down && Each(s, w)
    ensures Each(s.(stage := s.stage.(reading := Some(v))), w)
  {}

  lemma VisitAll(s: State, v: nat)
    requires AllEach(s) && s.stage.Collecting?
    ensures AllEach(s.(stage := s.stage.(reading := Some(v))))
  {
    var s' := s.(stage := s.stage.(reading := Some(v)));
    forall w | w in s'.clients ensures Each(s', w) { VisitEach(s, v, w); }
  }

  lemma AbortGood(p: Platform, s: State)
    requires Global(p, s) && s.stage.Collecting? && s.stage.todo == {}
    ensures Global(p, s.(aborted := true))
  {}

  lemma AbortEach(s: State, v: nat)
    requires v in s.clients && v in s.up && v in s.down && Each(s, v)
    ensures Each(s.(aborted := true), v)
  {}

  lemma AbortAll(s: State)
    requires AllEach(s)
    ensures AllEach(s.(aborted := true))
  {
    var s' := s.(aborted := true);
    forall v | v in s'.clients ensures Each(s', v) { AbortEach(s, v); }
  }

  lemma CollectGood(p: Platform, s: State, v: nat)
    requires Global(p, s) && s.stage.Collecting? && v in s.stage.todo && v in s.clients && v in s.up && s.up[v] != [] && SocketOk(s, v)
    ensures Global(p, DoCollect(s, v))
  {
    CollectGot(s, v);
  }

  lemma CollectAll(s: State, v: nat)
    requires AllEach(s) && s.stage.Collecting? && v in s.clients && v in s.stage.todo && s.up[v] != []
    ensures AllEach(DoCollect(s, v))
  {
    var s' := DoCollect(s, v);
    forall w | w in s'.clients ensures Each(s', w) { CollectEach(s, v, w); }
  }

  lemma LoseGood(p: Platform, s: State, v: nat)
    requires Global(p, s) && s.stage.Collecting? && v in s.coord.sockets
    ensures Global(p, DoLose(s, v))
  {}

  lemma LoseAll(s: State, v: nat)
    requires AllEach(s) && s.stage.Collecting? && v in s.clients && v in s.stage.todo && s.up[v] == [] && s.clients[v].phase == Dead
    ensures AllEach(DoLose(s, v))
  {
    var s' := DoLose(s, v);
    assert Each(s, v);
    forall w | w in s'.clients ensures Each(s', w) { LoseEach(s, v, w); }
  }

  lemma EndCoord(p: Platform, c: Coord, nextEvent: Instant, ms: seq<OutputMsg>, gone: seq<nat>, ends: seq<Instant>)
    requires Inv(p, c) && AllTimely(p, c) && RoundOk(p, c, nextEvent, ms, gone, ends)
    ensures var c' := RoundOf(p, c, nextEvent, ms, gone, ends); Inv(p, c') && AllTimely(p, c')
  {
    var c' := RoundOf(p, c, nextEvent, ms, gone, ends);
    RoundKeepsInv(p, c, nextEvent, ms, gone, ends);
    forall x | x in c'.pending ensures Timely(p, c', x) { RoundKeepsTimely(p, c, nextEvent, ms, gone, ends, x); }
  }

  lemma EndGood(p: Platform, s: State, ms: seq<OutputMsg>, ends: seq<Instant>, outs: seq<OutputMsg>)
    requires Global(p, s) && AllEach(s) && s.stage.Collecting? && s.stage.todo == {} && EndOk(p, s, ms, ends, outs) && !s.aborted
    ensures Global(p, DoEnd(p, s, ms, ends, outs))
  {
    EndRoundOk(p, s, ms, ends, outs);
    EndCoord(p, s.coord, s.stage.nextEvent, ms, s.stage.gone, ends);
    EndClock(p, s, ms, ends, outs);
  }

  lemma EndAll(p: Platform, s: State, ms: seq<OutputMsg>, ends: seq<Instant>, outs: seq<OutputMsg>)
    requires AllEach(s) && s.stage.Collecting? && s.stage.todo == {} && EndOk(p, s, ms, ends, outs)
    ensures AllEach(DoEnd(p, s, ms, ends, outs))
  {
    var s' := DoEnd(p, s, ms, ends, outs);
    forall v | v in s'.clients ensures Each(s', v) { EndEach(p, s, ms, ends, outs, v); }
  }

  lemma HearOnly(s: State, v: nat, room: bool)
    requires v in s.clients && v in s.down && s.down[v] != []
    ensures OnlyClient(s, DoHear(s, v, room), v)
  {}

  lemma HearAll(s: State, v: nat, room: bool)
    requires AllEach(s) && Ordered(s.gotos) && v in s.clients && s.down[v] != []
    requires s.clients[v].phase == Boot || s.clients[v].phase == Frozen
    ensures AllEach(DoHear(s, v, room)) && OnlyClient(s, DoHear(s, v, room), v) && (DoHear(s, v, room).violated <==> s.violated)
  {
    SelfHear(s, v, room);
    HearOnly(s, v, room);
    ClientStep(s, DoHear(s, v, room), v);
  }

  lemma FlushAll(s: State, v: nat, allowed: nat)
    requires AllEach(s) && v in s.clients && s.clients[v].phase == Running
    ensures AllEach(DoFlush(s, v, allowed)) && OnlyClient(s, DoFlush(s, v, allowed), v)
  {
    SelfFlush(s, v, allowed);
    ClientStep(s, DoFlush(s, v, allowed), v);
  }

  lemma SendAll(s: State, v: nat, m: OutputMsg, queued: bool, frame: nat)
    requires AllEach(s) && v in s.clients && SendOk(s.clients[v], v, m, queued, frame)
    ensures AllEach(DoSend(s, v, m, queued)) && OnlyClient(s, DoSend(s, v, m, queued), v)
  {
    SelfSend(s, v, m, queued, frame);
    ClientStep(s, DoSend(s, v, m, queued), v);
  }

  lemma DieAll(s: State, v: nat)
    requires AllEach(s) && v in s.clients
    ensures var s' := SetClient(s, v, s.clients[v].(phase := Dead)); AllEach(s') && OnlyClient(s, s', v)
  {
    SelfDie(s, v);
    ClientStep(s, SetClient(s, v, s.clients[v].(phase := Dead)), v);
  }

  lemma StepAll(p: Platform, s: State, a: Step)
    requires AllEach(s) && Ordered(s.gotos) && GotOk(s) && Enabled(p, s, a)
    ensures AllEach(Do(p, s, a))
    ensures a.Hear? || a.Flush? || a.Send? || a.Die? ==>
      OnlyClient(s, Do(p, s, a), a.v) && (Do(p, s, a).violated <==> s.violated)
  {
    match a
    case Begin(nextEvent) => BeginAll(p, s, nextEvent);
    case Visit(v) => VisitAll(s, v);
    case Collect(v) => CollectAll(s, v);
    case Lose(v) => LoseAll(s, v);
    case Abort(_) => AbortAll(s);
    case End(ms, ends, outs) => EndAll(p, s, ms, ends, outs);
    case Hear(v, room) => HearAll(s, v, room);
    case Send(v, m, queued, frame) => SendAll(s, v, m, queued, frame);
    case Flush(v, allowed) => FlushAll(s, v, allowed);
    case Die(v) => DieAll(s, v);
  }

  predicate OfCoordinator(a: Step) { a.Begin? || a.Visit? || a.Collect? || a.Lose? || a.Abort? || a.End? }

  lemma StepKeepsGlobal(p: Platform, s: State, a: Step)
    requires Global(p, s) && AllEach(s) && Enabled(p, s, a) && OfCoordinator(a)
    ensures Global(p, Do(p, s, a))
  {
    match a
    case Begin(nextEvent) => BeginGood(p, s, nextEvent);
    case Visit(v) => VisitGood(p, s, v);
    case Collect(v) => assert Each(s, v); CollectGood(p, s, v);
    case Lose(v) => assert Each(s, v); LoseGood(p, s, v);
    case Abort(_) => AbortGood(p, s);
    case End(ms, ends, outs) => EndGood(p, s, ms, ends, outs);
  }

  lemma StepGood(p: Platform, s: State, a: Step)
    requires Good(p, s) && Enabled(p, s, a)
    ensures Good(p, Do(p, s, a))
  {
    StepAll(p, s, a);
    if OfCoordinator(a) { StepKeepsGlobal(p, s, a); } else { GlobalKept(p, s, Do(p, s, a)); }
  }

  // ---------------------------------------------------------------- every run

  ghost predicate IsRun(p: Platform, run: seq<State>, acts: seq<Step>) {
    && |run| == |acts| + 1 && Init(p, run[0])
    && forall i :: 0 <= i < |acts| ==> Enabled(p, run[i], acts[i]) && run[i + 1] == Do(p, run[i], acts[i])
  }

  lemma {:induction false} RunGood(p: Platform, run: seq<State>, acts: seq<Step>, i: nat)
    requires IsRun(p, run, acts) && i < |run|
    ensures Good(p, run[i])
  {
    if i == 0 {
      InitGood(p, run[0]);
    } else {
      RunGood(p, run, acts, i - 1);
      StepGood(p, run[i - 1], acts[i - 1]);
    }
  }

  lemma RunGot(p: Platform, run: seq<State>, acts: seq<Step>, i: nat)
    requires IsRun(p, run, acts) && i < |run|
    ensures GotOk(run[i]) && SameKeys(run[i])
  {
    RunGood(p, run, acts, i);
  }

  /**
   The protocol holds in every run: no client receives a packet instead of its first deadline, no
   deadline goes back, deadlines are broadcast in order, and no message is lost or duplicated.
   */
  lemma ProtocolHolds(p: Platform, run: seq<State>, acts: seq<Step>, i: nat, m: OutputMsg)
    requires IsRun(p, run, acts) && i < |run|
    ensures !run[i].violated && Ordered(run[i].gotos)
    ensures Conserved(run[i].coord, m)
  {
    RunGood(p, run, acts, i);
  }

  /** a and b are never more than one deadline apart, and agree when they took in the same number. */
  predicate SameStep(a: Client, b: Client) {
    && a.heard <= b.heard + 1 && b.heard <= a.heard + 1
    && (a.heard == b.heard ==> a.out.next == b.out.next && a.out.prev == b.out.prev)
  }

  /** c has the coordinator's deadline, rounded down to the nanosecond; when it computes, the current one. */
  ghost predicate OnDeadline(p: Platform, s: State, c: Client) {
    && c.heard <= |s.gotos| && c.out.next == NsAt(s.gotos, c.heard)
    && (c.phase == Running ==> c.heard == |s.gotos| && s.gotos != [] && s.stage.Collecting? && Last(s.gotos) == Target(p, s))
  }

  lemma TwoClients(s: State, v: nat, w: nat)
    requires AllEach(s) && v in s.clients && w in s.clients && Living(s.clients[v]) && Living(s.clients[w])
    ensures SameStep(s.clients[v], s.clients[w])
  {
    assert ClientOk(s, v) && ClientOk(s, w);
  }

  /**
   Lock step: two living clients are never more than one deadline apart, and those that took in the
   same number have the same one; it is the coordinator's, rounded down.
   */
  lemma ClientsInLockStep(p: Platform, run: seq<State>, acts: seq<Step>, i: nat, v: nat, w: nat)
    requires IsRun(p, run, acts) && i < |run| && v in run[i].clients && w in run[i].clients
    requires Living(run[i].clients[v]) && Living(run[i].clients[w])
    ensures SameStep(run[i].clients[v], run[i].clients[w]) && OnDeadline(p, run[i], run[i].clients[v])
  {
    RunGood(p, run, acts, i);
    TwoClients(run[i], v, w);
    assert Each(run[i], v);
  }

  /** The guards of Begin and End that are not the source's own always hold. */
  lemma GuardsAlwaysHold(p: Platform, run: seq<State>, acts: seq<Step>, i: nat, nextEvent: Instant)
    requires IsRun(p, run, acts) && i < |run|
    ensures EventOk(run[i].coord, nextEvent) ==> Dated(Deadline(Pruned(p, run[i].coord), nextEvent))
    ensures run[i].stage.Collecting? ==> forall m :: m in run[i].stage.got ==> m.src in run[i].coord.hosts
  {
    RunGood(p, run, acts, i);
    if EventOk(run[i].coord, nextEvent) { DeadlineNotPast(p, run[i].coord, nextEvent); }
  }

  /**
   Every round is one of disciplined VMs, so the lookahead argument applies to it: all timestamps lie
   between the last deadline (rounded down) and this one.
   */
  lemma RoundsAreDisciplined(p: Platform, run: seq<State>, acts: seq<Step>, i: nat)
    requires IsRun(p, run, acts) && i < |acts| && acts[i].End?
    ensures RoundOk(p, run[i].coord, run[i].stage.nextEvent, acts[i].ms, run[i].stage.gone, acts[i].ends)
    ensures forall m :: m in acts[i].ms ==> FloorNs(run[i].coord.clock) <= m.sendTime && run[i].coord.clock - NS < SentTime(m)
  {
    RunGood(p, run, acts, i);
    EndIsDisciplined(p, run[i], acts[i]);
  }

  lemma EndIsDisciplined(p: Platform, s: State, a: Step)
    requires Global(p, s) && Enabled(p, s, a) && a.End?
    ensures RoundOk(p, s.coord, s.stage.nextEvent, a.ms, s.stage.gone, a.ends)
    ensures forall m :: m in a.ms ==> FloorNs(s.coord.clock) <= m.sendTime && s.coord.clock - NS < SentTime(m)
  {
    EndRoundOk(p, s, a.ms, a.ends, a.outs);
    SortedFresh(s, a.ms);
  }

  lemma SortedFresh(s: State, ms: seq<OutputMsg>)
    requires s.stage.Collecting? && GotOk(s) && ClockOk(s) && Ordered(s.gotos) && Sorting(s, ms)
    ensures forall m :: m in ms ==> FloorNs(s.coord.clock) <= m.sendTime && s.coord.clock - NS < SentTime(m)
  {
    forall m | m in ms ensures FloorNs(s.coord.clock) <= m.sendTime && s.coord.clock - NS < SentTime(m) {
      assert m in multiset(ms);
      FreshStamp(s, m);
    }
  }

  lemma SortedPasses(s: State, ms: seq<OutputMsg>, k: nat)
    requires s.stage.Collecting? && GotOk(s) && ClockOk(s) && Ordered(s.gotos) && Deployed(s.coord) && Sorting(s, ms) && k < |ms|
    ensures Passes(s.coord.clock, ms, s.coord.hosts, k) <==> !(EPSILON < s.coord.clock < NS && ms[k].sendTime == 0)
  {
    SortedFresh(s, ms);
    assert ms[k] in ms && ms[k] in multiset(ms);
    assert ms[k] in s.stage.got;
    CausalityAssertionIff(s.coord.clock, ms, k);
  }

  /**
   In every run, however `std::sort` orders what was collected, the coordinator's assertion fails exactly
   for timestamp 0 and a clock between epsilon and 1 ns.
   */
  lemma AssertionInEveryRun(p: Platform, run: seq<State>, acts: seq<Step>, i: nat, ms: seq<OutputMsg>, k: nat)
    requires IsRun(p, run, acts) && i < |run| && run[i].stage.Collecting? && Sorting(run[i], ms) && k < |ms|
    ensures var c := run[i].coord; Passes(c.clock, ms, c.hosts, k) <==> !(EPSILON < c.clock < NS && ms[k].sendTime == 0)
  {
    RunGood(p, run, acts, i);
    SortedPasses(run[i], ms, k);
  }

  lemma FreshStamp(s: State, m: OutputMsg)
    requires s.stage.Collecting? && m in s.stage.got && GotOk(s) && ClockOk(s) && Ordered(s.gotos)
    ensures FloorNs(s.coord.clock) <= m.sendTime && s.coord.clock - NS < SentTime(m)
  {
    FloorWithinOneNs(s.coord.clock);
    var done := s.gotos[..|s.gotos| - 1];
    if done != [] {
      assert Last(done) == s.gotos[|s.gotos| - 2];
      assert Le(Last(done), Last(s.gotos));
      FloorWithinOneNs(Last(done).t);
    }
  }

  /** The receiver is stopped, at time t rounded down to the nanosecond. */
  predicate ReceivedAt(c: Client, t: real) {
    Living(c) ==> c.phase == Frozen && c.out.next >= 0 && Seconds(c.out.next) <= t < Seconds(c.out.next) + NS
  }

  lemma EndFreezes(s: State, v: nat)
    requires s.stage.Collecting? && s.stage.todo == {} && v in s.clients && v in s.up && v in s.down && Each(s, v) && s.gotos != []
    requires Dated(Last(s.gotos)) && Last(s.gotos).At?
    ensures ReceivedAt(s.clients[v], Last(s.gotos).t)
  {
    FloorWithinOneNs(Last(s.gotos).t);
  }

  ghost predicate AtEnd(p: Platform, s: State, a: Step) {
    a.End? && s.stage.Collecting? && s.stage.todo == {} && EndOk(p, s, a.ms, a.ends, a.outs)
  }

  /** Communication x reaches a running VM, not its sender, in the round that ends. */
  ghost predicate Arrives(p: Platform, s: State, a: Step, x: Comm)
    requires AtEnd(p, s, a)
  {
    var c := DoEnd(p, s, a.ms, a.ends, a.outs).coord;
    && x in s.coord.pending + Launched(s.coord.clock, a.ms, s.coord.hosts, a.ends)
    && Le(x.finish, At(c.clock)) && x.cargo.dst in c.sockets && x.cargo.src != x.cargo.dst
  }

  lemma EndDelivers(p: Platform, s: State, a: Step, x: Comm)
    requires Global(p, s) && AtEnd(p, s, a) && Arrives(p, s, a, x)
    ensures x.finish == At(DoEnd(p, s, a.ms, a.ends, a.outs).coord.clock) == Target(p, s) && Timely(p, s.coord, x)
  {
    EndRoundOk(p, s, a.ms, a.ends, a.outs);
    LookaheadIsExact(p, s.coord, s.stage.nextEvent, a.ms, s.stage.gone, a.ends, x);
    if x in Launched(s.coord.clock, a.ms, s.coord.hosts, a.ends) { LaunchedTimely(p, s.coord, a.ms, a.ends, x); }
  }

  lemma EndReceives(p: Platform, s: State, a: Step, x: Comm)
    requires AllEach(s) && RoundStarted(p, s) && Ordered(s.gotos) && AtEnd(p, s, a) && Target(p, s) == x.finish && x.finish.At?
    requires x.cargo.dst in s.coord.hosts
    ensures ReceivedAt(s.clients[x.cargo.dst], x.finish.t)
  {
    EndFreezes(s, x.cargo.dst);
  }

  ghost predicate OnTime(p: Platform, s: State, s': State, x: Comm)
    requires s.stage.Collecting?
  {
    && x.finish == At(s'.coord.clock) == Target(p, s) && Timely(p, s.coord, x)
    && x.cargo.dst in s.clients && ReceivedAt(s.clients[x.cargo.dst], x.finish.t)
    && Causal(p, s, x, s.clients[x.cargo.dst])
  }

  /** The receiver's time is beyond the sender's timestamp plus the latency, up to the rounding. */
  predicate Causal(p: Platform, s: State, x: Comm, c: Client)
    requires x.cargo.src in s.coord.hosts && x.cargo.dst in s.coord.hosts
  {
    Living(c) ==>
      Seconds(c.out.next) > SentTime(x.cargo) + p.latency(s.coord.hosts[x.cargo.src], s.coord.hosts[x.cargo.dst]) - NS
  }

  lemma EndOnTime(p: Platform, s: State, a: Step, x: Comm)
    requires Good(p, s) && AtEnd(p, s, a) && Arrives(p, s, a, x)
    ensures OnTime(p, s, DoEnd(p, s, a.ms, a.ends, a.outs), x)
  {
    EndDelivers(p, s, a, x);
    EndReceives(p, s, a, x);
  }

  /**
   End-to-end causality: a message that reaches a running VM other than its sender finished in the
   network exactly at the deadline of the round, not before the sender's timestamp plus the latency of
   the route, and the receiver is stopped at that deadline (rounded down to the nanosecond).
   */
  lemma DeliveredOnTime(p: Platform, run: seq<State>, acts: seq<Step>, i: nat, x: Comm)
    requires IsRun(p, run, acts) && i < |acts| && AtEnd(p, run[i], acts[i]) && Arrives(p, run[i], acts[i], x)
    ensures OnTime(p, run[i], run[i + 1], x)
  {
    RunGood(p, run, acts, i);
    EndOnTime(p, run[i], acts[i], x);
    assert run[i + 1] == Do(p, run[i], acts[i]);
  }
}
