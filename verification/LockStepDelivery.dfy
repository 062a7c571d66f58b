/** End-to-end causality where it matters to a VM: at the moment it reads a packet. */
module LockStepDelivery {
  import opened Basics
  import opened WireTime
  import opened Coordinator
  import opened CoordinatorTheorems
  import opened LockStep
  import opened LockStepTheorems
  import O = OutputSide
  import V = VmsInterface

  /** The packet is for v, and v's time is beyond the sender's timestamp plus the latency, up to the rounding. */
  predicate Caused(p: Platform, hosts: map<nat, nat>, next: nat, v: nat, m: OutputMsg) {
    && m.dst == v && v in hosts && m.src in hosts
    && (m.src != v ==> Seconds(next) > SentTime(m) + p.latency(hosts[m.src], hosts[v]) - NS)
  }

  ghost predicate FramesOk(p: Platform, hosts: map<nat, nat>, next: nat, v: nat, frames: seq<V.Down>) {
    forall k :: 0 <= k < |frames| && frames[k].DeliverPacket? ==> Caused(p, hosts, next, v, frames[k].m)
  }

  /** Every packet on its way to a living client was caused before the client's present time. */
  ghost predicate Framed(p: Platform, s: State, v: nat) {
    v in s.clients && v in s.down && Living(s.clients[v]) ==> FramesOk(p, s.coord.hosts, s.clients[v].out.next, v, s.down[v])
  }

  // ---------------------------------------------------------------- the end of a round

  lemma {:induction false} ForAre(outs: seq<OutputMsg>, v: nat, k: nat)
    requires k < |For(outs, v)|
    ensures For(outs, v)[k].DeliverPacket? && For(outs, v)[k].m in outs && For(outs, v)[k].m.dst == v
  {
    var front := outs[..|outs| - 1];
    if k < |For(front, v)| { ForAre(front, v, k); }
  }

  lemma {:induction false} ArrivedIs(cs: seq<Comm>, t: real, running: set<nat>, m: OutputMsg) returns (x: Comm)
    requires m in Arrived(cs, t, running, true)
    ensures x in cs && x.cargo == m && Le(x.finish, At(t)) && m.dst in running
  {
    if Le(cs[0].finish, At(t)) && cs[0].cargo.dst in running && cs[0].cargo == m {
      x := cs[0];
    } else {
      x := ArrivedIs(cs[1..], t, running, m);
    }
  }

  lemma OutIsArrival(p: Platform, s: State, a: Step, m: OutputMsg) returns (x: Comm)
    requires AtEnd(p, s, a) && m in a.outs
    ensures x.cargo == m && (m.src != m.dst ==> Arrives(p, s, a, x))
    ensures x in s.coord.pending + Launched(s.coord.clock, a.ms, s.coord.hosts, a.ends)
  {
    var c, gone := s.coord, s.stage.gone;
    assert m in multiset(a.outs);
    x := ArrivedIs(c.pending + Launched(c.clock, a.ms, c.hosts, a.ends), RoundOf(p, c, s.stage.nextEvent, a.ms, gone, a.ends).clock,
                   c.sockets - (set v | v in gone), m);
  }

  lemma FlyingIsTimely(p: Platform, s: State, a: Step, x: Comm)
    requires AllTimely(p, s.coord) && AtEnd(p, s, a) && x in s.coord.pending + Launched(s.coord.clock, a.ms, s.coord.hosts, a.ends)
    ensures Timely(p, s.coord, x)
  {
    if x in Launched(s.coord.clock, a.ms, s.coord.hosts, a.ends) { LaunchedTimely(p, s.coord, a.ms, a.ends, x); }
  }

  lemma OutIsCaused(p: Platform, s: State, a: Step, v: nat, m: OutputMsg)
    requires Good(p, s) && AtEnd(p, s, a) && v in s.clients && Living(s.clients[v]) && m in a.outs && m.dst == v
    ensures Caused(p, s.coord.hosts, s.clients[v].out.next, v, m)
  {
    var x := OutIsArrival(p, s, a, m);
    FlyingIsTimely(p, s, a, x);
    if m.src != v { EndOnTime(p, s, a, x); }
  }

  lemma NothingLeft(s: State, v: nat)
    requires s.stage.Collecting? && s.stage.todo == {} && v in s.clients && v in s.up && v in s.down && Each(s, v) && Living(s.clients[v])
    ensures s.down[v] == []
  {}

  lemma ForIsOk(p: Platform, hosts: map<nat, nat>, next: nat, v: nat, outs: seq<OutputMsg>)
    requires forall m :: m in outs && m.dst == v ==> Caused(p, hosts, next, v, m)
    ensures FramesOk(p, hosts, next, v, For(outs, v))
  {
    forall k | 0 <= k < |For(outs, v)| ensures For(outs, v)[k].DeliverPacket? && Caused(p, hosts, next, v, For(outs, v)[k].m) {
      ForAre(outs, v, k);
    }
  }

  lemma OutsAreCaused(p: Platform, s: State, a: Step, v: nat)
    requires Good(p, s) && AtEnd(p, s, a) && v in s.clients && Living(s.clients[v])
    ensures FramesOk(p, s.coord.hosts, s.clients[v].out.next, v, For(a.outs, v))
  {
    forall m | m in a.outs && m.dst == v ensures Caused(p, s.coord.hosts, s.clients[v].out.next, v, m) {
      OutIsCaused(p, s, a, v, m);
    }
    ForIsOk(p, s.coord.hosts, s.clients[v].out.next, v, a.outs);
  }

  lemma OnlyOuts(p: Platform, s: State, a: Step, v: nat)
    requires AtEnd(p, s, a) && v in s.clients && v in s.down && s.down[v] == []
    requires FramesOk(p, s.coord.hosts, s.clients[v].out.next, v, For(a.outs, v))
    ensures Framed(p, DoEnd(p, s, a.ms, a.ends, a.outs), v)
  {
    assert DoEnd(p, s, a.ms, a.ends, a.outs).down[v] == For(a.outs, v);
  }

  lemma EndFramed(p: Platform, s: State, a: Step, v: nat)
    requires Good(p, s) && AtEnd(p, s, a)
    ensures Framed(p, DoEnd(p, s, a.ms, a.ends, a.outs), v)
  {
    if v in s.clients && Living(s.clients[v]) {
      NothingLeft(s, v);
      OutsAreCaused(p, s, a, v);
      OnlyOuts(p, s, a, v);
    }
  }

  /** Each delivered message becomes one frame for its destination and none for others. */
  lemma {:induction false} ForCount(outs: seq<OutputMsg>, v: nat, m: OutputMsg)
    ensures multiset(For(outs, v))[V.DeliverPacket(m)] == if m.dst == v then multiset(outs)[m] else 0
  {
    if outs != [] {
      var n := |outs| - 1;
      ForCount(outs[..n], v, m);
      assert outs == outs[..n] + [outs[n]];
    }
  }

  lemma EndHandsOver(p: Platform, s: State, a: Step, v: nat, m: OutputMsg)
    requires AtEnd(p, s, a) && v in s.down
    ensures var s' := DoEnd(p, s, a.ms, a.ends, a.outs);
      && v in s'.down && s'.coord.collected == s.coord.collected + multiset(a.ms)
      && s'.coord.delivered[m] == s.coord.delivered[m] + multiset(a.outs)[m]
      && multiset(s'.down[v])[V.DeliverPacket(m)] == multiset(s.down[v])[V.DeliverPacket(m)] + if m.dst == v then multiset(a.outs)[m] else 0
  {
    ForCount(a.outs, v, m);
    assert DoEnd(p, s, a.ms, a.ends, a.outs).down[v] == s.down[v] + For(a.outs, v);
  }

  /**
   In every run, when a round ends: what the coordinator counts as delivered is what it writes, once, to the
   socket of its destination and to no other; and what it counts as collected is what it simulated.
   */
  lemma FramesDelivered(p: Platform, run: seq<State>, acts: seq<Step>, i: nat, v: nat, m: OutputMsg)
    requires IsRun(p, run, acts) && i < |acts| && AtEnd(p, run[i], acts[i]) && v in run[i].down
    ensures v in run[i + 1].down && run[i + 1].coord.collected == run[i].coord.collected + multiset(acts[i].ms)
    ensures run[i + 1].coord.delivered[m] >= run[i].coord.delivered[m]
    ensures multiset(run[i + 1].down[v])[V.DeliverPacket(m)] == multiset(run[i].down[v])[V.DeliverPacket(m)]
      + if m.dst == v then run[i + 1].coord.delivered[m] - run[i].coord.delivered[m] else 0
  {
    EndHandsOver(p, run[i], acts[i], v, m);
    assert run[i + 1] == Do(p, run[i], acts[i]);
  }

  // ---------------------------------------------------------------- the other steps

  /** A deadline is read only when it is the last frame. */
  lemma GotoIsLast(s: State, v: nat)
    requires v in s.clients && v in s.up && v in s.down && Each(s, v) && s.down[v] != []
    requires s.clients[v].phase == Boot || s.clients[v].phase == Frozen
    ensures s.down[v][0].DeliverPacket? ==> s.clients[v].phase == Frozen
    ensures s.down[v][0].GotoDeadline? ==> |s.down[v]| == 1
  {
    var down := s.down[v];
    if s.clients[v].heard != |s.gotos| && |down| > 1 { assert down[..|down| - 1][0] == down[0]; }
  }

  lemma HearFramesSelf(p: Platform, s: State, v: nat, room: bool)
    requires v in s.clients && v in s.up && v in s.down && Each(s, v) && s.down[v] != [] && Framed(p, s, v)
    requires s.clients[v].phase == Boot || s.clients[v].phase == Frozen
    ensures Framed(p, DoHear(s, v, room), v)
  {
    GotoIsLast(s, v);
  }

  lemma HearFramed(p: Platform, s: State, v: nat, room: bool, w: nat)
    requires v in s.clients && v in s.up && v in s.down && Each(s, v) && s.down[v] != [] && Framed(p, s, w)
    requires s.clients[v].phase == Boot || s.clients[v].phase == Frozen
    ensures Framed(p, DoHear(s, v, room), w)
  {
    if w == v { HearFramesSelf(p, s, v, room); } else { HearOnly(s, v, room); }
  }

  lemma BeginFramed(p: Platform, s: State, nextEvent: Instant, w: nat)
    requires Dated(Deadline(Pruned(p, s.coord), nextEvent)) && Framed(p, s, w)
    ensures Framed(p, DoBegin(p, s, nextEvent), w)
  {}

  lemma QuietFramed(p: Platform, s: State, a: Step, w: nat)
    requires Enabled(p, s, a) && (a.Visit? || a.Collect? || a.Lose? || a.Abort? || a.Send? || a.Flush? || a.Die?) && Framed(p, s, w)
    ensures Framed(p, Do(p, s, a), w)
  {}

  lemma StepFramed(p: Platform, s: State, a: Step, w: nat)
    requires Good(p, s) && Enabled(p, s, a) && Framed(p, s, w)
    ensures Framed(p, Do(p, s, a), w)
  {
    match a
    case Begin(nextEvent) => BeginFramed(p, s, nextEvent, w);
    case End(ms, ends, outs) => EndFramed(p, s, a, w);
    case Hear(v, room) => assert Each(s, v); HearFramed(p, s, v, room, w);
    case _ => QuietFramed(p, s, a, w);
  }

  lemma {:induction false} RunFramed(p: Platform, run: seq<State>, acts: seq<Step>, i: nat, w: nat)
    requires IsRun(p, run, acts) && i < |run|
    ensures Framed(p, run[i], w)
  {
    if i > 0 {
      RunFramed(p, run, acts, i - 1, w);
      RunGood(p, run, acts, i - 1);
      StepFramed(p, run[i - 1], acts[i - 1], w);
    }
  }

  lemma ReadIs(s: State, v: nat, room: bool)
    requires v in s.clients && v in s.up && v in s.down && Each(s, v) && s.down[v] != [] && s.down[v][0].DeliverPacket?
    requires (s.clients[v].phase == Boot || s.clients[v].phase == Frozen) && room
    ensures s.clients[v].phase == Frozen && DoHear(s, v, room).clients == s.clients
  {
    GotoIsLast(s, v);
  }

  /** What client v reads at this step. */
  predicate Reads(s: State, a: Step, m: OutputMsg) {
    a.Hear? && a.room && a.v in s.down && s.down[a.v] != [] && s.down[a.v][0] == V.DeliverPacket(m)
  }

  /**
   In every run, a packet is read only by its destination, which is stopped and stays so; if another VM
   sent it, the reader's time is beyond the sender's timestamp plus the latency of the route, minus 1 ns.
   */
  lemma ReadsAreCausal(p: Platform, run: seq<State>, acts: seq<Step>, i: nat, m: OutputMsg)
    requires IsRun(p, run, acts) && i < |acts| && Reads(run[i], acts[i], m)
    ensures acts[i].v in run[i].clients && run[i].clients[acts[i].v].phase == Frozen && run[i + 1].clients == run[i].clients
    ensures acts[i].v in run[i].down && run[i + 1].down == run[i].down[acts[i].v := run[i].down[acts[i].v][1..]]
    ensures Caused(p, run[i].coord.hosts, run[i].clients[acts[i].v].out.next, acts[i].v, m)
  {
    RunGood(p, run, acts, i);
    RunFramed(p, run, acts, i, acts[i].v);
    ReadIsCausal(p, run[i], acts[i], m);
  }

  lemma ReadIsCausal(p: Platform, s: State, a: Step, m: OutputMsg)
    requires AllEach(s) && Enabled(p, s, a) && Reads(s, a, m) && Framed(p, s, a.v)
    ensures a.v in s.clients && s.clients[a.v].phase == Frozen && Do(p, s, a).clients == s.clients
    ensures Do(p, s, a).down == s.down[a.v := s.down[a.v][1..]]
    ensures Caused(p, s.coord.hosts, s.clients[a.v].out.next, a.v, m)
  {
    assert Each(s, a.v);
    ReadIs(s, a.v, a.room);
    assert s.down[a.v][0].m == m;
  }
}
