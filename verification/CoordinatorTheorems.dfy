/**
 What every round keeps: the lookahead is computed on exactly the running VMs, so that nothing
 completes in the network before the deadline, and no message is lost or duplicated.
 */
module CoordinatorTheorems {
  import opened Basics
  import opened WireTime
  import opened Coordinator

  // ---------------------------------------------------------------- who is alive

  ghost predicate HasActor(actors: seq<Actor>, v: nat) {
    exists i :: 0 <= i < |actors| && actors[i].vm == v
  }

  /** Every running or just stopped VM is deployed and has an actor on its host, and there are no others. */
  ghost predicate Deployed(c: Coord) {
    && (forall v :: v in c.sockets ==> v in c.hosts && v !in c.trash)
    && (forall v :: v in c.trash ==> v in c.hosts)
    && (forall i :: 0 <= i < |c.actors| ==> c.actors[i].vm in c.hosts && c.actors[i].host == c.hosts[c.actors[i].vm])
    && (forall v :: HasActor(c.actors, v) <==> v in c.sockets || v in c.trash)
    && Distinct(c.actors)
  }

  ghost predicate Distinct(actors: seq<Actor>) {
    forall i, j :: 0 <= i < j < |actors| ==> actors[i].vm != actors[j].vm
  }

  ghost predicate OneVmPerHost(hosts: map<nat, nat>) {
    forall v, w :: v in hosts && w in hosts && v != w ==> hosts[v] != hosts[w]
  }

  lemma {:induction false} SurvivorsAre(actors: seq<Actor>, dead: set<nat>, a: Actor)
    ensures a in Survivors(actors, dead) <==> a in actors && a.host !in dead
  {
    if actors != [] {
      SurvivorsAre(actors[1..], dead, a);
      assert actors == [actors[0]] + actors[1..];
    }
  }

  /** The erase keeps the order and everything it should keep once. */
  lemma {:induction false} SurvivorsSplit(a: seq<Actor>, b: seq<Actor>, dead: set<nat>)
    ensures Survivors(a + b, dead) == Survivors(a, dead) + Survivors(b, dead)
  {
    if a == [] {
      assert a + b == b;
    } else {
      SurvivorsSplit(a[1..], b, dead);
      assert (a + b)[1..] == a[1..] + b && (a + b)[0] == a[0];
      Associates([a[0]], Survivors(a[1..], dead), Survivors(b, dead));
    }
  }

  lemma SurvivorsOne(a: Actor, dead: set<nat>)
    ensures Survivors([a], dead) == if a.host in dead then [] else [a]
  {
    assert [a][1..] == [];
  }

  lemma {:induction false} SurvivorsDistinct(actors: seq<Actor>, dead: set<nat>)
    requires Distinct(actors)
    ensures Distinct(Survivors(actors, dead))
  {
    if actors != [] {
      SurvivorsDistinct(actors[1..], dead);
      var rest := Survivors(actors[1..], dead);
      forall k | 0 <= k < |rest| ensures rest[k].vm != actors[0].vm { SurvivorsAre(actors[1..], dead, rest[k]); }
    }
  }

  lemma ActorOf(c: Coord, v: nat)
    requires Deployed(c)
    ensures HasActor(c.actors, v) <==> v in c.hosts && Actor(v, c.hosts[v]) in c.actors
  {
    if HasActor(c.actors, v) {
      var i :| 0 <= i < |c.actors| && c.actors[i].vm == v;
      assert c.actors[i] == Actor(v, c.hosts[v]);
    }
  }

  lemma PrunedActor(p: Platform, c: Coord, v: nat)
    requires Deployed(c)
    ensures HasActor(Pruned(p, c).actors, v) <==>
      (v in c.sockets || v in c.trash) && v in c.hosts && c.hosts[v] !in DeadHosts(c)
  {
    ActorOf(c, v);
    var actors := Pruned(p, c).actors;
    forall a ensures a in actors <==> a in c.actors && a.host !in DeadHosts(c) {
      SurvivorsAre(c.actors, DeadHosts(c), a);
      if c.trash == [] { assert DeadHosts(c) == {}; }
    }
    if HasActor(actors, v) {
      var i :| 0 <= i < |actors| && actors[i].vm == v;
      assert actors[i] in c.actors;
    }
  }

  /**
   Removing stopped VMs by host name leaves exactly the running ones if and only if no stopped VM
   shared its host with a running one.
   */
  lemma PruningIsExactIff(p: Platform, c: Coord)
    requires Deployed(c)
    ensures (forall v :: HasActor(Pruned(p, c).actors, v) <==> v in c.sockets)
       <==> (forall d, v :: d in c.trash && v in c.sockets ==> c.hosts[d] != c.hosts[v])
  {
    forall v ensures HasActor(Pruned(p, c).actors, v) <==>
      (v in c.sockets || v in c.trash) && v in c.hosts && c.hosts[v] !in DeadHosts(c)
    {
      PrunedActor(p, c, v);
    }
    forall v | v in c.trash ensures c.hosts[v] in DeadHosts(c) {}
  }

  // ---------------------------------------------------------------- the oracle

  /** Latencies between different VMs are positive, and a forced latency does not exceed them. */
  ghost predicate PlatformOk(p: Platform, hosts: map<nat, nat>) {
    forall v, w :: v in hosts && w in hosts && v != w ==>
      p.latency(hosts[v], hosts[w]) > 0.0 && p.forced <= p.latency(hosts[v], hosts[w])
  }

  /** The next event is in the future and no pending communication finishes strictly before it. */
  ghost predicate EventOk(c: Coord, nextEvent: Instant) {
    && Lt(At(c.clock), nextEvent)
    && forall x :: x in c.pending ==> Le(x.finish, At(c.clock)) || Le(nextEvent, x.finish)
  }

  /** Each new communication takes at least the latency of its route. */
  ghost predicate EndsOk(p: Platform, clock: real, ms: seq<OutputMsg>, hosts: map<nat, nat>, ends: seq<Instant>) {
    && |ends| == |ms|
    && forall i :: 0 <= i < |ms| && ms[i].src in hosts && ms[i].dst in hosts ==>
         Le(At(ClockAfter(clock, ms[..i + 1]) + p.latency(hosts[ms[i].src], hosts[ms[i].dst])), ends[i])
  }

  /** The messages were sent by running VMs, in order, and not after the deadline. */
  ghost predicate MessagesOk(c: Coord, ms: seq<OutputMsg>, deadline: Instant) {
    && SortedByTime(ms)
    && forall m :: m in ms ==> m.src in c.sockets && Le(At(SentTime(m)), deadline)
  }

  // ---------------------------------------------------------------- conservation

  /** How many communications carry message m. */
  function Carrying(cs: seq<Comm>, m: OutputMsg): nat {
    if cs == [] then 0 else Carrying(cs[1..], m) + if cs[0].cargo == m then 1 else 0
  }

  lemma {:induction false} CarryingAppend(a: seq<Comm>, b: seq<Comm>, m: OutputMsg)
    ensures Carrying(a + b, m) == Carrying(a, m) + Carrying(b, m)
  {
    if a == [] {
      assert a + b == b;
    } else {
      CarryingAppend(a[1..], b, m);
      assert (a + b)[1..] == a[1..] + b;
    }
  }

  /** A finished communication leaves the list exactly once, to one of two fates. */
  lemma {:induction false} DeliverySplits(cs: seq<Comm>, t: real, running: set<nat>, m: OutputMsg)
    ensures Carrying(cs, m) == Carrying(Unfinished(cs, t), m) + Arrived(cs, t, running, true)[m] + Arrived(cs, t, running, false)[m]
  {
    if cs != [] {
      DeliverySplits(cs[1..], t, running, m);
      if !Le(cs[0].finish, At(t)) {
        assert ([cs[0]] + Unfinished(cs[1..], t))[1..] == Unfinished(cs[1..], t);
      }
    }
  }

  lemma LaunchOne(clock: real, ms: seq<OutputMsg>, hosts: map<nat, nat>, ends: seq<Instant>, m: OutputMsg)
    requires ms != [] && |ms| == |ends| && forall x :: x in ms ==> x.src in hosts
    ensures var n := |ms| - 1;
      Carrying(Launched(clock, ms, hosts, ends), m)
      == Carrying(Launched(clock, ms[..n], hosts, ends[..n]), m) + if ms[n] == m && m.dst in hosts then 1 else 0
  {
    var n := |ms| - 1;
    if ms[n].dst in hosts {
      var last := Comm(ms[n], hosts[ms[n].src], hosts[ms[n].dst], ClockAfter(clock, ms), ends[n]);
      CarryingAppend(Launched(clock, ms[..n], hosts, ends[..n]), [last], m);
    }
  }

  lemma UnknownOne(ms: seq<OutputMsg>, hosts: map<nat, nat>, m: OutputMsg)
    requires ms != []
    ensures var n := |ms| - 1;
      && multiset(ms)[m] == multiset(ms[..n])[m] + (if ms[n] == m then 1 else 0)
      && multiset(Unknown(ms, hosts))[m]
         == multiset(Unknown(ms[..n], hosts))[m] + if ms[n] == m && m.dst !in hosts then 1 else 0
  {
    assert ms == ms[..|ms| - 1] + [ms[|ms| - 1]];
  }

  /** A collected message is either started or counted as unknown. */
  lemma {:induction false} LaunchSplits(clock: real, ms: seq<OutputMsg>, hosts: map<nat, nat>, ends: seq<Instant>, m: OutputMsg)
    requires |ms| == |ends| && forall x :: x in ms ==> x.src in hosts
    ensures multiset(ms)[m] == Carrying(Launched(clock, ms, hosts, ends), m) + multiset(Unknown(ms, hosts))[m]
  {
    if ms != [] {
      var n := |ms| - 1;
      LaunchSplits(clock, ms[..n], hosts, ends[..n], m);
      LaunchOne(clock, ms, hosts, ends, m);
      UnknownOne(ms, hosts, m);
    }
  }

  /** Collected messages are those under way, delivered or dropped, each in one class only. */
  ghost predicate Conserved(c: Coord, m: OutputMsg) {
    c.collected[m] == Carrying(c.pending, m) + c.delivered[m] + c.dropped[m]
  }

  lemma RoundConserves(c: Coord, deadline: Instant, ms: seq<OutputMsg>, gone: seq<nat>, ends: seq<Instant>, m: OutputMsg)
    requires |ms| == |ends| && forall x :: x in ms ==> x.src in c.hosts
    requires Conserved(c, m)
    ensures Conserved(Finished(c, deadline, ms, gone, ends), m)
  {
    var launched := Launched(c.clock, ms, c.hosts, ends);
    var c' := Finished(c, deadline, ms, gone, ends);
    LaunchSplits(c.clock, ms, c.hosts, ends, m);
    CarryingAppend(c.pending, launched, m);
    DeliverySplits(c.pending + launched, c'.clock, c'.sockets, m);
  }

  // ---------------------------------------------------------------- invariant of the rounds

  ghost predicate Inv(p: Platform, c: Coord) {
    && Deployed(c) && OneVmPerHost(c.hosts) && PlatformOk(p, c.hosts)
    && c.minLatency == MinLatency(p, c.actors)
    && (forall x :: x in c.pending ==> Lt(At(c.clock), x.finish))
    && (forall m :: Conserved(c, m))
  }

  lemma PrunedInv(p: Platform, c: Coord)
    requires Inv(p, c)
    ensures var c1 := Pruned(p, c);
      && (forall v :: HasActor(c1.actors, v) <==> v in c1.sockets)
      && (forall i :: 0 <= i < |c1.actors| ==> c1.actors[i].vm in c.hosts && c1.actors[i].host == c.hosts[c1.actors[i].vm])
      && Distinct(c1.actors) && c1.minLatency == MinLatency(p, c1.actors)
  {
    PruningIsExactIff(p, c);
    SurvivorsDistinct(c.actors, DeadHosts(c));
    var c1 := Pruned(p, c);
    forall i | 0 <= i < |c1.actors| ensures c1.actors[i] in c.actors {
      SurvivorsAre(c.actors, DeadHosts(c), c1.actors[i]);
    }
  }

  /** The lookahead of a round never exceeds the latency between two different running VMs. */
  lemma LookaheadBelowLatency(p: Platform, c: Coord, v: nat, w: nat)
    requires Inv(p, c) && v in c.sockets && w in c.sockets && v != w
    ensures Le(Pruned(p, c).minLatency, At(p.latency(c.hosts[v], c.hosts[w])))
  {
    PrunedInv(p, c);
    var actors := Pruned(p, c).actors;
    LeastLatencyIsMin(p, actors);
    var i :| 0 <= i < |actors| && actors[i].vm == v;
    var j :| 0 <= j < |actors| && actors[j].vm == w;
  }

  /** Two running VMs whose latency is the lookahead. */
  lemma LookaheadReached(p: Platform, c: Coord) returns (v: nat, w: nat)
    requires Inv(p, c) && p.forced < 0.0 && Pruned(p, c).minLatency.At?
    ensures v in c.sockets && w in c.sockets && v != w && v in c.hosts && w in c.hosts
    ensures Pruned(p, c).minLatency.t == p.latency(c.hosts[v], c.hosts[w])
  {
    PrunedInv(p, c);
    LeastLatencyIsMin(p, Pruned(p, c).actors);
    v, w := ReachedByVms(p, c.hosts, Pruned(p, c).actors, Pruned(p, c).minLatency);
  }

  lemma ReachedByVms(p: Platform, hosts: map<nat, nat>, actors: seq<Actor>, r: Instant) returns (v: nat, w: nat)
    requires IsMinLatency(p, actors, r) && r.At? && Distinct(actors)
    requires forall i :: 0 <= i < |actors| ==> actors[i].vm in hosts && actors[i].host == hosts[actors[i].vm]
    ensures HasActor(actors, v) && HasActor(actors, w) && v != w && v in hosts && w in hosts && r.t == p.latency(hosts[v], hosts[w])
  {
    var i, j :| 0 <= i < |actors| && 0 <= j < |actors| && i != j && r.t == p.latency(actors[i].host, actors[j].host);
    v, w := actors[i].vm, actors[j].vm;
  }

  /**
   The deadline of a round, in terms of the platform and the running VMs: not after the next event, not
   after the clock plus the latency between any two of them (or the forced one), and equal to one of these.
   */
  lemma DeadlineIs(p: Platform, c: Coord, nextEvent: Instant)
    requires Inv(p, c)
    ensures var d := Deadline(Pruned(p, c), nextEvent);
      && Le(d, nextEvent)
      && (p.forced >= 0.0 ==> Le(d, At(c.clock + p.forced)) && (d == nextEvent || d == At(c.clock + p.forced)))
      && (p.forced < 0.0 ==>
            && (forall v, w :: v in c.sockets && w in c.sockets && v != w ==> Le(d, At(c.clock + p.latency(c.hosts[v], c.hosts[w]))))
            && (d == nextEvent || exists v, w :: v in c.sockets && w in c.sockets && v != w && d == At(c.clock + p.latency(c.hosts[v], c.hosts[w]))))
  {
    if p.forced < 0.0 {
      forall v, w | v in c.sockets && w in c.sockets && v != w
        ensures Le(Deadline(Pruned(p, c), nextEvent), At(c.clock + p.latency(c.hosts[v], c.hosts[w])))
      {
        LookaheadBelowLatency(p, c, v, w);
      }
      if Pruned(p, c).minLatency.At? { var v, w := LookaheadReached(p, c); }
    }
  }

  /**
   No later date is safe: it is beyond the next event, or there are messages of running VMs, stamped in
   time, and a network that respects the latencies, so that one of them finishes strictly before it.
   */
  lemma LaterIsUnsafe(p: Platform, c: Coord, nextEvent: Instant, later: Instant, payload: seq<Byte>) returns (ms: seq<OutputMsg>, x: Comm)
    requires Inv(p, c) && c.clock >= 0.0 && p.forced < 0.0 && Lt(Deadline(Pruned(p, c), nextEvent), later) && Le(later, nextEvent)
    ensures MessagesOk(c, ms, later) && EndsOk(p, c.clock, ms, c.hosts, [x.finish])
    ensures |ms| == 1 && x.cargo == ms[0] && x.cargo.src in c.sockets && x.cargo.dst in c.sockets && x.cargo.src != x.cargo.dst
    ensures x in Launched(c.clock, ms, c.hosts, [x.finish]) && Lt(x.finish, later)
  {
    var v, w := LookaheadReached(p, c);
    FloorWithinOneNs(c.clock);
    var m := OutputMsg(v, w, FloorNs(c.clock), payload);
    var finish := At(c.clock + p.latency(c.hosts[v], c.hosts[w]));
    ms, x := [m], Comm(m, c.hosts[v], c.hosts[w], c.clock, finish);
    assert ms[..0] == [] && [x.finish][..0] == [] && ms[..1] == ms;
    assert ClockAfter(c.clock, ms) == c.clock;
    assert Launched(c.clock, ms, c.hosts, [x.finish]) == [x];
    LatencyPositive(p, c, v, w);
  }

  lemma LatencyPositive(p: Platform, c: Coord, v: nat, w: nat)
    requires Inv(p, c) && v in c.sockets && w in c.sockets && v != w
    ensures p.latency(c.hosts[v], c.hosts[w]) > 0.0
  {}

  /** Whatever the messages and the deadline, the clock ends at the latest of its old value, their timestamps and the deadline. */
  lemma RoundClock(c: Coord, deadline: Instant, ms: seq<OutputMsg>, ends: seq<Instant>)
    requires |ms| == |ends| && forall m :: m in ms ==> m.src in c.hosts
    ensures var t := Simulated(c, deadline, ms, ends).clock;
      && c.clock <= t && (deadline.At? ==> deadline.t <= t) && (forall m :: m in ms ==> SentTime(m) <= t)
      && (t == c.clock || (deadline.At? && t == deadline.t) || exists m :: m in ms && t == SentTime(m))
  {
    ClockAfterIs(c.clock, ms);
  }

  lemma {:induction false} ClockAfterIs(clock: real, ms: seq<OutputMsg>)
    ensures clock <= ClockAfter(clock, ms) && forall m :: m in ms ==> SentTime(m) <= ClockAfter(clock, ms)
    ensures ClockAfter(clock, ms) == clock || exists m :: m in ms && ClockAfter(clock, ms) == SentTime(m)
  {
    if ms != [] {
      var n := |ms| - 1;
      ClockAfterIs(clock, ms[..n]);
      assert ms == ms[..n] + [ms[n]] && ms[n] in ms;
      assert forall m :: m in ms[..n] ==> m in ms;
    }
  }

  lemma {:induction false} ClockAfterBounds(clock: real, ms: seq<OutputMsg>)
    ensures clock <= ClockAfter(clock, ms)
    ensures ms != [] ==> SentTime(ms[|ms| - 1]) <= ClockAfter(clock, ms)
  {
    if ms != [] { ClockAfterBounds(clock, ms[..|ms| - 1]); }
  }

  lemma {:induction false} ClockAfterBelow(clock: real, ms: seq<OutputMsg>, hi: real)
    requires clock <= hi && forall m :: m in ms ==> SentTime(m) <= hi
    ensures ClockAfter(clock, ms) <= hi
  {
    if ms != [] { ClockAfterBelow(clock, ms[..|ms| - 1], hi); }
  }

  /** Which message a started communication carries, and when it starts. */
  lemma {:induction false} LaunchedIs(clock: real, ms: seq<OutputMsg>, hosts: map<nat, nat>, ends: seq<Instant>, x: Comm) returns (i: nat)
    requires |ms| == |ends| && forall m :: m in ms ==> m.src in hosts
    requires x in Launched(clock, ms, hosts, ends)
    ensures i < |ms| && ms[i].dst in hosts
    ensures x == Comm(ms[i], hosts[ms[i].src], hosts[ms[i].dst], ClockAfter(clock, ms[..i + 1]), ends[i])
  {
    var n := |ms| - 1;
    if x in Launched(clock, ms[..n], hosts, ends[..n]) {
      i := LaunchedIs(clock, ms[..n], hosts, ends[..n], x);
      assert ms[..n][..i + 1] == ms[..i + 1];
    } else {
      i := n;
      assert ms[..n + 1] == ms;
    }
  }

  lemma {:induction false} UnfinishedAre(cs: seq<Comm>, t: real, x: Comm)
    ensures x in Unfinished(cs, t) <==> x in cs && Lt(At(t), x.finish)
  {
    if cs != [] {
      UnfinishedAre(cs[1..], t, x);
      assert cs == [cs[0]] + cs[1..];
    }
  }

  /** The round of an oracle-abiding simulator and of disciplined VMs. */
  ghost predicate RoundOk(p: Platform, c: Coord, nextEvent: Instant, ms: seq<OutputMsg>, gone: seq<nat>, ends: seq<Instant>) {
    && Inv(p, c) && EventOk(c, nextEvent)
    && MessagesOk(c, ms, Deadline(Pruned(p, c), nextEvent))
    && EndsOk(p, c.clock, ms, c.hosts, ends)
    && forall v :: v in gone ==> v in c.sockets
  }

  function RoundOf(p: Platform, c: Coord, nextEvent: Instant, ms: seq<OutputMsg>, gone: seq<nat>, ends: seq<Instant>): Coord
    requires |ms| == |ends| && forall m :: m in ms ==> m.src in c.hosts
  {
    Finished(Pruned(p, c), Deadline(Pruned(p, c), nextEvent), ms, gone, ends)
  }

  /** The deadline is not in the past; a finite round ends exactly at its deadline. */
  lemma RoundEndsAtDeadline(p: Platform, c: Coord, nextEvent: Instant, ms: seq<OutputMsg>, gone: seq<nat>, ends: seq<Instant>)
    requires RoundOk(p, c, nextEvent, ms, gone, ends)
    ensures var deadline, c' := Deadline(Pruned(p, c), nextEvent), RoundOf(p, c, nextEvent, ms, gone, ends);
      && Le(At(c.clock), deadline) && c.clock <= c'.clock
      && (deadline.At? ==> c'.clock == deadline.t)
      && (p.forced != 0.0 ==> Lt(At(c.clock), deadline))
  {
    LookaheadPositive(p, c);
    ClockAfterBounds(c.clock, ms);
    var deadline := Deadline(Pruned(p, c), nextEvent);
    if deadline.At? { ClockAfterBelow(c.clock, ms, deadline.t); }
  }

  lemma LookaheadPositive(p: Platform, c: Coord)
    requires Inv(p, c)
    ensures Pruned(p, c).minLatency.At? ==> Pruned(p, c).minLatency.t >= 0.0
    ensures Pruned(p, c).minLatency.At? && p.forced != 0.0 ==> Pruned(p, c).minLatency.t > 0.0
  {
    PrunedInv(p, c);
    var actors := Pruned(p, c).actors;
    LeastLatencyIsMin(p, actors);
    if p.forced < 0.0 && LeastLatency(p, actors).At? {
      var i, j :| 0 <= i < |actors| && 0 <= j < |actors| && i != j
                  && LeastLatency(p, actors).t == p.latency(actors[i].host, actors[j].host);
      assert actors[i].vm != actors[j].vm;
    }
  }

  lemma RoundKeepsInv(p: Platform, c: Coord, nextEvent: Instant, ms: seq<OutputMsg>, gone: seq<nat>, ends: seq<Instant>)
    requires RoundOk(p, c, nextEvent, ms, gone, ends)
    ensures Inv(p, RoundOf(p, c, nextEvent, ms, gone, ends))
  {
    PrunedInv(p, c);
    var c1, c' := Pruned(p, c), RoundOf(p, c, nextEvent, ms, gone, ends);
    forall m ensures Conserved(c', m) {
      assert Conserved(c, m);
      RoundConserves(c1, Deadline(c1, nextEvent), ms, gone, ends, m);
    }
    var flying := c1.pending + Launched(c1.clock, ms, c1.hosts, ends);
    forall x | x in c'.pending ensures Lt(At(c'.clock), x.finish) {
      UnfinishedAre(flying, c'.clock, x);
    }
  }

  /**
   Lookahead is exact: whatever a round delivers to a running VM other than the sender finished in the
   network at the round's deadline, neither earlier nor later.
   */
  lemma LookaheadIsExact(p: Platform, c: Coord, nextEvent: Instant, ms: seq<OutputMsg>, gone: seq<nat>, ends: seq<Instant>, x: Comm)
    requires RoundOk(p, c, nextEvent, ms, gone, ends)
    requires x in c.pending + Launched(c.clock, ms, c.hosts, ends)
    requires var c' := RoundOf(p, c, nextEvent, ms, gone, ends);
      Le(x.finish, At(c'.clock)) && x.cargo.dst in c'.sockets && x.cargo.src != x.cargo.dst
    ensures Deadline(Pruned(p, c), nextEvent) == x.finish == At(RoundOf(p, c, nextEvent, ms, gone, ends).clock)
  {
    var deadline := Deadline(Pruned(p, c), nextEvent);
    RoundEndsAtDeadline(p, c, nextEvent, ms, gone, ends);
    if x !in c.pending {
      var i := LaunchedIs(c.clock, ms, c.hosts, ends, x);
      ClockAfterBounds(c.clock, ms[..i + 1]);
      LookaheadBelowLatency(p, c, ms[i].src, ms[i].dst);
    }
    assert Le(deadline, x.finish);
  }

  /** Nothing under way arrives before it was sent plus the latency of its route. */
  ghost predicate Timely(p: Platform, c: Coord, x: Comm) {
    && x.cargo.src in c.hosts && x.cargo.dst in c.hosts
    && Le(At(SentTime(x.cargo) + p.latency(c.hosts[x.cargo.src], c.hosts[x.cargo.dst])), x.finish)
  }

  lemma LaunchedTimely(p: Platform, c: Coord, ms: seq<OutputMsg>, ends: seq<Instant>, x: Comm)
    requires |ms| == |ends| && (forall m :: m in ms ==> m.src in c.hosts) && EndsOk(p, c.clock, ms, c.hosts, ends)
    requires x in Launched(c.clock, ms, c.hosts, ends)
    ensures Timely(p, c, x)
  {
    var i := LaunchedIs(c.clock, ms, c.hosts, ends, x);
    ClockAfterBounds(c.clock, ms[..i + 1]);
  }

  lemma RoundKeepsTimely(p: Platform, c: Coord, nextEvent: Instant, ms: seq<OutputMsg>, gone: seq<nat>, ends: seq<Instant>, x: Comm)
    requires |ms| == |ends| && (forall m :: m in ms ==> m.src in c.hosts) && EndsOk(p, c.clock, ms, c.hosts, ends)
    requires forall y :: y in c.pending ==> Timely(p, c, y)
    requires x in RoundOf(p, c, nextEvent, ms, gone, ends).pending
    ensures Timely(p, RoundOf(p, c, nextEvent, ms, gone, ends), x)
  {
    var launched := Launched(c.clock, ms, c.hosts, ends);
    UnfinishedAre(c.pending + launched, RoundOf(p, c, nextEvent, ms, gone, ends).clock, x);
    if x in launched { LaunchedTimely(p, c, ms, ends, x); }
  }

  // ---------------------------------------------------------------- limits of the hypotheses

  /**
   The assertion for every message of a round, at the clock it is evaluated with: with timestamps not
   below the clock rounded down, it fails exactly for timestamp 0 and a clock strictly between epsilon
   and one nanosecond.
   */
  lemma CausalityAssertionIff(clock: real, ms: seq<OutputMsg>, k: nat)
    requires clock >= 0.0 && SortedByTime(ms) && k < |ms| && FloorNs(clock) <= ms[k].sendTime
    ensures CausalityAssertion(ClockAfter(clock, ms[..k]), ms[k].sendTime) <==> !(EPSILON < clock < NS && ms[k].sendTime == 0)
  {
    FloorWithinOneNs(clock);
    ClockAfterBounds(clock, ms[..k]);
    ClockAfterBelow(clock, ms[..k], Max(clock, SentTime(ms[k])));
    TwiceIsEnough(clock, ms[k].sendTime);
  }

  /** For all times: the assertion fails exactly if the clock is beyond twice the timestamp by more than 2^-52 s. */
  lemma AssertionFailsIff(time: real, sent: nat)
    ensures !CausalityAssertion(time, sent) <==> (time - 2.0 * (sent as real / 1_000_000_000.0)) * 4503599627370496.0 > 1.0
  {}

  lemma TwiceIsEnough(clock: real, sent: nat)
    requires clock >= 0.0 && FloorNs(clock) <= sent
    ensures CausalityAssertion(clock, sent) <==> !(EPSILON < clock < NS && sent == 0)
  {
    FloorWithinOneNs(clock);
    if clock >= NS { assert FloorNs(clock) >= 1; }
  }

  /**
   A forced latency above the real one makes the lookahead wrong: from the initial state there is a
   round in which a message finishes strictly before the deadline at which it is delivered.
   */
  lemma ForcedLatencyTooLarge(p: Platform, c: Coord, v: nat, w: nat, payload: seq<Byte>) returns (ms: seq<OutputMsg>, x: Comm)
    requires Deployed(c) && c.clock == 0.0 && c.pending == [] && c.trash == [] && c.minLatency == MinLatency(p, c.actors)
    requires v in c.sockets && w in c.sockets && v != w && 0.0 < p.latency(c.hosts[v], c.hosts[w]) < p.forced
    ensures EventOk(c, Never) && MessagesOk(c, ms, Deadline(Pruned(p, c), Never)) && EndsOk(p, 0.0, ms, c.hosts, [x.finish])
    ensures x in Launched(0.0, ms, c.hosts, [x.finish]) && x.cargo.src == v && x.cargo.dst == w
    ensures Lt(x.finish, Deadline(Pruned(p, c), Never))
    ensures x.cargo in RoundOf(p, c, Never, ms, [], [x.finish]).delivered
  {
    var m := OutputMsg(v, w, 0, payload);
    var latency := p.latency(c.hosts[v], c.hosts[w]);
    ms, x := [m], Comm(m, c.hosts[v], c.hosts[w], 0.0, At(latency));
    assert ms[..0] == [] && [x.finish][..0] == [] && ms[..1] == ms;
    assert ClockAfter(0.0, ms) == 0.0;
    assert Launched(0.0, ms, c.hosts, [x.finish]) == [x];
    assert [] + [x] == [x];
  }
}
