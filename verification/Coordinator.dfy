/**
 The coordinator's round: drop dead VMs, pick the next deadline, start a communication for every
 collected message, advance the clock and deliver what the network has finished.  The simulator is
 an oracle: each communication has a finish date, fixed when it starts, that respects the latency.
 */
module Coordinator {
  import opened Basics
  import opened WireTime

  /** The simulated platform; a forced latency (if not negative) replaces the computed minimum. */
  datatype Platform = Platform(latency: (nat, nat) -> real, forced: real)

  /** One actor per VM, on a host. */
  datatype Actor = Actor(vm: nat, host: nat)

  /** A message travelling in the simulated network. */
  datatype Comm = Comm(cargo: OutputMsg, srcHost: nat, dstHost: nat, start: real, finish: Instant)

  /**
   The state between rounds.  `trash` holds the VMs that stopped in the last round; `collected`,
   `delivered` and `dropped` are auxiliary counts of messages.
   */
  datatype Coord = Coord(
    clock: real,
    minLatency: Instant,
    actors: seq<Actor>,
    sockets: set<nat>,
    trash: seq<nat>,
    hosts: map<nat, nat>,
    pending: seq<Comm>,
    collected: multiset<OutputMsg>,
    delivered: multiset<OutputMsg>,
    dropped: multiset<OutputMsg>)

  // ---------------------------------------------------------------- lookahead

  /** r is the least latency between two different actors (infinite when there are no two). */
  ghost predicate IsMinLatency(p: Platform, actors: seq<Actor>, r: Instant) {
    && (forall i, j :: 0 <= i < |actors| && 0 <= j < |actors| && i != j ==>
          Le(r, At(p.latency(actors[i].host, actors[j].host))))
    && (r.At? ==> exists i, j :: 0 <= i < |actors| && 0 <= j < |actors| && i != j
                                 && r.t == p.latency(actors[i].host, actors[j].host))
  }

  /** r is the least latency between a and the other actors, either way. */
  ghost predicate IsCross(p: Platform, actors: seq<Actor>, a: Actor, r: Instant) {
    && (forall i :: 0 <= i < |actors| ==>
          Le(r, At(p.latency(a.host, actors[i].host))) && Le(r, At(p.latency(actors[i].host, a.host))))
    && (r.At? ==> exists i ::
          0 <= i < |actors| && (r.t == p.latency(a.host, actors[i].host) || r.t == p.latency(actors[i].host, a.host)))
  }

  function Cross(p: Platform, actors: seq<Actor>, a: Actor): Instant {
    if actors == [] then Never
    else
      var b := actors[|actors| - 1];
      Min(Cross(p, actors[..|actors| - 1], a), Min(At(p.latency(a.host, b.host)), At(p.latency(b.host, a.host))))
  }

  function LeastLatency(p: Platform, actors: seq<Actor>): Instant {
    if actors == [] then Never
    else Min(LeastLatency(p, actors[..|actors| - 1]), Cross(p, actors[..|actors| - 1], actors[|actors| - 1]))
  }

  function MinLatency(p: Platform, actors: seq<Actor>): Instant {
    if p.forced >= 0.0 then At(p.forced) else LeastLatency(p, actors)
  }

  lemma {:induction false} CrossIsMin(p: Platform, actors: seq<Actor>, a: Actor)
    ensures IsCross(p, actors, a, Cross(p, actors, a))
  {
    if actors != [] {
      var last := |actors| - 1;
      CrossIsMin(p, actors[..last], a);
      assert forall i :: 0 <= i < last ==> actors[..last][i] == actors[i];
    }
  }

  lemma BelowPair(p: Platform, front: seq<Actor>, a: Actor, least: Instant, cross: Instant, i: nat, j: nat)
    requires IsMinLatency(p, front, least) && IsCross(p, front, a, cross) && i <= |front| && j <= |front| && i != j
    ensures Le(Min(least, cross), At(p.latency((front + [a])[i].host, (front + [a])[j].host)))
  {
    if i == |front| {
      assert Le(cross, At(p.latency(a.host, front[j].host)));
    } else if j == |front| {
      assert Le(cross, At(p.latency(front[i].host, a.host)));
    } else {
      assert Le(least, At(p.latency(front[i].host, front[j].host)));
    }
  }

  lemma ReachedByPair(p: Platform, front: seq<Actor>, a: Actor, least: Instant, cross: Instant) returns (i: nat, j: nat)
    requires IsMinLatency(p, front, least) && IsCross(p, front, a, cross) && Min(least, cross).At?
    ensures i <= |front| && j <= |front| && i != j
    ensures Min(least, cross).t == p.latency((front + [a])[i].host, (front + [a])[j].host)
  {
    if Min(least, cross) == least {
      i, j :| 0 <= i < |front| && 0 <= j < |front| && i != j && least.t == p.latency(front[i].host, front[j].host);
    } else {
      var k :| 0 <= k < |front| && (cross.t == p.latency(a.host, front[k].host) || cross.t == p.latency(front[k].host, a.host));
      if cross.t == p.latency(a.host, front[k].host) { i, j := |front|, k; } else { i, j := k, |front|; }
    }
  }

  /** Adding one actor: the least latency so far and its cross latencies give the new least latency. */
  lemma OneMoreActor(p: Platform, front: seq<Actor>, a: Actor, least: Instant, cross: Instant)
    requires IsMinLatency(p, front, least) && IsCross(p, front, a, cross)
    ensures IsMinLatency(p, front + [a], Min(least, cross))
  {
    var actors := front + [a];
    forall i, j | 0 <= i < |actors| && 0 <= j < |actors| && i != j
      ensures Le(Min(least, cross), At(p.latency(actors[i].host, actors[j].host)))
    {
      BelowPair(p, front, a, least, cross, i, j);
    }
    if Min(least, cross).At? {
      var i, j := ReachedByPair(p, front, a, least, cross);
    }
  }

  lemma {:induction false} LeastLatencyIsMin(p: Platform, actors: seq<Actor>)
    ensures IsMinLatency(p, actors, LeastLatency(p, actors))
  {
    if actors != [] {
      var last := |actors| - 1;
      LeastLatencyIsMin(p, actors[..last]);
      CrossIsMin(p, actors[..last], actors[last]);
      OneMoreActor(p, actors[..last], actors[last], LeastLatency(p, actors[..last]), Cross(p, actors[..last], actors[last]));
      assert actors[..last] + [actors[last]] == actors;
    }
  }

  lemma MinLatencyUnique(p: Platform, actors: seq<Actor>, r: Instant, r': Instant)
    requires IsMinLatency(p, actors, r) && IsMinLatency(p, actors, r')
    ensures r == r'
  {}

  /** r is the first date after the clock at which some model announces an event. */
  ghost predicate IsNextEvent(clock: real, events: seq<real>, r: Instant) {
    && (forall i :: 0 <= i < |events| && events[i] > 0.0 ==> Le(r, At(clock + events[i])))
    && (r.At? ==> exists i :: 0 <= i < |events| && events[i] > 0.0 && r.t == clock + events[i])
  }

  // ---------------------------------------------------------------- the round

  function Survivors(actors: seq<Actor>, dead: set<nat>): seq<Actor> {
    if actors == [] then []
    else if actors[0].host in dead then Survivors(actors[1..], dead)
    else [actors[0]] + Survivors(actors[1..], dead)
  }

  function DeadHosts(c: Coord): set<nat> {
    set v | v in c.trash && v in c.hosts :: c.hosts[v]
  }

  /** Removal of the actors of stopped VMs, by host name. */
  function Pruned(p: Platform, c: Coord): Coord {
    if c.trash == [] then c
    else
      var actors := Survivors(c.actors, DeadHosts(c));
      c.(actors := actors, minLatency := MinLatency(p, actors))
  }

  function Deadline(c: Coord, nextEvent: Instant): Instant {
    Min(Plus(c.clock, c.minLatency), nextEvent)
  }

  function SentTime(m: OutputMsg): real { Seconds(m.sendTime) }

  predicate SortedByTime(ms: seq<OutputMsg>) {
    forall i, j :: 0 <= i < j < |ms| ==> ms[i].sendTime <= ms[j].sendTime
  }

  function Max(a: real, b: real): real { if a >= b then a else b }

  /** The clock after sleeping until each of the messages was sent. */
  function ClockAfter(clock: real, ms: seq<OutputMsg>): real {
    if ms == [] then clock else Max(ClockAfter(clock, ms[..|ms| - 1]), SentTime(ms[|ms| - 1]))
  }

  /** `numeric_limits<double>::epsilon()`, 2^-52. */
  const EPSILON: real := 1.0 / 4503599627370496.0

  /** The assertion before a message is started; it adds the timestamp twice. */
  predicate CausalityAssertion(time: real, sent: nat) {
    Seconds(sent) + (Seconds(sent) + EPSILON) >= time
  }

  /** What the coordinator asserts of the i-th message before it starts it. */
  predicate Passes(clock: real, ms: seq<OutputMsg>, hosts: map<nat, nat>, i: nat)
    requires i < |ms|
  {
    CausalityAssertion(ClockAfter(clock, ms[..i]), ms[i].sendTime) && ms[i].src in hosts
  }

  ghost predicate AllPass(clock: real, ms: seq<OutputMsg>, hosts: map<nat, nat>) {
    forall k :: 0 <= k < |ms| ==> Passes(clock, ms, hosts, k)
  }

  /** The communications started for the messages with a known destination; ends[i] belongs to ms[i]. */
  function Launched(clock: real, ms: seq<OutputMsg>, hosts: map<nat, nat>, ends: seq<Instant>): seq<Comm>
    requires |ms| == |ends| && forall m :: m in ms ==> m.src in hosts
  {
    if ms == [] then []
    else
      var n := |ms| - 1;
      var m, before := ms[n], Launched(clock, ms[..n], hosts, ends[..n]);
      if m.dst in hosts then before + [Comm(m, hosts[m.src], hosts[m.dst], ClockAfter(clock, ms), ends[n])] else before
  }

  /** The messages whose destination was never deployed. */
  function Unknown(ms: seq<OutputMsg>, hosts: map<nat, nat>): seq<OutputMsg> {
    if ms == [] then []
    else
      var m := ms[|ms| - 1];
      Unknown(ms[..|ms| - 1], hosts) + if m.dst in hosts then [] else [m]
  }

  /** Communications still under way at date t, in order. */
  function Unfinished(cs: seq<Comm>, t: real): seq<Comm> {
    if cs == [] then []
    else if Le(cs[0].finish, At(t)) then Unfinished(cs[1..], t)
    else [cs[0]] + Unfinished(cs[1..], t)
  }

  /** The messages of finished communications whose destination is (or is not) running. */
  function Arrived(cs: seq<Comm>, t: real, running: set<nat>, reachable: bool): multiset<OutputMsg> {
    if cs == [] then multiset{}
    else
      Arrived(cs[1..], t, running, reachable)
      + if Le(cs[0].finish, At(t)) && (cs[0].cargo.dst in running) == reachable then multiset{cs[0].cargo} else multiset{}
  }

  /** The network's part of a round, for the collected messages. */
  function Simulated(c: Coord, deadline: Instant, ms: seq<OutputMsg>, ends: seq<Instant>): Coord
    requires |ms| == |ends| && forall m :: m in ms ==> m.src in c.hosts
  {
    var woken := ClockAfter(c.clock, ms);
    var clock := if deadline.At? then Max(woken, deadline.t) else woken;
    var flying := c.pending + Launched(c.clock, ms, c.hosts, ends);
    c.(clock := clock,
       pending := Unfinished(flying, clock),
       collected := c.collected + multiset(ms),
       delivered := c.delivered + Arrived(flying, clock, c.sockets, true),
       dropped := c.dropped + multiset(Unknown(ms, c.hosts)) + Arrived(flying, clock, c.sockets, false))
  }

  /** The VMs in `gone` closed their socket while the messages were collected. */
  function Closed(c: Coord, gone: seq<nat>): Coord {
    c.(sockets := c.sockets - (set v | v in gone), trash := gone)
  }

  function Finished(c: Coord, deadline: Instant, ms: seq<OutputMsg>, gone: seq<nat>, ends: seq<Instant>): Coord
    requires |ms| == |ends| && forall m :: m in ms ==> m.src in c.hosts
  {
    Simulated(Closed(c, gone), deadline, ms, ends)
  }
}
