/** The loops of the coordinator, proved to perform the round specified in module Coordinator. */
module VmsCoordinator {
  import opened Basics
  import opened WireTime
  import opened Coordinator
  import V = VmsInterface

  // ---------------------------------------------------------------- removing finished communications

  /** `test_any` may report finished communications in any order: the result is the same. */
  lemma {:induction false} RemoveFinished(cs: seq<Comm>, i: nat, t: real)
    requires i < |cs| && Le(cs[i].finish, At(t))
    ensures Unfinished(cs[..i] + cs[i + 1..], t) == Unfinished(cs, t)
  {
    if i == 0 {
      assert cs[..0] + cs[1..] == cs[1..];
    } else {
      RemoveFinished(cs[1..], i - 1, t);
      assert (cs[..i] + cs[i + 1..])[1..] == cs[1..][..i - 1] + cs[1..][i..];
    }
  }

  lemma {:induction false} RemoveArrived(cs: seq<Comm>, i: nat, t: real, running: set<nat>, reachable: bool, m: OutputMsg)
    requires i < |cs| && Le(cs[i].finish, At(t))
    ensures Arrived(cs, t, running, reachable)[m] == Arrived(cs[..i] + cs[i + 1..], t, running, reachable)[m]
      + (if (cs[i].cargo.dst in running) == reachable && cs[i].cargo == m then 1 else 0)
  {
    if i == 0 {
      assert cs[..0] + cs[1..] == cs[1..];
    } else {
      RemoveArrived(cs[1..], i - 1, t, running, reachable, m);
      assert (cs[..i] + cs[i + 1..])[1..] == cs[1..][..i - 1] + cs[1..][i..];
    }
  }

  lemma {:induction false} NoneFinished(cs: seq<Comm>, t: real, running: set<nat>, reachable: bool)
    requires NoneDone(cs, t)
    ensures Unfinished(cs, t) == cs && Arrived(cs, t, running, reachable) == multiset{}
  {
    if cs != [] { NoneFinished(cs[1..], t, running, reachable); }
  }

  lemma {:induction false} SurvivorsTwice(actors: seq<Actor>, a: set<nat>, b: set<nat>)
    ensures Survivors(Survivors(actors, a), b) == Survivors(actors, a + b)
  {
    if actors != [] {
      SurvivorsTwice(actors[1..], a, b);
      if actors[0].host !in a {
        assert ([actors[0]] + Survivors(actors[1..], a))[1..] == Survivors(actors[1..], a);
      }
    }
  }

  /** The clock and the communications after the first i messages. */
  ghost predicate Started(clock: real, before: seq<Comm>, ms: seq<OutputMsg>, hosts: map<nat, nat>, ends: seq<Instant>, i: nat, now: real, cs: seq<Comm>)
    requires i <= |ms| == |ends| && forall m :: m in ms[..i] ==> m.src in hosts
  {
    now == ClockAfter(clock, ms[..i]) && cs == before + Launched(clock, ms[..i], hosts, ends[..i])
  }

  lemma OneMoreMessage(clock: real, before: seq<Comm>, ms: seq<OutputMsg>, hosts: map<nat, nat>, ends: seq<Instant>, i: nat,
                       now: real, cs: seq<Comm>, now': real, cs': seq<Comm>)
    requires i < |ms| == |ends| && (forall m :: m in ms[..i] ==> m.src in hosts) && ms[i].src in hosts
    requires Started(clock, before, ms, hosts, ends, i, now, cs) && now' == Max(now, SentTime(ms[i]))
    requires cs' == if ms[i].dst in hosts then cs + [Comm(ms[i], hosts[ms[i].src], hosts[ms[i].dst], now', ends[i])] else cs
    ensures forall m :: m in ms[..i + 1] ==> m.src in hosts
    ensures Started(clock, before, ms, hosts, ends, i + 1, now', cs')
  {
    assert ms[..i + 1] == ms[..i] + [ms[i]];
    assert ms[..i + 1][..i] == ms[..i] && ends[..i + 1][..i] == ends[..i];
  }

  /** The first i messages passed and were started. */
  ghost predicate Under(clock: real, before: seq<Comm>, ms: seq<OutputMsg>, hosts: map<nat, nat>, ends: seq<Instant>, i: nat, now: real, cs: seq<Comm>) {
    && i <= |ms| == |ends| && (forall m :: m in ms[..i] ==> m.src in hosts)
    && Started(clock, before, ms, hosts, ends, i, now, cs)
    && forall k :: 0 <= k < i ==> Passes(clock, ms, hosts, k)
  }

  lemma UnderMore(clock: real, before: seq<Comm>, ms: seq<OutputMsg>, hosts: map<nat, nat>, ends: seq<Instant>, i: nat,
                  now: real, cs: seq<Comm>, now': real, cs': seq<Comm>)
    requires Under(clock, before, ms, hosts, ends, i, now, cs) && i < |ms| && Passes(clock, ms, hosts, i)
    requires now' == Max(now, SentTime(ms[i]))
    requires cs' == if ms[i].dst in hosts then cs + [Comm(ms[i], hosts[ms[i].src], hosts[ms[i].dst], now', ends[i])] else cs
    ensures Under(clock, before, ms, hosts, ends, i + 1, now', cs')
  {
    OneMoreMessage(clock, before, ms, hosts, ends, i, now, cs, now', cs');
  }

  /** The assertion on a computed least latency. */
  predicate LatencyOk(p: Platform, r: Instant) { p.forced >= 0.0 || Lt(At(0.0), r) }

  /** d is the earlier of the next event and the clock plus the lookahead. */
  predicate Earlier(clock: real, lookahead: Instant, nextEvent: Instant, d: Instant) {
    && Le(d, nextEvent) && (lookahead.At? ==> Le(d, At(clock + lookahead.t)))
    && (d == nextEvent || (lookahead.At? && d == At(clock + lookahead.t)))
  }

  predicate NoneDone(cs: seq<Comm>, t: real) {
    forall i :: 0 <= i < |cs| ==> !Le(cs[i].finish, At(t))
  }

  class VmsCoordinator {
    const platform: Platform
    const vmsInterface: V.VmsInterface
    var clock: real
    var minLatency: Instant
    var tansivActors: seq<Actor>
    var pendingComms: seq<Comm>
    var pendingMessages: seq<OutputMsg>
    ghost var collected: multiset<OutputMsg>
    ghost var delivered: multiset<OutputMsg>
    ghost var dropped: multiset<OutputMsg>

    ghost function View(): Coord
      reads this, vmsInterface
    {
      Coord(clock, minLatency, tansivActors, vmsInterface.vmSockets, vmsInterface.vmSocketsTrash,
            vmsInterface.vmDeployments, pendingComms, collected, delivered, dropped)
    }

    /** The two vectors stay index-aligned: position i holds a communication and its message. */
    predicate Aligned()
      reads this
    {
      && |pendingComms| == |pendingMessages|
      && forall i :: 0 <= i < |pendingComms| ==> pendingComms[i].cargo == pendingMessages[i]
    }

    constructor (platform: Platform, vmsInterface: V.VmsInterface)
      ensures this.platform == platform && this.vmsInterface == vmsInterface
      ensures Aligned() && clock == 0.0 && minLatency == Never && tansivActors == [] && pendingComms == []
      ensures collected == delivered == dropped == multiset{}
    {
      this.platform, this.vmsInterface := platform, vmsInterface;
      clock, minLatency, tansivActors, pendingComms, pendingMessages := 0.0, Never, [], [], [];
      collected, delivered, dropped := multiset{}, multiset{}, multiset{};
    }

    /** `compute_min_latency`; not `ok` means that the assertion on the platform fails. */
    method ComputeMinLatency() returns (r: Instant, ok: bool)
      ensures r == MinLatency(platform, tansivActors) && ok == LatencyOk(platform, r)
    {
      if platform.forced >= 0.0 { return At(platform.forced), true; }
      r := Never;
      for s := 0 to |tansivActors|
        invariant MinSoFar(s, 0, r)
      {
        for d := 0 to |tansivActors|
          invariant MinSoFar(s, d, r)
        {
          if s != d {
            var latency := platform.latency(tansivActors[s].host, tansivActors[d].host);
            if Lt(At(latency), r) { r := At(latency); }
          }
        }
      }
      LeastLatencyIsMin(platform, tansivActors);
      MinLatencyUnique(platform, tansivActors, r, LeastLatency(platform, tansivActors));
      ok := Lt(At(0.0), r);
    }

    /** r is the least latency over the pairs visited before (s, d). */
    ghost predicate MinSoFar(s: nat, d: nat, r: Instant)
      reads this
    {
      var a := tansivActors;
      && (forall i, j :: 0 <= i < |a| && 0 <= j < |a| && i != j && (i < s || (i == s && j < d)) ==>
            Le(r, At(platform.latency(a[i].host, a[j].host))))
      && (r.At? ==> exists i, j :: 0 <= i < |a| && 0 <= j < |a| && i != j && r.t == platform.latency(a[i].host, a[j].host))
    }

    /** `get_next_event`: `events` holds the answer of each model, negative for none. */
    method GetNextEvent(events: seq<real>) returns (r: Instant)
      ensures IsNextEvent(clock, events, r)
    {
      r := Never;
      for i := 0 to |events|
        invariant IsNextEvent(clock, events[..i], r)
      {
        var modelEvent := clock + events[i];
        assert events[..i + 1][i] == events[i] && forall j :: 0 <= j < i ==> events[..i + 1][j] == events[..i][j];
        if Lt(At(modelEvent), r) && modelEvent > clock { r := At(modelEvent); }
      }
      assert events[..|events|] == events;
    }

    /** The first lines of a round: forget the actors of stopped VMs. */
    method ForgetDead() returns (ok: bool)
      modifies this`tansivActors, this`minLatency
      ensures View() == Pruned(platform, old(View())) && ok == (vmsInterface.vmSocketsTrash == [] || LatencyOk(platform, minLatency))
    {
      ok := true;
      var dead := vmsInterface.GetDeadVmHosts();
      ghost var removed: set<nat> := {};
      SurvivorsOfNone(tansivActors);
      for i := 0 to |dead|
        invariant tansivActors == Survivors(old(tansivActors), removed)
        invariant forall h :: h in removed <==> exists j :: 0 <= j < i && dead[j] == Some(h)
        invariant minLatency == old(minLatency)
      {
        if dead[i].Some? {
          tansivActors := Survivors(tansivActors, {dead[i].value});
          SurvivorsTwice(old(tansivActors), removed, {dead[i].value});
          removed := removed + {dead[i].value};
        }
      }
      assert removed == DeadHosts(old(View()));
      if dead != [] { minLatency, ok := ComputeMinLatency(); } else { assert removed == {}; }
    }

    /** The body of the loop over the collected messages: two assertions, sleep until it was sent, start a communication. */
    method StartComm(m: OutputMsg, end: Instant) returns (ok: bool)
      requires Aligned()
      modifies this`clock, this`pendingComms, this`pendingMessages
      ensures Aligned() && ok == (CausalityAssertion(old(clock), m.sendTime) && m.src in vmsInterface.vmDeployments)
      ensures ok ==> clock == Max(old(clock), SentTime(m))
      ensures var hosts := vmsInterface.vmDeployments;
        ok ==> pendingComms == if m.dst in hosts then old(pendingComms) + [Comm(m, hosts[m.src], hosts[m.dst], clock, end)] else old(pendingComms)
    {
      var hosts := vmsInterface.vmDeployments;
      if !CausalityAssertion(clock, m.sendTime) { return false; }
      if SentTime(m) > clock { clock := SentTime(m); }
      if m.src !in hosts { return false; }
      if m.dst in hosts {
        pendingComms := pendingComms + [Comm(m, hosts[m.src], hosts[m.dst], clock, end)];
        pendingMessages := pendingMessages + [m];
      }
      return true;
    }

    /**
     The loop over the collected messages; `ends[i]` is when the network will be done with message i.  It
     goes through exactly when every message passes the assertions.
     */
    method StartLoop(messages: seq<OutputMsg>, ends: seq<Instant>) returns (ok: bool)
      requires Aligned() && |ends| == |messages|
      modifies this`clock, this`pendingComms, this`pendingMessages
      ensures Aligned() && (ok <==> AllPass(old(clock), messages, vmsInterface.vmDeployments))
      ensures ok ==> forall m :: m in messages ==> m.src in vmsInterface.vmDeployments
      ensures ok ==> clock == ClockAfter(old(clock), messages)
      ensures ok ==> pendingComms == old(pendingComms) + Launched(old(clock), messages, vmsInterface.vmDeployments, ends)
    {
      ghost var hosts := vmsInterface.vmDeployments;
      for i := 0 to |messages|
        invariant Aligned() && Under(old(clock), old(pendingComms), messages, hosts, ends, i, clock, pendingComms)
      {
        ghost var now, cs := clock, pendingComms;
        ok := StartComm(messages[i], ends[i]);
        assert ok == Passes(old(clock), messages, hosts, i);
        if !ok { return; }
        UnderMore(old(clock), old(pendingComms), messages, hosts, ends, i, now, cs, clock, pendingComms);
      }
      assert messages[..|messages|] == messages && ends[..|ends|] == ends;
      return true;
    }

    method StartComms(messages: seq<OutputMsg>, ends: seq<Instant>) returns (ok: bool)
      requires Aligned() && |ends| == |messages|
      modifies this`clock, this`pendingComms, this`pendingMessages, this`collected, this`dropped
      ensures Aligned() && (ok <==> AllPass(old(clock), messages, vmsInterface.vmDeployments))
      ensures ok ==> forall m :: m in messages ==> m.src in vmsInterface.vmDeployments
      ensures ok ==> View() == old(View()).(
        clock := ClockAfter(old(clock), messages),
        pending := old(pendingComms) + Launched(old(clock), messages, vmsInterface.vmDeployments, ends),
        collected := old(collected) + multiset(messages),
        dropped := old(dropped) + multiset(Unknown(messages, vmsInterface.vmDeployments)))
    {
      ok := StartLoop(messages, ends);
      collected := collected + multiset(messages);
      dropped := dropped + multiset(Unknown(messages, vmsInterface.vmDeployments));
    }

    /** The body of the delivery loop: both vectors lose the entry, the message goes to its VM. */
    method DeliverOne(pos: nat) returns (m: OutputMsg, ok: bool)
      requires Aligned() && pos < |pendingComms|
      modifies this`pendingComms, this`pendingMessages, vmsInterface`written
      ensures Aligned() && m == old(pendingComms)[pos].cargo && ok == (m.dst in vmsInterface.vmSockets)
      ensures pendingComms == old(pendingComms)[..pos] + old(pendingComms)[pos + 1..]
      ensures vmsInterface.written == if ok then old(vmsInterface.written) + [V.Written(m.dst, V.DeliverPacket(m))]
                                      else old(vmsInterface.written)
    {
      m := pendingMessages[pos];
      pendingComms := pendingComms[..pos] + pendingComms[pos + 1..];
      pendingMessages := pendingMessages[..pos] + pendingMessages[pos + 1..];
      ok := vmsInterface.DeliverMessage(m);
    }

    method DeliveryTurn(pos: nat, out: seq<OutputMsg>, ghost lost: seq<OutputMsg>, ghost cs0: seq<Comm>, ghost w0: seq<V.Written>)
      returns (out': seq<OutputMsg>, ghost lost': seq<OutputMsg>)
      requires Aligned() && pos < |pendingComms| && Le(pendingComms[pos].finish, At(clock))
      requires Progress(out, lost, pendingComms, cs0, clock, vmsInterface.vmSockets)
      requires vmsInterface.written == w0 + Deliveries(out)
      modifies this`pendingComms, this`pendingMessages, vmsInterface`written
      ensures Aligned() && |pendingComms| < old(|pendingComms|)
      ensures Progress(out', lost', pendingComms, cs0, clock, vmsInterface.vmSockets)
      ensures vmsInterface.written == w0 + Deliveries(out')
    {
      ghost var before, running, w := pendingComms, vmsInterface.vmSockets, vmsInterface.written;
      var m, ok := DeliverOne(pos);
      out', lost' := if ok then out + [m] else out, if ok then lost else lost + [m];
      DeliveryStep(out, lost, out', lost', before, pendingComms, cs0, pos, clock, running);
      FramesStep(w0, out, out', m, ok);
    }

    /** The delivery loop: ends because each turn removes a communication. */
    method DeliveryLoop() returns (out: seq<OutputMsg>, ghost lost: seq<OutputMsg>)
      requires Aligned()
      modifies this`pendingComms, this`pendingMessages, vmsInterface`written
      ensures Aligned() && NoneDone(pendingComms, clock)
      ensures Progress(out, lost, pendingComms, old(pendingComms), clock, vmsInterface.vmSockets)
      ensures vmsInterface.written == old(vmsInterface.written) + Deliveries(out)
    {
      out, lost := [], [];
      ghost var running := vmsInterface.vmSockets;
      var changedPos := TestAny();
      while changedPos >= 0
        invariant Aligned() && changedPos < |pendingComms|
        invariant if changedPos >= 0 then Le(pendingComms[changedPos].finish, At(clock)) else NoneDone(pendingComms, clock)
        invariant Progress(out, lost, pendingComms, old(pendingComms), clock, running)
        invariant vmsInterface.written == old(vmsInterface.written) + Deliveries(out)
        decreases |pendingComms|
      {
        out, lost := DeliveryTurn(changedPos, out, lost, old(pendingComms), old(vmsInterface.written));
        changedPos := TestAny();
      }
    }

    /** The end of a round: everything the network has finished leaves the two vectors. */
    method DeliverFinished() returns (out: seq<OutputMsg>)
      requires Aligned()
      modifies this`pendingComms, this`pendingMessages, this`delivered, this`dropped, vmsInterface`written
      ensures Aligned()
      ensures View() == old(View()).(
        pending := Unfinished(old(pendingComms), clock),
        delivered := old(delivered) + Arrived(old(pendingComms), clock, vmsInterface.vmSockets, true),
        dropped := old(dropped) + Arrived(old(pendingComms), clock, vmsInterface.vmSockets, false))
      ensures delivered == old(delivered) + multiset(out)
      ensures vmsInterface.written == old(vmsInterface.written) + Deliveries(out)
      ensures forall m :: m in out ==> m.dst in vmsInterface.vmSockets
    {
      ghost var lost, cs := [], pendingComms;
      out, lost := DeliveryLoop();
      TallyDone(out, pendingComms, cs, clock, vmsInterface.vmSockets, true);
      TallyDone(lost, pendingComms, cs, clock, vmsInterface.vmSockets, false);
      delivered := delivered + Arrived(cs, clock, vmsInterface.vmSockets, true);
      dropped := dropped + Arrived(cs, clock, vmsInterface.vmSockets, false);
    }

    /** `Comm::test_any`: the index of some finished communication, or -1. */
    method TestAny() returns (pos: int)
      ensures -1 <= pos < |pendingComms|
      ensures if pos >= 0 then Le(pendingComms[pos].finish, At(clock)) else NoneDone(pendingComms, clock)
    {
      pos := |pendingComms| - 1;
      while pos >= 0 && !Le(pendingComms[pos].finish, At(clock))
        invariant -1 <= pos < |pendingComms|
        invariant forall i :: pos < i < |pendingComms| ==> !Le(pendingComms[i].finish, At(clock))
      {
        pos := pos - 1;
      }
    }

    /** The second half of a round: start communications, sleep until the deadline, deliver. */
    method Simulate(deadline: Instant, messages: seq<OutputMsg>, ends: seq<Instant>) returns (ok: bool, out: seq<OutputMsg>)
      requires Aligned() && |ends| == |messages|
      modifies this`clock, this`pendingComms, this`pendingMessages, this`collected, this`delivered, this`dropped, vmsInterface`written
      ensures Aligned() && (ok <==> AllPass(old(clock), messages, vmsInterface.vmDeployments))
      ensures ok ==> forall m :: m in messages ==> m.src in vmsInterface.vmDeployments
      ensures ok ==> View() == Simulated(old(View()), deadline, messages, ends) && delivered == old(delivered) + multiset(out)
      ensures vmsInterface.written == old(vmsInterface.written) + Deliveries(out)
      ensures forall m :: m in out ==> m.dst in vmsInterface.vmSockets
    {
      out := [];
      ok := StartComms(messages, ends);
      if !ok { return; }
      // an infinite deadline means that the last VM is stopping: there is nothing to sleep for
      if deadline.At? && deadline.t > clock { clock := deadline.t; }
      out := DeliverFinished();
    }

    /** A round after the stopped VMs were forgotten: broadcast, collect, simulate. */
    method GoOn(nextEvent: Instant, inbox: map<nat, seq<V.Up>>, finish: nat -> Instant)
      returns (ok: bool, deadline: Instant, messages: seq<OutputMsg>, order: seq<nat>, out: seq<OutputMsg>)
      requires Aligned()
      requires var d := Deadline(View(), nextEvent); d.At? ==> d.t >= 0.0
      modifies this, vmsInterface
      ensures Aligned() && vmsInterface.vmDeployments == old(vmsInterface.vmDeployments)
      ensures Earlier(old(clock), old(minLatency), nextEvent, deadline)
      ensures deadline == Deadline(old(View()), nextEvent) && V.Enumerates(order, old(vmsInterface.vmSockets))
      ensures SortedByTime(messages) && multiset(messages) == multiset(V.Gathered(order, inbox))
      ensures ok <==> AllPass(old(clock), messages, vmsInterface.vmDeployments)
      ensures ok ==> (forall m :: m in messages ==> m.src in old(vmsInterface.vmDeployments))
      ensures ok ==> View() == Finished(old(View()), deadline, messages, V.GoneOf(order, inbox), seq(|messages|, finish))
      ensures ok ==> delivered == old(delivered) + multiset(out)
      ensures vmsInterface.written == old(vmsInterface.written)
        + V.Broadcast(order, V.GotoDeadline(SimgridToVmTime(deadline))) + Deliveries(out)
      ensures forall m :: m in out ==> m.dst in vmsInterface.vmSockets
    {
      deadline := Min(Plus(clock, minLatency), nextEvent);
      messages, order := vmsInterface.GoTo(deadline, inbox);
      ok, out := Simulate(deadline, messages, seq(|messages|, finish));
    }

    /**
     One turn of the coordinator's loop.  `nextEvent` is the answer of `get_next_event`, `inbox` what each
     VM writes during the slot, `finish(i)` when the network is done with the i-th message started.  Not
     `ok` means that one of the assertions stopped the coordinator.
     */
    method Round(nextEvent: Instant, inbox: map<nat, seq<V.Up>>, finish: nat -> Instant)
      returns (ok: bool, deadline: Instant, messages: seq<OutputMsg>, order: seq<nat>, out: seq<OutputMsg>)
      requires Aligned()
      requires var d := Deadline(Pruned(platform, View()), nextEvent); d.At? ==> d.t >= 0.0
      modifies this, vmsInterface
      ensures Aligned() && vmsInterface.vmDeployments == old(vmsInterface.vmDeployments)
      ensures !old(Positive()) ==> !ok && vmsInterface.written == old(vmsInterface.written)
      ensures old(Positive()) ==> Earlier(old(clock), Pruned(platform, old(View())).minLatency, nextEvent, deadline)
      ensures old(Positive()) ==> deadline == Deadline(Pruned(platform, old(View())), nextEvent) && V.Enumerates(order, old(vmsInterface.vmSockets))
      ensures old(Positive()) ==> SortedByTime(messages) && multiset(messages) == multiset(V.Gathered(order, inbox))
      ensures old(Positive()) ==> (ok <==> AllPass(old(clock), messages, vmsInterface.vmDeployments))
      ensures ok ==> (forall m :: m in messages ==> m.src in old(vmsInterface.vmDeployments))
      ensures ok ==> View() == Finished(Pruned(platform, old(View())), deadline, messages, V.GoneOf(order, inbox), seq(|messages|, finish))
      ensures ok ==> delivered == old(delivered) + multiset(out)
      ensures deadline.At? ==> deadline.t >= 0.0
      ensures old(Positive()) ==>
        vmsInterface.written == old(vmsInterface.written) + V.Broadcast(order, V.GotoDeadline(SimgridToVmTime(deadline))) + Deliveries(out)
      ensures forall m :: m in out ==> m.dst in vmsInterface.vmSockets
    {
      out, messages, order, deadline := [], [], [], Never;
      ok := ForgetDead();
      if !ok { return; }
      ok, deadline, messages, order, out := GoOn(nextEvent, inbox, finish);
    }

    /** The assertion on the lookahead holds when it is recomputed. */
    ghost predicate Positive()
      reads this, vmsInterface
    {
      vmsInterface.vmSocketsTrash == [] || LatencyOk(platform, Pruned(platform, View()).minLatency)
    }
  }

  /** The messages already removed, plus the arrivals still in the list, are the arrivals of the original list. */
  ghost predicate Tally(done: seq<OutputMsg>, cs: seq<Comm>, cs0: seq<Comm>, t: real, running: set<nat>, reachable: bool) {
    multiset(done) + Arrived(cs, t, running, reachable) == Arrived(cs0, t, running, reachable)
  }

  lemma TallyAt(done: seq<OutputMsg>, cs: seq<Comm>, cs0: seq<Comm>, i: nat, t: real, running: set<nat>, reachable: bool, m: OutputMsg)
    requires Tally(done, cs, cs0, t, running, reachable) && i < |cs| && Le(cs[i].finish, At(t))
    ensures var done' := if (cs[i].cargo.dst in running) == reachable then done + [cs[i].cargo] else done;
      multiset(done')[m] + Arrived(cs[..i] + cs[i + 1..], t, running, reachable)[m] == Arrived(cs0, t, running, reachable)[m]
  {
    RemoveArrived(cs, i, t, running, reachable, m);
    assert Arrived(cs0, t, running, reachable)[m] == multiset(done)[m] + Arrived(cs, t, running, reachable)[m];
  }

  lemma TallyStep(done: seq<OutputMsg>, cs: seq<Comm>, cs0: seq<Comm>, i: nat, t: real, running: set<nat>, reachable: bool)
    requires Tally(done, cs, cs0, t, running, reachable) && i < |cs| && Le(cs[i].finish, At(t))
    ensures var done' := if (cs[i].cargo.dst in running) == reachable then done + [cs[i].cargo] else done;
      Tally(done', cs[..i] + cs[i + 1..], cs0, t, running, reachable)
  {
    var done' := if (cs[i].cargo.dst in running) == reachable then done + [cs[i].cargo] else done;
    var rest, all := Arrived(cs[..i] + cs[i + 1..], t, running, reachable), Arrived(cs0, t, running, reachable);
    forall m ensures multiset(done')[m] + rest[m] == all[m] {
      TallyAt(done, cs, cs0, i, t, running, reachable, m);
    }
  }

  lemma DeliveryStep(out: seq<OutputMsg>, lost: seq<OutputMsg>, out': seq<OutputMsg>, lost': seq<OutputMsg>,
                     cs: seq<Comm>, cs': seq<Comm>, cs0: seq<Comm>, i: nat, t: real, running: set<nat>)
    requires Progress(out, lost, cs, cs0, t, running)
    requires i < |cs| && Le(cs[i].finish, At(t)) && cs' == cs[..i] + cs[i + 1..]
    requires if cs[i].cargo.dst in running then out' == out + [cs[i].cargo] && lost' == lost
             else out' == out && lost' == lost + [cs[i].cargo]
    ensures Progress(out', lost', cs', cs0, t, running)
  {
    RemoveFinished(cs, i, t);
    TallyStep(out, cs, cs0, i, t, running, true);
    TallyStep(lost, cs, cs0, i, t, running, false);
  }

  lemma FramesStep(w0: seq<V.Written>, out: seq<OutputMsg>, out': seq<OutputMsg>, m: OutputMsg, ok: bool)
    requires out' == if ok then out + [m] else out
    ensures w0 + Deliveries(out') == if ok then w0 + Deliveries(out) + [V.Written(m.dst, V.DeliverPacket(m))] else w0 + Deliveries(out)
  {
    if ok { assert out'[..|out|] == out; }
  }

  /** How far the delivery loop is: cs is what is left of cs0. */
  ghost predicate Progress(out: seq<OutputMsg>, lost: seq<OutputMsg>, cs: seq<Comm>, cs0: seq<Comm>, t: real, running: set<nat>) {
    && Unfinished(cs, t) == Unfinished(cs0, t)
    && Tally(out, cs, cs0, t, running, true) && Tally(lost, cs, cs0, t, running, false)
    && forall m :: m in out ==> m.dst in running
  }

  lemma TallyDone(done: seq<OutputMsg>, cs: seq<Comm>, cs0: seq<Comm>, t: real, running: set<nat>, reachable: bool)
    requires Tally(done, cs, cs0, t, running, reachable)
    requires NoneDone(cs, t)
    ensures Unfinished(cs, t) == cs && multiset(done) == Arrived(cs0, t, running, reachable)
  {
    NoneFinished(cs, t, running, reachable);
  }

  /** The frames that carry the messages in `out` to their destinations. */
  function Deliveries(out: seq<OutputMsg>): seq<V.Written> {
    if out == [] then []
    else
      var m := out[|out| - 1];
      Deliveries(out[..|out| - 1]) + [V.Written(m.dst, V.DeliverPacket(m))]
  }

  lemma {:induction false} SurvivorsOfNone(actors: seq<Actor>)
    ensures Survivors(actors, {}) == actors
  {
    if actors != [] { SurvivorsOfNone(actors[1..]); }
  }
}
