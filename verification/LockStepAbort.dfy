/**
 A concrete run in which the coordinator's causality assertion fails: one VM, a forced latency of half a
 nanosecond, a first round without packets and then a packet stamped 0.
 */
module LockStepAbort {
  import opened Basics
  import opened WireTime
  import opened Coordinator
  import opened CoordinatorTheorems
  import opened LockStep
  import opened LockStepTheorems
  import opened LockStepProgress
  import opened LockStepWitness
  import O = OutputSide
  import V = VmsInterface

  const HALF: real := 0.000_000_000_5

  function Q(): Platform { Platform((a, b) => 1.0, HALF) }

  function C(clock: real): Coord {
    Coord(clock, At(HALF), [Actor(0, 0)], {0}, [], map[0 := 0], [], multiset{}, multiset{}, multiset{})
  }

  /** A state of the run, by what differs. */
  function U(clock: real, stage: Stage, c: Client, up: seq<V.Up>, down: seq<V.Down>, gotos: seq<Instant>): State {
    State(C(clock), stage, map[0 := c], map[0 := up], map[0 := down], gotos, false, false)
  }

  const WAITS := Wait([], {0}, None)
  const READS := Wait([], {0}, Some(0))
  const PACKET := OutputMsg(0, 0, 0, [])

  function VM(phase: Phase, next: nat, outgoing: seq<OutputMsg>, heard: nat): Client {
    Client(phase, false, O.Out(0, next, outgoing, []), heard)
  }

  // ---------------------------------------------------------------- the steps

  lemma Platforms()
    ensures var c := C(0.0); Deployed(c) && OneVmPerHost(c.hosts) && PlatformOk(Q(), c.hosts)
  {
    assert C(0.0).actors[0].vm == 0 && HasActor(C(0.0).actors, 0);
  }

  lemma Start()
    ensures Init(Q(), U(0.0, Idle, BOOTED, [], [], []))
  {
    var c, s := C(0.0), U(0.0, Idle, BOOTED, [], [], []);
    Platforms();
    assert s.clients.Keys == s.up.Keys == s.down.Keys == {0} == c.hosts.Keys == c.sockets;
  }

  lemma RoundBegins(clock: real, c: Client, w: Wire, gotos: seq<Instant>, gotos': seq<Instant>)
    requires clock >= 0.0 && w == SimgridToVmTime(At(clock + HALF)) && gotos' == gotos + [At(clock + HALF)]
    ensures Reaches(Q(), U(clock, Idle, c, [], [], gotos), U(clock, WAITS, c, [], [V.GotoDeadline(w)], gotos'))
  {
    var s := U(clock, Idle, c, [], [], gotos);
    assert Deadline(Pruned(Q(), C(clock)), Never) == At(clock + HALF) && 0 in s.coord.sockets;
    var down, goto := Do(Q(), s, Begin(Never)).down, V.GotoDeadline(w);
    assert down.Keys == {0} && [] + [goto] == [goto] && down[0] == [goto];
    assert down == map[0 := [goto]];
    ReachesStep(Q(), s, Begin(Never), U(clock, WAITS, c, [], [goto], gotos'));
  }

  lemma Hears(clock: real, c: Client, w: Wire, d: nat, c': Client, gotos: seq<Instant>)
    requires (c.phase == Boot || c.phase == Frozen) && Decode(w) == Ok(d) && d >= c.out.next
    requires c' == c.(phase := Running, out := O.NextSlot(c.out, d), heard := c.heard + 1)
    ensures Reaches(Q(), U(clock, WAITS, c, [], [V.GotoDeadline(w)], gotos), U(clock, WAITS, c', [], [], gotos))
  {
    var s := U(clock, WAITS, c, [], [V.GotoDeadline(w)], gotos);
    var s' := DoHear(s, 0, true);
    assert [V.GotoDeadline(w)][1..] == [] && s'.down == map[0 := []];
    assert s'.clients == map[0 := c'];
    ReachesStep(Q(), s, Hear(0, true), U(clock, WAITS, c', [], [], gotos));
  }

  predicate FlushesTo(c: Client, frames: seq<V.Up>, c': Client) {
    && c.phase == Running && !O.Aborts(c.out) && ToUp(O.Sends(c.out)) == frames && |frames| <= 9
    && c' == c.(phase := Frozen, out := O.Flushed(c.out))
  }

  lemma Flushes(clock: real, c: Client, frames: seq<V.Up>, c': Client, gotos: seq<Instant>)
    requires FlushesTo(c, frames, c')
    ensures Reaches(Q(), U(clock, WAITS, c, [], [], gotos), U(clock, WAITS, c', frames, [], gotos))
  {
    var s, all := U(clock, WAITS, c, [], [], gotos), O.Sends(c.out);
    var s' := Do(Q(), s, Flush(0, 9));
    assert |all| == |ToUp(all)| && all[..|all|] == all;
    assert s'.up[0] == [] + frames == frames;
    assert s'.up == map[0 := frames] && s'.clients == map[0 := c'];
    ReachesStep(Q(), s, Flush(0, 9), U(clock, WAITS, c', frames, [], gotos));
  }

  lemma Visits(clock: real, c: Client, frames: seq<V.Up>, gotos: seq<Instant>)
    ensures Reaches(Q(), U(clock, WAITS, c, frames, [], gotos), U(clock, READS, c, frames, [], gotos))
  {
    ReachesStep(Q(), U(clock, WAITS, c, frames, [], gotos), Visit(0), U(clock, READS, c, frames, [], gotos));
  }

  lemma ReadsPacket(clock: real, c: Client, gotos: seq<Instant>)
    ensures Reaches(Q(), U(clock, READS, c, PENDING, [], gotos), U(clock, Wait([PACKET], {0}, Some(0)), c, [V.AtDeadline], [], gotos))
  {
    var s := U(clock, READS, c, PENDING, [], gotos);
    assert PENDING[1..] == [V.AtDeadline] && [] + [PACKET] == [PACKET];
    assert Do(Q(), s, Collect(0)).up == map[0 := [V.AtDeadline]];
    ReachesStep(Q(), s, Collect(0), U(clock, Wait([PACKET], {0}, Some(0)), c, [V.AtDeadline], [], gotos));
  }

  lemma ReadsDeadline(clock: real, c: Client, got: seq<OutputMsg>, gotos: seq<Instant>)
    ensures Reaches(Q(), U(clock, Wait(got, {0}, Some(0)), c, [V.AtDeadline], [], gotos), U(clock, Wait(got, {}, None), c, [], [], gotos))
  {
    var s := U(clock, Wait(got, {0}, Some(0)), c, [V.AtDeadline], [], gotos);
    assert [V.AtDeadline][1..] == [] && {0} - {0} == {};
    assert Do(Q(), s, Collect(0)).up == map[0 := []];
    ReachesStep(Q(), s, Collect(0), U(clock, Wait(got, {}, None), c, [], [], gotos));
  }

  lemma EmptyRound()
    ensures RoundOf(Q(), C(0.0), Never, [], [], []) == C(HALF)
    ensures Arrived([], HALF, {0}, true) == multiset{}
  {
    assert Deadline(Pruned(Q(), C(0.0)), Never) == At(HALF);
    assert {0} - {} == {0};
  }

  lemma EmptyRoundCanEnd(c: Client, gotos: seq<Instant>)
    ensures EndOk(Q(), U(0.0, Wait([], {}, None), c, [], [], gotos), [], [], [])
  {
    EmptyRound();
    assert {0} - {} == {0};
  }

  lemma EmptyRoundDoes(c: Client, gotos: seq<Instant>)
    requires EndOk(Q(), U(0.0, Wait([], {}, None), c, [], [], gotos), [], [], [])
    ensures DoEnd(Q(), U(0.0, Wait([], {}, None), c, [], [], gotos), [], [], []) == U(HALF, Idle, c, [], [], gotos)
  {
    EmptyRound();
    var down := DoEnd(Q(), U(0.0, Wait([], {}, None), c, [], [], gotos), [], [], []).down;
    assert down.Keys == {0} && down[0] == [] && down == map[0 := []];
  }

  lemma EmptyRoundEnds(c: Client, gotos: seq<Instant>)
    ensures Reaches(Q(), U(0.0, Wait([], {}, None), c, [], [], gotos), U(HALF, Idle, c, [], [], gotos))
  {
    EmptyRoundCanEnd(c, gotos);
    EmptyRoundDoes(c, gotos);
    ReachesStep(Q(), U(0.0, Wait([], {}, None), c, [], [], gotos), End([], [], []), U(HALF, Idle, c, [], [], gotos));
  }

  // ---------------------------------------------------------------- the run

  const SENT := VM(Running, 1, [PACKET], 2)
  const PENDING := [V.SendPacket(PACKET), V.AtDeadline]
  const GOTOS := [At(HALF), At(NS)]

  function Booted(): State { U(0.0, Idle, BOOTED, [], [], []) }
  function FirstSlot(): State { U(0.0, WAITS, VM(Running, 0, [], 1), [], [], [At(HALF)]) }
  function FirstEnd(): State { U(0.0, Wait([], {}, None), VM(Frozen, 0, [], 1), [], [], [At(HALF)]) }
  function SecondSlot(): State { U(HALF, WAITS, VM(Running, 1, [], 2), [], [], GOTOS) }
  function SecondEnd(): State { U(HALF, Wait([PACKET], {}, None), VM(Frozen, 1, [], 2), [], [], GOTOS) }

  lemma FlushesNothing()
    ensures FlushesTo(VM(Running, 0, [], 1), [V.AtDeadline], VM(Frozen, 0, [], 1))
  {
    var c, c' := VM(Running, 0, [], 1), VM(Frozen, 0, [], 1);
    assert ToUp(O.Sends(c.out)) == [V.AtDeadline] && O.Flushed(c.out) == c'.out;
  }

  lemma FlushesFirst()
    ensures Reaches(Q(), FirstSlot(), U(0.0, WAITS, VM(Frozen, 0, [], 1), [V.AtDeadline], [], [At(HALF)]))
  {
    FlushesNothing();
    Flushes(0.0, VM(Running, 0, [], 1), [V.AtDeadline], VM(Frozen, 0, [], 1), [At(HALF)]);
  }

  lemma FlushesPacket()
    ensures FlushesTo(SENT, PENDING, VM(Frozen, 1, [], 2))
  {
    assert O.Clamped([PACKET], 0, 1) == [O.SendPacket(PACKET)] + O.Clamped([PACKET][1..], 0, 1) == [O.SendPacket(PACKET)];
    assert ToUp(O.Sends(SENT.out)) == PENDING && O.Flushed(SENT.out) == O.Out(0, 1, [], []);
  }

  lemma FlushesSent()
    ensures Reaches(Q(), U(HALF, WAITS, SENT, [], [], GOTOS), U(HALF, WAITS, VM(Frozen, 1, [], 2), PENDING, [], GOTOS))
  {
    FlushesPacket();
    Flushes(HALF, SENT, PENDING, VM(Frozen, 1, [], 2), GOTOS);
  }

  lemma SendsPacket()
    ensures Reaches(Q(), SecondSlot(), U(HALF, WAITS, SENT, [], [], GOTOS))
  {
    assert [] + [PACKET] == [PACKET];
    assert Do(Q(), SecondSlot(), Send(0, PACKET, false, 64)).clients == map[0 := SENT];
    ReachesStep(Q(), SecondSlot(), Send(0, PACKET, false, 64), U(HALF, WAITS, SENT, [], [], GOTOS));
  }

  lemma Dates()
    ensures Decode(SimgridToVmTime(At(HALF))) == Ok(0) && Decode(SimgridToVmTime(At(NS))) == Ok(1)
    ensures [] + [At(0.0 + HALF)] == [At(HALF)] && [At(HALF)] + [At(HALF + HALF)] == GOTOS
  {
    EncodingIsFloor(HALF);
    EncodingIsFloor(NS);
    assert FloorNs(HALF) == 0 && FloorNs(NS) == 1;
  }

  /** The first deadline, in 0.5 ns, is 0 for the client. */
  lemma FirstBegins()
    ensures Reaches(Q(), Booted(), FirstSlot())
  {
    var w := SimgridToVmTime(At(HALF));
    Dates();
    RoundBegins(0.0, BOOTED, w, [], [At(HALF)]);
    Hears(0.0, BOOTED, w, 0, VM(Running, 0, [], 1), [At(HALF)]);
    ReachesThen(Q(), Booted(), U(0.0, WAITS, BOOTED, [], [V.GotoDeadline(w)], [At(HALF)]), FirstSlot());
  }

  lemma FirstCollection()
    ensures Reaches(Q(), FirstSlot(), FirstEnd())
  {
    var stopped, frames, gotos := VM(Frozen, 0, [], 1), [V.AtDeadline], [At(HALF)];
    FlushesFirst();
    Visits(0.0, stopped, frames, gotos);
    ReachesThen(Q(), FirstSlot(), U(0.0, WAITS, stopped, frames, [], gotos), U(0.0, READS, stopped, frames, [], gotos));
    ReadsDeadline(0.0, stopped, [], gotos);
    ReachesThen(Q(), FirstSlot(), U(0.0, READS, stopped, frames, [], gotos), FirstEnd());
  }

  lemma SecondBroadcast(stopped: Client, w: Wire)
    requires stopped == VM(Frozen, 0, [], 1) && w == SimgridToVmTime(At(NS))
    ensures Reaches(Q(), FirstEnd(), U(HALF, WAITS, stopped, [], [V.GotoDeadline(w)], GOTOS))
  {
    Dates();
    EmptyRoundEnds(stopped, [At(HALF)]);
    RoundBegins(HALF, stopped, w, [At(HALF)], GOTOS);
    ReachesThen(Q(), FirstEnd(), U(HALF, Idle, stopped, [], [], [At(HALF)]), U(HALF, WAITS, stopped, [], [V.GotoDeadline(w)], GOTOS));
  }

  /** The second deadline, at 1 ns, is the next one for the client. */
  lemma SecondBegins()
    ensures Reaches(Q(), FirstEnd(), SecondSlot())
  {
    var stopped, w := VM(Frozen, 0, [], 1), SimgridToVmTime(At(NS));
    SecondBroadcast(stopped, w);
    Dates();
    Hears(HALF, stopped, w, 1, VM(Running, 1, [], 2), GOTOS);
    ReachesThen(Q(), FirstEnd(), U(HALF, WAITS, stopped, [], [V.GotoDeadline(w)], GOTOS), SecondSlot());
  }

  lemma SecondFlush()
    ensures Reaches(Q(), SecondSlot(), U(HALF, WAITS, VM(Frozen, 1, [], 2), PENDING, [], GOTOS))
  {
    SendsPacket();
    FlushesSent();
    ReachesThen(Q(), SecondSlot(), U(HALF, WAITS, SENT, [], [], GOTOS), U(HALF, WAITS, VM(Frozen, 1, [], 2), PENDING, [], GOTOS));
  }

  lemma SecondCollection()
    ensures Reaches(Q(), U(HALF, WAITS, VM(Frozen, 1, [], 2), PENDING, [], GOTOS), SecondEnd())
  {
    var stopped := VM(Frozen, 1, [], 2);
    var s, s1 := U(HALF, WAITS, stopped, PENDING, [], GOTOS), U(HALF, Wait([PACKET], {0}, Some(0)), stopped, [V.AtDeadline], [], GOTOS);
    Visits(HALF, stopped, PENDING, GOTOS);
    ReadsPacket(HALF, stopped, GOTOS);
    ReachesThen(Q(), s, U(HALF, READS, stopped, PENDING, [], GOTOS), s1);
    ReadsDeadline(HALF, stopped, [PACKET], GOTOS);
    ReachesThen(Q(), s, s1, SecondEnd());
  }

  lemma WholeRun()
    ensures Reaches(Q(), Booted(), SecondEnd())
  {
    FirstBegins();
    FirstCollection();
    ReachesThen(Q(), Booted(), FirstSlot(), FirstEnd());
    SecondBegins();
    ReachesThen(Q(), Booted(), FirstEnd(), SecondSlot());
    SecondFlush();
    SecondCollection();
    ReachesThen(Q(), SecondSlot(), U(HALF, WAITS, VM(Frozen, 1, [], 2), PENDING, [], GOTOS), SecondEnd());
    ReachesThen(Q(), Booted(), SecondSlot(), SecondEnd());
  }

  lemma AtTheAssertion()
    ensures Collected(SecondEnd()) && !RoundPasses(SecondEnd())
  {
    assert PACKET in SecondEnd().stage.got;
    assert EPSILON < HALF < NS;
  }

  /**
   There is a run after which the packet of a disciplined VM, stamped 0 in the second slot, makes the
   coordinator's assertion fail: the round cannot end and the coordinator can only abort.
   */
  lemma CoordinatorCanAbort() returns (run: seq<State>, acts: seq<Step>)
    ensures IsRun(Q(), run, acts) && Collected(run[|acts|]) && !RoundPasses(run[|acts|])
    ensures !(exists a: Step :: a.End? && Enabled(Q(), run[|acts|], a)) && exists a: Step :: a.Abort? && Enabled(Q(), run[|acts|], a)
  {
    WholeRun();
    run, acts :| Chain(Q(), run, acts) && run[0] == Booted() && run[|acts|] == SecondEnd();
    Start();
    ChainIsRun(Q(), run, acts);
    AtTheAssertion();
    CanEndIff(Q(), run, acts, |acts|);
  }
}
