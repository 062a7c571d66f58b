/**
 Two concrete runs of the whole system, with two VMs and one packet: one reaches the situation the
 theorems of LockStepTheorems speak about, the other a coordinator that waits for ever.
 */
module LockStepWitness {
  import opened Basics
  import opened WireTime
  import opened Coordinator
  import opened CoordinatorTheorems
  import opened LockStep
  import opened LockStepTheorems
  import opened LockStepProgress
  import O = OutputSide
  import V = VmsInterface

  function P(): Platform { Platform((a, b) => 1.0, -1.0) }

  const M := OutputMsg(0, 1, 0, [])
  const D: nat := 1_000_000_000

  function C0(): Coord {
    Coord(0.0, At(1.0), [Actor(0, 0), Actor(1, 1)], {0, 1}, [], map[0 := 0, 1 := 1], [], multiset{}, multiset{}, multiset{})
  }

  /** A state of the run, by what differs. */
  function S(stage: Stage, a: Client, b: Client, upA: seq<V.Up>, upB: seq<V.Up>, downA: seq<V.Down>, downB: seq<V.Down>, gotos: seq<Instant>): State {
    State(C0(), stage, map[0 := a, 1 := b], map[0 := upA, 1 := upB], map[0 := downA, 1 := downB], gotos, false, false)
  }

  function Wait(got: seq<OutputMsg>, todo: set<nat>, reading: Option<nat>): Stage { Collecting(Never, todo, got, [], reading) }

  const BOOTED := Client(Boot, false, O.Out(0, 0, [], []), 0)

  function Run(outgoing: seq<OutputMsg>): Client { Client(Running, false, O.Out(0, D, outgoing, []), 1) }

  const STOPPED := Client(Frozen, false, O.Out(0, D, [], []), 1)
  const GOTO := V.GotoDeadline(Wire(1, 0))

  // the states of the run, in order
  function S0(): State { S(Idle, BOOTED, BOOTED, [], [], [], [], []) }
  function S1(): State { S(Wait([], {0, 1}, None), BOOTED, BOOTED, [], [], [GOTO], [GOTO], [At(1.0)]) }
  function S2(): State { S(Wait([], {0, 1}, None), Run([]), BOOTED, [], [], [], [GOTO], [At(1.0)]) }
  function S3(): State { S(Wait([], {0, 1}, None), Run([]), Run([]), [], [], [], [], [At(1.0)]) }
  function S4(): State { S(Wait([], {0, 1}, None), Run([M]), Run([]), [], [], [], [], [At(1.0)]) }
  function S5(): State { S(Wait([], {0, 1}, None), STOPPED, Run([]), [V.SendPacket(M), V.AtDeadline], [], [], [], [At(1.0)]) }
  function S6(): State { S(Wait([], {0, 1}, None), STOPPED, STOPPED, [V.SendPacket(M), V.AtDeadline], [V.AtDeadline], [], [], [At(1.0)]) }
  function S6R(): State { S(Wait([], {0, 1}, Some(0)), STOPPED, STOPPED, [V.SendPacket(M), V.AtDeadline], [V.AtDeadline], [], [], [At(1.0)]) }
  function S7(): State { S(Wait([M], {0, 1}, Some(0)), STOPPED, STOPPED, [V.AtDeadline], [V.AtDeadline], [], [], [At(1.0)]) }
  function S8(): State { S(Wait([M], {1}, None), STOPPED, STOPPED, [], [V.AtDeadline], [], [], [At(1.0)]) }
  function S8R(): State { S(Wait([M], {1}, Some(1)), STOPPED, STOPPED, [], [V.AtDeadline], [], [], [At(1.0)]) }
  function S9(): State { S(Wait([M], {}, None), STOPPED, STOPPED, [], [], [], [], [At(1.0)]) }

  lemma Platforms()
    ensures MinLatency(P(), C0().actors) == At(1.0)
    ensures Deployed(C0()) && OneVmPerHost(C0().hosts) && PlatformOk(P(), C0().hosts)
  {
    var actors := C0().actors;
    LeastLatencyIsMin(P(), actors);
    assert Le(LeastLatency(P(), actors), At(P().latency(actors[0].host, actors[1].host)));
    assert actors[0].vm == 0 && actors[1].vm == 1;
    assert HasActor(actors, 0) && HasActor(actors, 1);
  }

  ghost predicate Leads(p: Platform, s: State, a: Step, s': State) { Enabled(p, s, a) && s' == Do(p, s, a) }

  lemma Begins()
    ensures Leads(P(), S0(), Begin(Never), S1())
  {
    assert Deadline(Pruned(P(), C0()), Never) == At(1.0);
    assert SimgridToVmTime(At(1.0)) == Wire(1, 0);
    assert EventOk(C0(), Never) && [] + [GOTO] == [GOTO];
    var down := Do(P(), S0(), Begin(Never)).down;
    assert down.Keys == {0, 1} && down[0] == [GOTO] && down[1] == [GOTO];
    assert down == map[0 := [GOTO], 1 := [GOTO]];
  }

  lemma Decoded()
    ensures Decode(Wire(1, 0)) == Ok(D) && O.NextSlot(BOOTED.out, D) == O.Out(0, D, [], [])
  {}

  lemma HearsA()
    ensures Leads(P(), S1(), Hear(0, true), S2())
  {
    Decoded();
    var s' := DoHear(S1(), 0, true);
    assert s'.clients[0] == Run([]) && [GOTO][1..] == [] && s'.down[0] == [] && s'.down[1] == [GOTO];
    assert s'.clients == map[0 := Run([]), 1 := BOOTED] && s'.down == map[0 := [], 1 := [GOTO]];
  }

  lemma HearsB()
    ensures Leads(P(), S2(), Hear(1, true), S3())
  {
    Decoded();
    var s' := DoHear(S2(), 1, true);
    assert s'.clients[1] == Run([]) && [GOTO][1..] == [] && s'.down[0] == [] && s'.down[1] == [];
    assert s'.clients == map[0 := Run([]), 1 := Run([])] && s'.down == map[0 := [], 1 := []];
  }

  lemma Sends()
    ensures Leads(P(), S3(), Send(0, M, false, 64), S4())
  {
    assert [] + [M] == [M];
    assert Do(P(), S3(), Send(0, M, false, 64)).clients == map[0 := Run([M]), 1 := Run([])];
  }

  lemma FlushOut(ms: seq<OutputMsg>)
    requires ms == [] || ms == [M]
    ensures !O.Aborts(Run(ms).out) && O.Flushed(Run(ms).out) == STOPPED.out
    ensures ToUp(O.Sends(Run(ms).out)) == (if ms == [] then [] else [V.SendPacket(M)]) + [V.AtDeadline]
  {
    assert ms == [M] ==> O.Clamped(ms, 0, D) == [O.SendPacket(M)] + O.Clamped(ms[1..], 0, D) == [O.SendPacket(M)];
    assert O.Packets(Run(ms).out.upcoming[..0]) == [];
  }

  lemma FlushesA()
    ensures Leads(P(), S4(), Flush(0, 9), S5())
  {
    var s', all := Do(P(), S4(), Flush(0, 9)), O.Sends(Run([M]).out);
    FlushOut([M]);
    assert |ToUp(all)| == 2 && all[..2] == all;
    assert s'.clients == map[0 := STOPPED, 1 := Run([])];
    assert s'.up[0] == [] + ToUp(all) == [V.SendPacket(M), V.AtDeadline];
    assert s'.up == map[0 := [V.SendPacket(M), V.AtDeadline], 1 := []];
  }

  lemma FlushesB()
    ensures Leads(P(), S5(), Flush(1, 9), S6())
  {
    var s', all := Do(P(), S5(), Flush(1, 9)), O.Sends(Run([]).out);
    FlushOut([]);
    assert |ToUp(all)| == 1 && all[..1] == all;
    assert s'.clients == map[0 := STOPPED, 1 := STOPPED];
    assert s'.up[1] == [] + ToUp(all) == [V.AtDeadline];
    assert s'.up == map[0 := [V.SendPacket(M), V.AtDeadline], 1 := [V.AtDeadline]];
  }

  lemma CollectsPacket()
    ensures Leads(P(), S6(), Visit(0), S6R()) && Leads(P(), S6R(), Collect(0), S7())
  {
    assert [V.SendPacket(M), V.AtDeadline][1..] == [V.AtDeadline] && [] + [M] == [M];
    assert Do(P(), S6R(), Collect(0)).up == map[0 := [V.AtDeadline], 1 := [V.AtDeadline]];
  }

  lemma CollectsA()
    ensures Leads(P(), S7(), Collect(0), S8())
  {
    assert [V.AtDeadline][1..] == [] && {0, 1} - {0} == {1};
    assert Do(P(), S7(), Collect(0)).up == map[0 := [], 1 := [V.AtDeadline]];
  }

  lemma CollectsB()
    ensures Leads(P(), S8(), Visit(1), S8R()) && Leads(P(), S8R(), Collect(1), S9())
  {
    assert [V.AtDeadline][1..] == [] && {1} - {1} == {};
    assert Do(P(), S8R(), Collect(1)).up == map[0 := [], 1 := []];
  }

  const FLIGHT := Comm(M, 0, 1, 0.0, At(1.0))
  const LAST := End([M], [At(1.0)], [M])

  lemma Ends()
    ensures AtEnd(P(), S9(), LAST) && Enabled(P(), S9(), LAST) && Arrives(P(), S9(), LAST, FLIGHT)
  {
    var c, ms, ends := C0(), [M], [At(1.0)];
    assert ms[..0] == [] && ends[..0] == [] && ms[..1] == ms;
    assert ClockAfter(0.0, ms) == 0.0;
    assert Launched(0.0, ms, c.hosts, ends) == [FLIGHT];
    assert [] + [FLIGHT] == [FLIGHT] && [FLIGHT][1..] == [];
    var c' := RoundOf(P(), c, Never, ms, [], ends);
    assert c'.clock == 1.0 && c'.sockets == {0, 1};
    assert Arrived([FLIGHT], 1.0, {0, 1}, true) == multiset{M};
    assert EndOk(P(), S9(), ms, ends, [M]);
  }

  /** A run as a chain of steps. */
  ghost predicate Chain(p: Platform, run: seq<State>, acts: seq<Step>) {
    && |run| == |acts| + 1
    && (acts != [] ==> Leads(p, run[0], acts[0], run[1]) && Chain(p, run[1..], acts[1..]))
  }

  lemma ChainOne(p: Platform, s: State)
    ensures Chain(p, [s], [])
  {}

  lemma ChainMore(p: Platform, s: State, a: Step, run: seq<State>, acts: seq<Step>)
    requires Chain(p, run, acts) && Leads(p, s, a, run[0])
    ensures Chain(p, [s] + run, [a] + acts)
  {
    assert ([s] + run)[1..] == run && ([a] + acts)[1..] == acts;
  }

  /** One step more at the beginning of a chain. */
  lemma Before(p: Platform, s: State, a: Step, run0: seq<State>, acts0: seq<Step>) returns (run: seq<State>, acts: seq<Step>)
    requires Chain(p, run0, acts0) && Leads(p, s, a, run0[0])
    ensures Chain(p, run, acts) && run[0] == s && run[|acts|] == run0[|acts0|]
  {
    ChainMore(p, s, a, run0, acts0);
    run, acts := [s] + run0, [a] + acts0;
  }

  lemma {:induction false} ChainAt(p: Platform, run: seq<State>, acts: seq<Step>, i: nat)
    requires Chain(p, run, acts) && i < |acts|
    ensures Leads(p, run[i], acts[i], run[i + 1])
  {
    if i > 0 { ChainAt(p, run[1..], acts[1..], i - 1); }
  }

  /** Some chain of steps leads from s to t. */
  ghost predicate Reaches(p: Platform, s: State, t: State) {
    exists run: seq<State>, acts: seq<Step> :: Chain(p, run, acts) && run[0] == s && run[|acts|] == t
  }

  lemma ReachesStep(p: Platform, s: State, a: Step, t: State)
    requires Leads(p, s, a, t)
    ensures Reaches(p, s, t)
  {
    ChainOne(p, t);
    var run, acts := Before(p, s, a, [t], []);
  }

  lemma {:induction false} ChainThen(p: Platform, run1: seq<State>, acts1: seq<Step>, run2: seq<State>, acts2: seq<Step>)
    returns (run: seq<State>, acts: seq<Step>)
    requires Chain(p, run1, acts1) && Chain(p, run2, acts2) && run1[|acts1|] == run2[0]
    ensures Chain(p, run, acts) && run[0] == run1[0] && run[|acts|] == run2[|acts2|]
    decreases |acts1|
  {
    if acts1 == [] {
      run, acts := run2, acts2;
    } else {
      run, acts := ChainThen(p, run1[1..], acts1[1..], run2, acts2);
      run, acts := Before(p, run1[0], acts1[0], run, acts);
    }
  }

  lemma ReachesThen(p: Platform, s: State, t: State, u: State)
    requires Reaches(p, s, t) && Reaches(p, t, u)
    ensures Reaches(p, s, u)
  {
    var run1: seq<State>, acts1: seq<Step> :| Chain(p, run1, acts1) && run1[0] == s && run1[|acts1|] == t;
    var run2: seq<State>, acts2: seq<Step> :| Chain(p, run2, acts2) && run2[0] == t && run2[|acts2|] == u;
    var run, acts := ChainThen(p, run1, acts1, run2, acts2);
  }

  lemma ChainIsRun(p: Platform, run: seq<State>, acts: seq<Step>)
    requires Chain(p, run, acts) && Init(p, run[0])
    ensures IsRun(p, run, acts)
  {
    forall i | 0 <= i < |acts| ensures Enabled(p, run[i], acts[i]) && run[i + 1] == Do(p, run[i], acts[i]) {
      ChainAt(p, run, acts, i);
    }
  }

  lemma InitIs(p: Platform, s: State)
    requires s.coord == C0() && s.stage == Idle && s.gotos == [] && !s.violated && !s.aborted
    requires s.clients == map[0 := BOOTED, 1 := BOOTED] && s.up == map[0 := [], 1 := []] && s.down == map[0 := [], 1 := []]
    requires Deployed(s.coord) && OneVmPerHost(s.coord.hosts) && PlatformOk(p, s.coord.hosts)
    requires s.coord.minLatency == MinLatency(p, s.coord.actors)
    ensures Init(p, s)
  {
    assert s.clients.Keys == {0, 1} == s.up.Keys == s.down.Keys == s.coord.hosts.Keys;
  }

  lemma Starts()
    ensures Init(P(), S0())
  {
    Platforms();
    InitIs(P(), S0());
  }

  /** Both VMs reach the deadline and everything is collected. */
  lemma Collection() returns (run: seq<State>, acts: seq<Step>)
    ensures Chain(P(), run, acts) && run[0] == S5() && run[|acts|] == S9()
  {
    ChainOne(P(), S9());
    CollectsB();
    run, acts := Before(P(), S8R(), Collect(1), [S9()], []);
    run, acts := Before(P(), S8(), Visit(1), run, acts);
    CollectsA();
    run, acts := Before(P(), S7(), Collect(0), run, acts);
    CollectsPacket();
    run, acts := Before(P(), S6R(), Collect(0), run, acts);
    run, acts := Before(P(), S6(), Visit(0), run, acts);
    FlushesB();
    run, acts := Before(P(), S5(), Flush(1, 9), run, acts);
  }

  /** Before that, both VMs compute and one of them sends a packet. */
  lemma Reached() returns (run: seq<State>, acts: seq<Step>)
    ensures Chain(P(), run, acts) && run[0] == S0() && run[|acts|] == S9()
  {
    run, acts := Collection();
    FlushesA();
    run, acts := Before(P(), S4(), Flush(0, 9), run, acts);
    Sends();
    run, acts := Before(P(), S3(), Send(0, M, false, 64), run, acts);
    run, acts := FirstSteps(run, acts);
  }

  lemma FirstSteps(run0: seq<State>, acts0: seq<Step>) returns (run: seq<State>, acts: seq<Step>)
    requires Chain(P(), run0, acts0) && run0[0] == S3()
    ensures Chain(P(), run, acts) && run[0] == S0() && run[|acts|] == run0[|acts0|]
  {
    HearsB();
    run, acts := Before(P(), S2(), Hear(1, true), run0, acts0);
    HearsA();
    run, acts := Before(P(), S1(), Hear(0, true), run, acts);
    Begins();
    run, acts := Before(P(), S0(), Begin(Never), run, acts);
  }

  /**
   There is a run after which a round can end with a packet, sent at time 0 over a route of 1 s, that
   arrives at the deadline of 1 s; by the theorem it is on time.
   */
  lemma APacketArrives() returns (run: seq<State>, acts: seq<Step>)
    ensures IsRun(P(), run, acts) && run[|acts|] == S9()
    ensures AtEnd(P(), S9(), LAST) && Enabled(P(), S9(), LAST) && Arrives(P(), S9(), LAST, FLIGHT)
    ensures OnTime(P(), S9(), Do(P(), S9(), LAST), FLIGHT)
  {
    run, acts := Reached();
    Starts();
    ChainIsRun(P(), run, acts);
    RunGood(P(), run, acts, |acts|);
    ArrivesOnTime();
  }

  lemma ArrivesOnTime()
    requires Good(P(), S9())
    ensures AtEnd(P(), S9(), LAST) && Enabled(P(), S9(), LAST) && Arrives(P(), S9(), LAST, FLIGHT)
    ensures OnTime(P(), S9(), Do(P(), S9(), LAST), FLIGHT)
  {
    Ends();
    EndOnTime(P(), S9(), LAST, FLIGHT);
  }

  // ---------------------------------------------------------------- waiting for ever

  /** A packet stamped one nanosecond after the deadline: the kernel was late to fire the timer. */
  const LATE := OutputMsg(0, 1, D + 1, [])
  const OVER := Client(Ended, false, O.Out(0, D, [LATE], []), 1)

  function T4(): State { S(Wait([], {0, 1}, None), Run([LATE]), Run([]), [], [], [], [], [At(1.0)]) }
  function T5(): State { S(Wait([], {0, 1}, None), OVER, Run([]), [], [], [], [], [At(1.0)]) }
  function T6(): State { S(Wait([], {0, 1}, None), OVER, STOPPED, [], [V.AtDeadline], [], [], [At(1.0)]) }
  function T7(): State { S(Wait([], {0, 1}, Some(0)), OVER, STOPPED, [], [V.AtDeadline], [], [], [At(1.0)]) }

  lemma SendsLate()
    ensures Leads(P(), S3(), Send(0, LATE, false, 64), T4())
  {
    assert [] + [LATE] == [LATE];
    assert Do(P(), S3(), Send(0, LATE, false, 64)).clients == map[0 := Run([LATE]), 1 := Run([])];
  }

  lemma GivesUp()
    ensures Leads(P(), T4(), Flush(0, 9), T5())
  {
    var o := Run([LATE]).out;
    assert O.Late(o.outgoing[0], o.prev, o.next);
    assert O.Aborts(o) && O.Sends(o) == [] && ToUp([]) == [];
    var s' := Do(P(), T4(), Flush(0, 9));
    assert s'.clients == map[0 := OVER, 1 := Run([])];
    assert s'.up[0] == [] + ToUp([]) == [] && s'.up[1] == [];
    assert s'.up == map[0 := [], 1 := []];
  }

  lemma OtherFlushes()
    ensures Leads(P(), T5(), Flush(1, 9), T6())
  {
    var s', all := Do(P(), T5(), Flush(1, 9)), O.Sends(Run([]).out);
    FlushOut([]);
    assert |ToUp(all)| == 1 && all[..1] == all;
    assert s'.clients == map[0 := OVER, 1 := STOPPED];
    assert s'.up[1] == [] + ToUp(all) == [V.AtDeadline];
    assert s'.up == map[0 := [], 1 := [V.AtDeadline]];
  }

  lemma Turns()
    ensures Leads(P(), T6(), Visit(0), T7())
  {}

  lemma WaitingChain() returns (run: seq<State>, acts: seq<Step>)
    ensures Chain(P(), run, acts) && run[0] == S3() && run[|acts|] == T7()
  {
    ChainOne(P(), T7());
    Turns();
    run, acts := Before(P(), T6(), Visit(0), [T7()], []);
    OtherFlushes();
    run, acts := Before(P(), T5(), Flush(1, 9), run, acts);
    GivesUp();
    run, acts := Before(P(), T4(), Flush(0, 9), run, acts);
    SendsLate();
    run, acts := Before(P(), S3(), Send(0, LATE, false, 64), run, acts);
  }

  lemma WaitingRun() returns (run: seq<State>, acts: seq<Step>)
    ensures IsRun(P(), run, acts) && run[|acts|] == T7()
  {
    run, acts := WaitingChain();
    run, acts := FirstSteps(run, acts);
    Starts();
    ChainIsRun(P(), run, acts);
  }

  lemma IsStuck()
    ensures !T7().aborted && Stuck(T7()) && T7().coord.sockets != {} && T7().up[1] != []
  {
    assert 0 in T7().coord.sockets;
  }

  /**
   A process client sends a packet between the deadline and the late signal; its handler gives up, its
   process lives on, and the coordinator, which reads its socket, can do nothing any more, nor can the
   other VM, whose frame stays unread.
   */
  lemma CoordinatorCanWaitForEver() returns (run: seq<State>, acts: seq<Step>)
    ensures IsRun(P(), run, acts) && !run[|acts|].aborted && Stuck(run[|acts|]) && run[|acts|].coord.sockets != {}
    ensures 1 in run[|acts|].up && run[|acts|].up[1] != []
    ensures forall a :: Works(a) ==> !Enabled(P(), run[|acts|], a)
  {
    run, acts := WaitingRun();
    IsStuck();
    DeadlockIff(P(), run, acts, |acts|);
  }
}
