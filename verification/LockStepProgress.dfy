/** When the whole system can go on, and when the coordinator waits for ever. */
module LockStepProgress {
  import opened Basics
  import opened WireTime
  import opened Coordinator
  import opened CoordinatorTheorems
  import opened LockStep
  import opened LockStepTheorems
  import O = OutputSide
  import V = VmsInterface

  /** The steps of the protocol, as opposed to what applications do: send a packet or die. */
  predicate Works(a: Step) { !a.Send? && !a.Die? }

  /** Client v gave up, its socket is open, and the coordinator has read all it wrote. */
  predicate Silent(s: State, v: nat) {
    v in s.clients && v in s.up && s.clients[v].phase == Ended && s.up[v] == []
  }

  // ---------------------------------------------------------------- one VM

  lemma HasFrame(s: State, v: nat)
    requires s.stage.Collecting? && v in s.stage.todo && v in s.clients && v in s.up && v in s.down && Each(s, v)
    requires s.up[v] == [] && Living(s.clients[v]) && s.clients[v].phase != Running
    ensures s.down[v] != []
  {}

  /** The coordinator turned to the socket of v. */
  function Reading(s: State, v: nat): State
    requires s.stage.Collecting?
  {
    s.(stage := s.stage.(reading := Some(v)))
  }

  /** A step for a VM the coordinator waits for: of the coordinator on its socket, or of the client's handler. */
  lemma WorkFor(p: Platform, s: State, v: nat) returns (a: Step)
    requires SameKeys(s) && s.stage.Collecting? && v in s.stage.todo && v in s.clients && v in s.up && v in s.down && Each(s, v)
    requires !Silent(s, v)
    ensures Works(a) && Enabled(p, Reading(s, v), a)
    ensures a == Collect(v) || a == Lose(v) || (Enabled(p, s, a) && (a == Hear(v, true) || a == Flush(v, 0)))
  {
    if s.up[v] != [] {
      a := Collect(v);
    } else if s.clients[v].phase == Dead {
      a := Lose(v);
    } else if s.clients[v].phase == Running {
      a := Flush(v, 0);
    } else {
      HasFrame(s, v);
      a := Hear(v, true);
    }
  }

  /** The coordinator can take a step when it reads v, or v's handler can take one. */
  ghost predicate Served(p: Platform, s: State, v: nat)
    requires s.stage.Collecting?
  {
    || Enabled(p, Reading(s, v), Collect(v)) || Enabled(p, Reading(s, v), Lose(v))
    || (exists room :: Enabled(p, s, Hear(v, room))) || (exists n :: Enabled(p, s, Flush(v, n)))
  }

  lemma ServedIff(p: Platform, s: State, v: nat)
    requires SameKeys(s) && s.stage.Collecting? && v in s.stage.todo && v in s.clients && v in s.up && v in s.down && Each(s, v)
    ensures !Served(p, s, v) <==> Silent(s, v)
  {
    if !Silent(s, v) { var a := WorkFor(p, s, v); }
  }

  lemma TodoIsClient(s: State, v: nat)
    requires AllEach(s) && GotOk(s) && Deployed(s.coord) && s.stage.Collecting? && v in s.stage.todo
    ensures v in s.clients && v in s.up && v in s.down && Each(s, v)
  {
    assert v in s.coord.sockets;
  }

  /**
   In every run, for a VM the coordinator waits for: neither side has a step left, even if the
   coordinator reads this VM's socket, exactly when the client's handler gave up without closing the
   socket and all its frames were read.
   */
  lemma WaitsInVainIff(p: Platform, run: seq<State>, acts: seq<Step>, i: nat, v: nat)
    requires IsRun(p, run, acts) && i < |run| && run[i].stage.Collecting? && v in run[i].stage.todo
    ensures !Served(p, run[i], v) <==> Silent(run[i], v)
  {
    RunGood(p, run, acts, i);
    TodoIsClient(run[i], v);
    ServedIff(p, run[i], v);
  }

  /** The deadline of this flush fails: a packet is stamped beyond it, or a write fails. */
  predicate FlushFails(c: Client, allowed: nat) { O.Aborts(c.out) || |O.Sends(c.out)| > allowed }

  /** This receive fails: no buffer is left, or the deadline is not a date the client accepts. */
  ghost predicate HearFails(s: State, v: nat, room: bool)
    requires v in s.down && s.down[v] != []
  {
    !room || (s.down[v][0].GotoDeadline? && s.gotos != [] && !Usable(Last(s.gotos)))
  }

  lemma FlushEndsIff(s: State, v: nat, allowed: nat)
    requires v in s.clients && v in s.up && s.clients[v].phase == Running
    ensures DoFlush(s, v, allowed).clients[v].phase == Ended <==> !s.clients[v].kvm && FlushFails(s.clients[v], allowed)
  {}

  lemma HearEndsIff(s: State, v: nat, room: bool)
    requires v in s.clients && v in s.up && v in s.down && Each(s, v) && s.down[v] != []
    requires s.clients[v].phase == Boot || s.clients[v].phase == Frozen
    ensures DoHear(s, v, room).clients[v].phase == Ended <==>
      (!s.clients[v].kvm || s.clients[v].phase == Boot) && HearFails(s, v, room)
  {
    var down := s.down[v];
    if s.clients[v].heard != |s.gotos| {
      AcceptedIffFinite(Last(s.gotos));
      if |down| > 1 { assert down[..|down| - 1][0] == down[0]; }
    }
  }

  /** What makes client v give up with its socket open. */
  ghost predicate Fails(s: State, a: Step, v: nat)
    requires v in s.clients && v in s.down
  {
    var c := s.clients[v];
    || (a.Flush? && a.v == v && !c.kvm && FlushFails(c, a.allowed))
    || (a.Hear? && a.v == v && s.down[v] != [] && (!c.kvm || c.phase == Boot) && HearFails(s, v, a.room))
  }

  lemma StepEndsIff(p: Platform, s: State, a: Step, v: nat)
    requires Enabled(p, s, a) && v in s.clients && v in s.up && v in s.down && Each(s, v) && Living(s.clients[v])
    ensures v in Do(p, s, a).clients && (Do(p, s, a).clients[v].phase == Ended <==> Fails(s, a, v))
  {
    if a.Flush? && a.v == v {
      FlushEndsIff(s, v, a.allowed);
    } else if a.Hear? && a.v == v {
      HearEndsIff(s, v, a.room);
    } else {
      OthersLive(p, s, a, v);
    }
  }

  /**
   Where silent clients come from: in every run a living client ends with an open socket exactly when a
   deadline fails with a timer other than KVM's, or a receive does with such a timer or before the start.
   */
  lemma EndsIff(p: Platform, run: seq<State>, acts: seq<Step>, i: nat, v: nat)
    requires IsRun(p, run, acts) && i < |acts| && v in run[i].clients && Living(run[i].clients[v])
    ensures v in run[i + 1].clients && v in run[i].down && (run[i + 1].clients[v].phase == Ended <==> Fails(run[i], acts[i], v))
  {
    RunGood(p, run, acts, i);
    assert Each(run[i], v);
    StepEndsIff(p, run[i], acts[i], v);
  }

  lemma OthersLive(p: Platform, s: State, a: Step, v: nat)
    requires Enabled(p, s, a) && v in s.clients && Living(s.clients[v]) && !((a.Flush? || a.Hear?) && a.v == v)
    ensures v in Do(p, s, a).clients && Do(p, s, a).clients[v].phase != Ended
  {
    if OfCoordinator(a) { ClientsKept(p, s, a); }
  }

  lemma ClientsKept(p: Platform, s: State, a: Step)
    requires Enabled(p, s, a) && OfCoordinator(a)
    ensures Do(p, s, a).clients == s.clients
  {}

  // ---------------------------------------------------------------- the coordinator

  /** The first pending finish. */
  function Earliest(cs: seq<Comm>): Instant {
    if cs == [] then Never else Min(cs[0].finish, Earliest(cs[1..]))
  }

  lemma {:induction false} EarliestIs(cs: seq<Comm>, clock: real)
    requires forall x :: x in cs ==> Lt(At(clock), x.finish)
    ensures Lt(At(clock), Earliest(cs)) && forall x :: x in cs ==> Le(Earliest(cs), x.finish)
  {
    if cs != [] {
      EarliestIs(cs[1..], clock);
      assert cs == [cs[0]] + cs[1..];
    }
  }

  /** Between rounds the simulator always has an answer that lets the next round begin. */
  lemma CanBegin(p: Platform, s: State) returns (nextEvent: Instant)
    requires SameKeys(s) && Inv(p, s.coord) && s.coord.clock >= 0.0 && s.stage.Idle? && s.coord.sockets != {}
    ensures Enabled(p, s, Begin(nextEvent))
  {
    nextEvent := Earliest(s.coord.pending);
    EarliestIs(s.coord.pending, s.coord.clock);
    DeadlineNotPast(p, s.coord, nextEvent);
  }

  function ArrivedList(cs: seq<Comm>, t: real, running: set<nat>): seq<OutputMsg> {
    if cs == [] then []
    else
      ArrivedList(cs[1..], t, running)
      + if Le(cs[0].finish, At(t)) && cs[0].cargo.dst in running then [cs[0].cargo] else []
  }

  lemma {:induction false} ArrivedListIs(cs: seq<Comm>, t: real, running: set<nat>)
    ensures multiset(ArrivedList(cs, t, running)) == Arrived(cs, t, running, true)
  {
    if cs != [] { ArrivedListIs(cs[1..], t, running); }
  }

  /** When the network takes no longer than the latency. */
  function Prompt(p: Platform, clock: real, ms: seq<OutputMsg>, hosts: map<nat, nat>): seq<Instant> {
    seq(|ms|, i requires 0 <= i < |ms| =>
      if ms[i].src in hosts && ms[i].dst in hosts then At(ClockAfter(clock, ms[..i + 1]) + p.latency(hosts[ms[i].src], hosts[ms[i].dst]))
      else Never)
  }

  lemma PromptIsOk(p: Platform, clock: real, ms: seq<OutputMsg>, hosts: map<nat, nat>)
    ensures EndsOk(p, clock, ms, hosts, Prompt(p, clock, ms, hosts))
  {}

  lemma SortedSources(s: State, ms: seq<OutputMsg>)
    requires s.stage.Collecting? && GotOk(s) && Deployed(s.coord) && multiset(ms) == multiset(s.stage.got)
    ensures forall m :: m in ms ==> m.src in s.coord.hosts
  {
    forall m | m in ms ensures m.src in s.coord.hosts {
      assert m in multiset(ms);
      assert m in s.stage.got;
    }
  }

  /** The causality assertion holds of everything collected: by its exact condition, in terms of the round. */
  predicate RoundPasses(s: State)
    requires s.stage.Collecting?
  {
    forall m :: m in s.stage.got ==> !(EPSILON < s.coord.clock < NS && m.sendTime == 0)
  }

  lemma PassIff(s: State, ms: seq<OutputMsg>)
    requires s.stage.Collecting? && GotOk(s) && ClockOk(s) && Ordered(s.gotos) && Deployed(s.coord) && Sorting(s, ms)
    ensures AllPass(s.coord.clock, ms, s.coord.hosts) <==> RoundPasses(s)
  {
    forall k | 0 <= k < |ms| ensures Passes(s.coord.clock, ms, s.coord.hosts, k) <==> !(EPSILON < s.coord.clock < NS && ms[k].sendTime == 0) {
      SortedPasses(s, ms, k);
    }
    forall m ensures m in ms <==> m in s.stage.got {
      assert m in multiset(ms) <==> m in multiset(s.stage.got);
    }
  }

  /** Whatever was collected can be sorted and simulated. */
  lemma HasOutcome(p: Platform, s: State) returns (ms: seq<OutputMsg>, ends: seq<Instant>, outs: seq<OutputMsg>)
    requires s.stage.Collecting? && GotOk(s) && Deployed(s.coord)
    ensures Sorting(s, ms) && EndOk(p, s, ms, ends, outs)
  {
    var c := s.coord;
    ms := V.Sort(s.stage.got);
    V.SortSorts(s.stage.got);
    SortedSources(s, ms);
    ends := Prompt(p, c.clock, ms, c.hosts);
    PromptIsOk(p, c.clock, ms, c.hosts);
    var flying := c.pending + Launched(c.clock, ms, c.hosts, ends);
    var t := RoundOf(p, c, s.stage.nextEvent, ms, s.stage.gone, ends).clock;
    var running := c.sockets - (set v | v in s.stage.gone);
    ArrivedListIs(flying, t, running);
    outs := ArrivedList(flying, t, running);
  }

  /** All VMs reached the deadline or are gone: the last step of the round is to come. */
  ghost predicate Collected(s: State) { s.stage.Collecting? && s.stage.todo == {} && !s.aborted }

  lemma Outcome(p: Platform, s: State) returns (a: Step)
    requires SameKeys(s) && Collected(s) && GotOk(s) && ClockOk(s) && Ordered(s.gotos) && Deployed(s.coord)
    ensures Enabled(p, s, a) && (if RoundPasses(s) then a.End? else a.Abort?)
  {
    var ms, ends, outs := HasOutcome(p, s);
    PassIff(s, ms);
    a := if RoundPasses(s) then End(ms, ends, outs) else Abort(ms);
  }

  lemma OutcomeOnly(p: Platform, s: State, a: Step)
    requires Enabled(p, s, a) && Collected(s) && GotOk(s) && ClockOk(s) && Ordered(s.gotos) && Deployed(s.coord) && (a.End? || a.Abort?)
    ensures a.End? <==> RoundPasses(s)
  {
    PassIff(s, a.ms);
  }

  /**
   In every run, once all VMs reached the deadline or are gone, the round can end exactly when the
   assertion holds of what was collected, and the coordinator can abort exactly when it does not; the
   order `std::sort` gives to equal timestamps makes no difference.
   */
  lemma CanEndIff(p: Platform, run: seq<State>, acts: seq<Step>, i: nat)
    requires IsRun(p, run, acts) && i < |run| && Collected(run[i])
    ensures (exists a: Step :: a.End? && Enabled(p, run[i], a)) <==> RoundPasses(run[i])
    ensures (exists a: Step :: a.Abort? && Enabled(p, run[i], a)) <==> !RoundPasses(run[i])
    ensures forall ms :: Sorting(run[i], ms) ==> (AllPass(run[i].coord.clock, ms, run[i].coord.hosts) <==> RoundPasses(run[i]))
  {
    RunGood(p, run, acts, i);
    EndOrAbort(p, run[i]);
  }

  lemma EndOrAbort(p: Platform, s: State)
    requires SameKeys(s) && Collected(s) && GotOk(s) && ClockOk(s) && Ordered(s.gotos) && Deployed(s.coord)
    ensures (exists a: Step :: a.End? && Enabled(p, s, a)) <==> RoundPasses(s)
    ensures (exists a: Step :: a.Abort? && Enabled(p, s, a)) <==> !RoundPasses(s)
    ensures forall ms :: Sorting(s, ms) ==> (AllPass(s.coord.clock, ms, s.coord.hosts) <==> RoundPasses(s))
  {
    var last := Outcome(p, s);
    forall a: Step | (a.End? || a.Abort?) && Enabled(p, s, a) ensures a.End? <==> RoundPasses(s) { OutcomeOnly(p, s, a); }
    forall ms | Sorting(s, ms) ensures AllPass(s.coord.clock, ms, s.coord.hosts) <==> RoundPasses(s) { PassIff(s, ms); }
  }

  // ---------------------------------------------------------------- the whole system

  /** No handler of this client has a step: it is not computing and has nothing to read. */
  predicate Quiet(s: State, v: nat) {
    v in s.clients && v in s.down ==>
      s.clients[v].phase != Running && (s.clients[v].phase == Boot || s.clients[v].phase == Frozen ==> s.down[v] == [])
  }

  /** The coordinator reads the socket of client v, which gave up and said nothing more. */
  predicate BlockedOn(s: State, v: nat) { s.stage.Collecting? && s.stage.reading == Some(v) && Silent(s, v) }

  predicate Blocked(s: State) { s.stage.Collecting? && s.stage.reading.Some? && BlockedOn(s, s.stage.reading.value) }

  /** The coordinator aborted, or it is blocked and no client has a step. */
  ghost predicate Stuck(s: State) { s.aborted || (Blocked(s) && forall v :: v in s.clients ==> Quiet(s, v)) }

  lemma NotQuiet(p: Platform, s: State, v: nat) returns (a: Step)
    requires SameKeys(s) && v in s.clients && !Quiet(s, v)
    ensures Works(a) && Enabled(p, s, a)
  {
    a := if s.clients[v].phase == Running then Flush(v, 0) else Hear(v, true);
  }

  lemma CanCollect(p: Platform, s: State) returns (a: Step)
    requires Good(p, s) && s.stage.Collecting? && s.stage.todo != {} && !Stuck(s)
    ensures Works(a) && Enabled(p, s, a)
  {
    if s.stage.reading.None? {
      var v :| v in s.stage.todo;
      a := Visit(v);
    } else if Blocked(s) {
      var v :| v in s.clients && !Quiet(s, v);
      a := NotQuiet(p, s, v);
    } else {
      TodoIsClient(s, s.stage.reading.value);
      a := WorkFor(p, s, s.stage.reading.value);
    }
  }

  lemma CanWork(p: Platform, s: State) returns (a: Step)
    requires Good(p, s) && s.coord.sockets != {} && !Stuck(s)
    ensures Works(a) && Enabled(p, s, a)
  {
    if s.stage.Idle? {
      var nextEvent := CanBegin(p, s);
      a := Begin(nextEvent);
    } else if s.stage.todo == {} {
      a := Outcome(p, s);
    } else {
      a := CanCollect(p, s);
    }
  }

  lemma AbortedIsQuiet(s: State, v: nat)
    requires s.stage.Collecting? && s.stage.todo == {} && v in s.clients && v in s.up && v in s.down && Each(s, v)
    ensures Quiet(s, v)
  {}

  lemma StuckIsQuiet(s: State, v: nat)
    requires AllEach(s) && AbortOk(s) && Stuck(s) && v in s.clients
    ensures Quiet(s, v)
  {
    if s.aborted { AbortedIsQuiet(s, v); }
  }

  lemma StuckCoordinator(p: Platform, s: State, a: Step)
    requires Stuck(s) && AbortOk(s) && GotOk(s) && OfCoordinator(a)
    ensures !Enabled(p, s, a)
  {}

  lemma StuckDoesNothing(p: Platform, s: State, a: Step)
    requires AllEach(s) && AbortOk(s) && GotOk(s) && Stuck(s) && Works(a)
    ensures !Enabled(p, s, a)
  {
    if OfCoordinator(a) {
      StuckCoordinator(p, s, a);
    } else if a.v in s.clients {
      StuckIsQuiet(s, a.v);
    }
  }

  /**
   Deadlock, exactly: in every run, as long as a VM is connected, the protocol cannot go on if and only if
   the coordinator aborted, or it reads the socket of a silent client and no client has a step of its own.
   Frames of other VMs that wait in their sockets do not help.
   */
  lemma DeadlockIff(p: Platform, run: seq<State>, acts: seq<Step>, i: nat)
    requires IsRun(p, run, acts) && i < |run| && run[i].coord.sockets != {}
    ensures (forall a :: Works(a) ==> !Enabled(p, run[i], a)) <==> Stuck(run[i])
  {
    RunGood(p, run, acts, i);
    if Stuck(run[i]) {
      forall a | Works(a) ensures !Enabled(p, run[i], a) { StuckDoesNothing(p, run[i], a); }
    } else {
      var a := CanWork(p, run[i]);
    }
  }

  /** Of the steps possible, the coordinator has none, and the client it waits for can only die. */
  lemma BlockedSteps(p: Platform, s: State, a: Step, v: nat)
    requires Enabled(p, s, a) && BlockedOn(s, v) && GotOk(s)
    ensures !OfCoordinator(a) && (a.v == v ==> a.Die?)
  {}

  lemma SilentStays(s: State, s': State, v: nat, w: nat)
    requires OnlyClient(s, s', w) && v != w && v in s.down && BlockedOn(s, v)
    ensures BlockedOn(s', v)
  {}

  lemma ClientOnly(p: Platform, s: State, a: Step)
    requires Enabled(p, s, a) && !OfCoordinator(a)
    ensures OnlyClient(s, Do(p, s, a), a.v)
  {
    if a.Hear? { HearOnly(s, a.v, a.room); }
  }

  lemma BlockedStays(p: Platform, s: State, a: Step, v: nat)
    requires GotOk(s) && Enabled(p, s, a) && BlockedOn(s, v) && a != Die(v)
    ensures BlockedOn(Do(p, s, a), v)
  {
    BlockedSteps(p, s, a, v);
    ClientOnly(p, s, a);
    SilentStays(s, Do(p, s, a), v, a.v);
  }

  /** The coordinator has no step; the death of client v gives it one. */
  ghost predicate OnlyDeathHelps(p: Platform, s: State, v: nat) {
    && (forall a :: OfCoordinator(a) ==> !Enabled(p, s, a))
    && Enabled(p, s, Die(v)) && Enabled(p, Do(p, s, Die(v)), Lose(v))
  }

  lemma BlockedEnds(p: Platform, s: State, v: nat)
    requires SameKeys(s) && GotOk(s) && BlockedOn(s, v)
    ensures OnlyDeathHelps(p, s, v)
  {
    forall a | OfCoordinator(a) ensures !Enabled(p, s, a) {
      if Enabled(p, s, a) { BlockedSteps(p, s, a, v); }
    }
  }

  lemma StaysBlocked(p: Platform, run: seq<State>, acts: seq<Step>, i: nat, j: nat, v: nat)
    requires IsRun(p, run, acts) && i <= j < |run| && BlockedOn(run[i], v)
    requires forall k :: i <= k < j ==> acts[k] != Die(v)
    ensures BlockedOn(run[j], v)
  {
    for k := i to j
      invariant BlockedOn(run[k], v)
    {
      RunGot(p, run, acts, k);
      BlockedStays(p, run[k], acts[k], v);
    }
  }

  /**
   A blocked coordinator has no step in any state of any run, whatever the other VMs do, until the process
   it waits for dies; that lets it go on.
   */
  lemma BlockedForEver(p: Platform, run: seq<State>, acts: seq<Step>, i: nat, j: nat, v: nat)
    requires IsRun(p, run, acts) && i <= j < |run| && BlockedOn(run[i], v)
    requires forall k :: i <= k < j ==> acts[k] != Die(v)
    ensures BlockedOn(run[j], v) && OnlyDeathHelps(p, run[j], v)
  {
    StaysBlocked(p, run, acts, i, j, v);
    RunGot(p, run, acts, j);
    BlockedEnds(p, run[j], v);
  }
}
