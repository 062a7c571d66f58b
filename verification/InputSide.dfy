/**
 The input side of a client while application threads pop packets concurrently with the deadline
 handler: buffers of the input pool, the bounded queue of the same size, and the wake-up callback.
 */
module InputSide {
  import opened Basics

  /**
   Where the handler stands; `mayNotify` is whether the queue was empty when it began to receive, `over`
   whether the simulation ends.
   */
  datatype Handler = Out | Receiving(mayNotify: bool) | Got(mayNotify: bool, p: nat) | Leaving(mayNotify: bool, over: bool)

  /**
   `live` counts allocated buffers; `held` packets are popped and not dropped yet.  Auxiliary:
   `awake` says that the callback has run since the queue was last empty, `dropped` counts failed pushes.
   */
  datatype State = State(live: nat, queue: seq<nat>, held: nat, handler: Handler, awake: bool, dropped: nat)

  datatype Step = Pop | Drop | Enter | GiveUp | Recv(p: nat) | Push | RecvDeadline | RecvEnd | Leave

  ghost predicate Init(s: State) { s == State(0, [], 0, Out, false, 0) }

  predicate Enabled(s: State, a: Step) {
    match a
    case Pop => s.queue != []
    case Drop => s.held > 0 && s.live > 0
    case Enter => s.handler.Out?
    case GiveUp => s.handler.Out?         // `at_deadline` returned before receiving anything
    case Recv(_) => s.handler.Receiving?
    case Push => s.handler.Got?
    case RecvDeadline => s.handler.Receiving?
    case RecvEnd => s.handler.Receiving?  // EndSimulation or a closed socket
    case Leave => s.handler.Leaving?
  }

  function Do(s: State, a: Step, n: nat): State
    requires Enabled(s, a)
  {
    match a
    case Pop => s.(queue := s.queue[1..], held := s.held + 1, awake := s.awake && |s.queue| > 1)
    case Drop => s.(held := s.held - 1, live := s.live - 1)
    case Enter => s.(handler := Receiving(s.queue == []))
    case GiveUp => s
    case Recv(p) =>
      if s.live < n then s.(live := s.live + 1, handler := Got(s.handler.mayNotify, p))
      else s.(handler := Leaving(s.handler.mayNotify, true))     // no buffer: the receive fails
    case Push =>
      var s1 := s.(handler := Receiving(s.handler.mayNotify));
      if |s.queue| < n then s1.(queue := s.queue + [s.handler.p])
      else s1.(dropped := s.dropped + 1, live := if s.live > 0 then s.live - 1 else 0)
    case RecvDeadline => s.(handler := Leaving(s.handler.mayNotify, s.live >= n))   // its buffer is dropped at once
    case RecvEnd => s.(handler := Leaving(s.handler.mayNotify, true))
    case Leave => s.(handler := Out, awake := s.awake || (s.handler.mayNotify && s.queue != []))
  }

  ghost predicate IsRun(run: seq<State>, acts: seq<Step>, n: nat) {
    && |run| == |acts| + 1
    && Init(run[0])
    && forall i :: 0 <= i < |acts| ==> Enabled(run[i], acts[i]) && run[i + 1] == Do(run[i], acts[i], n)
  }

  ghost predicate Fits(s: State, n: nat) {
    && s.live == |s.queue| + s.held + (if s.handler.Got? then 1 else 0) <= n
    && s.dropped == 0
    && (s.queue == [] ==> !s.awake)
  }

  /** A packet in hand has a buffer, so the queue has room: no push ever fails, in any interleaving. */
  lemma {:induction false} PushNeverFails(run: seq<State>, acts: seq<Step>, n: nat, i: nat)
    requires IsRun(run, acts, n) && i < |run|
    ensures Fits(run[i], n) && run[i].dropped == 0
    ensures i < |acts| && acts[i].Push? ==> run[i + 1].queue == run[i].queue + [run[i].handler.p]
  {
    if i > 0 { PushNeverFails(run, acts, n, i - 1); }
  }

  /** Exhaustion shows as a receive that fails and ends the simulation, exactly when all n buffers are in use. */
  lemma ReceiveFailsIffFull(run: seq<State>, acts: seq<Step>, n: nat, i: nat)
    requires IsRun(run, acts, n) && i < |acts| && (acts[i].Recv? || acts[i].RecvDeadline?)
    ensures run[i + 1].handler.Leaving? && run[i + 1].handler.over <==> |run[i].queue| + run[i].held == n
  {
    PushNeverFails(run, acts, n, i);
  }

  /** The packet that gets a buffer at this step. */
  function In(s: State, a: Step, n: nat): seq<nat> { if a.Recv? && s.live < n then [a.p] else [] }

  /** The packet the application gets at this step. */
  function ToApp(s: State, a: Step): seq<nat> { if a.Pop? && s.queue != [] then [s.queue[0]] else [] }

  function Received(run: seq<State>, acts: seq<Step>, n: nat, i: nat): seq<nat>
    requires i <= |acts| && |run| == |acts| + 1
  {
    if i == 0 then [] else Received(run, acts, n, i - 1) + In(run[i - 1], acts[i - 1], n)
  }

  function Popped(run: seq<State>, acts: seq<Step>, i: nat): seq<nat>
    requires i <= |acts| && |run| == |acts| + 1
  {
    if i == 0 then [] else Popped(run, acts, i - 1) + ToApp(run[i - 1], acts[i - 1])
  }

  /** Received and not popped yet. */
  function Kept(s: State): seq<nat> { s.queue + if s.handler.Got? then [s.handler.p] else [] }

  lemma StepIsFifo(s: State, a: Step, n: nat)
    requires Enabled(s, a) && Fits(s, n)
    ensures Kept(s) + In(s, a, n) == ToApp(s, a) + Kept(Do(s, a, n))
  {
    if a.Pop? { assert s.queue == [s.queue[0]] + s.queue[1..]; }
  }

  /** In every interleaving the application gets the packets that found a buffer, in order and once each. */
  lemma {:induction false} InputIsFifo(run: seq<State>, acts: seq<Step>, n: nat, i: nat)
    requires IsRun(run, acts, n) && i < |run|
    ensures Received(run, acts, n, i) == Popped(run, acts, i) + Kept(run[i])
  {
    if i > 0 {
      InputIsFifo(run, acts, n, i - 1);
      PushNeverFails(run, acts, n, i - 1);
      var s, a := run[i - 1], acts[i - 1];
      StepIsFifo(s, a, n);
      StillFifo(Received(run, acts, n, i - 1), Popped(run, acts, i - 1), Kept(s), In(s, a, n), ToApp(s, a), Kept(run[i]));
    }
  }

  lemma StillFifo(received: seq<nat>, popped: seq<nat>, kept: seq<nat>, more: seq<nat>, less: seq<nat>, kept': seq<nat>)
    requires received == popped + kept && kept + more == less + kept'
    ensures received + more == popped + less + kept'
  {
    assert received + more == popped + (kept + more);
    assert popped + less + kept' == popped + (less + kept');
  }

  // ---------------------------------------------------------------- wake-ups

  /** Nobody waits for a packet that is already there. */
  predicate Woken(s: State) { s.queue != [] ==> s.awake }

  /** The application empties the queue at step k. */
  predicate Empties(run: seq<State>, acts: seq<Step>, k: nat) {
    k < |acts| && k + 1 < |run| && acts[k].Pop? && run[k + 1].queue == []
  }

  /** The handler enters at step i and is still inside before step j. */
  ghost predicate Inside(run: seq<State>, acts: seq<Step>, n: nat, i: nat, j: nat) {
    && IsRun(run, acts, n) && i < j <= |acts| && acts[i].Enter?
    && forall k :: i < k < j ==> !acts[k].Leave?
  }

  lemma {:induction false} WhileInside(run: seq<State>, acts: seq<Step>, n: nat, i: nat, j: nat)
    requires Inside(run, acts, n, i, j) && Woken(run[i])
    ensures !run[j].handler.Out? && run[j].handler.mayNotify == (run[i].queue == [])
    ensures run[i].queue != [] ==>
      run[j].awake == !(exists k :: i < k < j && Empties(run, acts, k)) && (run[j].awake ==> run[j].queue != [])
  {
    PushNeverFails(run, acts, n, i);
    if j > i + 1 {
      WhileInside(run, acts, n, i, j - 1);
      OneMoreStep(run, acts, i, j);
      StepInside(run[j - 1], acts[j - 1], n);
    }
  }

  lemma StepInside(s: State, a: Step, n: nat)
    requires Enabled(s, a) && !s.handler.Out? && !a.Leave?
    ensures var s' := Do(s, a, n);
      && !s'.handler.Out? && s'.handler.mayNotify == s.handler.mayNotify
      && ((s.awake ==> s.queue != []) ==> s'.awake == (s.awake && !(a.Pop? && s'.queue == [])) && (s'.awake ==> s'.queue != []))
  {}

  lemma OneMoreStep(run: seq<State>, acts: seq<Step>, i: nat, j: nat)
    requires i + 1 < j <= |acts| && |run| == |acts| + 1
    ensures (exists k :: i < k < j && Empties(run, acts, k)) <==>
            (exists k :: i < k < j - 1 && Empties(run, acts, k)) || Empties(run, acts, j - 1)
  {}

  /**
   A wake-up is lost exactly when the queue was not empty on entry, the application emptied it while the
   handler ran, and packets arrived afterwards.
   */
  lemma LostWakeUpIff(run: seq<State>, acts: seq<Step>, n: nat, i: nat, j: nat)
    requires Inside(run, acts, n, i, j) && j < |acts| && acts[j].Leave? && Woken(run[i])
    ensures !Woken(run[j + 1]) <==>
      run[i].queue != [] && run[j].queue != [] && exists k :: i < k < j && Empties(run, acts, k)
  {
    WhileInside(run, acts, n, i, j);
  }

  /** If the application never pops while the handler runs, no wake-up is lost outside the handler. */
  lemma {:induction false} NoLostWakeUp(run: seq<State>, acts: seq<Step>, n: nat, i: nat)
    requires IsRun(run, acts, n) && i < |run|
    requires forall k :: 0 <= k < |acts| && acts[k].Pop? ==> run[k].handler.Out?
    ensures run[i].handler.Out? ==> Woken(run[i])
    ensures !run[i].handler.Out? && !run[i].handler.mayNotify ==> run[i].awake
  {
    if i > 0 { NoLostWakeUp(run, acts, n, i - 1); }
    PushNeverFails(run, acts, n, i);
  }

  /** Otherwise it can be: packet 1 is waiting, is popped during the handler, and packet 2 goes unnoticed. */
  lemma WakeUpCanBeLost() returns (run: seq<State>, acts: seq<Step>)
    ensures IsRun(run, acts, 3) && run[|acts|].handler.Out? && !Woken(run[|acts|])
  {
    run, acts := OneWaiting();
    run, acts := Extend(run, acts, Enter, 3);
    run, acts := Extend(run, acts, Pop, 3);
    run, acts := Extend(run, acts, Recv(2), 3);
    run, acts := Extend(run, acts, Push, 3);
    run, acts := Extend(run, acts, RecvDeadline, 3);
    run, acts := Extend(run, acts, Leave, 3);
  }

  lemma OneWaiting() returns (run: seq<State>, acts: seq<Step>)
    ensures IsRun(run, acts, 3) && run[|acts|] == State(1, [1], 0, Out, true, 0)
  {
    run, acts := [State(0, [], 0, Out, false, 0)], [];
    run, acts := Extend(run, acts, Enter, 3);
    run, acts := Extend(run, acts, Recv(1), 3);
    run, acts := Extend(run, acts, Push, 3);
    run, acts := Extend(run, acts, RecvDeadline, 3);
    run, acts := Extend(run, acts, Leave, 3);
    assert run[|acts|].queue == [1];
  }

  lemma Extend(run: seq<State>, acts: seq<Step>, a: Step, n: nat) returns (run': seq<State>, acts': seq<Step>)
    requires IsRun(run, acts, n) && Enabled(run[|acts|], a)
    ensures IsRun(run', acts', n) && |acts'| == |acts| + 1 && run'[|acts'|] == Do(run[|acts|], a, n)
  {
    run', acts' := run + [Do(run[|acts|], a, n)], acts + [a];
  }
}
