/**
 The sequence lock, with a value of several machine words that are read and written one at a time.
 Any number of readers and writers interleave; each step is one atomic access.
 */
module SeqLock {
  import opened Basics

  /** A value as the words it is made of. */
  type Value = seq<int>

  type WriteFn = Value -> Value

  /** Where a thread stands. */
  datatype Thread =
    | Idle
    | ReadWait                                       // spinning in `wait_released`
    | Reading(count: nat, got: Value)                // copying words; once all are there, about to check
    | WriteWait(f: WriteFn)                          // spinning in `wait_released`
    | Entering(f: WriteFn, count: nat)               // about to compare and swap
    | Copying(f: WriteFn, count: nat, got: Value)    // inside: reading the words
    | Storing(f: WriteFn, count: nat, next: Value, k: nat)  // inside: k words written
    | Panicked                                       // one of the assertions failed

  /** A completed `read`: the version it returned and the words given to `read_fn`. */
  datatype Return = Return(version: nat, value: Value)

  /**
   `committed` holds the initial value and the value after each completed write, `entered` the write
   functions in the order of their successful compare-and-swap; both are auxiliary.
   */
  datatype State = State(
    count: nat,
    words: Value,
    threads: seq<Thread>,
    writer: Option<nat>,
    committed: seq<Value>,
    entered: seq<WriteFn>,
    returned: seq<Return>)

  ghost predicate Init(s: State) {
    && s.count == 0 && s.writer.None? && s.committed == [s.words] && s.entered == [] && s.returned == []
    && forall t :: 0 <= t < |s.threads| ==> s.threads[t] == Idle
  }

  datatype Step =
    | CallRead(t: nat)
    | LoadForRead(t: nat)
    | ReadWord(t: nat)
    | Check(t: nat)
    | CallWrite(t: nat, f: WriteFn)
    | LoadForWrite(t: nat)
    | CompareAndSwap(t: nat)
    | CopyWord(t: nat)
    | Compute(t: nat)
    | StoreWord(t: nat)
    | Exit(t: nat)

  ghost predicate KeepsSize(f: WriteFn, size: nat) {
    forall v: Value :: |v| == size ==> |f(v)| == size
  }

  ghost predicate Enabled(s: State, a: Step) {
    && a.t < |s.threads|
    && var th := s.threads[a.t];
       match a
       case CallRead(_) => th.Idle?
       case LoadForRead(_) => th.ReadWait?
       case ReadWord(_) => th.Reading? && |th.got| < |s.words|
       case Check(_) => th.Reading? && |th.got| == |s.words| && s.committed != []
       case CallWrite(_, f) => th.Idle? && KeepsSize(f, |s.words|)
       case LoadForWrite(_) => th.WriteWait?
       case CompareAndSwap(_) => th.Entering?
       case CopyWord(_) => th.Copying? && |th.got| < |s.words|
       case Compute(_) => th.Copying? && |th.got| == |s.words|
       case StoreWord(_) => th.Storing? && th.k < |th.next| && th.k < |s.words|
       case Exit(_) => th.Storing? && th.k == |s.words|
  }

  function Set(s: State, t: nat, th: Thread): State
    requires t < |s.threads|
  {
    s.(threads := s.threads[t := th])
  }

  ghost function Do(s: State, a: Step): State
    requires Enabled(s, a)
  {
    var th := s.threads[a.t];
    match a
    case CallRead(t) => Set(s, t, ReadWait)
    case LoadForRead(t) => if s.count % 2 == 0 then Set(s, t, Reading(s.count, [])) else s
    case ReadWord(t) => Set(s, t, Reading(th.count, th.got + [s.words[|th.got|]]))
    case Check(t) =>
      if th.count % 2 != 0 then Set(s, t, Panicked)
      else if th.count != s.count then Set(s, t, ReadWait)
      else Set(s, t, Idle).(returned := s.returned + [Return(|s.committed| - 1, th.got)])
    case CallWrite(t, f) => Set(s, t, WriteWait(f))
    case LoadForWrite(t) => if s.count % 2 == 0 then Set(s, t, Entering(th.f, s.count)) else s
    case CompareAndSwap(t) =>
      if th.count != s.count then Set(s, t, WriteWait(th.f))
      else Set(s, t, Copying(th.f, th.count, [])).(count := s.count + 1, writer := Some(t), entered := s.entered + [th.f])
    case CopyWord(t) => Set(s, t, Copying(th.f, th.count, th.got + [s.words[|th.got|]]))
    case Compute(t) => Set(s, t, Storing(th.f, th.count, th.f(th.got), 0))
    case StoreWord(t) => Set(s, t, th.(k := th.k + 1)).(words := s.words[th.k := th.next[th.k]])
    case Exit(t) =>
      var s1 := s.(count := s.count + 1, writer := None, committed := s.committed + [s.words]);
      if s.count % 2 != 1 || th.count + 1 != s.count then Set(s1, t, Panicked) else Set(s1, t, Idle)
  }

  // ---------------------------------------------------------------- invariant

  function Current(s: State): Value
    requires s.committed != []
  {
    s.committed[|s.committed| - 1]
  }

  /** The counter is twice the completed writes, plus one while a writer is inside. */
  ghost predicate Counted(s: State) {
    && s.committed != []
    && s.count == 2 * (|s.committed| - 1) + (if s.writer.Some? then 1 else 0)
    && |s.entered| == |s.committed| - 1 + (if s.writer.Some? then 1 else 0)
    && (forall i :: 0 <= i < |s.committed| ==> |s.committed[i]| == |s.words|)
    && (forall i :: 0 <= i < |s.entered| ==> KeepsSize(s.entered[i], |s.words|))
    && (forall i :: 0 < i < |s.committed| ==> s.committed[i] == s.entered[i - 1](s.committed[i - 1]))
    && (s.writer.None? ==> s.words == Current(s))
    && (s.writer.Some? ==> s.writer.value < |s.threads|
                           && (s.threads[s.writer.value].Copying? || s.threads[s.writer.value].Storing?))
  }

  ghost predicate ThreadOk(s: State, t: nat)
    requires t < |s.threads| && s.committed != []
  {
    match s.threads[t]
    case Idle => true
    case Panicked => false
    case ReadWait => true
    case Reading(count, got) =>
      && count % 2 == 0 && count <= s.count && |got| <= |s.words|
      && (count == s.count ==> got == s.words[..|got|])
    case WriteWait(f) => KeepsSize(f, |s.words|)
    case Entering(f, count) => KeepsSize(f, |s.words|) && count % 2 == 0
    case Copying(f, count, got) =>
      && s.writer == Some(t) && s.count == count + 1 && s.entered != [] && s.entered[|s.entered| - 1] == f
      && s.words == Current(s) && |got| <= |s.words| && got == s.words[..|got|]
    case Storing(f, count, next, k) =>
      && s.writer == Some(t) && s.count == count + 1 && s.entered != [] && s.entered[|s.entered| - 1] == f
      && next == f(Current(s)) && k <= |next| == |s.words| == |Current(s)|
      && s.words == next[..k] + Current(s)[k..]
  }

  ghost predicate Returned(s: State) {
    && (forall i :: 0 <= i < |s.returned| ==>
          var r := s.returned[i];
          r.version < |s.committed| && r.value == s.committed[r.version])
    && (forall i, j :: 0 <= i < j < |s.returned| ==> s.returned[i].version <= s.returned[j].version)
  }

  ghost predicate Good(s: State) {
    && Counted(s) && Returned(s)
    && forall t :: 0 <= t < |s.threads| ==> ThreadOk(s, t)
  }

  predicate Writes(a: Step) {
    a.CompareAndSwap? || a.CopyWord? || a.Compute? || a.StoreWord? || a.Exit?
  }

  lemma ExitKeepsCounted(s: State, a: Step)
    requires Counted(s) && Enabled(s, a) && ThreadOk(s, a.t) && (a.Exit? || a.CompareAndSwap?)
    ensures Counted(Do(s, a))
  {}

  lemma CopyKeepsCounted(s: State, a: Step)
    requires Counted(s) && Enabled(s, a) && ThreadOk(s, a.t) && (a.CopyWord? || a.Compute? || a.StoreWord?)
    ensures Counted(Do(s, a))
  {}

  lemma WriterKeepsCounted(s: State, a: Step)
    requires Good(s) && Enabled(s, a) && Writes(a)
    ensures Counted(Do(s, a))
  {
    assert ThreadOk(s, a.t);
    if a.Exit? || a.CompareAndSwap? { ExitKeepsCounted(s, a); } else { CopyKeepsCounted(s, a); }
  }

  lemma ReaderKeepsCounted(s: State, a: Step)
    requires Good(s) && Enabled(s, a) && !Writes(a)
    ensures Counted(Do(s, a))
  {}

  lemma StepKeepsReturned(s: State, a: Step)
    requires Good(s) && Enabled(s, a)
    ensures Returned(Do(s, a))
  {
    assert ThreadOk(s, a.t);
  }

  /** Whatever thread a.t does, another thread's view stays sound. */
  lemma StepSparesOthers(s: State, a: Step, t: nat)
    requires Good(s) && Enabled(s, a) && t < |s.threads| && t != a.t
    ensures Do(s, a).committed != [] && ThreadOk(Do(s, a), t)
  {
    assert ThreadOk(s, a.t) && ThreadOk(s, t);
    if a.Exit? || a.StoreWord? { StoreSparesOthers(s, a, t); } else { CountSparesOthers(s, a, t); }
  }

  lemma StoreSparesOthers(s: State, a: Step, t: nat)
    requires Counted(s) && Enabled(s, a) && t < |s.threads| && t != a.t && ThreadOk(s, a.t) && ThreadOk(s, t)
    requires a.Exit? || a.StoreWord?
    ensures Do(s, a).committed != [] && ThreadOk(Do(s, a), t)
  {}

  lemma CountSparesOthers(s: State, a: Step, t: nat)
    requires Counted(s) && Enabled(s, a) && t < |s.threads| && t != a.t && ThreadOk(s, a.t) && ThreadOk(s, t)
    requires !a.Exit? && !a.StoreWord?
    ensures Do(s, a).committed != [] && ThreadOk(Do(s, a), t)
  {}

  lemma WriterKeepsSelf(s: State, a: Step)
    requires Counted(s) && Enabled(s, a) && Writes(a) && ThreadOk(s, a.t)
    ensures Do(s, a).committed != [] && ThreadOk(Do(s, a), a.t)
  {
    assert s.words[..|s.words|] == s.words;
  }

  lemma ReaderKeepsSelf(s: State, a: Step)
    requires Good(s) && Enabled(s, a) && !Writes(a)
    ensures Do(s, a).committed != [] && ThreadOk(Do(s, a), a.t)
  {
    assert ThreadOk(s, a.t);
  }

  lemma StepGood(s: State, a: Step)
    requires Good(s) && Enabled(s, a)
    ensures Good(Do(s, a))
  {
    if Writes(a) { WriterKeepsCounted(s, a); } else { ReaderKeepsCounted(s, a); }
    StepKeepsReturned(s, a);
    forall t | 0 <= t < |s.threads| ensures ThreadOk(Do(s, a), t) {
      if t != a.t { StepSparesOthers(s, a, t); }
      else if Writes(a) { WriterKeepsSelf(s, a); }
      else { ReaderKeepsSelf(s, a); }
    }
  }

  // ---------------------------------------------------------------- main results

  ghost predicate IsRun(run: seq<State>, acts: seq<Step>) {
    && |run| == |acts| + 1
    && Init(run[0])
    && forall i :: 0 <= i < |acts| ==> Enabled(run[i], acts[i]) && run[i + 1] == Do(run[i], acts[i])
  }

  lemma {:induction false} RunGood(run: seq<State>, acts: seq<Step>, i: nat)
    requires IsRun(run, acts) && i < |run|
    ensures Good(run[i])
  {
    if i > 0 {
      RunGood(run, acts, i - 1);
      StepGood(run[i - 1], acts[i - 1]);
    }
  }

  /** The value obtained by applying the first k write functions in order. */
  ghost function Fold(init: Value, fs: seq<WriteFn>): Value {
    if fs == [] then init else fs[|fs| - 1](Fold(init, fs[..|fs| - 1]))
  }

  lemma {:induction false} CommittedIsFold(s: State, k: nat)
    requires Counted(s) && k < |s.committed|
    ensures s.committed[k] == Fold(s.committed[0], s.entered[..k])
  {
    if k > 0 {
      CommittedIsFold(s, k - 1);
      assert s.entered[..k][..k - 1] == s.entered[..k - 1];
    }
  }

  /**
   Writes: at any instant the committed values are the folds of the write functions in
   compare-and-swap order, at most one writer is inside, the counter counts, and no assertion fails.
   */
  lemma WritesAreSerial(run: seq<State>, acts: seq<Step>, i: nat)
    requires IsRun(run, acts) && i < |run|
    ensures var s := run[i];
      && s.committed != [] && |s.committed| <= |s.entered| + 1
      && (forall k :: 0 <= k < |s.committed| ==> s.committed[k] == Fold(s.committed[0], s.entered[..k]))
      && (forall t, u :: 0 <= t < u < |s.threads| ==> !(Inside(s.threads[t]) && Inside(s.threads[u])))
      && s.count == 2 * (|s.committed| - 1) + (if exists t :: 0 <= t < |s.threads| && Inside(s.threads[t]) then 1 else 0)
      && (forall t :: 0 <= t < |s.threads| ==> !s.threads[t].Panicked?)
  {
    RunGood(run, acts, i);
    var s := run[i];
    forall k | 0 <= k < |s.committed| ensures s.committed[k] == Fold(s.committed[0], s.entered[..k]) {
      CommittedIsFold(s, k);
    }
    forall t | 0 <= t < |s.threads| ensures !s.threads[t].Panicked? && (Inside(s.threads[t]) ==> s.writer == Some(t)) {
      assert ThreadOk(s, t);
    }
  }

  /** The thread is in a `write` of f. */
  ghost predicate InWrite(th: Thread, f: WriteFn) {
    (th.WriteWait? || th.Entering? || th.Copying? || th.Storing?) && th.f == f
  }

  lemma InWriteStays(s: State, a: Step, t: nat, f: WriteFn)
    requires Enabled(s, a) && t < |s.threads| && InWrite(s.threads[t], f)
    ensures t < |Do(s, a).threads| && var th := Do(s, a).threads[t]; InWrite(th, f) || th.Idle? || th.Panicked?
  {}

  /**
   A `write` of f, called at step j and leaving at step i, replaces the value current when it leaves by f of
   that value, once; the counter becomes even again.
   */
  lemma WritesTakeEffect(run: seq<State>, acts: seq<Step>, j: nat, i: nat, t: nat, f: WriteFn)
    requires IsRun(run, acts) && j < i < |acts| && acts[j] == CallWrite(t, f) && acts[i] == Exit(t)
    requires forall k :: j < k <= i ==> t < |run[k].threads| && !run[k].threads[t].Idle?
    ensures run[i].committed != [] && run[i + 1].committed == run[i].committed + [f(Current(run[i]))]
    ensures run[i + 1].words == f(Current(run[i])) && run[i + 1].count == run[i].count + 1 && run[i + 1].count % 2 == 0
    ensures t < |run[i + 1].threads| && run[i + 1].threads[t] == Idle
  {
    for k := j + 1 to i
      invariant t < |run[k].threads| && InWrite(run[k].threads[t], f)
    {
      InWriteStays(run[k], acts[k], t, f);
      RunGood(run, acts, k + 1);
      assert ThreadOk(run[k + 1], t);
    }
    RunGood(run, acts, i);
    ExitCommits(run[i], t, f);
  }

  lemma ExitCommits(s: State, t: nat, f: WriteFn)
    requires Good(s) && Enabled(s, Exit(t)) && InWrite(s.threads[t], f)
    ensures var s' := Do(s, Exit(t));
      && s'.committed == s.committed + [f(Current(s))] && s'.words == f(Current(s)) && s'.count == s.count + 1
      && s'.count % 2 == 0 && s'.threads[t] == Idle
  {
    assert ThreadOk(s, t);
    var th := s.threads[t];
    assert s.words == th.next[..|th.next|] + Current(s)[|th.next|..] == th.next;
  }

  predicate Inside(th: Thread) { th.Copying? || th.Storing? }

  lemma {:induction false} CommittedGrows(run: seq<State>, acts: seq<Step>, j: nat, i: nat)
    requires IsRun(run, acts) && j <= i < |run|
    ensures |run[j].committed| <= |run[i].committed| && run[j].committed == run[i].committed[..|run[j].committed|]
  {
    if j < i { CommittedGrows(run, acts, j, i - 1); }
  }

  /**
   Reads: a `read` that returns at step i gives `read_fn` the whole value that is current at that very
   instant, which is no older than the value current at any earlier instant j, such as that of the call.
   */
  lemma ReadsAreLinearizable(run: seq<State>, acts: seq<Step>, j: nat, i: nat)
    requires IsRun(run, acts) && j <= i < |acts| && acts[i].Check?
    requires |run[i + 1].returned| > |run[i].returned|
    ensures run[i].committed != [] && run[i].threads[acts[i].t].Reading?
    ensures var th, r := run[i].threads[acts[i].t], run[i + 1].returned[|run[i].returned|];
      && run[i + 1].returned == run[i].returned + [r]
      && r.value == th.got == Current(run[i]) == run[i].words
      && |run[j].committed| <= r.version + 1 == |run[i].committed|
  {
    CommittedGrows(run, acts, j, i);
    RunGood(run, acts, i);
    var s := run[i];
    assert ThreadOk(s, acts[i].t);
    assert s.words[..|s.words|] == s.words;
  }

  /** Over a whole run, every returned value is a committed one and versions never go back. */
  lemma ReturnsAreOrdered(run: seq<State>, acts: seq<Step>, i: nat)
    requires IsRun(run, acts) && i < |run|
    ensures Returned(run[i])
  {
    RunGood(run, acts, i);
  }

  /**
   The argument of `read_fn` may be torn (the check comes after it is called), so `read_fn` must cope
   with words that never belonged together; such a value is never returned.
   */
  lemma ReadFnMaySeeTornWords() returns (run: seq<State>, acts: seq<Step>)
    ensures IsRun(run, acts)
    ensures var s := run[|acts|];
      && |s.threads| > 0 && s.threads[0].Reading? && |s.threads[0].got| == |s.words|
      && s.threads[0].got !in s.committed && s.threads[0].count != s.count
  {
    var f: WriteFn := v => if |v| == 2 then [1, 1] else v;
    run, acts := WriterReady(f);
    run, acts := Extend(run, acts, StoreWord(1));
    run, acts := Extend(run, acts, StoreWord(1));
    run, acts := Extend(run, acts, ReadWord(0));
    assert run[|acts|].threads[0].got == [0, 1];
  }

  lemma WriterReady(f: WriteFn) returns (run: seq<State>, acts: seq<Step>)
    requires KeepsSize(f, 2) && f([0, 0]) == [1, 1]
    ensures IsRun(run, acts)
    ensures run[|acts|] == State(1, [0, 0], [Reading(0, [0]), Storing(f, 0, [1, 1], 0)], Some(1), [[0, 0]], [f], [])
  {
    run, acts := OvertakenReader(f);
    run, acts := Extend(run, acts, CopyWord(1));
    run, acts := Extend(run, acts, CopyWord(1));
    assert run[|acts|].threads[1].got == [0, 0];
    run, acts := Extend(run, acts, Compute(1));
    assert run[|acts|].threads == [Reading(0, [0]), Storing(f, 0, [1, 1], 0)];
  }

  /** A reader has copied the first of two words when a writer enters. */
  lemma OvertakenReader(f: WriteFn) returns (run: seq<State>, acts: seq<Step>)
    requires KeepsSize(f, 2)
    ensures IsRun(run, acts)
    ensures run[|acts|] == State(1, [0, 0], [Reading(0, [0]), Copying(f, 0, [])], Some(1), [[0, 0]], [f], [])
  {
    run, acts := HalfRead();
    run, acts := Extend(run, acts, CallWrite(1, f));
    run, acts := Extend(run, acts, LoadForWrite(1));
    run, acts := Extend(run, acts, CompareAndSwap(1));
    var s := run[|acts|];
    assert s.threads[0].got == [0] && s.threads[1].got == [];
    assert s.threads == [Reading(0, [0]), Copying(f, 0, [])];
  }

  lemma HalfRead() returns (run: seq<State>, acts: seq<Step>)
    ensures IsRun(run, acts)
    ensures run[|acts|] == State(0, [0, 0], [Reading(0, [0]), Idle], None, [[0, 0]], [], [])
  {
    run, acts := [State(0, [0, 0], [Idle, Idle], None, [[0, 0]], [], [])], [];
    run, acts := Extend(run, acts, CallRead(0));
    run, acts := Extend(run, acts, LoadForRead(0));
    run, acts := Extend(run, acts, ReadWord(0));
    assert run[|acts|].threads[0].got == [0];
    assert run[|acts|].threads == [Reading(0, [0]), Idle];
  }

  lemma Extend(run: seq<State>, acts: seq<Step>, a: Step) returns (run': seq<State>, acts': seq<Step>)
    requires IsRun(run, acts) && Enabled(run[|acts|], a)
    ensures IsRun(run', acts') && |acts'| == |acts| + 1 && run'[|acts'|] == Do(run[|acts|], a)
  {
    run', acts' := run + [Do(run[|acts|], a)], acts + [a];
  }
}
