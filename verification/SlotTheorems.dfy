/**
 What every interleaving of senders and drainer guarantees: `insert` never runs out of slots,
 every accepted message is handed over exactly once, and a drain pass misses nothing.
 */
module SlotTheorems {
  import opened Basics
  import opened SlotMachine

  // ---------------------------------------------------------------- crowding

  /** How far along the slots the message in buffer b is: its scan position or the slot it occupies. */
  function Position(s: State, b: nat): int
    requires b < |s.bufs|
  {
    match s.bufs[b].owner
    case BySender(t) =>
      if t >= |s.senders| then -1
      else (match s.senders[t]
            case Scanning(k, _) => k
            case Filling(k, _) => k
            case Publishing(k, _) => k
            case Refused(_) => |s.slots|
            case _ => -1)
    case InSlot(k) => k
    case ByDrainer => if s.drainer.Unmarking? || s.drainer.Releasing? then s.drainer.k else -1
    case _ => -1
  }

  ghost function Crowd(s: State, m: nat): set<nat> {
    set b | 0 <= b < |s.bufs| && Position(s, b) >= m
  }

  /** At most n - m messages are at slot m or beyond. */
  ghost predicate Uncrowded(s: State) {
    forall m :: 0 <= m <= |s.slots| ==> |Crowd(s, m)| <= |s.slots| - m
  }

  lemma SubsetSize<T>(a: set<T>, b: set<T>)
    requires a <= b
    ensures |a| <= |b|
  {
    assert b == a + (b - a);
  }

  lemma RangeSize(a: set<nat>, n: nat)
    requires forall x :: x in a ==> x < n
    ensures |a| <= n
  {
    if n == 0 {
      assert a == {};
    } else {
      RangeSize(a - {n - 1}, n - 1);
      if n - 1 in a { assert a == (a - {n - 1}) + {n - 1}; } else { assert a - {n - 1} == a; }
    }
  }

  /** The one kind of step that moves a message forward: a sender finds a slot busy. */
  predicate Miss(s: State, a: Step)
    requires Enabled(s, a)
  {
    a.TrySlot? && s.senders[a.t].k < |s.slots| && s.slots[s.senders[a.t].k].busy
  }

  predicate ByDrainerStep(a: Step) {
    a.BeginPass? || a.Look? || a.Take? || a.Unmark? || a.Release? || a.Sent? || a.Pop? || a.PopSent?
  }

  lemma DrainerHoldsBack(s: State, a: Step, b: nat)
    requires Places(s) && Enabled(s, a) && b < |s.bufs| && ByDrainerStep(a)
    ensures b < |Do(s, a).bufs| && Position(Do(s, a), b) <= Position(s, b)
  {
    assert Accounted(s, b);
    if a.Take? {
      assert Occupied(s, s.drainer.k) && Accounted(s, s.slots[s.drainer.k].occupant.value);
    }
  }

  lemma SlotUserHoldsBack(s: State, a: Step, b: nat)
    requires Places(s) && Enabled(s, a) && b < |s.bufs|
    requires (a.TrySlot? && !Miss(s, a)) || a.Fill? || a.Publish?
    ensures b < |Do(s, a).bufs| && Position(Do(s, a), b) <= Position(s, b)
  {
    assert Accounted(s, b);
  }

  lemma PoolUserHoldsBack(s: State, a: Step, b: nat)
    requires Places(s) && Enabled(s, a) && b < |s.bufs|
    requires a.Start? || a.TryBuffer? || a.PushQueue?
    ensures b < |Do(s, a).bufs| && Position(Do(s, a), b) <= Position(s, b)
  {
    assert Accounted(s, b);
  }

  lemma CrowdKept(s: State, s': State, m: nat)
    requires |s'.bufs| == |s.bufs|
    requires forall b :: 0 <= b < |s.bufs| && Position(s', b) >= m ==> Position(s, b) >= m
    ensures |Crowd(s', m)| <= |Crowd(s, m)|
  {
    SubsetSize(Crowd(s', m), Crowd(s, m));
  }

  lemma PairMovesOne(s: State, s': State, k: nat, b: nat, h: nat)
    requires |s'.bufs| == |s.bufs| && b < |s.bufs| && h < |s.bufs| && b != h
    requires Position(s, b) == k && Position(s, h) == k && Position(s', b) == k + 1
    requires forall b' :: 0 <= b' < |s.bufs| && b' != b ==> Position(s', b') == Position(s, b')
    ensures |Crowd(s', k + 1)| <= |Crowd(s, k)| - 1
  {
    assert Crowd(s', k + 1) == Crowd(s, k + 1) + {b};
    SubsetSize(Crowd(s, k + 1) + {b} + {h}, Crowd(s, k));
  }

  /** A missed slot k is occupied by another message, so both count at k and only one moves on. */
  lemma MissKeepsUncrowded(s: State, a: Step)
    requires Places(s) && Uncrowded(s) && Enabled(s, a) && Miss(s, a)
    ensures Uncrowded(Do(s, a))
  {
    var s', k, b := Do(s, a), s.senders[a.t].k, s.senders[a.t].item.buf;
    assert Occupied(s, k);
    var h := s.slots[k].occupant.value;
    forall b' | 0 <= b' < |s.bufs| && b' != b ensures Position(s', b') == Position(s, b') {
      assert Accounted(s, b');
    }
    forall m | 0 <= m <= |s.slots| ensures |Crowd(s', m)| <= |s.slots| - m {
      if m == k + 1 {
        PairMovesOne(s, s', k, b, h);
      } else {
        CrowdKept(s, s', m);
      }
    }
  }

  /** The bound of n buffers pays for every new scan at slot 0. */
  lemma BeginKeepsUncrowded(s: State, a: Step)
    requires Places(s) && Uncrowded(s) && Enabled(s, a) && a.BeginInsert?
    ensures Uncrowded(Do(s, a))
  {
    var s', b := Do(s, a), s.senders[a.t].buf;
    forall b' | 0 <= b' < |s.bufs| && b' != b ensures Position(s', b') == Position(s, b') {
      assert Accounted(s, b');
    }
    forall m | 0 <= m <= |s.slots| ensures |Crowd(s', m)| <= |s.slots| - m {
      if m == 0 { RangeSize(Crowd(s', 0), |s.bufs|); } else { CrowdKept(s, s', m); }
    }
  }

  /** Apart from a miss and the start of an insertion, no buffer moves on. */
  lemma HoldsBack(s: State, a: Step, b: nat)
    requires Places(s) && Enabled(s, a) && b < |s.bufs| && !Miss(s, a) && !a.BeginInsert?
    ensures b < |Do(s, a).bufs| && Position(Do(s, a), b) <= Position(s, b)
  {
    if ByDrainerStep(a) { DrainerHoldsBack(s, a, b); }
    else if a.TrySlot? || a.Fill? || a.Publish? { SlotUserHoldsBack(s, a, b); }
    else { PoolUserHoldsBack(s, a, b); }
  }

  lemma StepKeepsUncrowded(s: State, a: Step)
    requires Places(s) && Uncrowded(s) && Enabled(s, a)
    ensures Uncrowded(Do(s, a))
  {
    if Miss(s, a) {
      MissKeepsUncrowded(s, a);
    } else if a.BeginInsert? {
      BeginKeepsUncrowded(s, a);
    } else {
      var s' := Do(s, a);
      forall b | 0 <= b < |s.bufs| ensures Position(s', b) <= Position(s, b) { HoldsBack(s, a, b); }
      forall m | 0 <= m <= |s.slots| ensures |Crowd(s', m)| <= |s.slots| - m {
        CrowdKept(s, s', m);
      }
    }
  }

  // ---------------------------------------------------------------- conservation

  /** How many buffers hold message m. */
  function Copies(bufs: seq<Buffer>, m: OutputMsg): nat {
    if bufs == [] then 0
    else Copies(bufs[1..], m) + if bufs[0].content == Some(m) then 1 else 0
  }

  lemma {:induction false} CopiesUpdate(bufs: seq<Buffer>, b: nat, buffer: Buffer, m: OutputMsg)
    requires b < |bufs|
    ensures Copies(bufs[b := buffer], m) + (if bufs[b].content == Some(m) then 1 else 0)
         == Copies(bufs, m) + (if buffer.content == Some(m) then 1 else 0)
  {
    if b > 0 {
      CopiesUpdate(bufs[1..], b - 1, buffer, m);
      assert bufs[b := buffer][1..] == bufs[1..][b - 1 := buffer];
    } else {
      assert bufs[b := buffer][1..] == bufs[1..];
    }
  }

  lemma {:induction false} CopiesEmpty(bufs: seq<Buffer>, m: OutputMsg)
    requires forall b :: 0 <= b < |bufs| ==> bufs[b] == FREE_BUFFER
    ensures Copies(bufs, m) == 0
  {
    if bufs != [] { CopiesEmpty(bufs[1..], m); }
  }

  /** Accepted messages are those handed over plus those that still live in some buffer. */
  ghost predicate Conserved(s: State, m: OutputMsg) {
    s.accepted[m] == s.drained[m] + Copies(s.bufs, m)
  }

  /** How often m is the content of a buffer: 0 or 1. */
  function Has(buffer: Buffer, m: OutputMsg): nat { if buffer.content == Some(m) then 1 else 0 }

  /** One buffer changes its content, and the counts of accepted and drained messages follow. */
  lemma ConservesUpdate(s: State, s': State, b: nat, m: OutputMsg)
    requires Conserved(s, m) && b < |s.bufs| && |s'.bufs| == |s.bufs| && s'.bufs == s.bufs[b := s'.bufs[b]]
    requires s'.accepted[m] + s.drained[m] + Has(s.bufs[b], m) == s.accepted[m] + s'.drained[m] + Has(s'.bufs[b], m)
    ensures Conserved(s', m)
  {
    CopiesUpdate(s.bufs, b, s'.bufs[b], m);
  }

  /** A message enters: the buffer was empty. */
  lemma AcceptConserves(s: State, a: Step, m: OutputMsg)
    requires Enabled(s, a) && Owned(s) && Conserved(s, m) && (a.BeginInsert? || a.PushQueue?)
    ensures Conserved(Do(s, a), m)
  {
    ConservesUpdate(s, Do(s, a), s.senders[a.t].buf, m);
  }

  /** A message leaves: its buffer is freed. */
  lemma FreeConserves(s: State, a: Step, m: OutputMsg)
    requires Enabled(s, a) && Owned(s) && Conserved(s, m) && (a.Sent? || a.PopSent?)
    ensures Conserved(Do(s, a), m)
  {
    ConservesUpdate(s, Do(s, a), s.drainer.item.buf, m);
  }

  /** The step changes at most the owner of buffer b. */
  lemma SameContents(s: State, s': State, b: nat, m: OutputMsg)
    requires Conserved(s, m) && s'.accepted == s.accepted && s'.drained == s.drained
    requires b < |s.bufs| && |s'.bufs| == |s.bufs| && s'.bufs == s.bufs[b := s'.bufs[b]] && s'.bufs[b].content == s.bufs[b].content
    ensures Conserved(s', m)
  {
    ConservesUpdate(s, s', b, m);
  }

  lemma MoveConserves(s: State, a: Step, m: OutputMsg)
    requires Enabled(s, a) && Owned(s) && Conserved(s, m) && (a.TryBuffer? || a.Publish? || a.Take? || a.Pop?)
    ensures Conserved(Do(s, a), m)
  {
    match a
    case TryBuffer(t) => if s.senders[t].k < |s.bufs| { SameContents(s, Do(s, a), s.senders[t].k, m); }
    case Publish(t) => SameContents(s, Do(s, a), s.senders[t].item.buf, m);
    case Take => if s.slots[s.drainer.k].cell.Some? { SameContents(s, Do(s, a), s.slots[s.drainer.k].cell.value.buf, m); }
    case Pop => SameContents(s, Do(s, a), s.queue[0].buf, m);
  }

  lemma StepConserves(s: State, a: Step, m: OutputMsg)
    requires Enabled(s, a) && Owned(s) && Conserved(s, m)
    ensures Conserved(Do(s, a), m)
  {
    if a.BeginInsert? || a.PushQueue? { AcceptConserves(s, a, m); }
    else if a.Sent? || a.PopSent? { FreeConserves(s, a, m); }
    else if a.TryBuffer? || a.Publish? || a.Take? || a.Pop? { MoveConserves(s, a, m); }
  }

  // ---------------------------------------------------------------- drain pass

  /** Messages valid at the start of the pass and not reached yet are still in place. */
  ghost predicate Ahead(s: State, from: nat) {
    && |s.snapshot| == |s.slots|
    && forall i :: from <= i < |s.slots| && s.snapshot[i].Some? ==>
         s.slots[i].valid && s.slots[i].cell == s.snapshot[i]
  }

  /** Messages valid at the start of the pass in the first slots were handed over. */
  ghost predicate Behind(s: State, upto: nat) {
    forall i :: 0 <= i < upto && i < |s.snapshot| && s.snapshot[i].Some? ==>
      i in s.pass && s.pass[i] == s.snapshot[i].value
  }

  ghost predicate Thorough(s: State) {
    var d := s.drainer;
    match d
    case Resting => true
    case Popped(_) => true
    case Looking(k) => Behind(s, k) && Ahead(s, k)
    case Taking(k) => Behind(s, k) && Ahead(s, k)
    case Unmarking(k, taken) =>
      Behind(s, k) && Ahead(s, k + 1) && k < |s.snapshot| && (s.snapshot[k].Some? ==> taken == s.snapshot[k])
    case Releasing(k, taken) =>
      Behind(s, k) && Ahead(s, k + 1) && k < |s.snapshot| && (s.snapshot[k].Some? ==> taken == s.snapshot[k])
    case Sending(k, item) =>
      Behind(s, k) && Ahead(s, k + 1) && k < |s.snapshot| && (s.snapshot[k].Some? ==> s.snapshot[k] == Some(item))
  }

  /** Senders leave the drainer and every valid slot alone. */
  lemma SenderSparesValid(s: State, a: Step)
    requires Places(s) && Enabled(s, a) && !ByDrainerStep(a)
    ensures var s' := Do(s, a);
      && s'.drainer == s.drainer && s'.snapshot == s.snapshot && s'.pass == s.pass && |s'.slots| == |s.slots|
      && forall i :: 0 <= i < |s.slots| && s.slots[i].valid ==> s'.slots[i] == s.slots[i]
  {
    if a.Fill? || a.Publish? || (a.TrySlot? && s.senders[a.t].k < |s.slots|) {
      assert Occupied(s, s.senders[a.t].k);
    }
  }

  lemma SenderKeepsThorough(s: State, s': State)
    requires Thorough(s)
    requires s'.drainer == s.drainer && s'.snapshot == s.snapshot && s'.pass == s.pass && |s'.slots| == |s.slots|
    requires forall i :: 0 <= i < |s.slots| && s.slots[i].valid ==> s'.slots[i] == s.slots[i]
    ensures Thorough(s')
  {}

  lemma LookKeepsThorough(s: State, a: Step)
    requires Shape(s) && Enabled(s, a) && Thorough(s) && (a.BeginPass? || a.Look? || a.Take?)
    requires forall k :: 0 <= k < |s.slots| && s.slots[k].valid ==> s.slots[k].cell.Some?
    ensures Thorough(Do(s, a))
  {}

  lemma LeaveKeepsThorough(s: State, a: Step)
    requires Shape(s) && Enabled(s, a) && Thorough(s) && (a.Unmark? || a.Release? || a.Sent? || a.Pop? || a.PopSent?)
    requires s.drainer.Releasing? ==> s.drainer.taken.Some?
    ensures Thorough(Do(s, a))
  {}

  lemma DrainerKeepsThorough(s: State, a: Step)
    requires Places(s) && Enabled(s, a) && Thorough(s) && ByDrainerStep(a)
    ensures Thorough(Do(s, a))
  {
    if a.BeginPass? || a.Look? || a.Take? {
      forall k | 0 <= k < |s.slots| && s.slots[k].valid ensures s.slots[k].cell.Some? { ValidHasCell(s, k); }
      LookKeepsThorough(s, a);
    } else {
      LeaveKeepsThorough(s, a);
    }
  }

  lemma ValidHasCell(s: State, k: nat)
    requires Places(s) && k < |s.slots| && s.slots[k].valid && !s.drainer.Unmarking?
    ensures s.slots[k].cell.Some?
  {
    assert Occupied(s, k);
    var b := s.slots[k].occupant.value;
    assert Accounted(s, b);
  }

  // ---------------------------------------------------------------- runs

  ghost predicate Good(s: State) {
    Places(s) && Uncrowded(s) && Thorough(s) && forall m :: Conserved(s, m)
  }

  /** A run of any length: consecutive states joined by enabled atomic steps. */
  ghost predicate IsRun(run: seq<State>, acts: seq<Step>, n: nat) {
    && |run| == |acts| + 1
    && Init(run[0], n)
    && forall i :: 0 <= i < |acts| ==> Enabled(run[i], acts[i]) && run[i + 1] == Do(run[i], acts[i])
  }

  lemma InitGood(s: State, n: nat)
    requires Init(s, n)
    ensures Good(s)
  {
    InitPlaces(s, n);
    forall m ensures Conserved(s, m) { CopiesEmpty(s.bufs, m); }
    forall m | 0 <= m <= |s.slots| ensures |Crowd(s, m)| <= |s.slots| - m {
      assert Crowd(s, m) == {};
    }
  }

  lemma StepGood(s: State, a: Step)
    requires Good(s) && Enabled(s, a)
    ensures Good(Do(s, a)) && |Do(s, a).slots| == |s.slots|
  {
    StepKeepsPlaces(s, a);
    StepKeepsUncrowded(s, a);
    if ByDrainerStep(a) { DrainerKeepsThorough(s, a); } else { SenderSparesValid(s, a); SenderKeepsThorough(s, Do(s, a)); }
    forall m ensures Conserved(Do(s, a), m) { StepConserves(s, a, m); }
  }

  lemma {:induction false} RunGood(run: seq<State>, acts: seq<Step>, n: nat, i: nat)
    requires IsRun(run, acts, n) && i < |run|
    ensures Good(run[i]) && |run[i].slots| == n
  {
    if i == 0 {
      InitGood(run[0], n);
    } else {
      RunGood(run, acts, n, i - 1);
      StepGood(run[i - 1], acts[i - 1]);
    }
  }

  // ---------------------------------------------------------------- main results

  /** `insert`, called from `send`, never answers NoSlotAvailable: a scan always stops before slot n. */
  lemma InsertAlwaysFindsSlot(run: seq<State>, acts: seq<Step>, n: nat, i: nat, t: nat)
    requires IsRun(run, acts, n) && i < |run| && t < |run[i].senders|
    ensures !run[i].senders[t].Refused?
    ensures run[i].senders[t].Scanning? ==> run[i].senders[t].k < n
  {
    RunGood(run, acts, n, i);
    var s := run[i];
    assert |Crowd(s, n)| <= 0;
    forall b | 0 <= b < n ensures Position(s, b) < n {
      assert b !in Crowd(s, n);
    }
    if SenderBuf(s.senders[t]).Some? { assert Position(s, SenderBuf(s.senders[t]).value) < n; }
  }

  datatype Place = AtSender(t: nat) | AtSlot(k: nat) | AtQueue(i: nat) | AtDrainer

  /** The item is really there: in a local variable, in a published cell or in the queue. */
  ghost predicate Carries(s: State, p: Place, item: Item) {
    match p
    case AtSender(t) =>
      t < |s.senders| && SenderBuf(s.senders[t]) == Some(item.buf) && SenderMsg(s.senders[t]) == Some(item.msg)
    case AtSlot(k) => k < |s.slots| && s.slots[k].valid && s.slots[k].cell == Some(item)
    case AtQueue(i) => i < |s.queue| && s.queue[i] == item
    case AtDrainer => DrainerItem(s.drainer) == Some(item)
  }

  lemma CarrierOwns(s: State, p: Place, item: Item)
    requires Places(s) && Carries(s, p, item)
    ensures item.buf < |s.bufs| && s.bufs[item.buf].content == Some(item.msg)
    ensures s.bufs[item.buf].owner == match p
      case AtSender(t) => BySender(t) case AtSlot(k) => InSlot(k) case AtQueue(_) => InQueue case AtDrainer => ByDrainer
  {
    if p.AtSlot? {
      assert Occupied(s, p.k) && Accounted(s, s.slots[p.k].occupant.value);
    }
  }

  lemma ContentIsCarried(s: State, item: Item)
    requires Places(s) && item.buf < |s.bufs| && s.bufs[item.buf].content == Some(item.msg)
    ensures exists p :: Carries(s, p, item)
  {
    assert Accounted(s, item.buf);
    match s.bufs[item.buf].owner
    case BySender(t) => assert Carries(s, AtSender(t), item);
    case InSlot(k) => assert Carries(s, AtSlot(k), item);
    case ByDrainer => assert Carries(s, AtDrainer, item);
    case InQueue =>
      var i :| 0 <= i < |s.queue| && s.queue[i].buf == item.buf;
      assert Carries(s, AtQueue(i), item);
    case Nobody =>
  }

  /**
   At all times, for every message, accepted = handed over + copies held in buffers; every held copy
   is in some place, and no buffer is in two places or carries two messages.
   */
  lemma HandedOverExactlyOnce(run: seq<State>, acts: seq<Step>, n: nat, i: nat)
    requires IsRun(run, acts, n) && i < |run|
    ensures forall m :: run[i].accepted[m] == run[i].drained[m] + Copies(run[i].bufs, m)
    ensures forall item: Item :: item.buf < |run[i].bufs| && run[i].bufs[item.buf].content == Some(item.msg) ==>
      exists p :: Carries(run[i], p, item)
    ensures forall p, q, x, y :: Carries(run[i], p, x) && Carries(run[i], q, y) && x.buf == y.buf ==> p == q && x == y
  {
    RunGood(run, acts, n, i);
    var s := run[i];
    forall m ensures s.accepted[m] == s.drained[m] + Copies(s.bufs, m) { assert Conserved(s, m); }
    forall item: Item | item.buf < |s.bufs| && s.bufs[item.buf].content == Some(item.msg)
      ensures exists p :: Carries(s, p, item)
    {
      ContentIsCarried(s, item);
    }
    forall p, q, x, y | Carries(s, p, x) && Carries(s, q, y) && x.buf == y.buf ensures p == q && x == y {
      CarrierOwns(s, p, x);
      CarrierOwns(s, q, y);
    }
  }

  predicate OnSlot(l: Sender) { l.Filling? || l.Publishing? }

  /** A slot has one writer at a time, a valid slot is busy, and only its occupant may change it. */
  lemma SlotsHaveOneOwner(run: seq<State>, acts: seq<Step>, n: nat, i: nat)
    requires IsRun(run, acts, n) && i < |run|
    ensures forall k :: 0 <= k < |run[i].slots| && run[i].slots[k].valid ==> run[i].slots[k].busy
    ensures forall t, u :: 0 <= t < u < |run[i].senders| && OnSlot(run[i].senders[t]) && OnSlot(run[i].senders[u]) ==>
      run[i].senders[t].k != run[i].senders[u].k
    ensures forall t :: 0 <= t < |run[i].senders| && run[i].senders[t].Filling? ==>
      run[i].senders[t].k < |run[i].slots| && run[i].slots[run[i].senders[t].k].cell.None?
  {
    RunGood(run, acts, n, i);
    var s := run[i];
    forall k | 0 <= k < |s.slots| && s.slots[k].valid ensures s.slots[k].busy { assert Occupied(s, k); }
    forall t | 0 <= t < |s.senders| && s.senders[t].Filling?
      ensures s.senders[t].k < |s.slots| && s.slots[s.senders[t].k].cell.None?
    {
      assert Occupied(s, s.senders[t].k);
    }
  }

  lemma {:induction false} SnapshotKept(run: seq<State>, acts: seq<Step>, n: nat, j: nat, i: nat)
    requires IsRun(run, acts, n) && j < i < |run| && acts[j].BeginPass?
    requires forall l :: j < l < i ==> !acts[l].BeginPass?
    ensures run[i].snapshot == run[j + 1].snapshot
  {
    if i > j + 1 { SnapshotKept(run, acts, n, j, i - 1); }
  }

  /** A pass that began at step j and reached the end handed over every message valid when it began. */
  lemma PassMissesNothing(run: seq<State>, acts: seq<Step>, n: nat, j: nat, i: nat, k: nat)
    requires IsRun(run, acts, n) && j < i < |run| && acts[j].BeginPass?
    requires forall l :: j < l < i ==> !acts[l].BeginPass?
    requires run[i].drainer == Looking(n)
    requires k < |run[j].slots| && run[j].slots[k].valid
    ensures k in run[i].pass && Some(run[i].pass[k]) == run[j].slots[k].cell
  {
    RunGood(run, acts, n, j);
    RunGood(run, acts, n, i);
    SnapshotKept(run, acts, n, j, i);
    assert Occupied(run[j], k);
    assert Accounted(run[j], run[j].slots[k].occupant.value);
  }

  // ---------------------------------------------------------------- what a pass hands over, in order

  /** What a pass took out of the first k slots, in the order of the slots. */
  function PassItems(pass: map<nat, Item>, k: nat): seq<Item> {
    if k == 0 then [] else PassItems(pass, k - 1) + if k - 1 in pass then [pass[k - 1]] else []
  }

  lemma {:induction false} PassItemsSame(pass: map<nat, Item>, pass': map<nat, Item>, k: nat)
    requires forall i: nat :: i < k ==> (i in pass <==> i in pass') && (i in pass ==> pass[i] == pass'[i])
    ensures PassItems(pass, k) == PassItems(pass', k)
  {
    if k > 0 { PassItemsSame(pass, pass', k - 1); }
  }

  lemma {:induction false} PassItemsUpto(pass: map<nat, Item>, k: nat, n: nat)
    requires k <= n && forall i :: i in pass ==> i < k
    ensures PassItems(pass, n) == PassItems(pass, k)
    decreases n
  {
    if k < n { PassItemsUpto(pass, k, n - 1); }
  }

  lemma PassItemsMore(pass: map<nat, Item>, k: nat, item: Item)
    ensures PassItems(pass[k := item], k + 1) == PassItems(pass, k) + [item]
  {
    PassItemsSame(pass, pass[k := item], k);
  }

  /** One item for each slot of the pass, by increasing slot; `at` are these slots. */
  lemma {:induction false} PassItemsAre(pass: map<nat, Item>, k: nat) returns (at: seq<nat>)
    ensures |at| == |PassItems(pass, k)| && forall i, j :: 0 <= i < j < |at| ==> at[i] < at[j]
    ensures forall j :: 0 <= j < |at| ==> at[j] < k && at[j] in pass && PassItems(pass, k)[j] == pass[at[j]]
    ensures forall i :: i in pass && i < k ==> i in at
  {
    at := [];
    if k > 0 {
      at := PassItemsAre(pass, k - 1);
      if k - 1 in pass { at := at + [k - 1]; }
    }
  }

  /** Queued messages and busy slots together never exceed the number of buffers. */
  lemma QueueAndSlotsFit(run: seq<State>, acts: seq<Step>, n: nat, i: nat)
    requires IsRun(run, acts, n) && i < |run|
    ensures |run[i].queue| + |set k | 0 <= k < |run[i].slots| && run[i].slots[k].busy| <= n
  {
    RunGood(run, acts, n, i);
    var s := run[i];
    var busy := set k | 0 <= k < |s.slots| && s.slots[k].busy;
    var queued := QueuedBuffers(s, |s.queue|);
    var placed := PlacedBuffers(s, busy);
    RangeSize(queued + placed, n);
  }

  lemma QueuedBuffers(s: State, upto: nat) returns (bs: set<nat>)
    requires Places(s) && upto <= |s.queue|
    ensures |bs| == upto
    ensures forall b :: b in bs <==> exists i :: 0 <= i < upto && s.queue[i].buf == b
    ensures forall b :: b in bs ==> b < |s.bufs| && s.bufs[b].owner == InQueue
  {
    bs := {};
    for i := 0 to upto
      invariant |bs| == i
      invariant forall b :: b in bs <==> exists j :: 0 <= j < i && s.queue[j].buf == b
      invariant forall b :: b in bs ==> b < |s.bufs| && s.bufs[b].owner == InQueue
    {
      bs := bs + {s.queue[i].buf};
    }
  }

  lemma PlacedBuffers(s: State, busy: set<nat>) returns (bs: set<nat>)
    requires Places(s) && forall k :: k in busy ==> k < |s.slots| && s.slots[k].busy
    ensures |bs| == |busy|
    ensures forall b :: b in bs ==> b < |s.bufs| && s.bufs[b].owner != InQueue && Position(s, b) in busy
    decreases |busy|
  {
    if busy == {} {
      bs := {};
    } else {
      var k :| k in busy;
      var rest := PlacedBuffers(s, busy - {k});
      assert Occupied(s, k);
      bs := rest + {s.slots[k].occupant.value};
    }
  }
}
