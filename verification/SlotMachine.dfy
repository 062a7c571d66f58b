/**
 The output side of a client: the buffer pool, the lock-free set of outgoing messages and the
 overrun queue, as one machine whose steps are the atomic accesses of
 `BufferPool::allocate_buffer`, `OutputMsgSet::insert`, `OutputMsgSet::take_slot` and of the drop
 of a buffer.  Any number of senders interleave with the single drainer, one access at a time.
 */
module SlotMachine {
  import opened Basics

  /** A message together with the index of the pool buffer it keeps alive. */
  datatype Item = Item(msg: OutputMsg, buf: nat)

  /** Where a sender stands: before, between and after the atomic accesses of `send`. */
  datatype Sender =
    | Idle
    | Allocating(k: nat)              // about to swap `buffer_busy[k]`
    | Holding(buf: nat)               // owns a buffer, message not yet built
    | Scanning(k: nat, item: Item)    // about to swap `slot_busy[k]`
    | Filling(k: nat, item: Item)     // won slot k, about to replace its cell
    | Publishing(k: nat, item: Item)  // cell written, about to store `slot_valid[k]`
    | Refused(item: Item)             // `insert` ran out of slots: NoSlotAvailable

  /** Where the deadline handler stands in its pass over the slots and the queue. */
  datatype Drainer =
    | Resting
    | Looking(k: nat)                         // about to load `slot_valid[k]`
    | Taking(k: nat)                          // slot k is valid, about to empty its cell
    | Unmarking(k: nat, taken: Option<Item>)  // about to clear `slot_valid[k]`
    | Releasing(k: nat, taken: Option<Item>)  // about to clear `slot_busy[k]`
    | Sending(k: nat, item: Item)             // `next` returned the message
    | Popped(item: Item)                      // a message popped from the overrun queue

  /** Who is responsible for a buffer of the pool. */
  datatype Owner = Nobody | BySender(t: nat) | InSlot(k: nat) | ByDrainer | InQueue

  /** A buffer of the pool: its flag, and (auxiliary) its owner and the message built in it. */
  datatype Buffer = Buffer(busy: bool, owner: Owner, content: Option<OutputMsg>)

  /** A slot: its two flags, its cell, and (auxiliary) the buffer of its occupant. */
  datatype Slot = Slot(busy: bool, valid: bool, cell: Option<Item>, occupant: Option<nat>)

  /**
   The shared memory and the local states.  No step reads the auxiliary variables: `accepted` and
   `drained` count messages, `snapshot` and `pass` describe the current drain pass.
   */
  datatype State = State(
    bufs: seq<Buffer>,
    slots: seq<Slot>,
    queue: seq<Item>,
    senders: seq<Sender>,
    drainer: Drainer,
    accepted: multiset<OutputMsg>,
    drained: multiset<OutputMsg>,
    snapshot: seq<Option<Item>>,
    pass: map<nat, Item>)

  const FREE_BUFFER := Buffer(false, Nobody, None)
  const FREE_SLOT := Slot(false, false, None, None)

  /** `Context::new` gives the buffer pool and the slot set the same size. */
  ghost predicate Init(s: State, n: nat) {
    && s.bufs == seq(n, _ => FREE_BUFFER)
    && s.slots == seq(n, _ => FREE_SLOT)
    && s.queue == []
    && (forall t :: 0 <= t < |s.senders| ==> s.senders[t] == Idle)
    && s.drainer == Resting
    && s.accepted == multiset{}
    && s.drained == multiset{}
    && s.snapshot == seq(n, _ => None)
    && s.pass == map[]
  }

  datatype Step =
    | Start(t: nat)
    | TryBuffer(t: nat)
    | BeginInsert(t: nat, msg: OutputMsg)
    | PushQueue(t: nat, msg: OutputMsg)
    | TrySlot(t: nat)
    | Fill(t: nat)
    | Publish(t: nat)
    | BeginPass
    | Look
    | Take
    | Unmark
    | Release
    | Sent(abort: bool)
    | Pop
    | PopSent

  /** Every index that a pending access will use is inside the arrays. */
  predicate Shape(s: State) {
    var n := |s.slots|;
    && |s.bufs| == |s.snapshot| == n
    && (forall t :: 0 <= t < |s.senders| ==> SenderInRange(s.senders[t], n))
    && (forall k :: 0 <= k < n && s.slots[k].cell.Some? ==> s.slots[k].cell.value.buf < n)
    && (forall i :: 0 <= i < |s.queue| ==> s.queue[i].buf < n)
    && DrainerInRange(s.drainer, n)
  }

  predicate SenderInRange(l: Sender, n: nat) {
    match l
    case Idle => true
    case Allocating(k) => k <= n
    case Holding(b) => b < n
    case Scanning(k, item) => k <= n && item.buf < n
    case Filling(k, item) => k < n && item.buf < n
    case Publishing(k, item) => k < n && item.buf < n
    case Refused(item) => item.buf < n
  }

  predicate DrainerInRange(d: Drainer, n: nat) {
    match d
    case Resting => true
    case Looking(k) => k <= n
    case Taking(k) => k < n
    case Unmarking(k, taken) => k < n && (taken.Some? ==> taken.value.buf < n)
    case Releasing(k, taken) => k < n && (taken.Some? ==> taken.value.buf < n)
    case Sending(k, item) => k < n && item.buf < n
    case Popped(item) => item.buf < n
  }

  predicate Enabled(s: State, a: Step) {
    && Shape(s)
    && match a
       case Start(t) => t < |s.senders| && s.senders[t].Idle?
       case TryBuffer(t) => t < |s.senders| && s.senders[t].Allocating?
       case BeginInsert(t, _) => t < |s.senders| && s.senders[t].Holding?
       case PushQueue(t, _) => t < |s.senders| && s.senders[t].Holding?
       case TrySlot(t) => t < |s.senders| && s.senders[t].Scanning?
       case Fill(t) => t < |s.senders| && s.senders[t].Filling?
       case Publish(t) => t < |s.senders| && s.senders[t].Publishing?
       case BeginPass => s.drainer.Resting?
       case Look => s.drainer.Looking?
       case Take => s.drainer.Taking?
       case Unmark => s.drainer.Unmarking?
       case Release => s.drainer.Releasing?
       case Sent(_) => s.drainer.Sending?
       case Pop => s.drainer.Resting? && s.queue != []
       case PopSent => s.drainer.Popped?
  }

  function Do(s: State, a: Step): State
    requires Enabled(s, a)
  {
    match a
    case Start(t) => SetSender(s, t, Allocating(0))
    case TryBuffer(t) => DoTryBuffer(s, t)
    case BeginInsert(t, msg) => DoBeginInsert(s, t, msg)
    case PushQueue(t, msg) => DoPushQueue(s, t, msg)
    case TrySlot(t) => DoTrySlot(s, t)
    case Fill(t) => DoFill(s, t)
    case Publish(t) => DoPublish(s, t)
    case BeginPass => DoBeginPass(s)
    case Look => DoLook(s)
    case Take => DoTake(s)
    case Unmark => DoUnmark(s)
    case Release => DoRelease(s)
    case Sent(abort) => DoSent(s, abort)
    case Pop => DoPop(s)
    case PopSent => Freed(s, s.drainer.item).(drainer := Resting)
  }

  function SetSender(s: State, t: nat, l: Sender): State
    requires t < |s.senders|
  {
    s.(senders := s.senders[t := l])
  }

  function SetBuffer(s: State, b: nat, buffer: Buffer): State
    requires b < |s.bufs|
  {
    s.(bufs := s.bufs[b := buffer])
  }

  function SetSlot(s: State, k: nat, slot: Slot): State
    requires k < |s.slots|
  {
    s.(slots := s.slots[k := slot])
  }

  /** `slot.swap(true)` in `allocate_buffer`; past the last buffer the answer is NoBufferAvailable. */
  function DoTryBuffer(s: State, t: nat): State
    requires Enabled(s, TryBuffer(t))
  {
    var k := s.senders[t].k;
    if k == |s.bufs| then SetSender(s, t, Idle)
    else if s.bufs[k].busy then SetSender(s, t, Allocating(k + 1))
    else SetSender(SetBuffer(s, k, s.bufs[k].(busy := true, owner := BySender(t))), t, Holding(k))
  }

  /** The message is built in its buffer and `insert` is called. */
  function DoBeginInsert(s: State, t: nat, msg: OutputMsg): State
    requires Enabled(s, BeginInsert(t, msg))
  {
    var b := s.senders[t].buf;
    SetSender(SetBuffer(s, b, s.bufs[b].(content := Some(msg))), t, Scanning(0, Item(msg, b)))
    .(accepted := s.accepted + multiset{msg})
  }

  /** The overrun path of `send`: the message joins the queue of upcoming messages. */
  function DoPushQueue(s: State, t: nat, msg: OutputMsg): State
    requires Enabled(s, PushQueue(t, msg))
  {
    var b := s.senders[t].buf;
    SetSender(SetBuffer(s, b, s.bufs[b].(owner := InQueue, content := Some(msg))), t, Idle)
    .(accepted := s.accepted + multiset{msg}, queue := s.queue + [Item(msg, b)])
  }

  /** `slot.swap(true)` in `insert`; past the last slot the answer is NoSlotAvailable. */
  function DoTrySlot(s: State, t: nat): State
    requires Enabled(s, TrySlot(t))
  {
    var k, item := s.senders[t].k, s.senders[t].item;
    if k == |s.slots| then SetSender(s, t, Refused(item))
    else if s.slots[k].busy then SetSender(s, t, Scanning(k + 1, item))
    else SetSender(SetSlot(s, k, s.slots[k].(busy := true, occupant := Some(item.buf))), t, Filling(k, item))
  }

  /** `slots[idx].get().replace(Some(output_msg))`. */
  function DoFill(s: State, t: nat): State
    requires Enabled(s, Fill(t))
  {
    var k, item := s.senders[t].k, s.senders[t].item;
    SetSender(SetSlot(s, k, s.slots[k].(cell := Some(item))), t, Publishing(k, item))
  }

  /** `slot_valid[idx].store(true)`. */
  function DoPublish(s: State, t: nat): State
    requires Enabled(s, Publish(t))
  {
    var k, b := s.senders[t].k, s.senders[t].item.buf;
    SetSender(SetBuffer(SetSlot(s, k, s.slots[k].(valid := true)), b, s.bufs[b].(owner := InSlot(k))), t, Idle)
  }

  /** `drain()`: remember which messages were valid when the pass began. */
  function DoBeginPass(s: State): State
    requires Enabled(s, BeginPass)
  {
    s.(drainer := Looking(0), pass := map[],
       snapshot := seq(|s.slots|, i requires 0 <= i < |s.slots| =>
         if s.slots[i].valid then s.slots[i].cell else None))
  }

  /** `slot.load()` in `take_slot`. */
  function DoLook(s: State): State
    requires Enabled(s, Look)
  {
    var k := s.drainer.k;
    s.(drainer := if k == |s.slots| then Resting else if s.slots[k].valid then Taking(k) else Looking(k + 1))
  }

  /** `slots[index].get().replace(None)`. */
  function DoTake(s: State): State
    requires Enabled(s, Take)
  {
    var k := s.drainer.k;
    var taken := s.slots[k].cell;
    var s1 := SetSlot(s, k, s.slots[k].(cell := None)).(drainer := Unmarking(k, taken));
    if taken.None? then s1
    else SetBuffer(s1, taken.value.buf, s.bufs[taken.value.buf].(owner := ByDrainer))
  }

  /** `slot.store(false)`. */
  function DoUnmark(s: State): State
    requires Enabled(s, Unmark)
  {
    var k := s.drainer.k;
    SetSlot(s, k, s.slots[k].(valid := false)).(drainer := Releasing(k, s.drainer.taken))
  }

  /** `slot_busy[index].store(false)`; `next` skips a slot that turned out empty. */
  function DoRelease(s: State): State
    requires Enabled(s, Release)
  {
    var k, taken := s.drainer.k, s.drainer.taken;
    SetSlot(s, k, s.slots[k].(busy := false, occupant := None))
    .(drainer := if taken.Some? then Sending(k, taken.value) else Looking(k + 1))
  }

  /** The caller of `next` is done with the message; it goes on, or gives up the pass. */
  function DoSent(s: State, abort: bool): State
    requires Enabled(s, Sent(abort))
  {
    var k, item := s.drainer.k, s.drainer.item;
    Freed(s, item).(drainer := if abort then Resting else Looking(k + 1), pass := s.pass[k := item])
  }

  /** `upcoming_messages.pop_front()`. */
  function DoPop(s: State): State
    requires Enabled(s, Pop)
  {
    var item := s.queue[0];
    SetBuffer(s, item.buf, s.bufs[item.buf].(owner := ByDrainer)).(drainer := Popped(item), queue := s.queue[1..])
  }

  /** The message left for the coordinator and its buffer was dropped. */
  function Freed(s: State, item: Item): State
    requires item.buf < |s.bufs|
  {
    SetBuffer(s, item.buf, FREE_BUFFER).(drained := s.drained + multiset{item.msg})
  }

  // ---------------------------------------------------------------- ownership

  /** The buffer a sender holds, if any. */
  function SenderBuf(l: Sender): Option<nat> {
    match l
    case Idle => None
    case Allocating(_) => None
    case Holding(b) => Some(b)
    case Scanning(_, item) => Some(item.buf)
    case Filling(_, item) => Some(item.buf)
    case Publishing(_, item) => Some(item.buf)
    case Refused(item) => Some(item.buf)
  }

  /** The message a sender carries, if any. */
  function SenderMsg(l: Sender): Option<OutputMsg> {
    if l.Idle? || l.Allocating? || l.Holding? then None else Some(l.item.msg)
  }

  /** The message the drainer has taken out of a slot or of the queue, if any. */
  function DrainerItem(d: Drainer): Option<Item> {
    match d
    case Resting => None
    case Looking(_) => None
    case Taking(_) => None
    case Unmarking(_, taken) => taken
    case Releasing(_, taken) => taken
    case Sending(_, item) => Some(item)
    case Popped(item) => Some(item)
  }

  /** Every place that refers to a buffer is its one registered owner, and holds its content. */
  ghost predicate Owned(s: State)
    requires Shape(s)
  {
    && (forall t :: 0 <= t < |s.senders| && SenderBuf(s.senders[t]).Some? ==>
          s.bufs[SenderBuf(s.senders[t]).value] == Buffer(true, BySender(t), SenderMsg(s.senders[t])))
    && (DrainerItem(s.drainer).Some? ==>
          s.bufs[DrainerItem(s.drainer).value.buf] == Buffer(true, ByDrainer, Some(DrainerItem(s.drainer).value.msg)))
    && (forall i :: 0 <= i < |s.queue| ==> s.bufs[s.queue[i].buf] == Buffer(true, InQueue, Some(s.queue[i].msg)))
    && (forall i, j :: 0 <= i < j < |s.queue| ==> s.queue[i].buf != s.queue[j].buf)
  }

  /** A sender or the drainer that is working on a slot is its occupant. */
  ghost predicate AtWork(s: State)
    requires Shape(s)
  {
    && (forall t :: 0 <= t < |s.senders| && (s.senders[t].Filling? || s.senders[t].Publishing?) ==>
          s.slots[s.senders[t].k].occupant == Some(s.senders[t].item.buf))
    && (s.drainer.Taking? ==> s.slots[s.drainer.k].valid)
    && (s.drainer.Unmarking? || s.drainer.Releasing? ==>
          s.drainer.taken.Some? && s.slots[s.drainer.k].occupant == Some(s.drainer.taken.value.buf))
  }

  /** Conversely, the registered owner of a buffer really refers to it. */
  ghost predicate Accounted(s: State, b: nat)
    requires Shape(s) && b < |s.bufs|
  {
    && (s.bufs[b].owner != Nobody ==> s.bufs[b].busy)
    && match s.bufs[b].owner
    case Nobody => s.bufs[b] == FREE_BUFFER
    case BySender(t) => t < |s.senders| && SenderBuf(s.senders[t]) == Some(b)
    case InSlot(k) =>
      && k < |s.slots| && s.bufs[b].content.Some?
      && s.slots[k] == Slot(true, true, Some(Item(s.bufs[b].content.value, b)), Some(b))
    case ByDrainer => DrainerItem(s.drainer).Some? && DrainerItem(s.drainer).value.buf == b
    case InQueue => exists i :: 0 <= i < |s.queue| && s.queue[i].buf == b
  }

  /** The occupant of a busy slot is unique, and determines the valid flag and the cell. */
  ghost predicate Occupied(s: State, k: nat)
    requires Shape(s) && k < |s.slots|
  {
    var slot := s.slots[k];
    match slot.occupant
    case None => slot == FREE_SLOT
    case Some(b) =>
      && slot.busy && b < |s.bufs|
      && match s.bufs[b].owner
         case Nobody => false
         case BySender(t) =>
           && t < |s.senders| && !slot.valid
           && (match s.senders[t]
               case Filling(k', item) => k' == k && item.buf == b && slot.cell.None?
               case Publishing(k', item) => k' == k && item.buf == b && slot.cell == Some(item)
               case _ => false)
         case InSlot(k') => k' == k
         case ByDrainer =>
           && slot.cell.None?
           && (s.drainer.Unmarking? || s.drainer.Releasing?)
           && s.drainer.k == k && slot.valid == s.drainer.Unmarking?
         case InQueue => false
  }

  /** Each buffer and each slot has exactly one owner, and all places agree on it. */
  ghost predicate Places(s: State) {
    && Shape(s) && Owned(s) && AtWork(s)
    && (forall b :: 0 <= b < |s.bufs| ==> Accounted(s, b))
    && (forall k :: 0 <= k < |s.slots| ==> Occupied(s, k))
  }

  lemma InitPlaces(s: State, n: nat)
    requires Init(s, n)
    ensures Places(s)
  {}

  lemma StartKeeps(s: State, t: nat)
    requires Places(s) && Enabled(s, Start(t))
    ensures Places(SetSender(s, t, Allocating(0)))
  {
    var s' := SetSender(s, t, Allocating(0));
    forall b | 0 <= b < |s.bufs| ensures Accounted(s', b) {
      assert Accounted(s, b);
    }
    forall k | 0 <= k < |s.slots| ensures Occupied(s', k) {
      assert Occupied(s, k);
    }
  }

  lemma BufferMissKeeps(s: State, t: nat)
    requires Places(s) && Enabled(s, TryBuffer(t))
    requires s.senders[t].k < |s.bufs| ==> s.bufs[s.senders[t].k].busy
    ensures Places(DoTryBuffer(s, t))
  {
    var s' := DoTryBuffer(s, t);
    forall b | 0 <= b < |s.bufs| ensures Accounted(s', b) {
      assert Accounted(s, b);
    }
    forall k | 0 <= k < |s.slots| ensures Occupied(s', k) {
      assert Occupied(s, k);
    }
  }

  lemma BufferHitKeeps(s: State, t: nat)
    requires Places(s) && Enabled(s, TryBuffer(t))
    requires s.senders[t].k < |s.bufs| && !s.bufs[s.senders[t].k].busy
    ensures Places(DoTryBuffer(s, t))
  {
    assert Accounted(s, s.senders[t].k);
    var s' := DoTryBuffer(s, t);
    forall b | 0 <= b < |s.bufs| ensures Accounted(s', b) {
      assert Accounted(s, b);
    }
    forall k | 0 <= k < |s.slots| ensures Occupied(s', k) {
      assert Occupied(s, k);
    }
  }

  lemma BeginInsertKeeps(s: State, t: nat, msg: OutputMsg)
    requires Places(s) && Enabled(s, BeginInsert(t, msg))
    ensures Places(DoBeginInsert(s, t, msg))
  {
    var s' := DoBeginInsert(s, t, msg);
    forall b | 0 <= b < |s.bufs| ensures Accounted(s', b) {
      assert Accounted(s, b);
    }
    forall k | 0 <= k < |s.slots| ensures Occupied(s', k) {
      assert Occupied(s, k);
    }
  }

  lemma PushQueueKeeps(s: State, t: nat, msg: OutputMsg)
    requires Places(s) && Enabled(s, PushQueue(t, msg))
    ensures Places(DoPushQueue(s, t, msg))
  {
    var s' := DoPushQueue(s, t, msg);
    forall b | 0 <= b < |s.bufs| ensures Accounted(s', b) {
      assert Accounted(s, b);
      if b == s.senders[t].buf {
        assert s'.queue[|s.queue|].buf == b;
      } else if s.bufs[b].owner.InQueue? {
        var i :| 0 <= i < |s.queue| && s.queue[i].buf == b;
        assert s'.queue[i].buf == b;
      }
    }
    forall k | 0 <= k < |s.slots| ensures Occupied(s', k) {
      assert Occupied(s, k);
    }
  }

  lemma SlotMissKeeps(s: State, t: nat)
    requires Places(s) && Enabled(s, TrySlot(t))
    requires s.senders[t].k < |s.slots| ==> s.slots[s.senders[t].k].busy
    ensures Places(DoTrySlot(s, t))
  {
    var s' := DoTrySlot(s, t);
    forall b | 0 <= b < |s.bufs| ensures Accounted(s', b) {
      assert Accounted(s, b);
    }
    forall k | 0 <= k < |s.slots| ensures Occupied(s', k) {
      assert Occupied(s, k);
    }
  }

  lemma SlotHitKeeps(s: State, t: nat)
    requires Places(s) && Enabled(s, TrySlot(t))
    requires s.senders[t].k < |s.slots| && !s.slots[s.senders[t].k].busy
    ensures Places(DoTrySlot(s, t))
  {
    assert Occupied(s, s.senders[t].k);
    var s' := DoTrySlot(s, t);
    forall b | 0 <= b < |s.bufs| ensures Accounted(s', b) {
      assert Accounted(s, b);
    }
    forall k | 0 <= k < |s.slots| ensures Occupied(s', k) {
      assert Occupied(s, k);
    }
  }

  lemma FillKeeps(s: State, t: nat)
    requires Places(s) && Enabled(s, Fill(t))
    ensures Places(DoFill(s, t))
  {
    assert Occupied(s, s.senders[t].k);
    var s' := DoFill(s, t);
    forall b | 0 <= b < |s.bufs| ensures Accounted(s', b) {
      assert Accounted(s, b);
    }
    forall k | 0 <= k < |s.slots| ensures Occupied(s', k) {
      assert Occupied(s, k);
    }
  }

  lemma PublishKeepsOwned(s: State, t: nat)
    requires Shape(s) && Owned(s) && AtWork(s) && Enabled(s, Publish(t)) && Occupied(s, s.senders[t].k)
    ensures Shape(DoPublish(s, t)) && Owned(DoPublish(s, t)) && AtWork(DoPublish(s, t))
  {}

  lemma PublishKeeps(s: State, t: nat)
    requires Places(s) && Enabled(s, Publish(t))
    ensures Places(DoPublish(s, t))
  {
    assert Occupied(s, s.senders[t].k);
    var s' := DoPublish(s, t);
    PublishKeepsOwned(s, t);
    forall b | 0 <= b < |s.bufs| ensures Accounted(s', b) {
      assert Accounted(s, b);
    }
    forall k | 0 <= k < |s.slots| ensures Occupied(s', k) {
      assert Occupied(s, k);
    }
  }

  lemma BeginPassKeeps(s: State)
    requires Places(s) && Enabled(s, BeginPass)
    ensures Places(DoBeginPass(s))
  {
    var s' := DoBeginPass(s);
    forall b | 0 <= b < |s.bufs| ensures Accounted(s', b) {
      assert Accounted(s, b);
    }
    forall k | 0 <= k < |s.slots| ensures Occupied(s', k) {
      assert Occupied(s, k);
    }
  }

  lemma LookKeeps(s: State)
    requires Places(s) && Enabled(s, Look)
    ensures Places(DoLook(s))
  {
    var s' := DoLook(s);
    forall b | 0 <= b < |s.bufs| ensures Accounted(s', b) {
      assert Accounted(s, b);
    }
    forall k | 0 <= k < |s.slots| ensures Occupied(s', k) {
      assert Occupied(s, k);
    }
  }

  lemma TakeKeeps(s: State)
    requires Places(s) && Enabled(s, Take)
    ensures Places(DoTake(s))
  {
    assert Occupied(s, s.drainer.k) && Accounted(s, s.slots[s.drainer.k].occupant.value);
    var s' := DoTake(s);
    forall b | 0 <= b < |s.bufs| ensures Accounted(s', b) {
      assert Accounted(s, b);
    }
    forall k | 0 <= k < |s.slots| ensures Occupied(s', k) {
      assert Occupied(s, k);
    }
  }

  lemma UnmarkKeeps(s: State)
    requires Places(s) && Enabled(s, Unmark)
    ensures Places(DoUnmark(s))
  {
    assert Occupied(s, s.drainer.k);
    var s' := DoUnmark(s);
    forall b | 0 <= b < |s.bufs| ensures Accounted(s', b) {
      assert Accounted(s, b);
    }
    forall k | 0 <= k < |s.slots| ensures Occupied(s', k) {
      assert Occupied(s, k);
    }
  }

  lemma ReleaseKeeps(s: State)
    requires Places(s) && Enabled(s, Release)
    ensures Places(DoRelease(s))
  {
    assert Occupied(s, s.drainer.k);
    var s' := DoRelease(s);
    forall b | 0 <= b < |s.bufs| ensures Accounted(s', b) {
      assert Accounted(s, b);
    }
    forall k | 0 <= k < |s.slots| ensures Occupied(s', k) {
      assert Occupied(s, k);
    }
  }

  lemma SentKeeps(s: State, abort: bool)
    requires Places(s) && Enabled(s, Sent(abort))
    ensures Places(DoSent(s, abort))
  {
    var s' := DoSent(s, abort);
    forall b | 0 <= b < |s.bufs| ensures Accounted(s', b) {
      assert Accounted(s, b);
    }
    forall k | 0 <= k < |s.slots| ensures Occupied(s', k) {
      assert Occupied(s, k);
    }
  }

  lemma PopKeeps(s: State)
    requires Places(s) && Enabled(s, Pop)
    ensures Places(DoPop(s))
  {
    var s' := DoPop(s);
    forall b | 0 <= b < |s.bufs| ensures Accounted(s', b) {
      assert Accounted(s, b);
      if s.bufs[b].owner.InQueue? {
        var i :| 0 <= i < |s.queue| && s.queue[i].buf == b;
        assert i == 0 || s'.queue[i - 1].buf == b;
      }
    }
    forall k | 0 <= k < |s.slots| ensures Occupied(s', k) {
      assert Occupied(s, k);
    }
  }

  lemma PopSentKeeps(s: State)
    requires Places(s) && Enabled(s, PopSent)
    ensures Places(Freed(s, s.drainer.item).(drainer := Resting))
  {
    var s' := Freed(s, s.drainer.item).(drainer := Resting);
    forall b | 0 <= b < |s.bufs| ensures Accounted(s', b) {
      assert Accounted(s, b);
    }
    forall k | 0 <= k < |s.slots| ensures Occupied(s', k) {
      assert Occupied(s, k);
    }
  }

  /** Ownership is exact after every step of every interleaving. */
  lemma StepKeepsPlaces(s: State, a: Step)
    requires Places(s) && Enabled(s, a)
    ensures Places(Do(s, a))
  {
    match a
    case Start(t) => StartKeeps(s, t);
    case TryBuffer(t) =>
      if s.senders[t].k < |s.bufs| && !s.bufs[s.senders[t].k].busy { BufferHitKeeps(s, t); } else { BufferMissKeeps(s, t); }
    case BeginInsert(t, msg) => BeginInsertKeeps(s, t, msg);
    case PushQueue(t, msg) => PushQueueKeeps(s, t, msg);
    case TrySlot(t) =>
      if s.senders[t].k < |s.slots| && !s.slots[s.senders[t].k].busy { SlotHitKeeps(s, t); } else { SlotMissKeeps(s, t); }
    case Fill(t) => FillKeeps(s, t);
    case Publish(t) => PublishKeeps(s, t);
    case BeginPass => BeginPassKeeps(s);
    case Look => LookKeeps(s);
    case Take => TakeKeeps(s);
    case Unmark => UnmarkKeeps(s);
    case Release => ReleaseKeeps(s);
    case Sent(abort) => SentKeeps(s, abort);
    case Pop => PopKeeps(s);
    case PopSent => PopSentKeeps(s);
  }
}
