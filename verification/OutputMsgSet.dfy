/**
 `OutputMsgSet` as the program text runs it: one thread executes the scan loops below while, at
 every `Interfere`, the other senders and the drainer take any number of atomic steps.
 */
module OutputMsgSet {
  import opened Basics
  import opened SlotMachine
  import opened SlotTheorems

  datatype Error = NoSlotAvailable

  /** The thread that executes a method: a sender, or the deadline handler. */
  datatype Thread = SenderThread(t: nat) | DrainerThread

  predicate TakenBy(a: Step, me: Thread) {
    match me
    case SenderThread(t) => !ByDrainerStep(a) && a.t == t
    case DrainerThread => ByDrainerStep(a)
  }

  /** Other threads went from path[0] to the end of the path. */
  ghost predicate ByOthers(path: seq<State>, acts: seq<Step>, me: Thread) {
    && |path| == |acts| + 1
    && forall i :: 0 <= i < |acts| ==>
         Enabled(path[i], acts[i]) && !TakenBy(acts[i], me) && path[i + 1] == Do(path[i], acts[i])
  }

  ghost predicate Interference(w: State, w': State, me: Thread) {
    exists path, acts :: ByOthers(path, acts, me) && path[0] == w && path[|acts|] == w'
  }

  ghost predicate SameThread(w: State, w': State, me: Thread) {
    && |w'.senders| == |w.senders| && |w'.slots| == |w.slots|
    && match me
       case SenderThread(t) => t < |w.senders| ==> w'.senders[t] == w.senders[t]
       case DrainerThread => w'.drainer == w.drainer && w'.snapshot == w.snapshot && w'.pass == w.pass
  }

  lemma DrainerSparesSenders(w: State, a: Step)
    requires Enabled(w, a) && ByDrainerStep(a)
    ensures Do(w, a).senders == w.senders && |Do(w, a).slots| == |w.slots|
  {}

  lemma SenderSparesSenders(w: State, a: Step)
    requires Enabled(w, a) && !ByDrainerStep(a)
    ensures Do(w, a).senders == w.senders[a.t := Do(w, a).senders[a.t]]
  {}

  lemma OthersSpareMe(w: State, a: Step, me: Thread)
    requires Places(w) && Enabled(w, a) && !TakenBy(a, me)
    ensures SameThread(w, Do(w, a), me)
  {
    if ByDrainerStep(a) {
      DrainerSparesSenders(w, a);
    } else {
      SenderSparesValid(w, a);
      SenderSparesSenders(w, a);
    }
  }

  /** Whatever the others do, the invariants hold and this thread's local state stays. */
  lemma {:induction false} RelyOn(path: seq<State>, acts: seq<Step>, me: Thread, i: nat)
    requires ByOthers(path, acts, me) && i < |path| && Good(path[0])
    ensures Good(path[i]) && SameThread(path[0], path[i], me)
  {
    if i > 0 {
      RelyOn(path, acts, me, i - 1);
      StepGood(path[i - 1], acts[i - 1]);
      OthersSpareMe(path[i - 1], acts[i - 1], me);
    }
  }

  ghost predicate SamePass(w: State, w': State) { w'.snapshot == w.snapshot && w'.pass == w.pass }

  lemma ValidIsFull(w: State, k: nat)
    requires Good(w) && k < |w.slots| && w.slots[k].valid && !w.drainer.Unmarking?
    ensures w.slots[k].cell.Some?
  {
    assert Occupied(w, k) && Accounted(w, w.slots[k].occupant.value);
  }

  lemma ScanStopsBeforeEnd(w: State, t: nat)
    requires Good(w) && t < |w.senders| && w.senders[t].Scanning?
    ensures w.senders[t].k < |w.slots|
  {
    assert |Crowd(w, |w.slots|)| <= 0;
    assert w.senders[t].item.buf !in Crowd(w, |w.slots|);
  }

  /** At the end of a pass every message valid at its start was handed over. */
  lemma PassedOver(w: State, w': State, out: seq<Item>, k: nat)
    requires Good(w) && Good(w') && w.drainer == Resting && |w'.slots| == |w.slots| && w'.drainer == Looking(|w.slots|)
    requires w'.snapshot == DoBeginPass(w).snapshot && k < |w.slots| && w.slots[k].valid
    requires DrainedTo(w'.pass, |w.slots|, out)
    ensures w.slots[k].cell.Some? && w.slots[k].cell.value in out
  {
    ValidIsFull(w, k);
    assert w'.snapshot[k] == w.slots[k].cell;
    var at := PassItemsAre(w'.pass, |w.slots|);
    var j :| 0 <= j < |at| && at[j] == k;
    assert out[j] == w'.pass[k];
  }

  /** `out` is what the pass took out of the slots before `index`, in the order of the slots. */
  ghost predicate DrainedTo(pass: map<nat, Item>, index: nat, out: seq<Item>) {
    out == PassItems(pass, index) && forall k :: k in pass ==> k < index
  }

  lemma DrainedMore(pass: map<nat, Item>, index: nat, out: seq<Item>, next: nat)
    requires DrainedTo(pass, index, out) && index <= next
    ensures DrainedTo(pass, next, out)
    ensures forall item :: DrainedTo(pass[next := item], next + 1, out + [item])
  {
    PassItemsUpto(pass, index, next);
    forall item ensures DrainedTo(pass[next := item], next + 1, out + [item]) { PassItemsMore(pass, next, item); }
  }

  class OutputMsgSet {
    var slots: seq<Option<Item>>
    var slotBusy: seq<bool>
    var slotValid: seq<bool>
    ghost var world: State   // the whole client, of which the three fields above are a part

    ghost predicate Valid()
      reads this
    {
      && Good(world)
      && |slots| == |slotBusy| == |slotValid| == |world.slots|
      && forall k :: 0 <= k < |slots| ==>
           slots[k] == world.slots[k].cell && slotBusy[k] == world.slots[k].busy && slotValid[k] == world.slots[k].valid
    }

    constructor (numSlots: nat, ghost numSenders: nat)
      ensures Valid() && |slots| == numSlots && |world.senders| == numSenders
      ensures Init(world, numSlots)
    {
      slots := seq(numSlots, _ => None);
      slotBusy := seq(numSlots, _ => false);
      slotValid := seq(numSlots, _ => false);
      world := State(seq(numSlots, _ => FREE_BUFFER), seq(numSlots, _ => FREE_SLOT), [],
                     seq(numSenders, _ => Idle), Resting, multiset{}, multiset{}, seq(numSlots, _ => None), map[]);
      new;
      InitGood(world, numSlots);
    }

    /** Other threads may run here; the caller only learns what they cannot break. */
    method Interfere(ghost me: Thread)
      requires Valid()
      modifies this
      ensures Valid() && Interference(old(world), world, me) && SameThread(old(world), world, me)
    {
      assert ByOthers([world], [], me);
    }

    // The atomic accesses, each preceded by whatever the other threads do.

    method SwapBusy(ghost t: nat, idx: nat, ghost item: Item) returns (was: bool)
      requires Valid() && idx < |slots| && t < |world.senders| && world.senders[t] == Scanning(idx, item)
      modifies this
      ensures Valid() && |slots| == old(|slots|) && |world.senders| == old(|world.senders|)
      ensures world.senders[t] == if was then Scanning(idx + 1, item) else Filling(idx, item)
    {
      Interfere(SenderThread(t));
      was := slotBusy[idx];
      slotBusy := slotBusy[idx := true];
      Advance(TrySlot(t));
    }

    method ReplaceCell(ghost t: nat, idx: nat, item: Item)
      requires Valid() && idx < |slots| && t < |world.senders| && world.senders[t] == Filling(idx, item)
      modifies this
      ensures Valid() && |slots| == old(|slots|) && |world.senders| == old(|world.senders|)
      ensures world.senders[t] == Publishing(idx, item)
    {
      Interfere(SenderThread(t));
      slots := slots[idx := Some(item)];
      Advance(Fill(t));
    }

    method StoreValid(ghost t: nat, idx: nat, ghost item: Item)
      requires Valid() && idx < |slots| && t < |world.senders| && world.senders[t] == Publishing(idx, item)
      modifies this
      ensures Valid() && |slots| == old(|slots|) && |world.senders| == old(|world.senders|)
      ensures world.senders[t] == Idle
      ensures slotBusy[idx] && slotValid[idx] && slots[idx] == Some(item)
    {
      Interfere(SenderThread(t));
      assert Occupied(world, idx);
      slotValid := slotValid[idx := true];
      Advance(Publish(t));
    }

    /** One pass over the busy flags; with a buffer in hand it always publishes the message. */
    method Insert(ghost t: nat, outputMsg: Item) returns (r: Result<nat, Error>)
      requires Valid() && t < |world.senders| && world.senders[t] == Scanning(0, outputMsg)
      modifies this
      ensures Valid() && |slots| == old(|slots|) && |world.senders| == old(|world.senders|)
      ensures r.Ok? && r.value < |slots|
      ensures slotBusy[r.value] && slotValid[r.value] && slots[r.value] == Some(outputMsg)
      ensures world.senders[t] == Idle
    {
      for idx := 0 to |slotBusy|
        invariant Valid() && |slots| == old(|slots|) && |world.senders| == old(|world.senders|)
        invariant world.senders[t] == Scanning(idx, outputMsg)
      {
        var was := SwapBusy(t, idx, outputMsg);
        if !was {
          ReplaceCell(t, idx, outputMsg);
          StoreValid(t, idx, outputMsg);
          return Ok(idx);
        }
      }
      ScanStopsBeforeEnd(world, t);
      assert false;
    }

    method LoadValid(index: nat) returns (valid: bool)
      requires Valid() && index < |slots| && world.drainer == Looking(index)
      modifies this
      ensures Valid() && |slots| == old(|slots|) && SamePass(old(world), world)
      ensures world.drainer == if valid then Taking(index) else Looking(index + 1)
    {
      Interfere(DrainerThread);
      valid := slotValid[index];
      Advance(Look);
    }

    method TakeCell(index: nat) returns (r: Option<Item>)
      requires Valid() && index < |slots| && world.drainer == Taking(index)
      modifies this
      ensures Valid() && |slots| == old(|slots|) && SamePass(old(world), world)
      ensures r.Some? && world.drainer == Unmarking(index, r)
    {
      Interfere(DrainerThread);
      r := slots[index];
      slots := slots[index := None];
      Advance(Take);
    }

    method ClearValid(index: nat)
      requires Valid() && index < |slots| && world.drainer.Unmarking? && world.drainer.k == index
      modifies this
      ensures Valid() && |slots| == old(|slots|) && SamePass(old(world), world)
      ensures world.drainer == Releasing(index, old(world.drainer.taken))
    {
      Interfere(DrainerThread);
      slotValid := slotValid[index := false];
      Advance(Unmark);
    }

    method ClearBusy(index: nat, ghost item: Item)
      requires Valid() && index < |slots| && world.drainer == Releasing(index, Some(item))
      modifies this
      ensures Valid() && |slots| == old(|slots|) && SamePass(old(world), world)
      ensures world.drainer == Sending(index, item)
    {
      Interfere(DrainerThread);
      slotBusy := slotBusy[index := false];
      Advance(Release);
    }

    /** `take_slot`, executed by the deadline handler. */
    method TakeSlot(index: nat) returns (r: Option<Item>)
      requires Valid() && index < |slots| && world.drainer == Looking(index)
      modifies this
      ensures Valid() && |slots| == old(|slots|) && SamePass(old(world), world)
      ensures world.drainer == if r.Some? then Sending(index, r.value) else Looking(index + 1)
    {
      var valid := LoadValid(index);
      if !valid { return None; }
      r := TakeCell(index);
      ClearValid(index);
      ClearBusy(index, r.value);
    }

    /** `OutputMsgDrain::next`: the next message at or after `index`, if there is one. */
    method Next(index: nat) returns (r: Option<Item>, next: nat)
      requires Valid() && index <= |slots| && world.drainer == Looking(index)
      modifies this
      ensures Valid() && |slots| == old(|slots|) && SamePass(old(world), world)
      ensures r.Some? ==> index < next <= |slots| && world.drainer == Sending(next - 1, r.value)
      ensures r.None? ==> world.drainer == Looking(|slots|)
    {
      for i := index to |slots|
        invariant Valid() && |slots| == old(|slots|) && world.drainer == Looking(i) && SamePass(old(world), world)
      {
        r := TakeSlot(i);
        if r.Some? { return r, i + 1; }
      }
      return None, index;
    }

    /** The handler has sent the message; dropping it frees the buffer. */
    method HandOver(k: nat, item: Item)
      requires Valid() && world.drainer == Sending(k, item)
      modifies this
      ensures Valid() && |slots| == old(|slots|) && world.drainer == Looking(k + 1)
      ensures world.snapshot == old(world.snapshot) && world.pass == old(world.pass)[k := item]
    {
      Interfere(DrainerThread);
      Advance(Sent(false));
    }

    /** One turn: the next message, if any, is sent and joins `out`. */
    method DrainOne(index: nat, out: seq<Item>) returns (more: bool, next: nat, out': seq<Item>)
      requires Valid() && index <= |slots| && world.drainer == Looking(index) && DrainedTo(world.pass, index, out)
      modifies this
      ensures Valid() && |slots| == old(|slots|) && world.snapshot == old(world.snapshot)
      ensures DrainedTo(world.pass, if more then next else |slots|, out')
      ensures more ==> index < next <= |slots| && world.drainer == Looking(next)
      ensures !more ==> world.drainer == Looking(|slots|)
    {
      var r;
      r, next := Next(index);
      more, out' := r.Some?, out;
      DrainedMore(world.pass, index, out, if more then next - 1 else |slots|);
      if more {
        out' := out + [r.value];
        HandOver(next - 1, r.value);
      }
    }

    /**
     The loop of `at_deadline` over `drain()`: it yields exactly what it takes out of the slots, in their order,
     and with it every message valid at the start.
     */
    method Drain() returns (out: seq<Item>)
      requires Valid() && world.drainer == Resting
      modifies this
      ensures Valid() && |slots| == old(|slots|) && world.drainer == Resting
      ensures DrainedTo(world.pass, |slots|, out)
      ensures forall k :: 0 <= k < |slots| && old(slotValid)[k] ==> old(slots)[k].Some? && old(slots)[k].value in out
    {
      Advance(BeginPass);
      out := [];
      var index, more := 0, true;
      while more
        invariant Valid() && |slots| == old(|slots|) && index <= |slots|
        invariant world.drainer == Looking(if more then index else |slots|)
        invariant world.snapshot == DoBeginPass(old(world)).snapshot
        invariant DrainedTo(world.pass, if more then index else |slots|, out)
        decreases more, |slots| - index
      {
        var next;
        more, next, out := DrainOne(index, out);
        if more { index := next; }
      }
      forall k | 0 <= k < |slots| && old(slotValid)[k] ensures old(slots)[k].Some? && old(slots)[k].value in out {
        PassedOver(old(world), world, out, k);
      }
      Advance(Look);
    }

    /** Records an atomic access in the machine. */
    ghost method Advance(a: Step)
      requires Good(world) && Enabled(world, a)
      modifies this`world
      ensures world == Do(old(world), a) && Good(world) && |world.slots| == old(|world.slots|)
    {
      StepGood(world, a);
      world := Do(world, a);
    }
  }
}
