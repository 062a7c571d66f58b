/**
 The pool of byte buffers.  Other threads may act between any two accesses to the shared state: they
 take any number of steps of the machine in PoolMachine, and no assumption is made on which.
 */
module BufferPool {
  import opened Basics
  import opened PoolMachine

  datatype Error = NoBufferAvailable | SizeTooBig

  predicate Zeros(bytes: seq<Byte>) {
    forall k :: 0 <= k < |bytes| ==> bytes[k] == 0
  }

  /** The threads that act during a method of thread `me`. */
  function Doers(me: nat, alone: bool): Who { if alone then Just(me) else Anyone }

  /** Thread `me` took one buffer more, and has its others as before. */
  ghost predicate Gained(w: World, w': World, me: nat, i: nat, size: nat) {
    && Grown(w, w', me, {i}) && !Holds(w, me, i) && Holds(w', me, i) && w'.held[me][i] == Grip(size, false)
    && forall j: nat :: Holds(w, me, j) ==> Content(w', me, j) == Content(w, me, j)
  }

  lemma KeptThenGained(w: World, w1: World, w2: World, me: nat, i: nat, size: nat)
    requires Kept(w, w1, me) && Gained(w1, w2, me, i, size)
    ensures Gained(w, w2, me, i, size)
  {
    GrownThenGrown(w, w1, w2, me, {}, {i});
    forall j: nat | Holds(w, me, j) ensures Content(w2, me, j) == Content(w, me, j) { assert Holds(w1, me, j); }
  }

  /** Thread `me` keeps all its buffers, and what it reads in the others than i. */
  ghost predicate ResetTo(w: World, w': World, me: nat, i: nat) {
    && Grown(w, w', me, {}) && Holds(w, me, i)
    && forall j: nat :: Holds(w, me, j) && j != i ==> Content(w', me, j) == Content(w, me, j)
  }

  /** A store through buffer i: its byte changes, the other buffers of the thread do not. */
  lemma StoreIs(w: World, me: nat, i: nat, k: nat, b: Byte)
    requires Inv(w) && Holds(w, me, i) && k < w.held[me][i].size
    ensures Enabled(w, Store(me, i, k, b))
    ensures var w' := Do(w, Store(me, i, k, b));
      && |Content(w, me, i)| == w.held[me][i].size && Content(w', me, i) == Content(w, me, i)[k := b]
      && ResetTo(w, w', me, i)
  {
    PartInside(w.part, i, |w.busy|);
    forall j: nat | Holds(w, me, j) && j != i ensures Content(Do(w, Store(me, i, k, b)), me, j) == Content(w, me, j) {
      ElsewhereSame(w, me, i, k, b, me, j);
    }
  }

  lemma SwapIs(w: World, me: nat, i: nat, size: nat)
    requires Inv(w) && me < |w.held| && i < |w.busy| && size <= w.part
    ensures Enabled(w, Step.Swap(me, i, size))
    ensures !w.busy[i] ==> Unowned(w, i) && Gained(w, Do(w, Step.Swap(me, i, size)), me, i, size)
  {
    if !w.busy[i] {
      forall t: nat ensures !Holds(w, t, i) {}
    }
  }

  lemma KeptThenReset(w: World, w1: World, w2: World, me: nat, i: nat)
    requires Holds(w, me, i) && Kept(w, w1, me) && ResetTo(w1, w2, me, i)
    ensures ResetTo(w, w2, me, i)
  {
    GrownThenGrown(w, w1, w2, me, {}, {});
    assert Holds(w1, me, i);
    forall j: nat | Holds(w, me, j) && j != i ensures Content(w2, me, j) == Content(w, me, j) { assert Holds(w1, me, j); }
  }

  lemma ResetThenReset(w: World, w1: World, w2: World, me: nat, i: nat)
    requires ResetTo(w, w1, me, i) && ResetTo(w1, w2, me, i)
    ensures ResetTo(w, w2, me, i)
  {
    GrownThenGrown(w, w1, w2, me, {}, {});
    forall j: nat | Holds(w, me, j) && j != i ensures Content(w2, me, j) == Content(w, me, j) { assert Holds(w1, me, j); }
  }

  lemma GainedThenReset(w: World, w1: World, w2: World, me: nat, i: nat, size: nat)
    requires Gained(w, w1, me, i, size) && ResetTo(w1, w2, me, i)
    ensures Gained(w, w2, me, i, size)
  {
    GrownThenGrown(w, w1, w2, me, {i}, {});
    forall j: nat | Holds(w, me, j) ensures Content(w2, me, j) == Content(w, me, j) { assert Holds(w1, me, j); }
  }

  /** The first k bytes of buffer i are zero. */
  ghost predicate Cleared(w: World, w': World, me: nat, i: nat, size: nat, k: nat, who: Who) {
    && ResetTo(w, w', me, i) && Moves(w, w', who)
    && k <= |Content(w', me, i)| == size && Zeros(Content(w', me, i)[..k])
  }

  lemma ClearedNone(w: World, me: nat, i: nat, who: Who)
    requires Inv(w) && Holds(w, me, i)
    ensures Cleared(w, w, me, i, w.held[me][i].size, 0, who)
  {
    MovesNone(w, who);
    LengthIs(w, me, i);
  }

  lemma ClearedIs(w: World, w': World, me: nat, i: nat, size: nat, k: nat, who: Who)
    requires Cleared(w, w', me, i, size, k, who) && w.held[me][i].size == size
    ensures Holds(w', me, i) && w'.held[me][i].size == size == |Content(w', me, i)|
    ensures k == size ==> Zeros(Content(w', me, i))
  {
    assert Content(w', me, i)[..size] == Content(w', me, i);
  }

  lemma ClearedThen(w: World, w1: World, w2: World, me: nat, i: nat, size: nat, k: nat, who: Who)
    requires Cleared(w, w1, me, i, size, k, who) && k < size
    requires ResetTo(w1, w2, me, i) && Moves(w1, w2, who) && Content(w2, me, i) == Content(w1, me, i)[k := 0]
    ensures Cleared(w, w2, me, i, size, k + 1, who)
  {
    MovesThen(w, w1, w2, who);
    ResetThenReset(w, w1, w2, me, i);
    OneMoreZero(Content(w1, me, i), k);
  }

  lemma OneMoreZero(bytes: seq<Byte>, k: nat)
    requires k < |bytes| && Zeros(bytes[..k])
    ensures Zeros(bytes[k := 0][..k + 1])
  {}

  /** The scan of thread `me` went past the first `index` parts. */
  ghost predicate Scanned(w: World, w': World, me: nat, index: nat, alone: bool) {
    && Moves(w, w', Doers(me, alone)) && Kept(w, w', me)
    && (alone ==> w' == w && forall j: nat :: j < index ==> !Unowned(w, j))
  }

  lemma ScanOn(w: World, w1: World, w2: World, me: nat, index: nat, alone: bool)
    requires Scanned(w, w1, me, index, alone) && Moves(w1, w2, Doers(me, alone)) && Kept(w1, w2, me)
    requires alone ==> w2 == w1 && !Unowned(w1, index)
    ensures Scanned(w, w2, me, index + 1, alone)
  {
    MovesThen(w, w1, w2, Doers(me, alone));
    KeptThenKept(w, w1, w2, me);
  }

  lemma ScanHits(w: World, w1: World, taken: World, w2: World, me: nat, index: nat, size: nat, alone: bool)
    requires Scanned(w, w1, me, index, alone) && Moves(w1, w2, Doers(me, alone)) && Moves(w1, taken, Doers(me, alone))
    requires Gained(w1, w2, me, index, size)
    ensures Moves(w, w2, Doers(me, alone)) && Moves(w, taken, Doers(me, alone)) && Gained(w, w2, me, index, size)
  {
    MovesThen(w, w1, w2, Doers(me, alone));
    MovesThen(w, w1, taken, Doers(me, alone));
    KeptThenGained(w, w1, w2, me, index, size);
  }

  lemma LengthIs(w: World, me: nat, i: nat)
    requires Inv(w) && Holds(w, me, i)
    ensures |Content(w, me, i)| == w.held[me][i].size
  {
    PartInside(w.part, i, |w.busy|);
  }

  class BufferPool {
    const bufferSize: nat
    const buffers: array<Byte>
    const busy: array<bool>
    ghost var world: World

    /** The fields are what the machine says. */
    ghost predicate Shown()
      reads this, busy, buffers
    {
      world.part == bufferSize && world.busy == busy[..] && world.bytes == buffers[..]
    }

    ghost predicate Valid()
      reads this, busy, buffers
    {
      Shown() && Inv(world)
    }

    constructor (bufferSize: nat, numBuffers: nat, ghost numThreads: nat)
      ensures Valid() && Init(world) && |world.held| == numThreads && this.bufferSize == bufferSize && busy.Length == numBuffers
      ensures fresh(busy) && fresh(buffers)
    {
      StartIsProduct(bufferSize, numBuffers);
      this.bufferSize := bufferSize;
      buffers := new Byte[bufferSize * numBuffers](i => 0);
      busy := new bool[numBuffers](i => false);
      new;
      world := World(bufferSize, busy[..], buffers[..], seq(numThreads, t => map[]));
      assert forall t: nat, i: nat :: !Holds(world, t, i);
    }

    /** Other threads may run here; with `alone` they do not. */
    method Interfere(ghost me: nat, ghost alone: bool)
      requires Shown()
      modifies this`world, busy, buffers
      ensures Shown() && Moves(old(world), world, Others(me)) && (alone ==> world == old(world))
    {
      MovesNone(world, Others(me));
    }

    /** Whatever they do, this thread's buffers are still its own and unchanged. */
    method Yield(ghost me: nat, ghost alone: bool)
      requires Valid() && me < |world.held|
      modifies this`world, busy, buffers
      ensures Valid() && Kept(old(world), world, me) && (alone ==> world == old(world))
      ensures Moves(old(world), world, Doers(me, alone))
    {
      ghost var w := world;
      Interfere(me, alone);
      MovesKeep(w, world, Others(me), me);
      if alone { MovesNone(w, Just(me)); } else { MovesMore(w, world, Others(me), Anyone); }
    }

    /** The atomic swap on a flag. */
    method Swap(ghost me: nat, index: nat, ghost size: nat) returns (was: bool)
      requires Valid() && me < |world.held| && index < busy.Length && size <= bufferSize
      modifies this`world, busy
      ensures Valid() && was == old(busy[index]) && world == Do(old(world), Step.Swap(me, index, size))
    {
      was := busy[index];
      busy[index] := true;
      ghost var w := world;
      world := Do(w, Step.Swap(me, index, size));
      StepInv(w, Step.Swap(me, index, size));
    }

    /** A store through a buffer, one byte of the slice that `get_mut` gives. */
    method Store(ghost me: nat, index: nat, k: nat, b: Byte)
      requires Valid() && Holds(world, me, index) && k < world.held[me][index].size
      modifies this`world, buffers
      ensures Valid() && Enabled(old(world), Step.Store(me, index, k, b)) && world == Do(old(world), Step.Store(me, index, k, b))
    {
      StoreIs(world, me, index, k, b);
      StartIsProduct(bufferSize, index);
      buffers[bufferSize * index + k] := b;
      ghost var w := world;
      world := Do(w, Step.Store(me, index, k, b));
      StepInv(w, Step.Store(me, index, k, b));
    }

    /** Dropping a buffer clears its flag and touches nothing else. */
    method FreeBuffer(ghost me: nat, index: nat)
      requires Valid() && Holds(world, me, index)
      modifies this`world, busy
      ensures Valid() && Enabled(old(world), Clear(me, index)) && world == Do(old(world), Clear(me, index))
    {
      busy[index] := false;
      ghost var w := world;
      world := Do(w, Clear(me, index));
      StepInv(w, Clear(me, index));
    }

    method ResetOne(ghost me: nat, index: nat, k: nat, ghost alone: bool)
      requires Valid() && Holds(world, me, index) && k < world.held[me][index].size && k < |Content(world, me, index)|
      modifies this`world, busy, buffers
      ensures Valid() && ResetTo(old(world), world, me, index) && Moves(old(world), world, Doers(me, alone))
      ensures Content(world, me, index) == Content(old(world), me, index)[k := 0]
    {
      ghost var w := world;
      Yield(me, alone);
      ghost var w1 := world;
      assert Holds(w1, me, index);
      StoreIs(w1, me, index, k, 0);
      Store(me, index, k, 0);
      MovesOne(w1, Step.Store(me, index, k, 0), Doers(me, alone));
      MovesThen(w, w1, world, Doers(me, alone));
      KeptThenReset(w, w1, world, me, index);
    }

    /** `reset`: the caller's new buffer is filled with zeros while others go on. */
    method Reset(ghost me: nat, index: nat, size: nat, ghost alone: bool)
      requires Valid() && Holds(world, me, index) && world.held[me][index].size == size
      modifies this`world, busy, buffers
      ensures Valid() && ResetTo(old(world), world, me, index) && Moves(old(world), world, Doers(me, alone))
      ensures Zeros(Content(world, me, index))
    {
      ghost var w := world;
      ClearedNone(w, me, index, Doers(me, alone));
      for k := 0 to size
        invariant Valid() && Cleared(w, world, me, index, size, k, Doers(me, alone))
      {
        ghost var w1 := world;
        ClearedIs(w, w1, me, index, size, k, Doers(me, alone));
        ResetOne(me, index, k, alone);
        ClearedThen(w, w1, world, me, index, size, k, Doers(me, alone));
      }
      ClearedIs(w, world, me, index, size, size, Doers(me, alone));
    }

    /** One turn of the scan: take the part if it is free. */
    method TryPart(ghost me: nat, index: nat, size: nat, ghost alone: bool) returns (ok: bool, ghost taken: World)
      requires Valid() && me < |world.held| && index < busy.Length && size <= bufferSize
      modifies this`world, busy, buffers
      ensures Valid() && Moves(old(world), world, Doers(me, alone)) && Moves(old(world), taken, Doers(me, alone))
      ensures ok ==> Unowned(taken, index) && Gained(old(world), world, me, index, size) && Zeros(Content(world, me, index))
      ensures !ok ==> Kept(old(world), world, me) && !Unowned(world, index)
      ensures alone ==> (if ok then taken == old(world) else world == old(world))
    {
      ghost var w := world;
      Yield(me, alone);
      taken := world;
      SwapIs(taken, me, index, size);
      var was := Swap(me, index, size);
      ok := !was;
      MovesOne(taken, Step.Swap(me, index, size), Doers(me, alone));
      MovesThen(w, taken, world, Doers(me, alone));
      if ok {
        ghost var w1 := world;
        Reset(me, index, size, alone);
        MovesThen(w, w1, world, Doers(me, alone));
        GainedThenReset(taken, w1, world, me, index, size);
        KeptThenGained(w, taken, world, me, index, size);
      }
    }

    /**
     `allocate_buffer`, one scan: the buffer was nobody's when it was taken, reads as zeros, and the
     caller's others are untouched.  It fails on size exactly when the size exceeds a part; undisturbed, it
     takes the first free part and fails only if every part is owned.
     */
    method AllocateBuffer(ghost me: nat, size: nat, ghost alone: bool) returns (r: Result<nat, Error>, ghost taken: World)
      requires Valid() && me < |world.held|
      modifies this`world, busy, buffers
      ensures Valid() && Moves(old(world), world, Doers(me, alone)) && Moves(old(world), taken, Doers(me, alone))
      ensures r == Err(SizeTooBig) <==> size > bufferSize
      ensures r.Ok? ==> Unowned(taken, r.value) && Gained(old(world), world, me, r.value, size) && Zeros(Content(world, me, r.value))
      ensures r.Err? ==> Kept(old(world), world, me)
      ensures alone && r.Ok? ==> Unowned(old(world), r.value) && forall j: nat :: j < r.value ==> !Unowned(old(world), j)
      ensures alone && r == Err(NoBufferAvailable) ==> forall j: nat :: j < busy.Length ==> !Unowned(old(world), j)
    {
      ghost var w := world;
      taken := world;
      MovesNone(w, Doers(me, alone));
      if size > bufferSize { return Err(SizeTooBig), taken; }
      for index := 0 to busy.Length
        invariant Valid() && me < |world.held| && Scanned(w, world, me, index, alone)
      {
        ghost var w1 := world;
        var ok;
        ok, taken := TryPart(me, index, size, alone);
        if ok {
          ScanHits(w, w1, taken, world, me, index, size, alone);
          return Ok(index), taken;
        }
        ScanOn(w, w1, world, me, index, alone);
      }
      return Err(NoBufferAvailable), world;
    }
  }
}
