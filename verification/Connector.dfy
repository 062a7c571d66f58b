/** How the client receives a frame: a buffer of the pool for every frame, deadlines included. */
module Connector {
  import opened Basics
  import opened Framing
  import M = PoolMachine
  import P = BufferPool

  datatype Error = Io(status: Status) | Pool(error: P.Error)

  // ---------------------------------------------------------------- a read as stores

  /** The pool after the first k bytes went to buffer i. */
  function Filled(w: M.World, i: nat, bytes: seq<Byte>, k: nat): M.World
    requires M.Start(w.part, i) + k <= |w.bytes| && k <= |bytes|
  {
    var start := M.Start(w.part, i);
    w.(bytes := w.bytes[..start] + bytes[..k] + w.bytes[start + k..])
  }

  lemma FilledNext(w: M.World, me: nat, i: nat, bytes: seq<Byte>, k: nat)
    requires M.Holds(w, me, i) && k < w.held[me][i].size && k < |bytes| && M.Start(w.part, i) + k < |w.bytes|
    ensures M.Enabled(Filled(w, i, bytes, k), M.Store(me, i, k, bytes[k]))
    ensures M.Do(Filled(w, i, bytes, k), M.Store(me, i, k, bytes[k])) == Filled(w, i, bytes, k + 1)
  {}

  /** Whatever parts the calls deliver, a read into a buffer is a sequence of stores of its thread. */
  lemma {:induction false} FillingMoves(w: M.World, me: nat, i: nat, bytes: seq<Byte>, k: nat, who: M.Who)
    requires M.Inv(w) && M.Holds(w, me, i) && k <= |bytes| == w.held[me][i].size && M.Acts(who, me)
    requires M.Start(w.part, i) + |bytes| <= |w.bytes|
    ensures M.Moves(w, Filled(w, i, bytes, k), who)
  {
    if k == 0 {
      assert Filled(w, i, bytes, 0).bytes == w.bytes;
      M.MovesNone(w, who);
    } else {
      FillingMoves(w, me, i, bytes, k - 1, who);
      FilledNext(w, me, i, bytes, k - 1);
      var w1 := Filled(w, i, bytes, k - 1);
      M.MovesOne(w1, M.Store(me, i, k - 1, bytes[k - 1]), who);
      M.MovesThen(w, w1, Filled(w, i, bytes, k), who);
    }
  }

  lemma OthersSame(w: M.World, me: nat, i: nat, bytes: seq<Byte>, j: nat)
    requires M.Inv(w) && M.Holds(w, me, i) && |bytes| == w.held[me][i].size && M.Holds(w, me, j) && j != i
    requires M.Start(w.part, i) + |bytes| <= |w.bytes|
    ensures M.Content(Filled(w, i, bytes, |bytes|), me, j) == M.Content(w, me, j)
  {
    M.PartsDisjoint(w.part, i, j, |bytes|, w.held[me][j].size, |w.busy|);
    var a := M.Start(w.part, i);
    var b := Filled(w, i, bytes, |bytes|).bytes;
    assert b[..a] == w.bytes[..a] && b[a + |bytes|..] == w.bytes[a + |bytes|..];
    SamePart(w.bytes, b, a, |bytes|, M.Start(w.part, j), w.held[me][j].size);
  }

  /** A change inside one range does not show in a disjoint one. */
  lemma SamePart(a: seq<Byte>, b: seq<Byte>, at: nat, size: nat, start: nat, len: nat)
    requires |a| == |b| && at + size <= |a| && start + len <= |a| && a[..at] == b[..at] && a[at + size..] == b[at + size..]
    requires start + len <= at || at + size <= start
    ensures a[start..start + len] == b[start..start + len]
  {
    if start + len <= at {
      assert a[start..start + len] == a[..at][start..start + len] && b[start..start + len] == b[..at][start..start + len];
    } else {
      var k := start - at - size;
      assert a[start..start + len] == a[at + size..][k..k + len] && b[start..start + len] == b[at + size..][k..k + len];
    }
  }

  lemma FilledIs(w: M.World, me: nat, i: nat, bytes: seq<Byte>)
    requires M.Inv(w) && M.Holds(w, me, i) && |bytes| == w.held[me][i].size && M.Start(w.part, i) + |bytes| <= |w.bytes|
    ensures var w' := Filled(w, i, bytes, |bytes|); P.ResetTo(w, w', me, i) && M.Content(w', me, i) == bytes
  {
    forall j: nat | M.Holds(w, me, j) && j != i
      ensures M.Content(Filled(w, i, bytes, |bytes|), me, j) == M.Content(w, me, j)
    {
      OthersSame(w, me, i, bytes, j);
    }
  }

  /** The body of a frame goes to a buffer of the caller; its other buffers keep their bytes. */
  method ReadBody(socket: Socket, pool: P.BufferPool, ghost me: nat, index: nat, size: nat, ghost alone: bool) returns (status: Status)
    requires pool.Valid() && M.Holds(pool.world, me, index) && pool.world.held[me][index].size == size && socket.Productive()
    modifies socket`incoming, socket`script, pool`world, pool.buffers
    ensures pool.Valid() && P.ResetTo(old(pool.world), pool.world, me, index)
    ensures M.Moves(old(pool.world), pool.world, P.Doers(me, alone))
    ensures socket.Productive() && status in {Done, Closed, Failed, Blocked}
    ensures status == Done ==> |old(socket.incoming)| >= size && socket.incoming == old(socket.incoming)[size..]
    ensures status == Done ==> M.Content(pool.world, me, index) == old(socket.incoming)[..size]
  {
    ghost var w := pool.world;
    M.PartInside(pool.bufferSize, index, pool.busy.Length);
    M.StartIsProduct(pool.bufferSize, index);
    var at := pool.bufferSize * index;
    status := socket.ReadExact(pool.buffers, at, size);
    ghost var bytes := pool.buffers[at..at + size];
    assert pool.buffers[..] == w.bytes[..at] + bytes + w.bytes[at + size..] by {
      assert pool.buffers[..] == pool.buffers[..at] + bytes + pool.buffers[at + size..];
    }
    FillingMoves(w, me, index, bytes, size, P.Doers(me, alone));
    FilledIs(w, me, index, bytes);
    pool.world := Filled(w, index, bytes, size);
    M.MovesInv(w, pool.world, P.Doers(me, alone));
  }

  /** `read_prefixed_size`. */
  method ReadPrefixedSize(socket: Socket) returns (status: Status, size: nat)
    requires socket.Productive()
    modifies socket`incoming, socket`script
    ensures socket.Productive() && size < U32
    ensures status == Done ==> |old(socket.incoming)| >= 4 && socket.incoming == old(socket.incoming)[4..]
    ensures status == Done ==> Prefix(size) == old(socket.incoming)[..4] && ReadPrefix(old(socket.incoming)[..4]) == size
  {
    var scratch := new Byte[4];
    status := socket.ReadExact(scratch, 0, 4);
    if status != Done { return status, 0; }
    assert scratch[..] == old(socket.incoming)[..4];
    size := ReadPrefix(scratch[..]);
    PrefixUnique(scratch[..]);
  }

  lemma GainedThenFreed(w: M.World, w1: M.World, me: nat, i: nat, size: nat)
    requires M.Inv(w1) && P.Gained(w, w1, me, i, size)
    ensures M.Enabled(w1, M.Clear(me, i)) && M.Kept(w, M.Do(w1, M.Clear(me, i)), me)
  {
    assert M.Holds(w1, me, i);
    var w2 := M.Do(w1, M.Clear(me, i));
    forall j: nat | M.Holds(w, me, j) ensures M.Content(w2, me, j) == M.Content(w, me, j) {
      assert M.Holds(w1, me, j) && M.Holds(w2, me, j);
    }
  }

  /** Allocation and reading, one after the other. */
  lemma FrameInBuffer(w: M.World, w1: M.World, w2: M.World, me: nat, i: nat, size: nat, who: M.Who)
    requires P.Gained(w, w1, me, i, size) && P.ResetTo(w1, w2, me, i) && M.Moves(w, w1, who) && M.Moves(w1, w2, who)
    ensures P.Gained(w, w2, me, i, size) && M.Moves(w, w2, who)
  {
    P.GainedThenReset(w, w1, w2, me, i, size);
    M.MovesThen(w, w1, w2, who);
  }

  /** A buffer for the body, filled or freed again. */
  method RecvBody(socket: Socket, pool: P.BufferPool, ghost me: nat, size: nat, ghost alone: bool) returns (r: Result<nat, Error>, ghost taken: M.World)
    requires pool.Valid() && me < |pool.world.held| && socket.Productive()
    modifies socket`incoming, socket`script, pool`world, pool.busy, pool.buffers
    ensures pool.Valid() && socket.Productive() && M.Moves(old(pool.world), pool.world, P.Doers(me, alone))
    ensures r.Ok? ==> M.Unowned(taken, r.value) && M.Moves(old(pool.world), taken, P.Doers(me, alone))
    ensures r.Ok? ==> P.Gained(old(pool.world), pool.world, me, r.value, size) && M.Holds(pool.world, me, r.value)
    ensures r.Ok? ==> |old(socket.incoming)| >= size && socket.incoming == old(socket.incoming)[size..]
    ensures r.Ok? ==> M.Content(pool.world, me, r.value) == old(socket.incoming)[..size]
    ensures r.Err? ==> M.Kept(old(pool.world), pool.world, me)
    ensures r.Err? && r.error.Pool? ==> socket.incoming == old(socket.incoming) && (r.error.error == P.SizeTooBig <==> size > pool.bufferSize)
  {
    ghost var w, who := pool.world, P.Doers(me, alone);
    var index;
    index, taken := pool.AllocateBuffer(me, size, alone);
    if index.Err? { return Err(Pool(index.error)), taken; }
    ghost var w1 := pool.world;
    assert M.Holds(w1, me, index.value);
    var status := ReadBody(socket, pool, me, index.value, size, alone);
    ghost var w2 := pool.world;
    FrameInBuffer(w, w1, w2, me, index.value, size, who);
    if status != Done {
      GainedThenFreed(w, w2, me, index.value, size);
      pool.FreeBuffer(me, index.value);
      M.MovesOne(w2, M.Clear(me, index.value), who);
      M.MovesThen(w, w2, pool.world, who);
      return Err(Io(status)), taken;
    }
    return Ok(index.value), taken;
  }

  /**
   The receiving half of `MsgIn::recv`: the next frame of the stream, in a buffer that was nobody's; when
   no buffer is left the frame's prefix is lost, and when the body does not arrive the buffer is freed.
   */
  method RecvFrame(socket: Socket, pool: P.BufferPool, ghost me: nat, ghost alone: bool)
    returns (r: Result<nat, Error>, size: nat, ghost taken: M.World)
    requires pool.Valid() && me < |pool.world.held| && socket.Productive()
    modifies socket`incoming, socket`script, pool`world, pool.busy, pool.buffers
    ensures pool.Valid() && socket.Productive() && M.Moves(old(pool.world), pool.world, P.Doers(me, alone)) && size < U32
    ensures r.Ok? ==> M.Unowned(taken, r.value) && M.Moves(old(pool.world), taken, P.Doers(me, alone))
    ensures r.Ok? ==> P.Gained(old(pool.world), pool.world, me, r.value, size) && M.Holds(pool.world, me, r.value)
    ensures r.Ok? ==> |M.Content(pool.world, me, r.value)| == size
    ensures r.Ok? ==> old(socket.incoming) == Frame(M.Content(pool.world, me, r.value)) + socket.incoming
    ensures r.Err? ==> M.Kept(old(pool.world), pool.world, me)
    ensures r.Err? && r.error.Pool? ==> |old(socket.incoming)| >= 4 && socket.incoming == old(socket.incoming)[4..]
    ensures r.Err? && r.error.Pool? ==> (r.error.error == P.SizeTooBig <==> ReadPrefix(old(socket.incoming)[..4]) > pool.bufferSize)
  {
    taken := pool.world;
    M.MovesNone(pool.world, P.Doers(me, alone));
    var status;
    status, size := ReadPrefixedSize(socket);
    if status != Done { return Err(Io(status)), size, taken; }
    r, taken := RecvBody(socket, pool, me, size, alone);
    if r.Ok? { FrameFirst(old(socket.incoming), size, M.Content(pool.world, me, r.value), socket.incoming); }
  }

  lemma FrameFirst(stream: seq<Byte>, size: nat, body: seq<Byte>, rest: seq<Byte>)
    requires |stream| >= 4 && size < U32 && Prefix(size) == stream[..4] && |stream[4..]| >= size
    requires body == stream[4..][..size] && rest == stream[4..][size..]
    ensures |body| == size && stream == Frame(body) + rest
  {
    assert stream == stream[..4] + (stream[4..][..size] + stream[4..][size..]);
  }
}
