/**
 The buffer pool as its threads see it: one array cut into equal parts, one busy flag per part, and for
 each thread the buffers it holds.  The steps are the atomic accesses; nothing in them looks at who
 holds what.
 */
module PoolMachine {
  import opened Basics

  // ---------------------------------------------------------------- parts of the array

  /** Where the part of buffer `index` begins: `part * index`, as a sum. */
  function Start(part: nat, index: nat): nat {
    if index == 0 then 0 else Start(part, index - 1) + part
  }

  lemma {:induction false} StartIsProduct(part: nat, index: nat)
    ensures Start(part, index) == part * index
  {
    if index > 0 {
      StartIsProduct(part, index - 1);
      assert part * index == part * (index - 1) + part;
    }
  }

  lemma {:induction false} PartInside(part: nat, index: nat, n: nat)
    requires index < n
    ensures Start(part, index) + part <= Start(part, n)
  {
    if index + 1 < n { PartInside(part, index, n - 1); }
  }

  /** The byte ranges of two different buffers lie inside the array and are disjoint. */
  lemma PartsDisjoint(part: nat, i: nat, j: nat, sizeI: nat, sizeJ: nat, n: nat)
    requires i != j && i < n && j < n && sizeI <= part && sizeJ <= part
    ensures Start(part, i) + sizeI <= Start(part, n) && Start(part, j) + sizeJ <= Start(part, n)
    ensures Start(part, i) + sizeI <= Start(part, j) || Start(part, j) + sizeJ <= Start(part, i)
  {
    PartInside(part, i, n);
    PartInside(part, j, n);
    if i < j { PartInside(part, i, j); } else { PartInside(part, j, i); }
  }

  /** The same for the ranges as `buffer_bounds` computes them. */
  lemma BoundsDisjoint(part: nat, i: nat, j: nat, sizeI: nat, sizeJ: nat, n: nat)
    requires i != j && i < n && j < n && sizeI <= part && sizeJ <= part
    ensures part * i + sizeI <= part * n && part * j + sizeJ <= part * n
    ensures part * i + sizeI <= part * j || part * j + sizeJ <= part * i
  {
    PartsDisjoint(part, i, j, sizeI, sizeJ, n);
    StartIsProduct(part, i);
    StartIsProduct(part, j);
    StartIsProduct(part, n);
  }

  // ---------------------------------------------------------------- the machine

  /** A live buffer in the hands of a thread, with its size; `given` if another thread passed it on. */
  datatype Grip = Grip(size: nat, given: bool)

  /** `held[t]` has the live buffers of thread t. */
  datatype World = World(part: nat, busy: seq<bool>, bytes: seq<Byte>, held: seq<map<nat, Grip>>)

  datatype Step =
    | Swap(t: nat, i: nat, size: nat)          // `slot.swap(true)`: a clear flag gives thread t the buffer
    | Store(t: nat, i: nat, k: nat, b: Byte)   // a store through the slice of `get_mut`
    | Give(t: nat, u: nat, i: nat)             // a live buffer is moved to thread u
    | Clear(t: nat, i: nat)                    // drop: the flag is cleared

  predicate Enabled(w: World, a: Step) {
    && a.t < |w.held|
    && match a
       case Swap(_, i, size) => i < |w.busy| && size <= w.part
       case Store(t, i, k, _) => i in w.held[t] && k < w.held[t][i].size && Start(w.part, i) + k < |w.bytes|
       case Give(t, u, i) => u < |w.held| && u != t && i in w.held[t]
       case Clear(t, i) => i in w.held[t] && i < |w.busy|
  }

  function Do(w: World, a: Step): World
    requires Enabled(w, a)
  {
    match a
    case Swap(t, i, size) =>
      if w.busy[i] then w else w.(busy := w.busy[i := true], held := w.held[t := w.held[t] + map[i := Grip(size, false)]])
    case Store(t, i, k, b) => w.(bytes := w.bytes[Start(w.part, i) + k := b])
    case Give(t, u, i) =>
      w.(held := w.held[t := w.held[t] - {i}][u := w.held[u] + map[i := Grip(w.held[t][i].size, true)]])
    case Clear(t, i) => w.(busy := w.busy[i := false], held := w.held[t := w.held[t] - {i}])
  }

  predicate Holds(w: World, t: nat, i: nat) { t < |w.held| && i in w.held[t] }

  /** What thread t reads in its buffer i. */
  function Content(w: World, t: nat, i: nat): seq<Byte>
    requires Holds(w, t, i)
  {
    var start := Start(w.part, i);
    if start + w.held[t][i].size <= |w.bytes| then w.bytes[start..start + w.held[t][i].size] else []
  }

  ghost predicate Unowned(w: World, i: nat) { forall t: nat :: !Holds(w, t, i) }

  /** Buffers fit their part, a flag is set exactly for the buffers held, and none is held twice. */
  ghost predicate Inv(w: World) {
    && |w.bytes| == Start(w.part, |w.busy|)
    && (forall t: nat, i: nat :: Holds(w, t, i) ==> i < |w.busy| && w.busy[i] && w.held[t][i].size <= w.part)
    && (forall t: nat, u: nat, i: nat :: Holds(w, t, i) && Holds(w, u, i) ==> t == u)
    && (forall i: nat :: i < |w.busy| && w.busy[i] ==> !Unowned(w, i))
  }

  lemma HoldsAfter(w: World, a: Step, t: nat, i: nat)
    requires Enabled(w, a)
    ensures Holds(Do(w, a), t, i) <==>
      || (Holds(w, t, i) && !((a.Clear? || a.Give?) && a.t == t && a.i == i))
      || (a.Swap? && a.t == t && a.i == i && !w.busy[i])
      || (a.Give? && a.u == t && a.i == i)
    ensures Holds(Do(w, a), t, i) && Holds(w, t, i) && Inv(w) ==> Do(w, a).held[t][i] == w.held[t][i]
  {
    if a.Give? { assert Holds(w, a.t, a.i); }
  }

  /** A buffer that is moved leaves one thread for the other with its size and bytes. */
  lemma GiveMoves(w: World, t: nat, u: nat, i: nat)
    requires Enabled(w, Give(t, u, i))
    ensures var w' := Do(w, Give(t, u, i)); !Holds(w', t, i) && Holds(w', u, i) && Content(w', u, i) == Content(w, t, i)
  {}

  lemma HeldFits(w: World, a: Step, t: nat, i: nat)
    requires Inv(w) && Enabled(w, a) && Holds(Do(w, a), t, i)
    ensures i < |w.busy| && Do(w, a).busy[i] && Do(w, a).held[t][i].size <= w.part
  {
    HoldsAfter(w, a, t, i);
    if a.Clear? || a.Give? { assert Holds(w, a.t, a.i); }
  }

  lemma StepInv(w: World, a: Step)
    requires Inv(w) && Enabled(w, a)
    ensures Inv(Do(w, a))
  {
    var w' := Do(w, a);
    forall t: nat, i: nat | Holds(w', t, i) ensures i < |w'.busy| && w'.busy[i] && w'.held[t][i].size <= w'.part {
      HeldFits(w, a, t, i);
    }
    forall t: nat, u: nat, i: nat | Holds(w', t, i) && Holds(w', u, i) ensures t == u {
      HoldsAfter(w, a, t, i);
      HoldsAfter(w, a, u, i);
      if a.Give? { assert Holds(w, a.t, a.i); }
    }
    forall i: nat | i < |w'.busy| && w'.busy[i] ensures !Unowned(w', i) {
      StaysOwned(w, a, i);
    }
  }

  lemma StaysOwned(w: World, a: Step, i: nat)
    requires Inv(w) && Enabled(w, a) && i < |Do(w, a).busy| && Do(w, a).busy[i]
    ensures !Unowned(Do(w, a), i)
  {
    var w' := Do(w, a);
    if w.busy[i] {
      var t: nat :| Holds(w, t, i);
      assert Holds(w', if a.Give? && a.i == i && a.t == t then a.u else t, i);
    } else {
      assert Holds(w', a.t, i);
    }
  }

  /** Thread `me` holds all it held and, apart from the buffers in `own`, more only by gift. */
  ghost predicate Grown(w: World, w': World, me: nat, own: set<nat>) {
    && |w'.held| == |w.held| && me < |w.held|
    && (forall i: nat :: Holds(w, me, i) ==> Holds(w', me, i) && w'.held[me][i] == w.held[me][i])
    && (forall i: nat :: Holds(w', me, i) && !Holds(w, me, i) && i !in own ==> w'.held[me][i].given)
  }

  /** Thread `me` holds what it held and reads there what it read; what it holds more was given to it. */
  ghost predicate Kept(w: World, w': World, me: nat) {
    && Grown(w, w', me, {})
    && forall i: nat :: Holds(w, me, i) ==> Content(w', me, i) == Content(w, me, i)
  }

  lemma ElsewhereSame(w: World, t: nat, i: nat, k: nat, b: Byte, me: nat, j: nat)
    requires Inv(w) && Enabled(w, Store(t, i, k, b)) && Holds(w, me, j) && j != i
    ensures Content(Do(w, Store(t, i, k, b)), me, j) == Content(w, me, j)
  {
    assert Holds(w, t, i);
    PartsDisjoint(w.part, i, j, w.held[t][i].size, w.held[me][j].size, |w.busy|);
  }

  /** A step of another thread leaves this thread all it holds, and adds only what it gives. */
  lemma StepGrows(w: World, a: Step, me: nat)
    requires Inv(w) && Enabled(w, a) && me < |w.held| && a.t != me
    ensures Grown(w, Do(w, a), me, {})
  {
    forall i: nat | Holds(w, me, i) ensures Holds(Do(w, a), me, i) && Do(w, a).held[me][i] == w.held[me][i] { HoldsAfter(w, a, me, i); }
    forall i: nat | Holds(Do(w, a), me, i) && !Holds(w, me, i) ensures Do(w, a).held[me][i].given { HoldsAfter(w, a, me, i); }
  }

  /** No step of another thread touches what this thread holds. */
  lemma StepSpares(w: World, a: Step, me: nat)
    requires Inv(w) && Enabled(w, a) && me < |w.held| && a.t != me
    ensures Kept(w, Do(w, a), me)
  {
    StepGrows(w, a, me);
    if a.Store? {
      forall j: nat | Holds(w, me, j) ensures Content(Do(w, a), me, j) == Content(w, me, j) {
        assert Holds(w, a.t, a.i);
        ElsewhereSame(w, a.t, a.i, a.k, a.b, me, j);
      }
    }
  }

  lemma GrownThenGrown(w: World, w1: World, w2: World, me: nat, own1: set<nat>, own2: set<nat>)
    requires Grown(w, w1, me, own1) && Grown(w1, w2, me, own2)
    ensures Grown(w, w2, me, own1 + own2)
  {
    forall i: nat | Holds(w2, me, i) && !Holds(w, me, i) && i !in own1 + own2 ensures w2.held[me][i].given {
      if Holds(w1, me, i) { assert w1.held[me][i].given; }
    }
  }

  lemma KeptThenKept(w: World, w1: World, w2: World, me: nat)
    requires Kept(w, w1, me) && Kept(w1, w2, me)
    ensures Kept(w, w2, me)
  {
    GrownThenGrown(w, w1, w2, me, {}, {});
    forall j: nat | Holds(w, me, j) ensures Content(w2, me, j) == Content(w, me, j) { assert Holds(w1, me, j); }
  }

  // ---------------------------------------------------------------- every interleaving

  /** Which threads act. */
  datatype Who = Just(me: nat) | Others(me: nat) | Anyone

  predicate Acts(who: Who, t: nat) {
    match who
    case Just(me) => t == me
    case Others(me) => t != me
    case Anyone => true
  }

  /** From path[0] to the end of the path by steps of the threads in `who`. */
  ghost predicate Path(path: seq<World>, acts: seq<Step>, who: Who) {
    && |path| == |acts| + 1
    && forall i :: 0 <= i < |acts| ==> Acts(who, acts[i].t) && Enabled(path[i], acts[i]) && path[i + 1] == Do(path[i], acts[i])
  }

  ghost predicate Moves(w: World, w': World, who: Who) {
    exists path: seq<World>, acts: seq<Step> :: Path(path, acts, who) && path[0] == w && path[|acts|] == w'
  }

  lemma {:induction false} PathInv(path: seq<World>, acts: seq<Step>, who: Who, i: nat)
    requires Path(path, acts, who) && Inv(path[0]) && i < |path|
    ensures Inv(path[i]) && |path[i].held| == |path[0].held| && |path[i].busy| == |path[0].busy| && path[i].part == path[0].part
  {
    if i > 0 {
      PathInv(path, acts, who, i - 1);
      StepInv(path[i - 1], acts[i - 1]);
    }
  }

  /**
   Whatever other threads do, in any interleaving, this thread's buffers stay its own and unchanged, and
   it gets others only by gift.
   */
  lemma {:induction false} RelyOn(path: seq<World>, acts: seq<Step>, who: Who, me: nat, i: nat)
    requires Path(path, acts, who) && Inv(path[0]) && i < |path| && me < |path[0].held| && !Acts(who, me)
    ensures Inv(path[i]) && Kept(path[0], path[i], me)
  {
    PathInv(path, acts, who, i);
    if i > 0 {
      RelyOn(path, acts, who, me, i - 1);
      PathInv(path, acts, who, i - 1);
      StepSpares(path[i - 1], acts[i - 1], me);
      KeptThenKept(path[0], path[i - 1], path[i], me);
    }
  }

  /** All threads start with no buffer. */
  predicate Init(w: World) {
    && |w.bytes| == Start(w.part, |w.busy|)
    && (forall i :: 0 <= i < |w.busy| ==> !w.busy[i])
    && (forall t :: 0 <= t < |w.held| ==> w.held[t] == map[])
  }

  /**
   In every interleaving, gifts included, each index has at most one live buffer, held by one thread,
   inside the array and apart from all others.
   */
  lemma OwnersApart(path: seq<World>, acts: seq<Step>, who: Who, n: nat, t: nat, i: nat, u: nat, j: nat)
    requires Path(path, acts, who) && Init(path[0]) && n < |path|
    requires Holds(path[n], t, i) && Holds(path[n], u, j)
    ensures i == j ==> t == u
    ensures var w := path[n]; var a, b := Start(w.part, i), Start(w.part, j);
      && a + w.held[t][i].size <= |w.bytes| && b + w.held[u][j].size <= |w.bytes|
      && (i != j ==> a + w.held[t][i].size <= b || b + w.held[u][j].size <= a)
  {
    assert forall v: nat, k: nat :: !Holds(path[0], v, k);
    PathInv(path, acts, who, n);
    var w := path[n];
    PartInside(w.part, i, |w.busy|);
    PartInside(w.part, j, |w.busy|);
    if i != j { PartsDisjoint(w.part, i, j, w.held[t][i].size, w.held[u][j].size, |w.busy|); }
  }

  // ---------------------------------------------------------------- moves

  lemma MovesInv(w: World, w': World, who: Who)
    requires Inv(w) && Moves(w, w', who)
    ensures Inv(w') && |w'.held| == |w.held| && |w'.busy| == |w.busy| && w'.part == w.part
  {
    var path: seq<World>, acts: seq<Step> :| Path(path, acts, who) && path[0] == w && path[|acts|] == w';
    PathInv(path, acts, who, |acts|);
  }

  /** The guarantee to a bystander: moves of others keep its buffers. */
  lemma MovesKeep(w: World, w': World, who: Who, me: nat)
    requires Inv(w) && Moves(w, w', who) && me < |w.held| && !Acts(who, me)
    ensures Inv(w') && Kept(w, w', me)
  {
    var path: seq<World>, acts: seq<Step> :| Path(path, acts, who) && path[0] == w && path[|acts|] == w';
    RelyOn(path, acts, who, me, |acts|);
  }

  lemma MovesNone(w: World, who: Who)
    ensures Moves(w, w, who)
  {
    assert Path([w], [], who);
  }

  lemma MovesOne(w: World, a: Step, who: Who)
    requires Enabled(w, a) && Acts(who, a.t)
    ensures Moves(w, Do(w, a), who)
  {
    var path, acts := [w, Do(w, a)], [a];
    assert Path(path, acts, who) && path[0] == w && path[|acts|] == Do(w, a);
  }

  lemma MovesMore(w: World, w': World, less: Who, more: Who)
    requires Moves(w, w', less) && forall t: nat :: Acts(less, t) ==> Acts(more, t)
    ensures Moves(w, w', more)
  {
    var path: seq<World>, acts: seq<Step> :| Path(path, acts, less) && path[0] == w && path[|acts|] == w';
    assert Path(path, acts, more);
  }

  lemma MovesThen(w: World, w1: World, w2: World, who: Who)
    requires Moves(w, w1, who) && Moves(w1, w2, who)
    ensures Moves(w, w2, who)
  {
    var p1: seq<World>, a1: seq<Step> :| Path(p1, a1, who) && p1[0] == w && p1[|a1|] == w1;
    var p2: seq<World>, a2: seq<Step> :| Path(p2, a2, who) && p2[0] == w1 && p2[|a2|] == w2;
    var path, acts := p1 + p2[1..], a1 + a2;
    forall i | 0 <= i < |acts| ensures Acts(who, acts[i].t) && Enabled(path[i], acts[i]) && path[i + 1] == Do(path[i], acts[i]) {
      if i < |a1| {
        assert path[i] == p1[i] && path[i + 1] == p1[i + 1] && acts[i] == a1[i];
      } else {
        assert path[i] == p2[i - |a1|] && path[i + 1] == p2[i - |a1| + 1] && acts[i] == a2[i - |a1|];
      }
    }
    assert Path(path, acts, who) && path[0] == w && path[|acts|] == w2;
  }
}
