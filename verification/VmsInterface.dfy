/** The coordinator's side of the sockets: who is connected, broadcasting a deadline, collecting packets. */
module VmsInterface {
  import opened Basics
  import opened WireTime
  import opened Coordinator

  /** A frame read from a VM; the end of the frames is a closed socket. */
  datatype Up = SendPacket(m: OutputMsg) | AtDeadline | Malformed

  /** A frame written to a VM. */
  datatype Down = GotoDeadline(time: Wire) | DeliverPacket(m: OutputMsg)

  datatype Written = Written(vm: nat, frame: Down)

  /** The packets read from a VM before it says AtDeadline or goes away. */
  function PacketsOf(frames: seq<Up>): seq<OutputMsg> {
    if frames == [] || frames[0].AtDeadline? then []
    else (if frames[0].SendPacket? then [frames[0].m] else []) + PacketsOf(frames[1..])
  }

  /** The indices are in increasing order and below k. */
  predicate Increasing(at: seq<nat>, k: nat) {
    (forall j :: 0 <= j < |at| ==> at[j] < k) && forall i, j :: 0 <= i < j < |at| ==> at[i] < at[j]
  }

  /** The packets are those at the indices `at`, unchanged. */
  predicate PacketsAt(frames: seq<Up>, at: seq<nat>, k: nat, packets: seq<OutputMsg>) {
    && k <= |frames| && Increasing(at, k) && |at| == |packets|
    && forall j :: 0 <= j < |at| ==> frames[at[j]] == SendPacket(packets[j])
  }

  /** `at` leaves out no packet between lo and k. */
  predicate Covers(frames: seq<Up>, at: seq<nat>, lo: nat, k: nat) {
    k <= |frames| && forall i :: lo <= i < k && frames[i].SendPacket? ==> i in at
  }

  function Shifted(at: seq<nat>): seq<nat> { seq(|at|, j requires 0 <= j < |at| => at[j] + 1) }

  lemma ShiftPackets(frames: seq<Up>, k: nat, at: seq<nat>, packets: seq<OutputMsg>)
    requires frames != [] && PacketsAt(frames[1..], at, k, packets)
    ensures PacketsAt(frames, Shifted(at), k + 1, packets)
  {}

  lemma ShiftCovers(frames: seq<Up>, k: nat, at: seq<nat>)
    requires frames != [] && Covers(frames[1..], at, 0, k)
    ensures Covers(frames, Shifted(at), 1, k + 1)
  {
    forall i | 1 <= i < k + 1 && frames[i].SendPacket? ensures i in Shifted(at) {
      assert frames[1..][i - 1] == frames[i];
      var j :| 0 <= j < |at| && at[j] == i - 1;
      assert Shifted(at)[j] == i;
    }
  }

  /**
   With k the first AtDeadline, or the end: one packet for each index below k that holds one, in order and
   unchanged, and nothing else; `at` are these indices.
   */
  lemma {:induction false} PacketsAre(frames: seq<Up>, k: nat) returns (at: seq<nat>)
    requires k <= |frames| && (forall i :: 0 <= i < k ==> !frames[i].AtDeadline?) && (k == |frames| || frames[k].AtDeadline?)
    ensures PacketsAt(frames, at, k, PacketsOf(frames)) && Covers(frames, at, 0, k)
    decreases k
  {
    if k == 0 {
      at := [];
    } else {
      var rest := PacketsAre(frames[1..], k - 1);
      ShiftPackets(frames, k - 1, rest, PacketsOf(frames[1..]));
      ShiftCovers(frames, k - 1, rest);
      if frames[0].SendPacket? {
        at := [0] + Shifted(rest);
        FirstPacket(frames, k, Shifted(rest), PacketsOf(frames[1..]));
      } else {
        at := Shifted(rest);
      }
    }
  }

  lemma FirstPacket(frames: seq<Up>, k: nat, at: seq<nat>, packets: seq<OutputMsg>)
    requires 0 < k <= |frames| && frames[0].SendPacket? && PacketsAt(frames, at, k, packets) && Covers(frames, at, 1, k)
    requires forall j :: 0 <= j < |at| ==> at[j] > 0
    ensures PacketsAt(frames, [0] + at, k, [frames[0].m] + packets) && Covers(frames, [0] + at, 0, k)
  {
    forall i | 0 <= i < k && frames[i].SendPacket? ensures i in [0] + at {
      if i > 0 { assert i in at; }
    }
  }

  /** Does the VM reach the deadline? */
  predicate Reaches(frames: seq<Up>) { AtDeadline in frames }

  function FramesOf(inbox: map<nat, seq<Up>>, v: nat): seq<Up> {
    if v in inbox then inbox[v] else []
  }

  /** All packets, VM after VM. */
  function Gathered(order: seq<nat>, inbox: map<nat, seq<Up>>): seq<OutputMsg> {
    if order == [] then []
    else Gathered(order[..|order| - 1], inbox) + PacketsOf(FramesOf(inbox, order[|order| - 1]))
  }

  /** The VMs that went away, in the order they were read. */
  function GoneOf(order: seq<nat>, inbox: map<nat, seq<Up>>): seq<nat> {
    if order == [] then []
    else
      var v := order[|order| - 1];
      GoneOf(order[..|order| - 1], inbox) + if Reaches(FramesOf(inbox, v)) then [] else [v]
  }

  function Broadcast(order: seq<nat>, frame: Down): seq<Written> {
    seq(|order|, i requires 0 <= i < |order| => Written(order[i], frame))
  }

  ghost predicate Enumerates(order: seq<nat>, vms: set<nat>) {
    && (forall i, j :: 0 <= i < j < |order| ==> order[i] != order[j])
    && (set v | v in order) == vms
  }

  /** The packets of some VMs and then of others: none is repeated or left out. */
  lemma {:induction false} GatheredSplits(a: seq<nat>, b: seq<nat>, inbox: map<nat, seq<Up>>)
    ensures Gathered(a + b, inbox) == Gathered(a, inbox) + Gathered(b, inbox)
  {
    if b == [] {
      assert a + b == a;
    } else {
      var n := |b| - 1;
      GatheredSplits(a, b[..n], inbox);
      assert (a + b)[..|a + b| - 1] == a + b[..n] && (a + b)[|a + b| - 1] == b[n];
      Associates(Gathered(a, inbox), Gathered(b[..n], inbox), PacketsOf(FramesOf(inbox, b[n])));
    }
  }

  /** The same for the VMs that went away, in the order they were read. */
  lemma {:induction false} GoneSplits(a: seq<nat>, b: seq<nat>, inbox: map<nat, seq<Up>>)
    ensures GoneOf(a + b, inbox) == GoneOf(a, inbox) + GoneOf(b, inbox)
  {
    if b == [] {
      assert a + b == a;
    } else {
      var n := |b| - 1;
      GoneSplits(a, b[..n], inbox);
      assert (a + b)[..|a + b| - 1] == a + b[..n] && (a + b)[|a + b| - 1] == b[n];
      Associates(GoneOf(a, inbox), GoneOf(b[..n], inbox), if Reaches(FramesOf(inbox, b[n])) then [] else [b[n]]);
    }
  }

  /** One VM gives its packets, and is gone exactly without AtDeadline. */
  lemma GatheredOne(v: nat, inbox: map<nat, seq<Up>>)
    ensures Gathered([v], inbox) == PacketsOf(if v in inbox then inbox[v] else [])
    ensures GoneOf([v], inbox) == if v in inbox && AtDeadline in inbox[v] then [] else [v]
  {
    assert [v][..0] == [];
  }

  /** The frame goes to each VM once and to nobody else. */
  lemma BroadcastReaches(order: seq<nat>, vms: set<nat>, frame: Down, w: Written)
    requires Enumerates(order, vms)
    ensures multiset(Broadcast(order, frame))[w] == if w.frame == frame && w.vm in vms then 1 else 0
  {
    BroadcastCount(order, frame, w);
    OnceEach(order, w.vm);
    assert w.vm in order <==> w.vm in (set v | v in order);
  }

  lemma {:induction false} BroadcastCount(order: seq<nat>, frame: Down, w: Written)
    ensures multiset(Broadcast(order, frame))[w] == if w.frame == frame then multiset(order)[w.vm] else 0
  {
    if order != [] {
      var n := |order| - 1;
      BroadcastCount(order[..n], frame, w);
      assert order == order[..n] + [order[n]];
      assert Broadcast(order, frame) == Broadcast(order[..n], frame) + [Written(order[n], frame)];
    }
  }

  lemma {:induction false} OnceEach(order: seq<nat>, v: nat)
    requires forall i, j :: 0 <= i < j < |order| ==> order[i] != order[j]
    ensures multiset(order)[v] == if v in order then 1 else 0
  {
    if order != [] {
      var n := |order| - 1;
      OnceEach(order[..n], v);
      assert order == order[..n] + [order[n]];
    }
  }

  lemma {:induction false} GoneAre(order: seq<nat>, inbox: map<nat, seq<Up>>, v: nat)
    ensures v in GoneOf(order, inbox) <==> v in order && !Reaches(FramesOf(inbox, v))
  {
    if order != [] {
      GoneAre(order[..|order| - 1], inbox, v);
      assert order == order[..|order| - 1] + [order[|order| - 1]];
    }
  }

  lemma {:induction false} GatheredFrom(order: seq<nat>, inbox: map<nat, seq<Up>>, m: OutputMsg)
    ensures m in Gathered(order, inbox) <==> exists v :: v in order && m in PacketsOf(FramesOf(inbox, v))
  {
    if order != [] {
      var n := |order| - 1;
      GatheredFrom(order[..n], inbox, m);
      assert order == order[..n] + [order[n]];
      if m in Gathered(order[..n], inbox) {
        var v :| v in order[..n] && m in PacketsOf(FramesOf(inbox, v));
        assert v in order;
      } else if m in PacketsOf(FramesOf(inbox, order[n])) {
        assert order[n] in order;
      }
    }
  }

  // ---------------------------------------------------------------- sorting by time

  function Insert(m: OutputMsg, ms: seq<OutputMsg>): seq<OutputMsg> {
    if ms == [] || m.sendTime < ms[0].sendTime then [m] + ms else [ms[0]] + Insert(m, ms[1..])
  }

  function Sort(ms: seq<OutputMsg>): seq<OutputMsg> {
    if ms == [] then [] else Insert(ms[0], Sort(ms[1..]))
  }

  lemma {:induction false} InsertKeeps(m: OutputMsg, ms: seq<OutputMsg>)
    ensures multiset(Insert(m, ms)) == multiset(ms) + multiset{m}
    ensures forall x :: x in Insert(m, ms) ==> x == m || x in ms
  {
    if ms != [] && m.sendTime >= ms[0].sendTime {
      InsertKeeps(m, ms[1..]);
      assert ms == [ms[0]] + ms[1..];
    }
  }

  lemma {:induction false} InsertSorts(m: OutputMsg, ms: seq<OutputMsg>)
    requires SortedByTime(ms)
    ensures SortedByTime(Insert(m, ms))
  {
    if ms != [] && m.sendTime >= ms[0].sendTime {
      var rest := Insert(m, ms[1..]);
      InsertSorts(m, ms[1..]);
      InsertKeeps(m, ms[1..]);
      forall k | 0 <= k < |rest| ensures ms[0].sendTime <= rest[k].sendTime { assert rest[k] in rest; }
      SortedCons(ms[0], rest);
    } else {
      SortedCons(m, ms);
    }
  }

  lemma SortedCons(m: OutputMsg, rest: seq<OutputMsg>)
    requires SortedByTime(rest) && forall k :: 0 <= k < |rest| ==> m.sendTime <= rest[k].sendTime
    ensures SortedByTime([m] + rest)
  {}

  lemma {:induction false} SortSorts(ms: seq<OutputMsg>)
    ensures SortedByTime(Sort(ms)) && multiset(Sort(ms)) == multiset(ms)
  {
    if ms != [] {
      SortSorts(ms[1..]);
      InsertSorts(ms[0], Sort(ms[1..]));
      InsertKeeps(ms[0], Sort(ms[1..]));
      assert ms == [ms[0]] + ms[1..];
    }
  }

  class VmsInterface {
    const simulateUntilAnyStop: bool
    var aVmStopped: bool
    var vmSockets: set<nat>
    var vmSocketsTrash: seq<nat>
    var vmDeployments: map<nat, nat>
    var written: seq<Written>      // every frame sent, in order

    constructor (stopAtAnyStop: bool)
      ensures simulateUntilAnyStop == stopAtAnyStop && !aVmStopped
      ensures vmSockets == {} && vmSocketsTrash == [] && vmDeployments == map[] && written == []
    {
      simulateUntilAnyStop, aVmStopped := stopAtAnyStop, false;
      vmSockets, vmSocketsTrash, vmDeployments, written := {}, [], map[], [];
    }

    method RegisterVm(host: nat, vm: nat)
      modifies this`vmDeployments, this`vmSockets
      ensures vmDeployments == old(vmDeployments)[vm := host] && vmSockets == old(vmSockets) + {vm}
    {
      vmDeployments := vmDeployments[vm := host];
      vmSockets := vmSockets + {vm};
    }

    method VmActive() returns (active: bool)
      ensures active == if simulateUntilAnyStop then !aVmStopped else vmSockets != {}
    {
      active := (vmSockets != {} && !simulateUntilAnyStop) || (!aVmStopped && simulateUntilAnyStop);
    }

    method CloseVmSocket(vm: nat)
      modifies this`vmSocketsTrash, this`aVmStopped
      ensures vmSocketsTrash == old(vmSocketsTrash) + [vm] && aVmStopped
    {
      vmSocketsTrash := vmSocketsTrash + [vm];
      aVmStopped := true;
    }

    /** The inner loop of `goTo`: read one VM until AtDeadline or a failed receive. */
    method ReadVm(vm: nat, frames: seq<Up>, messages: seq<OutputMsg>) returns (messages': seq<OutputMsg>)
      modifies this`vmSocketsTrash, this`aVmStopped
      ensures messages' == messages + PacketsOf(frames)
      ensures vmSocketsTrash == old(vmSocketsTrash) + (if Reaches(frames) then [] else [vm])
      ensures aVmStopped == (old(aVmStopped) || !Reaches(frames))
    {
      messages' := messages;
      var i := 0;
      var finished := false;
      while !finished
        invariant i <= |frames|
        invariant !finished ==> messages' + PacketsOf(frames[i..]) == messages + PacketsOf(frames)
        invariant !finished ==> (Reaches(frames) <==> Reaches(frames[i..]))
        invariant finished ==> messages' == messages + PacketsOf(frames) && Reaches(frames)
        invariant vmSocketsTrash == old(vmSocketsTrash) && aVmStopped == old(aVmStopped)
        decreases |frames| - i, !finished
      {
        if i == |frames| {
          CloseVmSocket(vm);
          return;
        }
        assert frames[i..] == [frames[i]] + frames[i + 1..];
        match frames[i] {
          case AtDeadline => finished := true;
          case SendPacket(m) => messages' := messages' + [m];
          case Malformed =>
        }
        i := i + 1;
      }
    }

    /** `goTo`: the order in which the sockets are visited is that of a hash table. */
    method GoTo(deadline: Instant, inbox: map<nat, seq<Up>>) returns (messages: seq<OutputMsg>, order: seq<nat>)
      requires deadline.At? ==> deadline.t >= 0.0
      modifies this`vmSockets, this`vmSocketsTrash, this`aVmStopped, this`written
      ensures Enumerates(order, old(vmSockets))
      ensures written == old(written) + Broadcast(order, GotoDeadline(SimgridToVmTime(deadline)))
      ensures SortedByTime(messages) && multiset(messages) == multiset(Gathered(order, inbox))
      ensures vmSocketsTrash == GoneOf(order, inbox)
      ensures vmSockets == old(vmSockets) - (set v | v in GoneOf(order, inbox))
      ensures aVmStopped == (old(aVmStopped) || GoneOf(order, inbox) != [])
    {
      vmSocketsTrash := [];
      order := OrderOf(vmSockets);
      var time := SimgridToVmTime(deadline);
      for i := 0 to |order|
        invariant written == old(written) + Broadcast(order[..i], GotoDeadline(time))
        invariant vmSockets == old(vmSockets) && vmSocketsTrash == [] && aVmStopped == old(aVmStopped)
      {
        written := written + [Written(order[i], GotoDeadline(time))];
      }
      assert order[..|order|] == order;
      var collected := [];
      for i := 0 to |order|
        invariant collected == Gathered(order[..i], inbox) && vmSocketsTrash == GoneOf(order[..i], inbox)
        invariant aVmStopped == (old(aVmStopped) || vmSocketsTrash != [])
        invariant vmSockets == old(vmSockets) && written == old(written) + Broadcast(order, GotoDeadline(time))
      {
        assert order[..i + 1][..i] == order[..i];
        collected := ReadVm(order[i], FramesOf(inbox, order[i]), collected);
      }
      vmSockets := vmSockets - (set v | v in vmSocketsTrash);
      messages := Sort(collected);
      SortSorts(collected);
    }

    method OrderOf(vms: set<nat>) returns (order: seq<nat>)
      ensures Enumerates(order, vms)
    {
      order := [];
      var todo := vms;
      while todo != {}
        invariant Enumerates(order, vms - todo) && todo <= vms
        decreases |todo|
      {
        var v :| v in todo;
        assert (set x | x in order + [v]) == (set x | x in order) + {v};
        assert vms - (todo - {v}) == (vms - todo) + {v};
        order := order + [v];
        todo := todo - {v};
      }
    }

    /** `getHostOfVm`: None for a VM that was never registered. */
    function HostOfVm(vm: nat): Option<nat>
      reads this`vmDeployments
    {
      if vm in vmDeployments then Some(vmDeployments[vm]) else None
    }

    /** `get_dead_vm_hosts`. */
    method GetDeadVmHosts() returns (dead: seq<Option<nat>>)
      ensures |dead| == |vmSocketsTrash|
      ensures forall i :: 0 <= i < |dead| ==> dead[i] == HostOfVm(vmSocketsTrash[i])
    {
      dead := [];
      for i := 0 to |vmSocketsTrash|
        invariant |dead| == i
        invariant forall j :: 0 <= j < i ==> dead[j] == HostOfVm(vmSocketsTrash[j])
      {
        dead := dead + [HostOfVm(vmSocketsTrash[i])];
      }
    }

    /** `deliverMessage`: a message for a VM that stopped is dropped. */
    method DeliverMessage(m: OutputMsg) returns (delivered: bool)
      modifies this`written
      ensures delivered == (m.dst in vmSockets)
      ensures written == if delivered then old(written) + [Written(m.dst, DeliverPacket(m))] else old(written)
    {
      delivered := m.dst in vmSockets;
      if delivered { written := written + [Written(m.dst, DeliverPacket(m))]; }
    }
  }
}
