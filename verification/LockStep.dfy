/**
 The whole system: the coordinator, any number of VMs and the FIFO sockets between them, with the
 steps of all parties interleaved arbitrarily and VMs free to die at any time.
 */
module LockStep {
  import opened Basics
  import opened WireTime
  import opened Coordinator
  import opened CoordinatorTheorems
  import O = OutputSide
  import V = VmsInterface

  /** In `Ended` the deadline handler gave up but the process lives and its socket is open. */
  datatype Phase = Boot | Running | Frozen | Ended | Dead

  /** A client: `heard` counts the deadlines it has taken in. */
  datatype Client = Client(phase: Phase, kvm: bool, out: O.Out, heard: nat)

  predicate Living(c: Client) { c.phase != Ended && c.phase != Dead }

  /**
   A client whose receive or deadline fails: `start` reports an error and the handlers of the process
   and plain QEMU timers return, all leaving the socket open; with KVM the handler panics.
   */
  function GivenUp(c: Client): Client {
    c.(phase := if c.kvm && c.phase != Boot then Dead else Ended)
  }

  /** The coordinator's receive buffer; a VM that sends a larger frame is cut off. */
  const SCRATCH_BUFFER_LEN: nat := 2048

  /**
   The coordinator is between rounds, or collecting from the VMs in `todo`: it reads the socket of one of
   them, `reading`, until that VM says that it is at the deadline or the socket is closed.
   */
  datatype Stage =
    | Idle
    | Collecting(nextEvent: Instant, todo: set<nat>, got: seq<OutputMsg>, gone: seq<nat>, reading: Option<nat>)

  /**
   `up` and `down` are the sockets, `gotos` all deadlines broadcast so far (auxiliary), `violated`
   records a packet received instead of the first deadline or a deadline that goes back, and `aborted`
   that the coordinator's causality assertion failed.
   */
  datatype State = State(
    coord: Coord,
    stage: Stage,
    clients: map<nat, Client>,
    up: map<nat, seq<V.Up>>,
    down: map<nat, seq<V.Down>>,
    gotos: seq<Instant>,
    violated: bool,
    aborted: bool)

  datatype Step =
    | Begin(nextEvent: Instant)
    | Visit(v: nat)                                              // the loop of `goTo` turns to v
    | Collect(v: nat)
    | Lose(v: nat)
    | Abort(ms: seq<OutputMsg>)
    | End(ms: seq<OutputMsg>, ends: seq<Instant>, outs: seq<OutputMsg>)
    | Hear(v: nat, room: bool)                                   // is there a buffer for the frame?
    | Send(v: nat, m: OutputMsg, queued: bool, frame: nat)       // the push of `send`; size of the frame to come
    | Flush(v: nat, allowed: nat)
    | Die(v: nat)

  ghost predicate Init(p: Platform, s: State) {
    var c := s.coord;
    && c.clock == 0.0 && c.pending == [] && c.trash == [] && c.sockets == c.hosts.Keys
    && c.collected == multiset{} && c.delivered == multiset{} && c.dropped == multiset{}
    && Deployed(c) && OneVmPerHost(c.hosts) && PlatformOk(p, c.hosts) && c.minLatency == MinLatency(p, c.actors)
    && s.stage == Idle && s.gotos == [] && !s.violated && !s.aborted
    && s.clients.Keys == s.up.Keys == s.down.Keys == c.hosts.Keys
    && forall v :: v in s.clients ==>
         s.up[v] == [] && s.down[v] == [] && s.clients[v].phase == Boot && s.clients[v].out == O.Out(0, 0, [], [])
         && s.clients[v].heard == 0
  }

  /** The deadline of the round in progress. */
  function Target(p: Platform, s: State): Instant
    requires s.stage.Collecting?
  {
    Deadline(Pruned(p, s.coord), s.stage.nextEvent)
  }

  function ToUp(msgs: seq<O.MsgOut>): seq<V.Up> {
    seq(|msgs|, i requires 0 <= i < |msgs| => if msgs[i].SendPacket? then V.SendPacket(msgs[i].m) else V.AtDeadline)
  }

  /** The frames for v among the delivered messages. */
  function For(outs: seq<OutputMsg>, v: nat): seq<V.Down> {
    if outs == [] then []
    else For(outs[..|outs| - 1], v) + if outs[|outs| - 1].dst == v then [V.DeliverPacket(outs[|outs| - 1])] else []
  }

  /** What `std::sort` may answer for what was collected. */
  predicate Sorting(s: State, ms: seq<OutputMsg>)
    requires s.stage.Collecting?
  {
    SortedByTime(ms) && multiset(ms) == multiset(s.stage.got)
  }

  /** The oracle and the sorting: what the simulator and `std::sort` may answer at the end of a round. */
  ghost predicate EndOk(p: Platform, s: State, ms: seq<OutputMsg>, ends: seq<Instant>, outs: seq<OutputMsg>)
    requires s.stage.Collecting?
  {
    var c, gone := s.coord, s.stage.gone;
    && Sorting(s, ms)
    && (forall m :: m in ms ==> m.src in c.hosts)
    && EndsOk(p, c.clock, ms, c.hosts, ends)
    && multiset(outs) == Arrived(c.pending + Launched(c.clock, ms, c.hosts, ends),
                                 RoundOf(p, c, s.stage.nextEvent, ms, gone, ends).clock, c.sockets - (set v | v in gone), true)
  }

  /**
   The packet is the client's, its frame fits, and with KVM it goes where the overrun check, done before
   and not overtaken, sent it.
   */
  predicate SendOk(c: Client, v: nat, m: OutputMsg, queued: bool, frame: nat) {
    && Living(c) && m.src == v && |m.payload| <= frame <= SCRATCH_BUFFER_LEN
    && (queued ==> c.kvm && O.Joins(c.out, c.phase != Running, m.sendTime))
    && (c.kvm && !queued ==> m.sendTime <= c.out.next)
  }

  ghost predicate Enabled(p: Platform, s: State, a: Step) {
    && s.clients.Keys == s.up.Keys == s.down.Keys == s.coord.hosts.Keys
    && match a
       case Begin(nextEvent) =>
         && s.stage.Idle? && s.coord.sockets != {} && EventOk(s.coord, nextEvent)
         && Dated(Deadline(Pruned(p, s.coord), nextEvent))
       case Visit(v) => s.stage.Collecting? && s.stage.reading.None? && v in s.stage.todo
       case Collect(v) => v in s.clients && s.stage.Collecting? && s.stage.reading == Some(v) && s.up[v] != []
       case Lose(v) =>
         v in s.clients && s.stage.Collecting? && s.stage.reading == Some(v) && s.up[v] == [] && s.clients[v].phase == Dead
       case Abort(ms) =>
         && s.stage.Collecting? && s.stage.todo == {} && !s.aborted
         && Sorting(s, ms) && !AllPass(s.coord.clock, ms, s.coord.hosts)
       case End(ms, ends, outs) =>
         && s.stage.Collecting? && s.stage.todo == {} && !s.aborted
         && EndOk(p, s, ms, ends, outs) && AllPass(s.coord.clock, ms, s.coord.hosts)
       case Hear(v, _) => v in s.clients && (s.clients[v].phase == Boot || s.clients[v].phase == Frozen) && s.down[v] != []
       case Send(v, m, queued, frame) => v in s.clients && SendOk(s.clients[v], v, m, queued, frame)
       case Flush(v, _) => v in s.clients && s.clients[v].phase == Running
       case Die(v) => v in s.clients
  }

  predicate Dated(d: Instant) { d.At? ==> d.t >= 0.0 }

  ghost function Do(p: Platform, s: State, a: Step): State
    requires Enabled(p, s, a)
  {
    match a
    case Begin(nextEvent) => DoBegin(p, s, nextEvent)
    case Visit(v) => s.(stage := s.stage.(reading := Some(v)))
    case Collect(v) => DoCollect(s, v)
    case Lose(v) => DoLose(s, v)
    case Abort(_) => s.(aborted := true)
    case End(ms, ends, outs) => DoEnd(p, s, ms, ends, outs)
    case Hear(v, room) => DoHear(s, v, room)
    case Send(v, m, queued, _) => DoSend(s, v, m, queued)
    case Flush(v, allowed) => DoFlush(s, v, allowed)
    case Die(v) => SetClient(s, v, s.clients[v].(phase := Dead))
  }

  function SetClient(s: State, v: nat, c: Client): State { s.(clients := s.clients[v := c]) }

  function DoSend(s: State, v: nat, m: OutputMsg, queued: bool): State
    requires v in s.clients
  {
    var c := s.clients[v];
    SetClient(s, v, if queued then c.(out := c.out.(upcoming := c.out.upcoming + [m]))
                    else c.(out := c.out.(outgoing := c.out.outgoing + [m])))
  }

  /** A round begins: the deadline goes to every connected VM. */
  function DoBegin(p: Platform, s: State, nextEvent: Instant): State
    requires Dated(Deadline(Pruned(p, s.coord), nextEvent))
  {
    var d := Deadline(Pruned(p, s.coord), nextEvent);
    s.(stage := Collecting(nextEvent, s.coord.sockets, [], [], None), gotos := s.gotos + [d],
       down := map v | v in s.down :: s.down[v] + if v in s.coord.sockets then [V.GotoDeadline(SimgridToVmTime(d))] else [])
  }

  /** The coordinator reads one frame. */
  function DoCollect(s: State, v: nat): State
    requires s.stage.Collecting? && v in s.up && s.up[v] != []
  {
    s.(up := s.up[v := s.up[v][1..]],
       stage := match s.up[v][0]
         case SendPacket(m) => s.stage.(got := s.stage.got + [m])
         case AtDeadline => s.stage.(todo := s.stage.todo - {v}, reading := None)
         case Malformed => s.stage)
  }

  /** The coordinator finds the socket closed. */
  function DoLose(s: State, v: nat): State
    requires s.stage.Collecting?
  {
    s.(stage := s.stage.(todo := s.stage.todo - {v}, gone := s.stage.gone + [v], reading := None))
  }

  /** All VMs reached the deadline or are gone: the network runs and finished messages are delivered. */
  ghost function DoEnd(p: Platform, s: State, ms: seq<OutputMsg>, ends: seq<Instant>, outs: seq<OutputMsg>): State
    requires s.stage.Collecting? && EndOk(p, s, ms, ends, outs)
  {
    s.(coord := RoundOf(p, s.coord, s.stage.nextEvent, ms, s.stage.gone, ends), stage := Idle,
       down := map v | v in s.down :: s.down[v] + For(outs, v))
  }

  /** A deadline strikes at a client; of its writes `allowed` succeed. */
  function DoFlush(s: State, v: nat, allowed: nat): State
    requires v in s.clients && v in s.up
  {
    var c := s.clients[v];
    var all := O.Sends(c.out);
    var ok := !O.Aborts(c.out) && |all| <= allowed;
    SetClient(s, v, if ok then c.(phase := Frozen, out := O.Flushed(c.out)) else GivenUp(c))
    .(up := s.up[v := s.up[v] + ToUp(all[..if |all| <= allowed then |all| else allowed])])
  }

  /** The client reads a frame, in `start` or at the end of `at_deadline`; without a buffer it cannot. */
  function DoHear(s: State, v: nat, room: bool): State
    requires v in s.clients && v in s.down && s.down[v] != []
  {
    var c := s.clients[v];
    var s1 := s.(down := s.down[v := s.down[v][1..]]);
    if !room then SetClient(s1, v, GivenUp(c))
    else
      match s.down[v][0]
      case DeliverPacket(_) =>
        if c.phase == Boot then SetClient(s1, v, GivenUp(c)).(violated := true) else s1
      case GotoDeadline(time) =>
        match Decode(time)
        case Err(_) => SetClient(s1, v, GivenUp(c))
        case Ok(d) =>
          SetClient(s1, v, c.(phase := Running, out := O.NextSlot(c.out, d), heard := c.heard + 1))
          .(violated := s.violated || d < c.out.next)
  }
}
