/** Who keeps a connection alive: TcpServer.cpp together with the parts of TcpConnetion.cpp,
    Channel.cpp, EventLoop.cpp and EpollPoller.cpp that create, pass on and drop references.

    The machine has one main loop (number 0) and any number of io loops, each cycling through
    poll, handlers and a batch of functors, interleaved in every way. A connection lives as
    long as something refers to it: the server's map, a functor that is queued or in the
    current batch, the guard of a running handler, a callback's argument, or user code. Its
    descriptor is closed when the last reference goes. */
module Servers {
  import opened Lifecycle
  import opened Names
  import opened Pools

  datatype Option<T> = None | Some(value: T)

  /** connectEstablished, removeConnectionInLoop, connectDestroyed, and user callbacks. */
  datatype Kind = Establishing | Removing | Destroying | Notifying

  /** A functor and the connection it holds. */
  datatype Task = Task(kind: Kind, conn: nat)

  datatype Phase =
    | Polling
    | Handling(active: seq<nat>, busy: bool)   // active[0] is being handled when busy
    | Running

  /** `ran` are the functors of the batch already called: the batch vector, and so what they
      hold, goes only when the whole batch is done. `channels` and `kernel` map descriptors
      to connections. */
  datatype Loop = Loop(
    phase: Phase, ran: seq<Task>, batch: seq<Task>, queue: seq<Task>,
    channels: map<int, nat>, kernel: map<int, nat>)

  datatype Peer = Peer(loop: nat, fd: int, life: Life, added: bool)

  /** `removing` is the connection the main thread has erased from the map and is about to
      queue connectDestroyed for. `erased` records what was ever erased. */
  datatype State = State(
    loops: seq<Loop>, conns: seq<Peer>, connections: map<string, nat>, next: nat,
    users: set<nat>, removing: Option<nat>, erased: set<nat>)

  datatype Config = Config(name: string, ipPort: string)

  const IDLE_LOOP := Loop(Polling, [], [], [], map[], map[])

  function Init(ioLoops: nat): State {
    State(seq(ioLoops + 1, i => IDLE_LOOP), [], map[], 0, {}, None, {})
  }

  /** Connection number `c`, from zero, has id c + 1. */
  function Name(cfg: Config, c: nat): string {
    ConnName(cfg.name, cfg.ipPort, c + 1)
  }

  function Pend(L: Loop): seq<Task> {
    L.batch + L.queue
  }

  // ----- references -----

  predicate Mentions(q: seq<Task>, c: nat) {
    || Task(Establishing, c) in q || Task(Removing, c) in q
    || Task(Destroying, c) in q || Task(Notifying, c) in q
  }

  predicate LoopHolds(L: Loop, c: nat) {
    || Mentions(L.ran, c) || Mentions(L.batch, c) || Mentions(L.queue, c)
    || (L.phase.Handling? && L.phase.busy && L.phase.active != [] && L.phase.active[0] == c)
  }

  predicate InMap(cfg: Config, s: State, c: nat) {
    Name(cfg, c) in s.connections && s.connections[Name(cfg, c)] == c
  }

  predicate Held(cfg: Config, s: State, c: nat) {
    || InMap(cfg, s, c)
    || c in s.users
    || s.removing == Some(c)
    || exists l :: 0 <= l < |s.loops| && LoopHolds(s.loops[l], c)
  }

  // ----- the pieces of a step -----

  function SetLoop(s: State, l: nat, L: Loop): State
    requires l < |s.loops|
  {
    s.(loops := s.loops[l := L])
  }

  function SetPeer(s: State, c: nat, p: Peer): State
    requires c < |s.conns|
  {
    s.(conns := s.conns[c := p])
  }

  function PushTo(s: State, l: nat, t: Task): State
    requires l < |s.loops|
  {
    SetLoop(s, l, s.loops[l].(queue := s.loops[l].queue + [t]))
  }

  predicate Known(s: State, c: nat) {
    c < |s.conns| && s.conns[c].loop < |s.loops|
  }

  /** Channel::update with some interest set: a new channel enters both maps. */
  function Register(s: State, c: nat): State
    requires Known(s, c)
  {
    var p := s.conns[c];
    var L := s.loops[p.loop];
    if p.added then s
    else SetPeer(SetLoop(s, p.loop, L.(channels := L.channels[p.fd := c], kernel := L.kernel[p.fd := c])),
                 c, p.(added := true))
  }

  /** Channel::remove: the descriptor leaves the poller's map, and the kernel if it was in. */
  function Unregister(s: State, c: nat): State
    requires Known(s, c)
  {
    var p := s.conns[c];
    var L := s.loops[p.loop];
    SetPeer(SetLoop(s, p.loop, L.(channels := L.channels - {p.fd}, kernel := if p.added then L.kernel - {p.fd} else L.kernel)),
            c, p.(added := false))
  }

  function SetLife(s: State, c: nat, life: Life): State
    requires c < |s.conns|
  {
    SetPeer(s, c, s.conns[c].(life := life))
  }

  /** The first half of removeConnectionInLoop. */
  function BeginRemove(cfg: Config, s: State, c: nat): State {
    s.(connections := s.connections - {Name(cfg, c)}, removing := Some(c), erased := s.erased + {c})
  }

  function ConnectEstablished(s: State, c: nat): State
    requires Known(s, c)
  {
    Register(SetLife(s, c, Connected), c)
  }

  function ConnectDestroyed(s: State, c: nat): State
    requires Known(s, c)
  {
    var s1 := if s.conns[c].life.Connected? then Register(SetLife(s, c, Disconnected), c) else s;
    Unregister(s1, c)
  }

  function RunKind(cfg: Config, s: State, t: Task): State
    requires Known(s, t.conn)
  {
    match t.kind
    case Establishing => ConnectEstablished(s, t.conn)
    case Removing => BeginRemove(cfg, s, t.conn)
    case Destroying => ConnectDestroyed(s, t.conn)
    case Notifying => s
  }

  /** The io loop the pool gives the next connection. */
  function Placement(s: State): nat {
    if |s.loops| <= 1 then 0 else 1 + s.next
  }

  // ----- the steps -----

  datatype Action =
    | Accept(fd: int)                       // the acceptor's handler on the main loop
    | PollReturn(l: nat, active: seq<nat>)
    | StartEvent(l: nat)                    // tie_.lock()
    | CloseEvent(l: nat)                    // handleClose from the running handler
    | EndEvent(l: nat)
    | SwapBatch(l: nat)
    | RunTask(l: nat)
    | EndBatch(l: nat)
    | FinishRemove                          // removeConnectionInLoop queues connectDestroyed
    | QueueNotify(c: nat)                   // a send queues a callback
    | ShutdownCall(c: nat)
    | Keep(c: nat)                          // user code copies the pointer
    | Release(c: nat)
    | Arm(c: nat)                           // a send from some callback of its loop arms the channel

  /** The thread of loop `l` is not in the middle of removeConnectionInLoop. */
  predicate Free(s: State, l: nat) {
    l < |s.loops| && (l == 0 ==> s.removing.None?)
  }

  predicate Reported(s: State, l: nat, c: nat)
    requires l < |s.loops|
  {
    c < |s.conns| && s.conns[c].fd in s.loops[l].kernel && s.loops[l].kernel[s.conns[c].fd] == c
  }

  predicate FreshFd(cfg: Config, s: State, fd: int) {
    forall c :: 0 <= c < |s.conns| && Held(cfg, s, c) ==> s.conns[c].fd != fd
  }

  predicate Enabled(cfg: Config, s: State, a: Action) {
    match a
    case Accept(fd) =>
      && Free(s, 0) && s.loops[0].phase.Handling? && !s.loops[0].phase.busy
      && FreshFd(cfg, s, fd) && |s.conns| + 2 < INT_LIMIT && Placement(s) < |s.loops|
    case PollReturn(l, active) =>
      Free(s, l) && s.loops[l].phase.Polling? && forall i :: 0 <= i < |active| ==> Reported(s, l, active[i])
    case StartEvent(l) =>
      Free(s, l) && s.loops[l].phase.Handling? && !s.loops[l].phase.busy && s.loops[l].phase.active != []
    case CloseEvent(l) =>
      && Free(s, l) && s.loops[l].phase.Handling? && s.loops[l].phase.busy
      && s.loops[l].phase.active != [] && Known(s, s.loops[l].phase.active[0])
    case EndEvent(l) =>
      Free(s, l) && s.loops[l].phase.Handling? && s.loops[l].phase.busy && s.loops[l].phase.active != []
    case SwapBatch(l) =>
      Free(s, l) && s.loops[l].phase == Handling([], false)
    case RunTask(l) =>
      Free(s, l) && s.loops[l].phase.Running? && s.loops[l].batch != [] && Known(s, s.loops[l].batch[0].conn)
    case EndBatch(l) =>
      Free(s, l) && s.loops[l].phase.Running? && s.loops[l].batch == []
    case FinishRemove => s.removing.Some? && Known(s, s.removing.value)
    case QueueNotify(c) => Known(s, c) && Held(cfg, s, c) && !s.conns[c].life.Connecting?
    case ShutdownCall(c) => Known(s, c) && Held(cfg, s, c)
    case Keep(c) => Known(s, c) && Held(cfg, s, c) && !s.conns[c].life.Connecting?
    case Release(c) => true
    case Arm(c) =>
      && Known(s, c) && Held(cfg, s, c) && !s.conns[c].life.Connecting?
      && Free(s, s.conns[c].loop) && !s.loops[s.conns[c].loop].phase.Polling?
  }

  function Apply(cfg: Config, s: State, a: Action): State
    requires Enabled(cfg, s, a)
  {
    match a
    case Accept(fd) =>
      var c, l := |s.conns|, Placement(s);
      var s1 := s.(conns := s.conns + [Peer(l, fd, Connecting, false)],
                   connections := s.connections[Name(cfg, c) := c],
                   next := NextCursor(|s.loops| - 1, s.next));
      if l == 0 then ConnectEstablished(s1, c) else PushTo(s1, l, Task(Establishing, c))
    case PollReturn(l, active) => SetLoop(s, l, s.loops[l].(phase := Handling(active, false)))
    case StartEvent(l) =>
      var ph := s.loops[l].phase;
      SetLoop(s, l, s.loops[l].(phase := if Held(cfg, s, ph.active[0]) then ph.(busy := true) else Handling(ph.active[1..], false)))
    case CloseEvent(l) =>
      var c := s.loops[l].phase.active[0];
      var s1 := Register(SetLife(s, c, Disconnected), c);
      if l == 0 then BeginRemove(cfg, s1, c) else PushTo(s1, 0, Task(Removing, c))
    case EndEvent(l) => SetLoop(s, l, s.loops[l].(phase := Handling(s.loops[l].phase.active[1..], false)))
    case SwapBatch(l) => SetLoop(s, l, s.loops[l].(phase := Running, batch := s.loops[l].queue, queue := []))
    case RunTask(l) =>
      var L := s.loops[l];
      RunKind(cfg, SetLoop(s, l, L.(ran := L.ran + [L.batch[0]], batch := L.batch[1..])), L.batch[0])
    case EndBatch(l) => SetLoop(s, l, s.loops[l].(phase := Polling, ran := []))
    case FinishRemove =>
      PushTo(s, s.conns[s.removing.value].loop, Task(Destroying, s.removing.value)).(removing := None)
    case QueueNotify(c) => PushTo(s, s.conns[c].loop, Task(Notifying, c))
    case ShutdownCall(c) => if s.conns[c].life.Connected? then SetLife(s, c, Disconnecting) else s
    case Keep(c) => s.(users := s.users + {c})
    case Release(c) => s.(users := s.users - {c})
    case Arm(c) => Register(s, c)
  }

  ghost predicate Runs(cfg: Config, s: State, acts: seq<Action>)
    decreases |acts|
  {
    acts != [] ==> Enabled(cfg, s, acts[0]) && Runs(cfg, Apply(cfg, s, acts[0]), acts[1..])
  }

  ghost function After(cfg: Config, s: State, acts: seq<Action>): State
    requires Runs(cfg, s, acts)
    decreases |acts|
  {
    if acts == [] then s else After(cfg, Apply(cfg, s, acts[0]), acts[1..])
  }
}
