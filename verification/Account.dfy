/** What a run of the server machine adds up to, told from its actions: which connections were
    established, shut down and closed, which functors were queued and called on each loop,
    which channels were reported and handled, and which pointers the user kept. */
module Accounts {
  import opened Lifecycle
  import opened Servers
  import opened Ownership
  import opened Teardown

  // ----- the life of every connection -----

  /** The connections for which connectEstablished was called, for which shutdown was called
      once they were established and before they were closed, and for which handleClose was. */
  datatype Story = Story(established: set<nat>, shut: set<nat>, closed: set<nat>)

  const NOTHING_YET := Story({}, {}, {})

  function Tell(cfg: Config, s: State, a: Action, t: Story): Story
    requires Enabled(cfg, s, a)
  {
    match a
    case Accept(_) => if Placement(s) == 0 then t.(established := t.established + {|s.conns|}) else t
    case RunTask(l) =>
      var f := s.loops[l].batch[0];
      if f.kind.Establishing? then t.(established := t.established + {f.conn}) else t
    case ShutdownCall(c) =>
      if c in t.established && c !in t.closed then t.(shut := t.shut + {c}) else t
    case CloseEvent(l) => t.(closed := t.closed + {s.loops[l].phase.active[0]})
    case _ => t
  }

  ghost function StoryOf(cfg: Config, s: State, acts: seq<Action>, t: Story): Story
    requires Runs(cfg, s, acts)
    decreases |acts|
  {
    if acts == [] then t else StoryOf(cfg, Apply(cfg, s, acts[0]), acts[1..], Tell(cfg, s, acts[0], t))
  }

  function LifeTold(t: Story, c: nat): Life {
    if c in t.closed then Disconnected
    else if c in t.shut then Disconnecting
    else if c in t.established then Connected
    else Connecting
  }

  ghost predicate Told(s: State, t: Story) {
    && (forall c :: 0 <= c < |s.conns| ==> s.conns[c].life == LifeTold(t, c))
    && (forall c :: c in t.established || c in t.shut || c in t.closed ==> c < |s.conns|)
  }

  /** A step that is no part of the story changes no life. */
  lemma OtherStepTells(cfg: Config, s: State, a: Action, t: Story)
    requires Enabled(cfg, s, a) && Told(s, t)
    requires !a.RunTask? && !a.ShutdownCall? && !a.CloseEvent? && !a.Accept?
    ensures Told(Apply(cfg, s, a), Tell(cfg, s, a, t))
  {
    hide Name, Held, Reported;
  }

  lemma AcceptTells(cfg: Config, s: State, fd: int, t: Story)
    requires Enabled(cfg, s, Accept(fd)) && Told(s, t)
    ensures Told(Apply(cfg, s, Accept(fd)), Tell(cfg, s, Accept(fd), t))
  {
    hide Name, Held, FreshFd;
    var c := |s.conns|;
    assert c !in t.established && c !in t.shut && c !in t.closed;
  }

  lemma RunTaskTells(cfg: Config, s: State, l: nat, t: Story)
    requires Inv(cfg, s) && Enabled(cfg, s, RunTask(l)) && Told(s, t)
    ensures Told(Apply(cfg, s, RunTask(l)), Tell(cfg, s, RunTask(l), t))
  {
    hide Name, Held, FdsOk, RunKind;
    var f := s.loops[l].batch[0];
    assert LoopOk(s, l) && TaskOk(s, l, f) && PeerOk(cfg, s, f.conn);
    assert Pend(s.loops[l])[0] == f;
    assert f.kind.Establishing? ==> f == Task(Establishing, f.conn);
    RunKindTouches(cfg, Popped(s, l), f);
  }

  lemma CloseTells(cfg: Config, s: State, l: nat, t: Story)
    requires Enabled(cfg, s, CloseEvent(l)) && Told(s, t)
    ensures Told(Apply(cfg, s, CloseEvent(l)), Tell(cfg, s, CloseEvent(l), t))
  {
    hide Name, Held;
    var n, c := Apply(cfg, s, CloseEvent(l)), s.loops[l].phase.active[0];
    assert |n.conns| == |s.conns| && n.conns[c].life.Disconnected?;
    assert forall d :: 0 <= d < |s.conns| && d != c ==> n.conns[d] == s.conns[d];
  }

  lemma StepTells(cfg: Config, s: State, a: Action, t: Story)
    requires Inv(cfg, s) && Enabled(cfg, s, a) && Told(s, t)
    ensures Told(Apply(cfg, s, a), Tell(cfg, s, a, t))
  {
    hide Name, Held, FreshFd, Reported, LoopsOk, PeersOk, FdsOk;
    match a
    case Accept(fd) => AcceptTells(cfg, s, fd, t);
    case RunTask(l) => RunTaskTells(cfg, s, l, t);
    case CloseEvent(l) => CloseTells(cfg, s, l, t);
    case ShutdownCall(_) =>
    case _ => OtherStepTells(cfg, s, a, t);
  }

  lemma {:induction false} RunTells(cfg: Config, s: State, acts: seq<Action>, t: Story)
    requires Inv(cfg, s) && Runs(cfg, s, acts) && NoHarm(cfg, s, acts) && Told(s, t)
    ensures Told(After(cfg, s, acts), StoryOf(cfg, s, acts, t))
    decreases |acts|
  {
    hide Inv, Enabled, Apply, Harms, Told, Tell;
    if acts != [] {
      StepKeeps(cfg, s, acts[0]);
      StepTells(cfg, s, acts[0], t);
      RunTells(cfg, Apply(cfg, s, acts[0]), acts[1..], Tell(cfg, s, acts[0], t));
    }
  }

  ghost function ClosedIn(cfg: Config, ioLoops: nat, acts: seq<Action>): set<nat>
    requires Runs(cfg, Init(ioLoops), acts)
  {
    StoryOf(cfg, Init(ioLoops), acts, NOTHING_YET).closed
  }

  /** The state of every connection is what was done to it: connected from connectEstablished
      on, disconnecting once shut down, disconnected from the first handleClose on. */
  lemma LivesExactly(cfg: Config, ioLoops: nat, acts: seq<Action>)
    requires |cfg.ipPort| <= 51 && Runs(cfg, Init(ioLoops), acts) && NoHarm(cfg, Init(ioLoops), acts)
    ensures Told(After(cfg, Init(ioLoops), acts), StoryOf(cfg, Init(ioLoops), acts, NOTHING_YET))
  {
    InitInv(cfg, ioLoops);
    RunTells(cfg, Init(ioLoops), acts, NOTHING_YET);
  }

  // ----- closing leads to removal -----

  /** handleClose disconnects its connection, whatever loop it is on, and starts its removal: on
      the main loop at once, elsewhere as a functor for the main loop. */
  lemma CloseOutcome(cfg: Config, s: State, l: nat)
    requires Inv(cfg, s) && Enabled(cfg, s, CloseEvent(l))
    ensures var n, c := Apply(cfg, s, CloseEvent(l)), s.loops[l].phase.active[0];
            && |n.conns| == |s.conns| && n.conns == s.conns[c := s.conns[c].(life := Disconnected)]
            && (l != 0 ==> && n.connections == s.connections && n.removing == s.removing && n.erased == s.erased
                           && Pend(n.loops[0]) == Pend(s.loops[0]) + [Task(Removing, c)])
            && (l == 0 ==> n.removing == Some(c) && !InMap(cfg, n, c) && n.erased == s.erased + {c})
  {
    hide Name;
    ActiveIsHeld(cfg, s, l, 0);
  }

  /** In every run exactly the connections for which handleClose was called have left the map or
      have their removal queued on the main loop. */
  lemma ClosedExactlyWhenRemoved(cfg: Config, ioLoops: nat, acts: seq<Action>, c: nat)
    requires |cfg.ipPort| <= 51 && Runs(cfg, Init(ioLoops), acts) && NoHarm(cfg, Init(ioLoops), acts)
    requires c < |After(cfg, Init(ioLoops), acts).conns|
    ensures var s := After(cfg, Init(ioLoops), acts);
            && (c in ClosedIn(cfg, ioLoops, acts) <==> c in s.erased || RemovalQueued(s, c))
            && (DestroyDue(s, c) ==> c in ClosedIn(cfg, ioLoops, acts))
  {
    hide Name;
    InitInv(cfg, ioLoops);
    EveryRunLeaksNothing(cfg, Init(ioLoops), acts);
    LivesExactly(cfg, ioLoops, acts);
    var s := After(cfg, Init(ioLoops), acts);
    assert PeerOk(cfg, s, c) && RemovalOnItsWay(s, c);
    if RemovalQueued(s, c) {
      QueuedIsOk(cfg, s, 0, Task(Removing, c));
    }
    if DestroyQueued(s, c) {
      QueuedIsOk(cfg, s, s.conns[c].loop, Task(Destroying, c));
    }
  }

  /** Teardown is also complete: whenever everything has come to rest, exactly the connections
      for which handleClose was never called are alive, and exactly those are registered. */
  lemma ClosedIsGone(cfg: Config, ioLoops: nat, acts: seq<Action>)
    requires |cfg.ipPort| <= 51 && Runs(cfg, Init(ioLoops), acts) && NoHarm(cfg, Init(ioLoops), acts)
    ensures var s := After(cfg, Init(ioLoops), acts);
            AtRest(s) ==> forall c :: 0 <= c < |s.conns| ==>
              && (Held(cfg, s, c) <==> c !in ClosedIn(cfg, ioLoops, acts))
              && (s.conns[c].added <==> Held(cfg, s, c))
  {
    InitInv(cfg, ioLoops);
    EveryRunLeaksNothing(cfg, Init(ioLoops), acts);
    LivesExactly(cfg, ioLoops, acts);
    var s := After(cfg, Init(ioLoops), acts);
    if AtRest(s) {
      forall c | 0 <= c < |s.conns|
        ensures Held(cfg, s, c) <==> c !in ClosedIn(cfg, ioLoops, acts)
        ensures s.conns[c].added <==> Held(cfg, s, c)
      {
        RestingPeer(cfg, s, c);
      }
    }
  }

  // ----- functors -----

  /** The functor a step calls on loop `l`, and the functor it queues there. */
  function CalledBy(cfg: Config, s: State, a: Action, l: nat): seq<Task>
    requires Enabled(cfg, s, a)
  {
    if a == RunTask(l) then [s.loops[l].batch[0]] else []
  }

  function QueuedBy(cfg: Config, s: State, a: Action, l: nat): seq<Task>
    requires Enabled(cfg, s, a)
  {
    match a
    case Accept(_) => if l == Placement(s) != 0 then [Task(Establishing, |s.conns|)] else []
    case CloseEvent(k) => if l == 0 != k then [Task(Removing, s.loops[k].phase.active[0])] else []
    case FinishRemove => if l == s.conns[s.removing.value].loop then [Task(Destroying, s.removing.value)] else []
    case QueueNotify(c) => if l == s.conns[c].loop then [Task(Notifying, c)] else []
    case _ => []
  }

  ghost function CalledIn(cfg: Config, s: State, acts: seq<Action>, l: nat): seq<Task>
    requires Runs(cfg, s, acts)
    decreases |acts|
  {
    if acts == [] then []
    else CalledBy(cfg, s, acts[0], l) + CalledIn(cfg, Apply(cfg, s, acts[0]), acts[1..], l)
  }

  ghost function QueuedIn(cfg: Config, s: State, acts: seq<Action>, l: nat): seq<Task>
    requires Runs(cfg, s, acts)
    decreases |acts|
  {
    if acts == [] then []
    else QueuedBy(cfg, s, acts[0], l) + QueuedIn(cfg, Apply(cfg, s, acts[0]), acts[1..], l)
  }

  /** Only a loop that is running functors has a batch. */
  predicate BatchOnlyRunning(s: State, l: nat) {
    l < |s.loops| && (!s.loops[l].phase.Running? ==> s.loops[l].batch == [])
  }

  /** The steps that leave every loop where it is and call no functor. */
  predicate Stays(a: Action) {
    || a.Accept? || a.CloseEvent? || a.FinishRemove? || a.QueueNotify?
    || a.ShutdownCall? || a.Keep? || a.Release? || a.Arm?
  }

  lemma StayingQueues(cfg: Config, s: State, a: Action, l: nat)
    requires Enabled(cfg, s, a) && l < |s.loops| && Stays(a)
    ensures var n := Apply(cfg, s, a);
            && l < |n.loops| && n.loops[l].phase == s.loops[l].phase && n.loops[l].batch == s.loops[l].batch
            && n.loops[l].queue == s.loops[l].queue + QueuedBy(cfg, s, a, l)
  {
    hide Name, Held, FreshFd;
  }

  lemma RunTaskConserves(cfg: Config, s: State, k: nat, l: nat)
    requires Enabled(cfg, s, RunTask(k)) && l < |s.loops|
    ensures var n := Apply(cfg, s, RunTask(k));
            && l < |n.loops| && n.loops[l].phase == s.loops[l].phase
            && CalledBy(cfg, s, RunTask(k), l) + n.loops[l].batch == s.loops[l].batch
            && n.loops[l].queue == s.loops[l].queue
  {
    hide Name, Held, RunKind;
    RunKindTouches(cfg, Popped(s, k), s.loops[k].batch[0]);
  }

  lemma MovingConserves(cfg: Config, s: State, a: Action, l: nat)
    requires Enabled(cfg, s, a) && BatchOnlyRunning(s, l) && !Stays(a) && !a.RunTask?
    ensures var n := Apply(cfg, s, a); BatchOnlyRunning(n, l) && Pend(n.loops[l]) == Pend(s.loops[l])
  {
    hide Name, Held, Reported;
  }

  lemma StepConserves(cfg: Config, s: State, a: Action, l: nat)
    requires Enabled(cfg, s, a) && BatchOnlyRunning(s, l)
    ensures var n := Apply(cfg, s, a);
            && BatchOnlyRunning(n, l)
            && CalledBy(cfg, s, a, l) + Pend(n.loops[l]) == Pend(s.loops[l]) + QueuedBy(cfg, s, a, l)
  {
    hide Enabled, Apply;
    if Stays(a) {
      StayingQueues(cfg, s, a, l);
    } else if a.RunTask? {
      RunTaskConserves(cfg, s, a.l, l);
    } else {
      MovingConserves(cfg, s, a, l);
    }
  }

  lemma {:induction false} RunConserves(cfg: Config, s: State, acts: seq<Action>, l: nat)
    requires Runs(cfg, s, acts) && BatchOnlyRunning(s, l)
    ensures var n := After(cfg, s, acts);
            && l < |n.loops|
            && CalledIn(cfg, s, acts, l) + Pend(n.loops[l]) == Pend(s.loops[l]) + QueuedIn(cfg, s, acts, l)
    decreases |acts|
  {
    hide Enabled, Apply, Pend, CalledBy, QueuedBy;
    if acts != [] {
      var a, n, m := acts[0], Apply(cfg, s, acts[0]), After(cfg, s, acts);
      StepConserves(cfg, s, a, l);
      RunConserves(cfg, n, acts[1..], l);
      calc {
        CalledIn(cfg, s, acts, l) + Pend(m.loops[l]);
        CalledBy(cfg, s, a, l) + (CalledIn(cfg, n, acts[1..], l) + Pend(m.loops[l]));
        CalledBy(cfg, s, a, l) + (Pend(n.loops[l]) + QueuedIn(cfg, n, acts[1..], l));
        (CalledBy(cfg, s, a, l) + Pend(n.loops[l])) + QueuedIn(cfg, n, acts[1..], l);
        Pend(s.loops[l]) + QueuedIn(cfg, s, acts, l);
      }
    }
  }

  /** In every run, harmful sends included, each loop calls the functors queued on it once each
      and in order: those called so far followed by those waiting are those queued. */
  lemma FunctorsCalledInOrder(cfg: Config, ioLoops: nat, acts: seq<Action>, l: nat)
    requires Runs(cfg, Init(ioLoops), acts) && l <= ioLoops
    ensures var s := After(cfg, Init(ioLoops), acts);
            && l < |s.loops|
            && CalledIn(cfg, Init(ioLoops), acts, l) + Pend(s.loops[l]) == QueuedIn(cfg, Init(ioLoops), acts, l)
  {
    RunConserves(cfg, Init(ioLoops), acts, l);
  }

  // ----- handlers -----

  /** The channels loop `l` has been told of and has not begun to handle. */
  function Unhandled(L: Loop): seq<nat> {
    if !L.phase.Handling? then []
    else if L.phase.busy && L.phase.active != [] then L.phase.active[1..]
    else L.phase.active
  }

  /** A step that begins a handler: before it none is running on the loop, after it one is. */
  function HandledBy(cfg: Config, s: State, a: Action, l: nat): seq<nat>
    requires Enabled(cfg, s, a)
  {
    var n := Apply(cfg, s, a);
    if a == StartEvent(l) && l < |n.loops| && n.loops[l].phase.Handling? && n.loops[l].phase.busy
       && n.loops[l].phase.active != []
    then [n.loops[l].phase.active[0]] else []
  }

  ghost function HandledIn(cfg: Config, s: State, acts: seq<Action>, l: nat): seq<nat>
    requires Runs(cfg, s, acts)
    decreases |acts|
  {
    if acts == [] then []
    else HandledBy(cfg, s, acts[0], l) + HandledIn(cfg, Apply(cfg, s, acts[0]), acts[1..], l)
  }

  function ReportedIn(acts: seq<Action>, l: nat): seq<nat> {
    if acts == [] then []
    else (if acts[0].PollReturn? && acts[0].l == l then acts[0].active else []) + ReportedIn(acts[1..], l)
  }

  lemma StartHandles(cfg: Config, s: State, l: nat)
    requires Inv(cfg, s) && Enabled(cfg, s, StartEvent(l))
    ensures HandledBy(cfg, s, StartEvent(l), l) + Unhandled(Apply(cfg, s, StartEvent(l)).loops[l]) == Unhandled(s.loops[l])
  {
    ActiveIsHeld(cfg, s, l, 0);
    hide Inv, Held;
    var active := s.loops[l].phase.active;
    assert [active[0]] + active[1..] == active;
  }

  lemma MovingHandles(cfg: Config, s: State, a: Action, l: nat)
    requires Enabled(cfg, s, a) && l < |s.loops| && a != StartEvent(l) && !Stays(a) && !a.RunTask?
    ensures var n := Apply(cfg, s, a);
            && l < |n.loops|
            && Unhandled(n.loops[l]) == Unhandled(s.loops[l]) + (if a.PollReturn? && a.l == l then a.active else [])
  {
    hide Name, Held, Reported;
  }

  lemma StepHandles(cfg: Config, s: State, a: Action, l: nat)
    requires Inv(cfg, s) && Enabled(cfg, s, a) && l < |s.loops|
    ensures var n := Apply(cfg, s, a);
            && l < |n.loops|
            && HandledBy(cfg, s, a, l) + Unhandled(n.loops[l]) ==
                 Unhandled(s.loops[l]) + (if a.PollReturn? && a.l == l then a.active else [])
  {
    hide Inv, Enabled, Apply;
    if a == StartEvent(l) {
      StartHandles(cfg, s, l);
      StepKeeps(cfg, s, a);
    } else if Stays(a) {
      StayingQueues(cfg, s, a, l);
    } else if a.RunTask? {
      RunTaskConserves(cfg, s, a.l, l);
    } else {
      MovingHandles(cfg, s, a, l);
    }
  }

  lemma {:induction false} RunHandles(cfg: Config, s: State, acts: seq<Action>, l: nat)
    requires Inv(cfg, s) && Runs(cfg, s, acts) && NoHarm(cfg, s, acts) && l < |s.loops|
    ensures var n := After(cfg, s, acts);
            && l < |n.loops|
            && HandledIn(cfg, s, acts, l) + Unhandled(n.loops[l]) == Unhandled(s.loops[l]) + ReportedIn(acts, l)
    decreases |acts|
  {
    hide Inv, Enabled, Apply, Harms, Unhandled, HandledBy;
    if acts != [] {
      var a, n, m := acts[0], Apply(cfg, s, acts[0]), After(cfg, s, acts);
      var told := if a.PollReturn? && a.l == l then a.active else [];
      StepKeeps(cfg, s, a);
      StepHandles(cfg, s, a, l);
      RunHandles(cfg, n, acts[1..], l);
      calc {
        HandledIn(cfg, s, acts, l) + Unhandled(m.loops[l]);
        HandledBy(cfg, s, a, l) + (HandledIn(cfg, n, acts[1..], l) + Unhandled(m.loops[l]));
        HandledBy(cfg, s, a, l) + (Unhandled(n.loops[l]) + ReportedIn(acts[1..], l));
        (HandledBy(cfg, s, a, l) + Unhandled(n.loops[l])) + ReportedIn(acts[1..], l);
        Unhandled(s.loops[l]) + ReportedIn(acts, l);
      }
    }
  }

  /** Every channel that a poll reports has its handler called once, in order, with its guard
      obtained: none is skipped because its connection went in the meantime. */
  lemma ReportsAreHandled(cfg: Config, ioLoops: nat, acts: seq<Action>, l: nat)
    requires |cfg.ipPort| <= 51 && Runs(cfg, Init(ioLoops), acts) && NoHarm(cfg, Init(ioLoops), acts) && l <= ioLoops
    ensures var s := After(cfg, Init(ioLoops), acts);
            && l < |s.loops|
            && HandledIn(cfg, Init(ioLoops), acts, l) + Unhandled(s.loops[l]) == ReportedIn(acts, l)
  {
    InitInv(cfg, ioLoops);
    RunHandles(cfg, Init(ioLoops), acts, l);
  }

  // ----- pointers kept by the user -----

  function KeptIn(acts: seq<Action>, before: set<nat>): set<nat> {
    if acts == [] then before
    else KeptIn(acts[1..], if acts[0].Keep? then before + {acts[0].c}
                           else if acts[0].Release? then before - {acts[0].c} else before)
  }

  lemma StepKeepsUsers(cfg: Config, s: State, a: Action)
    requires Enabled(cfg, s, a)
    ensures Apply(cfg, s, a).users == if a.Keep? then s.users + {a.c} else if a.Release? then s.users - {a.c} else s.users
  {
    hide Name, Held, FreshFd, Reported;
  }

  lemma {:induction false} KeptPointersCount(cfg: Config, s: State, acts: seq<Action>, c: nat)
    requires Runs(cfg, s, acts)
    ensures After(cfg, s, acts).users == KeptIn(acts, s.users)
    ensures c in KeptIn(acts, s.users) ==> Held(cfg, After(cfg, s, acts), c)
    decreases |acts|
  {
    hide Enabled, Apply;
    if acts != [] {
      StepKeepsUsers(cfg, s, acts[0]);
      KeptPointersCount(cfg, Apply(cfg, s, acts[0]), acts[1..], c);
    }
  }
}
