/** The ownership theorems for every run of the server machine, and exactly which runs are
    safe. */
module Teardown {
  import opened Lifecycle
  import opened Pools
  import opened Servers
  import opened Ownership

  lemma InitInv(cfg: Config, ioLoops: nat)
    requires |cfg.ipPort| <= 51
    ensures Inv(cfg, Init(ioLoops))
  {
    var s := Init(ioLoops);
    forall l | 0 <= l < |s.loops|
      ensures LoopOk(s, l)
    {
      assert Pend(IDLE_LOOP) == [];
    }
  }

  /** No send arms a removed channel when its connectDestroyed is no longer due. */
  ghost predicate NoHarm(cfg: Config, s: State, acts: seq<Action>)
    requires Runs(cfg, s, acts)
    decreases |acts|
  {
    acts != [] ==> !Harms(s, acts[0]) && NoHarm(cfg, Apply(cfg, s, acts[0]), acts[1..])
  }

  lemma {:induction false} EveryRunKeeps(cfg: Config, s: State, acts: seq<Action>)
    requires Inv(cfg, s) && Runs(cfg, s, acts) && NoHarm(cfg, s, acts)
    ensures Keeps(cfg, s, After(cfg, s, acts))
    decreases |acts|
  {
    hide Inv, Enabled, Apply, Harms;
    if acts != [] {
      StepKeeps(cfg, s, acts[0]);
      EveryRunKeeps(cfg, Apply(cfg, s, acts[0]), acts[1..]);
      KeepsTwice(cfg, s, Apply(cfg, s, acts[0]), After(cfg, s, acts));
    }
  }

  /** Someone responsible refers to the connection: the server's map, or whatever is going to
      have it destroyed (a removal queued on the main loop, the main thread on its way from
      there, or connectDestroyed queued on the connection's own loop). */
  predicate Owned(cfg: Config, s: State, c: nat) {
    c < |s.conns| && Held(cfg, s, c) && (InMap(cfg, s, c) || DestroyDue(s, c))
  }

  /** Nothing a loop can still reach through its poller, the kernel or its list of active
      channels is without an owner. */
  predicate NoDangling(cfg: Config, s: State) {
    forall l :: 0 <= l < |s.loops| ==> LoopSafe(cfg, s, s.loops[l])
  }

  predicate LoopSafe(cfg: Config, s: State, L: Loop) {
    && (forall fd :: fd in L.channels ==> Owned(cfg, s, L.channels[fd]))
    && (forall fd :: fd in L.kernel ==> Owned(cfg, s, L.kernel[fd]))
    && (L.phase.Handling? ==> forall i :: 0 <= i < |L.phase.active| ==> Owned(cfg, s, L.phase.active[i]))
  }

  lemma InvNoDangling(cfg: Config, s: State)
    requires Inv(cfg, s)
    ensures NoDangling(cfg, s)
  {
    forall l | 0 <= l < |s.loops|
      ensures LoopSafe(cfg, s, s.loops[l])
    {
      var L := s.loops[l];
      assert LoopOk(s, l);
      forall fd | fd in L.channels
        ensures Owned(cfg, s, L.channels[fd])
      {
        AddedIsHeld(cfg, s, L.channels[fd]);
      }
      if L.phase.Handling? {
        forall i | 0 <= i < |L.phase.active|
          ensures Owned(cfg, s, L.phase.active[i])
        {
          ActiveIsHeld(cfg, s, l, i);
          AddedIsHeld(cfg, s, L.phase.active[i]);
        }
      }
    }
  }

  /** Safe teardown, with any number of io loops and any number of handleClose calls: what is
      registered or about to be handled has an owner, so a connection goes, and its descriptor
      is closed, only after it has left the poller and the kernel. */
  lemma SafeTeardown(cfg: Config, ioLoops: nat, acts: seq<Action>)
    requires |cfg.ipPort| <= 51 && Runs(cfg, Init(ioLoops), acts) && NoHarm(cfg, Init(ioLoops), acts)
    ensures var s := After(cfg, Init(ioLoops), acts);
            && NoDangling(cfg, s)
            && (forall c, l, fd :: 0 <= c < |s.conns| && !Held(cfg, s, c) && 0 <= l < |s.loops| ==>
                  && (fd in s.loops[l].channels ==> s.loops[l].channels[fd] != c)
                  && (fd in s.loops[l].kernel ==> s.loops[l].kernel[fd] != c))
  {
    InitInv(cfg, ioLoops);
    EveryRunKeeps(cfg, Init(ioLoops), acts);
    var s := After(cfg, Init(ioLoops), acts);
    InvNoDangling(cfg, s);
    assert forall l :: 0 <= l < |s.loops| ==> LoopSafe(cfg, s, s.loops[l]);
  }

  /** Whatever happens after a point of a run, every connection's state only moves forward
      from there, and a connection that had gone is never referred to again. */
  lemma LifeOnlyForward(cfg: Config, ioLoops: nat, before: seq<Action>, later: seq<Action>)
    requires |cfg.ipPort| <= 51 && Runs(cfg, Init(ioLoops), before) && NoHarm(cfg, Init(ioLoops), before)
    requires Runs(cfg, After(cfg, Init(ioLoops), before), later)
    requires NoHarm(cfg, After(cfg, Init(ioLoops), before), later)
    ensures var s := After(cfg, Init(ioLoops), before);
            var n := After(cfg, s, later);
            |s.conns| <= |n.conns| && forall c :: 0 <= c < |s.conns| ==>
              && Rank(s.conns[c].life) <= Rank(n.conns[c].life)
              && (!Held(cfg, s, c) ==> !Held(cfg, n, c))
  {
    InitInv(cfg, ioLoops);
    EveryRunKeeps(cfg, Init(ioLoops), before);
    EveryRunKeeps(cfg, After(cfg, Init(ioLoops), before), later);
  }

  /** The map holds exactly the accepted connections that were not erased, each under its own
      name; and the state a functor finds is the one it was queued for. */
  lemma RegistryConserved(cfg: Config, ioLoops: nat, acts: seq<Action>)
    requires |cfg.ipPort| <= 51 && Runs(cfg, Init(ioLoops), acts) && NoHarm(cfg, Init(ioLoops), acts)
    ensures var s := After(cfg, Init(ioLoops), acts);
            && (forall c :: 0 <= c < |s.conns| ==> (InMap(cfg, s, c) <==> c !in s.erased))
            && (forall n :: n in s.connections ==> s.connections[n] < |s.conns| && n == Name(cfg, s.connections[n]))
            && (forall c :: 0 <= c < |s.conns| && s.conns[c].life.Connecting? ==>
                  InMap(cfg, s, c) && !s.conns[c].added && !DestroyDue(s, c))
  {
    InitInv(cfg, ioLoops);
    EveryRunKeeps(cfg, Init(ioLoops), acts);
    var s := After(cfg, Init(ioLoops), acts);
    forall c | 0 <= c < |s.conns|
      ensures InMap(cfg, s, c) <==> c !in s.erased
      ensures s.conns[c].life.Connecting? ==> c !in s.erased && !s.conns[c].added && !DestroyDue(s, c)
    {
      assert PeerOk(cfg, s, c);
      if c !in s.erased {
        UnerasedIsInMap(cfg, s, c);
      }
      if DestroyQueued(s, c) {
        QueuedIsOk(cfg, s, s.conns[c].loop, Task(Destroying, c));
      }
      if RemovalQueued(s, c) {
        QueuedIsOk(cfg, s, 0, Task(Removing, c));
      }
    }
  }

  lemma QueuedIsOk(cfg: Config, s: State, l: nat, t: Task)
    requires Inv(cfg, s) && l < |s.loops| && t in Pend(s.loops[l])
    ensures TaskOk(s, l, t)
  {
    var L := s.loops[l];
    assert LoopOk(s, l);
    var i :| 0 <= i < |Pend(L)| && Pend(L)[i] == t;
    assert if i < |L.batch| then t == L.batch[i] else t == L.queue[i - |L.batch|];
  }

  // ----- nothing is left behind -----

  /** A disconnected connection has been erased, or its removal is queued on the main loop. */
  predicate RemovalOnItsWay(s: State, c: nat)
    requires c < |s.conns|
  {
    s.conns[c].life.Disconnected? ==> c in s.erased || RemovalQueued(s, c)
  }

  predicate NoLeak(s: State) {
    forall c :: 0 <= c < |s.conns| ==> RemovalOnItsWay(s, c)
  }

  /** A step that disconnects nobody and takes no removal off the main loop's queue. */
  lemma QuietStepKeepsNoLeak(s: State, n: State)
    requires NoLeak(s) && |s.loops| == |n.loops| && |s.conns| <= |n.conns| && s.erased <= n.erased
    requires forall c :: 0 <= c < |n.conns| && n.conns[c].life.Disconnected? ==>
               c < |s.conns| && s.conns[c].life.Disconnected?
    requires |s.loops| > 0 ==> forall t :: t in Pend(s.loops[0]) && t.kind.Removing? ==> t in Pend(n.loops[0])
    ensures NoLeak(n)
  {
    forall c | 0 <= c < |n.conns|
      ensures RemovalOnItsWay(n, c)
    {
      if n.conns[c].life.Disconnected? {
        assert RemovalOnItsWay(s, c);
        assert Task(Removing, c).kind.Removing?;
      }
    }
  }

  lemma CloseKeepsNoLeak(cfg: Config, s: State, l: nat)
    requires Inv(cfg, s) && NoLeak(s) && Enabled(cfg, s, CloseEvent(l))
    ensures NoLeak(Apply(cfg, s, CloseEvent(l)))
  {
    hide Name;
    var n, c := Apply(cfg, s, CloseEvent(l)), s.loops[l].phase.active[0];
    ActiveIsHeld(cfg, s, l, 0);
    if l != 0 {
      assert Pend(n.loops[0]) == Pend(s.loops[0]) + [Task(Removing, c)];
    }
    forall d | 0 <= d < |n.conns|
      ensures RemovalOnItsWay(n, d)
    {
      assert RemovalOnItsWay(s, d);
    }
  }

  lemma RunTaskKeepsNoLeak(cfg: Config, s: State, l: nat)
    requires Inv(cfg, s) && NoLeak(s) && Enabled(cfg, s, RunTask(l))
    ensures NoLeak(Apply(cfg, s, RunTask(l)))
  {
    hide Name;
    var n, p, t := Apply(cfg, s, RunTask(l)), Popped(s, l), s.loops[l].batch[0];
    PopFacts(cfg, s, l);
    assert Pend(n.loops[0]) == Pend(p.loops[0]);
    forall c | 0 <= c < |n.conns|
      ensures RemovalOnItsWay(n, c)
    {
      assert RemovalOnItsWay(s, c);
      assert l == 0 && t != Task(Removing, c) ==>
               (Task(Removing, c) in Pend(p.loops[0]) <==> Task(Removing, c) in Pend(s.loops[0]));
    }
  }

  lemma PushKeepsPend(s: State, l: nat, t: Task)
    requires 0 < |s.loops| && l < |s.loops|
    ensures forall x :: x in Pend(s.loops[0]) ==> x in Pend(PushTo(s, l, t).loops[0])
  {
    assert Pend(PushTo(s, l, t).loops[l]) == Pend(s.loops[l]) + [t];
  }

  lemma StepKeepsNoLeak(cfg: Config, s: State, a: Action)
    requires Inv(cfg, s) && NoLeak(s) && Enabled(cfg, s, a)
    ensures NoLeak(Apply(cfg, s, a))
  {
    hide Name, LoopsOk, PeersOk, FdsOk, Held, NoLeak;
    match a
    case CloseEvent(l) => CloseKeepsNoLeak(cfg, s, l);
    case RunTask(l) => RunTaskKeepsNoLeak(cfg, s, l);
    case FinishRemove =>
      PushKeepsPend(s, s.conns[s.removing.value].loop, Task(Destroying, s.removing.value));
      QuietStepKeepsNoLeak(s, Apply(cfg, s, a));
    case QueueNotify(c) =>
      PushKeepsPend(s, s.conns[c].loop, Task(Notifying, c));
      QuietStepKeepsNoLeak(s, Apply(cfg, s, a));
    case Accept(fd) =>
      PushKeepsPend(s, Placement(s), Task(Establishing, |s.conns|));
      QuietStepKeepsNoLeak(s, Apply(cfg, s, a));
    case SwapBatch(l) =>
      BatchKeepsPend(cfg, s, a);
      QuietStepKeepsNoLeak(s, Apply(cfg, s, a));
    case _ => QuietStepKeepsNoLeak(s, Apply(cfg, s, a));
  }

  lemma BatchKeepsPend(cfg: Config, s: State, a: Action)
    requires Inv(cfg, s) && a.SwapBatch? && Enabled(cfg, s, a)
    ensures Pend(Apply(cfg, s, a).loops[a.l]) == Pend(s.loops[a.l])
  {
    assert LoopOk(s, a.l);
  }

  lemma {:induction false} EveryRunLeaksNothing(cfg: Config, s: State, acts: seq<Action>)
    requires Inv(cfg, s) && NoLeak(s) && Runs(cfg, s, acts) && NoHarm(cfg, s, acts)
    ensures Inv(cfg, After(cfg, s, acts)) && NoLeak(After(cfg, s, acts))
    decreases |acts|
  {
    hide Inv, NoLeak, Enabled, Apply, Harms;
    if acts != [] {
      StepKeeps(cfg, s, acts[0]);
      StepKeepsNoLeak(cfg, s, acts[0]);
      EveryRunLeaksNothing(cfg, Apply(cfg, s, acts[0]), acts[1..]);
    }
  }

  /** Every loop is back in its poll with nothing queued, and user code holds no pointer. */
  predicate AtRest(s: State) {
    && s.users == {} && s.removing.None?
    && forall l :: 0 <= l < |s.loops| ==> s.loops[l].phase.Polling? && s.loops[l].queue == []
  }

  /** At rest, a connection is alive exactly while it is not disconnected, and registered exactly
      while it is alive. */
  lemma RestingPeer(cfg: Config, s: State, c: nat)
    requires Inv(cfg, s) && NoLeak(s) && AtRest(s) && c < |s.conns|
    ensures Held(cfg, s, c) <==> !s.conns[c].life.Disconnected?
    ensures s.conns[c].added <==> Held(cfg, s, c)
  {
    hide Name;
    assert PeerOk(cfg, s, c) && RemovalOnItsWay(s, c);
    forall l | 0 <= l < |s.loops|
      ensures Pend(s.loops[l]) == [] && !LoopHolds(s.loops[l], c)
    {
      assert LoopOk(s, l);
    }
    if s.conns[c].added {
      AddedIsHeld(cfg, s, c);
    }
  }

  // ----- placement -----

  /** Where the pool puts connection number `c` when there are `ioLoops` io loops. */
  function Place(ioLoops: nat, c: nat): nat {
    if ioLoops == 0 then 0 else 1 + c % ioLoops
  }

  predicate Placed(ioLoops: nat, s: State) {
    && |s.loops| == ioLoops + 1 && s.next == Cursor(ioLoops, |s.conns|)
    && forall c :: 0 <= c < |s.conns| ==> s.conns[c].loop == Place(ioLoops, c)
  }

  /** Nothing but accepting moves the cursor, adds a connection or names its loop. */
  predicate SamePlaces(s: State, n: State) {
    && |n.loops| == |s.loops| && n.next == s.next && |n.conns| == |s.conns|
    && forall c :: 0 <= c < |s.conns| ==> n.conns[c].loop == s.conns[c].loop
  }

  lemma RunKindSamePlaces(cfg: Config, s: State, t: Task)
    requires Known(s, t.conn)
    ensures SamePlaces(s, RunKind(cfg, s, t))
  {
  }

  lemma StepSamePlaces(cfg: Config, s: State, a: Action)
    requires Enabled(cfg, s, a) && !a.Accept?
    ensures SamePlaces(s, Apply(cfg, s, a))
  {
    hide Name, Held, FreshFd, Reported;
    if a.RunTask? {
      hide RunKind;
      RunKindSamePlaces(cfg, Popped(s, a.l), s.loops[a.l].batch[0]);
    }
  }

  lemma AcceptPlaces(cfg: Config, ioLoops: nat, s: State, fd: int)
    requires Placed(ioLoops, s) && Enabled(cfg, s, Accept(fd))
    ensures Placed(ioLoops, Apply(cfg, s, Accept(fd)))
  {
    hide Name, Held, FreshFd;
    if ioLoops > 0 {
      CursorIsModulo(ioLoops, |s.conns|);
    }
  }

  lemma {:induction false} EveryRunKeepsPlaced(cfg: Config, ioLoops: nat, s: State, acts: seq<Action>)
    requires Placed(ioLoops, s) && Runs(cfg, s, acts)
    ensures Placed(ioLoops, After(cfg, s, acts))
    decreases |acts|
  {
    hide Enabled, Apply;
    if acts != [] {
      if acts[0].Accept? {
        AcceptPlaces(cfg, ioLoops, s, acts[0].fd);
      } else {
        StepSamePlaces(cfg, s, acts[0]);
      }
      EveryRunKeepsPlaced(cfg, ioLoops, Apply(cfg, s, acts[0]), acts[1..]);
    }
  }

  /** In every run connection number `c` is served by io loop c mod k, or by the main loop if
      it is the only one. */
  lemma PlacedRoundRobin(cfg: Config, ioLoops: nat, acts: seq<Action>, c: nat)
    requires Runs(cfg, Init(ioLoops), acts) && c < |After(cfg, Init(ioLoops), acts).conns|
    ensures After(cfg, Init(ioLoops), acts).conns[c].loop == Place(ioLoops, c)
  {
    EveryRunKeepsPlaced(cfg, ioLoops, Init(ioLoops), acts);
  }

  // ----- which runs are safe -----

  /** Exactly the steps that arm a removed channel whose connectDestroyed is no longer due leave
      something without an owner. */
  lemma StepSafeExactlyWhen(cfg: Config, s: State, a: Action)
    requires Inv(cfg, s) && Enabled(cfg, s, a)
    ensures NoDangling(cfg, Apply(cfg, s, a)) <==> !Harms(s, a)
  {
    if Harms(s, a) {
      RevivedDangles(cfg, s, a.c);
    } else {
      StepKeeps(cfg, s, a);
      InvNoDangling(cfg, Apply(cfg, s, a));
    }
  }

  /** Every state of the run, the first and the last included, is free of dangling channels. */
  ghost predicate SafeThroughout(cfg: Config, s: State, acts: seq<Action>)
    requires Runs(cfg, s, acts)
    decreases |acts|
  {
    NoDangling(cfg, s) && (acts != [] ==> SafeThroughout(cfg, Apply(cfg, s, acts[0]), acts[1..]))
  }

  lemma {:induction false} RunSafeExactlyWhen(cfg: Config, s: State, acts: seq<Action>)
    requires Inv(cfg, s) && Runs(cfg, s, acts)
    ensures SafeThroughout(cfg, s, acts) <==> NoHarm(cfg, s, acts)
    decreases |acts|
  {
    hide Inv, NoDangling, Enabled, Apply, Harms;
    InvNoDangling(cfg, s);
    if acts != [] {
      var a, n := acts[0], Apply(cfg, s, acts[0]);
      StepSafeExactlyWhen(cfg, s, a);
      if Harms(s, a) {
        assert !SafeThroughout(cfg, n, acts[1..]);
      } else {
        StepKeeps(cfg, s, a);
        RunSafeExactlyWhen(cfg, n, acts[1..]);
      }
    }
  }

  /** A run of the server is safe in all its states if and only if no send in it arms a removed
      channel whose connectDestroyed is no longer due. */
  lemma TeardownSafeExactlyWhen(cfg: Config, ioLoops: nat, acts: seq<Action>)
    requires |cfg.ipPort| <= 51 && Runs(cfg, Init(ioLoops), acts)
    ensures SafeThroughout(cfg, Init(ioLoops), acts) <==> NoHarm(cfg, Init(ioLoops), acts)
  {
    InitInv(cfg, ioLoops);
    RunSafeExactlyWhen(cfg, Init(ioLoops), acts);
  }

  lemma RevivedDangles(cfg: Config, s: State, c: nat)
    requires Inv(cfg, s) && Known(s, c) && !s.conns[c].added && !s.conns[c].life.Connecting? && !DestroyDue(s, c)
    ensures !NoDangling(cfg, Register(s, c))
  {
    hide Name;
    var l, fd, n := s.conns[c].loop, s.conns[c].fd, Register(s, c);
    assert PeerOk(cfg, s, c);
    assert Pend(n.loops[l]) == Pend(s.loops[l]);
    assert fd in n.loops[l].channels && !Owned(cfg, n, n.loops[l].channels[fd]);
    assert !LoopSafe(cfg, n, n.loops[l]);
  }

  ghost predicate Reachable(cfg: Config, ioLoops: nat, s: State) {
    exists acts :: Runs(cfg, Init(ioLoops), acts) && After(cfg, Init(ioLoops), acts) == s
  }

  lemma {:induction false} RunExtends(cfg: Config, s: State, acts: seq<Action>, a: Action)
    requires Runs(cfg, s, acts) && Enabled(cfg, After(cfg, s, acts), a)
    ensures Runs(cfg, s, acts + [a]) && After(cfg, s, acts + [a]) == Apply(cfg, After(cfg, s, acts), a)
    decreases |acts|
  {
    hide Enabled, Apply;
    if acts == [] {
      assert [] + [a] == [a] && [a][1..] == [];
      assert After(cfg, Apply(cfg, s, a), [a][1..]) == Apply(cfg, s, a);
    } else {
      assert (acts + [a])[1..] == acts[1..] + [a];
      RunExtends(cfg, Apply(cfg, s, acts[0]), acts[1..], a);
    }
  }

  lemma StepReaches(cfg: Config, k: nat, s: State, a: Action)
    requires Reachable(cfg, k, s) && Enabled(cfg, s, a)
    ensures Reachable(cfg, k, Apply(cfg, s, a))
  {
    hide Enabled, Apply;
    var acts :| Runs(cfg, Init(k), acts) && After(cfg, Init(k), acts) == s;
    RunExtends(cfg, Init(k), acts, a);
  }

  /** A server with the main loop only and one connection, on descriptor 5. */
  function Demo(cfg: Config, phase: Phase, ran: seq<Task>, batch: seq<Task>, queue: seq<Task>,
                life: Life, added: bool, erased: bool, removing: Option<nat>): State {
    var m := if added then map[5 := 0] else map[];
    State([Loop(phase, ran, batch, queue, m, m)], [Peer(0, 5, life, added)],
          if erased then map[] else map[Name(cfg, 0) := 0], 0, {}, removing, if erased then {0} else {})
  }

  /** A step from `s` that leads to `n`, compared part by part. */
  lemma DemoStep(cfg: Config, s: State, a: Action, n: State)
    requires Reachable(cfg, 0, s) && Enabled(cfg, s, a)
    requires var r := Apply(cfg, s, a);
             && |r.loops| == |n.loops| == 1 && |r.conns| == |n.conns| == 1
             && var K, L := r.loops[0], n.loops[0];
             && K.phase == L.phase && K.ran == L.ran && K.batch == L.batch && K.queue == L.queue
             && K.channels == L.channels && K.kernel == L.kernel
             && r.conns[0] == n.conns[0] && r.connections == n.connections && r.next == n.next
             && r.users == n.users && r.removing == n.removing && r.erased == n.erased
    ensures Reachable(cfg, 0, n)
  {
    hide Enabled, Apply, Reachable;
    StepReaches(cfg, 0, s, a);
    var r := Apply(cfg, s, a);
    assert r.loops == n.loops && r.conns == n.conns;
  }

  lemma DemoAccepted(cfg: Config)
    ensures Reachable(cfg, 0, Demo(cfg, Handling([], false), [], [], [], Connected, true, false, None))
  {
    hide Name;
    var s0 := Init(0);
    assert Runs(cfg, s0, []) && After(cfg, s0, []) == s0;
    assert s0.loops == [IDLE_LOOP];
    var s1 := Apply(cfg, s0, PollReturn(0, []));
    StepReaches(cfg, 0, s0, PollReturn(0, []));
    assert s1.loops == [IDLE_LOOP.(phase := Handling([], false))];
    DemoStep(cfg, s1, Accept(5), Demo(cfg, Handling([], false), [], [], [], Connected, true, false, None));
  }

  lemma DemoPolled(cfg: Config)
    ensures Reachable(cfg, 0, Demo(cfg, Handling([0], true), [], [], [], Connected, true, false, None))
  {
    hide Name;
    DemoAccepted(cfg);
    var s2 := Demo(cfg, Handling([], false), [], [], [], Connected, true, false, None);
    var s3 := Demo(cfg, Running, [], [], [], Connected, true, false, None);
    var s4 := Demo(cfg, Polling, [], [], [], Connected, true, false, None);
    var s5 := Demo(cfg, Handling([0], false), [], [], [], Connected, true, false, None);
    var s6 := Demo(cfg, Handling([0], true), [], [], [], Connected, true, false, None);
    DemoStep(cfg, s2, SwapBatch(0), s3);
    DemoStep(cfg, s3, EndBatch(0), s4);
    assert Reported(s4, 0, 0);
    DemoStep(cfg, s4, PollReturn(0, [0]), s5);
    assert InMap(cfg, s5, 0);
    DemoStep(cfg, s5, StartEvent(0), s6);
  }

  lemma DemoClosed(cfg: Config)
    ensures Reachable(cfg, 0, Demo(cfg, Handling([], false), [], [], [Task(Destroying, 0), Task(Notifying, 0)],
                                   Disconnected, true, true, None))
  {
    hide Name;
    DemoPolled(cfg);
    var d, t := Task(Destroying, 0), Task(Notifying, 0);
    var s6 := Demo(cfg, Handling([0], true), [], [], [], Connected, true, false, None);
    var s7 := Demo(cfg, Handling([0], true), [], [], [], Disconnected, true, true, Some(0));
    var s8 := Demo(cfg, Handling([0], true), [], [], [d], Disconnected, true, true, None);
    var s9 := Demo(cfg, Handling([0], true), [], [], [d, t], Disconnected, true, true, None);
    DemoStep(cfg, s6, CloseEvent(0), s7);
    DemoStep(cfg, s7, FinishRemove, s8);
    assert LoopHolds(s8.loops[0], 0);
    DemoStep(cfg, s8, QueueNotify(0), s9);
    DemoStep(cfg, s9, EndEvent(0), Demo(cfg, Handling([], false), [], [], [d, t], Disconnected, true, true, None));
  }

  lemma DemoDestroyed(cfg: Config)
    ensures Reachable(cfg, 0, Demo(cfg, Running, [Task(Destroying, 0), Task(Notifying, 0)], [], [],
                                   Disconnected, false, true, None))
  {
    hide Name;
    DemoClosed(cfg);
    var d, t := Task(Destroying, 0), Task(Notifying, 0);
    var s10 := Demo(cfg, Handling([], false), [], [], [d, t], Disconnected, true, true, None);
    var s11 := Demo(cfg, Running, [], [d, t], [], Disconnected, true, true, None);
    var s12 := Demo(cfg, Running, [d], [t], [], Disconnected, false, true, None);
    var s13 := Demo(cfg, Running, [d, t], [], [], Disconnected, false, true, None);
    DemoStep(cfg, s10, SwapBatch(0), s11);
    DemoStep(cfg, s11, RunTask(0), s12);
    DemoStep(cfg, s12, RunTask(0), s13);
  }

  /** Harm is possible: a write-complete callback that runs after connectDestroyed and sends
      arms the channel again; when the batch ends the connection goes, and the poller keeps its
      pointer. */
  lemma RevivalDangles(cfg: Config) returns (s: State)
    ensures Reachable(cfg, 0, s) && !NoDangling(cfg, s)
    ensures |s.conns| == 1 && !Held(cfg, s, 0)
    ensures |s.loops| == 1 && 5 in s.loops[0].channels && s.loops[0].channels[5] == 0
  {
    hide Name;
    DemoDestroyed(cfg);
    var d, t := Task(Destroying, 0), Task(Notifying, 0);
    var s13 := Demo(cfg, Running, [d, t], [], [], Disconnected, false, true, None);
    var s14 := Demo(cfg, Running, [d, t], [], [], Disconnected, true, true, None);
    s := Demo(cfg, Polling, [], [], [], Disconnected, true, true, None);
    assert LoopHolds(s13.loops[0], 0);
    DemoStep(cfg, s13, Arm(0), s14);
    DemoStep(cfg, s14, EndBatch(0), s);
    assert !LoopHolds(s.loops[0], 0);
    assert !Held(cfg, s, 0);
    assert 5 in s.loops[0].channels && !Owned(cfg, s, s.loops[0].channels[5]);
    assert !LoopSafe(cfg, s, s.loops[0]);
  }
}
