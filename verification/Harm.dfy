/** That a harmful send does harm. After any send that arms a removed channel whose
    connectDestroyed is no longer due there is a continuation, with no further such send, in
    which the last reference to the connection goes while the poller still has its channel.

    The continuation lets every loop that refers to the connection finish what it has. It is
    built on the state before the send, where the invariant holds, and then carried over: the
    two runs go in lockstep and differ only in the registration of that one connection. */
module Harm {
  import opened Lifecycle
  import opened Servers
  import opened Ownership
  import opened Teardown

  /** Every connection that a poller or the kernel has registered is still there. */
  predicate AllAlive(cfg: Config, s: State) {
    && (forall l, fd :: 0 <= l < |s.loops| && fd in s.loops[l].channels ==> Held(cfg, s, s.loops[l].channels[fd]))
    && (forall l, fd :: 0 <= l < |s.loops| && fd in s.loops[l].kernel ==> Held(cfg, s, s.loops[l].kernel[fd]))
  }

  /** Connection `c` is disconnected and removed, and nothing will destroy it again. */
  predicate Finished(cfg: Config, s: State, c: nat) {
    && Inv(cfg, s) && Known(s, c) && !s.conns[c].added && !s.conns[c].life.Connecting?
    && !DestroyDue(s, c)
  }

  /** The steps the continuation is made of: threads going on, pointers given up. */
  predicate Winds(a: Action) {
    match a
    case PollReturn(_, active) => active == []
    case StartEvent(_) => true
    case EndEvent(_) => true
    case SwapBatch(_) => true
    case RunTask(_) => true
    case EndBatch(_) => true
    case FinishRemove => true
    case Release(_) => true
    case _ => false
  }

  // ----- one loop lets go -----

  /** How many phases of loop `l` still pass before its references to `c` are gone. */
  function PhasesLeft(L: Loop, c: nat): nat {
    if L.phase.Handling? then 1
    else if !Mentions(L.queue, c) then 0
    else if L.phase.Polling? then 2 else 3
  }

  /** How many steps are left in its present phase. */
  function StepsLeft(s: State, l: nat): nat
    requires l < |s.loops|
  {
    var L := s.loops[l];
    (if L.phase.Polling? then 0
     else if L.phase.Running? then 2 * |L.batch|
     else 4 * |L.phase.active| + (if L.phase.busy then 0 else 2))
    + (if l == 0 && s.removing.Some? then 1 else 0)
  }

  predicate Smaller(s: State, n: State, l: nat, c: nat)
    requires l < |s.loops| == |n.loops|
  {
    var p, q := PhasesLeft(s.loops[l], c), PhasesLeft(n.loops[l], c);
    q < p || (q == p && StepsLeft(n, l) < StepsLeft(s, l))
  }

  /** No other loop, nor the user, takes up a reference to `c`. */
  predicate NoneElse(s: State, n: State, l: nat, c: nat)
    requires |s.loops| == |n.loops|
  {
    && (forall k :: 0 <= k < |s.loops| && k != l && LoopHolds(n.loops[k], c) ==> LoopHolds(s.loops[k], c))
    && (c in n.users ==> c in s.users)
  }

  /** The next step of a loop that still refers to `c`. */
  function NextStep(s: State, l: nat): Action
    requires l < |s.loops|
  {
    var L := s.loops[l];
    if l == 0 && s.removing.Some? then FinishRemove
    else match L.phase
      case Polling => PollReturn(l, [])
      case Handling(active, busy) =>
        if busy then EndEvent(l) else if active != [] then StartEvent(l) else SwapBatch(l)
      case Running => if L.batch != [] then RunTask(l) else EndBatch(l)
  }

  lemma NextStepEnabled(cfg: Config, s: State, c: nat, l: nat)
    requires Finished(cfg, s, c) && l < |s.loops|
    ensures Enabled(cfg, s, NextStep(s, l)) && Winds(NextStep(s, l))
  {
    hide Name, Held;
    GuardsNeverBlock(cfg, s, l);
    assert LoopOk(s, l);
  }

  /** The functors left for a finished connection are user callbacks. */
  lemma OnlyCallbacksLeft(cfg: Config, s: State, c: nat, l: nat)
    requires Finished(cfg, s, c) && l < |s.loops| && s.loops[l].batch != []
    ensures s.loops[l].batch[0].conn == c ==> s.loops[l].batch[0].kind.Notifying?
  {
    hide Name, Held;
    var t := s.loops[l].batch[0];
    assert Pend(s.loops[l])[0] == t;
    assert LoopOk(s, l) && TaskOk(s, l, t);
    if t.conn == c {
      assert PeerOk(cfg, s, c);
      assert t == Task(t.kind, c);
    }
  }

  lemma RunTaskShrinks(cfg: Config, s: State, c: nat, l: nat)
    requires Enabled(cfg, s, RunTask(l))
    ensures var n := Apply(cfg, s, RunTask(l));
            |n.loops| == |s.loops| && NoneElse(s, n, l, c) && Smaller(s, n, l, c)
  {
    hide Name, Held, RunKind;
    RunKindTouches(cfg, Popped(s, l), s.loops[l].batch[0]);
  }

  lemma PushMentions(q: seq<Task>, t: Task, c: nat)
    requires t.conn != c
    ensures Mentions(q + [t], c) <==> Mentions(q, c)
  {
  }

  lemma FinishRemoveShrinks(cfg: Config, s: State, c: nat)
    requires Enabled(cfg, s, FinishRemove) && s.removing.value != c && |s.loops| > 0
    ensures var n := Apply(cfg, s, FinishRemove);
            |n.loops| == |s.loops| && NoneElse(s, n, 0, c) && Smaller(s, n, 0, c)
  {
    hide Name, Held, Mentions;
    var d := s.removing.value;
    PushMentions(s.loops[s.conns[d].loop].queue, Task(Destroying, d), c);
  }

  lemma MoveShrinks(cfg: Config, s: State, c: nat, l: nat)
    requires l < |s.loops| && LoopHolds(s.loops[l], c) && Enabled(cfg, s, NextStep(s, l))
    requires !NextStep(s, l).FinishRemove? && !NextStep(s, l).RunTask?
    requires !s.loops[l].phase.Running? ==> s.loops[l].ran == [] && s.loops[l].batch == []
    ensures var n := Apply(cfg, s, NextStep(s, l));
            && |n.loops| == |s.loops| && NoneElse(s, n, l, c)
            && (LoopHolds(n.loops[l], c) ==> Smaller(s, n, l, c))
  {
    hide Name, Held;
  }

  lemma NextStepShrinks(cfg: Config, s: State, c: nat, l: nat)
    requires Finished(cfg, s, c) && l < |s.loops| && LoopHolds(s.loops[l], c) && Enabled(cfg, s, NextStep(s, l))
    ensures var n := Apply(cfg, s, NextStep(s, l));
            && |n.loops| == |s.loops| && NoneElse(s, n, l, c)
            && (LoopHolds(n.loops[l], c) ==> Smaller(s, n, l, c))
  {
    hide Name, Held, PeersOk, FdsOk, Apply, LoopHolds, NoneElse, Smaller;
    assert LoopOk(s, l);
    match NextStep(s, l)
    case FinishRemove => FinishRemoveShrinks(cfg, s, c);
    case RunTask(_) => RunTaskShrinks(cfg, s, c, l);
    case _ => MoveShrinks(cfg, s, c, l);
  }

  /** No functor of `c` that destroys it, or leads to that, appears. */
  lemma NoneDue(s: State, n: State, c: nat)
    requires !DestroyDue(s, c) && Known(s, c) && Known(n, c) && n.conns[c].loop == s.conns[c].loop
    requires n.removing != Some(c) && |n.loops| == |s.loops|
    requires forall k, x: Task :: 0 <= k < |n.loops| && x.conn == c && x in Pend(n.loops[k]) ==> x in Pend(s.loops[k])
    ensures !DestroyDue(n, c)
  {
    assert Task(Destroying, c).conn == c && Task(Removing, c).conn == c;
  }

  lemma RunTaskKeepsPeer(cfg: Config, s: State, c: nat, l: nat)
    requires Finished(cfg, s, c) && Enabled(cfg, s, RunTask(l))
    ensures var n := Apply(cfg, s, RunTask(l));
            |n.conns| == |s.conns| && n.conns[c] == s.conns[c] && !DestroyDue(n, c)
  {
    var n, p, t := Apply(cfg, s, RunTask(l)), Popped(s, l), s.loops[l].batch[0];
    OnlyCallbacksLeft(cfg, s, c, l);
    RunKindTouches(cfg, p, t);
    hide Name, Held, RunKind, Inv;
    assert Pend(s.loops[l]) == [t] + Pend(p.loops[l]);
    NoneDue(s, n, c);
  }

  lemma WindKeepsFinished(cfg: Config, s: State, a: Action, c: nat)
    requires Finished(cfg, s, c) && Enabled(cfg, s, a) && Winds(a)
    ensures Finished(cfg, Apply(cfg, s, a), c)
  {
    StepKeeps(cfg, s, a);
    hide Name, Held, LoopsOk, PeersOk, FdsOk;
    if a.RunTask? {
      RunTaskKeepsPeer(cfg, s, c, a.l);
    } else {
      NoneDue(s, Apply(cfg, s, a), c);
    }
  }

  // ----- all of them let go -----

  ghost predicate AllWind(acts: seq<Action>) {
    forall i :: 0 <= i < |acts| ==> Winds(acts[i])
  }

  /** `acts` leads from `s` on with `c` still finished. */
  ghost predicate WindsDown(cfg: Config, s: State, acts: seq<Action>, c: nat) {
    Runs(cfg, s, acts) && AllWind(acts) && Finished(cfg, After(cfg, s, acts), c)
  }

  lemma WindFirst(cfg: Config, s: State, a: Action, rest: seq<Action>, c: nat)
    requires Enabled(cfg, s, a) && Winds(a) && WindsDown(cfg, Apply(cfg, s, a), rest, c)
    ensures WindsDown(cfg, s, [a] + rest, c)
    ensures After(cfg, s, [a] + rest) == After(cfg, Apply(cfg, s, a), rest)
  {
    hide Enabled, Apply, Finished;
    assert ([a] + rest)[1..] == rest;
  }

  lemma {:induction false} RunsJoin(cfg: Config, s: State, acts: seq<Action>, more: seq<Action>, c: nat)
    requires WindsDown(cfg, s, acts, c) && WindsDown(cfg, After(cfg, s, acts), more, c)
    ensures WindsDown(cfg, s, acts + more, c)
    ensures After(cfg, s, acts + more) == After(cfg, After(cfg, s, acts), more)
    decreases |acts|
  {
    hide Enabled, Apply, Finished;
    if acts == [] {
      assert acts + more == more;
    } else {
      assert acts + more == [acts[0]] + (acts[1..] + more);
      RunsJoin(cfg, Apply(cfg, s, acts[0]), acts[1..], more, c);
      WindFirst(cfg, s, acts[0], acts[1..] + more, c);
    }
  }

  /** Loop `l` goes on until it no longer refers to `c`. */
  lemma {:induction false} Drain(cfg: Config, s: State, c: nat, l: nat) returns (acts: seq<Action>)
    requires Finished(cfg, s, c) && l < |s.loops|
    ensures WindsDown(cfg, s, acts, c)
    ensures var n := After(cfg, s, acts);
            |n.loops| == |s.loops| && NoneElse(s, n, l, c) && !LoopHolds(n.loops[l], c)
    decreases PhasesLeft(s.loops[l], c), StepsLeft(s, l)
  {
    hide Enabled, Apply, Finished, NextStep, LoopHolds, PhasesLeft, StepsLeft;
    if !LoopHolds(s.loops[l], c) {
      acts := [];
    } else {
      var a := NextStep(s, l);
      NextStepEnabled(cfg, s, c, l);
      NextStepShrinks(cfg, s, c, l);
      WindKeepsFinished(cfg, s, a, c);
      var n := Apply(cfg, s, a);
      if LoopHolds(n.loops[l], c) {
        var rest := Drain(cfg, n, c, l);
        WindFirst(cfg, s, a, rest, c);
        acts := [a] + rest;
      } else {
        WindFirst(cfg, s, a, [], c);
        acts := [a] + [];
      }
    }
  }

  /** The first `k` loops do. */
  lemma {:induction false} DrainLoops(cfg: Config, s: State, c: nat, k: nat) returns (acts: seq<Action>)
    requires Finished(cfg, s, c) && k <= |s.loops| && c !in s.users
    ensures WindsDown(cfg, s, acts, c)
    ensures var n := After(cfg, s, acts);
            |n.loops| == |s.loops| && c !in n.users && forall l :: 0 <= l < k ==> !LoopHolds(n.loops[l], c)
  {
    hide Enabled, Apply, Finished, LoopHolds;
    acts := [];
    if k > 0 {
      var first := DrainLoops(cfg, s, c, k - 1);
      var m := After(cfg, s, first);
      var last := Drain(cfg, m, c, k - 1);
      RunsJoin(cfg, s, first, last, c);
      acts := first + last;
    }
  }

  /** Everything lets go of a finished connection. */
  lemma LetGo(cfg: Config, s: State, c: nat) returns (acts: seq<Action>)
    requires Finished(cfg, s, c)
    ensures WindsDown(cfg, s, acts, c) && !Held(cfg, After(cfg, s, acts), c)
  {
    hide LoopHolds, Name;
    WindKeepsFinished(cfg, s, Release(c), c);
    var m := Apply(cfg, s, Release(c));
    var rest := DrainLoops(cfg, m, c, |m.loops|);
    WindFirst(cfg, s, Release(c), rest, c);
    acts := [Release(c)] + rest;
    var n := After(cfg, s, acts);
    assert PeerOk(cfg, n, c);
  }

  // ----- the same run with the channel registered -----

  lemma RegisterSameRefs(cfg: Config, s: State, c: nat, d: nat)
    requires Known(s, c)
    ensures Held(cfg, Register(s, c), d) <==> Held(cfg, s, d)
  {
    var n := Register(s, c);
    hide Name;
    assert forall l :: 0 <= l < |s.loops| ==> (LoopHolds(n.loops[l], d) <==> LoopHolds(s.loops[l], d));
  }

  lemma LockStep(cfg: Config, s: State, a: Action, c: nat)
    requires Finished(cfg, s, c) && Held(cfg, s, c) && Enabled(cfg, s, a) && Winds(a)
    ensures Known(Apply(cfg, s, a), c)
    ensures Enabled(cfg, Register(s, c), a)
    ensures Apply(cfg, Register(s, c), a) == Register(Apply(cfg, s, a), c)
  {
    hide Name, Held;
    WindKeepsFinished(cfg, s, a, c);
    match a
    case RunTask(l) => LockStepTask(cfg, s, l, c);
    case StartEvent(l) => RegisterSameRefs(cfg, s, c, s.loops[l].phase.active[0]);
    case _ =>
  }

  lemma PopCommutes(s: State, l: nat, c: nat)
    requires Known(s, c) && l < |s.loops| && s.loops[l].batch != []
    ensures Popped(Register(s, c), l) == Register(Popped(s, l), c)
  {
    assert Popped(Register(s, c), l).loops == Register(Popped(s, l), c).loops;
  }

  /** Connections on different descriptors are registered and removed independently. */
  lemma RegisterCommutes(p: State, c: nat, d: nat)
    requires Known(p, c) && Known(p, d) && c != d && p.conns[c].fd != p.conns[d].fd
    ensures Register(Register(p, c), d) == Register(Register(p, d), c)
  {
    var m, n := Register(Register(p, c), d), Register(Register(p, d), c);
    var l := p.conns[c].loop;
    assert m.loops[l].channels == n.loops[l].channels && m.loops[l].kernel == n.loops[l].kernel;
    assert m.loops == n.loops && m.conns == n.conns;
  }

  lemma UnregisterCommutes(p: State, c: nat, d: nat)
    requires Known(p, c) && Known(p, d) && c != d && p.conns[c].fd != p.conns[d].fd
    ensures Unregister(Register(p, c), d) == Register(Unregister(p, d), c)
    ensures Register(p, c).conns[d] == p.conns[d]
  {
    var m, n := Unregister(Register(p, c), d), Register(Unregister(p, d), c);
    var l := p.conns[c].loop;
    assert m.loops[l].channels == n.loops[l].channels && m.loops[l].kernel == n.loops[l].kernel;
    assert m.loops == n.loops && m.conns == n.conns;
  }

  lemma LifeCommutes(p: State, c: nat, d: nat, life: Life)
    requires Known(p, c) && Known(p, d) && c != d
    ensures SetLife(Register(p, c), d, life) == Register(SetLife(p, d, life), c)
  {
    assert SetLife(Register(p, c), d, life).conns == Register(SetLife(p, d, life), c).conns;
  }

  lemma RemoveCommutes(cfg: Config, p: State, c: nat, d: nat)
    requires Known(p, c)
    ensures BeginRemove(cfg, Register(p, c), d) == Register(BeginRemove(cfg, p, d), c)
  {
  }

  lemma KindCommutes(cfg: Config, p: State, t: Task, c: nat)
    requires Known(p, c) && Known(p, t.conn) && (t.conn == c ==> t.kind.Notifying?)
    requires t.conn != c ==> p.conns[c].fd != p.conns[t.conn].fd
    requires t.kind.Destroying? ==> p.conns[t.conn].life.Disconnected?
    ensures Known(RunKind(cfg, p, t), c)
    ensures RunKind(cfg, Register(p, c), t) == Register(RunKind(cfg, p, t), c)
  {
    hide Name, Register, Unregister;
    var d := t.conn;
    RunKindTouches(cfg, p, t);
    match t.kind
    case Establishing =>
      LifeCommutes(p, c, d, Connected);
      RegisterCommutes(SetLife(p, d, Connected), c, d);
    case Destroying =>
      UnregisterCommutes(p, c, d);
    case Removing => RemoveCommutes(cfg, p, c, d);
    case Notifying =>
  }

  lemma LockStepTask(cfg: Config, s: State, l: nat, c: nat)
    requires Finished(cfg, s, c) && Held(cfg, s, c) && Enabled(cfg, s, RunTask(l))
    ensures Known(Apply(cfg, s, RunTask(l)), c)
    ensures Enabled(cfg, Register(s, c), RunTask(l))
    ensures Apply(cfg, Register(s, c), RunTask(l)) == Register(Apply(cfg, s, RunTask(l)), c)
  {
    hide Name, RunKind, PeersOk;
    var t := s.loops[l].batch[0];
    assert LoopOk(s, l) && TaskOk(s, l, t);
    OnlyCallbacksLeft(cfg, s, c, l);
    TaskIsHeld(cfg, s, l, t);
    PopCommutes(s, l, c);
    KindCommutes(cfg, Popped(s, l), t, c);
  }

  lemma {:induction false} CarryOver(cfg: Config, s: State, acts: seq<Action>, c: nat) returns (run: seq<Action>)
    requires Finished(cfg, s, c) && WindsDown(cfg, s, acts, c) && !Held(cfg, After(cfg, s, acts), c)
    ensures Runs(cfg, Register(s, c), run) && NoHarm(cfg, Register(s, c), run)
    ensures !AllAlive(cfg, After(cfg, Register(s, c), run))
    decreases |acts|
  {
    hide Name, Held, Enabled, Apply, Inv, Register, AllAlive;
    if Held(cfg, s, c) {
      var a := acts[0];
      WindKeepsFinished(cfg, s, a, c);
      LockStep(cfg, s, a, c);
      var n := Apply(cfg, s, a);
      var rest := CarryOver(cfg, n, acts[1..], c);
      assert ([a] + rest)[1..] == rest;
      run := [a] + rest;
    } else {
      GoneIsDangling(cfg, s, c);
      run := [];
    }
  }

  lemma GoneIsDangling(cfg: Config, s: State, c: nat)
    requires Known(s, c) && !s.conns[c].added && !Held(cfg, s, c)
    ensures !AllAlive(cfg, Register(s, c))
  {
    hide Name, Held;
    RegisterSameRefs(cfg, s, c, c);
    var n, l, fd := Register(s, c), s.conns[c].loop, s.conns[c].fd;
    assert fd in n.loops[l].channels && n.loops[l].channels[fd] == c;
  }

  // ----- which steps can lead to a dangling channel -----

  /** However the threads go on, short of a further harmful send, no poller is left with a
      channel whose connection is gone. */
  ghost predicate StaysAlive(cfg: Config, s: State) {
    forall acts :: Runs(cfg, s, acts) && NoHarm(cfg, s, acts) ==> AllAlive(cfg, After(cfg, s, acts))
  }

  lemma InvStaysAlive(cfg: Config, s: State)
    requires Inv(cfg, s)
    ensures StaysAlive(cfg, s)
  {
    hide Name, Held;
    forall acts | Runs(cfg, s, acts) && NoHarm(cfg, s, acts)
      ensures AllAlive(cfg, After(cfg, s, acts))
    {
      EveryRunKeeps(cfg, s, acts);
      InvNoDangling(cfg, After(cfg, s, acts));
    }
  }

  /** A step can lead to a poller that points to a connection that is gone if and only if it
      arms a removed channel whose connectDestroyed is no longer due. */
  lemma HarmExactlyWhen(cfg: Config, s: State, a: Action)
    requires Inv(cfg, s) && Enabled(cfg, s, a)
    ensures StaysAlive(cfg, Apply(cfg, s, a)) <==> !Harms(s, a)
  {
    if Harms(s, a) {
      var acts := LetGo(cfg, s, a.c);
      var run := CarryOver(cfg, s, acts, a.c);
      assert !StaysAlive(cfg, Apply(cfg, s, a));
    } else {
      StepKeeps(cfg, s, a);
      InvStaysAlive(cfg, Apply(cfg, s, a));
    }
  }

  /** Every state of the run, the first and the last included, can only lead to such states. */
  ghost predicate AliveThroughout(cfg: Config, s: State, acts: seq<Action>)
    requires Runs(cfg, s, acts)
    decreases |acts|
  {
    StaysAlive(cfg, s) && (acts != [] ==> AliveThroughout(cfg, Apply(cfg, s, acts[0]), acts[1..]))
  }

  lemma {:induction false} RunAliveExactlyWhen(cfg: Config, s: State, acts: seq<Action>)
    requires Inv(cfg, s) && Runs(cfg, s, acts)
    ensures AliveThroughout(cfg, s, acts) <==> NoHarm(cfg, s, acts)
    decreases |acts|
  {
    hide Inv, StaysAlive, Enabled, Apply, Harms;
    InvStaysAlive(cfg, s);
    if acts != [] {
      var a, n := acts[0], Apply(cfg, s, acts[0]);
      HarmExactlyWhen(cfg, s, a);
      if Harms(s, a) {
        assert !AliveThroughout(cfg, n, acts[1..]);
      } else {
        StepKeeps(cfg, s, a);
        RunAliveExactlyWhen(cfg, n, acts[1..]);
      }
    }
  }

  /** A run of the server never comes to a point from which some poller can be left with a
      connection that is gone if and only if no send in it arms a removed channel whose
      connectDestroyed is no longer due. */
  lemma TeardownAliveExactlyWhen(cfg: Config, ioLoops: nat, acts: seq<Action>)
    requires |cfg.ipPort| <= 51 && Runs(cfg, Init(ioLoops), acts)
    ensures AliveThroughout(cfg, Init(ioLoops), acts) <==> NoHarm(cfg, Init(ioLoops), acts)
  {
    InitInv(cfg, ioLoops);
    RunAliveExactlyWhen(cfg, Init(ioLoops), acts);
  }
}
