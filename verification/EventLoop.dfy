/** The task queue and wakeup protocol of EventLoop.cpp, over every interleaving of the loop
    thread with any number of other threads.

    A step of the machine is one atomic action of one thread: a critical section, a flag
    write, an eventfd read or write, the return of a poll. Each thread has a program counter.
    What the loop does to its own variables is in `Vars`; the class at the end is the loop
    object, whose methods are proved equal to the same functions. */
module EventLoops {
  type Task = nat
  type Thread = nat

  /** The largest value an eventfd counter holds; a write that would exceed it fails. */
  const EVENTFD_MAX: nat := 0xffff_ffff_ffff_fffe

  datatype Vars = Vars(pending: seq<Task>, calling: bool, quit: bool, eventfd: nat)

  function Push(v: Vars, t: Task): Vars {
    v.(pending := v.pending + [t])
  }

  /** queueInLoop writes the eventfd unless the loop thread queues outside doPendingFunctors. */
  predicate WakeNeeded(v: Vars, inLoopThread: bool) {
    !inLoopThread || v.calling
  }

  function Wakeup(v: Vars): (r: Vars)
    ensures r.eventfd > 0
  {
    v.(eventfd := if v.eventfd < EVENTFD_MAX then v.eventfd + 1 else v.eventfd)
  }

  /** A whole queueInLoop call, and a whole quit() call. */
  function QueueCall(v: Vars, t: Task, inLoopThread: bool): Vars {
    var u := Push(v, t);
    if WakeNeeded(u, inLoopThread) then Wakeup(u) else u
  }

  function QuitCall(v: Vars, inLoopThread: bool): Vars {
    var u := v.(quit := true);
    if inLoopThread then u else Wakeup(u)
  }

  function ReadWake(v: Vars): Vars {
    v.(eventfd := 0)
  }

  /** Where the loop thread is. */
  datatype LoopPc =
    | Idle                   // loop() not yet called
    | Test                   // at the loop condition
    | Poll                   // entering or inside epoll_wait
    | Handle(wake: bool)     // running handlers; wake: the eventfd is active, not yet read
    | Swap                   // doPendingFunctors entered, the queue not yet swapped out
    | Run(owes: bool)        // running the batch; owes: a functor queued and has yet to wake
    | Stopped

  /** Where another thread is, while it is in the middle of a call. */
  datatype ThreadPc = Pushed | QuitSet

  /** `done`, `history`, `swapped` and the flags after it record what has happened: the tasks
      started and the tasks pushed, in order; the last batch and where it began in `done`;
      how many polls began; whether the loop thread queued before loop(), whether any other
      thread called in, whether a batch was ever swapped out. */
  datatype State = State(
    v: Vars,
    pc: LoopPc,
    others: map<Thread, ThreadPc>,
    batch: seq<Task>,
    done: seq<Task>,
    history: seq<Task>,
    swapped: seq<Task>,
    base: nat,
    polls: nat,
    early: bool,
    external: bool,
    swappedOnce: bool)

  const START := State(Vars([], false, false, 0), Idle, map[], [], [], [], [], 0, 0, false, false, false)

  datatype Action =
    // the loop thread
    | EarlyPush(t: Task)        // queueInLoop before loop()
    | Begin                     // loop() clears quit_
    | Check                     // while(!quit_)
    | PollReturn(wake: bool)
    | HandleWake                // the wakeup channel's read handler
    | HandlerPush(t: Task)      // queueInLoop from an event handler
    | SelfQuit                  // quit() from a handler or a functor
    | EndHandle                 // callingPendingFunctors_ = true
    | DoSwap
    | RunTask
    | FunctorPush(t: Task)      // queueInLoop from a functor: the push
    | FunctorWake               // ... and its wakeup
    | EndRun                    // callingPendingFunctors_ = false
    // any other thread
    | OtherPush(p: Thread, t: Task)
    | OtherQuit(p: Thread)
    | OtherWake(p: Thread)

  predicate Enabled(s: State, a: Action) {
    match a
    case EarlyPush(_) => s.pc.Idle?
    case Begin => s.pc.Idle?
    case Check => s.pc.Test?
    case PollReturn(wake) => s.pc.Poll? && (wake ==> s.v.eventfd > 0)
    case HandleWake => s.pc == Handle(true)
    case HandlerPush(_) => s.pc.Handle?
    case SelfQuit => s.pc.Handle? || (s.pc == Run(false) && |s.done| > s.base)
    case EndHandle => s.pc == Handle(false)
    case DoSwap => s.pc.Swap?
    case RunTask => s.pc == Run(false) && s.batch != []
    case FunctorPush(_) => s.pc == Run(false) && |s.done| > s.base
    case FunctorWake => s.pc == Run(true)
    case EndRun => s.pc == Run(false) && s.batch == []
    case OtherPush(p, _) => p !in s.others
    case OtherQuit(p) => p !in s.others
    case OtherWake(p) => p in s.others
  }

  function Queued(s: State, t: Task): State {
    s.(v := Push(s.v, t), history := s.history + [t])
  }

  function Apply(s: State, a: Action): State
    requires Enabled(s, a)
  {
    match a
    case EarlyPush(t) => Queued(s, t).(early := true)
    case Begin => s.(v := s.v.(quit := false), pc := Test)
    case Check => if s.v.quit then s.(pc := Stopped) else s.(pc := Poll, polls := s.polls + 1)
    case PollReturn(wake) => s.(pc := Handle(wake))
    case HandleWake => s.(v := ReadWake(s.v), pc := Handle(false))
    case HandlerPush(t) => Queued(s, t)
    case SelfQuit => s.(v := s.v.(quit := true))
    case EndHandle => s.(v := s.v.(calling := true), pc := Swap)
    case DoSwap => s.(v := s.v.(pending := []), pc := Run(false), batch := s.v.pending,
                      swapped := s.v.pending, base := |s.done|, swappedOnce := true)
    case RunTask => s.(batch := s.batch[1..], done := s.done + [s.batch[0]])
    case FunctorPush(t) => Queued(s, t).(pc := Run(WakeNeeded(s.v, true)))
    case FunctorWake => s.(v := Wakeup(s.v), pc := Run(false))
    case EndRun => s.(v := s.v.(calling := false), pc := Test)
    case OtherPush(p, t) => Queued(s, t).(others := s.others[p := Pushed], external := true)
    case OtherQuit(p) => s.(v := s.v.(quit := true), others := s.others[p := QuitSet], external := true)
    case OtherWake(p) => s.(v := Wakeup(s.v), others := s.others - {p})
  }

  ghost predicate Runs(s: State, acts: seq<Action>)
    decreases |acts|
  {
    acts != [] ==> Enabled(s, acts[0]) && Runs(Apply(s, acts[0]), acts[1..])
  }

  ghost function After(s: State, acts: seq<Action>): State
    requires Runs(s, acts)
    decreases |acts|
  {
    if acts == [] then s else After(Apply(s, acts[0]), acts[1..])
  }

  // ----- what every step keeps -----

  /** Some thread has yet to write the eventfd, or it was written and not read. */
  predicate WakeDue(s: State) {
    s.v.eventfd > 0 || s.others != map[] || s.pc == Run(true)
  }

  /** The eventfd was written and not read, or a thread is between its push and its write. */
  predicate PushWakeDue(s: State) {
    s.v.eventfd > 0 || s.pc == Run(true) || exists p :: p in s.others && s.others[p].Pushed?
  }

  predicate QuitWakeDue(s: State) {
    s.v.eventfd > 0 || exists p :: p in s.others && s.others[p].QuitSet?
  }

  predicate Fifo(s: State) {
    && s.done + s.batch + s.v.pending == s.history
    && (!s.pc.Run? ==> s.batch == [])
    && (s.pc.Run? ==> s.base <= |s.done| && s.done[s.base..] + s.batch == s.swapped)
    && (s.v.calling <==> s.pc.Swap? || s.pc.Run?)
  }

  predicate Wakes(s: State) {
    && (s.pc.Run? ==> s.swappedOnce)
    && (s.pc.Idle? ==> !s.swappedOnce)
    && (s.swappedOnce && (s.pc.Run? || s.pc.Test? || s.pc.Poll?) && s.v.pending != [] ==> PushWakeDue(s))
    && (!s.swappedOnce && (s.pc.Idle? || s.pc.Test? || s.pc.Poll?) ==>
          && (WakeDue(s) <==> s.external)
          && (s.early ==> s.v.pending != [])
          && (s.v.pending != [] && !s.early ==> PushWakeDue(s))
          && (s.v.pending != [] ==> s.early || s.external))
  }

  predicate Quits(s: State) {
    s.pc.Poll? && s.v.quit ==> QuitWakeDue(s)
  }

  predicate Inv(s: State) {
    Fifo(s) && Wakes(s) && Quits(s)
  }

  lemma QueuedKeepsFifo(s: State, t: Task)
    requires Fifo(s)
    ensures Fifo(Queued(s, t))
  {
    assert s.done + s.batch + (s.v.pending + [t]) == s.done + s.batch + s.v.pending + [t];
  }

  lemma RunTaskKeepsFifo(s: State)
    requires Fifo(s) && Enabled(s, RunTask)
    ensures Fifo(Apply(s, RunTask))
  {
    var n, t := Apply(s, RunTask), s.batch[0];
    assert [t] + s.batch[1..] == s.batch;
    assert s.done + [t] + s.batch[1..] == s.done + s.batch;
    assert n.done[n.base..] == s.done[s.base..] + [t];
    assert s.done[s.base..] + [t] + s.batch[1..] == s.done[s.base..] + s.batch;
  }

  lemma StepKeepsFifo(s: State, a: Action)
    requires Fifo(s) && Enabled(s, a)
    ensures Fifo(Apply(s, a))
  {
    if a.EarlyPush? || a.HandlerPush? || a.FunctorPush? || a.OtherPush? {
      QueuedKeepsFifo(s, a.t);
    } else if a.RunTask? {
      RunTaskKeepsFifo(s);
    } else if a.DoSwap? {
      assert s.done + [] + s.v.pending == s.done + s.v.pending + [];
    }
  }

  lemma StepKeepsPushWake(s: State, a: Action)
    requires Enabled(s, a) && PushWakeDue(s) && !a.HandleWake?
    ensures PushWakeDue(Apply(s, a))
  {
    var n := Apply(s, a);
    if n.v.eventfd == 0 && s.pc != Run(true) {
      var p :| p in s.others && s.others[p].Pushed?;
      assert p in n.others && n.others[p].Pushed?;
    }
  }

  lemma StepKeepsWakes(s: State, a: Action)
    requires Fifo(s) && Wakes(s) && Enabled(s, a)
    ensures Wakes(Apply(s, a))
  {
    var n := Apply(s, a);
    if PushWakeDue(s) && !a.HandleWake? {
      StepKeepsPushWake(s, a);
    }
    if a.OtherPush? || a.OtherQuit? {
      assert a.p in n.others;
      assert a.OtherPush? ==> n.others[a.p].Pushed?;
    }
  }

  lemma StepKeepsQuits(s: State, a: Action)
    requires Quits(s) && Enabled(s, a)
    ensures Quits(Apply(s, a))
  {
    var n := Apply(s, a);
    if n.pc.Poll? && n.v.quit && n.v.eventfd == 0 {
      if a.OtherQuit? {
        assert n.others[a.p].QuitSet?;
      } else {
        var p :| p in s.others && s.others[p].QuitSet?;
        assert p in n.others && n.others[p].QuitSet?;
      }
    }
  }

  lemma {:induction false} EveryRunKeepsInv(s: State, acts: seq<Action>)
    requires Inv(s) && Runs(s, acts)
    ensures Inv(After(s, acts))
    decreases |acts|
  {
    if acts != [] {
      StepKeepsFifo(s, acts[0]);
      StepKeepsWakes(s, acts[0]);
      StepKeepsQuits(s, acts[0]);
      EveryRunKeepsInv(Apply(s, acts[0]), acts[1..]);
    }
  }

  // ----- the theorems, for every interleaving -----

  /** The tasks queued in a run, by whichever thread, in order. */
  function Pushes(acts: seq<Action>): seq<Task> {
    if acts == [] then [] else PushedBy(acts[0]) + Pushes(acts[1..])
  }

  function PushedBy(a: Action): seq<Task> {
    if a.EarlyPush? || a.HandlerPush? || a.FunctorPush? || a.OtherPush? then [a.t] else []
  }

  lemma StepPushes(s: State, a: Action)
    requires Enabled(s, a)
    ensures Apply(s, a).history == s.history + PushedBy(a)
  {
  }

  lemma {:induction false} HistoryIsPushes(s: State, acts: seq<Action>)
    requires Runs(s, acts)
    ensures After(s, acts).history == s.history + Pushes(acts)
    decreases |acts|
  {
    hide Enabled, Apply, PushedBy;
    if acts != [] {
      StepPushes(s, acts[0]);
      HistoryIsPushes(Apply(s, acts[0]), acts[1..]);
    }
  }

  /** Tasks run exactly once and in the order they were queued, and a batch is what was queued
      at its swap. */
  lemma TasksRunOnceInOrder(acts: seq<Action>)
    requires Runs(START, acts)
    ensures var s := After(START, acts);
            && s.done + s.batch + s.v.pending == Pushes(acts)
            && (s.pc.Run? ==> s.base <= |s.done| && s.done[s.base..] + s.batch == s.swapped)
  {
    EveryRunKeepsInv(START, acts);
    HistoryIsPushes(START, acts);
  }

  // ----- what each wakeup and each quit does -----

  predicate IsWrite(a: Action) { a.FunctorWake? || a.OtherWake? }

  /** Whether the eventfd was written after it was last read; `before` is the answer for what
      came before the run. */
  function Unread(acts: seq<Action>, before: bool): bool {
    if acts == [] then before
    else Unread(acts[1..], IsWrite(acts[0]) || (before && !acts[0].HandleWake?))
  }

  /** Whether quit() was called after loop() last began. */
  function QuitMade(acts: seq<Action>, before: bool): bool {
    if acts == [] then before
    else QuitMade(acts[1..], acts[0].SelfQuit? || acts[0].OtherQuit? || (before && !acts[0].Begin?))
  }

  lemma StepSignals(s: State, a: Action)
    requires Enabled(s, a)
    ensures Apply(s, a).v.eventfd > 0 <==> IsWrite(a) || (s.v.eventfd > 0 && !a.HandleWake?)
    ensures Apply(s, a).v.quit <==> a.SelfQuit? || a.OtherQuit? || (s.v.quit && !a.Begin?)
  {
  }

  /** The eventfd is readable exactly when it was written and not read since, and the flag is
      set exactly when a quit() was made since loop() began. */
  lemma {:induction false} SignalsExactlyWhen(s: State, acts: seq<Action>)
    requires Runs(s, acts)
    ensures After(s, acts).v.eventfd > 0 <==> Unread(acts, s.v.eventfd > 0)
    ensures After(s, acts).v.quit <==> QuitMade(acts, s.v.quit)
    decreases |acts|
  {
    hide Enabled, Apply, IsWrite;
    if acts != [] {
      StepSignals(s, acts[0]);
      SignalsExactlyWhen(Apply(s, acts[0]), acts[1..]);
    }
  }

  lemma {:induction false} UnreadNeedsWrite(acts: seq<Action>)
    requires !Any(acts, IsWrite)
    ensures !Unread(acts, false)
  {
    if acts != [] {
      AnySplit(acts, IsWrite);
      assert !IsWrite(acts[0]);
      UnreadNeedsWrite(acts[1..]);
    }
  }

  /** A wakeup is used up by its handler: until somebody writes the eventfd again no poll
      returns because of it, so the loop does not spin. */
  lemma WakeupIsConsumed(s: State, later: seq<Action>)
    requires Enabled(s, HandleWake) && Runs(Apply(s, HandleWake), later) && !Any(later, IsWrite)
    ensures var n := After(Apply(s, HandleWake), later);
            n.v.eventfd == 0 && !Enabled(n, PollReturn(true))
  {
    SignalsExactlyWhen(Apply(s, HandleWake), later);
    UnreadNeedsWrite(later);
  }

  /** The handler has yet to read the eventfd, or there is nothing to read. */
  predicate ReadPending(s: State) {
    s.pc == Handle(true) || s.v.eventfd == 0
  }

  lemma StepKeepsReadPending(s: State, a: Action)
    requires ReadPending(s) && Enabled(s, a) && !IsWrite(a)
    ensures ReadPending(Apply(s, a))
  {
  }

  lemma {:induction false} RunKeepsReadPending(s: State, acts: seq<Action>)
    requires ReadPending(s) && Runs(s, acts) && !Any(acts, IsWrite)
    ensures ReadPending(After(s, acts))
    decreases |acts|
  {
    hide Enabled, Apply, ReadPending;
    if acts != [] {
      AnySplit(acts, IsWrite);
      StepKeepsReadPending(s, acts[0]);
      RunKeepsReadPending(Apply(s, acts[0]), acts[1..]);
    }
  }

  /** Between two polls that report the eventfd somebody wrote it: a poll that reported it is
      followed by a read before the next poll. */
  lemma ReportsNeedWrites(s: State, later: seq<Action>)
    requires Enabled(s, PollReturn(true)) && Runs(Apply(s, PollReturn(true)), later)
    requires Enabled(After(Apply(s, PollReturn(true)), later), PollReturn(true))
    ensures Any(later, IsWrite)
  {
    if !Any(later, IsWrite) {
      RunKeepsReadPending(Apply(s, PollReturn(true)), later);
    }
  }

  lemma {:induction false} StoppedIsQuit(s: State, acts: seq<Action>)
    requires Runs(s, acts) && (s.pc.Stopped? ==> s.v.quit)
    ensures After(s, acts).pc.Stopped? ==> After(s, acts).v.quit
    decreases |acts|
  {
    if acts != [] {
      StoppedIsQuit(Apply(s, acts[0]), acts[1..]);
    }
  }

  /** The loop ends only through quit(): it has stopped only if one was made since it began, and
      at its test it stops exactly then. */
  lemma StopsExactlyWhen(acts: seq<Action>)
    requires Runs(START, acts)
    ensures var s := After(START, acts);
            && (s.pc.Stopped? ==> QuitMade(acts, false))
            && (s.pc.Test? ==> if QuitMade(acts, false) then Apply(s, Check).pc.Stopped? else Apply(s, Check).pc.Poll?)
  {
    StoppedIsQuit(START, acts);
    SignalsExactlyWhen(START, acts);
  }

  // ----- no lost wakeup -----

  /** The loop is about to wait, or waits, with a task queued and nothing to wake it. */
  predicate Stranded(s: State) {
    (s.pc.Test? || s.pc.Poll?) && s.v.pending != [] && s.v.eventfd == 0 && s.others == map[]
  }

  predicate IsEarlyPush(a: Action) { a.EarlyPush? }
  predicate IsOutsideCall(a: Action) { a.OtherPush? || a.OtherQuit? }
  predicate IsSwap(a: Action) { a.DoSwap? }

  ghost predicate Any(acts: seq<Action>, f: Action -> bool) {
    exists i :: 0 <= i < |acts| && f(acts[i])
  }

  lemma AnySplit(acts: seq<Action>, f: Action -> bool)
    requires acts != []
    ensures Any(acts, f) <==> f(acts[0]) || Any(acts[1..], f)
  {
    if i :| 0 <= i < |acts| && f(acts[i]) {
      assert i > 0 ==> f(acts[1..][i - 1]);
    }
    if i :| 0 <= i < |acts| - 1 && f(acts[1..][i]) {
      assert f(acts[i + 1]);
    }
  }

  lemma FlagStep(s: State, a: Action)
    requires Enabled(s, a)
    ensures var n := Apply(s, a);
            && (n.early <==> s.early || IsEarlyPush(a))
            && (n.external <==> s.external || IsOutsideCall(a))
            && (n.swappedOnce <==> s.swappedOnce || IsSwap(a))
  {
  }

  /** The history flags are what they say: a push by the loop thread before loop(), a call by
      another thread, a swap. */
  lemma {:induction false} FlagsMeanActions(s: State, acts: seq<Action>)
    requires Runs(s, acts)
    ensures After(s, acts).early <==> s.early || Any(acts, IsEarlyPush)
    ensures After(s, acts).external <==> s.external || Any(acts, IsOutsideCall)
    ensures After(s, acts).swappedOnce <==> s.swappedOnce || Any(acts, IsSwap)
    decreases |acts|
  {
    hide Enabled, Apply;
    if acts != [] {
      FlagStep(s, acts[0]);
      FlagsMeanActions(Apply(s, acts[0]), acts[1..]);
      AnySplit(acts, IsEarlyPush);
      AnySplit(acts, IsOutsideCall);
      AnySplit(acts, IsSwap);
    }
  }

  /** No lost wakeup, exactly: a task is stranded if and only if in the run so far the loop
      thread itself queued one before loop(), no other thread has queued or quit, and no batch
      has been taken. */
  lemma StrandedExactlyWhen(acts: seq<Action>)
    requires Runs(START, acts)
    ensures var s := After(START, acts);
            s.pc.Test? || s.pc.Poll? ==>
              (Stranded(s) <==> Any(acts, IsEarlyPush) && !Any(acts, IsOutsideCall) && !Any(acts, IsSwap))
  {
    EveryRunKeepsInv(START, acts);
    FlagsMeanActions(START, acts);
  }

  /** With nothing queued by the loop thread before loop(), a loop that waits, or is about to,
      over a queued task has a wakeup written, or one due from a thread that has pushed. */
  lemma NoLostWakeup(acts: seq<Action>)
    requires Runs(START, acts) && !Any(acts, IsEarlyPush)
    ensures var s := After(START, acts);
            (s.pc.Test? || s.pc.Poll?) && s.v.pending != [] ==>
              s.v.eventfd > 0 || exists p :: p in s.others && s.others[p].Pushed?
  {
    EveryRunKeepsInv(START, acts);
    FlagsMeanActions(START, acts);
  }

  lemma RunOne(s: State, a: Action)
    requires Enabled(s, a)
    ensures Runs(s, [a]) && After(s, [a]) == Apply(s, a)
  {
    assert [a][1..] == [];
    assert After(Apply(s, a), [a][1..]) == Apply(s, a);
  }

  lemma RunTwo(s: State, a: Action, b: Action)
    requires Enabled(s, a) && Enabled(Apply(s, a), b)
    ensures Runs(s, [a, b]) && After(s, [a, b]) == Apply(Apply(s, a), b)
  {
    RunOne(Apply(s, a), b);
    assert [a, b][1..] == [b];
  }

  /** The exception does happen: queue, start the loop, and it waits over the task. */
  lemma EarlyPushIsStranded(t: Task)
    ensures Runs(START, [EarlyPush(t), Begin, Check])
    ensures var s := After(START, [EarlyPush(t), Begin, Check]); s.pc.Poll? && Stranded(s)
  {
    RunTwo(Apply(START, EarlyPush(t)), Begin, Check);
    assert [EarlyPush(t), Begin, Check][1..] == [Begin, Check];
  }

  lemma QuitStep(s: State, a: Action)
    requires Enabled(s, a) && s.v.quit && !s.pc.Idle?
    ensures var n := Apply(s, a); n.v.quit && n.polls == s.polls && !n.pc.Idle?
  {
  }

  /** Once quit_ is set after loop() began, it stays set and no further poll begins. */
  lemma {:induction false} QuitEndsPolling(s: State, acts: seq<Action>)
    requires Runs(s, acts) && s.v.quit && !s.pc.Idle?
    ensures var n := After(s, acts); n.v.quit && n.polls == s.polls && !n.pc.Idle?
    decreases |acts|
  {
    if acts != [] {
      QuitStep(s, acts[0]);
      QuitEndsPolling(Apply(s, acts[0]), acts[1..]);
    }
  }

  /** Exactly the quits made after loop() began take effect: loop() erases an earlier one. */
  lemma QuitTakesEffectExactlyWhen(s: State)
    requires s.v.quit
    ensures (forall acts :: Runs(s, acts) ==> After(s, acts).polls == s.polls) <==> !s.pc.Idle?
  {
    if s.pc.Idle? {
      RunTwo(s, Begin, Check);
      assert After(s, [Begin, Check]).polls == s.polls + 1;
    } else {
      forall acts | Runs(s, acts)
        ensures After(s, acts).polls == s.polls
      {
        QuitEndsPolling(s, acts);
      }
    }
  }

  /** ... and the poll in progress, if any, cannot stay blocked: the eventfd is readable or
      the thread that quit has yet to write it. */
  lemma QuitUnblocksPoll(acts: seq<Action>)
    requires Runs(START, acts)
    ensures var s := After(START, acts); s.pc.Poll? && s.v.quit ==> QuitWakeDue(s)
  {
    EveryRunKeepsInv(START, acts);
  }

  function CountRuns(acts: seq<Action>): nat {
    if acts == [] then 0 else (if acts[0].RunTask? then 1 else 0) + CountRuns(acts[1..])
  }

  ghost predicate StaysInBatch(s: State, acts: seq<Action>)
    requires Runs(s, acts)
    decreases |acts|
  {
    s.pc.Run? && (acts != [] ==> StaysInBatch(Apply(s, acts[0]), acts[1..]))
  }

  lemma BatchStep(s: State, a: Action)
    requires Enabled(s, a) && s.pc.Run?
    ensures var n := Apply(s, a);
            |n.batch| + (if a.RunTask? then 1 else 0) == |s.batch| && n.base == s.base && n.swapped == s.swapped
  {
  }

  /** However often functors queue further tasks, between a swap and the next poll the loop
      starts exactly the tasks of the batch, and only those. */
  lemma {:induction false} BatchIsBounded(s: State, acts: seq<Action>)
    requires Runs(s, acts) && StaysInBatch(s, acts)
    ensures var n := After(s, acts);
            && CountRuns(acts) + |n.batch| == |s.batch|
            && n.base == s.base && n.swapped == s.swapped
            && (Enabled(n, EndRun) ==> CountRuns(acts) == |s.batch|)
    decreases |acts|
  {
    if acts != [] {
      BatchStep(s, acts[0]);
      BatchIsBounded(Apply(s, acts[0]), acts[1..]);
    }
  }

  // ----- whole calls as runs -----

  lemma {:induction false} RunAppend(s: State, a: seq<Action>, b: seq<Action>)
    requires Runs(s, a) && Runs(After(s, a), b)
    ensures Runs(s, a + b) && After(s, a + b) == After(After(s, a), b)
    decreases |a|
  {
    hide Enabled, Apply;
    if a == [] {
      assert a + b == b;
    } else {
      assert (a + b)[1..] == a[1..] + b;
      RunAppend(Apply(s, a[0]), a[1..], b);
    }
  }

  /** queueInLoop, taken whole, is a run of the machine: two steps by another thread or by a
      running functor, one by a handler. */
  lemma QueueCallIsARun(s: State, p: Thread, t: Task)
    requires Fifo(s)
    ensures p !in s.others ==>
              && Runs(s, [OtherPush(p, t), OtherWake(p)])
              && After(s, [OtherPush(p, t), OtherWake(p)]).v == QueueCall(s.v, t, false)
    ensures Enabled(s, HandlerPush(t)) ==> Apply(s, HandlerPush(t)).v == QueueCall(s.v, t, true)
    ensures Enabled(s, FunctorPush(t)) ==>
              && Runs(s, [FunctorPush(t), FunctorWake])
              && After(s, [FunctorPush(t), FunctorWake]).v == QueueCall(s.v, t, true)
  {
    hide Runs, After;
    if p !in s.others {
      RunTwo(s, OtherPush(p, t), OtherWake(p));
    }
    if Enabled(s, FunctorPush(t)) {
      RunTwo(s, FunctorPush(t), FunctorWake);
    }
  }

  /** So is quit(); and from another thread, made while the loop waits, it leaves the poll with
      the eventfd readable and no poll to follow in any continuation. */
  lemma QuitCallIsARun(s: State, p: Thread, later: seq<Action>)
    requires p !in s.others
    ensures Enabled(s, SelfQuit) ==> Apply(s, SelfQuit).v == QuitCall(s.v, true)
    ensures Runs(s, [OtherQuit(p), OtherWake(p)])
    ensures var n := After(s, [OtherQuit(p), OtherWake(p)]);
            && n.v == QuitCall(s.v, false) && n.pc == s.pc
            && (s.pc.Poll? && Runs(n, later) ==>
                  Enabled(n, PollReturn(true)) && After(n, later).polls == s.polls)
  {
    RunTwo(s, OtherQuit(p), OtherWake(p));
    hide Runs, After, Apply;
    var n := After(s, [OtherQuit(p), OtherWake(p)]);
    if s.pc.Poll? && Runs(n, later) {
      QuitEndsPolling(n, later);
    }
  }

  // ----- a whole batch -----

  /** A task queued while a functor runs, by the functor itself or by another thread. */
  datatype Arrival = Arrival(t: Task, inLoopThread: bool)

  function Arrive(v: Vars, arrivals: seq<Arrival>): Vars {
    if arrivals == [] then v
    else
      var n := |arrivals| - 1;
      QueueCall(Arrive(v, arrivals[..n]), arrivals[n].t, arrivals[n].inLoopThread)
  }

  /** The first `n` functors of a batch run; `during(i)` arrives while functor `i` does. */
  function RunFunctors(v: Vars, n: nat, during: nat -> seq<Arrival>): Vars {
    if n == 0 then v else Arrive(RunFunctors(v, n - 1, during), during(n - 1))
  }

  function DoPending(v: Vars, during: nat -> seq<Arrival>): Vars {
    RunFunctors(v.(calling := true, pending := []), |v.pending|, during).(calling := false)
  }

  function ArrivalTasks(arrivals: seq<Arrival>): seq<Task> {
    if arrivals == [] then []
    else ArrivalTasks(arrivals[..|arrivals| - 1]) + [arrivals[|arrivals| - 1].t]
  }

  /** Everything that arrives during the first `n` functors, in order. */
  function Arrived(n: nat, during: nat -> seq<Arrival>): seq<Task> {
    if n == 0 then [] else Arrived(n - 1, during) + ArrivalTasks(during(n - 1))
  }

  lemma {:induction false} ArriveSpec(v: Vars, arrivals: seq<Arrival>)
    requires v.calling
    ensures var u := Arrive(v, arrivals);
            && u.calling && u.quit == v.quit && u.pending == v.pending + ArrivalTasks(arrivals)
            && u.eventfd >= v.eventfd && (arrivals != [] ==> u.eventfd > 0)
  {
    if arrivals != [] {
      ArriveSpec(v, arrivals[..|arrivals| - 1]);
    }
  }

  lemma {:induction false} RunFunctorsSpec(v: Vars, n: nat, during: nat -> seq<Arrival>)
    requires v.calling && v.pending == []
    ensures var u := RunFunctors(v, n, during);
            && u.calling && u.quit == v.quit && u.pending == Arrived(n, during)
            && u.eventfd >= v.eventfd && (u.pending != [] ==> u.eventfd > 0)
  {
    if n > 0 {
      RunFunctorsSpec(v, n - 1, during);
      ArriveSpec(RunFunctors(v, n - 1, during), during(n - 1));
      assert during(n - 1) == [] ==> ArrivalTasks(during(n - 1)) == [];
    }
  }

  /** After a batch the queue is what arrived while it ran, in order, and if there is anything
      the eventfd is readable. */
  lemma DoPendingSpec(v: Vars, during: nat -> seq<Arrival>)
    ensures var u := DoPending(v, during);
            && u.pending == Arrived(|v.pending|, during) && !u.calling && u.quit == v.quit
            && u.eventfd >= v.eventfd && (u.pending != [] ==> u.eventfd > 0)
  {
    RunFunctorsSpec(v.(calling := true, pending := []), |v.pending|, during);
  }

  function ArrivalActions(arrivals: seq<Arrival>, p: Thread): seq<Action> {
    if arrivals == [] then []
    else
      var n := |arrivals| - 1;
      ArrivalActions(arrivals[..n], p)
      + (if arrivals[n].inLoopThread then [FunctorPush(arrivals[n].t), FunctorWake]
         else [OtherPush(p, arrivals[n].t), OtherWake(p)])
  }

  function FunctorActions(n: nat, during: nat -> seq<Arrival>, p: Thread): seq<Action> {
    if n == 0 then [] else FunctorActions(n - 1, during, p) + [RunTask] + ArrivalActions(during(n - 1), p)
  }

  /** The steps of one doPendingFunctors call, outside calls being made by thread `p`. */
  function BatchActions(n: nat, during: nat -> seq<Arrival>, p: Thread): seq<Action> {
    [EndHandle, DoSwap] + FunctorActions(n, during, p) + [EndRun]
  }

  /** What the arrivals during one functor leave alone. */
  predicate SameBatch(s: State, n: State) {
    n.pc == s.pc && n.batch == s.batch && n.done == s.done && n.base == s.base && n.others == s.others
  }

  lemma ArrivalStep(s: State, a: Arrival, p: Thread)
    requires s.pc == Run(false) && s.v.calling && |s.done| > s.base && p !in s.others
    ensures var acts := ArrivalActions([a], p);
            && Runs(s, acts) && After(s, acts).v == QueueCall(s.v, a.t, a.inLoopThread) && SameBatch(s, After(s, acts))
  {
    assert ArrivalActions([a][..0], p) == [];
    if a.inLoopThread {
      RunTwo(s, FunctorPush(a.t), FunctorWake);
      assert ArrivalActions([a], p) == [FunctorPush(a.t), FunctorWake];
    } else {
      RunTwo(s, OtherPush(p, a.t), OtherWake(p));
      assert ArrivalActions([a], p) == [OtherPush(p, a.t), OtherWake(p)];
      assert s.others[p := Pushed] - {p} == s.others;
    }
  }

  lemma {:induction false} ArrivalRun(s: State, arrivals: seq<Arrival>, p: Thread)
    requires s.pc == Run(false) && s.v.calling && |s.done| > s.base && p !in s.others
    ensures var acts := ArrivalActions(arrivals, p);
            && Runs(s, acts) && After(s, acts).v == Arrive(s.v, arrivals) && SameBatch(s, After(s, acts))
    decreases |arrivals|
  {
    if arrivals != [] {
      var n := |arrivals| - 1;
      var init, last := arrivals[..n], arrivals[n];
      ArrivalRun(s, init, p);
      ArriveSpec(s.v, init);
      var u := After(s, ArrivalActions(init, p));
      ArrivalStep(u, last, p);
      RunAppend(s, ArrivalActions(init, p), ArrivalActions([last], p));
      assert ArrivalActions([last][..0], p) == [];
      assert ArrivalActions(arrivals, p) == ArrivalActions(init, p) + ArrivalActions([last], p);
    }
  }

  lemma {:induction false} FunctorRun(s: State, n: nat, during: nat -> seq<Arrival>, p: Thread)
    requires s.pc == Run(false) && s.v.calling && s.v.pending == [] && |s.done| == s.base && p !in s.others
    requires n <= |s.batch|
    ensures var acts := FunctorActions(n, during, p);
            && Runs(s, acts)
            && var u := After(s, acts);
            && u.v == RunFunctors(s.v, n, during) && u.pc == Run(false) && u.others == s.others && u.base == s.base
            && u.batch == s.batch[n..] && u.done == s.done + s.batch[..n]
  {
    if n > 0 {
      hide Enabled, Apply, RunFunctors, Arrive, Runs, After;
      FunctorRun(s, n - 1, during, p);
      RunFunctorsSpec(s.v, n - 1, during);
      FunctorRunNext(s, n, during, p);
    } else {
      assert FunctorActions(0, during, p) == [];
    }
  }

  /** One more functor and what arrives while it runs. */
  lemma FunctorRunNext(s: State, n: nat, during: nat -> seq<Arrival>, p: Thread)
    requires 0 < n <= |s.batch| && Runs(s, FunctorActions(n - 1, during, p)) && p !in s.others
    requires var u := After(s, FunctorActions(n - 1, during, p));
             && u.v == RunFunctors(s.v, n - 1, during) && u.pc == Run(false) && u.others == s.others && u.base == s.base
             && u.batch == s.batch[n - 1..] && u.done == s.done + s.batch[..n - 1] && u.v.calling
    requires |s.done| == s.base
    ensures var acts := FunctorActions(n, during, p);
            && Runs(s, acts)
            && var u := After(s, acts);
            && u.v == RunFunctors(s.v, n, during) && u.pc == Run(false) && u.others == s.others && u.base == s.base
            && u.batch == s.batch[n..] && u.done == s.done + s.batch[..n]
  {
    var before, arrive := FunctorActions(n - 1, during, p), ArrivalActions(during(n - 1), p);
    var u := After(s, before);
    var w := Apply(u, RunTask);
    RunOne(u, RunTask);
    RunAppend(s, before, [RunTask]);
    ArrivalRun(w, during(n - 1), p);
    RunAppend(s, before + [RunTask], arrive);
    assert w.batch == s.batch[n..] && w.done == s.done + s.batch[..n];
  }

  /** One call of doPendingFunctors, with any tasks queued meanwhile by its functors and by
      other threads, is a run of the machine from the end of the handlers to the loop test. */
  lemma BatchIsARun(s: State, during: nat -> seq<Arrival>, p: Thread)
    requires s.pc == Handle(false) && s.batch == [] && p !in s.others
    ensures var acts := BatchActions(|s.v.pending|, during, p);
            && Runs(s, acts)
            && var n := After(s, acts);
            && n.v == DoPending(s.v, during) && n.pc == Test && n.done == s.done + s.v.pending && n.others == s.others
  {
    var k := |s.v.pending|;
    var u := Apply(Apply(s, EndHandle), DoSwap);
    RunTwo(s, EndHandle, DoSwap);
    FunctorRun(u, k, during, p);
    var middle := FunctorActions(k, during, p);
    RunAppend(s, [EndHandle, DoSwap], middle);
    var w := After(u, middle);
    RunOne(w, EndRun);
    RunAppend(s, [EndHandle, DoSwap] + middle, [EndRun]);
  }

  // ----- the loop object -----

  class EventLoop {
    var pendingFunctors: seq<Task>
    var callingPendingFunctors: bool
    var quitFlag: bool
    ghost var eventfd: nat
    ghost var executed: seq<Task>

    ghost function View(): Vars
      reads this
    {
      Vars(pendingFunctors, callingPendingFunctors, quitFlag, eventfd)
    }

    constructor ()
      ensures View() == START.v && executed == []
      ensures pendingFunctors == [] && !callingPendingFunctors && !quitFlag && eventfd == 0
    {
      pendingFunctors, callingPendingFunctors, quitFlag := [], false, false;
      eventfd, executed := 0, [];
    }

    ghost method WriteEventfd()
      modifies this`eventfd
      ensures View() == Wakeup(old(View()))
    {
      eventfd := if eventfd < EVENTFD_MAX then eventfd + 1 else eventfd;
    }

    method HandleRead()
      modifies this`eventfd
      ensures View() == ReadWake(old(View()))
      ensures eventfd == 0
    {
      eventfd := 0;
    }

    method QueueInLoop(t: Task, inLoopThread: bool)
      modifies this`pendingFunctors, this`eventfd
      ensures View() == QueueCall(old(View()), t, inLoopThread)
      ensures pendingFunctors == old(pendingFunctors) + [t]
      ensures if inLoopThread && !callingPendingFunctors then eventfd == old(eventfd) else eventfd > 0
    {
      pendingFunctors := pendingFunctors + [t];
      if !inLoopThread || callingPendingFunctors {
        WriteEventfd();
      }
    }

    method QuitLoop(inLoopThread: bool)
      modifies this`quitFlag, this`eventfd
      ensures View() == QuitCall(old(View()), inLoopThread)
      ensures quitFlag && (if inLoopThread then eventfd == old(eventfd) else eventfd > 0)
    {
      quitFlag := true;
      if !inLoopThread {
        WriteEventfd();
      }
    }

    /** Runs exactly the tasks that were queued on entry, in order, whatever is queued while
        they run; that is left for the next round, and if there is any the loop will be woken
        for it. */
    method DoPendingFunctors(during: nat -> seq<Arrival>)
      modifies this
      ensures executed == old(executed) + old(pendingFunctors)
      ensures View() == DoPending(old(View()), during)
      ensures pendingFunctors == Arrived(|old(pendingFunctors)|, during)
      ensures pendingFunctors != [] ==> eventfd > 0
      ensures !callingPendingFunctors && quitFlag == old(quitFlag)
    {
      hide Arrive, Arrived;
      DoPendingSpec(View(), during);
      callingPendingFunctors := true;
      var functors := pendingFunctors;
      pendingFunctors := [];
      ghost var start := View();
      for i := 0 to |functors|
        invariant executed == old(executed) + functors[..i]
        invariant View() == RunFunctors(start, i, during)
      {
        executed := executed + [functors[i]];
        QueueAll(during(i));
      }
      callingPendingFunctors := false;
    }

    /** The queueInLoop calls made while one functor runs. */
    method QueueAll(arrivals: seq<Arrival>)
      modifies this`pendingFunctors, this`eventfd
      ensures View() == Arrive(old(View()), arrivals)
    {
      for j := 0 to |arrivals|
        invariant View() == Arrive(old(View()), arrivals[..j])
      {
        assert arrivals[..j + 1][..j] == arrivals[..j];
        QueueInLoop(arrivals[j].t, arrivals[j].inLoopThread);
      }
      assert arrivals[..|arrivals|] == arrivals;
    }
  }
}
