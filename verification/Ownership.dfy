/** Safe teardown: what every step of the server machine keeps, and what follows for every
    run. */
module Ownership {
  import opened Lifecycle
  import opened Names
  import opened Pools
  import opened Servers

  // ----- the invariant -----

  /** A functor is on the right loop, and its connection is far enough along for it. */
  predicate TaskOk(s: State, l: nat, t: Task) {
    && t.conn < |s.conns|
    && (if t.kind.Removing? then l == 0 else s.conns[t.conn].loop == l)
    && (t.kind.Removing? || t.kind.Destroying? ==> s.conns[t.conn].life.Disconnected?)
    && (t.kind.Destroying? ==> t.conn in s.erased)
    && (t.kind.Notifying? ==> !s.conns[t.conn].life.Connecting?)
  }

  predicate TasksOk(s: State, l: nat, q: seq<Task>) {
    forall i :: 0 <= i < |q| ==> TaskOk(s, l, q[i])
  }

  predicate OnLoop(s: State, l: nat, c: nat) {
    c < |s.conns| && s.conns[c].loop == l && s.conns[c].added
  }

  predicate ActiveOk(s: State, l: nat, active: seq<nat>) {
    forall i :: 0 <= i < |active| ==> OnLoop(s, l, active[i])
  }

  predicate ChannelsOk(s: State, l: nat, m: map<int, nat>) {
    forall fd :: fd in m ==> OnLoop(s, l, m[fd]) && s.conns[m[fd]].fd == fd
  }

  /** connectEstablished is queued at most once for a connection. */
  predicate EstablishedOnce(q: seq<Task>) {
    forall i, j :: 0 <= i < j < |q| && q[i].kind.Establishing? ==> q[i] != q[j]
  }

  predicate LoopOk(s: State, l: nat)
    requires l < |s.loops|
  {
    var L := s.loops[l];
    && TasksOk(s, l, L.ran) && TasksOk(s, l, L.batch) && TasksOk(s, l, L.queue)
    && EstablishedOnce(Pend(L))
    && (!L.phase.Running? ==> L.ran == [] && L.batch == [])
    && (L.phase.Handling? ==> ActiveOk(s, l, L.phase.active) && (L.phase.busy ==> L.phase.active != []))
    && L.channels == L.kernel
    && ChannelsOk(s, l, L.channels)
  }

  predicate DestroyQueued(s: State, c: nat) {
    Known(s, c) && Task(Destroying, c) in Pend(s.loops[s.conns[c].loop])
  }

  predicate RemovalQueued(s: State, c: nat) {
    |s.loops| > 0 && Task(Removing, c) in Pend(s.loops[0])
  }

  /** A connectDestroyed for the connection is still to come: it is queued on the connection's
      loop, or the main thread is about to queue it, or a removal that will do so is queued on
      the main loop. */
  predicate DestroyDue(s: State, c: nat) {
    s.removing == Some(c) || DestroyQueued(s, c) || RemovalQueued(s, c)
  }

  predicate PeerOk(cfg: Config, s: State, c: nat)
    requires c < |s.conns|
  {
    var p := s.conns[c];
    && p.loop < |s.loops|
    && var L := s.loops[p.loop];
    && (Name(cfg, c) in s.connections <==> c !in s.erased)
    && (p.life.Connecting? <==> Task(Establishing, c) in Pend(L))
    && (p.life.Connecting? ==> !p.added && c !in s.erased && c !in s.users)
    && (p.life.Connected? || p.life.Disconnecting? ==> p.added && c !in s.erased)
    && (p.life.Disconnected? && !p.added ==> c in s.erased)
    && (p.added ==> c !in s.erased || DestroyDue(s, c))
    && (p.added ==> p.fd in L.channels && L.channels[p.fd] == c)
    && (s.removing == Some(c) ==> p.life.Disconnected? && c in s.erased)
  }

  predicate BookOk(cfg: Config, s: State) {
    && |cfg.ipPort| <= 51 && |s.conns| + 1 < INT_LIMIT
    && |s.loops| > 0 && (if |s.loops| == 1 then s.next == 0 else s.next < |s.loops| - 1)
    && (forall n :: n in s.connections ==> s.connections[n] < |s.conns| && n == Name(cfg, s.connections[n]))
    && (forall c :: c in s.users ==> c < |s.conns|)
    && (forall c :: c in s.erased ==> c < |s.conns|)
    && (s.removing.Some? ==> s.removing.value < |s.conns|)
  }

  predicate FdsOk(cfg: Config, s: State) {
    forall c, d :: 0 <= c < d < |s.conns| && Held(cfg, s, c) && Held(cfg, s, d) ==> s.conns[c].fd != s.conns[d].fd
  }

  predicate LoopsOk(s: State) {
    forall l :: 0 <= l < |s.loops| ==> LoopOk(s, l)
  }

  predicate PeersOk(cfg: Config, s: State) {
    forall c :: 0 <= c < |s.conns| ==> PeerOk(cfg, s, c)
  }

  predicate Inv(cfg: Config, s: State) {
    BookOk(cfg, s) && LoopsOk(s) && PeersOk(cfg, s) && FdsOk(cfg, s)
  }

  // ----- moving forward -----

  /** The state of every connection only moves on, and what was erased stays erased. */
  predicate Forward(s: State, n: State) {
    && |s.conns| <= |n.conns| && |s.loops| == |n.loops|
    && (forall c :: 0 <= c < |s.conns| ==>
          && n.conns[c].loop == s.conns[c].loop && n.conns[c].fd == s.conns[c].fd
          && Rank(s.conns[c].life) <= Rank(n.conns[c].life))
    && s.erased <= n.erased
  }

  lemma TasksForward(s: State, n: State, l: nat, q: seq<Task>)
    requires TasksOk(s, l, q) && Forward(s, n)
    ensures TasksOk(n, l, q)
  {
    forall i | 0 <= i < |q|
      ensures TaskOk(n, l, q[i])
    {
      assert TaskOk(s, l, q[i]);
    }
  }

  /** No reference to an old connection appears out of nowhere. */
  predicate NoNewRefs(cfg: Config, s: State, n: State) {
    forall c :: 0 <= c < |s.conns| && Held(cfg, n, c) ==> Held(cfg, s, c)
  }

  lemma FdsKept(cfg: Config, s: State, n: State)
    requires FdsOk(cfg, s) && Forward(s, n) && NoNewRefs(cfg, s, n) && |n.conns| == |s.conns|
    ensures FdsOk(cfg, n)
  {
  }

  /** Replacing one loop gives references only to what was held before. */
  lemma LoopRefs(cfg: Config, s: State, n: State, l: nat)
    requires l < |s.loops| == |n.loops| && (forall k :: 0 <= k < |s.loops| && k != l ==> n.loops[k] == s.loops[k])
    requires n.connections == s.connections && n.users == s.users && n.removing == s.removing
    requires forall c :: 0 <= c < |s.conns| && LoopHolds(n.loops[l], c) ==> Held(cfg, s, c)
    ensures NoNewRefs(cfg, s, n)
  {
    forall c | 0 <= c < |s.conns| && Held(cfg, n, c)
      ensures Held(cfg, s, c)
    {
      if !(InMap(cfg, n, c) || c in n.users || n.removing == Some(c)) {
        var k :| 0 <= k < |n.loops| && LoopHolds(n.loops[k], c);
        assert k != l ==> LoopHolds(s.loops[k], c);
      }
    }
  }

  // ----- steps that only move a loop along -----

  /** A loop changes its phase or its functors without gaining any. */
  predicate LoopMoves(s: State, l: nat, L: Loop)
    requires l < |s.loops|
  {
    var K := s.loops[l];
    && Pend(L) == Pend(K) && L.channels == K.channels && L.kernel == K.kernel
    && TasksOk(s, l, L.ran) && TasksOk(s, l, L.batch) && TasksOk(s, l, L.queue)
    && (!L.phase.Running? ==> L.ran == [] && L.batch == [])
    && (L.phase.Handling? ==> ActiveOk(s, l, L.phase.active) && (L.phase.busy ==> L.phase.active != []))
  }

  lemma LoopMoveKeeps(cfg: Config, s: State, l: nat, L: Loop)
    requires Inv(cfg, s) && l < |s.loops| && LoopMoves(s, l, L)
    requires forall c :: 0 <= c < |s.conns| && LoopHolds(L, c) ==> Held(cfg, s, c)
    ensures Inv(cfg, SetLoop(s, l, L)) && Forward(s, SetLoop(s, l, L))
    ensures NoNewRefs(cfg, s, SetLoop(s, l, L))
  {
    hide Name;
    var n := SetLoop(s, l, L);
    LoopRefs(cfg, s, n, l);
    FdsKept(cfg, s, n);
    forall k | 0 <= k < |n.loops|
      ensures LoopOk(n, k)
    {
      assert LoopOk(s, k) && LoopOk(s, l);
    }
    forall c | 0 <= c < |n.conns|
      ensures PeerOk(cfg, n, c)
    {
      assert PeerOk(cfg, s, c);
    }
  }

  lemma PushLoops(s: State, l: nat, t: Task)
    requires LoopsOk(s) && l < |s.loops| && TaskOk(s, l, t) && !t.kind.Establishing?
    ensures LoopsOk(PushTo(s, l, t))
  {
    var n := PushTo(s, l, t);
    assert Pend(n.loops[l]) == Pend(s.loops[l]) + [t];
    forall k | 0 <= k < |n.loops|
      ensures LoopOk(n, k)
    {
      assert LoopOk(s, k);
    }
  }

  lemma PushPeers(cfg: Config, s: State, l: nat, t: Task)
    requires PeersOk(cfg, s) && l < |s.loops| && !t.kind.Establishing?
    ensures PeersOk(cfg, PushTo(s, l, t))
  {
    hide Name;
    var n := PushTo(s, l, t);
    assert Pend(n.loops[l]) == Pend(s.loops[l]) + [t];
    forall c | 0 <= c < |n.conns|
      ensures PeerOk(cfg, n, c)
    {
      assert PeerOk(cfg, s, c);
    }
  }

  /** A functor that is not connectEstablished is queued. */
  lemma PushKeeps(cfg: Config, s: State, l: nat, t: Task)
    requires Inv(cfg, s) && l < |s.loops| && TaskOk(s, l, t) && !t.kind.Establishing? && Held(cfg, s, t.conn)
    ensures Inv(cfg, PushTo(s, l, t)) && Forward(s, PushTo(s, l, t))
    ensures NoNewRefs(cfg, s, PushTo(s, l, t))
  {
    hide Name, LoopsOk, PeersOk;
    var n := PushTo(s, l, t);
    forall c | 0 <= c < |s.conns| && LoopHolds(n.loops[l], c)
      ensures Held(cfg, s, c)
    {
      assert c != t.conn ==> LoopHolds(s.loops[l], c);
    }
    LoopRefs(cfg, s, n, l);
    FdsKept(cfg, s, n);
    PushLoops(s, l, t);
    PushPeers(cfg, s, l, t);
  }

  // ----- steps that change what is known about a connection -----

  lemma SameRefs(cfg: Config, s: State, n: State)
    requires n.loops == s.loops && n.removing == s.removing
    requires forall k :: k in n.connections ==> k in s.connections && n.connections[k] == s.connections[k]
    requires n.users <= s.users
    ensures NoNewRefs(cfg, s, n)
  {
  }

  lemma LifeKeeps(cfg: Config, s: State, c: nat, life: Life)
    requires Inv(cfg, s) && c < |s.conns| && !s.conns[c].life.Connecting?
    requires life.Disconnected? || (life.Disconnecting? && s.conns[c].life.Connected?)
    ensures Inv(cfg, SetLife(s, c, life)) && Forward(s, SetLife(s, c, life))
    ensures NoNewRefs(cfg, s, SetLife(s, c, life))
  {
    hide Name;
    var n := SetLife(s, c, life);
    SameRefs(cfg, s, n);
    FdsKept(cfg, s, n);
    forall k | 0 <= k < |n.loops|
      ensures LoopOk(n, k)
    {
      assert LoopOk(s, k);
      TasksForward(s, n, k, s.loops[k].ran);
      TasksForward(s, n, k, s.loops[k].batch);
      TasksForward(s, n, k, s.loops[k].queue);
    }
    forall d | 0 <= d < |n.conns|
      ensures PeerOk(cfg, n, d)
    {
      assert PeerOk(cfg, s, d);
    }
  }

  lemma NamesDiffer(cfg: Config, c: nat, d: nat)
    requires |cfg.ipPort| <= 51 && c + 1 < INT_LIMIT && d + 1 < INT_LIMIT && c != d
    ensures Name(cfg, c) != Name(cfg, d)
  {
    if Name(cfg, c) == Name(cfg, d) {
      NamesInjective(cfg.name, cfg.ipPort, c + 1, d + 1);
    }
  }

  /** Erasing gives a reference to the connection removed, which was held already. */
  lemma RemoveRefs(cfg: Config, s: State, p: State, c: nat)
    requires NoNewRefs(cfg, s, p) && c < |s.conns| && Held(cfg, s, c)
    ensures NoNewRefs(cfg, s, BeginRemove(cfg, p, c))
  {
    var n := BeginRemove(cfg, p, c);
    forall d | 0 <= d < |s.conns| && Held(cfg, n, d)
      ensures Held(cfg, s, d)
    {
      if d != c {
        assert Held(cfg, p, d);
      }
    }
  }

  lemma RemoveLoops(cfg: Config, s: State, c: nat)
    requires LoopsOk(s)
    ensures LoopsOk(BeginRemove(cfg, s, c)) && Forward(s, BeginRemove(cfg, s, c))
  {
    hide Name;
    var n := BeginRemove(cfg, s, c);
    forall k | 0 <= k < |n.loops|
      ensures LoopOk(n, k)
    {
      assert LoopOk(s, k);
      TasksForward(s, n, k, s.loops[k].ran);
      TasksForward(s, n, k, s.loops[k].batch);
      TasksForward(s, n, k, s.loops[k].queue);
    }
  }

  lemma RemoveKeeps(cfg: Config, s: State, c: nat)
    requires Inv(cfg, s) && c < |s.conns| && s.conns[c].life.Disconnected?
    requires s.removing.None? && Held(cfg, s, c)
    ensures Inv(cfg, BeginRemove(cfg, s, c)) && Forward(s, BeginRemove(cfg, s, c))
    ensures NoNewRefs(cfg, s, BeginRemove(cfg, s, c))
  {
    hide Name;
    var n := BeginRemove(cfg, s, c);
    RemoveLoops(cfg, s, c);
    RemoveRefs(cfg, s, s, c);
    FdsKept(cfg, s, n);
    forall d | 0 <= d < |n.conns|
      ensures PeerOk(cfg, n, d)
    {
      assert PeerOk(cfg, s, d);
      if d != c {
        NamesDiffer(cfg, c, d);
      }
    }
  }

  lemma ClearRemovingKeeps(cfg: Config, s: State)
    requires Inv(cfg, s) && s.removing.Some? && DestroyQueued(s, s.removing.value)
    ensures Inv(cfg, s.(removing := None)) && NoNewRefs(cfg, s, s.(removing := None))
  {
    var n := s.(removing := None);
    forall d | 0 <= d < |s.conns| && Held(cfg, n, d)
      ensures Held(cfg, s, d)
    {
    }
    FdsKept(cfg, s, n);
    forall k | 0 <= k < |n.loops|
      ensures LoopOk(n, k)
    {
      assert LoopOk(s, k);
    }
    forall d | 0 <= d < |n.conns|
      ensures PeerOk(cfg, n, d)
    {
      assert PeerOk(cfg, s, d);
    }
  }

  // ----- what is registered is held -----

  lemma UnerasedIsInMap(cfg: Config, s: State, c: nat)
    requires BookOk(cfg, s) && c < |s.conns| && PeerOk(cfg, s, c) && c !in s.erased
    ensures InMap(cfg, s, c)
  {
    var d := s.connections[Name(cfg, c)];
    if d != c {
      NamesDiffer(cfg, c, d);
    }
  }

  /** A registered connection is in the server's map, or its connectDestroyed is still due; the
      one or the other refers to it. */
  lemma AddedIsHeld(cfg: Config, s: State, c: nat)
    requires Inv(cfg, s) && c < |s.conns| && s.conns[c].added
    ensures InMap(cfg, s, c) || DestroyDue(s, c)
    ensures Held(cfg, s, c)
  {
    assert PeerOk(cfg, s, c);
    if c !in s.erased {
      UnerasedIsInMap(cfg, s, c);
    } else {
      DueIsHeld(cfg, s, c);
    }
  }

  lemma DueIsHeld(cfg: Config, s: State, c: nat)
    requires DestroyDue(s, c)
    ensures Held(cfg, s, c)
  {
    if s.removing != Some(c) {
      assert if DestroyQueued(s, c) then LoopHolds(s.loops[s.conns[c].loop], c) else LoopHolds(s.loops[0], c);
    }
  }

  lemma TaskIsHeld(cfg: Config, s: State, l: nat, t: Task)
    requires l < |s.loops| && (t in s.loops[l].ran || t in Pend(s.loops[l]))
    ensures Held(cfg, s, t.conn)
  {
    match t.kind {
      case Establishing => assert t == Task(Establishing, t.conn);
      case Removing => assert t == Task(Removing, t.conn);
      case Destroying => assert t == Task(Destroying, t.conn);
      case Notifying => assert t == Task(Notifying, t.conn);
    }
    assert LoopHolds(s.loops[l], t.conn);
  }

  /** Where a channel map has an entry for the descriptor of a held connection, it is that
      connection's own. */
  lemma FdIsOwn(cfg: Config, s: State, c: nat)
    requires Inv(cfg, s) && Known(s, c) && Held(cfg, s, c)
    requires s.conns[c].fd in s.loops[s.conns[c].loop].channels
    ensures s.loops[s.conns[c].loop].channels[s.conns[c].fd] == c && s.conns[c].added
  {
    var l, fd := s.conns[c].loop, s.conns[c].fd;
    assert LoopOk(s, l);
    var d := s.loops[l].channels[fd];
    AddedIsHeld(cfg, s, d);
  }

  // ----- running a functor -----

  function Popped(s: State, l: nat): State
    requires l < |s.loops| && s.loops[l].batch != []
  {
    var L := s.loops[l];
    SetLoop(s, l, L.(ran := L.ran + [L.batch[0]], batch := L.batch[1..]))
  }

  predicate SameTasks(K: Loop, L: Loop) {
    K.phase == L.phase && K.ran == L.ran && K.batch == L.batch && K.queue == L.queue
  }

  /** A functor touches no loop's functors, and only its own connection. */
  lemma RunKindTouches(cfg: Config, p: State, t: Task)
    requires Known(p, t.conn)
    ensures var n := RunKind(cfg, p, t);
            && |n.loops| == |p.loops| && (forall k :: 0 <= k < |p.loops| ==> SameTasks(p.loops[k], n.loops[k]))
            && n.users == p.users && |n.conns| == |p.conns|
            && (forall d :: 0 <= d < |p.conns| && d != t.conn ==> n.conns[d] == p.conns[d])
            && (t.kind.Notifying? ==> n == p)
            && (t.kind.Removing? ==> n.conns == p.conns)
            && (t.kind.Establishing? ==> n.conns[t.conn].life.Connected?)
            && (t.kind.Destroying? && !p.conns[t.conn].life.Connected? ==> n.conns[t.conn].life == p.conns[t.conn].life)
            && (n.removing != p.removing ==> n.removing == Some(t.conn) && t.kind.Removing?)
  {
    hide Name;
  }

  lemma PopFacts(cfg: Config, s: State, l: nat)
    requires Inv(cfg, s) && l < |s.loops| && s.loops[l].phase.Running? && s.loops[l].batch != []
    ensures var n, t := Popped(s, l), s.loops[l].batch[0];
            && TaskOk(s, l, t) && Held(cfg, s, t.conn)
            && NoNewRefs(cfg, s, n) && Forward(s, n)
            && LoopOk(n, l)
            && (forall x :: x != t ==> (x in Pend(n.loops[l]) <==> x in Pend(s.loops[l])))
            && (t.kind.Establishing? ==> t !in Pend(n.loops[l]))
            && t in Pend(s.loops[l])
  {
    hide Name;
    var n, t := Popped(s, l), s.loops[l].batch[0];
    var K, L := s.loops[l], n.loops[l];
    assert LoopOk(s, l) && TaskOk(s, l, t);
    assert Pend(K)[0] == t && Pend(K)[1..] == Pend(L);
    assert Pend(K) == [t] + Pend(L);
    forall c | 0 <= c < |s.conns| && LoopHolds(L, c)
      ensures Held(cfg, s, c)
    {
      assert LoopHolds(K, c);
    }
    LoopRefs(cfg, s, n, l);
    TaskIsHeld(cfg, s, l, t);
  }

  lemma PopLoops(cfg: Config, s: State, l: nat)
    requires Inv(cfg, s) && l < |s.loops| && s.loops[l].phase.Running? && s.loops[l].batch != []
    ensures LoopsOk(Popped(s, l))
  {
    hide Name, PeersOk, FdsOk, Held;
    PopFacts(cfg, s, l);
    forall k | 0 <= k < |s.loops|
      ensures LoopOk(Popped(s, l), k)
    {
      assert LoopOk(s, k);
    }
  }

  /** A user callback is called: nothing changes but the batch. */
  lemma NotifyKeeps(cfg: Config, s: State, l: nat)
    requires Inv(cfg, s) && l < |s.loops| && s.loops[l].phase.Running?
    requires s.loops[l].batch != [] && s.loops[l].batch[0].kind.Notifying?
    ensures Inv(cfg, Popped(s, l))
  {
    hide Name;
    var n := Popped(s, l);
    PopFacts(cfg, s, l);
    PopLoops(cfg, s, l);
    FdsKept(cfg, s, n);
    forall d | 0 <= d < |n.conns|
      ensures PeerOk(cfg, n, d)
    {
      assert PeerOk(cfg, s, d);
    }
  }

  /** removeConnectionInLoop called from the main loop's batch: what the functor held passes to
      the main thread, which owes the connection its connectDestroyed. */
  lemma RemoveTaskKeeps(cfg: Config, s: State, c: nat)
    requires Inv(cfg, s) && |s.loops| > 0 && s.loops[0].phase.Running? && s.removing.None?
    requires s.loops[0].batch != [] && s.loops[0].batch[0] == Task(Removing, c)
    ensures var n := BeginRemove(cfg, Popped(s, 0), c);
            Inv(cfg, n) && Forward(s, n) && NoNewRefs(cfg, s, n)
  {
    hide Name, PeerOk, LoopOk, LoopHolds;
    var p, n := Popped(s, 0), BeginRemove(cfg, Popped(s, 0), c);
    PopFacts(cfg, s, 0);
    PopLoops(cfg, s, 0);
    RemoveRefs(cfg, s, p, c);
    FdsKept(cfg, s, n);
    RemoveLoops(cfg, p, c);
    RemoveTaskPeers(cfg, s, c);
  }

  lemma RemoveTaskPeers(cfg: Config, s: State, c: nat)
    requires BookOk(cfg, s) && PeersOk(cfg, s) && c < |s.conns| && s.loops[0].batch != [] && s.removing.None?
    requires s.conns[c].life.Disconnected?
    requires forall x :: x != Task(Removing, c) ==> (x in Pend(Popped(s, 0).loops[0]) <==> x in Pend(s.loops[0]))
    ensures PeersOk(cfg, BeginRemove(cfg, Popped(s, 0), c))
  {
    hide Name, Pend;
    var n := BeginRemove(cfg, Popped(s, 0), c);
    forall d | 0 <= d < |n.conns|
      ensures PeerOk(cfg, n, d)
    {
      assert PeerOk(cfg, s, d);
      if d != c {
        NamesDiffer(cfg, c, d);
      }
    }
  }

  /** From `s`, loop `l` has taken a functor of connection `c` off its batch, giving `p`, and
      that functor rewrites the record of `c` and the entry of its descriptor, giving `n`. */
  predicate Rewires(s: State, p: State, n: State, l: nat, c: nat, q: Peer, m: map<int, nat>) {
    && l < |s.loops| && c < |s.conns| && s.conns[c].loop == l
    && |p.loops| == |s.loops| && (forall k :: 0 <= k < |s.loops| && k != l ==> p.loops[k] == s.loops[k])
    && p.loops[l].channels == s.loops[l].channels
    && q.loop == l && q.fd == s.conns[c].fd && Rank(s.conns[c].life) <= Rank(q.life)
    && n == p.(loops := p.loops[l := p.loops[l].(channels := m, kernel := m)], conns := s.conns[c := q])
    && p == s.(loops := p.loops)
    && m == (if q.added then s.loops[l].channels[q.fd := c] else s.loops[l].channels - {q.fd})
    && (q.fd in s.loops[l].channels ==> s.loops[l].channels[q.fd] == c)
  }

  lemma RewireLoops(s: State, p: State, n: State, l: nat, c: nat, q: Peer, m: map<int, nat>)
    requires LoopsOk(s) && Rewires(s, p, n, l, c, q, m) && LoopOk(p, l) && (p.loops[l].phase.Running? || q.added)
    ensures LoopsOk(n) && Forward(s, n)
  {
    forall k | 0 <= k < |n.loops|
      ensures LoopOk(n, k)
    {
      assert if k == l then LoopOk(p, k) else LoopOk(s, k);
      TasksForward(p, n, k, p.loops[k].ran);
      TasksForward(p, n, k, p.loops[k].batch);
      TasksForward(p, n, k, p.loops[k].queue);
      if k == l {
        assert ChannelsOk(n, l, m);
      }
    }
  }

  lemma RewirePeers(cfg: Config, s: State, p: State, n: State, l: nat, c: nat, q: Peer, m: map<int, nat>)
    requires PeersOk(cfg, s) && Rewires(s, p, n, l, c, q, m) && PeerOk(cfg, n, c)
    requires forall x: Task :: x.conn != c ==> (x in Pend(p.loops[l]) <==> x in Pend(s.loops[l]))
    ensures PeersOk(cfg, n)
  {
    forall d | 0 <= d < |n.conns|
      ensures PeerOk(cfg, n, d)
    {
      assert PeerOk(cfg, s, d);
      if d != c {
        assert Pend(n.loops[l]) == Pend(p.loops[l]);
        assert Task(Establishing, d).conn != c && Task(Destroying, d).conn != c && Task(Removing, d).conn != c;
      }
    }
  }

  /** References are the same when only the channel maps and connection records change. */
  lemma RegisterRefs(cfg: Config, s: State, p: State, n: State, l: nat)
    requires NoNewRefs(cfg, s, p) && |p.conns| == |s.conns| && l < |p.loops| == |n.loops|
    requires n.connections == p.connections && n.users == p.users && n.removing == p.removing
    requires forall k :: 0 <= k < |p.loops| ==>
               n.loops[k] == p.loops[k].(channels := n.loops[k].channels, kernel := n.loops[k].kernel)
    ensures NoNewRefs(cfg, s, n)
  {
    forall c | 0 <= c < |s.conns| && Held(cfg, n, c)
      ensures Held(cfg, s, c)
    {
      if !(InMap(cfg, n, c) || c in n.users || n.removing == Some(c)) {
        var k :| 0 <= k < |n.loops| && LoopHolds(n.loops[k], c);
        assert LoopHolds(p.loops[k], c);
      }
      assert Held(cfg, p, c);
    }
  }

  /** connectEstablished: the only step that registers, on a descriptor no one else has. */
  lemma EstablishKeeps(cfg: Config, s: State, l: nat, c: nat)
    requires Inv(cfg, s) && Known(s, c) && l < |s.loops| && s.loops[l].phase.Running?
    requires s.loops[l].batch != [] && s.loops[l].batch[0] == Task(Establishing, c)
    ensures var n := ConnectEstablished(Popped(s, l), c);
            Inv(cfg, n) && Forward(s, n) && NoNewRefs(cfg, s, n)
  {
    PopFacts(cfg, s, l);
    assert PeerOk(cfg, s, c) && LoopOk(s, l);
    var p, n := Popped(s, l), ConnectEstablished(Popped(s, l), c);
    var q := s.conns[c].(life := Connected, added := true);
    var m := s.loops[l].channels[q.fd := c];
    if q.fd in s.loops[l].channels {
      FdIsOwn(cfg, s, c);
    }
    assert Rewires(s, p, n, l, c, q, m);
    RewireLoops(s, p, n, l, c, q, m);
    assert Pend(n.loops[l]) == Pend(p.loops[l]);
    RewirePeers(cfg, s, p, n, l, c, q, m);
    RegisterRefs(cfg, s, p, n, l);
    FdsKept(cfg, s, n);
  }

  /** connectDestroyed: it finds the connection disconnected, and takes its descriptor, and
      nobody else's, out of both maps. */
  lemma DestroyKeeps(cfg: Config, s: State, l: nat, c: nat)
    requires Inv(cfg, s) && Known(s, c) && l < |s.loops| && s.loops[l].phase.Running?
    requires s.loops[l].batch != [] && s.loops[l].batch[0] == Task(Destroying, c)
    ensures s.conns[c].life.Disconnected?
    ensures var n := ConnectDestroyed(Popped(s, l), c);
            Inv(cfg, n) && Forward(s, n) && NoNewRefs(cfg, s, n)
  {
    PopFacts(cfg, s, l);
    assert PeerOk(cfg, s, c) && LoopOk(s, l);
    var p, n := Popped(s, l), ConnectDestroyed(Popped(s, l), c);
    var q := s.conns[c].(added := false);
    var m := s.loops[l].channels - {q.fd};
    if q.fd in s.loops[l].channels {
      FdIsOwn(cfg, s, c);
    } else {
      assert m == s.loops[l].channels;
    }
    assert Rewires(s, p, n, l, c, q, m);
    RewireLoops(s, p, n, l, c, q, m);
    assert Pend(n.loops[l]) == Pend(p.loops[l]);
    RewirePeers(cfg, s, p, n, l, c, q, m);
    RegisterRefs(cfg, s, p, n, l);
    FdsKept(cfg, s, n);
  }

  /** A send that arms a removed channel does no harm while a connectDestroyed is still due. */
  lemma ReviveKeeps(cfg: Config, s: State, c: nat)
    requires Inv(cfg, s) && Known(s, c) && !s.conns[c].added && !s.conns[c].life.Connecting? && DestroyDue(s, c)
    ensures Inv(cfg, Register(s, c)) && Forward(s, Register(s, c)) && NoNewRefs(cfg, s, Register(s, c))
  {
    var l, n := s.conns[c].loop, Register(s, c);
    assert PeerOk(cfg, s, c) && LoopOk(s, l);
    DueIsHeld(cfg, s, c);
    var q := s.conns[c].(added := true);
    var m := s.loops[l].channels[q.fd := c];
    if q.fd in s.loops[l].channels {
      FdIsOwn(cfg, s, c);
    }
    assert Rewires(s, s, n, l, c, q, m);
    RewireLoops(s, s, n, l, c, q, m);
    assert Pend(n.loops[l]) == Pend(s.loops[l]);
    RewirePeers(cfg, s, s, n, l, c, q, m);
    RegisterRefs(cfg, s, s, n, l);
    FdsKept(cfg, s, n);
  }

  // ----- a new connection -----

  /** The name of the next connection is not in the map: inserting never overwrites. */
  lemma NextNameIsFree(cfg: Config, s: State)
    requires BookOk(cfg, s) && |s.conns| + 2 < INT_LIMIT
    ensures Name(cfg, |s.conns|) !in s.connections
  {
    if Name(cfg, |s.conns|) in s.connections {
      NamesDiffer(cfg, |s.conns|, s.connections[Name(cfg, |s.conns|)]);
    }
  }

  /** `n` is `s` with connection `q` added under its name and loop `l` replaced by `L`. */
  predicate Admits(cfg: Config, s: State, n: State, l: nat, q: Peer, L: Loop) {
    && l < |s.loops| && q.loop == l && |s.conns| + 2 < INT_LIMIT && FreshFd(cfg, s, q.fd)
    && n == s.(conns := s.conns + [q], connections := s.connections[Name(cfg, |s.conns|) := |s.conns|],
               next := NextCursor(|s.loops| - 1, s.next), loops := s.loops[l := L])
    && (forall d :: 0 <= d < |s.conns| && LoopHolds(L, d) ==> LoopHolds(s.loops[l], d))
  }

  lemma AdmitRefs(cfg: Config, s: State, n: State, l: nat, q: Peer, L: Loop)
    requires Inv(cfg, s) && Admits(cfg, s, n, l, q, L)
    ensures BookOk(cfg, n) && Forward(s, n) && NoNewRefs(cfg, s, n) && FdsOk(cfg, n)
  {
    NextNameIsFree(cfg, s);
    forall d | 0 <= d < |s.conns| && Held(cfg, n, d)
      ensures Held(cfg, s, d)
    {
      if !(InMap(cfg, n, d) || d in n.users || n.removing == Some(d)) {
        var k :| 0 <= k < |n.loops| && LoopHolds(n.loops[k], d);
        assert LoopHolds(s.loops[k], d);
      }
    }
  }

  lemma AdmitLoops(cfg: Config, s: State, n: State, l: nat, q: Peer, L: Loop)
    requires Inv(cfg, s) && Admits(cfg, s, n, l, q, L) && Forward(s, n) && LoopOk(n, l)
    ensures LoopsOk(n)
  {
    forall k | 0 <= k < |n.loops|
      ensures LoopOk(n, k)
    {
      if k != l {
        assert LoopOk(s, k);
        TasksForward(s, n, k, s.loops[k].ran);
        TasksForward(s, n, k, s.loops[k].batch);
        TasksForward(s, n, k, s.loops[k].queue);
      }
    }
  }

  lemma OldPeerStays(cfg: Config, s: State, n: State, l: nat, q: Peer, L: Loop, d: nat)
    requires Inv(cfg, s) && Admits(cfg, s, n, l, q, L) && d < |s.conns|
    requires Task(Establishing, d) in Pend(L) <==> Task(Establishing, d) in Pend(s.loops[l])
    requires Task(Destroying, d) in Pend(L) <==> Task(Destroying, d) in Pend(s.loops[l])
    requires Task(Removing, d) in Pend(L) <==> Task(Removing, d) in Pend(s.loops[l])
    requires forall fd :: fd != q.fd && fd in s.loops[l].channels ==>
               fd in L.channels && L.channels[fd] == s.loops[l].channels[fd]
    ensures PeerOk(cfg, n, d)
  {
    hide Name, LoopsOk, FdsOk, Pend, LoopHolds;
    assert PeerOk(cfg, s, d);
    NamesDiffer(cfg, d, |s.conns|);
    if s.conns[d].added {
      AddedIsHeld(cfg, s, d);
    }
  }

  lemma AdmitPeers(cfg: Config, s: State, n: State, l: nat, q: Peer, L: Loop)
    requires Inv(cfg, s) && Admits(cfg, s, n, l, q, L) && PeerOk(cfg, n, |s.conns|)
    requires forall x: Task :: x.conn < |s.conns| ==> (x in Pend(L) <==> x in Pend(s.loops[l]))
    requires forall fd :: fd != q.fd && fd in s.loops[l].channels ==>
               fd in L.channels && L.channels[fd] == s.loops[l].channels[fd]
    ensures PeersOk(cfg, n)
  {
    hide Inv, PeerOk, Pend;
    forall d | 0 <= d < |n.conns|
      ensures PeerOk(cfg, n, d)
    {
      if d < |s.conns| {
        assert Task(Establishing, d).conn < |s.conns| && Task(Destroying, d).conn < |s.conns| && Task(Removing, d).conn < |s.conns|;
        OldPeerStays(cfg, s, n, l, q, L, d);
      }
    }
  }

  lemma NewcomerUnmentioned(cfg: Config, s: State, l: nat, t: Task)
    requires Inv(cfg, s) && l < |s.loops| && t.conn >= |s.conns|
    ensures t !in Pend(s.loops[l])
  {
    var q := Pend(s.loops[l]);
    assert LoopOk(s, l);
    forall i | 0 <= i < |q|
      ensures q[i].conn < |s.conns|
    {
      var L := s.loops[l];
      assert if i < |L.batch| then TaskOk(s, l, L.batch[i]) else TaskOk(s, l, L.queue[i - |L.batch|]);
    }
  }

  /** A loop that gains the newcomer's connectEstablished. */
  lemma NewcomerQueued(cfg: Config, s: State, n: State, l: nat, q: Peer, L: Loop)
    requires Inv(cfg, s) && Admits(cfg, s, n, l, q, L) && Forward(s, n)
    requires L == s.loops[l].(queue := s.loops[l].queue + [Task(Establishing, |s.conns|)])
    ensures LoopOk(n, l) && Pend(L) == Pend(s.loops[l]) + [Task(Establishing, |s.conns|)]
  {
    hide Name, FdsOk, PeersOk, Held;
    var K, t := s.loops[l], Task(Establishing, |s.conns|);
    assert Pend(L) == Pend(K) + [t];
    NewcomerUnmentioned(cfg, s, l, t);
    assert LoopOk(s, l);
    TasksForward(s, n, l, K.ran);
    TasksForward(s, n, l, K.batch);
    TasksForward(s, n, l, K.queue);
  }

  /** On an io loop: the connection waits for its queued connectEstablished. */
  lemma AcceptOnIoLoop(cfg: Config, s: State, fd: int)
    requires Inv(cfg, s) && Enabled(cfg, s, Accept(fd)) && Placement(s) > 0
    ensures var n := Apply(cfg, s, Accept(fd)); Inv(cfg, n) && Forward(s, n) && NoNewRefs(cfg, s, n)
  {
    hide Name, LoopOk, Held;
    var c, l := |s.conns|, Placement(s);
    var n, K, t := Apply(cfg, s, Accept(fd)), s.loops[l], Task(Establishing, c);
    var q, L := Peer(l, fd, Connecting, false), K.(queue := K.queue + [t]);
    assert Admits(cfg, s, n, l, q, L);
    AdmitRefs(cfg, s, n, l, q, L);
    NewcomerQueued(cfg, s, n, l, q, L);
    AdmitLoops(cfg, s, n, l, q, L);
    assert PeerOk(cfg, n, c);
    AdmitPeers(cfg, s, n, l, q, L);
  }

  /** Without io loops: the connection is established at once, inside the acceptor's handler. */
  lemma AcceptOnMainLoop(cfg: Config, s: State, fd: int)
    requires Inv(cfg, s) && Enabled(cfg, s, Accept(fd)) && Placement(s) == 0
    ensures var n := Apply(cfg, s, Accept(fd)); Inv(cfg, n) && Forward(s, n) && NoNewRefs(cfg, s, n)
  {
    var c := |s.conns|;
    var n, K := Apply(cfg, s, Accept(fd)), s.loops[0];
    var m := K.channels[fd := c];
    var q, L := Peer(0, fd, Connected, true), K.(channels := m, kernel := m);
    assert LoopOk(s, 0);
    assert Admits(cfg, s, n, 0, q, L);
    AdmitRefs(cfg, s, n, 0, q, L);
    NewcomerUnmentioned(cfg, s, 0, Task(Establishing, c));
    TasksForward(s, n, 0, K.ran);
    TasksForward(s, n, 0, K.batch);
    TasksForward(s, n, 0, K.queue);
    assert Pend(L) == Pend(K);
    assert LoopOk(n, 0);
    AdmitLoops(cfg, s, n, 0, q, L);
    AdmitPeers(cfg, s, n, 0, q, L);
  }

  /** In a reachable state the steps are limited only by where the threads are: every
      connection a functor, a handler or a removal is about to use is a known one. */
  lemma GuardsNeverBlock(cfg: Config, s: State, l: nat)
    requires Inv(cfg, s) && l < |s.loops|
    ensures Placement(s) < |s.loops|
    ensures s.loops[l].batch != [] ==> Known(s, s.loops[l].batch[0].conn)
    ensures s.loops[l].phase.Handling? && s.loops[l].phase.active != [] ==> Known(s, s.loops[l].phase.active[0])
    ensures s.removing.Some? ==> Known(s, s.removing.value)
  {
    hide Name;
    assert LoopOk(s, l);
    if s.loops[l].batch != [] {
      assert TaskOk(s, l, s.loops[l].batch[0]);
      assert PeerOk(cfg, s, s.loops[l].batch[0].conn);
    }
    if s.loops[l].phase.Handling? && s.loops[l].phase.active != [] {
      assert OnLoop(s, l, s.loops[l].phase.active[0]);
    }
    if s.removing.Some? {
      assert PeerOk(cfg, s, s.removing.value);
    }
  }

  // ----- every step -----

  /** A send that puts a removed channel back into the maps. */
  predicate Revives(s: State, a: Action) {
    a.Arm? && a.c < |s.conns| && !s.conns[a.c].added
  }

  /** ... with no connectDestroyed still due to take it out again. */
  predicate Harms(s: State, a: Action) {
    Revives(s, a) && !DestroyDue(s, a.c)
  }

  predicate Keeps(cfg: Config, s: State, n: State) {
    Inv(cfg, n) && Forward(s, n) && NoNewRefs(cfg, s, n)
  }

  lemma KeepsTwice(cfg: Config, s: State, m: State, n: State)
    requires Keeps(cfg, s, m) && Keeps(cfg, m, n)
    ensures Keeps(cfg, s, n)
  {
  }

  /** The guard is always obtained: an active channel's connection is held. */
  lemma ActiveIsHeld(cfg: Config, s: State, l: nat, i: nat)
    requires Inv(cfg, s) && l < |s.loops| && s.loops[l].phase.Handling? && i < |s.loops[l].phase.active|
    ensures Known(s, s.loops[l].phase.active[i]) && s.conns[s.loops[l].phase.active[i]].added
    ensures Held(cfg, s, s.loops[l].phase.active[i])
  {
    var c := s.loops[l].phase.active[i];
    assert LoopOk(s, l) && OnLoop(s, l, c);
    AddedIsHeld(cfg, s, c);
  }

  lemma PollKeeps(cfg: Config, s: State, l: nat, active: seq<nat>)
    requires Inv(cfg, s) && Enabled(cfg, s, PollReturn(l, active))
    ensures Keeps(cfg, s, Apply(cfg, s, PollReturn(l, active)))
  {
    var L := s.loops[l].(phase := Handling(active, false));
    assert LoopOk(s, l);
    forall i | 0 <= i < |active|
      ensures OnLoop(s, l, active[i])
    {
      assert Reported(s, l, active[i]);
    }
    forall c | 0 <= c < |s.conns| && LoopHolds(L, c)
      ensures Held(cfg, s, c)
    {
      assert LoopHolds(s.loops[l], c);
    }
    LoopMoveKeeps(cfg, s, l, L);
  }

  lemma StartEventKeeps(cfg: Config, s: State, l: nat)
    requires Inv(cfg, s) && Enabled(cfg, s, StartEvent(l))
    ensures Keeps(cfg, s, Apply(cfg, s, StartEvent(l)))
  {
    ActiveIsHeld(cfg, s, l, 0);
    var L := s.loops[l].(phase := s.loops[l].phase.(busy := true));
    assert LoopOk(s, l);
    forall c | 0 <= c < |s.conns| && LoopHolds(L, c)
      ensures Held(cfg, s, c)
    {
      assert c != s.loops[l].phase.active[0] ==> LoopHolds(s.loops[l], c);
    }
    LoopMoveKeeps(cfg, s, l, L);
  }

  lemma EndEventKeeps(cfg: Config, s: State, l: nat)
    requires Inv(cfg, s) && Enabled(cfg, s, EndEvent(l))
    ensures Keeps(cfg, s, Apply(cfg, s, EndEvent(l)))
  {
    var L := s.loops[l].(phase := Handling(s.loops[l].phase.active[1..], false));
    assert LoopOk(s, l);
    forall c | 0 <= c < |s.conns| && LoopHolds(L, c)
      ensures Held(cfg, s, c)
    {
      assert LoopHolds(s.loops[l], c);
    }
    LoopMoveKeeps(cfg, s, l, L);
  }

  lemma BatchKeeps(cfg: Config, s: State, a: Action)
    requires Inv(cfg, s) && (a.SwapBatch? || a.EndBatch?) && Enabled(cfg, s, a)
    ensures Keeps(cfg, s, Apply(cfg, s, a))
  {
    var K := s.loops[a.l];
    var L := if a.SwapBatch? then K.(phase := Running, batch := K.queue, queue := []) else K.(phase := Polling, ran := []);
    assert LoopOk(s, a.l);
    assert Pend(L) == Pend(K);
    forall c | 0 <= c < |s.conns| && LoopHolds(L, c)
      ensures Held(cfg, s, c)
    {
      assert LoopHolds(K, c);
    }
    LoopMoveKeeps(cfg, s, a.l, L);
  }

  lemma CloseKeeps(cfg: Config, s: State, l: nat)
    requires Inv(cfg, s) && Enabled(cfg, s, CloseEvent(l))
    ensures Keeps(cfg, s, Apply(cfg, s, CloseEvent(l)))
    ensures var n, c := Apply(cfg, s, CloseEvent(l)), s.loops[l].phase.active[0];
            && c < |n.conns| && n.conns[c].life.Disconnected?
            && if l == 0 then n.removing == Some(c) && c in n.erased else RemovalQueued(n, c)
  {
    var c := s.loops[l].phase.active[0];
    ActiveIsHeld(cfg, s, l, 0);
    assert PeerOk(cfg, s, c);
    var s1 := SetLife(s, c, Disconnected);
    LifeKeeps(cfg, s, c, Disconnected);
    AddedIsHeld(cfg, s1, c);
    assert Register(s1, c) == s1;
    if l == 0 {
      RemoveKeeps(cfg, s1, c);
    } else {
      PushKeeps(cfg, s1, 0, Task(Removing, c));
    }
    KeepsTwice(cfg, s, s1, Apply(cfg, s, CloseEvent(l)));
  }

  lemma FinishKeeps(cfg: Config, s: State)
    requires Inv(cfg, s) && Enabled(cfg, s, FinishRemove)
    ensures Keeps(cfg, s, Apply(cfg, s, FinishRemove))
  {
    var c := s.removing.value;
    assert PeerOk(cfg, s, c);
    var l, t := s.conns[c].loop, Task(Destroying, c);
    var s1 := PushTo(s, l, t);
    PushKeeps(cfg, s, l, t);
    assert Pend(s1.loops[l]) == Pend(s.loops[l]) + [t];
    ClearRemovingKeeps(cfg, s1);
    KeepsTwice(cfg, s, s1, s1.(removing := None));
  }

  lemma RunTaskKeeps(cfg: Config, s: State, l: nat)
    requires Inv(cfg, s) && Enabled(cfg, s, RunTask(l))
    ensures Keeps(cfg, s, Apply(cfg, s, RunTask(l)))
  {
    var t := s.loops[l].batch[0];
    PopFacts(cfg, s, l);
    match t.kind {
      case Establishing => EstablishKeeps(cfg, s, l, t.conn);
      case Destroying => DestroyKeeps(cfg, s, l, t.conn);
      case Notifying => NotifyKeeps(cfg, s, l);
      case Removing => RemoveTaskKeeps(cfg, s, t.conn);
    }
  }

  lemma UserKeeps(cfg: Config, s: State, n: State)
    requires Inv(cfg, s) && n == s.(users := n.users)
    requires forall c :: c in n.users && c !in s.users ==> Known(s, c) && Held(cfg, s, c) && !s.conns[c].life.Connecting?
    ensures Keeps(cfg, s, n)
  {
    forall c | 0 <= c < |s.conns| && Held(cfg, n, c)
      ensures Held(cfg, s, c)
    {
    }
    FdsKept(cfg, s, n);
    forall k | 0 <= k < |n.loops|
      ensures LoopOk(n, k)
    {
      assert LoopOk(s, k);
    }
    forall c | 0 <= c < |n.conns|
      ensures PeerOk(cfg, n, c)
    {
      assert PeerOk(cfg, s, c);
    }
  }

  lemma StepKeeps(cfg: Config, s: State, a: Action)
    requires Inv(cfg, s) && Enabled(cfg, s, a) && !Harms(s, a)
    ensures Keeps(cfg, s, Apply(cfg, s, a))
  {
    hide Inv, Forward, NoNewRefs;
    match a
    case Accept(fd) =>
      if Placement(s) == 0 { AcceptOnMainLoop(cfg, s, fd); } else { AcceptOnIoLoop(cfg, s, fd); }
    case PollReturn(l, active) => PollKeeps(cfg, s, l, active);
    case StartEvent(l) => StartEventKeeps(cfg, s, l);
    case CloseEvent(l) => CloseKeeps(cfg, s, l);
    case EndEvent(l) => EndEventKeeps(cfg, s, l);
    case SwapBatch(_) => BatchKeeps(cfg, s, a);
    case EndBatch(_) => BatchKeeps(cfg, s, a);
    case RunTask(l) => RunTaskKeeps(cfg, s, l);
    case FinishRemove => FinishKeeps(cfg, s);
    case QueueNotify(c) => PushKeeps(cfg, s, s.conns[c].loop, Task(Notifying, c));
    case ShutdownCall(c) =>
      if s.conns[c].life.Connected? { LifeKeeps(cfg, s, c, Disconnecting); } else { UserKeeps(cfg, s, s); }
    case Keep(c) => UserKeeps(cfg, s, Apply(cfg, s, a));
    case Release(c) => UserKeeps(cfg, s, Apply(cfg, s, a));
    case Arm(c) =>
      if s.conns[c].added { UserKeeps(cfg, s, s); } else { ReviveKeeps(cfg, s, c); }
  }
}
