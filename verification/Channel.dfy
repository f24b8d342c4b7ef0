/** Channels and their registration with epoll (Channel.h, Channel.cpp, EpollPoller.cpp,
    Poller.cpp).

    One fact is kept in three places: the channel's own index and event mask, the poller's
    map from file descriptors to channels, and the kernel's interest set. `Registry` is the
    value of all three; the classes at the end are the channel and the poller. */
module Channels {
  /** The bits of an event mask that a channel can be interested in. */
  datatype Mask = Mask(epollIn: bool, epollPri: bool, epollOut: bool) {
    /** this | m */
    function With(m: Mask): Mask {
      Mask(epollIn || m.epollIn, epollPri || m.epollPri, epollOut || m.epollOut)
    }

    /** this & ~m */
    function Without(m: Mask): Mask {
      Mask(epollIn && !m.epollIn, epollPri && !m.epollPri, epollOut && !m.epollOut)
    }
  }

  const NONE_EVENT := Mask(false, false, false)
  const READ_EVENT := Mask(true, true, false)
  const WRITE_EVENT := Mask(false, false, true)

  /** kNew (-1), kAdded (1), kDeleted (2). */
  datatype Index = New | Added | Deleted

  datatype Chan = Chan(fd: int, events: Mask, index: Index)

  /** An entry of the kernel's interest set: the channel pointer and the mask. */
  datatype Interest<C> = Interest(channel: C, mask: Mask)

  /** `refused` counts the epoll_ctl calls the kernel turned down. */
  datatype Registry<C(==)> =
    Registry(chans: map<C, Chan>, channels: map<int, C>, kernel: map<int, Interest<C>>, refused: nat)

  datatype CtlOp = CtlAdd | CtlMod | CtlDel

  /** epoll_ctl: ADD needs the descriptor absent, MOD and DEL need it present. */
  predicate CtlLegal<C>(r: Registry<C>, op: CtlOp, fd: int) {
    op.CtlAdd? <==> fd !in r.kernel
  }

  function Ctl<C>(r: Registry<C>, op: CtlOp, c: C): Registry<C>
    requires c in r.chans
  {
    var ch := r.chans[c];
    if !CtlLegal(r, op, ch.fd) then r.(refused := r.refused + 1)
    else if op.CtlDel? then r.(kernel := r.kernel - {ch.fd})
    else r.(kernel := r.kernel[ch.fd := Interest(c, ch.events)])
  }

  function SetIndex<C>(r: Registry<C>, c: C, i: Index): Registry<C>
    requires c in r.chans
  {
    r.(chans := r.chans[c := r.chans[c].(index := i)])
  }

  function SetEvents<C>(r: Registry<C>, c: C, e: Mask): Registry<C>
    requires c in r.chans
  {
    r.(chans := r.chans[c := r.chans[c].(events := e)])
  }

  function UpdateChannel<C>(r: Registry<C>, c: C): Registry<C>
    requires c in r.chans
  {
    var ch := r.chans[c];
    if ch.index.New? then
      Ctl(SetIndex(r.(channels := r.channels[ch.fd := c]), c, Added), CtlAdd, c)
    else if ch.index.Deleted? then
      Ctl(SetIndex(r, c, Added), CtlAdd, c)
    else if ch.events == NONE_EVENT then
      SetIndex(Ctl(r, CtlDel, c), c, Deleted)
    else
      Ctl(r, CtlMod, c)
  }

  function RemoveChannel<C>(r: Registry<C>, c: C): Registry<C>
    requires c in r.chans
  {
    var ch := r.chans[c];
    var r1 := r.(channels := r.channels - {ch.fd});
    SetIndex(if ch.index.Added? then Ctl(r1, CtlDel, c) else r1, c, New)
  }

  predicate HasChannel<C(==)>(r: Registry<C>, c: C)
    requires c in r.chans
  {
    r.chans[c].fd in r.channels && r.channels[r.chans[c].fd] == c
  }

  // ----- the agreement of the three copies -----

  ghost predicate DistinctFds<C>(chans: map<C, Chan>) {
    forall c, d :: c in chans && d in chans && c != d ==> chans[c].fd != chans[d].fd
  }

  ghost predicate ChannelAgrees<C>(r: Registry<C>, c: C)
    requires c in r.chans
  {
    var ch := r.chans[c];
    && (ch.index.Added? <==> ch.fd in r.kernel && r.kernel[ch.fd] == Interest(c, ch.events))
    && (ch.index.Added? <==> ch.fd in r.kernel)
    && (ch.index.Deleted? ==> ch.events == NONE_EVENT)
    && (HasChannel(r, c) <==> !ch.index.New?)
    && (HasChannel(r, c) <==> ch.fd in r.channels)
  }

  ghost predicate Agree<C>(r: Registry<C>) {
    && DistinctFds(r.chans)
    && (forall c :: c in r.chans ==> ChannelAgrees(r, c))
    && (forall fd :: fd in r.channels ==> r.channels[fd] in r.chans && r.chans[r.channels[fd]].fd == fd)
    && (forall fd :: fd in r.kernel ==> r.kernel[fd].channel in r.chans && r.chans[r.kernel[fd].channel].fd == fd)
    && r.refused == 0
  }

  /** Everything that can happen to a channel. `Open` is a channel built on a descriptor no
      other live channel has; `Close` is the end of a channel that is not registered. */
  datatype Op<C> =
    | EnableReading(c: C) | DisableReading(c: C)
    | EnableWriting(c: C) | DisableWriting(c: C)
    | DisableAll(c: C) | Remove(c: C)
    | Open(c: C, fd: int) | Close(c: C)

  ghost predicate Allowed<C>(r: Registry<C>, op: Op<C>) {
    match op
    case Open(c, fd) => c !in r.chans && forall d :: d in r.chans ==> r.chans[d].fd != fd
    case Close(c) => c in r.chans && r.chans[c].index.New?
    case _ => op.c in r.chans
  }

  function Masked<C>(op: Op<C>, e: Mask): Mask {
    match op
    case EnableReading(_) => e.With(READ_EVENT)
    case DisableReading(_) => e.Without(READ_EVENT)
    case EnableWriting(_) => e.With(WRITE_EVENT)
    case DisableWriting(_) => e.Without(WRITE_EVENT)
    case DisableAll(_) => e.Without(NONE_EVENT)
    case _ => e
  }

  ghost function Step<C>(r: Registry<C>, op: Op<C>): Registry<C>
    requires Allowed(r, op)
  {
    match op
    case Remove(c) => RemoveChannel(r, c)
    case Open(c, fd) => r.(chans := r.chans[c := Chan(fd, NONE_EVENT, New)])
    case Close(c) => r.(chans := r.chans - {c})
    case _ => UpdateChannel(SetEvents(r, op.c, Masked(op, r.chans[op.c].events)), op.c)
  }

  /** disbaleAll masks with the complement of zero: the interest is left as it was. */
  lemma DisableAllKeepsEvents<C>(r: Registry<C>, c: C)
    requires c in r.chans
    ensures Step(r, DisableAll(c)).chans[c].events == r.chans[c].events
  {
  }

  /** A call on channel `c` that leaves alone what the others have. */
  ghost predicate OnlyTouches<C>(r: Registry<C>, s: Registry<C>, c: C)
    requires c in r.chans
  {
    var fd := r.chans[c].fd;
    && s.chans.Keys == r.chans.Keys && s.chans[c].fd == fd
    && (forall d :: d in r.chans && d != c ==> s.chans[d] == r.chans[d])
    && (forall f :: f != fd ==> (f in s.channels <==> f in r.channels) && (f in s.kernel <==> f in r.kernel))
    && (forall f :: f != fd && f in r.channels ==> s.channels[f] == r.channels[f])
    && (forall f :: f != fd && f in r.kernel ==> s.kernel[f] == r.kernel[f])
    && (fd in s.channels ==> s.channels[fd] == c)
    && (fd in s.kernel ==> s.kernel[fd].channel == c)
  }

  lemma TouchedAgrees<C>(r: Registry<C>, s: Registry<C>, c: C)
    requires Agree(r) && c in r.chans && OnlyTouches(r, s, c)
    requires s.refused == 0 && ChannelAgrees(s, c)
    ensures Agree(s)
  {
    forall d | d in s.chans
      ensures ChannelAgrees(s, d)
    {
      assert d in r.chans && ChannelAgrees(r, d);
      assert d != c ==> r.chans[d].fd != r.chans[c].fd;
    }
  }

  /** The kernel has the channel with its new mask, unless that is empty and it had it before:
      an empty interest takes it out. */
  lemma UpdateAgrees<C>(r: Registry<C>, c: C, e: Mask)
    requires Agree(r) && c in r.chans
    ensures Agree(UpdateChannel(SetEvents(r, c, e), c))
    ensures var s, fd := UpdateChannel(SetEvents(r, c, e), c), r.chans[c].fd;
            && OnlyTouches(r, s, c) && HasChannel(s, c) && s.chans[c].events == e
            && (fd in s.kernel <==> fd !in r.kernel || e.epollIn || e.epollPri || e.epollOut)
            && (fd in s.kernel ==> s.kernel[fd] == Interest(c, e))
  {
    assert ChannelAgrees(r, c);
    TouchedAgrees(r, UpdateChannel(SetEvents(r, c, e), c), c);
  }

  lemma RemoveAgrees<C>(r: Registry<C>, c: C)
    requires Agree(r) && c in r.chans
    ensures Agree(RemoveChannel(r, c))
    ensures var s := RemoveChannel(r, c);
            && OnlyTouches(r, s, c) && s.chans[c].events == r.chans[c].events
            && s.chans[c].index.New? && !HasChannel(s, c) && r.chans[c].fd !in s.kernel
  {
    assert ChannelAgrees(r, c);
    TouchedAgrees(r, RemoveChannel(r, c), c);
  }

  lemma OpenAgrees<C>(r: Registry<C>, c: C, fd: int)
    requires Agree(r) && Allowed(r, Open(c, fd))
    ensures Agree(Step(r, Open(c, fd)))
  {
    var s := Step(r, Open(c, fd));
    forall d | d in s.chans
      ensures ChannelAgrees(s, d)
    {
      assert d != c ==> ChannelAgrees(r, d);
    }
  }

  lemma CloseAgrees<C>(r: Registry<C>, c: C)
    requires Agree(r) && Allowed(r, Close(c))
    ensures Agree(Step(r, Close(c)))
  {
    var s := Step(r, Close(c));
    assert ChannelAgrees(r, c);
    forall d | d in s.chans
      ensures ChannelAgrees(s, d)
    {
      assert ChannelAgrees(r, d);
    }
  }

  lemma StepAgrees<C>(r: Registry<C>, op: Op<C>)
    requires Agree(r) && Allowed(r, op)
    ensures Agree(Step(r, op))
  {
    match op
    case Remove(c) => RemoveAgrees(r, c);
    case Open(c, fd) => OpenAgrees(r, c, fd);
    case Close(c) => CloseAgrees(r, c);
    case _ => UpdateAgrees(r, op.c, Masked(op, r.chans[op.c].events));
  }

  ghost predicate Runs<C>(r: Registry<C>, ops: seq<Op<C>>)
    decreases |ops|
  {
    ops != [] ==> Allowed(r, ops[0]) && Runs(Step(r, ops[0]), ops[1..])
  }

  ghost function After<C>(r: Registry<C>, ops: seq<Op<C>>): Registry<C>
    requires Runs(r, ops)
    decreases |ops|
  {
    if ops == [] then r else After(Step(r, ops[0]), ops[1..])
  }

  lemma {:induction false} RunAgrees<C>(r: Registry<C>, ops: seq<Op<C>>)
    requires Agree(r) && Runs(r, ops)
    ensures Agree(After(r, ops))
    decreases |ops|
  {
    if ops != [] {
      StepAgrees(r, ops[0]);
      RunAgrees(Step(r, ops[0]), ops[1..]);
    }
  }

  /** After any sequence of calls the three copies agree, and the kernel has refused none of
      the epoll_ctl calls. */
  lemma RegistrationTheorem<C>(ops: seq<Op<C>>)
    requires Runs(Registry(map[], map[], map[], 0), ops)
    ensures var r := After(Registry(map[], map[], map[], 0), ops);
            && r.refused == 0
            && (forall c :: c in r.chans ==>
                  var ch := r.chans[c];
                  && (ch.index.Added? <==> ch.fd in r.kernel && r.kernel[ch.fd] == Interest(c, ch.events))
                  && (ch.index.Deleted? ==> ch.events == NONE_EVENT && ch.fd !in r.kernel)
                  && (HasChannel(r, c) <==> !ch.index.New?))
  {
    RunAgrees<C>(Registry(map[], map[], map[], 0), ops);
    var r := After<C>(Registry(map[], map[], map[], 0), ops);
    assert forall c :: c in r.chans ==> ChannelAgrees(r, c);
  }

  // ----- which interest the kernel has -----

  /** Whether the calls of a run leave channel `c` interested in reading: the last enable or
      disable decides, and a new channel starts with nothing. */
  ghost function Reading<C>(ops: seq<Op<C>>, c: C): bool {
    if ops == [] then false
    else
      var before, op := Reading(ops[..|ops| - 1], c), ops[|ops| - 1];
      if op.c != c then before
      else match op
        case EnableReading(_) => true
        case DisableReading(_) => false
        case Open(_, _) => false
        case _ => before
  }

  ghost function Writing<C>(ops: seq<Op<C>>, c: C): bool {
    if ops == [] then false
    else
      var before, op := Writing(ops[..|ops| - 1], c), ops[|ops| - 1];
      if op.c != c then before
      else match op
        case EnableWriting(_) => true
        case DisableWriting(_) => false
        case Open(_, _) => false
        case _ => before
  }

  /** Whether they leave it known to the poller: it is from the first call that changes or
      keeps its interest until it is removed. */
  ghost function Registered<C>(ops: seq<Op<C>>, c: C): bool {
    if ops == [] then false
    else
      var op := ops[|ops| - 1];
      if op.c != c then Registered(ops[..|ops| - 1], c)
      else !op.Remove? && !op.Open? && !op.Close?
  }

  ghost predicate Follows<C>(r: Registry<C>, ops: seq<Op<C>>, c: C)
    requires c in r.chans
  {
    && r.chans[c].events == Mask(Reading(ops, c), Reading(ops, c), Writing(ops, c))
    && (HasChannel(r, c) <==> Registered(ops, c))
  }

  lemma UpdateFollows<C>(r: Registry<C>, ops: seq<Op<C>>, op: Op<C>, c: C)
    requires Agree(r) && op.c in r.chans && !op.Remove? && !op.Open? && !op.Close?
    requires c in r.chans && Follows(r, ops, c)
    ensures Follows(Step(r, op), ops + [op], c)
  {
    UpdateAgrees(r, op.c, Masked(op, r.chans[op.c].events));
    hide UpdateChannel, SetEvents;
    assert (ops + [op])[..|ops|] == ops;
    assert c != op.c ==> r.chans[c].fd != r.chans[op.c].fd;
  }

  lemma RemoveFollows<C>(r: Registry<C>, ops: seq<Op<C>>, d: C, c: C)
    requires Agree(r) && d in r.chans && c in r.chans && Follows(r, ops, c)
    ensures Follows(Step(r, Remove(d)), ops + [Remove(d)], c)
  {
    RemoveAgrees(r, d);
    hide RemoveChannel;
    assert (ops + [Remove(d)])[..|ops|] == ops;
    assert c != d ==> r.chans[c].fd != r.chans[d].fd;
  }

  lemma StepFollows<C>(r: Registry<C>, ops: seq<Op<C>>, op: Op<C>, c: C)
    requires Agree(r) && Allowed(r, op) && c in Step(r, op).chans && (c in r.chans ==> Follows(r, ops, c))
    ensures Follows(Step(r, op), ops + [op], c)
  {
    hide UpdateChannel, RemoveChannel;
    match op
    case Remove(d) =>
      RemoveAgrees(r, d);
      RemoveFollows(r, ops, d, c);
    case Open(d, fd) => assert (ops + [op])[..|ops|] == ops;
    case Close(d) => assert (ops + [op])[..|ops|] == ops;
    case _ =>
      UpdateAgrees(r, op.c, Masked(op, r.chans[op.c].events));
      UpdateFollows(r, ops, op, c);
  }

  lemma {:induction false} RunFollows<C>(r: Registry<C>, done: seq<Op<C>>, ops: seq<Op<C>>, c: C)
    requires Agree(r) && Runs(r, ops) && c in After(r, ops).chans
    requires forall d :: d in r.chans ==> Follows(r, done, d)
    ensures Follows(After(r, ops), done + ops, c)
    decreases |ops|
  {
    if ops == [] {
      assert done + ops == done;
    } else {
      var s := Step(r, ops[0]);
      StepAgrees(r, ops[0]);
      forall d | d in s.chans
        ensures Follows(s, done + [ops[0]], d)
      {
        StepFollows(r, done, ops[0], d);
      }
      RunFollows(s, done + [ops[0]], ops[1..], c);
      assert done + [ops[0]] + ops[1..] == done + ops;
    }
  }

  /** The kernel watches a channel for exactly what the calls made on it ask for: with any
      interest left and no removal since, its descriptor is in the kernel with EPOLLIN and
      EPOLLPRI exactly if reading was last enabled, and EPOLLOUT exactly if writing was. */
  lemma InterestTheorem<C>(ops: seq<Op<C>>, c: C)
    requires Runs(Registry(map[], map[], map[], 0), ops)
    requires c in After(Registry(map[], map[], map[], 0), ops).chans
    ensures var r := After(Registry(map[], map[], map[], 0), ops);
            var fd := r.chans[c].fd;
            && (fd in r.kernel ==>
                  r.kernel[fd] == Interest(c, Mask(Reading(ops, c), Reading(ops, c), Writing(ops, c))))
            && (fd in r.kernel ==> Registered(ops, c))
            && (Registered(ops, c) && (Reading(ops, c) || Writing(ops, c)) ==> fd in r.kernel)
  {
    var r0: Registry<C> := Registry(map[], map[], map[], 0);
    RunAgrees(r0, ops);
    RunFollows(r0, [], ops, c);
    assert [] + ops == ops;
    assert ChannelAgrees(After(r0, ops), c);
  }

  // ----- the channel and the poller -----

  class EpollPoller {
    var channels: map<int, Channel>
    var eventListSize: nat
    ghost var all: set<Channel>
    ghost var kernel: map<int, Interest<Channel>>
    ghost var refused: nat

    ghost function View(): Registry<Channel>
      reads this, all
    {
      Registry(map c | c in all :: Chan(c.fd, c.events, c.index), channels, kernel, refused)
    }

    ghost predicate Valid()
      reads this, all
    {
      && eventListSize > 0
      && (forall c :: c in all ==> c.poller == this)
      && Agree(View())
    }

    constructor ()
      ensures Valid() && all == {} && eventListSize == 16
    {
      channels, eventListSize := map[], 16;
      all, kernel, refused := {}, map[], 0;
    }

    ghost method EpollCtl(op: CtlOp, c: Channel)
      requires c in all
      modifies this`kernel, this`refused
      ensures View() == Ctl(old(View()), op, c)
    {
      if !(op.CtlAdd? <==> c.fd !in kernel) {
        refused := refused + 1;
      } else if op.CtlDel? {
        kernel := kernel - {c.fd};
      } else {
        kernel := kernel[c.fd := Interest(c, c.events)];
      }
    }

    method Update(c: Channel)
      requires c in all
      modifies this`channels, this`kernel, this`refused, c`index
      ensures View() == UpdateChannel(old(View()), c)
    {
      if c.index == New || c.index == Deleted {
        if c.index == New {
          channels := channels[c.fd := c];
        }
        c.index := Added;
        EpollCtl(CtlAdd, c);
        assert View().chans == old(View()).chans[c := Chan(c.fd, c.events, Added)];
      } else if c.events == NONE_EVENT {
        EpollCtl(CtlDel, c);
        c.index := Deleted;
        assert View().chans == old(View()).chans[c := Chan(c.fd, c.events, Deleted)];
      } else {
        EpollCtl(CtlMod, c);
      }
    }

    method Erase(c: Channel)
      requires c in all
      modifies this`channels, this`kernel, this`refused, c`index
      ensures View() == RemoveChannel(old(View()), c)
    {
      channels := channels - {c.fd};
      if c.index == Added {
        EpollCtl(CtlDel, c);
      }
      c.index := New;
      assert View().chans == old(View()).chans[c := Chan(c.fd, c.events, New)];
    }

    method Has(c: Channel) returns (b: bool)
      requires Valid() && c in all
      ensures b <==> c.index != New
    {
      assert ChannelAgrees(View(), c);
      b := c.fd in channels && channels[c.fd] == c;
    }

    /** epoll_wait hands back at most `eventListSize` entries of the interest set, each with
        the events that happened. */
    ghost predicate KernelMayReport(report: seq<(Channel, nat)>)
      reads this, all
    {
      && |report| <= eventListSize
      && (forall i :: 0 <= i < |report| ==> report[i].0 in all && report[i].0.fd in kernel && kernel[report[i].0.fd].channel == report[i].0)
      && (forall i, j :: 0 <= i < j < |report| ==> report[i].0 != report[j].0)
    }

    /** Every active channel is one the poller still has, and carries the events reported
        for it; the event list doubles exactly when it came back full. */
    method Poll(report: seq<(Channel, nat)>) returns (active: seq<Channel>)
      requires Valid() && KernelMayReport(report)
      modifies this`eventListSize, set i | 0 <= i < |report| :: report[i].0
      ensures Valid()
      ensures |active| == |report|
      ensures forall i :: 0 <= i < |report| ==> active[i] == report[i].0 && active[i].revents == report[i].1
      ensures forall i :: 0 <= i < |report| ==> active[i].index == Added
      ensures forall c :: c in all ==> c.events == old(c.events) && c.index == old(c.index)
      ensures eventListSize == if |report| == old(eventListSize) then 2 * |report| else old(eventListSize)
    {
      forall i | 0 <= i < |report|
        ensures report[i].0.index == Added
      {
        assert ChannelAgrees(View(), report[i].0);
      }
      active := FillActiveChannels(report);
      if |report| > 0 && |report| == eventListSize {
        eventListSize := 2 * eventListSize;
      }
      assert View() == old(View());
    }

    static method FillActiveChannels(report: seq<(Channel, nat)>) returns (active: seq<Channel>)
      requires forall i, j :: 0 <= i < j < |report| ==> report[i].0 != report[j].0
      modifies (set i | 0 <= i < |report| :: report[i].0)`revents
      ensures |active| == |report|
      ensures forall i :: 0 <= i < |report| ==> active[i] == report[i].0 && active[i].revents == report[i].1
    {
      active := [];
      for i := 0 to |report|
        invariant |active| == i
        invariant forall k :: 0 <= k < i ==> active[k] == report[k].0 && active[k].revents == report[k].1
      {
        var channel := report[i].0;
        channel.revents := report[i].1;
        active := active + [channel];
      }
    }
  }

  class Channel {
    const poller: EpollPoller
    const fd: int
    var events: Mask
    var revents: nat
    var index: Index

    /** A channel on a descriptor that no live channel of the poller has. */
    constructor (poller: EpollPoller, fd: int)
      requires poller.Valid() && forall d :: d in poller.all ==> d.fd != fd
      modifies poller
      ensures poller.Valid() && poller.all == old(poller.all) + {this}
      ensures poller.channels == old(poller.channels) && poller.kernel == old(poller.kernel)
      ensures this.poller == poller && this.fd == fd && events == NONE_EVENT && index == New
    {
      this.poller, this.fd := poller, fd;
      events, revents, index := NONE_EVENT, 0, New;
      new;
      ghost var before := poller.View();
      poller.all := poller.all + {this};
      assert poller.View().chans == before.chans[this := Chan(fd, NONE_EVENT, New)];
      OpenAgrees(before, this, fd);
    }

    predicate IsWriting()
      reads this
    {
      events.epollOut
    }

    /** The common part of enable and disable: set the mask and tell the poller. */
    method Change(e: Mask)
      requires poller.Valid() && this in poller.all
      modifies this`events, this`index, poller`channels, poller`kernel, poller`refused
      ensures poller.Valid() && events == e && index != New
      ensures fd in poller.kernel <==> fd !in old(poller.kernel) || e.epollIn || e.epollPri || e.epollOut
      ensures fd in poller.kernel ==> poller.kernel[fd] == Interest(this, e)
      ensures poller.View() == UpdateChannel(SetEvents(old(poller.View()), this, e), this)
    {
      ghost var before := poller.View();
      events := e;
      assert poller.View().chans == before.chans[this := Chan(fd, e, index)];
      poller.Update(this);
      UpdateAgrees(before, this, e);
      assert ChannelAgrees(before, this);
    }

    method StartReading()
      requires poller.Valid() && this in poller.all
      modifies this`events, this`index, poller`channels, poller`kernel, poller`refused
      ensures poller.Valid() && index == Added
      ensures events.epollIn && events.epollPri && events.epollOut == old(events.epollOut)
      ensures fd in poller.kernel && poller.kernel[fd] == Interest(this, events)
    {
      Change(events.With(READ_EVENT));
      assert ChannelAgrees(poller.View(), this);
    }

    method StartWriting()
      requires poller.Valid() && this in poller.all
      modifies this`events, this`index, poller`channels, poller`kernel, poller`refused
      ensures poller.Valid() && index == Added && IsWriting()
      ensures events.epollIn == old(events.epollIn) && events.epollPri == old(events.epollPri)
      ensures fd in poller.kernel && poller.kernel[fd] == Interest(this, events)
    {
      Change(events.With(WRITE_EVENT));
      assert ChannelAgrees(poller.View(), this);
    }

    method StopWriting()
      requires poller.Valid() && this in poller.all
      modifies this`events, this`index, poller`channels, poller`kernel, poller`refused
      ensures poller.Valid() && index != New
      ensures events.epollIn == old(events.epollIn) && events.epollPri == old(events.epollPri) && !IsWriting()
      ensures fd in poller.kernel <==> fd !in old(poller.kernel) || events.epollIn || events.epollPri
      ensures fd in poller.kernel ==> poller.kernel[fd] == Interest(this, events)
    {
      Change(events.Without(WRITE_EVENT));
    }

    /** Despite its name this leaves every interest in place and only updates. */
    method DisbaleAll()
      requires poller.Valid() && this in poller.all
      modifies this`events, this`index, poller`channels, poller`kernel, poller`refused
      ensures poller.Valid() && index != New
      ensures events == old(events)
      ensures old(index) == Added && (events.epollIn || events.epollPri || events.epollOut) ==>
                fd in poller.kernel && poller.kernel[fd] == Interest(this, events)
    {
      Change(events.Without(NONE_EVENT));
    }

    /** Afterwards neither the poller nor the kernel knows the channel or its descriptor. */
    method Detach()
      requires poller.Valid() && this in poller.all
      modifies this`index, poller`channels, poller`kernel, poller`refused
      ensures poller.Valid() && index == New
      ensures fd !in poller.channels && fd !in poller.kernel
      ensures forall f :: f != fd ==> (f in poller.channels <==> f in old(poller.channels)) && (f in poller.kernel <==> f in old(poller.kernel))
      ensures forall f :: f != fd && f in poller.kernel ==> poller.kernel[f] == old(poller.kernel)[f]
    {
      ghost var before := poller.View();
      poller.Erase(this);
      RemoveAgrees(before, this);
      assert ChannelAgrees(poller.View(), this);
    }
  }
}
