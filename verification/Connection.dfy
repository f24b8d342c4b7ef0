/** One TCP connection: the output path, the half-close and the four-state lifecycle of
    TcpConnetion.cpp, over a kernel whose write may be short or fail in any way.

    `Conn` is the value of a connection together with what it did so far: the bytes given
    to the kernel, the messages that reached sendInLoop and those that were accepted. */
module Connections {
  import opened Bytes
  import opened Lifecycle

  /** The callbacks a connection hands to its loop. */
  datatype Notice = WriteComplete | HighWater(len: nat)

  datatype Config = Config(hasWriteComplete: bool, hasHighWater: bool, mark: nat)

  /** write(2): the number of bytes taken, or an error that is or is not a broken pipe. */
  datatype WriteResult = Wrote(n: nat) | WriteError(fault: bool)

  datatype Conn = Conn(
    life: Life,
    writing: bool,            // the channel's write interest
    out: Bytes,               // the readable part of outputBuffer_
    halfClosed: bool,         // shutDownWrite was issued
    shutdownTasks: nat,       // queued shutdownInLoop calls
    sendTasks: seq<nat>,      // the lengths of queued sendInLoop calls
    notices: seq<Notice>,     // callbacks queued so far
    wire: Bytes,              // every byte the kernel took
    offered: seq<Bytes>,      // every message that reached sendInLoop
    accepted: seq<Bytes>,     // those whose write succeeded
    lengths: seq<nat>)        // the buffered length after each step that could change it

  const NEW_CONN := Conn(Connecting, false, [], false, 0, [], [], [], [], [], [0])

  /** The kernel takes at most what it is given, and nothing after SHUT_WR. */
  predicate KernelMayWrite(c: Conn, len: nat, w: WriteResult) {
    w.Wrote? ==> w.n <= len && !c.halfClosed
  }

  /** The write is tried only with nothing pending. */
  predicate WriteTaken(c: Conn, w: WriteResult) {
    !c.writing && c.out == [] && w.Wrote?
  }

  /** The first half of sendInLoop: the direct write and its write-complete callback. */
  function WritePhase(cfg: Config, c: Conn, msg: Bytes, w: WriteResult): Conn
    requires KernelMayWrite(c, |msg|, w)
  {
    var taken := WriteTaken(c, w);
    var done := if taken && w.n == |msg| && cfg.hasWriteComplete then [WriteComplete] else [];
    c.(wire := c.wire + (if taken then msg[..w.n] else []),
       notices := c.notices + done,
       offered := c.offered + [msg],
       accepted := if taken then c.accepted + [msg] else c.accepted)
  }

  /** The second half: the rest is buffered, the write interest armed, the mark checked. */
  function KeepPhase(cfg: Config, c: Conn, rest: Bytes): Conn {
    var len := |c.out| + |rest|;
    var high := if len >= cfg.mark && |c.out| < cfg.mark && cfg.hasHighWater then [HighWater(len)] else [];
    c.(notices := c.notices + high, out := c.out + rest, writing := true, lengths := c.lengths + [len])
  }

  /** `remaining` starts at zero, so only what a successful write left over is buffered. */
  function SendInLoop(cfg: Config, c: Conn, msg: Bytes, w: WriteResult): Conn
    requires KernelMayWrite(c, |msg|, w)
  {
    var c1 := WritePhase(cfg, c, msg, w);
    if WriteTaken(c, w) && w.n < |msg| then KeepPhase(cfg, c1, msg[w.n..])
    else c1.(lengths := c1.lengths + [|c.out|])
  }

  /** send: in the loop thread it always comes to sendInLoop. On a connected connection any
      other thread's send is lost; on one that is not connected sendInLoop is queued, with the
      length and a pointer to the caller's characters. */
  function Send(cfg: Config, c: Conn, msg: Bytes, inLoopThread: bool, w: WriteResult): Conn
    requires KernelMayWrite(c, |msg|, w)
  {
    if inLoopThread then SendInLoop(cfg, c, msg, w)
    else if c.life.Connected? then c
    else c.(sendTasks := c.sendTasks + [|msg|])
  }

  /** The queued call finds the length it was given and whatever characters are there by now. */
  function RunSend(cfg: Config, c: Conn, found: Bytes, w: WriteResult): Conn
    requires c.sendTasks != [] && |found| == c.sendTasks[0] && KernelMayWrite(c, |found|, w)
  {
    SendInLoop(cfg, c.(sendTasks := c.sendTasks[1..]), found, w)
  }

  function ShutdownInLoop(c: Conn): Conn {
    if !c.writing then c.(halfClosed := true) else c
  }

  function Shutdown(c: Conn, inLoopThread: bool): Conn {
    if !c.life.Connected? then c
    else if inLoopThread then ShutdownInLoop(c.(life := Disconnecting))
    else c.(life := Disconnecting, shutdownTasks := c.shutdownTasks + 1)
  }

  function HandleWrite(cfg: Config, c: Conn, w: WriteResult): Conn
    requires KernelMayWrite(c, |c.out|, w)
  {
    if c.writing && w.Wrote? && w.n > 0 then
      var c1 := c.(wire := c.wire + c.out[..w.n], out := c.out[w.n..], lengths := c.lengths + [|c.out| - w.n]);
      if c1.out == [] then
        var c2 := c1.(writing := false,
                      notices := c.notices + (if cfg.hasWriteComplete then [WriteComplete] else []));
        if c2.life.Disconnecting? then ShutdownInLoop(c2) else c2
      else c1
    else c
  }

  datatype Event =
    | SendMessage(msg: Bytes, inLoopThread: bool, w: WriteResult)
    | RunSendTask(found: Bytes, w: WriteResult)
    | Writable(w: WriteResult)              // handleWrite
    | ShutdownCall(inLoopThread: bool)
    | RunShutdownTask
    | Establish                             // connectEstablished
    | PeerClosed                            // handleClose
    | Destroy                               // connectDestroyed

  predicate Allowed(c: Conn, e: Event) {
    match e
    case SendMessage(msg, inLoop, w) => KernelMayWrite(c, |msg|, w)
    case RunSendTask(found, w) => c.sendTasks != [] && |found| == c.sendTasks[0] && KernelMayWrite(c, |found|, w)
    case Writable(w) => KernelMayWrite(c, |c.out|, w)
    case RunShutdownTask => c.shutdownTasks > 0
    case _ => true
  }

  function Step(cfg: Config, c: Conn, e: Event): Conn
    requires Allowed(c, e)
  {
    match e
    case SendMessage(msg, inLoop, w) => Send(cfg, c, msg, inLoop, w)
    case RunSendTask(found, w) => RunSend(cfg, c, found, w)
    case Writable(w) => HandleWrite(cfg, c, w)
    case ShutdownCall(inLoop) => Shutdown(c, inLoop)
    case RunShutdownTask => ShutdownInLoop(c.(shutdownTasks := c.shutdownTasks - 1))
    case Establish => c.(life := Connected)
    case PeerClosed => c.(life := Disconnected)
    case Destroy => if c.life.Connected? then c.(life := Disconnected) else c
  }

  ghost predicate Runs(cfg: Config, c: Conn, events: seq<Event>)
    decreases |events|
  {
    events != [] ==> Allowed(c, events[0]) && Runs(cfg, Step(cfg, c, events[0]), events[1..])
  }

  ghost function After(cfg: Config, c: Conn, events: seq<Event>): Conn
    requires Runs(cfg, c, events)
    decreases |events|
  {
    if events == [] then c else After(cfg, Step(cfg, c, events[0]), events[1..])
  }

  // ----- what every step keeps -----

  /** The bytes on the wire followed by those still buffered are the accepted messages. */
  predicate StreamIntact(c: Conn) {
    && c.wire + c.out == Concat(c.accepted)
    && IsSubsequence(c.accepted, c.offered)
    && (c.out != [] ==> c.accepted != [] && IsSuffix(c.out, c.accepted[|c.accepted| - 1]))
  }

  predicate IsSuffix(a: Bytes, b: Bytes) {
    |a| <= |b| && b[|b| - |a|..] == a
  }

  predicate InterestMirrorsOutput(c: Conn) {
    c.writing <==> c.out != []
  }

  /** Half-close never truncates and never gets stuck. */
  predicate HalfCloseSafe(c: Conn) {
    && (c.halfClosed ==> c.out == [])
    && (c.life.Disconnecting? && c.shutdownTasks == 0 ==> c.halfClosed || (c.out != [] && c.writing))
  }

  function CountWriteComplete(ns: seq<Notice>): nat {
    if ns == [] then 0
    else CountWriteComplete(ns[..|ns| - 1]) + (if ns[|ns| - 1].WriteComplete? then 1 else 0)
  }

  function HighWaterMarks(ns: seq<Notice>): seq<nat> {
    if ns == [] then []
    else HighWaterMarks(ns[..|ns| - 1]) + (if ns[|ns| - 1].HighWater? then [ns[|ns| - 1].len] else [])
  }

  /** The lengths at which a history rises from below the mark to the mark or above. */
  function Crossings(mark: nat, lengths: seq<nat>): seq<nat> {
    if |lengths| <= 1 then []
    else
      var i := |lengths| - 1;
      Crossings(mark, lengths[..i]) + (if lengths[i - 1] < mark <= lengths[i] then [lengths[i]] else [])
  }

  /** One write-complete per accepted message, owed only while output is pending; one
      high-water notice per upward crossing of the mark. */
  predicate NoticesMatch(cfg: Config, c: Conn) {
    && CountWriteComplete(c.notices) ==
         (if !cfg.hasWriteComplete then 0 else |c.accepted| - (if c.out != [] then 1 else 0))
    && |c.lengths| > 0 && c.lengths[|c.lengths| - 1] == |c.out|
    && HighWaterMarks(c.notices) == (if cfg.hasHighWater then Crossings(cfg.mark, c.lengths) else [])
  }

  predicate Inv(cfg: Config, c: Conn) {
    && StreamIntact(c)
    && InterestMirrorsOutput(c)
    && HalfCloseSafe(c)
    && NoticesMatch(cfg, c)
  }

  lemma NoticeAppend(ns: seq<Notice>, n: Notice)
    ensures CountWriteComplete(ns + [n]) == CountWriteComplete(ns) + (if n.WriteComplete? then 1 else 0)
    ensures HighWaterMarks(ns + [n]) == HighWaterMarks(ns) + (if n.HighWater? then [n.len] else [])
  {
    assert (ns + [n])[..|ns|] == ns;
  }

  lemma CrossingAppend(mark: nat, ls: seq<nat>, l: nat)
    requires ls != []
    ensures Crossings(mark, ls + [l]) ==
            Crossings(mark, ls) + (if ls[|ls| - 1] < mark <= l then [l] else [])
  {
    assert (ls + [l])[..|ls|] == ls;
  }

  /** sendInLoop has two outcomes. Nothing pending and a write that succeeded: the message
      is split between the wire and the buffer. Anything else: it is dropped whole. */
  lemma SendOutcome(cfg: Config, c: Conn, msg: Bytes, w: WriteResult)
    requires InterestMirrorsOutput(c) && KernelMayWrite(c, |msg|, w)
    ensures var d := SendInLoop(cfg, c, msg, w);
            && d.offered == c.offered + [msg] && d.life == c.life
            && d.halfClosed == c.halfClosed && d.shutdownTasks == c.shutdownTasks && d.sendTasks == c.sendTasks
            && InterestMirrorsOutput(d)
            && if c.out == [] && w.Wrote?
               then d.wire == c.wire + msg[..w.n] && d.out == msg[w.n..] && d.accepted == c.accepted + [msg]
               else d.wire == c.wire && d.out == c.out && d.accepted == c.accepted && d.notices == c.notices
  {
    assert c.wire + [] == c.wire;
    assert c.notices + [] == c.notices;
    if w.Wrote? {
      assert [] + msg[w.n..] == msg[w.n..];
    }
  }

  /** In any state: what a send leaves alone. */
  lemma SendFrame(cfg: Config, c: Conn, msg: Bytes, w: WriteResult)
    requires KernelMayWrite(c, |msg|, w)
    ensures var d := SendInLoop(cfg, c, msg, w);
            && d.offered == c.offered + [msg] && d.life == c.life && d.halfClosed == c.halfClosed
            && d.shutdownTasks == c.shutdownTasks && d.sendTasks == c.sendTasks
  {
  }

  lemma StreamAccepts(c: Conn, d: Conn, msg: Bytes, n: nat)
    requires StreamIntact(c) && c.out == [] && n <= |msg|
    requires d.wire == c.wire + msg[..n] && d.out == msg[n..]
    requires d.accepted == c.accepted + [msg] && d.offered == c.offered + [msg]
    ensures StreamIntact(d)
  {
    ConcatAppend(c.accepted, msg);
    SubsequenceTake(c.accepted, c.offered, msg);
    assert c.wire + [] == c.wire;
    assert d.wire + d.out == c.wire + (msg[..n] + msg[n..]);
    assert msg[..n] + msg[n..] == msg;
  }

  lemma StreamDrains(c: Conn, d: Conn, n: nat)
    requires StreamIntact(c) && n <= |c.out|
    requires d.wire == c.wire + c.out[..n] && d.out == c.out[n..]
    requires d.accepted == c.accepted && d.offered == c.offered
    ensures StreamIntact(d)
  {
    assert d.wire + d.out == c.wire + (c.out[..n] + c.out[n..]);
    assert c.out[..n] + c.out[n..] == c.out;
    if d.out != [] {
      var last := c.accepted[|c.accepted| - 1];
      assert last[|last| - |d.out|..] == last[|last| - |c.out|..][n..];
    }
  }

  lemma SendKeepsStream(cfg: Config, c: Conn, msg: Bytes, w: WriteResult)
    requires StreamIntact(c) && InterestMirrorsOutput(c) && KernelMayWrite(c, |msg|, w)
    ensures StreamIntact(SendInLoop(cfg, c, msg, w))
  {
    SendOutcome(cfg, c, msg, w);
    if c.out == [] && w.Wrote? {
      StreamAccepts(c, SendInLoop(cfg, c, msg, w), msg, w.n);
    } else {
      SubsequenceSkip(c.accepted, c.offered, msg);
    }
  }

  function Owed(c: Conn): nat {
    if c.out != [] then 1 else 0
  }

  /** A step that queues at most one callback and records the new buffered length. */
  lemma NoticesAfter(cfg: Config, c: Conn, d: Conn, added: seq<Notice>)
    requires NoticesMatch(cfg, c)
    requires |added| <= 1 && d.notices == c.notices + added
    requires d.lengths == c.lengths + [|d.out|]
    requires |d.accepted| - Owed(d) == |c.accepted| - Owed(c)
               + (if cfg.hasWriteComplete && added == [WriteComplete] then 1 else 0)
             || !cfg.hasWriteComplete
    requires added == [WriteComplete] ==> cfg.hasWriteComplete
    requires |added| == 1 && added[0].HighWater? <==> cfg.hasHighWater && |c.out| < cfg.mark <= |d.out|
    requires |added| == 1 && added[0].HighWater? ==> added[0].len == |d.out|
    ensures NoticesMatch(cfg, d)
  {
    hide CountWriteComplete, HighWaterMarks, Crossings;
    CrossingAppend(cfg.mark, c.lengths, |d.out|);
    if added == [] {
      assert d.notices == c.notices;
    } else {
      assert added == [added[0]];
      NoticeAppend(c.notices, added[0]);
    }
  }

  /** The one callback, if any, that sendInLoop queues. */
  function SendNotice(cfg: Config, c: Conn, msg: Bytes, w: WriteResult): seq<Notice>
    requires KernelMayWrite(c, |msg|, w)
  {
    if !WriteTaken(c, w) then []
    else if w.n == |msg| then (if cfg.hasWriteComplete then [WriteComplete] else [])
    else if cfg.hasHighWater && 0 < cfg.mark <= |msg| - w.n then [HighWater(|msg| - w.n)]
    else []
  }

  lemma SendQueues(cfg: Config, c: Conn, msg: Bytes, w: WriteResult)
    requires KernelMayWrite(c, |msg|, w)
    ensures var d := SendInLoop(cfg, c, msg, w);
            d.notices == c.notices + SendNotice(cfg, c, msg, w) && d.lengths == c.lengths + [|d.out|]
  {
    assert c.notices + [] == c.notices;
  }

  lemma SendKeepsNotices(cfg: Config, c: Conn, msg: Bytes, w: WriteResult)
    requires NoticesMatch(cfg, c) && InterestMirrorsOutput(c) && KernelMayWrite(c, |msg|, w)
    ensures NoticesMatch(cfg, SendInLoop(cfg, c, msg, w))
  {
    hide SendInLoop;
    SendQueues(cfg, c, msg, w);
    SendOutcome(cfg, c, msg, w);
    NoticesAfter(cfg, c, SendInLoop(cfg, c, msg, w), SendNotice(cfg, c, msg, w));
  }

  lemma WriteKeepsStream(cfg: Config, c: Conn, w: WriteResult)
    requires StreamIntact(c) && InterestMirrorsOutput(c) && KernelMayWrite(c, |c.out|, w)
    ensures StreamIntact(HandleWrite(cfg, c, w))
    ensures InterestMirrorsOutput(HandleWrite(cfg, c, w))
  {
    if c.writing && w.Wrote? && w.n > 0 {
      StreamDrains(c, HandleWrite(cfg, c, w), w.n);
    }
  }

  /** What a successful drain step changes. */
  lemma WriteOutcome(cfg: Config, c: Conn, w: WriteResult)
    requires c.writing && w.Wrote? && w.n > 0 && KernelMayWrite(c, |c.out|, w)
    ensures var d := HandleWrite(cfg, c, w);
            && d.wire == c.wire + c.out[..w.n] && d.out == c.out[w.n..]
            && d.writing == (d.out != []) && d.life == c.life && d.shutdownTasks == c.shutdownTasks
            && d.sendTasks == c.sendTasks
            && d.halfClosed == (c.halfClosed || (d.out == [] && c.life.Disconnecting?))
            && d.accepted == c.accepted && d.offered == c.offered
            && d.lengths == c.lengths + [|d.out|]
            && d.notices == c.notices + (if d.out == [] && cfg.hasWriteComplete then [WriteComplete] else [])
  {
    assert c.notices + [] == c.notices;
  }

  lemma WriteIdle(cfg: Config, c: Conn, w: WriteResult)
    requires KernelMayWrite(c, |c.out|, w) && !(c.writing && w.Wrote? && w.n > 0)
    ensures HandleWrite(cfg, c, w) == c
  {
  }

  lemma WriteKeepsNotices(cfg: Config, c: Conn, w: WriteResult)
    requires NoticesMatch(cfg, c) && InterestMirrorsOutput(c) && KernelMayWrite(c, |c.out|, w)
    ensures NoticesMatch(cfg, HandleWrite(cfg, c, w))
  {
    if c.writing && w.Wrote? && w.n > 0 {
      hide HandleWrite;
      WriteOutcome(cfg, c, w);
      var d := HandleWrite(cfg, c, w);
      NoticesAfter(cfg, c, d, if d.out == [] && cfg.hasWriteComplete then [WriteComplete] else []);
    }
  }

  lemma SendKeepsInv(cfg: Config, c: Conn, msg: Bytes, w: WriteResult)
    requires Inv(cfg, c) && KernelMayWrite(c, |msg|, w)
    ensures Inv(cfg, SendInLoop(cfg, c, msg, w))
  {
    SendKeepsStream(cfg, c, msg, w);
    SendKeepsNotices(cfg, c, msg, w);
    SendOutcome(cfg, c, msg, w);
  }

  lemma WriteKeepsInv(cfg: Config, c: Conn, w: WriteResult)
    requires Inv(cfg, c) && KernelMayWrite(c, |c.out|, w)
    ensures Inv(cfg, HandleWrite(cfg, c, w))
  {
    WriteKeepsStream(cfg, c, w);
    WriteKeepsNotices(cfg, c, w);
    assert HalfCloseSafe(HandleWrite(cfg, c, w));
  }

  /** A step that moves no bytes and queues no callback. */
  lemma QuietKeepsInv(cfg: Config, c: Conn, d: Conn)
    requires Inv(cfg, c) && HalfCloseSafe(d)
    requires d == c.(life := d.life, halfClosed := d.halfClosed, shutdownTasks := d.shutdownTasks, sendTasks := d.sendTasks)
    ensures Inv(cfg, d)
  {
  }

  lemma StepKeepsInv(cfg: Config, c: Conn, e: Event)
    requires Inv(cfg, c) && Allowed(c, e)
    ensures Inv(cfg, Step(cfg, c, e))
  {
    hide SendInLoop, HandleWrite, StreamIntact, NoticesMatch;
    match e
    case SendMessage(msg, inLoop, w) =>
      SendKeepsInv(cfg, c, msg, w);
      QuietKeepsInv(cfg, c, c.(sendTasks := c.sendTasks + [|msg|]));
    case RunSendTask(found, w) =>
      var d := c.(sendTasks := c.sendTasks[1..]);
      QuietKeepsInv(cfg, c, d);
      SendKeepsInv(cfg, d, found, w);
    case Writable(w) => WriteKeepsInv(cfg, c, w);
    case _ => QuietKeepsInv(cfg, c, Step(cfg, c, e));
  }

  // ----- every run -----

  /** Output stream integrity, interest, half-close and notices hold after every run. */
  lemma {:induction false} EveryRunKeepsInv(cfg: Config, c: Conn, events: seq<Event>)
    requires Inv(cfg, c) && Runs(cfg, c, events)
    ensures Inv(cfg, After(cfg, c, events))
    decreases |events|
  {
    if events != [] {
      StepKeepsInv(cfg, c, events[0]);
      EveryRunKeepsInv(cfg, Step(cfg, c, events[0]), events[1..]);
    }
  }

  lemma NewConnInv(cfg: Config)
    ensures Inv(cfg, NEW_CONN)
  {
  }

  lemma ConnectionTheorem(cfg: Config, events: seq<Event>)
    requires Runs(cfg, NEW_CONN, events)
    ensures Inv(cfg, After(cfg, NEW_CONN, events))
  {
    EveryRunKeepsInv(cfg, NEW_CONN, events);
  }

  lemma HalfClosedStep(cfg: Config, c: Conn, e: Event)
    requires Inv(cfg, c) && c.halfClosed && Allowed(c, e)
    ensures var d := Step(cfg, c, e); d.halfClosed && d.wire == c.wire && d.accepted == c.accepted
  {
    hide SendInLoop, StreamIntact, NoticesMatch;
    match e
    case SendMessage(msg, inLoop, w) => SendOutcome(cfg, c, msg, w);
    case RunSendTask(found, w) => SendOutcome(cfg, c.(sendTasks := c.sendTasks[1..]), found, w);
    case _ =>
  }

  /** Once half-closed, the wire and the accepted messages never change again, and together
      they say that nothing accepted was cut off. */
  lemma {:induction false} HalfCloseIsFinal(cfg: Config, c: Conn, events: seq<Event>)
    requires Inv(cfg, c) && c.halfClosed && Runs(cfg, c, events)
    ensures var d := After(cfg, c, events);
            d.halfClosed && d.wire == c.wire && d.accepted == c.accepted && d.wire == Concat(d.accepted)
    decreases |events|
  {
    if events == [] {
      assert c.wire + [] == c.wire;
    } else {
      hide Inv, Step, Allowed;
      StepKeepsInv(cfg, c, events[0]);
      HalfClosedStep(cfg, c, events[0]);
      HalfCloseIsFinal(cfg, Step(cfg, c, events[0]), events[1..]);
    }
  }

  ghost predicate ForwardThroughout(cfg: Config, c: Conn, events: seq<Event>)
    requires Runs(cfg, c, events)
    decreases |events|
  {
    events != [] ==>
      && Rank(c.life) <= Rank(Step(cfg, c, events[0]).life)
      && ForwardThroughout(cfg, Step(cfg, c, events[0]), events[1..])
  }

  /** Every connectEstablished comes before the connection is disconnecting or disconnected. */
  ghost predicate EstablishedInTime(cfg: Config, c: Conn, events: seq<Event>)
    requires Runs(cfg, c, events)
    decreases |events|
  {
    events != [] ==>
      && (events[0].Establish? ==> c.life.Connecting? || c.life.Connected?)
      && EstablishedInTime(cfg, Step(cfg, c, events[0]), events[1..])
  }

  /** Whatever the order of calls, the state moves only forward exactly when no
      connectEstablished comes late. That the server calls it in time is proved in Teardown. */
  lemma {:induction false} LifeForwardExactlyWhen(cfg: Config, c: Conn, events: seq<Event>)
    requires Runs(cfg, c, events)
    ensures ForwardThroughout(cfg, c, events) <==> EstablishedInTime(cfg, c, events)
    decreases |events|
  {
    if events != [] {
      LifeForwardExactlyWhen(cfg, Step(cfg, c, events[0]), events[1..]);
    }
  }

  // ----- which messages are lost -----

  /** A message reaching sendInLoop takes its place in the stream exactly when nothing was
      pending and the kernel did not refuse the write. */
  lemma KeptExactlyWhen(cfg: Config, c: Conn, msg: Bytes, w: WriteResult)
    requires InterestMirrorsOutput(c) && KernelMayWrite(c, |msg|, w) && msg != []
    ensures var d := SendInLoop(cfg, c, msg, w);
            d.wire + d.out == c.wire + c.out + msg <==> c.out == [] && w.Wrote?
  {
    hide SendInLoop;
    SendOutcome(cfg, c, msg, w);
    var d := SendInLoop(cfg, c, msg, w);
    if c.out == [] && w.Wrote? {
      assert d.wire + d.out == c.wire + (msg[..w.n] + msg[w.n..]);
      assert msg[..w.n] + msg[w.n..] == msg;
      assert c.wire + c.out == c.wire;
    } else {
      assert |d.wire + d.out| < |c.wire + c.out + msg|;
    }
  }

  /** The promise that what the kernel cannot take is buffered does not hold: with one byte
      still pending, a second message disappears without a trace. */
  lemma SecondMessageIsLost(cfg: Config)
    ensures var c := SendInLoop(cfg, NEW_CONN.(life := Connected), [1], Wrote(0));
            var d := SendInLoop(cfg, c, [2], Wrote(1));
            Inv(cfg, c) && d.wire + d.out == [1] && d.offered == [[1], [2]]
  {
    hide SendInLoop;
    var c0 := NEW_CONN.(life := Connected);
    var c := SendInLoop(cfg, c0, [1], Wrote(0));
    assert Inv(cfg, c0);
    SendKeepsInv(cfg, c0, [1], Wrote(0));
    SendOutcome(cfg, c0, [1], Wrote(0));
    SendOutcome(cfg, c, [2], Wrote(1));
    assert [] + [1][..0] == [] && [1][0..] == [1] && [] + [1] == [1];
  }

  // ----- high-water notices -----

  /** The buffered length is at or above the mark in every state of the run. */
  ghost predicate StaysAbove(cfg: Config, c: Conn, events: seq<Event>)
    requires Runs(cfg, c, events)
    decreases |events|
  {
    |c.out| >= cfg.mark && (events != [] ==> StaysAbove(cfg, Step(cfg, c, events[0]), events[1..]))
  }

  lemma NoNoticeFromSend(cfg: Config, c: Conn, msg: Bytes, w: WriteResult)
    requires KernelMayWrite(c, |msg|, w) && |c.out| >= cfg.mark
    ensures HighWaterMarks(SendInLoop(cfg, c, msg, w).notices) == HighWaterMarks(c.notices)
  {
    hide SendInLoop;
    SendQueues(cfg, c, msg, w);
    assert c.notices + [] == c.notices;
    NoticeAppend(c.notices, WriteComplete);
  }

  lemma NoNoticeFromWrite(cfg: Config, c: Conn, w: WriteResult)
    requires KernelMayWrite(c, |c.out|, w)
    ensures HighWaterMarks(HandleWrite(cfg, c, w).notices) == HighWaterMarks(c.notices)
  {
    if c.writing && w.Wrote? && w.n > 0 {
      hide HandleWrite;
      WriteOutcome(cfg, c, w);
      assert c.notices + [] == c.notices;
      NoticeAppend(c.notices, WriteComplete);
    }
  }

  lemma NoNoticeFromAbove(cfg: Config, c: Conn, e: Event)
    requires Allowed(c, e) && |c.out| >= cfg.mark
    ensures HighWaterMarks(Step(cfg, c, e).notices) == HighWaterMarks(c.notices)
  {
    hide SendInLoop, HandleWrite;
    match e
    case SendMessage(msg, inLoop, w) => NoNoticeFromSend(cfg, c, msg, w);
    case RunSendTask(found, w) => NoNoticeFromSend(cfg, c.(sendTasks := c.sendTasks[1..]), found, w);
    case Writable(w) => NoNoticeFromWrite(cfg, c, w);
    case _ =>
  }

  /** Between any two high-water notices the buffered length was below the mark: a stretch of a
      run that stays at or above it queues none. */
  lemma {:induction false} NoNoticeWhileAbove(cfg: Config, c: Conn, events: seq<Event>)
    requires Runs(cfg, c, events) && StaysAbove(cfg, c, events)
    ensures HighWaterMarks(After(cfg, c, events).notices) == HighWaterMarks(c.notices)
    decreases |events|
  {
    hide Step, Allowed;
    if events != [] {
      NoNoticeFromAbove(cfg, c, events[0]);
      NoNoticeWhileAbove(cfg, Step(cfg, c, events[0]), events[1..]);
    }
  }

  // ----- what the calls of a run come to -----

  /** The events that take a connection out of a state of its life. */
  predicate Moves(life: Life, e: Event) {
    match e
    case Establish => !life.Connected?
    case PeerClosed => !life.Disconnected?
    case ShutdownCall(_) => life.Connected?
    case Destroy => life.Connected?
    case _ => false
  }

  ghost predicate NoneMoves(life: Life, events: seq<Event>) {
    forall i :: 0 <= i < |events| ==> !Moves(life, events[i])
  }

  lemma LifeStep(cfg: Config, c: Conn, e: Event)
    requires Allowed(c, e)
    ensures Step(cfg, c, e).life != c.life <==> Moves(c.life, e)
  {
  }

  lemma {:induction false} LifeHolds(cfg: Config, c: Conn, events: seq<Event>)
    requires Runs(cfg, c, events) && NoneMoves(c.life, events)
    ensures After(cfg, c, events).life == c.life
    decreases |events|
  {
    hide Step, Allowed;
    if events != [] {
      LifeStep(cfg, c, events[0]);
      LifeHolds(cfg, Step(cfg, c, events[0]), events[1..]);
    }
  }

  /** connectEstablished leaves a connection connected until it is shut down, closed or
      destroyed; shutdown leaves a connected one disconnecting until it is closed or established
      again; handleClose, and connectDestroyed on a connected one, leave it disconnected until it
      is established again. In any other state shutdown and connectDestroyed leave the state as
      it is. */
  lemma LifeAfter(cfg: Config, c: Conn, e: Event, later: seq<Event>)
    requires Allowed(c, e) && Runs(cfg, Step(cfg, c, e), later)
    ensures var d := After(cfg, Step(cfg, c, e), later);
            && (e.Establish? && NoneMoves(Connected, later) ==> d.life == Connected)
            && (e.PeerClosed? && NoneMoves(Disconnected, later) ==> d.life == Disconnected)
            && (e.Destroy? && c.life.Connected? && NoneMoves(Disconnected, later) ==> d.life == Disconnected)
            && (e.ShutdownCall? && c.life.Connected? && NoneMoves(Disconnecting, later) ==> d.life == Disconnecting)
            && ((e.ShutdownCall? || e.Destroy?) && !c.life.Connected? && NoneMoves(c.life, later) ==> d.life == c.life)
  {
    var n := Step(cfg, c, e);
    if NoneMoves(n.life, later) {
      LifeHolds(cfg, n, later);
    }
  }

  /** shutdown() on a connected connection: in the loop thread the half-close comes at once
      unless output is pending; from another thread it is owed. */
  lemma ShutdownOutcome(c: Conn, inLoopThread: bool)
    requires InterestMirrorsOutput(c)
    ensures var d := Shutdown(c, inLoopThread);
            && (!c.life.Connected? ==> d == c)
            && (c.life.Connected? ==>
                  && d == c.(life := Disconnecting, halfClosed := d.halfClosed, shutdownTasks := d.shutdownTasks)
                  && d.halfClosed == (c.halfClosed || (inLoopThread && c.out == []))
                  && d.shutdownTasks == c.shutdownTasks + (if inLoopThread then 0 else 1))
  {
  }

  /** A shutdown of a connected connection comes to its half-close: in every continuation without
      a close by the peer, the connection is half-closed as soon as no queued shutdownInLoop is
      left and the output is drained. */
  lemma ShutdownTakesEffect(cfg: Config, c: Conn, inLoopThread: bool, later: seq<Event>)
    requires Inv(cfg, c) && c.life.Connected?
    requires Runs(cfg, Shutdown(c, inLoopThread), later) && NoneMoves(Disconnecting, later)
    ensures var d := After(cfg, Shutdown(c, inLoopThread), later);
            d.life.Disconnecting? && (d.shutdownTasks == 0 && d.out == [] ==> d.halfClosed)
  {
    var e := ShutdownCall(inLoopThread);
    StepKeepsInv(cfg, c, e);
    EveryRunKeepsInv(cfg, Step(cfg, c, e), later);
    LifeAfter(cfg, c, e, later);
  }

  /** ... and nothing else half-closes. */
  lemma {:induction false} HalfCloseNeedsShutdown(cfg: Config, c: Conn, events: seq<Event>)
    requires Runs(cfg, c, events) && InterestMirrorsOutput(c)
    requires !c.halfClosed && !c.life.Disconnecting? && c.shutdownTasks == 0
    requires forall i :: 0 <= i < |events| ==> !events[i].ShutdownCall?
    ensures !After(cfg, c, events).halfClosed
    decreases |events|
  {
    hide SendInLoop, HandleWrite;
    if events != [] {
      match events[0] {
        case SendMessage(msg, inLoop, w) => SendOutcome(cfg, c, msg, w);
        case RunSendTask(found, w) => SendOutcome(cfg, c.(sendTasks := c.sendTasks[1..]), found, w);
        case Writable(w) =>
          if c.writing && w.Wrote? && w.n > 0 { WriteOutcome(cfg, c, w); } else { WriteIdle(cfg, c, w); }
        case _ =>
      }
      HalfCloseNeedsShutdown(cfg, Step(cfg, c, events[0]), events[1..]);
    }
  }

  /** The message an event brings to sendInLoop: one sent in the loop thread, or what a queued
      call finds. */
  function Offer(e: Event): seq<Bytes> {
    match e
    case SendMessage(msg, inLoop, _) => if inLoop then [msg] else []
    case RunSendTask(found, _) => [found]
    case _ => []
  }

  function Offers(events: seq<Event>): seq<Bytes> {
    if events == [] then [] else Offer(events[0]) + Offers(events[1..])
  }

  /** The lengths of the queued sends that were called, and how many queued shutdowns were. */
  function SendCalled(e: Event): seq<nat> {
    if e.RunSendTask? then [|e.found|] else []
  }

  function SendsCalled(events: seq<Event>): seq<nat> {
    if events == [] then [] else SendCalled(events[0]) + SendsCalled(events[1..])
  }

  function ShutdownsCalled(events: seq<Event>): nat {
    if events == [] then 0 else (if events[0].RunShutdownTask? then 1 else 0) + ShutdownsCalled(events[1..])
  }

  /** Those that other threads queued: sends that found the connection not connected, shutdowns
      that found it connected. */
  function SendQueued(c: Conn, e: Event): seq<nat> {
    if e.SendMessage? && !e.inLoopThread && !c.life.Connected? then [|e.msg|] else []
  }

  function ShutdownQueued(c: Conn, e: Event): nat {
    if e.ShutdownCall? && !e.inLoopThread && c.life.Connected? then 1 else 0
  }

  ghost function SendsQueued(cfg: Config, c: Conn, events: seq<Event>): seq<nat>
    requires Runs(cfg, c, events)
    decreases |events|
  {
    if events == [] then [] else SendQueued(c, events[0]) + SendsQueued(cfg, Step(cfg, c, events[0]), events[1..])
  }

  ghost function ShutdownsQueued(cfg: Config, c: Conn, events: seq<Event>): nat
    requires Runs(cfg, c, events)
    decreases |events|
  {
    if events == [] then 0 else ShutdownQueued(c, events[0]) + ShutdownsQueued(cfg, Step(cfg, c, events[0]), events[1..])
  }

  lemma CallStep(cfg: Config, c: Conn, e: Event)
    requires Allowed(c, e)
    ensures var d := Step(cfg, c, e);
            && d.offered == c.offered + Offer(e)
            && SendCalled(e) + d.sendTasks == c.sendTasks + SendQueued(c, e)
            && (if e.RunShutdownTask? then 1 else 0) + d.shutdownTasks == c.shutdownTasks + ShutdownQueued(c, e)
  {
    hide SendInLoop;
    match e
    case SendMessage(msg, _, w) => SendFrame(cfg, c, msg, w);
    case RunSendTask(found, w) =>
      SendFrame(cfg, c.(sendTasks := c.sendTasks[1..]), found, w);
      assert [|found|] + c.sendTasks[1..] == c.sendTasks;
    case _ =>
  }

  /** What reaches sendInLoop is, in order, what the loop thread sent and what queued calls
      found; every send or shutdown another thread queued is called once, in order, or is still
      queued; and another thread's send on a connected connection reaches nothing. */
  lemma {:induction false} CallsAccountedFor(cfg: Config, c: Conn, events: seq<Event>)
    requires Runs(cfg, c, events)
    ensures var d := After(cfg, c, events);
            && d.offered == c.offered + Offers(events)
            && SendsCalled(events) + d.sendTasks == c.sendTasks + SendsQueued(cfg, c, events)
            && ShutdownsCalled(events) + d.shutdownTasks == c.shutdownTasks + ShutdownsQueued(cfg, c, events)
    decreases |events|
  {
    hide Step, Allowed, Offer, SendCalled, SendQueued, ShutdownQueued;
    if events != [] {
      var e, d := events[0], Step(cfg, c, events[0]);
      CallStep(cfg, c, e);
      CallsAccountedFor(cfg, d, events[1..]);
      calc {
        SendsCalled(events) + After(cfg, c, events).sendTasks;
        SendCalled(e) + (SendsCalled(events[1..]) + After(cfg, d, events[1..]).sendTasks);
        SendCalled(e) + (d.sendTasks + SendsQueued(cfg, d, events[1..]));
        (SendCalled(e) + d.sendTasks) + SendsQueued(cfg, d, events[1..]);
        c.sendTasks + SendsQueued(cfg, c, events);
      }
    }
  }
}
