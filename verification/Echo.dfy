/** The echo server of server_00.cpp on top of a connection: every chunk read is drained from
    the input buffer and sent back from within the read handler. */
module Echo {
  import opened Bytes
  import opened Buffers
  import opened Channels
  import opened Connections
  import opened TcpConnections

  /** A chunk read, with the kernel's answer to sending it back, or anything else that can
      happen to the connection. */
  datatype EchoEvent = Chunk(bytes: Bytes, w: WriteResult) | Other(e: Event)

  predicate EchoAllowed(c: Conn, e: EchoEvent) {
    match e
    case Chunk(bytes, w) => bytes != [] && KernelMayWrite(c, |bytes|, w)
    case Other(o) => !o.SendMessage? && !o.RunSendTask? && Connections.Allowed(c, o)
  }

  function EchoStep(cfg: Config, c: Conn, e: EchoEvent): Conn
    requires EchoAllowed(c, e)
  {
    match e
    case Chunk(bytes, w) => SendInLoop(cfg, c, bytes, w)
    case Other(o) => Connections.Step(cfg, c, o)
  }

  ghost predicate EchoRuns(cfg: Config, c: Conn, events: seq<EchoEvent>)
    decreases |events|
  {
    events != [] ==> EchoAllowed(c, events[0]) && EchoRuns(cfg, EchoStep(cfg, c, events[0]), events[1..])
  }

  ghost function EchoAfter(cfg: Config, c: Conn, events: seq<EchoEvent>): Conn
    requires EchoRuns(cfg, c, events)
    decreases |events|
  {
    if events == [] then c else EchoAfter(cfg, EchoStep(cfg, c, events[0]), events[1..])
  }

  /** The chunks read, in order. */
  function Chunks(events: seq<EchoEvent>): seq<Bytes> {
    if events == [] then []
    else (if events[0].Chunk? then [events[0].bytes] else []) + Chunks(events[1..])
  }

  /** No chunk arrives while output is pending, and no write of a chunk fails. */
  ghost predicate NeverBusy(cfg: Config, c: Conn, events: seq<EchoEvent>)
    requires EchoRuns(cfg, c, events)
    decreases |events|
  {
    events != [] ==>
      && (events[0].Chunk? ==> c.out == [] && events[0].w.Wrote?)
      && NeverBusy(cfg, EchoStep(cfg, c, events[0]), events[1..])
  }

  function Total(ms: seq<Bytes>): nat {
    if ms == [] then 0 else |ms[0]| + Total(ms[1..])
  }

  lemma {:induction false} TotalAppend(ms: seq<Bytes>, m: Bytes)
    ensures Total(ms + [m]) == Total(ms) + |m|
  {
    if ms != [] {
      assert (ms + [m])[1..] == ms[1..] + [m];
      TotalAppend(ms[1..], m);
    } else {
      assert [m][1..] == [];
    }
  }

  lemma {:induction false} ConcatLength(ms: seq<Bytes>)
    ensures |Concat(ms)| == Total(ms)
  {
    if ms != [] {
      var n := |ms| - 1;
      ConcatLength(ms[..n]);
      TotalAppend(ms[..n], ms[n]);
      assert ms[..n] + [ms[n]] == ms;
    }
  }

  lemma OtherMovesNoMessage(cfg: Config, c: Conn, o: Event)
    requires EchoAllowed(c, Other(o))
    ensures var d := Connections.Step(cfg, c, o);
            d.offered == c.offered && d.accepted == c.accepted && |d.wire| + |d.out| == |c.wire| + |c.out|
  {
  }

  lemma EchoStepKeepsInv(cfg: Config, c: Conn, e: EchoEvent)
    requires Inv(cfg, c) && EchoAllowed(c, e)
    ensures Inv(cfg, EchoStep(cfg, c, e))
  {
    match e
    case Chunk(bytes, w) => SendKeepsInv(cfg, c, bytes, w);
    case Other(o) => StepKeepsInv(cfg, c, o);
  }

  /** How one event moves the message lists and the number of bytes in the stream. */
  lemma EchoStepMoves(cfg: Config, c: Conn, e: EchoEvent)
    requires Inv(cfg, c) && EchoAllowed(c, e)
    ensures var d := EchoStep(cfg, c, e);
            && d.offered == c.offered + Chunks([e])
            && (e.Chunk? && c.out == [] && e.w.Wrote? ==>
                  d.accepted == c.accepted + [e.bytes] && |d.wire| + |d.out| == |c.wire| + |c.out| + |e.bytes|)
            && (!(e.Chunk? && c.out == [] && e.w.Wrote?) ==>
                  d.accepted == c.accepted && |d.wire| + |d.out| == |c.wire| + |c.out|)
  {
    hide SendInLoop;
    assert [e][1..] == [];
    match e
    case Chunk(bytes, w) => SendOutcome(cfg, c, bytes, w);
    case Other(o) => OtherMovesNoMessage(cfg, c, o);
  }

  lemma {:induction false} EchoRunMessages(cfg: Config, c: Conn, events: seq<EchoEvent>)
    requires Inv(cfg, c) && EchoRuns(cfg, c, events)
    ensures var d := EchoAfter(cfg, c, events);
            && Inv(cfg, d)
            && d.offered == c.offered + Chunks(events)
            && (NeverBusy(cfg, c, events) ==> d.accepted == c.accepted + Chunks(events))
    decreases |events|
  {
    hide Inv, EchoStep;
    if events != [] {
      var e, rest := events[0], events[1..];
      EchoStepKeepsInv(cfg, c, e);
      EchoStepMoves(cfg, c, e);
      EchoRunMessages(cfg, EchoStep(cfg, c, e), rest);
      assert [e][1..] == [];
      assert Chunks(events) == Chunks([e]) + Chunks(rest);
    }
  }

  /** A run that was busy at some chunk has lost at least one byte. */
  lemma {:induction false} EchoRunLength(cfg: Config, c: Conn, events: seq<EchoEvent>)
    requires Inv(cfg, c) && EchoRuns(cfg, c, events)
    ensures var d, most := EchoAfter(cfg, c, events), |c.wire| + |c.out| + Total(Chunks(events));
            |d.wire| + |d.out| <= most && (!NeverBusy(cfg, c, events) ==> |d.wire| + |d.out| < most)
    decreases |events|
  {
    hide Inv, EchoStep;
    if events != [] {
      var e, rest := events[0], events[1..];
      EchoStepKeepsInv(cfg, c, e);
      EchoStepMoves(cfg, c, e);
      EchoRunLength(cfg, EchoStep(cfg, c, e), rest);
      if e.Chunk? {
        assert Chunks(events) == [e.bytes] + Chunks(rest);
        assert Chunks(events)[1..] == Chunks(rest);
      } else {
        assert Chunks(events) == Chunks(rest);
      }
    }
  }

  /** After any run the bytes sent back, or about to be, are the concatenation of an in-order
      subsequence of the chunks read; and they are all the bytes read exactly when no chunk
      came while output was pending and no write failed. */
  lemma EchoTheorem(cfg: Config, events: seq<EchoEvent>)
    requires EchoRuns(cfg, NEW_CONN, events)
    ensures var d := EchoAfter(cfg, NEW_CONN, events);
            && d.wire + d.out == Concat(d.accepted)
            && IsSubsequence(d.accepted, Chunks(events))
            && (d.wire + d.out == Concat(Chunks(events)) <==> NeverBusy(cfg, NEW_CONN, events))
  {
    hide EchoStep, EchoRuns, EchoAfter, NeverBusy, Chunks, Concat, NoticesMatch, HalfCloseSafe;
    NewConnInv(cfg);
    EchoRunMessages(cfg, NEW_CONN, events);
    EchoRunLength(cfg, NEW_CONN, events);
    ConcatLength(Chunks(events));
    assert NEW_CONN.offered + Chunks(events) == Chunks(events) == NEW_CONN.accepted + Chunks(events);
  }

  // ----- the handlers -----

  method OnMessage(conn: TcpConnection, w: WriteResult)
    requires conn.Valid() && KernelMayWrite(conn.View(), |conn.inputBuffer.View().Content()|, w)
    modifies conn, conn.channel, conn.channel.poller
    modifies conn.inputBuffer, conn.outputBuffer, conn.outputBuffer.data
    ensures conn.Valid() && conn.inputBuffer.data == old(conn.inputBuffer.data)
    ensures conn.outputBuffer.data == old(conn.outputBuffer.data) || fresh(conn.outputBuffer.data)
    ensures conn.inputBuffer.View().Content() == []
    ensures conn.View() == SendInLoop(conn.cfg, old(conn.View()), old(conn.inputBuffer.View().Content()), w)
    ensures conn.state == old(conn.state) && conn.offered == old(conn.offered) + [old(conn.inputBuffer.View().Content())]
  {
    hide Agree, SendInLoop;
    var msg := conn.inputBuffer.RetrieveAllAsString();
    conn.Send(msg, true, w);
  }

  /** handleRead with the echo handler as its message callback. */
  method HandleRead(conn: TcpConnection, r: ReadResult, w: WriteResult)
    requires conn.Valid()
    requires conn.inputBuffer.View().Content() == []
    requires KernelMayDeliver(conn.inputBuffer.View(), r)
    requires KernelMayWrite(conn.View(), if r.Delivered? then |r.bytes| else 0, w)
    modifies conn, conn.channel, conn.channel.poller
    modifies conn.inputBuffer, conn.inputBuffer.data, conn.outputBuffer, conn.outputBuffer.data
    ensures conn.Valid() && conn.inputBuffer.View().Content() == []
    ensures r.ReadError? ==> conn.View() == old(conn.View()) && conn.calls == old(conn.calls)
    ensures r.Delivered? && r.bytes == [] ==>
              && conn.View() == EchoStep(conn.cfg, old(conn.View()), Other(PeerClosed)) && conn.state.Disconnected?
              && conn.calls == old(conn.calls) + [ConnectionCallback, CloseCallback]
    ensures r.Delivered? && r.bytes != [] ==>
              && conn.View() == EchoStep(conn.cfg, old(conn.View()), Chunk(r.bytes, w))
              && conn.state == old(conn.state) && conn.offered == old(conn.offered) + [r.bytes]
  {
    hide Agree, SendInLoop, ReadFd;
    var n := conn.inputBuffer.Read(r);
    assert [] + (if r.Delivered? then r.bytes else []) == if r.Delivered? then r.bytes else [];
    if n > 0 {
      OnMessage(conn, w);
    } else if n == 0 {
      conn.HandleClose();
    }
  }
}
