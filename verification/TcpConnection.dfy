/** The connection object of TcpConnetion.cpp over its real parts: two buffers and a channel
    registered with a poller. Every handler is proved equal to the function of the same name
    in Connections, so every theorem there is about this object. */
module TcpConnections {
  import opened Bytes
  import opened Buffers
  import opened Channels
  import opened Lifecycle
  import C = Connections

  /** The callbacks a connection calls at once: the user's, and the server's for a close. */
  datatype Call = ConnectionCallback | CloseCallback

  class TcpConnection {
    const channel: Channel
    const inputBuffer: Buffer
    const outputBuffer: Buffer
    const cfg: C.Config
    var state: Life
    var notices: seq<C.Notice>
    var shutdownTasks: nat
    var sendTasks: seq<nat>
    var calls: seq<Call>
    ghost var halfClosed: bool
    ghost var wire: Bytes
    ghost var offered: seq<Bytes>
    ghost var accepted: seq<Bytes>
    ghost var lengths: seq<nat>

    ghost predicate Valid()
      reads this, channel, channel.poller, channel.poller.all, inputBuffer, outputBuffer
    {
      && channel.poller.Valid() && channel in channel.poller.all
      && inputBuffer.Valid() && outputBuffer.Valid()
      && inputBuffer != outputBuffer && inputBuffer.data != outputBuffer.data
    }

    ghost function View(): C.Conn
      requires Valid()
      reads this, channel, channel.poller, channel.poller.all
      reads inputBuffer, outputBuffer, outputBuffer.data
    {
      C.Conn(state, channel.IsWriting(), outputBuffer.View().Content(), halfClosed, shutdownTasks, sendTasks,
             notices, wire, offered, accepted, lengths)
    }

    /** A connection on a descriptor that no live channel of the poller has. */
    constructor (poller: EpollPoller, fd: int, cfg: C.Config)
      requires poller.Valid() && forall d :: d in poller.all ==> d.fd != fd
      modifies poller
      ensures Valid() && View() == C.NEW_CONN
      ensures state == Connecting && !channel.IsWriting() && outputBuffer.View().Content() == []
      ensures calls == [] && shutdownTasks == 0 && sendTasks == [] && notices == [] && !halfClosed && wire == []
      ensures channel.poller == poller && channel.fd == fd && channel.index == New && this.cfg == cfg
      ensures fresh(channel) && fresh(inputBuffer) && fresh(outputBuffer)
      ensures fresh(inputBuffer.data) && fresh(outputBuffer.data)
      ensures inputBuffer.View().Content() == []
    {
      var ch := new Channel(poller, fd);
      var inb := new Buffer(1024);
      var outb := new Buffer(1024);
      channel, inputBuffer, outputBuffer := ch, inb, outb;
      this.cfg := cfg;
      state, notices, shutdownTasks, sendTasks, calls := Connecting, [], 0, [], [];
      halfClosed, wire, offered, accepted, lengths := false, [], [], [], [0];
    }

    /** The tail of sendInLoop: buffer what is left and ask to hear when it can be written. */
    method Enqueue(rest: Bytes)
      requires Valid()
      modifies channel, channel.poller, outputBuffer, outputBuffer.data
      ensures Valid() && (outputBuffer.data == old(outputBuffer.data) || fresh(outputBuffer.data))
      ensures outputBuffer.View().Content() == old(outputBuffer.View().Content()) + rest
      ensures channel.IsWriting()
    {
      hide Agree;
      outputBuffer.AppendBytes(rest);
      if !channel.IsWriting() {
        channel.StartWriting();
      }
    }

    /** The head of handleWrite: what the kernel took leaves the buffer, and the write
        interest ends with the last byte. */
    method Dequeue(n: nat)
      requires Valid() && 0 < n <= |outputBuffer.View().Content()| && channel.IsWriting()
      modifies channel, channel.poller, outputBuffer
      ensures Valid() && outputBuffer.data == old(outputBuffer.data)
      ensures outputBuffer.View().Content() == old(outputBuffer.View().Content())[n..]
      ensures channel.IsWriting() <==> outputBuffer.View().Content() != []
    {
      hide Agree;
      RetrieveSpec(outputBuffer.View(), n);
      outputBuffer.Drop(n);
      var left := outputBuffer.ReadableBytes();
      if left == 0 {
        channel.StopWriting();
      }
    }

    /** The direct write of sendInLoop. */
    method TryWrite(msg: Bytes, w: C.WriteResult) returns (nwrote: nat, remaining: nat, faultError: bool)
      requires Valid() && C.KernelMayWrite(View(), |msg|, w)
      modifies this`notices, this`wire, this`offered, this`accepted
      ensures View() == C.WritePhase(cfg, old(View()), msg, w)
      ensures if C.WriteTaken(old(View()), w) then nwrote == w.n && remaining == |msg| - w.n && !faultError
              else nwrote == 0 && remaining == 0
    {
      hide Agree;
      nwrote, remaining, faultError := 0, 0, false;
      offered := offered + [msg];
      var readable := outputBuffer.ReadableBytes();
      if !channel.IsWriting() && readable == 0 {
        if w.Wrote? {
          nwrote := w.n;
          remaining := |msg| - nwrote;
          wire := wire + msg[..nwrote];
          accepted := accepted + [msg];
          if remaining == 0 && cfg.hasWriteComplete {
            notices := notices + [C.WriteComplete];
          }
        } else if w.fault {
          faultError := true;
        }
      }
    }

    method SendInLoop(msg: Bytes, w: C.WriteResult)
      requires Valid() && C.KernelMayWrite(View(), |msg|, w)
      modifies this, channel, channel.poller, outputBuffer, outputBuffer.data
      ensures Valid() && (outputBuffer.data == old(outputBuffer.data) || fresh(outputBuffer.data))
      ensures View() == C.SendInLoop(cfg, old(View()), msg, w) && calls == old(calls)
    {
      hide Agree;
      var nwrote, remaining, faultError := TryWrite(msg, w);
      ghost var c1 := View();
      var oldLen := outputBuffer.ReadableBytes();
      if !faultError && remaining > 0 {
        if oldLen + remaining >= cfg.mark && oldLen < cfg.mark && cfg.hasHighWater {
          notices := notices + [C.HighWater(oldLen + remaining)];
        }
        Enqueue(msg[nwrote..]);
        lengths := lengths + [oldLen + remaining];
        assert View() == C.KeepPhase(cfg, c1, msg[nwrote..]);
      } else {
        lengths := lengths + [oldLen];
      }
    }

    /** In the loop thread a send always comes to sendInLoop; from another thread it has no
        effect on a connected connection and is queued on any other. */
    method Send(msg: Bytes, inLoopThread: bool, w: C.WriteResult)
      requires Valid() && C.KernelMayWrite(View(), |msg|, w)
      modifies this, channel, channel.poller, outputBuffer, outputBuffer.data
      ensures Valid() && (outputBuffer.data == old(outputBuffer.data) || fresh(outputBuffer.data))
      ensures View() == C.Send(cfg, old(View()), msg, inLoopThread, w) && calls == old(calls)
      ensures state == old(state) && offered == old(offered) + (if inLoopThread then [msg] else [])
      ensures sendTasks == old(sendTasks) + (if !inLoopThread && state != Connected then [|msg|] else [])
    {
      hide Agree, C.SendInLoop;
      C.SendFrame(cfg, View(), msg, w);
      if state == Connected {
        if inLoopThread {
          SendInLoop(msg, w);
        }
      } else {
        // runInLoop
        if inLoopThread {
          SendInLoop(msg, w);
        } else {
          sendTasks := sendTasks + [|msg|];
        }
      }
    }

    /** A queued sendInLoop is called, with the characters its pointer leads to by then. */
    method RunSendTask(found: Bytes, w: C.WriteResult)
      requires Valid() && sendTasks != [] && |found| == sendTasks[0] && C.KernelMayWrite(View(), |found|, w)
      modifies this, channel, channel.poller, outputBuffer, outputBuffer.data
      ensures Valid() && (outputBuffer.data == old(outputBuffer.data) || fresh(outputBuffer.data))
      ensures View() == C.RunSend(cfg, old(View()), found, w) && calls == old(calls)
      ensures offered == old(offered) + [found] && sendTasks == old(sendTasks)[1..]
    {
      hide Agree, C.SendInLoop;
      sendTasks := sendTasks[1..];
      C.SendFrame(cfg, View(), found, w);
      SendInLoop(found, w);
    }

    method ShutdownInLoop()
      requires Valid()
      modifies this
      ensures Valid() && View() == C.ShutdownInLoop(old(View())) && calls == old(calls)
      ensures state == old(state) && halfClosed == (old(halfClosed) || !channel.IsWriting())
    {
      if !channel.IsWriting() {
        halfClosed := true;
      }
    }

    method Shutdown(inLoopThread: bool)
      requires Valid()
      modifies this
      ensures Valid() && View() == C.Shutdown(old(View()), inLoopThread) && calls == old(calls)
      ensures old(state) == Connected ==> state == Disconnecting
      ensures old(state) == Connected && inLoopThread ==> halfClosed == (old(halfClosed) || !channel.IsWriting())
      ensures old(state) == Connected && !inLoopThread ==> shutdownTasks == old(shutdownTasks) + 1
      ensures old(state) != Connected ==> View() == old(View())
    {
      if state == Connected {
        state := Disconnecting;
        if inLoopThread {
          ShutdownInLoop();
        } else {
          shutdownTasks := shutdownTasks + 1;
        }
      }
    }

    method HandleWrite(w: C.WriteResult)
      requires Valid() && C.KernelMayWrite(View(), |View().out|, w)
      modifies this, channel, channel.poller, outputBuffer
      ensures Valid() && outputBuffer.data == old(outputBuffer.data)
      ensures View() == C.HandleWrite(cfg, old(View()), w) && calls == old(calls)
    {
      hide Agree, C.HandleWrite;
      ghost var c := View();
      if channel.IsWriting() && w.Wrote? && w.n > 0 {
        C.WriteOutcome(cfg, c, w);
        wire := wire + c.out[..w.n];
        lengths := lengths + [|c.out| - w.n];
        Dequeue(w.n);
        var left := outputBuffer.ReadableBytes();
        if left == 0 {
          if cfg.hasWriteComplete {
            notices := notices + [C.WriteComplete];
          }
          if state == Disconnecting {
            ShutdownInLoop();
          }
        }
      } else {
        C.WriteIdle(cfg, c, w);
      }
    }

    /** Afterwards the channel is registered for reading, and the user was told. */
    method ConnectEstablished()
      requires Valid()
      modifies this, channel, channel.poller
      ensures Valid() && View() == C.Step(cfg, old(View()), C.Establish)
      ensures state == Connected && channel.index == Added && calls == old(calls) + [ConnectionCallback]
      ensures channel.fd in channel.poller.kernel
      ensures var i := channel.poller.kernel[channel.fd];
              i.channel == channel && i.mask.epollIn && i.mask.epollPri && i.mask.epollOut == channel.IsWriting()
    {
      hide Agree;
      state := Connected;
      channel.StartReading();
      calls := calls + [ConnectionCallback];
    }

    /** The read interest survives: the channel stays registered and may report again. The user is
        told, and then the server. */
    method HandleClose()
      requires Valid()
      modifies this, channel, channel.poller
      ensures Valid() && View() == C.Step(cfg, old(View()), C.PeerClosed)
      ensures state == Disconnected && channel.events == old(channel.events)
      ensures calls == old(calls) + [ConnectionCallback, CloseCallback]
      ensures old(channel.index) == Added && channel.events.epollIn ==>
                channel.fd in channel.poller.kernel && channel.poller.kernel[channel.fd] == Interest(channel, channel.events)
    {
      hide Agree;
      state := Disconnected;
      channel.DisbaleAll();
      calls := calls + [ConnectionCallback];
      calls := calls + [CloseCallback];
    }

    /** Afterwards neither the poller nor the kernel has the descriptor. */
    method ConnectDestroyed()
      requires Valid()
      modifies this, channel, channel.poller
      ensures Valid() && View() == C.Step(cfg, old(View()), C.Destroy)
      ensures state == if old(state) == Connected then Disconnected else old(state)
      ensures calls == old(calls) + (if old(state) == Connected then [ConnectionCallback] else [])
      ensures channel.index == New
      ensures channel.fd !in channel.poller.channels && channel.fd !in channel.poller.kernel
    {
      hide Agree;
      if state == Connected {
        state := Disconnected;
        channel.DisbaleAll();
        calls := calls + [ConnectionCallback];
      }
      channel.Detach();
    }
  }
}
