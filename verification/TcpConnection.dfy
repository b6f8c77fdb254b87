/** `TcpConnection` as an object over its buffers, its channel and the poller, each method
    proved against the step system of `Output`. */
module TcpConnections {
  import opened Buffers
  import opened Poller
  import opened Channels
  import opened Output

  datatype ReadOutcome = Message | PeerClosed | ReadError

  class TcpConnection {
    var state: State
    const channel: Channel
    const inputBuffer: Buffer
    const outputBuffer: Buffer
    var queue: seq<Task>         // functors this connection has queued on its loop
    var onHighWater: bool        // highWaterMarkCallback_ is set
    var onWriteComplete: bool    // writeCompleteCallback_ is set
    var highWaterMark: nat

    ghost var established: bool
    ghost var closed: bool
    ghost var wire: seq<Wire>    // what the kernel has seen on the socket
    ghost var ups: nat           // connection callbacks run on establishing
    ghost var downs: nat         // connection callbacks run on closing or destroying
    ghost var removals: nat      // close callbacks run: calls of the server's removeConnection

    ghost predicate Valid()
      reads this, channel, channel.poller, inputBuffer, outputBuffer
    {
      && inputBuffer != outputBuffer && inputBuffer.buffer != outputBuffer.buffer
      && inputBuffer.extrabuf != outputBuffer.buffer && inputBuffer.extrabuf != outputBuffer.extrabuf
      && outputBuffer.extrabuf != inputBuffer.buffer
      && inputBuffer.Valid() && outputBuffer.Valid()
      && channel.Known()
    }

    /** The poller's registers, this channel's among them. */
    ghost function Registers(): Registry<Channel>
      reads channel.poller, channel.poller.universe
    {
      channel.poller.View()
    }

    /** The connection as the step system sees it, the code as written. */
    ghost function Core(): Core
      requires outputBuffer.Valid()
      reads this, channel, outputBuffer, outputBuffer.buffer
    {
      Output.Core(state, Out in channel.events, outputBuffer.Contents(), queue,
                  Config(highWaterMark, onHighWater, onWriteComplete, true))
    }

    ghost function View(): Sys
      requires outputBuffer.Valid()
      reads this, channel, outputBuffer, outputBuffer.buffer
    {
      Sys(Core(), established, closed, map[], 0)
    }

    constructor (poller: EPollPoller, sockfd: int, onWriteComplete: bool)
      requires poller.Valid()
      modifies poller`universe
      ensures Valid() && channel.poller == poller && channel.fd == sockfd && fresh(channel)
      ensures View() == Initial(Config(64 * 1024 * 1024, false, onWriteComplete, true))
      ensures wire == [] && ups == 0 && downs == 0 && removals == 0 && inputBuffer.Contents() == []
      ensures state == Connecting && queue == [] && channel.events == {} && outputBuffer.Contents() == []
      ensures inputBuffer.initialSize == 1024 && outputBuffer.initialSize == 1024
      ensures Registers() == Adopt(old(poller.View()), channel, sockfd)
    {
      state := Connecting;
      var ch := new Channel(poller, sockfd);
      channel := ch;
      inputBuffer := new Buffer(INITIAL_SIZE);
      outputBuffer := new Buffer(INITIAL_SIZE);
      queue, wire, ups, downs, removals := [], [], 0, 0, 0;
      onHighWater, highWaterMark := false, 64 * 1024 * 1024;
      this.onWriteComplete := onWriteComplete;
      established, closed := false, false;
    }

    /** Called by the loop thread or by `thread`. */
    method Send(data: seq<byte>, inLoopThread: bool, thread: nat, reply: Reply)
      requires Valid() && Fits(reply, |data|)
      modifies this`queue, this`wire, channel`events, channel`index
      modifies channel.poller`channels, channel.poller`kernel, channel.poller`faults, channel.poller`exited
      modifies outputBuffer, outputBuffer.buffer
      ensures Valid()
      ensures inLoopThread ==>
                var o := Run(old(View()), Step.InLoopSend(data, reply));
                View() == o.sys && wire == old(wire) + AsData(o.bytes)
      ensures !inLoopThread && old(state) == Connected ==>
                View() == Next(Next(old(View()), CheckSend(thread, data)), PushSend(thread)) && wire == old(wire)
      ensures !inLoopThread && old(state) == Connected ==> queue == old(queue) + [SendTask(thread, data)]
      ensures old(state) != Connected ==> View() == old(View()) && wire == old(wire)
    {
      if state != Connected {
        return;
      }
      if inLoopThread {
        SendInLoop(data, reply);
      } else {
        queue := queue + [SendTask(thread, data)];
      }
    }

    method SendInLoop(data: seq<byte>, reply: Reply)
      requires Valid() && Fits(reply, |data|)
      modifies this`queue, this`wire, channel`events, channel`index
      modifies channel.poller`channels, channel.poller`kernel, channel.poller`faults, channel.poller`exited
      modifies outputBuffer, outputBuffer.buffer
      ensures Valid()
      ensures var e := Output.SendInLoop(old(Core()), data, reply);
        Core() == e.core && wire == old(wire) + AsData(e.bytes)
      ensures Registers() == InterestCall(old(Registers()), channel, old(Out in channel.events), Out in channel.events)
      ensures var direct := old(Out !in channel.events && outputBuffer.Contents() == []);
        var rest := if !direct || reply == Blocked then data else if reply.Wrote? then data[reply.n..] else [];
        && wire == old(wire) + (if direct && reply.Wrote? then AsData(data[..reply.n]) else [])
        && outputBuffer.Contents() == old(outputBuffer.Contents()) + rest
        && (Out in channel.events <==> old(Out in channel.events) || rest != [])
        && queue == old(queue)
                    + (if direct && reply == Wrote(|data|) && onWriteComplete then [WriteCompleteTask] else [])
                    + HighWaterTasks(|old(outputBuffer.Contents())|, |rest|)
    {
      hide Apply;
      var nwrote, remaining, error := 0, |data|, false;
      if !channel.IsWriting() && outputBuffer.ReadableBytes() == 0 {
        match reply {
          case Wrote(n) =>
            nwrote := n;
            wire := wire + AsData(data[..n]);
            remaining := |data| - n;
            if remaining == 0 && onWriteComplete {
              queue := queue + [WriteCompleteTask];
            }
          case Blocked =>
          case Fatal =>
            error := true;
        }
      }
      if !error && remaining > 0 {
        Enqueue(data[nwrote..]);
      }
    }

    /** The notification that `rest` more bytes on top of `before` waiting ones give rise to. */
    ghost function HighWaterTasks(before: nat, rest: nat): seq<Task>
      reads this
    {
      if onHighWater && before < highWaterMark <= before + rest then [HighWaterTask(before + rest)] else []
    }

    /** The second half of `sendInLoop`: what the kernel did not take waits its turn. */
    method Enqueue(rest: seq<byte>)
      requires Valid() && rest != []
      modifies this`queue, channel`events, channel`index
      modifies channel.poller`channels, channel.poller`kernel, channel.poller`faults, channel.poller`exited
      modifies outputBuffer, outputBuffer.buffer
      ensures Valid() && Core() == Output.Enqueue(old(Core()), rest)
      ensures outputBuffer.Contents() == old(outputBuffer.Contents()) + rest && Out in channel.events
      ensures queue == old(queue) + HighWaterTasks(|old(outputBuffer.Contents())|, |rest|)
      ensures Registers() == InterestCall(old(Registers()), channel, old(Out in channel.events), true)
    {
      hide Apply;
      ghost var before := Registers();
      var oldLen := outputBuffer.ReadableBytes();
      outputBuffer.Append(rest);
      NotifyHighWater(oldLen, |rest|);
      assert Registers() == before;
      WantWriting();
    }

    method NotifyHighWater(oldLen: nat, remaining: nat)
      modifies this`queue
      ensures queue == old(queue) + HighWaterTasks(oldLen, remaining)
    {
      if oldLen < highWaterMark && oldLen + remaining >= highWaterMark && onHighWater {
        queue := queue + [HighWaterTask(oldLen + remaining)];
      }
    }

    method WantWriting()
      requires Valid()
      modifies channel`events, channel`index
      modifies channel.poller`channels, channel.poller`kernel, channel.poller`faults, channel.poller`exited
      ensures Valid() && Core() == old(Core()).(writing := true)
      ensures Registers() == InterestCall(old(Registers()), channel, old(Out in channel.events), true)
    {
      hide Apply;
      if !channel.IsWriting() {
        channel.EnableWriting();
      }
    }

    method Shutdown(inLoopThread: bool)
      requires Valid()
      modifies this`state, this`queue, this`wire
      ensures Valid()
      ensures inLoopThread ==>
                var o := Run(old(View()), InLoopShutdown);
                View() == o.sys && wire == old(wire) + (if o.fin then [Fin] else [])
      ensures !inLoopThread ==> wire == old(wire)
      ensures !inLoopThread ==>
                var s := Next(old(View()), ForeignShutdown);
                View() == if s.owed > 0 then Next(s, PushShutdown) else s
      ensures state == Disconnecting
      ensures wire == old(wire) + (if old(state) == Connected && inLoopThread && Out !in channel.events then [Fin] else [])
      ensures queue == old(queue) + (if old(state) == Connected && !inLoopThread then [ShutdownTask] else [])
    {
      var was := state;
      state := Disconnecting;
      if was == Connected {
        if inLoopThread {
          ShutdownInLoop();
        } else {
          queue := queue + [ShutdownTask];
        }
      }
    }

    method ShutdownInLoop()
      requires Valid()
      modifies this`wire
      ensures Valid() && wire == old(wire) + (if Output.ShutdownInLoop(Core()).fin then [Fin] else [])
      ensures wire == old(wire) + (if Out in channel.events then [] else [Fin])
    {
      if !channel.IsWriting() {
        wire := wire + [Fin];
      }
    }

    method HandleWrite(reply: Reply)
      requires Valid() && established && Fits(reply, |outputBuffer.Contents()|)
      modifies this`queue, this`wire, channel`events, channel`index
      modifies channel.poller`channels, channel.poller`kernel, channel.poller`faults, channel.poller`exited
      modifies outputBuffer`readerIndex, outputBuffer`writerIndex
      ensures Valid()
      ensures var e := Output.HandleWrite(old(Core()), reply);
        Core() == e.core && wire == old(wire) + AsData(e.bytes) + (if e.fin then [Fin] else [])
      ensures Registers() == InterestCall(old(Registers()), channel, old(Out in channel.events), Out in channel.events)
      ensures var before := old(outputBuffer.Contents());
        var n := if old(Out in channel.events) && reply.Wrote? then reply.n else 0;
        var done := n > 0 && 2 * n >= |before|;
        && outputBuffer.Contents() == (if done then [] else before[2 * n..])
        && (Out in channel.events <==> old(Out in channel.events) && !done)
        && wire == old(wire) + AsData(before[..n]) + (if done && state == Disconnecting then [Fin] else [])
        && queue == old(queue) + (if done && onWriteComplete then [WriteCompleteTask] else [])
    {
      hide Apply, Consume;
      ghost var before, core := Registers(), Core();
      if channel.IsWriting() {
        var n := WriteBacklog(if reply.Wrote? then Moved(reply.n) else Failed);
        if n.Moved? && n.n > 0 {
          wire := wire + AsData(core.backlog[..n.n]);
          assert Core() == core.(backlog := Consume(core.backlog, n.n, true));
          assert Registers() == before;
          FinishWrite();
        }
      }
    }

    /** The first lines of `handleWrite`: `writeFd` has already consumed what the kernel took
        when `retrieve` consumes as much again. */
    method WriteBacklog(reply: IoResult) returns (n: IoResult)
      requires outputBuffer.Valid() && (reply.Moved? ==> reply.n <= outputBuffer.ReadableBytes())
      modifies outputBuffer`readerIndex, outputBuffer`writerIndex
      ensures outputBuffer.Valid() && n == reply
      ensures outputBuffer.Contents() ==
              if reply.Moved? && reply.n > 0 then Consume(old(outputBuffer.Contents()), reply.n, true) else old(outputBuffer.Contents())
      ensures var before := old(outputBuffer.Contents());
        var n := if reply.Moved? then reply.n else 0;
        outputBuffer.Contents() == if 2 * n < |before| then before[2 * n..] else []
    {
      hide Consume;
      ghost var before := outputBuffer.Contents();
      n := outputBuffer.WriteFd(reply);
      if n.Moved? && n.n > 0 {
        outputBuffer.Retrieve(n.n);
        TakenTwice(before, n.n);
      }
    }

    /** The rest of `handleWrite`: once nothing waits, writing interest goes off and a
        shutdown that waited for the backlog half-closes. */
    method FinishWrite()
      requires Valid() && channel.IsWriting()
      modifies this`queue, this`wire, channel`events, channel`index
      modifies channel.poller`channels, channel.poller`kernel, channel.poller`faults, channel.poller`exited
      ensures Valid()
      ensures var c := old(Core());
        && Core() == (if c.backlog != [] then c else PostIf(c.(writing := false), onWriteComplete, WriteCompleteTask))
        && wire == old(wire) + (if c.backlog == [] && state == Disconnecting then [Fin] else [])
        && Registers() == (if c.backlog != [] then old(Registers()) else Apply(old(Registers()), channel, DisableWriting))
    {
      hide Apply;
      if outputBuffer.ReadableBytes() == 0 {
        channel.DisableWriting();
        ghost var after := Registers();
        if onWriteComplete {
          queue := queue + [WriteCompleteTask];
        }
        if state == Disconnecting {
          ShutdownInLoop();
        }
        assert Registers() == after;
      }
    }

    method HandleRead(arrived: seq<byte>, failed: bool) returns (outcome: ReadOutcome)
      requires Valid() && established && |arrived| <= inputBuffer.ReadCapacity()
      modifies this`state, this`closed, this`downs, this`removals, channel`events, channel`index
      modifies channel.poller`channels, channel.poller`kernel, channel.poller`faults, channel.poller`exited
      modifies inputBuffer, inputBuffer.buffer, inputBuffer.extrabuf
      ensures Valid()
      ensures outcome == if failed then ReadError else if arrived == [] then PeerClosed else Message
      ensures inputBuffer.Contents() == old(inputBuffer.Contents()) + (if failed then [] else arrived)
      ensures outcome == PeerClosed ==>
                && View() == Next(old(View()), Step.HandleClose)
                && downs == old(downs) + 1 && removals == old(removals) + 1
                && Registers() == Apply(old(Registers()), channel, DisableAll)
      ensures outcome != PeerClosed ==>
                View() == old(View()) && downs == old(downs) && removals == old(removals) && Registers() == old(Registers())
    {
      var n := inputBuffer.ReadFd(arrived, failed);
      if n.Moved? && n.n > 0 {
        outcome := Message;
      } else if n.Moved? {
        outcome := PeerClosed;
        HandleClose();
      } else {
        outcome := ReadError;
      }
    }

    method HandleClose()
      requires Valid() && established
      modifies this`state, this`closed, this`downs, this`removals, channel`events, channel`index
      modifies channel.poller`channels, channel.poller`kernel, channel.poller`faults, channel.poller`exited
      ensures Valid() && View() == Next(old(View()), Step.HandleClose)
      ensures state == Disconnected && channel.events == {} && downs == old(downs) + 1 && removals == old(removals) + 1
      ensures Registers() == Apply(old(Registers()), channel, DisableAll)
    {
      hide Apply;
      ghost var before := Registers();
      state := Disconnected;
      assert Registers() == before;
      TurnOff();
      removals := removals + 1;
    }

    /** All interest off, and the connection callback told so. */
    method TurnOff()
      requires Valid()
      modifies this`closed, this`downs, channel`events, channel`index
      modifies channel.poller`channels, channel.poller`kernel, channel.poller`faults, channel.poller`exited
      ensures Valid() && closed && downs == old(downs) + 1 && channel.events == {}
      ensures Core() == old(Core()).(writing := false)
      ensures Registers() == Apply(old(Registers()), channel, DisableAll)
    {
      hide Apply;
      channel.DisableAll();
      closed := true;
      downs := downs + 1;
    }

    method ConnectEstablished()
      requires Valid() && !established
      modifies this`state, this`established, this`ups, channel`events, channel`index, channel`tied
      modifies channel.poller`channels, channel.poller`kernel, channel.poller`faults, channel.poller`exited
      ensures Valid() && View() == Next(old(View()), Establish)
      ensures state == Connected && channel.events == old(channel.events) + {In, Pri} && channel.tied && ups == old(ups) + 1
      ensures Registers() == Apply(old(Registers()), channel, EnableReading)
    {
      hide Apply;
      ghost var before := Registers();
      state := Connected;
      established := true;
      channel.Tie();
      ups := ups + 1;
      assert Registers() == before;
      channel.EnableReading();
    }

    method ConnectDestroyed()
      requires Valid()
      modifies this`state, this`closed, this`downs, channel`events, channel`index
      modifies channel.poller`channels, channel.poller`kernel, channel.poller`faults, channel.poller`exited
      ensures Valid() && state == Disconnected
      ensures old(established) ==> View() == Next(old(View()), Destroy)
      ensures channel.events == (if old(state) == Connected then {} else old(channel.events)) && channel.index == KNew
      ensures downs == old(downs) + (if old(state) == Connected then 1 else 0)
      ensures var before := old(Registers());
        Registers() == Apply(if old(state) == Connected then Apply(before, channel, DisableAll) else before, channel, RemoveChannel)
    {
      hide Apply;
      ghost var before := Registers();
      var was := state;
      state := Disconnected;
      assert Registers() == before;
      if was == Connected {
        TurnOff();
      }
      channel.Remove();
    }
  }

  lemma TakenTwice(backlog: seq<byte>, n: nat)
    requires n <= |backlog|
    ensures Consume(backlog, n, true) == if 2 * n < |backlog| then backlog[2 * n..] else []
    ensures Consume(backlog, n, true) == if n < |backlog[n..]| then backlog[n..][n..] else []
  {
  }

  /** The poller call that a change of writing interest makes. */
  function InterestCall<C>(r: Registry<C>, c: C, was: bool, now: bool): Registry<C>
    requires c in r.slots
  {
    if was == now then r else Apply(r, c, if now then EnableWriting else DisableWriting)
  }

  /** After `connectDestroyed` the channel is in neither the poller's map nor the interest
      list, whatever its state was and whether or not it was still watched. */
  lemma DestroyedIsGone<C>(r: Registry<C>, c: C, connected: bool)
    requires Coherent(r) && c in r.slots && FdFree(r, c)
    ensures var r' := Apply(if connected then Apply(r, c, DisableAll) else r, c, RemoveChannel);
      && Coherent(r')
      && r'.slots[c].index == KNew
      && r'.slots[c].fd !in r'.channels && r'.slots[c].fd !in r'.kernel
  {
    var r1 := if connected then Apply(r, c, DisableAll) else r;
    if connected {
      ApplyKeepsCoherence(r, c, DisableAll);
      IndexAfter(r, c, DisableAll);
    }
    ApplyKeepsCoherence(r1, c, RemoveChannel);
    OwnDescriptor(r1, c);
    assert Agrees(Apply(r1, c, RemoveChannel), c);
  }
}
