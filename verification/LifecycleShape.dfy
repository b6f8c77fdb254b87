/** Every step keeps connections, loops and functors well-formed. */
module LifecycleShape {
  import opened Poller
  import Output
  import opened Lifecycle

  // ----- shape ----------------------------------------------------------------------------

  lemma ChannelShape(s: System, c: ConnId, op: ChannelOp)
    requires Shape(s) && c < |s.conns| && Known(s, c)
    ensures Shape(OnChannel(s, c, op))
  {
    var t := OnChannel(s, c, op);
    assert ShapeOk(s, c);
    ApplyFrame(Home(s, c).reg, c, op);
    forall d | 0 <= d < |t.conns|
      ensures ShapeOk(t, d)
    {
      assert ShapeOk(s, d);
    }
    forall l | 0 <= l < |t.loops|
      ensures LoopShape(t, l)
    {
      assert LoopShape(s, l);
    }
  }

  /** A record changes in nothing that the shape depends on. */
  lemma SetConnShape(s: System, c: ConnId, conn: Conn)
    requires Shape(s) && c < |s.conns|
    requires conn.home == s.conns[c].home && conn.fd == s.conns[c].fd && conn.serial == s.conns[c].serial
    ensures Shape(SetConn(s, c, conn))
  {
    var t := SetConn(s, c, conn);
    forall d | 0 <= d < |t.conns|
      ensures ShapeOk(t, d)
    {
      assert ShapeOk(s, d);
    }
    forall l | 0 <= l < |t.loops|
      ensures LoopShape(t, l)
    {
      assert LoopShape(s, l);
    }
  }

  /** Only loop `l` changes, and not its poller. */
  lemma SetLoopShape(s: System, l: LoopId, loop: Loop)
    requires Shape(s) && l < |s.loops| && loop.reg == s.loops[l].reg
    requires forall task :: task in loop.queue ==> task.conn < |s.conns|
    requires forall c :: c in loop.active ==> c < |s.conns| && s.conns[c].home == l
    requires loop.active != [] ==> loop.phase == Dispatching
    requires loop.batch <= |loop.queue|
    ensures Shape(SetLoop(s, l, loop))
  {
    var t := SetLoop(s, l, loop);
    forall d | 0 <= d < |t.conns|
      ensures ShapeOk(t, d)
    {
      assert ShapeOk(s, d);
    }
    forall k | 0 <= k < |t.loops|
      ensures LoopShape(t, k)
    {
      assert LoopShape(s, k);
    }
  }

  lemma PostShape(s: System, l: LoopId, task: Task)
    requires Shape(s) && l < |s.loops| && task.conn < |s.conns|
    ensures Shape(Post(s, l, task))
  {
    assert LoopShape(s, l);
    SetLoopShape(s, l, s.loops[l].(queue := s.loops[l].queue + [task]));
  }

  lemma SetMapShape(s: System, connections: map<nat, ConnId>)
    requires Shape(s)
    ensures Shape(s.(connections := connections))
  {
    var t := s.(connections := connections);
    forall d | 0 <= d < |t.conns|
      ensures ShapeOk(t, d)
    {
      assert ShapeOk(s, d);
    }
    forall k | 0 <= k < |t.loops|
      ensures LoopShape(t, k)
    {
      assert LoopShape(s, k);
    }
  }

  lemma EstablishShape(s: System, c: ConnId)
    requires Shape(s) && c < |s.conns| && Known(s, c)
    ensures Shape(ConnectEstablished(s, c))
  {
    var conn := s.conns[c].(state := Output.Connected, established := true, ups := s.conns[c].ups + 1);
    SetConnShape(s, c, conn);
    ChannelShape(SetConn(s, c, conn), c, EnableReading);
  }

  lemma RemoveShape(s: System, c: ConnId)
    requires Shape(s) && c < |s.conns| && Known(s, c)
    ensures Shape(RemoveConnectionInLoop(s, c))
  {
    var conn := s.conns[c];
    if Name(conn.serial) in s.connections {
      var erased := s.(connections := s.connections - {Name(conn.serial)});
      SetMapShape(s, erased.connections);
      SetConnShape(erased, c, conn.(issued := conn.issued + 1));
      PostShape(SetConn(erased, c, conn.(issued := conn.issued + 1)), conn.home, Destroy(c));
    }
  }

  lemma CloseShape(s: System, c: ConnId)
    requires Shape(s) && c < |s.conns| && Known(s, c)
    ensures Shape(CloseConn(s, c))
  {
    var conn := s.conns[c].(state := Output.Disconnected, closes := s.conns[c].closes + 1, downs := s.conns[c].downs + 1);
    SetConnShape(s, c, conn);
    ChannelShape(SetConn(s, c, conn), c, DisableAll);
    var s1 := OnChannel(SetConn(s, c, conn), c, DisableAll);
    if conn.home == 0 {
      assert ShapeOk(s1, c);
      RemoveShape(s1, c);
    } else {
      PostShape(s1, 0, Remove(c));
    }
  }

  lemma DestroyShape(s: System, c: ConnId)
    requires Shape(s) && c < |s.conns| && Known(s, c)
    ensures Shape(ConnectDestroyed(s, c))
  {
    var conn := s.conns[c];
    var connected := conn.state == Output.Connected;
    var after := conn.(state := Output.Disconnected, destroyed := conn.destroyed + 1,
                       downs := if connected then conn.downs + 1 else conn.downs);
    SetConnShape(s, c, after);
    var s1 := SetConn(s, c, after);
    if connected {
      ChannelShape(s1, c, DisableAll);
      assert ShapeOk(OnChannel(s1, c, DisableAll), c);
    }
    ChannelShape(if connected then OnChannel(s1, c, DisableAll) else s1, c, RemoveChannel);
  }

  lemma SendShape(s: System, c: ConnId, waits: bool)
    requires Shape(s) && c < |s.conns| && Known(s, c)
    ensures Shape(EnableWritingIf(s, c, waits))
  {
    ChannelShape(s, c, EnableWriting);
  }

  /** The new connection's record, channel and map entry are in place. */
  lemma AdoptShape(s: System, home: LoopId, fd: int, s1: System)
    requires Shape(s) && home < |s.loops|
    requires |s1.conns| == |s.conns| + 1 && s1.conns[..|s.conns|] == s.conns && s1.serial == s.serial + 1
    requires s1.conns[|s.conns|] == Conn(home, fd, s.serial, true, Output.Connecting, false, 0, 0, 0, 0, 0, 0)
    requires s1.loops == s.loops[home := s.loops[home].(reg := Adopt(s.loops[home].reg, |s.conns|, fd))]
    ensures Shape(s1)
  {
    var c := |s.conns|;
    forall d | 0 <= d < |s1.conns|
      ensures ShapeOk(s1, d)
    {
      if d < c {
        assert s1.conns[d] == s1.conns[..c][d];
        assert ShapeOk(s, d);
        assert LoopShape(s, s.conns[d].home);
      }
    }
    forall l | 0 <= l < |s1.loops|
      ensures LoopShape(s1, l)
    {
      assert LoopShape(s, l);
      assert forall d :: 0 <= d < c ==> s1.conns[d] == s1.conns[..c][d];
    }
  }

  lemma AcceptShape(s: System, home: LoopId, fd: int)
    requires Shape(s) && home < |s.loops|
    ensures Shape(NewConnection(s, home, fd))
  {
    var c := |s.conns|;
    var name := Name(s.serial);
    var conn := Conn(home, fd, s.serial, true, Output.Connecting, false, 0, 0, 0, 0, 0, 0);
    var s1 := System(s.loops[home := s.loops[home].(reg := Adopt(s.loops[home].reg, c, fd))],
                     s.conns + [conn],
                     if name in s.connections then s.connections else s.connections[name := c],
                     s.serial + 1,
                     false);
    AdoptShape(s, home, fd, s1);
    if home == 0 {
      EstablishShape(s1, c);
    } else {
      PostShape(s1, home, Establish(c));
    }
  }

  lemma StepShape(s: System, step: Step)
    requires Shape(s) && Enabled(s, step)
    ensures Shape(Next(s, step))
  {
    match step {
      case Accept(home, fd) => AcceptShape(s, home, fd);
      case AcceptFails => SameShape(s, Next(s, step));
      case PollReturn(l, active) =>
        assert LoopShape(s, l);
        SetLoopShape(s, l, s.loops[l].(phase := Dispatching, active := active));
        SameShape(SetLoop(s, l, s.loops[l].(phase := Dispatching, active := active)), Next(s, step));
      case HandleClose(l) => CloseShape(s, s.loops[l].active[0]);
      case Drained(l) => ChannelShape(s, s.loops[l].active[0], DisableWriting);
      case Handled(l) =>
        assert LoopShape(s, l);
        assert forall c :: c in s.loops[l].active[1..] ==> c in s.loops[l].active;
        SetLoopShape(s, l, s.loops[l].(active := s.loops[l].active[1..]));
      case StartBatch(l) =>
        assert LoopShape(s, l);
        SetLoopShape(s, l, s.loops[l].(phase := Functors, batch := |s.loops[l].queue|));
      case RunTask(l, waits) => TaskShape(s, l, waits);
      case EndBatch(l) =>
        assert LoopShape(s, l);
        SetLoopShape(s, l, s.loops[l].(phase := Polling));
      case InLoopSend(_, c) => SendShape(s, c, true);
      case PushSend(c) =>
        assert ShapeOk(s, c);
        PostShape(s, s.conns[c].home, LateSend(c));
      case Shutdown(c) =>
        SetConnShape(s, c, s.conns[c].(state := Output.Disconnecting,
          decisions := if s.conns[c].state == Output.Connected then s.conns[c].decisions + 1 else s.conns[c].decisions));
      case Release(c) => SetConnShape(s, c, s.conns[c].(open := false));
    }
  }

  /** Neither the map nor the acceptor matters, and names may be used up. */
  lemma SameShape(s: System, t: System)
    requires Shape(s) && t.loops == s.loops && t.conns == s.conns && t.serial >= s.serial
    ensures Shape(t)
  {
    forall d | 0 <= d < |t.conns|
      ensures ShapeOk(t, d)
    {
      assert ShapeOk(s, d);
    }
    forall k | 0 <= k < |t.loops|
      ensures LoopShape(t, k)
    {
      assert LoopShape(s, k);
    }
  }

  /** The functor at the head of the queue is taken out. */
  function Popped(s: System, l: LoopId): System
    requires l < |s.loops| && s.loops[l].queue != [] && s.loops[l].batch > 0
  {
    SetLoop(s, l, s.loops[l].(queue := s.loops[l].queue[1..], batch := s.loops[l].batch - 1))
  }

  lemma PoppedShape(s: System, l: LoopId)
    requires Shape(s) && l < |s.loops| && s.loops[l].queue != [] && s.loops[l].batch > 0
    ensures Shape(Popped(s, l))
  {
    var loop := s.loops[l];
    assert LoopShape(s, l);
    assert forall task :: task in loop.queue[1..] ==> task in loop.queue;
    SetLoopShape(s, l, loop.(queue := loop.queue[1..], batch := loop.batch - 1));
  }

  lemma TaskShape(s: System, l: LoopId, waits: bool)
    requires Shape(s) && Enabled(s, RunTask(l, waits))
    ensures Shape(Popped(s, l)) && Shape(Next(s, RunTask(l, waits)))
  {
    hide Apply, ConnectEstablished, RemoveConnectionInLoop, ConnectDestroyed, EnableWritingIf;
    PoppedShape(s, l);
    var s1 := Popped(s, l);
    assert LoopShape(s, l);
    match s.loops[l].queue[0] {
      case Establish(c) => EstablishShape(s1, c);
      case Remove(c) => RemoveShape(s1, c);
      case Destroy(c) => DestroyShape(s1, c);
      case LateSend(c) => SendShape(s1, c, waits);
    }
  }

  // ----- what the bookkeeping says about a connection that is being handled ------------------

  /** A connection whose channel is active is established and not destroyed. */
  lemma ActiveFacts(s: System, l: LoopId, c: ConnId)
    requires Shape(s) && Tasks(s) && l < |s.loops| && c in s.loops[l].active
    ensures c < |s.conns| && s.conns[c].home == l && s.conns[c].established && s.conns[c].destroyed == 0
    ensures s.loops[l].phase == Dispatching
  {
    assert LoopShape(s, l) && TasksOk(s, c) && QueueOk(s, c, l);
  }

  /** How far a connection is when one of its functors is found in a queue. */
  lemma QueuedFacts(s: System, l: LoopId, task: Task)
    requires Shape(s) && Tasks(s) && l < |s.loops| && task in s.loops[l].queue
    ensures task.conn < |s.conns|
    ensures var conn := s.conns[task.conn];
      match task
      case Establish(_) => l == conn.home && !conn.established && conn.closes == 0 && conn.destroyed == 0
      case Remove(_) => l == 0 && conn.closes > 0
      case Destroy(_) => l == conn.home && conn.established && conn.closes > 0 && conn.issued == 1 && conn.destroyed == 0
      case LateSend(_) => l == conn.home && conn.established
  {
    assert LoopShape(s, l) && TasksOk(s, task.conn) && QueueOk(s, task.conn, l);
    assert Queued(s, l, task) > 0;
  }
}
