/** Every step keeps the pollers coherent and the connections registered exactly while they
    are established and not destroyed. */
module LifecyclePollers {
  import opened Poller
  import Output
  import opened Lifecycle
  import opened LifecycleShape

  /** A live channel under an open connection's descriptor is the connection's own. */
  lemma HolderIsOwner(s: System, c: ConnId)
    requires Shape(s) && Registered(s) && c < |s.conns| && Known(s, c) && s.conns[c].open
    requires SlotOf(s, c).fd in Home(s, c).reg.channels
    ensures Home(s, c).reg.channels[SlotOf(s, c).fd] == c
  {
    var l := s.conns[c].home;
    var d := s.loops[l].reg.channels[SlotOf(s, c).fd];
    assert ShapeOk(s, c) && LoopShape(s, l);
    assert Agrees(s.loops[l].reg, d);
    assert ShapeOk(s, d) && RegOk(s, d);
  }

  /** An open connection's descriptor is not held by another live channel of its loop. */
  lemma OpenFdIsFree(s: System, c: ConnId)
    requires Shape(s) && Registered(s) && c < |s.conns| && Known(s, c) && s.conns[c].open
    ensures FdFree(Home(s, c).reg, c)
  {
    if SlotOf(s, c).fd in Home(s, c).reg.channels {
      HolderIsOwner(s, c);
    }
    assert Agrees(Home(s, c).reg, c);
  }

  ghost predicate SameRegistration(s: System, t: System) {
    && |t.conns| == |s.conns| && |t.loops| == |s.loops|
    && (forall l :: 0 <= l < |s.loops| ==> t.loops[l].reg == s.loops[l].reg)
    && (forall c :: 0 <= c < |s.conns| ==> SameOwner(s.conns[c], t.conns[c]))
  }

  predicate SameOwner(a: Conn, b: Conn) {
    a.home == b.home && a.fd == b.fd && a.open == b.open && a.established == b.established && a.destroyed == b.destroyed
  }

  lemma SameRegistrationOk(s: System, t: System)
    requires Registered(s) && SameRegistration(s, t)
    ensures Registered(t)
  {
    forall c | 0 <= c < |t.conns| && Known(t, c)
      ensures RegOk(t, c)
    {
      assert SameOwner(s.conns[c], t.conns[c]);
      assert RegOk(s, c);
    }
    forall c, d | 0 <= c < d < |t.conns| && t.conns[c].open && t.conns[d].open
      ensures t.conns[c].fd != t.conns[d].fd
    {
      assert SameOwner(s.conns[c], t.conns[c]) && SameOwner(s.conns[d], t.conns[d]);
    }
  }

  /** One connection's record changes and one call is made on its channel. */
  function Changed(s: System, c: ConnId, conn: Conn, op: ChannelOp): System
    requires Known(s, c) && conn.home == s.conns[c].home
  {
    OnChannel(SetConn(s, c, conn), c, op)
  }

  lemma ChangedRegistered(s: System, c: ConnId, conn: Conn, op: ChannelOp)
    requires Shape(s) && Registered(s) && c < |s.conns| && Known(s, c)
    requires conn.home == s.conns[c].home && conn.fd == s.conns[c].fd && conn.open && s.conns[c].open
    requires op != RemoveChannel <==> conn.established && conn.destroyed == 0
    ensures Registered(Changed(s, c, conn, op))
  {
    var t := Changed(s, c, conn, op);
    var reg := Home(s, c).reg;
    OpenFdIsFree(s, c);
    ApplyKeepsCoherence(reg, c, op);
    ApplyFrame(reg, c, op);
    IndexAfter(reg, c, op);
    forall d | 0 <= d < |t.conns| && Known(t, d)
      ensures RegOk(t, d)
    {
      if d != c {
        assert RegOk(s, d);
      }
    }
  }

  lemma EstablishRegistered(s: System, c: ConnId)
    requires Shape(s) && Registered(s) && c < |s.conns| && Known(s, c)
    requires !s.conns[c].established && s.conns[c].destroyed == 0
    ensures Registered(ConnectEstablished(s, c))
  {
    hide Apply;
    assert RegOk(s, c);
    var conn := s.conns[c].(state := Output.Connected, established := true, ups := s.conns[c].ups + 1);
    ChangedRegistered(s, c, conn, EnableReading);
  }

  lemma CallRegistered(s: System, c: ConnId, op: ChannelOp)
    requires Shape(s) && Registered(s) && c < |s.conns| && Known(s, c)
    requires s.conns[c].established && s.conns[c].destroyed == 0 && op != RemoveChannel
    ensures Registered(OnChannel(s, c, op))
  {
    assert RegOk(s, c);
    ChangedRegistered(s, c, s.conns[c], op);
    assert SetConn(s, c, s.conns[c]) == s;
  }

  lemma DestroyRegistered(s: System, c: ConnId)
    requires Shape(s) && Registered(s) && c < |s.conns| && Known(s, c)
    requires s.conns[c].established && s.conns[c].destroyed == 0
    ensures Registered(ConnectDestroyed(s, c))
  {
    hide Apply;
    assert RegOk(s, c);
    var conn := s.conns[c];
    var connected := conn.state == Output.Connected;
    var after := conn.(state := Output.Disconnected, destroyed := conn.destroyed + 1,
                       downs := if connected then conn.downs + 1 else conn.downs);
    if connected {
      CallRegistered(s, c, DisableAll);
      ChannelShape(s, c, DisableAll);
      var s1 := OnChannel(s, c, DisableAll);
      assert ShapeOk(s1, c);
      ChangedRegistered(s1, c, after, RemoveChannel);
      assert Changed(s1, c, after, RemoveChannel) == ConnectDestroyed(s, c);
    } else {
      ChangedRegistered(s, c, after, RemoveChannel);
    }
  }

  lemma SameAfterPost(s: System, l: LoopId, task: Task)
    ensures SameRegistration(s, Post(s, l, task))
  {
  }

  lemma RemoveRegistered(s: System, c: ConnId)
    requires Registered(s) && c < |s.conns| && Known(s, c)
    ensures Registered(RemoveConnectionInLoop(s, c))
  {
    SameRegistrationOk(s, RemoveConnectionInLoop(s, c));
  }

  lemma CloseRegistered(s: System, l: LoopId)
    requires Shape(s) && Tasks(s) && Registered(s) && Enabled(s, HandleClose(l))
    ensures Registered(Next(s, HandleClose(l)))
  {
    var c := s.loops[l].active[0];
    ActiveFacts(s, l, c);
    CloseOneRegistered(s, c);
  }

  lemma CloseOneRegistered(s: System, c: ConnId)
    requires Shape(s) && Registered(s) && c < |s.conns| && Known(s, c) && s.conns[c].established && s.conns[c].destroyed == 0
    ensures Registered(CloseConn(s, c))
  {
    hide Apply;
    assert RegOk(s, c);
    var conn := s.conns[c].(state := Output.Disconnected, closes := s.conns[c].closes + 1, downs := s.conns[c].downs + 1);
    var s1 := Changed(s, c, conn, DisableAll);
    ChangedRegistered(s, c, conn, DisableAll);
    SetConnShape(s, c, conn);
    ChannelShape(SetConn(s, c, conn), c, DisableAll);
    assert ShapeOk(s1, c);
    if conn.home == 0 {
      RemoveRegistered(s1, c);
    } else {
      SameAfterPost(s1, 0, Remove(c));
      SameRegistrationOk(s1, Post(s1, 0, Remove(c)));
    }
  }

  lemma AdoptRegistered(s: System, home: LoopId, fd: int, s1: System)
    requires Shape(s) && Registered(s) && home < |s.loops| && FreshFd(s, fd)
    requires s1.conns == s.conns + [Conn(home, fd, s.serial, true, Output.Connecting, false, 0, 0, 0, 0, 0, 0)]
    requires s1.loops == s.loops[home := s.loops[home].(reg := Adopt(s.loops[home].reg, |s.conns|, fd))]
    ensures Registered(s1)
  {
    var c := |s.conns|;
    assert LoopShape(s, home);
    AdoptCoherent(s.loops[home].reg, c, fd);
    forall d | 0 <= d < |s1.conns| && Known(s1, d)
      ensures RegOk(s1, d)
    {
      if d < c {
        assert ShapeOk(s, d) && RegOk(s, d);
      }
    }
  }

  lemma AcceptRegistered(s: System, home: LoopId, fd: int)
    requires Shape(s) && Registered(s) && Enabled(s, Accept(home, fd))
    ensures Registered(Next(s, Accept(home, fd)))
  {
    hide Apply;
    var c := |s.conns|;
    var name := Name(s.serial);
    var conn := Conn(home, fd, s.serial, true, Output.Connecting, false, 0, 0, 0, 0, 0, 0);
    var s1 := System(s.loops[home := s.loops[home].(reg := Adopt(s.loops[home].reg, c, fd))],
                     s.conns + [conn],
                     if name in s.connections then s.connections else s.connections[name := c],
                     s.serial + 1,
                     false);
    AdoptRegistered(s, home, fd, s1);
    AdoptShape(s, home, fd, s1);
    if home == 0 {
      EstablishRegistered(s1, c);
    } else {
      SameAfterPost(s1, home, Establish(c));
      SameRegistrationOk(s1, Post(s1, home, Establish(c)));
    }
  }

  lemma TaskRegistered(s: System, l: LoopId, waits: bool)
    requires Shape(s) && Tasks(s) && Registered(s) && Enabled(s, RunTask(l, waits)) && Clean(s, RunTask(l, waits))
    ensures Registered(Next(s, RunTask(l, waits)))
  {
    hide Apply;
    var task := s.loops[l].queue[0];
    var c := task.conn;
    var s1 := Popped(s, l);
    TaskShape(s, l, waits);
    QueuedFacts(s, l, task);
    SameRegistrationOk(s, s1);
    match task {
      case Establish(_) => EstablishRegistered(s1, c);
      case Remove(_) => RemoveRegistered(s1, c);
      case Destroy(_) => DestroyRegistered(s1, c);
      case LateSend(_) =>
        if waits && Out !in SlotOf(s1, c).events {
          CallRegistered(s1, c, EnableWriting);
        }
    }
  }

  /** A connection that nothing refers to has been destroyed. */
  lemma UnreferencedIsDestroyed(s: System, c: ConnId)
    requires Shape(s) && Tasks(s) && c < |s.conns| && !Referenced(s, c)
    ensures s.conns[c].destroyed == 1
  {
    assert ShapeOk(s, c) && TasksOk(s, c);
    var l := s.conns[c].home;
    assert QueueOk(s, c, l);
    assert !HoldsReference(s.loops[l].queue, c);
    assert Queued(s, l, Destroy(c)) == 0;
  }

  lemma StepRegistered(s: System, step: Step)
    requires Inv(s) && Enabled(s, step) && Clean(s, step)
    ensures Registered(Next(s, step))
  {
    hide Apply, NewConnection, CloseConn, RunOne;
    match step {
      case Accept(home, fd) => AcceptRegistered(s, home, fd);
      case HandleClose(l) => CloseRegistered(s, l);
      case Drained(l) => DrainRegistered(s, l);
      case RunTask(l, waits) => TaskRegistered(s, l, waits);
      case InLoopSend(l, c) => InLoopSendRegistered(s, l, c);
      case Release(c) => ReleaseRegistered(s, c);
      case _ => SameRegistrationOk(s, Next(s, step));
    }
  }

  lemma DrainRegistered(s: System, l: LoopId)
    requires Inv(s) && Enabled(s, Drained(l))
    ensures Registered(Next(s, Drained(l)))
  {
    hide Apply;
    var c := s.loops[l].active[0];
    ActiveFacts(s, l, c);
    CallRegistered(s, c, DisableWriting);
  }

  lemma InLoopSendRegistered(s: System, l: LoopId, c: ConnId)
    requires Inv(s) && Enabled(s, InLoopSend(l, c))
    ensures Registered(Next(s, InLoopSend(l, c)))
  {
    hide Apply;
    assert TasksOk(s, c) && CallbacksOk(s.conns[c]);
    CallRegistered(s, c, EnableWriting);
  }

  lemma ReleaseRegistered(s: System, c: ConnId)
    requires Shape(s) && Tasks(s) && Registered(s) && Enabled(s, Release(c))
    ensures Registered(Next(s, Release(c)))
  {
    var t := Next(s, Release(c));
    UnreferencedIsDestroyed(s, c);
    forall d | 0 <= d < |t.conns| && Known(t, d)
      ensures RegOk(t, d)
    {
      assert RegOk(s, d);
    }
  }

  // ----- callbacks --------------------------------------------------------------------------

  lemma StepCallbacks(s: System, step: Step)
    requires Inv(s) && Enabled(s, step)
    ensures Callbacks(Next(s, step))
  {
    hide Apply, RunOne;
    match step {
      case HandleClose(l) => CloseCallbacks(s, l);
      case RunTask(l, waits) => TaskCallbacks(s, l, waits);
      case _ =>
    }
  }

  lemma CloseCallbacks(s: System, l: LoopId)
    requires Inv(s) && Enabled(s, HandleClose(l))
    ensures Callbacks(Next(s, HandleClose(l)))
  {
    hide Apply;
    var c := s.loops[l].active[0];
    ActiveFacts(s, l, c);
    assert CallbacksOk(s.conns[c]);
  }

  lemma TaskCallbacks(s: System, l: LoopId, waits: bool)
    requires Inv(s) && Enabled(s, RunTask(l, waits))
    ensures Callbacks(Next(s, RunTask(l, waits)))
  {
    hide Apply;
    var task := s.loops[l].queue[0];
    QueuedFacts(s, l, task);
    assert CallbacksOk(s.conns[task.conn]);
  }
}
