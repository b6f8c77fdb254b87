/** What a connection's channel listens to at each point of its life: an open connection is
    watched for input without interruption, a closed one never again. */
module LifecycleInterest {
  import opened Poller
  import Output
  import opened Lifecycle
  import opened LifecycleShape
  import opened LifecycleTasks
  import opened LifecyclePollers
  import opened LifecycleLaws
  import opened LifecycleTheorems

  predicate ListensOk(conn: Conn, slot: Slot) {
    && (!conn.established ==> slot.events == NONE_EVENT)
    && (conn.established && conn.closes == 0 ==> READ_EVENT <= slot.events && slot.index == KAdded)
    && (conn.closes > 0 ==> slot.events <= WRITE_EVENT)
  }

  predicate ListensAt(s: System, c: ConnId)
    requires c < |s.conns|
  {
    Known(s, c) ==> ListensOk(s.conns[c], SlotOf(s, c))
  }

  predicate Listens(s: System) {
    forall c :: 0 <= c < |s.conns| ==> ListensAt(s, c)
  }

  /** Same slots and same progress. */
  ghost predicate SameSlots(s: System, t: System) {
    && |t.conns| == |s.conns| && |t.loops| == |s.loops|
    && (forall l :: 0 <= l < |s.loops| ==> t.loops[l].reg == s.loops[l].reg)
    && (forall c :: 0 <= c < |s.conns| ==> SameLife(s.conns[c], t.conns[c]))
  }

  predicate SameLife(a: Conn, b: Conn) {
    a.home == b.home && a.established == b.established && a.closes == b.closes
  }

  lemma SameSlotsListen(s: System, t: System)
    requires Listens(s) && SameSlots(s, t)
    ensures Listens(t)
  {
    forall c | 0 <= c < |t.conns|
      ensures ListensAt(t, c)
    {
      assert SameLife(s.conns[c], t.conns[c]) && ListensAt(s, c);
    }
  }

  /** The slot that a call leaves. */
  function SlotAfter(slot: Slot, op: ChannelOp): Slot {
    var events := NewEvents(slot.events, op);
    Slot(slot.fd,
         if op == RemoveChannel then KNew
         else if slot.index == KAdded && events == NONE_EVENT then KDeleted
         else KAdded,
         events)
  }

  lemma ChangedListens(s: System, c: ConnId, conn: Conn, op: ChannelOp)
    requires Shape(s) && Listens(s) && c < |s.conns| && Known(s, c) && conn.home == s.conns[c].home
    requires ListensOk(conn, SlotAfter(SlotOf(s, c), op))
    ensures Listens(Changed(s, c, conn, op))
  {
    var t := Changed(s, c, conn, op);
    var reg := Home(s, c).reg;
    ApplyFrame(reg, c, op);
    IndexAfter(reg, c, op);
    forall d | 0 <= d < |t.conns|
      ensures ListensAt(t, d)
    {
      assert ListensAt(s, d) && ShapeOk(s, d);
    }
  }

  lemma EstablishListens(s: System, c: ConnId)
    requires Shape(s) && Listens(s) && c < |s.conns| && Known(s, c) && !s.conns[c].established && s.conns[c].closes == 0
    ensures Listens(ConnectEstablished(s, c))
  {
    hide Apply;
    assert ListensAt(s, c);
    assert In in SlotAfter(SlotOf(s, c), EnableReading).events;
    ChangedListens(s, c, s.conns[c].(state := Output.Connected, established := true, ups := s.conns[c].ups + 1), EnableReading);
  }

  /** Turning writing interest on or off never turns reading off. */
  lemma WritingListens(s: System, c: ConnId, op: ChannelOp)
    requires Shape(s) && Listens(s) && c < |s.conns| && Known(s, c) && s.conns[c].established
    requires op == EnableWriting || op == DisableWriting
    ensures Listens(OnChannel(s, c, op))
  {
    hide Apply;
    assert ListensAt(s, c);
    if s.conns[c].closes == 0 {
      assert In in SlotOf(s, c).events;
      assert In in SlotAfter(SlotOf(s, c), op).events;
    }
    ChangedListens(s, c, s.conns[c], op);
    assert SetConn(s, c, s.conns[c]) == s;
  }

  lemma CloseListens(s: System, c: ConnId)
    requires Shape(s) && Listens(s) && c < |s.conns| && Known(s, c) && s.conns[c].established
    ensures Listens(CloseConn(s, c))
  {
    hide Apply;
    var s1 := Closing(s, c);
    ChangedListens(s, c, s1.conns[c], DisableAll);
    KnownAfterCall(s, c, s1.conns[c], DisableAll);
    assert SameSlots(s1, CloseConn(s, c));
    SameSlotsListen(s1, CloseConn(s, c));
  }

  lemma DestroyListens(s: System, c: ConnId)
    requires Shape(s) && Listens(s) && c < |s.conns| && Known(s, c)
    requires s.conns[c].closes > 0 && s.conns[c].established && s.conns[c].state != Output.Connected
    ensures Listens(ConnectDestroyed(s, c))
  {
    hide Apply;
    assert ListensAt(s, c);
    var conn := s.conns[c];
    ChangedListens(s, c, conn.(state := Output.Disconnected, destroyed := conn.destroyed + 1), RemoveChannel);
  }

  lemma AcceptListens(s: System, home: LoopId, fd: int)
    requires Shape(s) && Listens(s) && home < |s.loops|
    ensures Listens(NewConnection(s, home, fd))
  {
    hide Apply;
    var c := |s.conns|;
    var name := Name(s.serial);
    var conn := Conn(home, fd, s.serial, true, Output.Connecting, false, 0, 0, 0, 0, 0, 0);
    var s1 := System(s.loops[home := s.loops[home].(reg := Adopt(s.loops[home].reg, c, fd))],
                     s.conns + [conn],
                     if name in s.connections then s.connections else s.connections[name := c],
                     s.serial + 1,
                     false);
    AdoptShape(s, home, fd, s1);
    forall d | 0 <= d < |s1.conns|
      ensures ListensAt(s1, d)
    {
      if d < c {
        assert ListensAt(s, d) && ShapeOk(s, d);
      }
    }
    if home == 0 {
      EstablishListens(s1, c);
    } else {
      assert SameSlots(s1, Post(s1, home, Establish(c)));
      SameSlotsListen(s1, Post(s1, home, Establish(c)));
    }
  }

  lemma RemoveListens(s: System, c: ConnId)
    requires Listens(s) && Known(s, c)
    ensures Listens(RemoveConnectionInLoop(s, c))
  {
    assert SameSlots(s, RemoveConnectionInLoop(s, c));
    SameSlotsListen(s, RemoveConnectionInLoop(s, c));
  }

  lemma PoppedListens(s: System, l: LoopId)
    requires Listens(s) && l < |s.loops| && s.loops[l].queue != [] && s.loops[l].batch > 0
    ensures Listens(Popped(s, l))
  {
    assert SameSlots(s, Popped(s, l));
    SameSlotsListen(s, Popped(s, l));
  }

  lemma TaskListens(s: System, l: LoopId, waits: bool)
    requires Inv(s) && Listens(s) && Enabled(s, RunTask(l, waits))
    ensures Listens(Next(s, RunTask(l, waits)))
  {
    hide Apply;
    var task := s.loops[l].queue[0];
    var s1 := Popped(s, l);
    TaskShape(s, l, waits);
    QueuedFacts(s, l, task);
    PoppedListens(s, l);
    match task {
      case Establish(c) => EstablishListens(s1, c);
      case Remove(c) => RemoveListens(s1, c);
      case Destroy(c) =>
        assert CallbacksOk(s.conns[c]);
        DestroyListens(s1, c);
      case LateSend(c) =>
        if waits && Out !in SlotOf(s1, c).events {
          WritingListens(s1, c, EnableWriting);
        }
    }
  }

  lemma StepListens(s: System, step: Step)
    requires Inv(s) && Listens(s) && Enabled(s, step)
    ensures Listens(Next(s, step))
  {
    hide Apply, NewConnection, CloseConn, RunOne, EnableWritingIf, OnChannel;
    match step {
      case Accept(home, fd) => AcceptListens(s, home, fd);
      case HandleClose(l) =>
        ActiveFacts(s, l, s.loops[l].active[0]);
        CloseListens(s, s.loops[l].active[0]);
      case Drained(l) =>
        ActiveFacts(s, l, s.loops[l].active[0]);
        WritingListens(s, s.loops[l].active[0], DisableWriting);
      case RunTask(l, waits) => TaskListens(s, l, waits);
      case InLoopSend(_, c) => SendListens(s, c);
      case _ => PlainListens(s, step);
    }
  }

  lemma SendListens(s: System, c: ConnId)
    requires Inv(s) && Listens(s) && Known(s, c) && c < |s.conns| && s.conns[c].state == Output.Connected
    ensures Listens(EnableWritingIf(s, c, true))
  {
    hide Apply;
    assert CallbacksOk(s.conns[c]);
    WritingListens(s, c, EnableWriting);
  }

  lemma PlainListens(s: System, step: Step)
    requires Listens(s) && Enabled(s, step) && IsPlain(step)
    ensures Listens(Next(s, step))
  {
    PlainSlots(s, step);
    SameSlotsListen(s, Next(s, step));
  }

  lemma {:induction false} AlwaysListens(s: System, steps: seq<Step>)
    requires Inv(s) && Listens(s) && CanExec(s, steps) && CleanRun(s, steps)
    ensures Listens(Exec(s, steps))
    decreases |steps|
  {
    if steps != [] {
      StepListens(s, steps[0]);
      StepKeepsInvIffClean(s, steps[0]);
      AlwaysListens(Next(s, steps[0]), steps[1..]);
    }
  }

  /** From `connectEstablished` to its first `handleClose` a connection is in the kernel's
      interest list for input all the time; after that, and before establishing, it never
      asks for input. */
  lemma OpenMeansListening(n: nat, steps: seq<Step>, c: ConnId)
    requires IsRun(n, steps) && c < |After(n, steps).conns|
    ensures var s := After(n, steps);
      && Known(s, c)
      && var reg, fd, conn := Home(s, c).reg, s.conns[c].fd, s.conns[c];
      && (conn.established && conn.closes == 0 ==> Watched(reg, c) && READ_EVENT <= reg.kernel[SlotOf(s, c).fd].mask)
      && (!conn.established || conn.closes > 0 ==> SlotOf(s, c).events * READ_EVENT == NONE_EVENT)
      && (Watched(reg, c) ==> conn.established && conn.destroyed == 0 && SlotOf(s, c).fd == fd)
  {
    RunInv(n, steps);
    InitialInv(n);
    AlwaysListens(Initial(n), steps);
    var s := After(n, steps);
    assert ShapeOk(s, c) && RegOk(s, c) && ListensAt(s, c);
    assert Agrees(Home(s, c).reg, c);
  }

  // ----- the exact mask ---------------------------------------------------------------------

  /** What a step does to the mask of connection `c`: establishing asks for input, a send that
      leaves bytes waiting for output, a drain and a close take interest away, and nothing else
      changes it. */
  function MaskAfter(s: System, step: Step, c: ConnId): Mask
    requires Enabled(s, step) && Known(s, c)
  {
    var events := SlotOf(s, c).events;
    match step
    case HandleClose(l) => if s.loops[l].active[0] == c then {} else events
    case Drained(l) => if s.loops[l].active[0] == c then events - {Out} else events
    case RunTask(l, waits) =>
      (match s.loops[l].queue[0]
       case Establish(d) => if d == c then events + {In, Pri} else events
       case LateSend(d) => if d == c && waits then events + {Out} else events
       case _ => events)
    case InLoopSend(_, d) => if d == c then events + {Out} else events
    case _ => events
  }

  lemma CallMask(s: System, d: ConnId, conn: Conn, op: ChannelOp, c: ConnId)
    requires Known(s, d) && Known(s, c) && conn.home == s.conns[d].home
    ensures var t := Changed(s, d, conn, op);
      Known(t, c) && SlotOf(t, c).events == if c == d then NewEvents(SlotOf(s, c).events, op) else SlotOf(s, c).events
  {
    ApplyFrame(Home(s, d).reg, d, op);
  }

  lemma SameSlotsMask(s: System, t: System, c: ConnId)
    requires SameSlots(s, t) && Known(s, c)
    ensures Known(t, c) && SlotOf(t, c) == SlotOf(s, c)
  {
    assert SameLife(s.conns[c], t.conns[c]);
  }

  lemma CloseMask(s: System, d: ConnId, c: ConnId)
    requires Known(s, d) && Known(s, c)
    ensures Known(CloseConn(s, d), c)
    ensures SlotOf(CloseConn(s, d), c).events == if c == d then {} else SlotOf(s, c).events
  {
    hide Apply;
    var s1 := Closing(s, d);
    CallMask(s, d, s1.conns[d], DisableAll, c);
    KnownAfterCall(s, d, s1.conns[d], DisableAll);
    assert SameSlots(s1, CloseConn(s, d));
    SameSlotsMask(s1, CloseConn(s, d), c);
  }

  lemma SendMask(s: System, d: ConnId, waits: bool, c: ConnId)
    requires Known(s, d) && Known(s, c)
    ensures var t := EnableWritingIf(s, d, waits);
      Known(t, c) && SlotOf(t, c).events == if c == d && waits then SlotOf(s, c).events + {Out} else SlotOf(s, c).events
  {
    hide Apply;
    CallMask(s, d, s.conns[d], EnableWriting, c);
    assert SetConn(s, d, s.conns[d]) == s;
  }

  lemma DestroyMask(s: System, d: ConnId, c: ConnId)
    requires Known(s, d) && Known(s, c) && s.conns[d].state != Output.Connected
    ensures Known(ConnectDestroyed(s, d), c) && SlotOf(ConnectDestroyed(s, d), c).events == SlotOf(s, c).events
  {
    hide Apply;
    var conn := s.conns[d].(state := Output.Disconnected, destroyed := s.conns[d].destroyed + 1);
    CallMask(s, d, conn, RemoveChannel, c);
  }

  lemma AcceptMask(s: System, home: LoopId, fd: int, c: ConnId)
    requires home < |s.loops| && Known(s, c)
    ensures var t := NewConnection(s, home, fd);
      && Known(t, c) && SlotOf(t, c).events == SlotOf(s, c).events
      && Known(t, |s.conns|) && SlotOf(t, |s.conns|).events == if home == 0 then {In, Pri} else {}
  {
    hide Apply;
    NewMask(s, home, fd);
    var d := |s.conns|;
    var name := Name(s.serial);
    var conn := Conn(home, fd, s.serial, true, Output.Connecting, false, 0, 0, 0, 0, 0, 0);
    var s1 := System(s.loops[home := s.loops[home].(reg := Adopt(s.loops[home].reg, d, fd))],
                     s.conns + [conn],
                     if name in s.connections then s.connections else s.connections[name := d],
                     s.serial + 1,
                     false);
    assert Known(s1, c) && SlotOf(s1, c) == SlotOf(s, c);
    if home == 0 {
      CallMask(s1, d, conn.(state := Output.Connected, established := true, ups := 1), EnableReading, c);
    }
  }

  lemma NewMask(s: System, home: LoopId, fd: int)
    requires home < |s.loops|
    ensures var t := NewConnection(s, home, fd);
      Known(t, |s.conns|) && SlotOf(t, |s.conns|).events == if home == 0 then {In, Pri} else {}
  {
  }

  lemma EstablishMask(s: System, d: ConnId, c: ConnId)
    requires Known(s, d) && Known(s, c)
    ensures Known(ConnectEstablished(s, d), c)
    ensures SlotOf(ConnectEstablished(s, d), c).events == if c == d then SlotOf(s, c).events + {In, Pri} else SlotOf(s, c).events
  {
    hide Apply;
    CallMask(s, d, s.conns[d].(state := Output.Connected, established := true, ups := s.conns[d].ups + 1), EnableReading, c);
  }

  lemma RemoveMask(s: System, d: ConnId, c: ConnId)
    requires Known(s, d) && Known(s, c)
    ensures Known(RemoveConnectionInLoop(s, d), c) && SlotOf(RemoveConnectionInLoop(s, d), c) == SlotOf(s, c)
  {
    assert SameSlots(s, RemoveConnectionInLoop(s, d));
    SameSlotsMask(s, RemoveConnectionInLoop(s, d), c);
  }

  lemma PoppedMask(s: System, l: LoopId, c: ConnId)
    requires l < |s.loops| && s.loops[l].queue != [] && s.loops[l].batch > 0 && Known(s, c)
    ensures Known(Popped(s, l), c) && SlotOf(Popped(s, l), c) == SlotOf(s, c) && Popped(s, l).conns == s.conns
  {
    assert SameSlots(s, Popped(s, l));
    SameSlotsMask(s, Popped(s, l), c);
  }

  /** A connection that `connectDestroyed` runs on is not Connected. */
  lemma DestroyedNotConnected(s: System, l: LoopId)
    requires Inv(s) && l < |s.loops| && s.loops[l].queue != [] && s.loops[l].queue[0].Destroy?
    ensures var d := s.loops[l].queue[0].conn;
      d < |s.conns| && s.conns[d].state != Output.Connected
  {
    QueuedFacts(s, l, s.loops[l].queue[0]);
    assert CallbacksOk(s.conns[s.loops[l].queue[0].conn]);
  }

  lemma TaskMask(s: System, l: LoopId, waits: bool, c: ConnId)
    requires Inv(s) && Enabled(s, RunTask(l, waits)) && Known(s, c)
    ensures var t := Next(s, RunTask(l, waits));
      Known(t, c) && SlotOf(t, c).events == MaskAfter(s, RunTask(l, waits), c)
  {
    hide Inv, ConnectEstablished, RemoveConnectionInLoop, ConnectDestroyed, EnableWritingIf;
    PoppedMask(s, l, c);
    PoppedMask(s, l, s.loops[l].queue[0].conn);
    match s.loops[l].queue[0] {
      case Establish(d) => EstablishMask(Popped(s, l), d, c);
      case Remove(d) => RemoveMask(Popped(s, l), d, c);
      case Destroy(d) =>
        DestroyedNotConnected(s, l);
        DestroyMask(Popped(s, l), d, c);
      case LateSend(d) => SendMask(Popped(s, l), d, waits, c);
    }
  }

  /** Every step changes the masks exactly as `MaskAfter` says. */
  lemma StepMask(s: System, step: Step, c: ConnId)
    requires Inv(s) && Enabled(s, step) && c < |s.conns|
    ensures Known(s, c)
    ensures var t := Next(s, step);
      Known(t, c) && SlotOf(t, c).events == MaskAfter(s, step, c)
  {
    hide Apply, NewConnection, CloseConn, RunOne, EnableWritingIf, OnChannel;
    assert ShapeOk(s, c);
    match step {
      case Accept(home, fd) => AcceptMask(s, home, fd, c);
      case HandleClose(l) => CloseMask(s, s.loops[l].active[0], c);
      case Drained(l) => DrainMask(s, s.loops[l].active[0], c);
      case RunTask(l, waits) => TaskMask(s, l, waits, c);
      case InLoopSend(_, d) => SendMask(s, d, true, c);
      case _ => PlainMask(s, step, c);
    }
  }

  lemma DrainMask(s: System, d: ConnId, c: ConnId)
    requires Known(s, d) && Known(s, c)
    ensures var t := OnChannel(s, d, DisableWriting);
      Known(t, c) && SlotOf(t, c).events == if c == d then SlotOf(s, c).events - {Out} else SlotOf(s, c).events
  {
    hide Apply;
    CallMask(s, d, s.conns[d], DisableWriting, c);
    assert SetConn(s, d, s.conns[d]) == s;
  }

  lemma PlainMask(s: System, step: Step, c: ConnId)
    requires Enabled(s, step) && IsPlain(step) && Known(s, c)
    ensures Known(Next(s, step), c) && SlotOf(Next(s, step), c) == SlotOf(s, c)
  {
    PlainSlots(s, step);
    SameSlotsMask(s, Next(s, step), c);
  }

  lemma PlainSlots(s: System, step: Step)
    requires Enabled(s, step) && IsPlain(step)
    ensures SameSlots(s, Next(s, step))
  {
  }
}
