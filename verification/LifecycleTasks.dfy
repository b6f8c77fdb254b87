/** Every step keeps the bookkeeping of functors, of the server's map and of each
    connection's progress. */
module LifecycleTasks {
  import opened Poller
  import Output
  import opened Lifecycle
  import opened LifecycleShape

  predicate SameProgress(a: Conn, b: Conn) {
    a.home == b.home && a.serial == b.serial && a.established == b.established
    && a.closes == b.closes && a.issued == b.issued && a.destroyed == b.destroyed
  }

  predicate Mapped(s: System, c: ConnId)
    requires c < |s.conns|
  {
    Name(s.conns[c].serial) in s.connections && s.connections[Name(s.conns[c].serial)] == c
  }

  /** Loop `l` holds the same functors for `d` in both, and dispatches it only if it did. */
  predicate SameQueue(s: System, t: System, d: ConnId, l: LoopId)
    requires l < |s.loops| && l < |t.loops|
  {
    && Queued(t, l, Establish(d)) == Queued(s, l, Establish(d))
    && Queued(t, l, Remove(d)) == Queued(s, l, Remove(d))
    && Queued(t, l, Destroy(d)) == Queued(s, l, Destroy(d))
    && Queued(t, l, LateSend(d)) == Queued(s, l, LateSend(d))
    && (d in t.loops[l].active ==> d in s.loops[l].active)
  }

  ghost predicate Untouched(s: System, t: System, d: ConnId)
    requires d < |s.conns| && d < |t.conns|
  {
    && SameProgress(s.conns[d], t.conns[d])
    && (Mapped(t, d) <==> Mapped(s, d))
    && |t.loops| == |s.loops|
    && forall l :: 0 <= l < |s.loops| ==> SameQueue(s, t, d, l)
  }

  lemma UntouchedOk(s: System, t: System, d: ConnId)
    requires d < |s.conns| && d < |t.conns| && Untouched(s, t, d) && TasksOk(s, d)
    ensures TasksOk(t, d)
  {
    if |s.loops| > 0 {
      assert SameQueue(s, t, d, 0);
      InQueue(s, 0, Remove(d));
      InQueue(t, 0, Remove(d));
    }
    forall l | 0 <= l < |t.loops|
      ensures QueueOk(t, d, l)
    {
      assert QueueOk(s, d, l) && SameQueue(s, t, d, l);
      InQueue(s, l, Remove(d));
      InQueue(t, l, Remove(d));
      InQueue(s, l, LateSend(d));
      InQueue(t, l, LateSend(d));
    }
  }

  lemma InQueue(s: System, l: LoopId, task: Task)
    requires l < |s.loops|
    ensures task in s.loops[l].queue <==> Queued(s, l, task) > 0
  {
  }

  predicate NamesOk(s: System) {
    forall n :: n in s.connections ==> s.connections[n] < |s.conns| && Name(s.conns[s.connections[n]].serial) == n
  }

  // ----- steps that leave functors, map and progress alone ----------------------------------

  /** Same queues and map, same progress, and no connection newly active. */
  ghost predicate SameTasks(s: System, t: System) {
    && |t.conns| == |s.conns| && |t.loops| == |s.loops| && t.connections == s.connections
    && (forall d :: 0 <= d < |s.conns| ==> SameProgress(s.conns[d], t.conns[d]))
    && (forall l :: 0 <= l < |s.loops| ==> SameWork(s.loops[l], t.loops[l]))
  }

  ghost predicate SameWork(a: Loop, b: Loop) {
    b.queue == a.queue && forall d :: d in b.active ==> d in a.active
  }

  lemma SameTasksOk(s: System, t: System)
    requires Tasks(s) && SameTasks(s, t)
    ensures Tasks(t)
  {
    forall d | 0 <= d < |t.conns|
      ensures TasksOk(t, d)
    {
      assert SameProgress(s.conns[d], t.conns[d]);
      forall l | 0 <= l < |s.loops|
        ensures SameQueue(s, t, d, l)
      {
        assert SameWork(s.loops[l], t.loops[l]);
      }
      UntouchedOk(s, t, d);
    }
    forall n | n in t.connections
      ensures t.connections[n] < |t.conns| && Name(t.conns[t.connections[n]].serial) == n
    {
      assert SameProgress(s.conns[t.connections[n]], t.conns[t.connections[n]]);
    }
  }

  lemma PollTasks(s: System, l: LoopId, active: seq<ConnId>)
    requires Inv(s) && Enabled(s, PollReturn(l, active))
    ensures Tasks(Next(s, PollReturn(l, active)))
  {
    var t := Next(s, PollReturn(l, active));
    forall d | 0 <= d < |t.conns|
      ensures TasksOk(t, d)
    {
      assert TasksOk(s, d);
      assert ShapeOk(s, d) && RegOk(s, d);
      forall k | 0 <= k < |t.loops|
        ensures QueueOk(t, d, k)
      {
        assert QueueOk(s, d, k);
        if k == l && d in active {
          assert LoopShape(s, l);
          assert Agrees(s.loops[l].reg, d);
        }
      }
    }
  }

  // ----- one functor added or taken ---------------------------------------------------------

  lemma PostCounts(s: System, l: LoopId, task: Task, d: ConnId)
    requires l < |s.loops| && task.conn != d
    ensures forall k :: 0 <= k < |s.loops| ==> SameQueue(s, Post(s, l, task), d, k)
  {
  }

  lemma PopCounts(s: System, l: LoopId, d: ConnId)
    requires l < |s.loops| && s.loops[l].queue != [] && s.loops[l].batch > 0 && s.loops[l].queue[0].conn != d
    ensures forall k :: 0 <= k < |s.loops| ==> SameQueue(s, Popped(s, l), d, k)
  {
    assert s.loops[l].queue == [s.loops[l].queue[0]] + s.loops[l].queue[1..];
  }

  lemma PushSendTasks(s: System, c: ConnId)
    requires Shape(s) && Tasks(s) && Enabled(s, PushSend(c))
    ensures Tasks(Next(s, PushSend(c)))
  {
    var t := Next(s, PushSend(c));
    assert ShapeOk(s, c);
    forall d | 0 <= d < |t.conns|
      ensures TasksOk(t, d)
    {
      assert TasksOk(s, d);
      if d != c {
        PostCounts(s, s.conns[c].home, LateSend(c), d);
        UntouchedOk(s, t, d);
      } else {
        forall l | 0 <= l < |t.loops|
          ensures QueueOk(t, d, l)
        {
          assert QueueOk(s, d, l);
        }
      }
    }
  }

  // ----- functors that run ------------------------------------------------------------------

  /** What `ConnectEstablished` and `ConnectDestroyed` leave alone. */
  lemma ChannelKeepsWork(s: System, c: ConnId, op: ChannelOp)
    requires Known(s, c)
    ensures var t := OnChannel(s, c, op);
      && t.conns == s.conns && t.connections == s.connections && |t.loops| == |s.loops|
      && (forall l :: 0 <= l < |s.loops| ==> t.loops[l].queue == s.loops[l].queue && t.loops[l].active == s.loops[l].active)
  {
  }

  /** A functor other than `Remove` ran on loop `l` for its connection: the others do not
      notice. */
  lemma RunLeavesOthers(s: System, l: LoopId, t: System, d: ConnId)
    requires Tasks(s) && l < |s.loops| && s.loops[l].queue != [] && s.loops[l].batch > 0
    requires d < |s.conns| && d != s.loops[l].queue[0].conn
    requires |t.conns| == |s.conns| && t.conns[d] == s.conns[d] && t.connections == s.connections && |t.loops| == |s.loops|
    requires var s1 := Popped(s, l);
      forall k :: 0 <= k < |s.loops| ==> t.loops[k].queue == s1.loops[k].queue && t.loops[k].active == s1.loops[k].active
    ensures TasksOk(t, d)
  {
    var s1 := Popped(s, l);
    PopCounts(s, l, d);
    forall k | 0 <= k < |s.loops|
      ensures SameQueue(s, t, d, k)
    {
      assert SameQueue(s, s1, d, k);
      assert t.loops[k].queue == s1.loops[k].queue && t.loops[k].active == s1.loops[k].active;
    }
    UntouchedOk(s, t, d);
  }

  lemma EstablishTasks(s: System, l: LoopId, waits: bool)
    requires Shape(s) && Tasks(s) && Enabled(s, RunTask(l, waits)) && s.loops[l].queue[0].Establish?
    ensures Tasks(Next(s, RunTask(l, waits)))
  {
    hide Apply, TasksOk, Queued;
    var c := s.loops[l].queue[0].conn;
    var s1 := Popped(s, l);
    assert LoopShape(s, l);
    var conn := s1.conns[c].(state := Output.Connected, established := true, ups := s1.conns[c].ups + 1);
    ChannelKeepsWork(SetConn(s1, c, conn), c, EnableReading);
    EstablishKeepsTasks(s, l, Next(s, RunTask(l, waits)), c);
  }

  /** The queue arithmetic of an `Establish` functor that ran for `c` on loop `l`. */
  lemma EstablishKeepsTasks(s: System, l: LoopId, t: System, c: ConnId)
    requires Shape(s) && Tasks(s) && l < |s.loops| && s.loops[l].queue != [] && s.loops[l].batch > 0
    requires s.loops[l].queue[0] == Establish(c) && c < |s.conns|
    requires |t.conns| == |s.conns| && t.connections == s.connections && |t.loops| == |s.loops|
    requires forall d :: 0 <= d < |s.conns| && d != c ==> t.conns[d] == s.conns[d]
    requires SameProgress(s.conns[c].(established := true), t.conns[c])
    requires var s1 := Popped(s, l);
      forall k :: 0 <= k < |s.loops| ==> t.loops[k].queue == s1.loops[k].queue && t.loops[k].active == s1.loops[k].active
    ensures Tasks(t)
  {
    hide TasksOk, Queued;
    forall d | 0 <= d < |t.conns|
      ensures TasksOk(t, d)
    {
      if d != c {
        RunLeavesOthers(s, l, t, d);
      } else {
        EstablishedOne(s, l, t, c);
      }
    }
    SameNames(s, t);
  }

  lemma EstablishedOne(s: System, l: LoopId, t: System, c: ConnId)
    requires Tasks(s) && l < |s.loops| && s.loops[l].queue != [] && s.loops[l].batch > 0
    requires s.loops[l].queue[0] == Establish(c) && c < |s.conns|
    requires |t.conns| == |s.conns| && t.connections == s.connections && |t.loops| == |s.loops|
    requires SameProgress(s.conns[c].(established := true), t.conns[c])
    requires var s1 := Popped(s, l);
      forall k :: 0 <= k < |s.loops| ==> t.loops[k].queue == s1.loops[k].queue && t.loops[k].active == s1.loops[k].active
    ensures TasksOk(t, c)
  {
    assert TasksOk(s, c) && QueueOk(s, c, l);
    assert Queued(s, l, Establish(c)) > 0;
    assert s.loops[l].queue == [s.loops[l].queue[0]] + s.loops[l].queue[1..];
    forall k | 0 <= k < |t.loops|
      ensures QueueOk(t, c, k)
    {
      assert QueueOk(s, c, k);
    }
  }

  /** Names in the map still belong to the connections they lead to. */
  lemma SameNames(s: System, t: System)
    requires NamesOk(s) && t.connections == s.connections && |t.conns| == |s.conns|
    requires forall d :: 0 <= d < |s.conns| ==> t.conns[d].serial == s.conns[d].serial
    ensures NamesOk(t)
  {
    forall n | n in t.connections
      ensures t.connections[n] < |t.conns| && Name(t.conns[t.connections[n]].serial) == n
    {
      assert n in s.connections && s.connections[n] < |s.conns|;
    }
  }

  lemma DestroyTasks(s: System, l: LoopId, waits: bool)
    requires Shape(s) && Tasks(s) && Enabled(s, RunTask(l, waits)) && s.loops[l].queue[0].Destroy?
    ensures Tasks(Next(s, RunTask(l, waits)))
  {
    hide ConnectDestroyed, TasksOk, Queued;
    var c := s.loops[l].queue[0].conn;
    assert LoopShape(s, l);
    DestroyEffect(Popped(s, l), c);
    DestroyKeepsTasks(s, l, Next(s, RunTask(l, waits)), c);
  }

  /** The queue arithmetic of a `Destroy` functor that ran for `c` on loop `l`. */
  lemma DestroyKeepsTasks(s: System, l: LoopId, t: System, c: ConnId)
    requires Shape(s) && Tasks(s) && l < |s.loops| && s.loops[l].queue != [] && s.loops[l].batch > 0
    requires s.loops[l].queue[0] == Destroy(c) && s.loops[l].active == [] && c < |s.conns|
    requires |t.conns| == |s.conns| && t.connections == s.connections && |t.loops| == |s.loops|
    requires forall d :: 0 <= d < |s.conns| && d != c ==> t.conns[d] == s.conns[d]
    requires SameProgress(s.conns[c].(destroyed := s.conns[c].destroyed + 1), t.conns[c])
    requires var s1 := Popped(s, l);
      forall k :: 0 <= k < |s.loops| ==> t.loops[k].queue == s1.loops[k].queue && t.loops[k].active == s1.loops[k].active
    ensures Tasks(t)
  {
    hide TasksOk, Queued;
    forall d | 0 <= d < |t.conns|
      ensures TasksOk(t, d)
    {
      if d != c {
        RunLeavesOthers(s, l, t, d);
      } else {
        DestroyedOne(s, l, t, c);
      }
    }
    SameNames(s, t);
  }

  lemma DestroyedOne(s: System, l: LoopId, t: System, c: ConnId)
    requires Shape(s) && Tasks(s) && l < |s.loops| && s.loops[l].queue != [] && s.loops[l].batch > 0
    requires s.loops[l].queue[0] == Destroy(c) && s.loops[l].active == [] && c < |s.conns|
    requires |t.conns| == |s.conns| && t.connections == s.connections && |t.loops| == |s.loops|
    requires SameProgress(s.conns[c].(destroyed := s.conns[c].destroyed + 1), t.conns[c])
    requires var s1 := Popped(s, l);
      forall k :: 0 <= k < |s.loops| ==> t.loops[k].queue == s1.loops[k].queue && t.loops[k].active == s1.loops[k].active
    ensures TasksOk(t, c)
  {
    assert TasksOk(s, c) && QueueOk(s, c, l);
    assert Queued(s, l, Destroy(c)) > 0;
    assert s.loops[l].queue == [s.loops[l].queue[0]] + s.loops[l].queue[1..];
    forall k | 0 <= k < |t.loops|
      ensures QueueOk(t, c, k)
    {
      assert QueueOk(s, c, k);
      if k != l {
        assert LoopShape(s, k);
      }
    }
  }

  lemma DestroyEffect(s: System, c: ConnId)
    requires Known(s, c)
    ensures var t := ConnectDestroyed(s, c);
      && |t.conns| == |s.conns| && t.connections == s.connections && |t.loops| == |s.loops|
      && (forall d :: 0 <= d < |s.conns| && d != c ==> t.conns[d] == s.conns[d])
      && SameProgress(s.conns[c].(destroyed := s.conns[c].destroyed + 1), t.conns[c])
      && (forall l :: 0 <= l < |s.loops| ==> t.loops[l].queue == s.loops[l].queue && t.loops[l].active == s.loops[l].active)
  {
  }

  lemma LateSendTasks(s: System, l: LoopId, waits: bool)
    requires Shape(s) && Tasks(s) && Enabled(s, RunTask(l, waits)) && s.loops[l].queue[0].LateSend?
    ensures Tasks(Next(s, RunTask(l, waits)))
  {
    var t := Next(s, RunTask(l, waits));
    var c := s.loops[l].queue[0].conn;
    assert LoopShape(s, l);
    ChannelKeepsWork(Popped(s, l), c, EnableWriting);
    forall d | 0 <= d < |t.conns|
      ensures TasksOk(t, d)
    {
      if d != c {
        RunLeavesOthers(s, l, t, d);
      } else {
        SentOne(s, l, t, c);
      }
    }
  }

  lemma SentOne(s: System, l: LoopId, t: System, c: ConnId)
    requires Tasks(s) && l < |s.loops| && s.loops[l].queue != [] && s.loops[l].batch > 0
    requires s.loops[l].queue[0] == LateSend(c) && c < |s.conns|
    requires t.conns == s.conns && t.connections == s.connections && |t.loops| == |s.loops|
    requires var s1 := Popped(s, l);
      forall k :: 0 <= k < |s.loops| ==> t.loops[k].queue == s1.loops[k].queue && t.loops[k].active == s1.loops[k].active
    ensures TasksOk(t, c)
  {
    assert TasksOk(s, c);
    assert s.loops[l].queue == [s.loops[l].queue[0]] + s.loops[l].queue[1..];
    forall k | 0 <= k < |t.loops|
      ensures QueueOk(t, c, k)
    {
      assert QueueOk(s, c, k);
    }
  }

  /** `removeConnectionInLoop` for a connection whose removal the map still awaits, or not. */
  lemma RemoveEffect(s: System, t: System, c: ConnId, d: ConnId)
    requires Shape(s) && NamesOk(s) && c < |s.conns| && d < |s.conns| && d != c && Mapped(s, c) && Known(s, c)
    requires t == RemoveConnectionInLoop(s, c)
    ensures Untouched(s, t, d)
  {
    assert ShapeOk(s, c);
    var erased := s.(connections := s.connections - {Name(s.conns[c].serial)});
    var issued := SetConn(erased, c, s.conns[c].(issued := s.conns[c].issued + 1));
    PostCounts(issued, s.conns[c].home, Destroy(c), d);
    forall l | 0 <= l < |s.loops|
      ensures SameQueue(s, t, d, l)
    {
      assert SameQueue(issued, t, d, l);
    }
  }

  lemma RemoveTasks(s: System, l: LoopId, waits: bool)
    requires Shape(s) && Tasks(s) && Enabled(s, RunTask(l, waits)) && s.loops[l].queue[0].Remove?
    requires Clean(s, RunTask(l, waits))
    ensures Tasks(Next(s, RunTask(l, waits)))
  {
    hide TasksOk, Queued, Shape;
    var c := s.loops[l].queue[0].conn;
    assert c < |s.conns| by { QueuedKnown(s, l); }
    if Mapped(s, c) {
      FirstRemoveTasks(s, l, c);
    } else {
      SecondRemoveTasks(s, l, c);
    }
  }

  lemma QueuedKnown(s: System, l: LoopId)
    requires Shape(s) && l < |s.loops| && s.loops[l].queue != []
    ensures s.loops[l].queue[0].conn < |s.conns|
  {
    assert LoopShape(s, l);
  }

  /** The removal that the map awaits. */
  lemma FirstRemoveTasks(s: System, l: LoopId, c: ConnId)
    requires Shape(s) && Tasks(s) && l < |s.loops| && s.loops[l].queue != [] && s.loops[l].batch > 0
    requires s.loops[l].queue[0] == Remove(c) && c < |s.conns| && Mapped(s, c) && Known(Popped(s, l), c)
    ensures Tasks(RemoveConnectionInLoop(Popped(s, l), c))
  {
    hide TasksOk, Queued;
    var s1 := Popped(s, l);
    var t := RemoveConnectionInLoop(s1, c);
    PoppedShape(s, l);
    forall d | 0 <= d < |t.conns|
      ensures TasksOk(t, d)
    {
      if d != c {
        RemoveLeavesOthers(s, l, c, d);
      } else {
        RemovedOne(s, l, c);
      }
    }
  }

  lemma RemoveLeavesOthers(s: System, l: LoopId, c: ConnId, d: ConnId)
    requires Tasks(s) && l < |s.loops| && s.loops[l].queue != [] && s.loops[l].batch > 0 && Shape(Popped(s, l))
    requires s.loops[l].queue[0] == Remove(c) && c < |s.conns| && Mapped(s, c) && Known(Popped(s, l), c)
    requires d < |s.conns| && d != c
    ensures TasksOk(RemoveConnectionInLoop(Popped(s, l), c), d)
  {
    hide TasksOk, Queued;
    var s1 := Popped(s, l);
    var t := RemoveConnectionInLoop(s1, c);
    PopCounts(s, l, d);
    RemoveEffect(s1, t, c, d);
    forall k | 0 <= k < |s.loops|
      ensures SameQueue(s, t, d, k)
    {
      assert SameQueue(s, s1, d, k) && SameQueue(s1, t, d, k);
    }
    UntouchedOk(s, t, d);
  }

  lemma RemovedOne(s: System, l: LoopId, c: ConnId)
    requires Tasks(s) && l < |s.loops| && s.loops[l].queue != [] && s.loops[l].batch > 0
    requires s.loops[l].queue[0] == Remove(c) && c < |s.conns| && Mapped(s, c) && Known(Popped(s, l), c)
    ensures TasksOk(RemoveConnectionInLoop(Popped(s, l), c), c)
  {
    var t := RemoveConnectionInLoop(Popped(s, l), c);
    assert TasksOk(s, c) && QueueOk(s, c, l);
    assert s.loops[l].queue == [s.loops[l].queue[0]] + s.loops[l].queue[1..];
    forall k | 0 <= k < |t.loops|
      ensures QueueOk(t, c, k)
    {
      assert QueueOk(s, c, k);
    }
  }

  /** A removal that finds nothing under the name, of a connection that closed twice. */
  lemma SecondRemoveTasks(s: System, l: LoopId, c: ConnId)
    requires Tasks(s) && l < |s.loops| && s.loops[l].queue != [] && s.loops[l].batch > 0
    requires s.loops[l].queue[0] == Remove(c) && c < |s.conns| && !Mapped(s, c)
    ensures Tasks(Popped(s, l))
  {
    hide TasksOk, Queued;
    var t := Popped(s, l);
    forall d | 0 <= d < |t.conns|
      ensures TasksOk(t, d)
    {
      if d != c {
        RunLeavesOthers(s, l, t, d);
      } else {
        RemovedBefore(s, l, c);
      }
    }
    SameNames(s, t);
  }

  lemma RemovedBefore(s: System, l: LoopId, c: ConnId)
    requires Tasks(s) && l < |s.loops| && s.loops[l].queue != [] && s.loops[l].batch > 0
    requires s.loops[l].queue[0] == Remove(c) && c < |s.conns| && !Mapped(s, c)
    ensures TasksOk(Popped(s, l), c)
  {
    var t := Popped(s, l);
    assert TasksOk(s, c);
    assert s.loops[l].queue == [s.loops[l].queue[0]] + s.loops[l].queue[1..];
    forall k | 0 <= k < |t.loops|
      ensures QueueOk(t, c, k)
    {
      assert QueueOk(s, c, k);
    }
  }

  // ----- closing and accepting --------------------------------------------------------------

  /** `handleClose` up to its close callback. */
  function Closing(s: System, c: ConnId): System
    requires Known(s, c)
  {
    var conn := s.conns[c];
    OnChannel(SetConn(s, c, conn.(state := Output.Disconnected, closes := conn.closes + 1, downs := conn.downs + 1)), c, DisableAll)
  }

  lemma CloseTasks(s: System, l: LoopId)
    requires Shape(s) && Tasks(s) && Enabled(s, HandleClose(l)) && Clean(s, HandleClose(l))
    ensures Tasks(Next(s, HandleClose(l)))
  {
    var c := s.loops[l].active[0];
    var s1 := Closing(s, c);
    var t := Next(s, HandleClose(l));
    assert LoopShape(s, l);
    assert TasksOk(s, c) && QueueOk(s, c, l);
    CloseShape(s, c);
    forall d | 0 <= d < |t.conns|
      ensures TasksOk(t, d)
    {
      if d == c {
        ClosedOne(s, l, c);
      } else {
        assert TasksOk(s, d);
        ClosedOthers(s, l, c, d);
        UntouchedOk(s, t, d);
      }
    }
  }

  lemma ClosedOthers(s: System, l: LoopId, c: ConnId, d: ConnId)
    requires Shape(s) && Tasks(s) && Enabled(s, HandleClose(l)) && Clean(s, HandleClose(l))
    requires c == s.loops[l].active[0] && c < |s.conns| && s.conns[c].home == l && d < |s.conns| && d != c
    ensures Untouched(s, Next(s, HandleClose(l)), d)
  {
    var s1 := Closing(s, c);
    ClosingKeeps(s, c, d);
    if l != 0 {
      PostCounts(s1, 0, Remove(c), d);
      UntouchedChains(s, s1, Post(s1, 0, Remove(c)), d);
    } else if Mapped(s1, c) {
      ClosingShape(s, c);
      RemoveEffect(s1, RemoveConnectionInLoop(s1, c), c, d);
      UntouchedChains(s, s1, RemoveConnectionInLoop(s1, c), d);
    }
  }

  lemma ClosingShape(s: System, c: ConnId)
    requires Shape(s) && Tasks(s) && c < |s.conns| && Known(s, c)
    ensures Shape(Closing(s, c)) && NamesOk(Closing(s, c)) && Known(Closing(s, c), c)
  {
    var conn := s.conns[c].(state := Output.Disconnected, closes := s.conns[c].closes + 1, downs := s.conns[c].downs + 1);
    SetConnShape(s, c, conn);
    ChannelShape(SetConn(s, c, conn), c, DisableAll);
    assert ShapeOk(Closing(s, c), c);
  }

  lemma ClosingKeeps(s: System, c: ConnId, d: ConnId)
    requires c < |s.conns| && Known(s, c) && d < |s.conns| && d != c
    ensures |Closing(s, c).conns| == |s.conns| && Untouched(s, Closing(s, c), d)
  {
  }

  lemma UntouchedChains(s: System, t: System, u: System, d: ConnId)
    requires d < |s.conns| && d < |t.conns| && d < |u.conns|
    requires Untouched(s, t, d) && Untouched(t, u, d)
    ensures Untouched(s, u, d)
  {
    forall l | 0 <= l < |s.loops|
      ensures SameQueue(s, u, d, l)
    {
      assert SameQueue(s, t, d, l) && SameQueue(t, u, d, l);
    }
  }

  lemma ClosedOne(s: System, l: LoopId, c: ConnId)
    requires Shape(s) && Tasks(s) && Enabled(s, HandleClose(l)) && Clean(s, HandleClose(l))
    requires c == s.loops[l].active[0] && c < |s.conns| && s.conns[c].home == l
    ensures var t := Next(s, HandleClose(l)); c < |t.conns| && TasksOk(t, c)
  {
    var t := Next(s, HandleClose(l));
    assert TasksOk(s, c) && QueueOk(s, c, l);
    forall k | 0 <= k < |t.loops|
      ensures QueueOk(t, c, k)
    {
      assert QueueOk(s, c, k);
    }
  }

  /** Before its name is handed out a connection has no functor anywhere. */
  lemma NothingQueuedYet(s: System, l: LoopId, task: Task)
    requires Shape(s) && l < |s.loops| && task.conn >= |s.conns|
    ensures Queued(s, l, task) == 0 && task.conn !in s.loops[l].active
  {
    assert LoopShape(s, l);
  }

  lemma AcceptTasks(s: System, home: LoopId, fd: int)
    requires Shape(s) && Tasks(s) && Enabled(s, Accept(home, fd)) && Clean(s, Accept(home, fd))
    ensures Tasks(Next(s, Accept(home, fd)))
  {
    var t := Next(s, Accept(home, fd));
    AcceptEffect(s, home, fd);
    forall d | 0 <= d < |t.conns|
      ensures TasksOk(t, d)
    {
      if d < |s.conns| {
        AcceptLeavesOthers(s, t, home, d);
      } else {
        AcceptedOne(s, t, home);
      }
    }
  }

  /** What a new connection changes in queues and map. */
  lemma AcceptEffect(s: System, home: LoopId, fd: int)
    requires Shape(s) && Enabled(s, Accept(home, fd)) && Clean(s, Accept(home, fd))
    ensures Accepted(s, Next(s, Accept(home, fd)), home)
  {
  }

  ghost predicate Accepted(s: System, t: System, home: LoopId)
    requires home < |s.loops|
  {
    var c := |s.conns|;
    && |t.conns| == c + 1 && t.conns[..c] == s.conns && |t.loops| == |s.loops|
    && SameProgress(t.conns[c], Conn(home, 0, s.serial, true, Output.Connecting, home == 0, 0, 0, 0, 0, 0, 0))
    && t.connections == s.connections[Name(s.serial) := c]
    && (forall l :: 0 <= l < |s.loops| ==> t.loops[l].active == s.loops[l].active)
    && (forall l :: 0 <= l < |s.loops| ==>
          t.loops[l].queue == if l == home && home != 0 then s.loops[l].queue + [Establish(c)] else s.loops[l].queue)
  }

  lemma AcceptLeavesOthers(s: System, t: System, home: LoopId, d: ConnId)
    requires Shape(s) && Tasks(s) && home < |s.loops| && Accepted(s, t, home) && Name(s.serial) !in s.connections
    requires d < |s.conns|
    ensures TasksOk(t, d)
  {
    assert TasksOk(s, d);
    assert t.conns[d] == t.conns[..|s.conns|][d];
    forall k | 0 <= k < |s.loops|
      ensures SameQueue(s, t, d, k)
    {
    }
    UntouchedOk(s, t, d);
  }

  lemma AcceptedOne(s: System, t: System, home: LoopId)
    requires Shape(s) && home < |s.loops| && Accepted(s, t, home)
    ensures TasksOk(t, |s.conns|)
  {
    var c := |s.conns|;
    forall k | 0 <= k < |t.loops|
      ensures QueueOk(t, c, k)
    {
      NothingQueuedYet(s, k, Establish(c));
      NothingQueuedYet(s, k, Destroy(c));
      NothingQueuedYet(s, k, Remove(c));
      NothingQueuedYet(s, k, LateSend(c));
      InQueue(s, k, Remove(c));
      InQueue(s, k, LateSend(c));
    }
  }

  // ----- every step -------------------------------------------------------------------------

  /** The other steps leave functors, map and progress alone. */
  lemma QuietStep(s: System, step: Step)
    requires Shape(s) && Enabled(s, step)
    requires !step.Accept? && !step.PollReturn? && !step.HandleClose? && !step.RunTask? && !step.PushSend?
    ensures SameTasks(s, Next(s, step))
  {
    match step {
      case AcceptFails =>
      case Drained(l) =>
      case Handled(l) =>
      case StartBatch(l) =>
      case EndBatch(l) =>
      case InLoopSend(_, c) =>
      case Shutdown(c) =>
      case Release(c) =>
    }
  }

  lemma TaskTasks(s: System, l: LoopId, waits: bool)
    requires Shape(s) && Tasks(s) && Enabled(s, RunTask(l, waits)) && Clean(s, RunTask(l, waits))
    ensures Tasks(Next(s, RunTask(l, waits)))
  {
    match s.loops[l].queue[0] {
      case Establish(_) => EstablishTasks(s, l, waits);
      case Remove(_) => RemoveTasks(s, l, waits);
      case Destroy(_) => DestroyTasks(s, l, waits);
      case LateSend(_) => LateSendTasks(s, l, waits);
    }
  }

  lemma StepTasks(s: System, step: Step)
    requires Inv(s) && Enabled(s, step) && Clean(s, step)
    ensures Tasks(Next(s, step))
  {
    match step {
      case Accept(home, fd) => AcceptTasks(s, home, fd);
      case PollReturn(l, active) => PollTasks(s, l, active);
      case HandleClose(l) => CloseTasks(s, l);
      case RunTask(l, waits) => TaskTasks(s, l, waits);
      case PushSend(c) => PushSendTasks(s, c);
      case _ =>
        QuietStep(s, step);
        SameTasksOk(s, Next(s, step));
    }
  }
}
