/** Laws of the connection life cycle over every run. */
module LifecycleLaws {
  import opened Poller
  import opened Lifecycle
  import opened LifecycleShape
  import opened LifecycleTasks
  import opened LifecyclePollers

  // ----- the invariant holds exactly on clean steps -----------------------------------------

  lemma InitialInv(n: nat)
    requires n > 0
    ensures Inv(Initial(n))
  {
    forall l | 0 <= l < n
      ensures LoopShape(Initial(n), l) && Coherent(Initial(n).loops[l].reg)
    {
    }
  }

  /** A step keeps the invariant exactly when it is clean. */
  lemma StepKeepsInvIffClean(s: System, step: Step)
    requires Inv(s) && Enabled(s, step)
    ensures Inv(Next(s, step)) <==> Clean(s, step)
  {
    if Clean(s, step) {
      StepShape(s, step);
      StepTasks(s, step);
      StepRegistered(s, step);
      StepCallbacks(s, step);
    } else {
      match step {
        case Accept(home, fd) => NameTaken(s, home, fd);
        case HandleClose(l) => StolenByClose(s, l);
        case RunTask(l, waits) =>
          if s.loops[l].queue[0].Remove? {
            StolenByRemove(s, l, waits);
          } else {
            RegisteredAgain(s, l, waits);
          }
      }
    }
  }

  /** A new connection whose name is taken never enters the map. */
  lemma NameTaken(s: System, home: LoopId, fd: int)
    requires Inv(s) && Enabled(s, Accept(home, fd)) && Name(s.serial) in s.connections
    ensures !Inv(Next(s, Accept(home, fd)))
  {
    var t := Next(s, Accept(home, fd));
    assert t.connections == s.connections && s.connections[Name(s.serial)] < |s.conns|;
    assert t.conns[|s.conns|].serial == s.serial && t.conns[|s.conns|].issued == 0;
    assert !TasksOk(t, |s.conns|);
  }

  /** A connection that removes an entry which is not its own takes another one out. */
  lemma EntryStolen(s: System, t: System, c: ConnId)
    requires Inv(s) && c < |s.conns| && !OwnName(s, c)
    requires |t.conns| == |s.conns| && t.connections == s.connections - {Name(s.conns[c].serial)}
    requires forall d :: 0 <= d < |s.conns| && d != c ==> t.conns[d] == s.conns[d]
    ensures !Inv(t)
  {
    var d := s.connections[Name(s.conns[c].serial)];
    assert TasksOk(s, d);
    assert t.conns[d] == s.conns[d];
    assert !TasksOk(t, d);
  }

  lemma StolenByClose(s: System, l: LoopId)
    requires Inv(s) && Enabled(s, HandleClose(l)) && !Clean(s, HandleClose(l))
    ensures !Inv(Next(s, HandleClose(l)))
  {
    hide Apply;
    ActiveFacts(s, l, s.loops[l].active[0]);
    EntryStolen(s, Next(s, HandleClose(l)), s.loops[l].active[0]);
  }

  lemma StolenByRemove(s: System, l: LoopId, waits: bool)
    requires Inv(s) && Enabled(s, RunTask(l, waits)) && s.loops[l].queue[0].Remove? && !Clean(s, RunTask(l, waits))
    ensures !Inv(Next(s, RunTask(l, waits)))
  {
    EntryStolen(s, Next(s, RunTask(l, waits)), s.loops[l].queue[0].conn);
  }

  /** A send functor that runs after `connectDestroyed` and leaves bytes waiting puts the
      channel back into its poller. */
  lemma RegisteredAgain(s: System, l: LoopId, waits: bool)
    requires Inv(s) && Enabled(s, RunTask(l, waits)) && s.loops[l].queue[0].LateSend? && !Clean(s, RunTask(l, waits))
    ensures !Inv(Next(s, RunTask(l, waits)))
  {
    var t := Next(s, RunTask(l, waits));
    var c := s.loops[l].queue[0].conn;
    QueuedFacts(s, l, s.loops[l].queue[0]);
    IndexAfter(Home(s, c).reg, c, EnableWriting);
    assert SlotOf(t, c).index != KNew && t.conns[c].destroyed > 0;
    assert !RegOk(t, c);
  }

  lemma {:induction false} AlwaysInv(s: System, steps: seq<Step>)
    requires Inv(s) && CanExec(s, steps) && CleanRun(s, steps)
    ensures Inv(Exec(s, steps))
    decreases |steps|
  {
    if steps != [] {
      StepKeepsInvIffClean(s, steps[0]);
      AlwaysInv(Next(s, steps[0]), steps[1..]);
    }
  }

  // ----- when a run is clean ----------------------------------------------------------------

  /** No send functor registers a destroyed connection's channel again. */
  predicate NoLateRegistration(s: System, steps: seq<Step>)
    requires CanExec(s, steps)
    decreases |steps|
  {
    steps == [] ||
    ((steps[0].RunTask? && s.loops[steps[0].loop].queue[0].LateSend? ==> Clean(s, steps[0]))
     && NoLateRegistration(Next(s, steps[0]), steps[1..]))
  }

  /** Names are handed out in order. */
  ghost predicate Serials(s: System) {
    && (forall c :: 0 <= c < |s.conns| ==> s.conns[c].serial < s.serial)
    && (forall c, d :: 0 <= c < d < |s.conns| ==> s.conns[c].serial < s.conns[d].serial)
  }

  lemma StepSerials(s: System, step: Step)
    requires Serials(s) && Enabled(s, step)
    ensures Serials(Next(s, step)) && Next(s, step).serial >= s.serial
    ensures step.Accept? ==> Next(s, step).serial == s.serial + 1
  {
    hide Apply;
    var t := Next(s, step);
    StepKeepsSerials(s, step);
    if step.Accept? {
      AcceptSerials(s, step.home, step.fd);
    }
  }

  lemma AcceptSerials(s: System, home: LoopId, fd: int)
    requires Serials(s) && home < |s.loops|
    ensures Serials(NewConnection(s, home, fd)) && NewConnection(s, home, fd).serial == s.serial + 1
  {
    hide Apply;
    var t := NewConnection(s, home, fd);
    forall c | 0 <= c < |t.conns|
      ensures t.conns[c].serial == if c < |s.conns| then s.conns[c].serial else s.serial
    {
    }
  }

  /** Names of connections never change, and only an accept uses one for a connection. */
  lemma StepKeepsSerials(s: System, step: Step)
    requires Enabled(s, step)
    ensures var t := Next(s, step);
      && |t.conns| == |s.conns| + (if step.Accept? then 1 else 0) && t.serial >= s.serial
      && (forall c :: 0 <= c < |s.conns| ==> t.conns[c].serial == s.conns[c].serial)
  {
    hide Apply, RunOne, CloseConn, EnableWritingIf;
    match step {
      case HandleClose(l) => CloseKeepsSerials(s, s.loops[l].active[0]);
      case RunTask(l, waits) => TaskKeepsSerials(Popped(s, l), s.loops[l].queue[0], waits);
      case InLoopSend(_, c) => SendKeepsConns(s, c, true);
      case _ =>
    }
  }

  lemma SendKeepsConns(s: System, c: ConnId, waits: bool)
    requires Known(s, c)
    ensures EnableWritingIf(s, c, waits).conns == s.conns && EnableWritingIf(s, c, waits).serial == s.serial
  {
    hide Apply;
  }

  lemma CloseKeepsSerials(s: System, c: ConnId)
    requires Known(s, c)
    ensures var t := CloseConn(s, c);
      && |t.conns| == |s.conns| && t.serial == s.serial
      && (forall d :: 0 <= d < |s.conns| ==> t.conns[d].serial == s.conns[d].serial)
  {
    hide Apply;
  }

  lemma TaskKeepsSerials(s: System, task: Task, waits: bool)
    requires Known(s, task.conn)
    ensures var t := RunOne(s, task, waits);
      && |t.conns| == |s.conns| && t.serial == s.serial
      && (forall c :: 0 <= c < |s.conns| ==> t.conns[c].serial == s.conns[c].serial)
  {
    hide Apply;
  }

  /** 2^32 names in a row are different. */
  lemma DifferentNames(a: nat, b: nat)
    requires a < b < a + 0x1_0000_0000
    ensures Name(a) != Name(b)
  {
  }

  lemma NamesClean(s: System, step: Step)
    requires Inv(s) && Serials(s) && s.serial <= NAMES && Enabled(s, step)
    requires step.Accept? ==> s.serial < NAMES
    requires step.RunTask? ==> !s.loops[step.loop].queue[0].LateSend?
    ensures Clean(s, step)
  {
    forall n | n in s.connections
      ensures s.connections[n] < |s.conns| && n == Name(s.conns[s.connections[n]].serial)
    {
    }
    match step {
      case Accept(_, _) =>
        if Name(s.serial) in s.connections {
          var d := s.connections[Name(s.serial)];
          DifferentNames(s.conns[d].serial, s.serial);
        }
      case HandleClose(l) =>
        OwnNameHolds(s, s.loops[l].active[0]);
      case RunTask(l, _) =>
        OwnNameHolds(s, s.loops[l].queue[0].conn);
      case _ =>
    }
  }

  lemma OwnNameHolds(s: System, c: ConnId)
    requires Inv(s) && Serials(s) && s.serial <= NAMES && c < |s.conns|
    ensures OwnName(s, c)
  {
    if Name(s.conns[c].serial) in s.connections {
      var d := s.connections[Name(s.conns[c].serial)];
      if s.conns[c].serial < s.conns[d].serial {
        DifferentNames(s.conns[c].serial, s.conns[d].serial);
      } else if s.conns[d].serial < s.conns[c].serial {
        DifferentNames(s.conns[d].serial, s.conns[c].serial);
      }
    }
  }

  lemma {:induction false} SerialGrows(s: System, steps: seq<Step>)
    requires Serials(s) && CanExec(s, steps)
    ensures Exec(s, steps).serial >= s.serial
    decreases |steps|
  {
    if steps != [] {
      StepSerials(s, steps[0]);
      SerialGrows(Next(s, steps[0]), steps[1..]);
    }
  }

  lemma {:induction false} RunIsClean(s: System, steps: seq<Step>)
    requires Inv(s) && Serials(s) && CanExec(s, steps) && NoLateRegistration(s, steps)
    requires Exec(s, steps).serial <= NAMES
    ensures CleanRun(s, steps)
    decreases |steps|
  {
    if steps != [] {
      StepSerials(s, steps[0]);
      SerialGrows(Next(s, steps[0]), steps[1..]);
      if !(steps[0].RunTask? && s.loops[steps[0].loop].queue[0].LateSend?) {
        NamesClean(s, steps[0]);
      }
      StepKeepsInvIffClean(s, steps[0]);
      RunIsClean(Next(s, steps[0]), steps[1..]);
    }
  }

  /** As long as the server has handed out at most 2^32 names, a run from the start is clean
      exactly when no send functor registers a destroyed connection again. */
  lemma CleanUnlessNamesWrap(n: nat, steps: seq<Step>)
    requires n > 0 && CanExec(Initial(n), steps) && Exec(Initial(n), steps).serial <= 0x1_0000_0000
    ensures CleanRun(Initial(n), steps) <==> NoLateRegistration(Initial(n), steps)
  {
    InitialInv(n);
    if NoLateRegistration(Initial(n), steps) {
      RunIsClean(Initial(n), steps);
    } else {
      LateRegistrationIsUnclean(Initial(n), steps);
    }
  }

  lemma {:induction false} LateRegistrationIsUnclean(s: System, steps: seq<Step>)
    requires CanExec(s, steps) && !NoLateRegistration(s, steps)
    ensures !CleanRun(s, steps)
    decreases |steps|
  {
    if !(steps[0].RunTask? && s.loops[steps[0].loop].queue[0].LateSend?) || Clean(s, steps[0]) {
      LateRegistrationIsUnclean(Next(s, steps[0]), steps[1..]);
    }
  }

  /** Without a late registration each of up to 2^32 accepts puts its own connection into the
      map, under a name of its own. */
  lemma AcceptedIsMapped(n: nat, steps: seq<Step>, home: LoopId, fd: int)
    requires n > 0 && CanExec(Initial(n), steps) && NoLateRegistration(Initial(n), steps)
    requires Enabled(Exec(Initial(n), steps), Accept(home, fd)) && Exec(Initial(n), steps).serial < 0x1_0000_0000
    ensures var s := Exec(Initial(n), steps);
      var t := Next(s, Accept(home, fd));
      && |t.conns| == |s.conns| + 1 && Mapped(t, |s.conns|)
      && Name(s.serial) !in s.connections
      && (forall c :: 0 <= c < |s.conns| ==> Name(t.conns[c].serial) != Name(s.serial))
  {
    var s := Exec(Initial(n), steps);
    InitialInv(n);
    CleanUnlessNamesWrap(n, steps);
    AlwaysInv(Initial(n), steps);
    AlwaysSerials(Initial(n), steps);
    NamesClean(s, Accept(home, fd));
    AcceptEffect(s, home, fd);
    StepKeepsSerials(s, Accept(home, fd));
    forall c | 0 <= c < |s.conns|
      ensures Name(s.conns[c].serial) != Name(s.serial)
    {
      DifferentNames(s.conns[c].serial, s.serial);
    }
  }

  lemma {:induction false} AlwaysSerials(s: System, steps: seq<Step>)
    requires Serials(s) && CanExec(s, steps)
    ensures Serials(Exec(s, steps))
    decreases |steps|
  {
    if steps != [] {
      StepSerials(s, steps[0]);
      AlwaysSerials(Next(s, steps[0]), steps[1..]);
    }
  }
}
