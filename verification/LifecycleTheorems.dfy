/** What the life-cycle invariant means for connections, dispatch, descriptors and callbacks. */
module LifecycleTheorems {
  import opened Poller
  import Output
  import opened Lifecycle
  import opened LifecycleShape
  import opened LifecycleTasks
  import opened LifecyclePollers
  import opened LifecycleLaws

  /** A clean run of a server with `n` loops from the start. */
  predicate IsRun(n: nat, steps: seq<Step>) {
    n > 0 && CanExec(Initial(n), steps) && CleanRun(Initial(n), steps)
  }

  function After(n: nat, steps: seq<Step>): System
    requires IsRun(n, steps)
  {
    Exec(Initial(n), steps)
  }

  lemma RunInv(n: nat, steps: seq<Step>)
    requires IsRun(n, steps)
    ensures Inv(After(n, steps))
  {
    InitialInv(n);
    AlwaysInv(Initial(n), steps);
  }

  // ----- stages -----------------------------------------------------------------------------

  datatype Stage = QueuedEstablish | Open | CloseInFlight | DestroyInFlight | Destroyed

  /** Stages told apart by which functors are queued, and where. */
  predicate InStage(s: System, c: ConnId, stage: Stage)
    requires c < |s.conns| && s.conns[c].home < |s.loops|
  {
    var conn := s.conns[c];
    match stage
    case QueuedEstablish => Establish(c) in s.loops[conn.home].queue
    case Open => conn.established && conn.closes == 0
    case CloseInFlight => Remove(c) in s.loops[0].queue && conn.issued == 0
    case DestroyInFlight => Destroy(c) in s.loops[conn.home].queue
    case Destroyed => conn.destroyed > 0
  }

  function StageOf(conn: Conn): Stage {
    if !conn.established then QueuedEstablish
    else if conn.closes == 0 then Open
    else if conn.issued == 0 then CloseInFlight
    else if conn.destroyed == 0 then DestroyInFlight
    else Destroyed
  }

  lemma StageIsUnique(s: System, c: ConnId, stage: Stage)
    requires Inv(s) && c < |s.conns|
    ensures s.conns[c].home < |s.loops|
    ensures InStage(s, c, stage) <==> stage == StageOf(s.conns[c])
  {
    assert ShapeOk(s, c) && TasksOk(s, c);
    var l := s.conns[c].home;
    assert QueueOk(s, c, l) && QueueOk(s, c, 0);
    InQueue(s, l, Establish(c));
    InQueue(s, l, Destroy(c));
  }

  /** Every accepted connection is in exactly one stage, and the server's map has exactly the
      connections of the first three. */
  lemma ExactlyOneStage(n: nat, steps: seq<Step>, c: ConnId)
    requires IsRun(n, steps) && c < |After(n, steps).conns|
    ensures var s := After(n, steps);
      && s.conns[c].home < |s.loops|
      && (exists stage :: InStage(s, c, stage) && forall other :: InStage(s, c, other) ==> other == stage)
      && (Mapped(s, c) <==> InStage(s, c, QueuedEstablish) || InStage(s, c, Open) || InStage(s, c, CloseInFlight))
  {
    RunInv(n, steps);
    var s := After(n, steps);
    StageIsUnique(s, c, StageOf(s.conns[c]));
    assert InStage(s, c, StageOf(s.conns[c]));
    forall stage | InStage(s, c, stage)
      ensures stage == StageOf(s.conns[c])
    {
      StageIsUnique(s, c, stage);
    }
    StageIsUnique(s, c, QueuedEstablish);
    StageIsUnique(s, c, Open);
    StageIsUnique(s, c, CloseInFlight);
    assert TasksOk(s, c);
  }

  function Rank(stage: Stage): nat {
    match stage
    case QueuedEstablish => 0
    case Open => 1
    case CloseInFlight => 2
    case DestroyInFlight => 3
    case Destroyed => 4
  }

  /** Progress is never taken back. */
  predicate Further(a: Conn, b: Conn) {
    a.home == b.home && a.fd == b.fd && (a.established ==> b.established) && a.closes <= b.closes && a.issued <= b.issued && a.destroyed <= b.destroyed
  }

  lemma FurtherRank(a: Conn, b: Conn)
    requires Further(a, b)
    ensures Rank(StageOf(a)) <= Rank(StageOf(b))
  {
  }

  /** Connections make progress, queues grow at the back, and active lists stay. */
  ghost predicate Evolves(s: System, t: System) {
    && |t.conns| >= |s.conns| && |t.loops| == |s.loops|
    && (forall c :: 0 <= c < |s.conns| ==> Further(s.conns[c], t.conns[c]))
    && (forall l :: 0 <= l < |s.loops| ==> QueueGrows(s.loops[l], t.loops[l]))
  }

  predicate QueueGrows(a: Loop, b: Loop) {
    a.queue <= b.queue && a.batch == b.batch && a.active == b.active
  }

  lemma CallEvolves(s: System, c: ConnId, conn: Conn, op: ChannelOp)
    requires Known(s, c) && Further(s.conns[c], conn)
    ensures Evolves(s, Changed(s, c, conn, op))
  {
    hide Apply;
  }

  lemma EvolvesChains(s: System, t: System, u: System)
    requires Evolves(s, t) && Evolves(t, u)
    ensures Evolves(s, u)
  {
    forall c | 0 <= c < |s.conns|
      ensures Further(s.conns[c], u.conns[c])
    {
      assert Further(s.conns[c], t.conns[c]) && Further(t.conns[c], u.conns[c]);
    }
    forall l | 0 <= l < |s.loops|
      ensures QueueGrows(s.loops[l], u.loops[l])
    {
      assert QueueGrows(s.loops[l], t.loops[l]) && QueueGrows(t.loops[l], u.loops[l]);
    }
  }

  lemma RemoveEvolves(s: System, c: ConnId)
    requires Known(s, c)
    ensures Evolves(s, RemoveConnectionInLoop(s, c))
  {
  }

  lemma CloseEvolves(s: System, c: ConnId)
    requires Known(s, c)
    ensures Evolves(s, CloseConn(s, c))
  {
    hide Apply;
    var s1 := Closing(s, c);
    CallEvolves(s, c, s1.conns[c], DisableAll);
    if s.conns[c].home == 0 {
      KnownAfterCall(s, c, s1.conns[c], DisableAll);
      RemoveEvolves(s1, c);
    } else {
      assert Evolves(s1, Post(s1, 0, Remove(c)));
    }
    EvolvesChains(s, s1, CloseConn(s, c));
  }

  lemma KnownAfterCall(s: System, c: ConnId, conn: Conn, op: ChannelOp)
    requires Known(s, c) && conn.home == s.conns[c].home
    ensures Known(Changed(s, c, conn, op), c)
  {
    ApplyFrame(Home(s, c).reg, c, op);
  }

  lemma DestroyEvolves(s: System, c: ConnId)
    requires Known(s, c)
    ensures Evolves(s, ConnectDestroyed(s, c))
  {
    hide Apply;
  }

  lemma AcceptEvolves(s: System, home: LoopId, fd: int)
    requires home < |s.loops|
    ensures Evolves(s, NewConnection(s, home, fd))
  {
    hide Apply;
    var t := NewConnection(s, home, fd);
    forall c | 0 <= c < |s.conns|
      ensures Further(s.conns[c], t.conns[c])
    {
    }
  }

  lemma TaskEvolves(s: System, task: Task, waits: bool)
    requires Known(s, task.conn)
    ensures Evolves(s, RunOne(s, task, waits))
  {
    hide Apply;
    var c := task.conn;
    match task {
      case Establish(_) =>
        CallEvolves(s, c, s.conns[c].(state := Output.Connected, established := true, ups := s.conns[c].ups + 1), EnableReading);
      case Remove(_) => RemoveEvolves(s, c);
      case Destroy(_) => DestroyEvolves(s, c);
      case LateSend(_) => SendEvolves(s, c, waits);
    }
  }

  lemma SendEvolves(s: System, c: ConnId, waits: bool)
    requires Known(s, c)
    ensures Evolves(s, EnableWritingIf(s, c, waits))
  {
    hide Apply;
    CallEvolves(s, c, s.conns[c], EnableWriting);
    assert SetConn(s, c, s.conns[c]) == s;
  }

  /** The state before a step, once its loop has taken the head of its queue, started a batch,
      returned from poll or gone on to the next active connection. */
  function Prepared(s: System, step: Step): System
    requires Enabled(s, step)
  {
    match step
    case RunTask(l, _) => Popped(s, l)
    case StartBatch(l) => Next(s, step)
    case PollReturn(l, _) => Next(s, step)
    case Handled(l) => Next(s, step)
    case _ => s
  }

  lemma StepEvolves(s: System, step: Step)
    requires Enabled(s, step)
    ensures Evolves(Prepared(s, step), Next(s, step))
    ensures Prepared(s, step).conns == s.conns
  {
    hide Apply, NewConnection, CloseConn, RunOne, EnableWritingIf, OnChannel, Evolves;
    match step {
      case Accept(home, fd) => AcceptEvolves(s, home, fd);
      case HandleClose(l) => CloseEvolves(s, s.loops[l].active[0]);
      case Drained(l) => DrainEvolves(s, s.loops[l].active[0]);
      case RunTask(l, waits) => TaskEvolves(Popped(s, l), s.loops[l].queue[0], waits);
      case InLoopSend(_, c) => SendEvolves(s, c, true);
      case _ => PlainStepEvolves(s, step);
    }
  }

  lemma DrainEvolves(s: System, c: ConnId)
    requires Known(s, c)
    ensures Evolves(s, OnChannel(s, c, DisableWriting))
  {
    hide Apply;
    CallEvolves(s, c, s.conns[c], DisableWriting);
    assert SetConn(s, c, s.conns[c]) == s;
  }

  /** A step that makes no call on a channel and creates none. */
  predicate IsPlain(step: Step) {
    !step.Accept? && !step.HandleClose? && !step.Drained? && !step.RunTask? && !step.InLoopSend?
  }

  lemma PlainStepEvolves(s: System, step: Step)
    requires Enabled(s, step) && IsPlain(step)
    ensures Evolves(Prepared(s, step), Next(s, step))
    ensures Prepared(s, step).conns == s.conns
  {
  }

  lemma StepGoesFurther(s: System, step: Step, c: ConnId)
    requires Enabled(s, step) && c < |s.conns|
    ensures c < |Next(s, step).conns| && Further(s.conns[c], Next(s, step).conns[c])
  {
    StepEvolves(s, step);
  }

  /** A connection passes through the stages in order: along any run its stage never
      decreases. */
  lemma {:induction false} StagesAdvance(s: System, steps: seq<Step>, c: ConnId)
    requires CanExec(s, steps) && c < |s.conns|
    ensures c < |Exec(s, steps).conns|
    ensures Further(s.conns[c], Exec(s, steps).conns[c])
    ensures Rank(StageOf(s.conns[c])) <= Rank(StageOf(Exec(s, steps).conns[c]))
    decreases |steps|
  {
    hide Apply;
    if steps != [] {
      StepGoesFurther(s, steps[0], c);
      StagesAdvance(Next(s, steps[0]), steps[1..], c);
      FurtherRank(s.conns[c], Exec(s, steps).conns[c]);
    }
  }

  /** `connectDestroyed` is queued at most once, only on the connection's own loop and only
      after it was established, however often `handleClose` ran. */
  lemma DestroyQueuedOnce(n: nat, steps: seq<Step>, c: ConnId)
    requires IsRun(n, steps) && c < |After(n, steps).conns|
    ensures var s := After(n, steps);
      && s.conns[c].destroyed <= s.conns[c].issued <= 1
      && (s.conns[c].issued == 1 ==> s.conns[c].established && s.conns[c].closes > 0)
      && (forall l :: 0 <= l < |s.loops| ==>
            Queued(s, l, Destroy(c)) == if l == s.conns[c].home then s.conns[c].issued - s.conns[c].destroyed else 0)
  {
    RunInv(n, steps);
    var s := After(n, steps);
    assert TasksOk(s, c);
    forall l | 0 <= l < |s.loops|
      ensures Queued(s, l, Destroy(c)) == if l == s.conns[c].home then s.conns[c].issued - s.conns[c].destroyed else 0
    {
      assert QueueOk(s, c, l);
    }
  }

  // ----- every functor is run by its batch --------------------------------------------------

  predicate Done(conn: Conn, task: Task) {
    match task
    case Establish(_) => conn.established
    case Remove(_) => conn.issued > 0
    case Destroy(_) => conn.destroyed > 0
    case LateSend(_) => true
  }

  /** What the functor is for has happened, or it is in the batch being run. */
  predicate Settled(s: System, l: LoopId, task: Task)
    requires l < |s.loops| && task.conn < |s.conns|
  {
    Done(s.conns[task.conn], task) || task in s.loops[l].queue[..Cap(s.loops[l])]
  }

  function Cap(loop: Loop): (k: nat)
    ensures k <= |loop.queue|
  {
    if loop.batch <= |loop.queue| then loop.batch else |loop.queue|
  }

  /** How a step changes the functor queue of loop `l`: the head goes when a functor runs,
      and new functors come in at the back. */
  lemma StepQueue(s: System, step: Step, l: LoopId)
    requires Enabled(s, step) && l < |s.loops|
    ensures var t := Next(s, step);
      && |t.loops| == |s.loops|
      && (if step.RunTask? && step.loop == l then
            s.loops[l].queue[1..] <= t.loops[l].queue && t.loops[l].batch == s.loops[l].batch - 1
          else
            s.loops[l].queue <= t.loops[l].queue &&
            t.loops[l].batch == (if step == StartBatch(l) then |s.loops[l].queue| else s.loops[l].batch))
  {
    StepEvolves(s, step);
    assert QueueGrows(Prepared(s, step).loops[l], Next(s, step).loops[l]);
  }

  lemma StepSettles(s: System, step: Step, l: LoopId, task: Task)
    requires Inv(s) && Enabled(s, step) && Clean(s, step) && l < |s.loops| && task.conn < |s.conns| && Settled(s, l, task)
    ensures var t := Next(s, step);
      l < |t.loops| && task.conn < |t.conns| && Settled(t, l, task)
  {
    hide Apply, Next, Clean;
    var t := Next(s, step);
    StepQueue(s, step, l);
    StepGoesFurther(s, step, task.conn);
    StepShape(s, step);
    assert LoopShape(s, l) && LoopShape(t, l);
    var before, after := s.loops[l].queue, t.loops[l].queue;
    if !Done(s.conns[task.conn], task) {
      var k :| 0 <= k < s.loops[l].batch && before[k] == task;
      if step.RunTask? && step.loop == l {
        if k == 0 {
          TaskDone(s, l, step.waits);
        } else {
          assert after[k - 1] == before[1..][k - 1] == task;
          assert after[..t.loops[l].batch][k - 1] == task;
        }
      } else {
        assert after[k] == task;
        assert after[..t.loops[l].batch][k] == task;
      }
    }
  }

  /** The functor at the head of the queue does what it is for. */
  lemma TaskDone(s: System, l: LoopId, waits: bool)
    requires Inv(s) && Enabled(s, RunTask(l, waits)) && Clean(s, RunTask(l, waits))
    ensures var c := s.loops[l].queue[0].conn;
      c < |Next(s, RunTask(l, waits)).conns| && Done(Next(s, RunTask(l, waits)).conns[c], s.loops[l].queue[0])
  {
    hide Apply;
    var c := s.loops[l].queue[0].conn;
    assert TasksOk(s, c);
  }

  lemma {:induction false} RunSettles(s: System, steps: seq<Step>, l: LoopId, task: Task)
    requires Inv(s) && CanExec(s, steps) && CleanRun(s, steps) && l < |s.loops| && task.conn < |s.conns| && Settled(s, l, task)
    ensures var t := Exec(s, steps);
      l < |t.loops| && task.conn < |t.conns| && Settled(t, l, task)
    decreases |steps|
  {
    if steps != [] {
      StepSettles(s, steps[0], l, task);
      StepKeepsInvIffClean(s, steps[0]);
      RunSettles(Next(s, steps[0]), steps[1..], l, task);
    }
  }

  /** A clean run in which loop `l` starts a batch and in the end has none to finish. */
  predicate RunsBatch(s: System, l: LoopId, after: seq<Step>) {
    && Enabled(s, StartBatch(l))
    && CanExec(Next(s, StartBatch(l)), after) && CleanRun(Next(s, StartBatch(l)), after)
    && var t := Exec(Next(s, StartBatch(l)), after); l < |t.loops| && t.loops[l].batch == 0
  }

  function AfterBatch(s: System, l: LoopId, after: seq<Step>): System
    requires RunsBatch(s, l, after)
  {
    Exec(Next(s, StartBatch(l)), after)
  }

  /** A functor that is queued when a loop starts a batch has done its work once that batch is
      used up, whatever the other loops do meanwhile. */
  lemma BatchRunsTask(s: System, l: LoopId, task: Task, after: seq<Step>)
    requires Inv(s) && RunsBatch(s, l, after) && task in s.loops[l].queue
    ensures var t := AfterBatch(s, l, after);
      task.conn < |t.conns| && Done(t.conns[task.conn], task)
  {
    var started := Next(s, StartBatch(l));
    assert LoopShape(s, l);
    StepKeepsInvIffClean(s, StartBatch(l));
    assert started.loops[l].queue[..|s.loops[l].queue|] == s.loops[l].queue;
    RunSettles(started, after, l, task);
  }

  /** A batch keeps the invariant and takes no progress back. */
  lemma BatchGoesFurther(s: System, l: LoopId, after: seq<Step>, c: ConnId)
    requires Inv(s) && RunsBatch(s, l, after) && c < |s.conns|
    ensures var t := AfterBatch(s, l, after);
      Inv(t) && c < |t.conns| && Further(s.conns[c], t.conns[c])
  {
    var started := Next(s, StartBatch(l));
    StepKeepsInvIffClean(s, StartBatch(l));
    AlwaysInv(started, after);
    StagesAdvance(started, after, c);
  }

  /** A closed connection is destroyed after one batch of loop 0 and then one of its home loop,
      whatever happens in between and however the loops interleave. */
  lemma ClosedIsDestroyed(s: System, c: ConnId, first: seq<Step>, gap: seq<Step>, last: seq<Step>)
    requires Inv(s) && c < |s.conns| && s.conns[c].closes > 0
    requires RunsBatch(s, 0, first)
    requires CanExec(AfterBatch(s, 0, first), gap) && CleanRun(AfterBatch(s, 0, first), gap)
    requires RunsBatch(Exec(AfterBatch(s, 0, first), gap), s.conns[c].home, last)
    ensures var t := AfterBatch(Exec(AfterBatch(s, 0, first), gap), s.conns[c].home, last);
      c < |t.conns| && t.conns[c].destroyed == 1
  {
    hide Apply;
    var s1 := AfterBatch(s, 0, first);
    var s2 := Exec(s1, gap);
    assert TasksOk(s, c);
    if s.conns[c].issued == 0 {
      BatchRunsTask(s, 0, Remove(c), first);
    }
    BatchGoesFurther(s, 0, first, c);
    AlwaysInv(s1, gap);
    StagesAdvance(s1, gap, c);
    DestroyRuns(s2, c, last);
  }

  lemma DestroyRuns(s: System, c: ConnId, last: seq<Step>)
    requires Inv(s) && c < |s.conns| && s.conns[c].issued > 0 && RunsBatch(s, s.conns[c].home, last)
    ensures var t := AfterBatch(s, s.conns[c].home, last);
      c < |t.conns| && t.conns[c].destroyed == 1
  {
    var home := s.conns[c].home;
    assert TasksOk(s, c) && QueueOk(s, c, home);
    if s.conns[c].destroyed == 0 {
      InQueue(s, home, Destroy(c));
      BatchRunsTask(s, home, Destroy(c), last);
    }
    BatchGoesFurther(s, home, last, c);
    assert TasksOk(AfterBatch(s, home, last), c);
  }

  // ----- dispatch and descriptors -----------------------------------------------------------

  /** Until a loop has dispatched its active channels, each of them is in the poller's map,
      its connection is referenced, and its descriptor is open. */
  lemma DispatchIsSafe(n: nat, steps: seq<Step>, l: LoopId, c: ConnId)
    requires IsRun(n, steps) && l < |After(n, steps).loops| && c in After(n, steps).loops[l].active
    ensures var s := After(n, steps);
      && c in s.loops[l].reg.slots && HasChannel(s.loops[l].reg, c)
      && c < |s.conns| && Referenced(s, c) && s.conns[c].open
  {
    RunInv(n, steps);
    var s := After(n, steps);
    ActiveFacts(s, l, c);
    assert ShapeOk(s, c) && RegOk(s, c);
    assert Agrees(s.loops[l].reg, c);
    if !Referenced(s, c) {
      UnreferencedIsDestroyed(s, c);
    }
  }

  /** No `epoll_ctl` call of any run fails, and each connection's channel index, its map entry
      and the kernel's interest list agree. */
  lemma PollersAgree(n: nat, steps: seq<Step>, l: LoopId)
    requires IsRun(n, steps) && l < |After(n, steps).loops|
    ensures var reg := After(n, steps).loops[l].reg;
      reg.faults == 0 && forall c :: c in reg.slots ==> Agrees(reg, c)
  {
    RunInv(n, steps);
  }

  /** The connections whose dispatch on loop `l` ends during a run, in order. */
  function Dispatched(s: System, steps: seq<Step>, l: LoopId): seq<ConnId>
    requires CanExec(s, steps)
    decreases |steps|
  {
    if steps == [] then []
    else (if steps[0] == Handled(l) then [s.loops[l].active[0]] else []) + Dispatched(Next(s, steps[0]), steps[1..], l)
  }

  lemma StepActive(s: System, step: Step, l: LoopId)
    requires Enabled(s, step) && l < |s.loops| && !(step.PollReturn? && step.loop == l)
    ensures l < |Next(s, step).loops|
    ensures s.loops[l].active == (if step == Handled(l) then [s.loops[l].active[0]] else []) + Next(s, step).loops[l].active
  {
    StepEvolves(s, step);
    assert QueueGrows(Prepared(s, step).loops[l], Next(s, step).loops[l]);
    if step == Handled(l) {
      assert s.loops[l].active == [s.loops[l].active[0]] + s.loops[l].active[1..];
    } else {
      assert Prepared(s, step).loops[l].active == s.loops[l].active;
    }
  }

  /** Until its next poll a loop dispatches its active connections in order and each once: those
      dispatched and those left are the active list. */
  lemma {:induction false} DispatchedInOrder(s: System, steps: seq<Step>, l: LoopId)
    requires CanExec(s, steps) && l < |s.loops|
    requires forall k :: 0 <= k < |steps| ==> !(steps[k].PollReturn? && steps[k].loop == l)
    ensures l < |Exec(s, steps).loops|
    ensures s.loops[l].active == Dispatched(s, steps, l) + Exec(s, steps).loops[l].active
    decreases |steps|
  {
    hide Apply, Next, Enabled;
    if steps != [] {
      assert !(steps[0].PollReturn? && steps[0].loop == l);
      StepActive(s, steps[0], l);
      DispatchedInOrder(Next(s, steps[0]), steps[1..], l);
    }
  }

  /** Poll's channels are dispatched in order and each once, and a loop whose dispatch is over
      has dispatched them all. */
  lemma PolledAreDispatched(s: System, l: LoopId, active: seq<ConnId>, steps: seq<Step>)
    requires Enabled(s, PollReturn(l, active)) && CanExec(Next(s, PollReturn(l, active)), steps)
    requires forall k :: 0 <= k < |steps| ==> !(steps[k].PollReturn? && steps[k].loop == l)
    ensures var t := Exec(Next(s, PollReturn(l, active)), steps);
      && l < |t.loops|
      && active == Dispatched(Next(s, PollReturn(l, active)), steps, l) + t.loops[l].active
      && (Enabled(t, StartBatch(l)) ==> active == Dispatched(Next(s, PollReturn(l, active)), steps, l))
  {
    DispatchedInOrder(Next(s, PollReturn(l, active)), steps, l);
  }

  predicate FdUnused(s: System, fd: int) {
    forall l :: 0 <= l < |s.loops| ==> fd !in s.loops[l].reg.channels && fd !in s.loops[l].reg.kernel
  }

  /** Only an open, established and undestroyed connection can stand under a descriptor. */
  lemma HolderIsOpen(s: System, l: LoopId, fd: int)
    requires Inv(s) && l < |s.loops| && (fd in s.loops[l].reg.channels || fd in s.loops[l].reg.kernel)
    ensures exists c :: 0 <= c < |s.conns| && s.conns[c].open && s.conns[c].fd == fd && s.conns[c].destroyed == 0
  {
    var reg := s.loops[l].reg;
    assert LoopShape(s, l);
    assert fd in reg.kernel ==> Agrees(reg, reg.kernel[fd].owner);
    var c := reg.channels[fd];
    assert Agrees(reg, c);
    assert ShapeOk(s, c) && RegOk(s, c);
  }

  /** A descriptor that no undestroyed open connection has stands nowhere. */
  lemma UnheldIsUnused(s: System, fd: int)
    requires Inv(s)
    requires forall c :: 0 <= c < |s.conns| && s.conns[c].open && s.conns[c].destroyed == 0 ==> s.conns[c].fd != fd
    ensures FdUnused(s, fd)
  {
    forall l | 0 <= l < |s.loops|
      ensures fd !in s.loops[l].reg.channels && fd !in s.loops[l].reg.kernel
    {
      if fd in s.loops[l].reg.channels || fd in s.loops[l].reg.kernel {
        HolderIsOpen(s, l, fd);
      }
    }
  }

  /** A descriptor is closed only when no poller's map and no interest list has it, and a
      descriptor that the kernel hands out again finds nothing stale under its number. */
  lemma FdReuseNeverCollides(n: nat, steps: seq<Step>, step: Step)
    requires IsRun(n, steps) && Enabled(After(n, steps), step)
    ensures var s := After(n, steps);
      && (step.Accept? ==> FdUnused(s, step.fd))
      && (step.Release? ==> FdUnused(s, s.conns[step.conn].fd))
  {
    RunInv(n, steps);
    var s := After(n, steps);
    if step.Accept? {
      UnheldIsUnused(s, step.fd);
    } else if step.Release? {
      UnreferencedIsDestroyed(s, step.conn);
      UnheldIsUnused(s, s.conns[step.conn].fd);
    }
  }

  /** A connection's last reference goes, and its descriptor is closed, exactly once it is
      destroyed and no removal of it is pending; then the kernel may hand the number out again. */
  lemma ReleasedIffDestroyed(n: nat, steps: seq<Step>, c: ConnId)
    requires IsRun(n, steps) && c < |After(n, steps).conns|
    ensures var s := After(n, steps);
      && |s.loops| > 0
      && (Enabled(s, Release(c)) <==> s.conns[c].open && s.conns[c].destroyed == 1 && Remove(c) !in s.loops[0].queue)
      && (Enabled(s, Release(c)) ==> FreshFd(Next(s, Release(c)), s.conns[c].fd))
  {
    RunInv(n, steps);
    var s := After(n, steps);
    assert TasksOk(s, c);
    if Enabled(s, Release(c)) {
      UnreferencedIsDestroyed(s, c);
      assert !HoldsReference(s.loops[0].queue, c);
    } else if s.conns[c].destroyed == 1 && Remove(c) !in s.loops[0].queue {
      forall l | 0 <= l < |s.loops|
        ensures !HoldsReference(s.loops[l].queue, c)
      {
        assert QueueOk(s, c, l);
        InQueue(s, l, Establish(c));
        InQueue(s, l, Destroy(c));
      }
    }
  }

  // ----- callbacks --------------------------------------------------------------------------

  /** The up callback runs once, when the connection is established; each `handleClose` runs
      one down callback and `connectDestroyed` none, because it never finds the connection
      connected; and all `shutdown` calls together decide to half-close at most once. */
  lemma CallbackCounts(n: nat, steps: seq<Step>, c: ConnId)
    requires IsRun(n, steps) && c < |After(n, steps).conns|
    ensures var conn := After(n, steps).conns[c];
      && conn.ups == (if conn.established then 1 else 0)
      && conn.downs == conn.closes
      && (conn.downs > 0 ==> conn.ups == 1)
      && (conn.issued > 0 ==> conn.state != Output.Connected)
      && conn.decisions <= 1
  {
    RunInv(n, steps);
    var s := After(n, steps);
    assert TasksOk(s, c) && CallbacksOk(s.conns[c]);
  }
}
