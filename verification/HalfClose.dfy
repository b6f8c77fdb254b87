/** Writing interest, the half-close and high-water notifications, over every run. */
module HalfClose {
  import opened Buffers
  import opened Output
  import OutputLaws

  datatype Kind = SendKind | ShutdownKind | WriteCompleteKind | HighWaterKind

  function KindOf(task: Task): Kind {
    match task
    case SendTask(_, _) => SendKind
    case ShutdownTask => ShutdownKind
    case WriteCompleteTask => WriteCompleteKind
    case HighWaterTask(_) => HighWaterKind
  }

  function Count(queue: seq<Task>, kind: Kind): nat {
    if queue == [] then 0
    else (if KindOf(queue[0]) == kind then 1 else 0) + Count(queue[1..], kind)
  }

  lemma {:induction false} CountAppends(queue: seq<Task>, task: Task, kind: Kind)
    ensures Count(queue + [task], kind) == Count(queue, kind) + (if KindOf(task) == kind then 1 else 0)
  {
    if queue == [] {
      assert [] + [task] == [task];
    } else {
      assert (queue + [task])[1..] == queue[1..] + [task];
      CountAppends(queue[1..], task, kind);
    }
  }

  /** Messages that passed the state test of `send` and whose `sendInLoop` has not run. */
  function InFlight(s: Sys): nat {
    |s.checked| + Count(s.core.queue, SendKind)
  }

  /** Half-closes that some `shutdown` has decided on and that have not run. */
  function Scheduled(s: Sys): nat {
    s.owed + Count(s.core.queue, ShutdownKind)
  }

  /** Connected once and no longer: no state test of `send` or `shutdown` passes again. */
  predicate Over(s: Sys) {
    s.established && s.core.state != Connected
  }

  predicate Ok(s: Sys) {
    && (s.core.writing ==> s.core.backlog != [])
    && (!s.closed ==> (s.core.writing <==> s.core.backlog != []))
    && (s.core.state == Connected ==> s.established)
    && (s.closed ==> Over(s))
    && (Scheduled(s) > 0 ==> Over(s))
    && Scheduled(s) <= 1
    && (InFlight(s) > 0 ==> s.established)
  }

  // ----- one step -------------------------------------------------------------------------

  /** How a step changes the numbers of waiting functors. */
  lemma StepCounts(s: Sys, step: Step)
    requires Enabled(s, step)
    ensures var s' := Next(s, step);
      && Scheduled(s') == Scheduled(s)
           + (if step.ForeignShutdown? && s.core.state == Connected then 1 else 0)
           - (if step.RunTask? && s.core.queue[0].ShutdownTask? then 1 else 0)
      && InFlight(s') == InFlight(s)
           + (if step.CheckSend? then 1 else 0)
           - (if step.RunTask? && s.core.queue[0].SendTask? then 1 else 0)
  {
    hide SendInLoop, HandleWrite, Count;
    match step {
      case InLoopSend(data, reply) =>
        if s.core.state == Connected { SendCounts(s.core, data, reply); }
      case PushSend(t) => PushSendCounts(s, t);
      case PushShutdown => PushShutdownCounts(s);
      case RunTask(reply) => TaskCounts(s, reply);
      case WriteReady(reply) => DrainCounts(s.core, reply);
      case _ =>
    }
  }

  lemma PushSendCounts(s: Sys, t: nat)
    requires t in s.checked
    ensures var s' := Next(s, PushSend(t));
      Scheduled(s') == Scheduled(s) && InFlight(s') == InFlight(s)
  {
    CountAppends(s.core.queue, SendTask(t, s.checked[t]), SendKind);
    CountAppends(s.core.queue, SendTask(t, s.checked[t]), ShutdownKind);
    assert (s.checked - {t}).Keys == s.checked.Keys - {t};
  }

  lemma PushShutdownCounts(s: Sys)
    requires s.owed > 0
    ensures var s' := Next(s, PushShutdown);
      Scheduled(s') == Scheduled(s) && InFlight(s') == InFlight(s)
  {
    CountAppends(s.core.queue, ShutdownTask, SendKind);
    CountAppends(s.core.queue, ShutdownTask, ShutdownKind);
  }

  lemma DrainCounts(c: Core, reply: Reply)
    requires Fits(reply, |c.backlog|)
    ensures var c' := HandleWrite(c, reply).core;
      Count(c'.queue, SendKind) == Count(c.queue, SendKind) && Count(c'.queue, ShutdownKind) == Count(c.queue, ShutdownKind)
  {
    CountAppends(c.queue, WriteCompleteTask, SendKind);
    CountAppends(c.queue, WriteCompleteTask, ShutdownKind);
  }

  lemma TaskCounts(s: Sys, reply: Reply)
    requires Enabled(s, RunTask(reply))
    ensures var s' := Next(s, RunTask(reply));
      && Scheduled(s') == Scheduled(s) - (if s.core.queue[0].ShutdownTask? then 1 else 0)
      && InFlight(s') == InFlight(s) - (if s.core.queue[0].SendTask? then 1 else 0)
  {
    if s.core.queue[0].SendTask? {
      SendCounts(s.core.(queue := s.core.queue[1..]), s.core.queue[0].data, reply);
    }
  }

  lemma SendCounts(c: Core, data: seq<byte>, reply: Reply)
    requires Fits(reply, |data|)
    ensures var c' := SendInLoop(c, data, reply).core;
      && Count(c'.queue, SendKind) == Count(c.queue, SendKind)
      && Count(c'.queue, ShutdownKind) == Count(c.queue, ShutdownKind)
      && Count(c'.queue, HighWaterKind) == Count(c.queue, HighWaterKind)
           + (if c.cfg.onHighWater && |c.backlog| < c.cfg.mark <= |c'.backlog| then 1 else 0)
  {
    var total := SendInLoop(c, data, reply).core.backlog;
    var c1 := PostIf(c, Direct(c) && reply == Wrote(|data|) && c.cfg.onWriteComplete, WriteCompleteTask);
    forall kind | kind != WriteCompleteKind
      ensures Count(c1.queue, kind) == Count(c.queue, kind)
    {
      CountAppends(c.queue, WriteCompleteTask, kind);
    }
    forall kind
      ensures Count(c1.queue + [HighWaterTask(|total|)], kind) == Count(c1.queue, kind) + (if kind == HighWaterKind then 1 else 0)
    {
      CountAppends(c1.queue, HighWaterTask(|total|), kind);
    }
  }

  /** Whatever a step does, writing interest follows the backlog until the connection is
      closed, and SHUT_WR is issued over an empty backlog until then. */
  lemma StepOk(s: Sys, step: Step)
    requires Ok(s) && Enabled(s, step)
    ensures Ok(Next(s, step))
    ensures Over(s) ==> Over(Next(s, step))
    ensures Run(s, step).fin ==> Over(Next(s, step)) && !Next(s, step).core.writing
    ensures Run(s, step).fin && !s.closed ==> Next(s, step).core.backlog == []
  {
    StepCounts(s, step);
    if step.RunTask? {
      TaskOk(s, step.reply);
    }
  }

  lemma TaskOk(s: Sys, reply: Reply)
    requires Ok(s) && Enabled(s, RunTask(reply))
    ensures Ok(Next(s, RunTask(reply)))
    ensures Over(s) ==> Over(Next(s, RunTask(reply)))
    ensures Run(s, RunTask(reply)).fin ==> Over(s)
  {
    StepCounts(s, RunTask(reply));
    var task := s.core.queue[0];
    if task.ShutdownTask? {
      assert Count(s.core.queue, ShutdownKind) > 0;
    } else if task.SendTask? {
      assert Count(s.core.queue, SendKind) > 0;
    }
  }

  lemma {:induction false} AlwaysOk(s: Sys, steps: seq<Step>)
    requires Ok(s) && CanExec(s, steps)
    ensures Ok(Exec(s, steps))
    ensures Over(s) ==> Over(Exec(s, steps))
    decreases |steps|
  {
    if steps != [] {
      StepOk(s, steps[0]);
      AlwaysOk(Next(s, steps[0]), steps[1..]);
    }
  }

  // ----- every run ------------------------------------------------------------------------

  /** Until `handleClose` runs, after any handler writing interest is on iff bytes wait, and
      a step that issues SHUT_WR leaves nothing waiting. */
  lemma InterestFollowsBacklog(cfg: Config, steps: seq<Step>, step: Step)
    requires CanExec(Initial(cfg), steps) && Enabled(Exec(Initial(cfg), steps), step)
    requires !Exec(Initial(cfg), steps).closed
    ensures var s := Exec(Initial(cfg), steps);
      && (s.core.writing <==> s.core.backlog != [])
      && (Run(s, step).fin ==> Next(s, step).core.backlog == [])
  {
    AlwaysOk(Initial(cfg), steps);
    StepOk(Exec(Initial(cfg), steps), step);
  }

  predicate IsShutdown(step: Step) {
    step.InLoopShutdown? || step.ForeignShutdown?
  }

  /** The `shutdown` call that finds the connection connected. */
  predicate Decides(s: Sys, step: Step) {
    IsShutdown(step) && s.core.state == Connected
  }

  /** How often some `shutdown` call decides to half-close. */
  function Decisions(s: Sys, steps: seq<Step>): nat
    requires CanExec(s, steps)
    decreases |steps|
  {
    if steps == [] then 0
    else
      (if Decides(s, steps[0]) then 1 else 0)
      + Decisions(Next(s, steps[0]), steps[1..])
  }

  /** However many threads call `shutdown`, and however often, the half-close is decided at
      most once in the life of a connection. */
  lemma ShutdownDecidedOnce(cfg: Config, steps: seq<Step>)
    requires CanExec(Initial(cfg), steps)
    ensures Decisions(Initial(cfg), steps) <= 1
  {
    DecisionsLeft(Initial(cfg), steps);
  }

  lemma {:induction false} DecisionsLeft(s: Sys, steps: seq<Step>)
    requires Ok(s) && CanExec(s, steps)
    ensures Decisions(s, steps) <= if Over(s) then 0 else 1
    decreases |steps|
  {
    if steps != [] {
      StepOk(s, steps[0]);
      DecisionsLeft(Next(s, steps[0]), steps[1..]);
    }
  }

  // ----- the FIN comes last ------------------------------------------------------------------

  /** The kernel's answer to the `write` of a step, if it makes one. */
  function WriteReply(s: Sys, step: Step): Option<Reply>
    requires Enabled(s, step)
  {
    var call := SendCall(s, step);
    if call.Some? && Direct(s.core) then Some(call.value.reply)
    else if step.WriteReady? && s.core.writing then Some(step.reply)
    else None
  }

  /** Every `write` of the run fails for good. */
  predicate WritesRefused(s: Sys, steps: seq<Step>)
    requires CanExec(s, steps)
    decreases |steps|
  {
    steps == [] ||
    ((WriteReply(s, steps[0]).Some? ==> WriteReply(s, steps[0]).value == Fatal) && WritesRefused(Next(s, steps[0]), steps[1..]))
  }

  /** What a kernel does: after SHUT_WR it refuses to write. */
  predicate RefusedAfterFin(s: Sys, steps: seq<Step>)
    requires CanExec(s, steps)
    decreases |steps|
  {
    steps == [] ||
    (if Run(s, steps[0]).fin then WritesRefused(Next(s, steps[0]), steps[1..]) else RefusedAfterFin(Next(s, steps[0]), steps[1..]))
  }

  /** No half-close is issued while a message of another thread is in flight. */
  predicate NothingOvertaken(s: Sys, steps: seq<Step>)
    requires CanExec(s, steps)
    decreases |steps|
  {
    steps == [] ||
    ((Run(s, steps[0]).fin ==> InFlight(Next(s, steps[0])) == 0) && NothingOvertaken(Next(s, steps[0]), steps[1..]))
  }

  /** No other thread sends. */
  predicate LoopSends(steps: seq<Step>) {
    forall k :: 0 <= k < |steps| ==> !steps[k].CheckSend?
  }

  predicate LoopShutdowns(steps: seq<Step>) {
    forall k :: 0 <= k < |steps| ==> !steps[k].ForeignShutdown?
  }

  lemma {:induction false} LoopSendsOvertakeNothing(s: Sys, steps: seq<Step>)
    requires Ok(s) && InFlight(s) == 0 && CanExec(s, steps) && LoopSends(steps)
    ensures NothingOvertaken(s, steps) && InFlight(Exec(s, steps)) == 0
    decreases |steps|
  {
    if steps != [] {
      assert !steps[0].CheckSend?;
      StepOk(s, steps[0]);
      StepCounts(s, steps[0]);
      LoopSendsOvertakeNothing(Next(s, steps[0]), steps[1..]);
    }
  }

  /** Then no `write` at all follows a half-close, so that nothing needs refusing. */
  lemma {:induction false} OvertakingNothingWritesNothing(s: Sys, steps: seq<Step>)
    requires Ok(s) && CanExec(s, steps) && NothingOvertaken(s, steps)
    ensures RefusedAfterFin(s, steps)
    decreases |steps|
  {
    if steps != [] {
      StepOk(s, steps[0]);
      if Run(s, steps[0]).fin {
        SpentWritesNothing(Next(s, steps[0]), steps[1..]);
      } else {
        OvertakingNothingWritesNothing(Next(s, steps[0]), steps[1..]);
      }
    }
  }

  lemma {:induction false} SpentWritesNothing(s: Sys, steps: seq<Step>)
    requires Ok(s) && Over(s) && InFlight(s) == 0 && !s.core.writing && CanExec(s, steps)
    ensures WritesRefused(s, steps)
    decreases |steps|
  {
    if steps != [] {
      SpentStep(s, steps[0]);
      SpentWritesNothing(Next(s, steps[0]), steps[1..]);
    }
  }

  lemma SpentStep(s: Sys, step: Step)
    requires Ok(s) && Over(s) && InFlight(s) == 0 && !s.core.writing && Enabled(s, step)
    ensures var t := Next(s, step);
      Ok(t) && Over(t) && InFlight(t) == 0 && !t.core.writing
    ensures WriteReply(s, step).None?
  {
    StepOk(s, step);
    StepCounts(s, step);
    if step.RunTask? {
      assert !s.core.queue[0].SendTask?;
    }
  }

  function Fins(s: Sys, steps: seq<Step>): nat
    requires CanExec(s, steps)
    decreases |steps|
  {
    if steps == [] then 0
    else (if Run(s, steps[0]).fin then 1 else 0) + Fins(Next(s, steps[0]), steps[1..])
  }

  function FinRun(n: nat): seq<Wire> {
    seq(n, _ => Fin)
  }

  /** Nothing waits and no writing interest is on. */
  predicate Drained(c: Core) {
    !c.writing && c.backlog == []
  }

  /** A half-close is behind it: only a half-close already scheduled can follow. */
  predicate Finished(s: Sys) {
    Ok(s) && Over(s) && (s.closed || Drained(s.core))
  }

  lemma RefusedStep(s: Sys, step: Step)
    requires Finished(s) && Enabled(s, step) && (WriteReply(s, step).Some? ==> WriteReply(s, step).value == Fatal)
    ensures var t := Next(s, step);
      && Finished(t) && Run(s, step).bytes == []
      && Scheduled(t) + (if Run(s, step).fin then 1 else 0) <= Scheduled(s)
      && (Drained(s.core) ==> Drained(t.core) && Scheduled(t) + (if Run(s, step).fin then 1 else 0) == Scheduled(s))
      && (s.closed ==> t.closed)
  {
    StepOk(s, step);
    StepCounts(s, step);
  }

  /** Once writes are refused, the wire gets at most one half-close for each scheduled one that
      runs, and exactly one if nothing waits. */
  lemma {:induction false} RefusedRun(s: Sys, steps: seq<Step>)
    requires Finished(s) && CanExec(s, steps) && WritesRefused(s, steps)
    ensures var t := Exec(s, steps);
      && Bytes(s, steps) == [] && WireOf(s, steps) == FinRun(Fins(s, steps))
      && Scheduled(t) + Fins(s, steps) <= Scheduled(s)
      && (Drained(s.core) ==> Drained(t.core) && Scheduled(t) + Fins(s, steps) == Scheduled(s))
      && !DrainedTooEarly(s, steps)
      && (s.closed ==> !FinWhileOpen(s, steps))
    decreases |steps|
  {
    if steps != [] {
      hide Run;
      RefusedStep(s, steps[0]);
      RefusedRun(Next(s, steps[0]), steps[1..]);
      FinFirst([], Fins(Next(s, steps[0]), steps[1..]));
      assert AsData([]) == [] && AsData([] + []) == [];
    }
  }

  /** The reply empties a backlog of `r` bytes: it takes them all or, retrieving again, at
      least half of them. */
  predicate Empties(reply: Reply, r: nat, again: bool) {
    reply.Wrote? && reply.n > 0 && (if again then 2 * reply.n >= r else reply.n == r)
  }

  /** A drain half-closes exactly when it empties the backlog while the state is Disconnecting. */
  lemma DrainFin(s: Sys, reply: Reply)
    requires Enabled(s, WriteReady(reply))
    ensures Run(s, WriteReady(reply)).fin <==>
            s.core.writing && s.core.state == Disconnecting && Empties(reply, |s.core.backlog|, s.core.cfg.retrieveAgain)
  {
  }

  /** Some drain empties the backlog, in state Disconnecting, while the functor of another
      thread's `shutdown` is still to run. */
  predicate DrainedTooEarly(s: Sys, steps: seq<Step>)
    requires CanExec(s, steps)
    decreases |steps|
  {
    steps != [] &&
    ((steps[0].WriteReady? && s.core.writing && s.core.state == Disconnecting && Scheduled(s) > 0
      && Empties(steps[0].reply, |s.core.backlog|, s.core.cfg.retrieveAgain))
     || DrainedTooEarly(Next(s, steps[0]), steps[1..]))
  }

  /** Some half-close is issued before the connection is closed. */
  predicate FinWhileOpen(s: Sys, steps: seq<Step>)
    requires CanExec(s, steps)
    decreases |steps|
  {
    steps != [] && ((Run(s, steps[0]).fin && !s.closed) || FinWhileOpen(Next(s, steps[0]), steps[1..]))
  }

  /** The step that issues a half-close. */
  lemma FinStep(s: Sys, step: Step)
    requires Ok(s) && Enabled(s, step) && Run(s, step).fin
    ensures var t := Next(s, step);
      && Finished(t) && (!s.closed ==> Drained(t.core)) && (s.closed ==> t.closed)
      && (step.WriteReady? ==> Drained(t.core))
      && (Scheduled(t) > 0 <==> step.WriteReady? && Scheduled(s) > 0)
  {
    StepOk(s, step);
    StepCounts(s, step);
    if step.RunTask? {
      assert s.core.queue[0].ShutdownTask?;
    }
  }

  lemma {:induction false} WireShape(s: Sys, steps: seq<Step>)
    requires Ok(s) && CanExec(s, steps) && RefusedAfterFin(s, steps)
    ensures WireOf(s, steps) == AsData(Bytes(s, steps)) + FinRun(Fins(s, steps))
    ensures FinWhileOpen(s, steps) ==> Exec(s, steps).core.backlog == []
    decreases |steps|
  {
    if steps == [] {
      assert AsData([]) + FinRun(0) == [];
    } else {
      var o := Run(s, steps[0]);
      var rest := steps[1..];
      StepOk(s, steps[0]);
      if o.fin {
        FinStep(s, steps[0]);
        RefusedRun(o.sys, rest);
        FinFirst(o.bytes, Fins(o.sys, rest));
      } else {
        WireShape(o.sys, rest);
        AsDataAppends(o.bytes, Bytes(o.sys, rest));
        Regroup(AsData(o.bytes), AsData(Bytes(o.sys, rest)), FinRun(Fins(o.sys, rest)));
      }
    }
  }

  lemma AsDataAppends(a: seq<byte>, b: seq<byte>)
    ensures AsData(a + b) == AsData(a) + AsData(b)
  {
  }

  lemma FinFirst(bytes: seq<byte>, n: nat)
    ensures AsData(bytes) + [Fin] + FinRun(n) == AsData(bytes + []) + FinRun(1 + n)
  {
    assert bytes + [] == bytes;
    assert [Fin] + FinRun(n) == FinRun(1 + n);
  }

  lemma Regroup<T>(a: seq<T>, b: seq<T>, c: seq<T>)
    ensures a + [] + (b + c) == a + b + c
  {
  }

  lemma {:induction false} TwiceIffDrainedTooEarly(s: Sys, steps: seq<Step>)
    requires Ok(s) && CanExec(s, steps) && RefusedAfterFin(s, steps)
    ensures Fins(s, steps) <= 2
    ensures Fins(s, steps) == 2 <==> DrainedTooEarly(s, steps) && Scheduled(Exec(s, steps)) == 0
    decreases |steps|
  {
    if steps != [] {
      StepOk(s, steps[0]);
      var next := Next(s, steps[0]);
      if steps[0].WriteReady? {
        DrainFin(s, steps[0].reply);
      }
      if Run(s, steps[0]).fin {
        FinStep(s, steps[0]);
        RefusedRun(next, steps[1..]);
      } else {
        TwiceIffDrainedTooEarly(next, steps[1..]);
      }
    }
  }

  /** Whoever sends, and whenever the connection is closed: with a kernel that refuses to write
      after SHUT_WR, the wire carries data, then half-closes and nothing more. Unless all of
      them came after the close, nothing is left waiting, and with the version that consumes
      once the data before them is every kept message in full. */
  lemma HalfCloseLast(cfg: Config, steps: seq<Step>)
    requires CanExec(Initial(cfg), steps) && RefusedAfterFin(Initial(cfg), steps)
    ensures var s := Initial(cfg);
      && WireOf(s, steps) == AsData(Bytes(s, steps)) + FinRun(Fins(s, steps))
      && (FinWhileOpen(s, steps) ==> Exec(s, steps).core.backlog == [])
      && (FinWhileOpen(s, steps) && !cfg.retrieveAgain ==> Bytes(s, steps) == Flatten(Kept(s, steps)))
  {
    WireShape(Initial(cfg), steps);
    if !cfg.retrieveAgain && FinWhileOpen(Initial(cfg), steps) {
      OutputLaws.BytesConserved(Initial(cfg), steps);
      assert Bytes(Initial(cfg), steps) + [] == Bytes(Initial(cfg), steps);
    }
  }

  /** Then there are at most two half-closes, and two exactly when a drain empties the backlog
      of a Disconnecting connection while the functor of another thread's `shutdown` is still
      to run, and it runs later. With `shutdown` called only from the loop thread there is at
      most one. */
  lemma HalfClosesTwiceIff(cfg: Config, steps: seq<Step>)
    requires CanExec(Initial(cfg), steps) && RefusedAfterFin(Initial(cfg), steps)
    ensures var s := Initial(cfg);
      && Fins(s, steps) <= 2
      && (Fins(s, steps) == 2 <==> DrainedTooEarly(s, steps) && Scheduled(Exec(s, steps)) == 0)
      && (LoopShutdowns(steps) ==> Fins(s, steps) <= 1)
  {
    TwiceIffDrainedTooEarly(Initial(cfg), steps);
    if LoopShutdowns(steps) {
      LoopShutdownsDrainInTime(Initial(cfg), steps);
    }
  }

  /** When every send comes from the loop thread, no half-close overtakes a message and no
      `write` follows one: the two theorems above hold with any kernel. */
  lemma LoopSendsNeedNoRefusal(cfg: Config, steps: seq<Step>)
    requires CanExec(Initial(cfg), steps) && LoopSends(steps)
    ensures NothingOvertaken(Initial(cfg), steps) && RefusedAfterFin(Initial(cfg), steps)
  {
    LoopSendsOvertakeNothing(Initial(cfg), steps);
    OvertakingNothingWritesNothing(Initial(cfg), steps);
  }

  lemma {:induction false} LoopShutdownsDrainInTime(s: Sys, steps: seq<Step>)
    requires CanExec(s, steps) && Scheduled(s) == 0 && LoopShutdowns(steps)
    ensures !DrainedTooEarly(s, steps)
    decreases |steps|
  {
    if steps != [] {
      assert !steps[0].ForeignShutdown?;
      StepCounts(s, steps[0]);
      LoopShutdownsDrainInTime(Next(s, steps[0]), steps[1..]);
    }
  }

  /** Even if the kernel took bytes after a half-close: once past Connected, at most one
      half-close is left for each scheduled one, for each message in flight and for a backlog
      being drained. */
  lemma {:induction false} HalfClosesLeft(s: Sys, steps: seq<Step>)
    requires Ok(s) && Over(s) && CanExec(s, steps)
    ensures Fins(s, steps) <= Scheduled(s) + InFlight(s) + (if s.core.writing then 1 else 0)
    decreases |steps|
  {
    if steps != [] {
      StepOk(s, steps[0]);
      StepCounts(s, steps[0]);
      HalfClosesLeft(Next(s, steps[0]), steps[1..]);
    }
  }

  /** The connection is not closed during the run. */
  predicate StaysOpen(steps: seq<Step>) {
    forall k :: 0 <= k < |steps| ==> !steps[k].HandleClose? && !steps[k].Destroy?
  }

  /** Decided and not issued: a scheduled half-close, or a backlog that is drained first. */
  predicate Owes(s: Sys) {
    Over(s) && (Scheduled(s) > 0 || s.core.writing)
  }

  lemma StepOwes(s: Sys, step: Step)
    requires Ok(s) && !s.closed && Enabled(s, step) && !step.HandleClose? && !step.Destroy?
    requires Over(s) ==> s.core.state == Disconnecting
    ensures var t := Next(s, step);
      && Ok(t) && !t.closed && (Over(t) ==> t.core.state == Disconnecting)
      && (Owes(s) || Decides(s, step) ==> Run(s, step).fin || Owes(t))
      && (Run(s, step).fin || Over(t) ==> Over(s) || Decides(s, step))
  {
    StepOk(s, step);
    StepCounts(s, step);
    if step.RunTask? {
      assert s.core.queue[0].ShutdownTask? ==> Scheduled(s) > 0;
    }
  }

  lemma {:induction false} OwedFin(s: Sys, steps: seq<Step>)
    requires Ok(s) && !s.closed && CanExec(s, steps) && StaysOpen(steps)
    requires Over(s) ==> s.core.state == Disconnecting
    ensures var t := Exec(s, steps);
      && (Owes(s) || Decisions(s, steps) > 0 ==> Fins(s, steps) > 0 || Owes(t))
      && (Fins(s, steps) > 0 ==> Over(s) || Decisions(s, steps) > 0)
    decreases |steps|
  {
    if steps != [] {
      var next := Next(s, steps[0]);
      assert !steps[0].HandleClose? && !steps[0].Destroy?;
      StepOwes(s, steps[0]);
      OwedFin(next, steps[1..]);
    }
  }

  /** The half-close does happen: on a connection that stays open, once no `shutdown` functor is
      left and nothing waits, SHUT_WR was issued exactly if some `shutdown` decided on it. */
  lemma HalfCloseIssuedIffDecided(cfg: Config, steps: seq<Step>)
    requires CanExec(Initial(cfg), steps) && StaysOpen(steps)
    requires Scheduled(Exec(Initial(cfg), steps)) == 0 && !Exec(Initial(cfg), steps).core.writing
    ensures Fins(Initial(cfg), steps) > 0 <==> Decisions(Initial(cfg), steps) == 1
  {
    OwedFin(Initial(cfg), steps);
    ShutdownDecidedOnce(cfg, steps);
  }

  lemma {:induction false} ShutdownsOnly(s: Sys, steps: seq<Step>)
    requires s.core.state != Connected && CanExec(s, steps)
    requires forall k :: 0 <= k < |steps| ==> IsShutdown(steps[k])
    ensures Exec(s, steps) == if steps == [] then s else s.(core := s.core.(state := Disconnecting))
    decreases |steps|
  {
    if steps != [] {
      assert IsShutdown(steps[0]);
      ShutdownsOnly(Next(s, steps[0]), steps[1..]);
    }
  }

  /** Before `connectEstablished` any number of `shutdown` calls moves Connecting to
      Disconnecting, and establishing then forgets them. */
  lemma EarlyShutdownsForgotten(cfg: Config, steps: seq<Step>)
    requires CanExec(Initial(cfg), steps) && steps != []
    requires forall k :: 0 <= k < |steps| ==> IsShutdown(steps[k])
    ensures var s := Exec(Initial(cfg), steps);
      && s.core.state == Disconnecting
      && Enabled(s, Establish) && Next(s, Establish) == Next(Initial(cfg), Establish)
      && Next(s, Establish).core.state == Connected
  {
    ShutdownsOnly(Initial(cfg), steps);
  }

  /** `handleClose` turns all interest off, `connectDestroyed` only if it finds the connection
      up, and neither touches the backlog. Later `shutdown` calls move Disconnected back to
      Disconnecting, and nothing else. */
  lemma LateShutdownsShow(cfg: Config, before: seq<Step>, close: Step, after: seq<Step>)
    requires CanExec(Initial(cfg), before) && (close.HandleClose? || close.Destroy?) && Enabled(Exec(Initial(cfg), before), close)
    requires CanExec(Next(Exec(Initial(cfg), before), close), after) && after != []
    requires forall k :: 0 <= k < |after| ==> IsShutdown(after[k])
    ensures var s := Next(Exec(Initial(cfg), before), close);
      var up := Exec(Initial(cfg), before).core;
      && s.core == up.(state := Disconnected, writing := up.writing && close.Destroy? && up.state != Connected)
      && (s.closed <==> Exec(Initial(cfg), before).closed || close.HandleClose? || up.state == Connected)
      && Exec(s, after) == s.(core := s.core.(state := Disconnecting))
  {
    ShutdownsOnly(Next(Exec(Initial(cfg), before), close), after);
  }

  lemma Backlogged(a: byte, s: Sys)
    requires s.core.state == Connected && Direct(s.core) && !s.core.cfg.onHighWater
    ensures Run(s, InLoopSend([a], Blocked)) == Ran(s.(core := s.core.(writing := true, backlog := [a])), [], false)
  {
    assert s.core.backlog + [a] == [a];
  }

  lemma DrainsOne(a: byte, s: Sys)
    requires s.established && s.core.backlog == [a] && s.core.writing && s.core.state == Disconnecting && !s.core.cfg.onWriteComplete
    ensures Enabled(s, WriteReady(Wrote(1)))
    ensures Run(s, WriteReady(Wrote(1))) == Ran(s.(core := s.core.(writing := false, backlog := [])), [a], true)
  {
    assert [a][..1] == [a];
    assert Consume([a], 1, s.core.cfg.retrieveAgain) == [];
  }

  /** A connection whose first message, one byte, met a full kernel buffer. */
  function Waiting(a: byte, cfg: Config): Sys {
    Sys(Core(Connected, true, [a], [], cfg), true, false, map[], 0)
  }

  lemma Opening(a: byte, cfg: Config, rest: seq<Step>)
    requires !cfg.onHighWater && CanExec(Waiting(a, cfg), rest)
    ensures var steps := [Establish, InLoopSend([a], Blocked)] + rest;
      && CanExec(Initial(cfg), steps)
      && WireOf(Initial(cfg), steps) == WireOf(Waiting(a, cfg), rest)
      && Kept(Initial(cfg), steps) == [[a]] + Kept(Waiting(a, cfg), rest)
  {
    var s1 := Next(Initial(cfg), Establish);
    Backlogged(a, s1);
    OutputLaws.Cons(s1, InLoopSend([a], Blocked), rest);
    OutputLaws.Cons(Initial(cfg), Establish, [InLoopSend([a], Blocked)] + rest);
    assert [Establish] + ([InLoopSend([a], Blocked)] + rest) == [Establish, InLoopSend([a], Blocked)] + rest;
  }

  /** Such a run: a drain sees the state another thread has just set, and the functor of that
      `shutdown` then half-closes again. */
  lemma TwoFins(a: byte, cfg: Config)
    requires !cfg.onHighWater && !cfg.onWriteComplete
    ensures var steps := [Establish, InLoopSend([a], Blocked)] + [ForeignShutdown, WriteReady(Wrote(1)), PushShutdown, RunTask(Blocked)];
      && CanExec(Initial(cfg), steps) && LoopSends(steps)
      && WireOf(Initial(cfg), steps) == [Data(a), Fin, Fin]
      && DrainedTooEarly(Initial(cfg), steps)
  {
    TwoFinsWire(a, cfg);
    var steps := [Establish, InLoopSend([a], Blocked)] + [ForeignShutdown, WriteReady(Wrote(1)), PushShutdown, RunTask(Blocked)];
    LoopSendsNeedNoRefusal(cfg, steps);
    HalfClosesTwiceIff(cfg, steps);
    HalfCloseLast(cfg, steps);
    FinsFrom(WireOf(Initial(cfg), steps), 1, Bytes(Initial(cfg), steps), Fins(Initial(cfg), steps));
  }

  /** A half-close at position `i` is followed by half-closes only. */
  lemma FinsFrom(wire: seq<Wire>, i: nat, bytes: seq<byte>, n: nat)
    requires wire == AsData(bytes) + FinRun(n) && i < |wire| && wire[i] == Fin
    ensures n >= |wire| - i
  {
    assert forall k :: 0 <= k < |bytes| ==> wire[k] == AsData(bytes)[k];
  }

  lemma TwoFinsWire(a: byte, cfg: Config)
    requires !cfg.onHighWater && !cfg.onWriteComplete
    ensures var steps := [Establish, InLoopSend([a], Blocked)] + [ForeignShutdown, WriteReady(Wrote(1)), PushShutdown, RunTask(Blocked)];
      CanExec(Initial(cfg), steps) && WireOf(Initial(cfg), steps) == [Data(a), Fin, Fin]
  {
    var s2 := Waiting(a, cfg);
    var s3 := Next(s2, ForeignShutdown);
    DrainsOne(a, s3);
    var s4 := s3.(core := s3.core.(writing := false, backlog := []));
    LateShutdown(s4);
    OutputLaws.Cons(s3, WriteReady(Wrote(1)), [PushShutdown, RunTask(Blocked)]);
    OutputLaws.Cons(s2, ForeignShutdown, [WriteReady(Wrote(1)), PushShutdown, RunTask(Blocked)]);
    Opening(a, cfg, [ForeignShutdown, WriteReady(Wrote(1)), PushShutdown, RunTask(Blocked)]);
  }

  lemma LateShutdown(s: Sys)
    requires !s.core.writing && s.owed > 0 && s.core.queue == []
    ensures CanExec(s, [PushShutdown, RunTask(Blocked)]) && WireOf(s, [PushShutdown, RunTask(Blocked)]) == [Fin]
  {
    var s5 := Next(s, PushShutdown);
    OutputLaws.Cons(s5, RunTask(Blocked), []);
    OutputLaws.Cons(s, PushShutdown, [RunTask(Blocked)]);
  }

  // ----- sends from other threads: what a FIN can overtake ----------------------------------

  /** How often `sendInLoop` runs during `steps`. */
  function SendRuns(s: Sys, steps: seq<Step>): nat
    requires CanExec(s, steps)
    decreases |steps|
  {
    if steps == [] then 0
    else (if SendCall(s, steps[0]).Some? then 1 else 0) + SendRuns(Next(s, steps[0]), steps[1..])
  }

  /** Once a connection is past Connected, every message that still reaches `sendInLoop` was
      in flight at that moment, and each one in flight reaches it exactly once. */
  lemma {:induction false} LateSends(s: Sys, steps: seq<Step>)
    requires Over(s) && Ok(s) && CanExec(s, steps)
    ensures SendRuns(s, steps) + InFlight(Exec(s, steps)) == InFlight(s)
    decreases |steps|
  {
    if steps != [] {
      StepOk(s, steps[0]);
      StepCounts(s, steps[0]);
      LateSends(Next(s, steps[0]), steps[1..]);
    }
  }

  /** A half-close overtakes a message exactly when one is in flight as it is issued: on any
      continuation that leaves nothing in flight, some message is sent after the FIN iff one
      was in flight at the FIN. */
  lemma FinOvertakesIffInFlight(cfg: Config, before: seq<Step>, step: Step, after: seq<Step>)
    requires CanExec(Initial(cfg), before)
    requires var s := Exec(Initial(cfg), before);
      && Enabled(s, step) && Run(s, step).fin
      && CanExec(Next(s, step), after) && InFlight(Exec(Next(s, step), after)) == 0
    ensures var s := Next(Exec(Initial(cfg), before), step);
      SendRuns(s, after) > 0 <==> InFlight(s) > 0
  {
    AlwaysOk(Initial(cfg), before);
    StepOk(Exec(Initial(cfg), before), step);
    LateSends(Next(Exec(Initial(cfg), before), step), after);
  }

  /** `send(b); shutdown();` from another thread: the drain of an earlier message half-closes
      first, and the kernel then refuses the message. */
  lemma FinOvertakesSend(t: nat, a: byte, b: byte, cfg: Config)
    requires !cfg.onHighWater && !cfg.onWriteComplete
    ensures var steps := [Establish, InLoopSend([a], Blocked)]
                         + [CheckSend(t, [b]), PushSend(t), ForeignShutdown, WriteReady(Wrote(1)), RunTask(Fatal)];
      && CanExec(Initial(cfg), steps)
      && WireOf(Initial(cfg), steps) == [Data(a), Fin]
      && Kept(Initial(cfg), steps) == [[a]]
  {
    var s2 := Waiting(a, cfg);
    var s3 := s2.(checked := map[t := [b]]);
    var s4 := s2.(core := s2.core.(queue := [SendTask(t, [b])]));
    assert Next(s2, CheckSend(t, [b])) == s3 && Next(s3, PushSend(t)) == s4;
    OvertakesTail(t, a, b, s4);
    OutputLaws.Cons(s3, PushSend(t), [ForeignShutdown, WriteReady(Wrote(1)), RunTask(Fatal)]);
    OutputLaws.Cons(s2, CheckSend(t, [b]), [PushSend(t), ForeignShutdown, WriteReady(Wrote(1)), RunTask(Fatal)]);
    Opening(a, cfg, [CheckSend(t, [b]), PushSend(t), ForeignShutdown, WriteReady(Wrote(1)), RunTask(Fatal)]);
  }

  lemma OvertakesTail(t: nat, a: byte, b: byte, s: Sys)
    requires s.established && s.core.backlog == [a] && s.core.writing && s.core.state == Connected && !s.core.cfg.onWriteComplete
    requires s.core.queue == [SendTask(t, [b])]
    ensures var steps := [ForeignShutdown, WriteReady(Wrote(1)), RunTask(Fatal)];
      CanExec(s, steps) && WireOf(s, steps) == [Data(a), Fin] && Kept(s, steps) == []
  {
    var s5 := Next(s, ForeignShutdown);
    DrainsOne(a, s5);
    OutputLaws.Cons(Next(s5, WriteReady(Wrote(1))), RunTask(Fatal), []);
    OutputLaws.Cons(s5, WriteReady(Wrote(1)), [RunTask(Fatal)]);
    OutputLaws.Cons(s, ForeignShutdown, [WriteReady(Wrote(1)), RunTask(Fatal)]);
  }

  // ----- high-water notifications ---------------------------------------------------------

  predicate Below(s: Sys) {
    |s.core.backlog| < s.core.cfg.mark
  }

  /** High-water functors that a step adds to the queue. */
  function Notified(s: Sys, step: Step): int
    requires Enabled(s, step)
  {
    Count(Next(s, step).core.queue, HighWaterKind) - Count(s.core.queue, HighWaterKind)
    + (if step.RunTask? && s.core.queue[0].HighWaterTask? then 1 else 0)
  }

  function Notifications(s: Sys, steps: seq<Step>): int
    requires CanExec(s, steps)
    decreases |steps|
  {
    if steps == [] then 0 else Notified(s, steps[0]) + Notifications(Next(s, steps[0]), steps[1..])
  }

  /** How often the backlog falls below the mark. */
  function Falls(s: Sys, steps: seq<Step>): nat
    requires CanExec(s, steps)
    decreases |steps|
  {
    if steps == [] then 0
    else (if !Below(s) && Below(Next(s, steps[0])) then 1 else 0) + Falls(Next(s, steps[0]), steps[1..])
  }

  /** With a callback set, a step queues one notification if it lifts the backlog to the mark,
      and none otherwise; the notification carries the length reached. Without one there are
      no notifications. */
  lemma StepNotifies(s: Sys, step: Step)
    requires Enabled(s, step)
    ensures Notified(s, step) == if s.core.cfg.onHighWater && Below(s) && !Below(Next(s, step)) then 1 else 0
    ensures Notified(s, step) > 0 ==>
              var queue := Next(s, step).core.queue;
              queue != [] && queue[|queue| - 1] == HighWaterTask(|Next(s, step).core.backlog|)
    ensures Next(s, step).core.cfg == s.core.cfg
  {
    match step {
      case InLoopSend(data, reply) =>
        if s.core.state == Connected { SendCounts(s.core, data, reply); SendPostsLast(s.core, data, reply); }
      case PushSend(t) => CountAppends(s.core.queue, SendTask(t, s.checked[t]), HighWaterKind);
      case PushShutdown => CountAppends(s.core.queue, ShutdownTask, HighWaterKind);
      case RunTask(reply) =>
        TaskNotifies(s, reply);
      case WriteReady(reply) => DrainNotifiesNobody(s.core, reply);
      case _ =>
    }
  }

  lemma TaskNotifies(s: Sys, reply: Reply)
    requires Enabled(s, RunTask(reply))
    ensures var s' := Next(s, RunTask(reply));
      && Notified(s, RunTask(reply)) == (if s.core.cfg.onHighWater && Below(s) && !Below(s') then 1 else 0)
      && (Notified(s, RunTask(reply)) > 0 ==>
            s'.core.queue != [] && s'.core.queue[|s'.core.queue| - 1] == HighWaterTask(|s'.core.backlog|))
      && s'.core.cfg == s.core.cfg
  {
    var c := s.core.(queue := s.core.queue[1..]);
    if s.core.queue[0].SendTask? {
      SendCounts(c, s.core.queue[0].data, reply);
      SendPostsLast(c, s.core.queue[0].data, reply);
    }
  }

  lemma DrainNotifiesNobody(c: Core, reply: Reply)
    requires Fits(reply, |c.backlog|)
    ensures var c' := HandleWrite(c, reply).core;
      && Count(c'.queue, HighWaterKind) == Count(c.queue, HighWaterKind)
      && |c'.backlog| <= |c.backlog| && c'.cfg == c.cfg
  {
    CountAppends(c.queue, WriteCompleteTask, HighWaterKind);
  }

  lemma SendPostsLast(c: Core, data: seq<byte>, reply: Reply)
    requires Fits(reply, |data|)
    ensures var c' := SendInLoop(c, data, reply).core;
      && c'.cfg == c.cfg
      && (c.cfg.onHighWater && |c.backlog| < c.cfg.mark <= |c'.backlog| ==>
            c'.queue != [] && c'.queue[|c'.queue| - 1] == HighWaterTask(|c'.backlog|))
      && |c'.backlog| >= |c.backlog|
  {
  }

  /** Between two consecutive notifications the backlog fell below the mark exactly once. */
  lemma FallsBetweenNotifications(s: Sys, first: Step, between: seq<Step>, second: Step)
    requires s.core.cfg.onHighWater && Enabled(s, first) && Notified(s, first) > 0
    requires CanExec(Next(s, first), between) && Notifications(Next(s, first), between) == 0
    requires Enabled(Exec(Next(s, first), between), second) && Notified(Exec(Next(s, first), between), second) > 0
    ensures Falls(Next(s, first), between) == 1
  {
    StepNotifies(s, first);
    NotificationsFollowFalls(Next(s, first), between);
    StepNotifies(Exec(Next(s, first), between), second);
  }

  /** Counted from below the mark, the notifications of any run exceed its falls below the
      mark by one while the backlog is at or above the mark, and equal them while it is
      below: no rise goes unreported and none is reported twice. */
  lemma {:induction false} NotificationsFollowFalls(s: Sys, steps: seq<Step>)
    requires CanExec(s, steps) && s.core.cfg.onHighWater
    ensures Exec(s, steps).core.cfg == s.core.cfg
    ensures Notifications(s, steps) + (if Below(s) then 0 else 1) == Falls(s, steps) + (if Below(Exec(s, steps)) then 0 else 1)
    decreases |steps|
  {
    if steps != [] {
      StepNotifies(s, steps[0]);
      NotificationsFollowFalls(Next(s, steps[0]), steps[1..]);
    }
  }

  // ----- write-complete notifications -------------------------------------------------------

  /** The kernel took everything that a step offered it, and nothing waits. */
  predicate WroteAll(s: Sys, step: Step)
    requires Enabled(s, step)
  {
    var call := SendCall(s, step);
    && Next(s, step).core.backlog == []
    && ((call.Some? && Direct(s.core) && call.value.reply.Wrote?)
        || (step.WriteReady? && s.core.writing && step.reply.Wrote? && step.reply.n > 0))
  }

  /** With a callback set, a step queues one write-complete notification if it is such a step,
      and none otherwise. Without one there are none. */
  lemma StepCompletes(s: Sys, step: Step)
    requires Enabled(s, step)
    ensures Count(Next(s, step).core.queue, WriteCompleteKind)
            == Count(s.core.queue, WriteCompleteKind)
               - (if step.RunTask? && s.core.queue[0].WriteCompleteTask? then 1 else 0)
               + (if s.core.cfg.onWriteComplete && WroteAll(s, step) then 1 else 0)
  {
    match step {
      case InLoopSend(data, reply) =>
        if s.core.state == Connected { SendCompletes(s.core, data, reply); }
      case PushSend(t) => CountAppends(s.core.queue, SendTask(t, s.checked[t]), WriteCompleteKind);
      case PushShutdown => CountAppends(s.core.queue, ShutdownTask, WriteCompleteKind);
      case RunTask(reply) => TaskCompletes(s, reply);
      case WriteReady(reply) => CountAppends(s.core.queue, WriteCompleteTask, WriteCompleteKind);
      case _ =>
    }
  }

  lemma TaskCompletes(s: Sys, reply: Reply)
    requires Enabled(s, RunTask(reply))
    ensures Count(Next(s, RunTask(reply)).core.queue, WriteCompleteKind)
            == Count(s.core.queue, WriteCompleteKind)
               - (if s.core.queue[0].WriteCompleteTask? then 1 else 0)
               + (if s.core.cfg.onWriteComplete && WroteAll(s, RunTask(reply)) then 1 else 0)
  {
    if s.core.queue[0].SendTask? {
      SendCompletes(s.core.(queue := s.core.queue[1..]), s.core.queue[0].data, reply);
    }
  }

  lemma SendCompletes(c: Core, data: seq<byte>, reply: Reply)
    requires Fits(reply, |data|)
    ensures var c' := SendInLoop(c, data, reply).core;
      Count(c'.queue, WriteCompleteKind) == Count(c.queue, WriteCompleteKind)
        + (if c.cfg.onWriteComplete && Direct(c) && reply.Wrote? && c'.backlog == [] then 1 else 0)
  {
    var total := SendInLoop(c, data, reply).core.backlog;
    var c1 := PostIf(c, Direct(c) && reply == Wrote(|data|) && c.cfg.onWriteComplete, WriteCompleteTask);
    CountAppends(c.queue, WriteCompleteTask, WriteCompleteKind);
    CountAppends(c1.queue, HighWaterTask(|total|), WriteCompleteKind);
  }

  /** Consuming once, a write-complete notification tells the truth: when it is queued, the
      kernel has every byte of every message kept so far. */
  lemma WriteCompleteMeansWritten(cfg: Config, steps: seq<Step>, step: Step)
    requires !cfg.retrieveAgain && CanExec(Initial(cfg), steps) && Enabled(Exec(Initial(cfg), steps), step)
    requires WroteAll(Exec(Initial(cfg), steps), step)
    ensures CanExec(Initial(cfg), steps + [step])
    ensures Bytes(Initial(cfg), steps + [step]) == Flatten(Kept(Initial(cfg), steps + [step]))
  {
    Snoc(Initial(cfg), steps, step);
    var all := steps + [step];
    OutputLaws.BytesConserved(Initial(cfg), all);
    assert Bytes(Initial(cfg), all) + [] == Bytes(Initial(cfg), all);
    assert [] + Flatten(Kept(Initial(cfg), all)) == Flatten(Kept(Initial(cfg), all));
  }

  /** As written, it does so exactly on the runs without a partial drain. */
  lemma WriteCompleteAsWritten(cfg: Config, steps: seq<Step>, step: Step)
    requires cfg.retrieveAgain && CanExec(Initial(cfg), steps) && Enabled(Exec(Initial(cfg), steps), step)
    requires WroteAll(Exec(Initial(cfg), steps), step)
    ensures CanExec(Initial(cfg), steps + [step])
    ensures Bytes(Initial(cfg), steps + [step]) == Flatten(Kept(Initial(cfg), steps + [step]))
            <==> OutputLaws.NoPartialDrain(Initial(cfg), steps + [step])
  {
    Snoc(Initial(cfg), steps, step);
    var all := steps + [step];
    OutputLaws.ConservedIffNoPartialDrain(Initial(cfg), all);
    assert Bytes(Initial(cfg), all) + [] == Bytes(Initial(cfg), all);
    assert [] + Flatten(Kept(Initial(cfg), all)) == Flatten(Kept(Initial(cfg), all));
  }

  lemma {:induction false} Snoc(s: Sys, steps: seq<Step>, step: Step)
    requires CanExec(s, steps) && Enabled(Exec(s, steps), step)
    ensures CanExec(s, steps + [step]) && Exec(s, steps + [step]) == Next(Exec(s, steps), step)
    decreases |steps|
  {
    if steps == [] {
      assert [] + [step] == [step] && [step][1..] == [];
    } else {
      assert (steps + [step])[1..] == steps[1..] + [step];
      Snoc(Next(s, steps[0]), steps[1..], step);
    }
  }
}
