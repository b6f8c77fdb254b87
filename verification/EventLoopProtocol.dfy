/** The functor queue, the wakeup descriptor and the quit flag of one event loop, as a step
    system: the loop thread walks through `loop()`, and any number of other threads stand
    between the two halves of `queueInLoop` and of `quit`. */
module EventLoopProtocol {

  /** Who queued a functor. */
  datatype Producer = LoopThread | Other(thread: nat)

  datatype Functor = Functor(producer: Producer, tag: nat)

  /** An entry of the active list: the wakeup channel or somebody else's. */
  datatype Event = Wakeup | Handler(fd: nat)

  /** Where the loop thread is. */
  datatype Pc =
    | Created                               // constructed; the init callback may run
    | Published                             // other threads have the pointer
    | Starting                              // looping_ is set, quit_ is not reset yet
    | Testing                               // while (!quit_)
    | Polling                               // in epoll_wait
    | Dispatching(todo: seq<Event>)
    | Flagging                              // doPendingFunctors before its first store
    | Swapping
    | Running(rest: seq<Functor>)           // between two functors of the batch
    | InFunctor(rest: seq<Functor>)         // inside one, `rest` to follow
    | Stopped

  /** Other threads are interchangeable, so only their number at each program point counts:
      `pushers` have queued a functor and not written the eventfd yet, `quitters` have set the
      flag and not written it yet. `ownerPushed` is the same point of the loop thread. */
  datatype State = State(
    pc: Pc,
    looping: bool,
    quit: bool,
    calling: bool,
    pending: seq<Functor>,
    counter: nat,
    pushers: nat,
    quitters: nat,
    ownerPushed: bool,
    // history
    pushed: seq<Functor>,      // in the order the lock was taken
    executed: seq<Functor>,
    swaps: nat,
    batchEnd: nat,             // length of `pushed` at the last swap
    earlyPush: bool,           // the loop thread queued a functor before loop()
    wakes: nat)                // writes to the eventfd

  datatype Step =
    | Publish | Begin | ResetQuit | TestQuit
    | PollReturn(events: seq<Event>)
    | ReadWakeup | HandlerDone | DispatchDone
    | SetCalling | Swap | StartFunctor | FunctorDone | ClearCalling
    | OwnerPush(f: Functor) | OwnerWakeTest | OwnerQuit
    | OtherPush(f: Functor) | OtherPushWake | OtherQuit | OtherQuitWake

  function Initial(): State {
    State(Created, false, false, false, [], 0, 0, 0, false, [], [], 0, 0, false, 0)
  }

  /** Where code of the loop thread may call into its own loop. */
  predicate OwnerMayCall(pc: Pc) {
    match pc
    case Created => true
    case Published => true
    case Dispatching(todo) => todo != [] && todo[0].Handler?
    case InFunctor(_) => true
    case _ => false
  }

  predicate BeforeLoop(pc: Pc) {
    pc == Created || pc == Published
  }

  predicate PastReset(pc: Pc) {
    !BeforeLoop(pc) && pc != Starting
  }

  predicate IsOwner(step: Step) {
    !step.OtherPush? && !step.OtherPushWake? && !step.OtherQuit? && !step.OtherQuitWake?
  }

  /** The loop thread finishes a `queueInLoop` before it does anything else. */
  predicate Enabled(s: State, step: Step) {
    (s.ownerPushed && IsOwner(step) ==> step == OwnerWakeTest) &&
    match step
    case Publish => s.pc == Created
    case Begin => s.pc == Published
    case ResetQuit => s.pc == Starting
    case TestQuit => s.pc == Testing
    case PollReturn(events) => s.pc == Polling && (Wakeup in events ==> s.counter > 0)
    case ReadWakeup => s.pc.Dispatching? && s.pc.todo != [] && s.pc.todo[0] == Wakeup
    case HandlerDone => s.pc.Dispatching? && s.pc.todo != [] && s.pc.todo[0].Handler?
    case DispatchDone => s.pc == Dispatching([])
    case SetCalling => s.pc == Flagging
    case Swap => s.pc == Swapping
    case StartFunctor => s.pc.Running? && s.pc.rest != []
    case FunctorDone => s.pc.InFunctor?
    case ClearCalling => s.pc == Running([])
    case OwnerPush(f) => OwnerMayCall(s.pc)
    case OwnerWakeTest => s.ownerPushed
    case OwnerQuit => OwnerMayCall(s.pc)
    case OtherPush(f) => s.pc != Created
    case OtherPushWake => s.pushers > 0
    case OtherQuit => s.pc != Created
    case OtherQuitWake => s.quitters > 0
  }

  function Push(s: State, f: Functor): State {
    s.(pending := s.pending + [f], pushed := s.pushed + [f])
  }

  function WriteEventFd(s: State): State {
    s.(counter := s.counter + 1, wakes := s.wakes + 1)
  }

  function Next(s: State, step: Step): State
    requires Enabled(s, step)
  {
    match step
    case Publish => s.(pc := Published)
    case Begin => s.(pc := Starting, looping := true)
    case ResetQuit => s.(pc := Testing, quit := false)
    case TestQuit => if s.quit then s.(pc := Stopped, looping := false) else s.(pc := Polling)
    case PollReturn(events) => s.(pc := Dispatching(events))
    case ReadWakeup => s.(pc := Dispatching(s.pc.todo[1..]), counter := 0)
    case HandlerDone => s.(pc := Dispatching(s.pc.todo[1..]))
    case DispatchDone => s.(pc := Flagging)
    case SetCalling => s.(pc := Swapping, calling := true)
    case Swap => s.(pc := Running(s.pending), pending := [], swaps := s.swaps + 1, batchEnd := |s.pushed|)
    case StartFunctor => s.(pc := InFunctor(s.pc.rest[1..]), executed := s.executed + [s.pc.rest[0]])
    case FunctorDone => s.(pc := Running(s.pc.rest))
    case ClearCalling => s.(pc := Testing, calling := false)
    case OwnerPush(f) => Push(s, f).(ownerPushed := true, earlyPush := s.earlyPush || BeforeLoop(s.pc))
    case OwnerWakeTest => (if s.calling then WriteEventFd(s) else s).(ownerPushed := false)
    case OwnerQuit => s.(quit := true)
    case OtherPush(f) => Push(s, f).(pushers := s.pushers + 1)
    case OtherPushWake => WriteEventFd(s).(pushers := s.pushers - 1)
    case OtherQuit => s.(quit := true, quitters := s.quitters + 1)
    case OtherQuitWake => WriteEventFd(s).(quitters := s.quitters - 1)
  }

  predicate CanExec(s: State, steps: seq<Step>)
    decreases |steps|
  {
    steps == [] || (Enabled(s, steps[0]) && CanExec(Next(s, steps[0]), steps[1..]))
  }

  function Exec(s: State, steps: seq<Step>): State
    requires CanExec(s, steps)
    decreases |steps|
  {
    if steps == [] then s else Exec(Next(s, steps[0]), steps[1..])
  }

  // ----- the invariant --------------------------------------------------------------------

  function Rest(pc: Pc): seq<Functor> {
    match pc
    case Running(rest) => rest
    case InFunctor(rest) => rest
    case _ => []
  }

  predicate InBatch(pc: Pc) {
    pc.Running? || pc.InFunctor?
  }

  /** From a swap to the next return of poll, and before the first one: whoever queues a
      functor here must make poll return. */
  predicate MustWake(pc: Pc) {
    match pc
    case Dispatching(_) => false
    case Flagging => false
    case Swapping => false
    case Stopped => false
    case _ => true
  }

  /** A write to the eventfd has happened or is about to. */
  predicate WakeupComing(s: State) {
    s.counter > 0 || s.pushers > 0 || s.quitters > 0
  }

  predicate Inv(s: State) {
    Ledger(s) && Points(s) && Wakeups(s)
  }

  predicate Ledger(s: State) {
    && s.pushed == s.executed + Rest(s.pc) + s.pending
    && s.batchEnd == |s.executed| + |Rest(s.pc)|
  }

  predicate Points(s: State) {
    && (s.looping <==> !BeforeLoop(s.pc) && s.pc != Stopped)
    && (s.calling <==> s.pc == Swapping || InBatch(s.pc))
    && (s.ownerPushed ==> OwnerMayCall(s.pc))
    && (BeforeLoop(s.pc) || s.pc == Starting ==> s.swaps == 0)
    && (s.swaps == 0 ==> s.batchEnd == 0 && !InBatch(s.pc))
    && (s.pc == Stopped ==> s.quit)
  }

  predicate Wakeups(s: State) {
    && (s.earlyPush ==> s.pushed != [])
    && (s.swaps == 0 && MustWake(s.pc) ==> s.counter == s.wakes)
    && (MustWake(s.pc) && s.pending != [] ==>
          s.counter > 0 || s.pushers > 0 || (s.ownerPushed && s.calling) || (s.swaps == 0 && s.earlyPush))
    && (s.pc == Polling && s.quit ==> s.counter > 0 || s.quitters > 0)
  }

  lemma StepKeepsInv(s: State, step: Step)
    requires Inv(s) && Enabled(s, step)
    ensures Inv(Next(s, step))
  {
    StepKeepsLedger(s, step);
    StepKeepsPoints(s, step);
    StepKeepsWakeups(s, step);
  }

  lemma StepKeepsLedger(s: State, step: Step)
    requires Ledger(s) && Enabled(s, step)
    ensures Ledger(Next(s, step))
  {
    match step {
      case StartFunctor => StartKeepsLedger(s);
      case Swap => SwapKeepsLedger(s);
      case OwnerPush(f) => PushKeepsLedger(s, f);
      case OtherPush(f) => PushKeepsLedger(s, f);
      case _ => QuietStepKeepsLedger(s, step);
    }
  }

  lemma StartKeepsLedger(s: State)
    requires Ledger(s) && Enabled(s, StartFunctor)
    ensures Ledger(Next(s, StartFunctor))
  {
    MoveOne(s.executed, s.pc.rest, s.pending);
  }

  lemma MoveOne<T>(done: seq<T>, rest: seq<T>, after: seq<T>)
    requires rest != []
    ensures done + rest + after == (done + [rest[0]]) + rest[1..] + after
  {
    assert done + rest == (done + [rest[0]]) + rest[1..];
  }

  lemma SwapKeepsLedger(s: State)
    requires Ledger(s) && Enabled(s, Swap)
    ensures Ledger(Next(s, Swap))
  {
    var t := Next(s, Swap);
    assert t.executed + Rest(t.pc) + [] == s.executed + [] + s.pending;
  }

  lemma PushKeepsLedger(s: State, f: Functor)
    requires Ledger(s)
    ensures Ledger(Push(s, f))
  {
    assert Push(s, f).pushed == s.executed + Rest(s.pc) + (s.pending + [f]);
  }

  /** The other steps touch neither the functors nor their histories. */
  lemma QuietStepKeepsLedger(s: State, step: Step)
    requires Ledger(s) && Enabled(s, step)
    requires !step.StartFunctor? && !step.Swap? && !step.OwnerPush? && !step.OtherPush?
    ensures Ledger(Next(s, step))
  {
    var t := Next(s, step);
    assert Rest(t.pc) == Rest(s.pc) && t.pushed == s.pushed && t.executed == s.executed && t.pending == s.pending;
  }

  lemma StepKeepsPoints(s: State, step: Step)
    requires Points(s) && Enabled(s, step)
    ensures Points(Next(s, step))
  {
    hide Points;
    match step {
      case OwnerPush(_) => CallKeepsPoints(s, Next(s, step));
      case OwnerWakeTest => CallKeepsPoints(s, Next(s, step));
      case OwnerQuit => CallKeepsPoints(s, Next(s, step));
      case OtherPush(_) => CallKeepsPoints(s, Next(s, step));
      case OtherPushWake => CallKeepsPoints(s, Next(s, step));
      case OtherQuit => CallKeepsPoints(s, Next(s, step));
      case OtherQuitWake => CallKeepsPoints(s, Next(s, step));
      case _ => LoopKeepsPoints(s, step);
    }
  }

  /** A call into the loop moves no program point of `loop()`. */
  lemma CallKeepsPoints(s: State, t: State)
    requires Points(s) && t.pc == s.pc && t.looping == s.looping && t.calling == s.calling
    requires t.swaps == s.swaps && t.batchEnd == s.batchEnd && (s.quit ==> t.quit)
    requires t.ownerPushed ==> s.ownerPushed || OwnerMayCall(s.pc)
    ensures Points(t)
  {
  }

  lemma LoopKeepsPoints(s: State, step: Step)
    requires Points(s) && Enabled(s, step) && IsOwner(step)
    requires !step.OwnerPush? && !step.OwnerWakeTest? && !step.OwnerQuit?
    ensures Points(Next(s, step))
  {
  }

  lemma StepKeepsWakeups(s: State, step: Step)
    requires Points(s) && Wakeups(s) && Enabled(s, step)
    ensures Wakeups(Next(s, step))
  {
    hide Points, Wakeups;
    match step {
      case OwnerPush(_) => PushKeepsWakeups(s, step);
      case OtherPush(_) => PushKeepsWakeups(s, step);
      case OtherPushWake => WriteKeepsWakeups(s, Next(s, step));
      case OtherQuit => FlagKeepsWakeups(s, Next(s, step));
      case OtherQuitWake => WriteKeepsWakeups(s, Next(s, step));
      case OwnerWakeTest => OwnerCallKeepsWakeups(s, step);
      case OwnerQuit => OwnerCallKeepsWakeups(s, step);
      case ReadWakeup => OwnerCallKeepsWakeups(s, step);
      case _ => LoopKeepsWakeups(s, step);
    }
  }

  /** A quitter that has set the flag is about to write the eventfd. */
  lemma FlagKeepsWakeups(s: State, t: State)
    requires Wakeups(s) && t == s.(quit := true, quitters := s.quitters + 1)
    ensures Wakeups(t)
  {
  }

  /** A write to the eventfd answers every obligation. */
  lemma WriteKeepsWakeups(s: State, t: State)
    requires Wakeups(s) && t.counter == s.counter + 1 && t.wakes == s.wakes + 1
    requires t.pc == s.pc && t.swaps == s.swaps && t.earlyPush == s.earlyPush && t.pushed == s.pushed
    ensures Wakeups(t)
  {
  }

  lemma OwnerCallKeepsWakeups(s: State, step: Step)
    requires Points(s) && Wakeups(s) && Enabled(s, step) && (step.OwnerWakeTest? || step.OwnerQuit? || step.ReadWakeup?)
    ensures Wakeups(Next(s, step))
  {
  }

  /** The loop thread moves on. */
  lemma LoopKeepsWakeups(s: State, step: Step)
    requires Points(s) && Wakeups(s) && Enabled(s, step) && IsOwner(step)
    requires !step.OwnerPush? && !step.OwnerWakeTest? && !step.OwnerQuit? && !step.ReadWakeup?
    ensures Wakeups(Next(s, step))
  {
  }

  lemma PushKeepsWakeups(s: State, step: Step)
    requires Points(s) && Wakeups(s) && Enabled(s, step) && (step.OwnerPush? || step.OtherPush?)
    ensures Wakeups(Next(s, step))
  {
  }

  lemma {:induction false} AlwaysInv(s: State, steps: seq<Step>)
    requires Inv(s) && CanExec(s, steps)
    ensures Inv(Exec(s, steps))
    decreases |steps|
  {
    if steps != [] {
      StepKeepsInv(s, steps[0]);
      AlwaysInv(Next(s, steps[0]), steps[1..]);
    }
  }

  lemma Unfold(s: State, step: Step, rest: seq<Step>)
    requires Enabled(s, step) && CanExec(Next(s, step), rest)
    ensures CanExec(s, [step] + rest) && Exec(s, [step] + rest) == Exec(Next(s, step), rest)
  {
    assert ([step] + rest)[1..] == rest;
  }

  lemma {:induction false} ExecAppends(s: State, a: seq<Step>, b: seq<Step>)
    requires CanExec(s, a) && CanExec(Exec(s, a), b)
    ensures CanExec(s, a + b) && Exec(s, a + b) == Exec(Exec(s, a), b)
    decreases |a|
  {
    if a == [] {
      assert a + b == b;
    } else {
      assert (a + b)[1..] == a[1..] + b;
      ExecAppends(Next(s, a[0]), a[1..], b);
    }
  }

  // ----- no lost wakeup -------------------------------------------------------------------

  /** The loop sits in poll with functors to run, the eventfd is not readable, and nobody who
      queued one is about to write it: the functors wait until the poll times out, another
      descriptor is ready, or somebody comes along. */
  predicate Stuck(s: State) {
    s.pc == Polling && s.pending != [] && s.counter == 0 && s.pushers == 0
  }

  /** In every interleaving, a loop in poll with pending functors finds the eventfd readable
      or has a producer between its push and its write, with exactly one exception: before its
      first batch, when the loop thread itself queued a functor before `loop()` and no other
      thread has written the eventfd or queued anything since. */
  lemma NoLostWakeup(steps: seq<Step>)
    requires CanExec(Initial(), steps)
    ensures var s := Exec(Initial(), steps);
      Stuck(s) <==> s.pc == Polling && s.swaps == 0 && s.earlyPush && s.wakes == 0 && s.pushers == 0
  {
    AlwaysInv(Initial(), steps);
  }

  /** The exception is real, with no other thread at all; only a poll that returns without a
      wakeup, by its timeout or for another descriptor, lets the functor run. */
  lemma EarlyPushIsStuck(f: Functor)
    ensures var steps := [OwnerPush(f), OwnerWakeTest, Publish] + [Begin, ResetQuit, TestQuit];
      && CanExec(Initial(), steps)
      && var s := Exec(Initial(), steps);
      && Stuck(s) && !WakeupComing(s)
      && forall events :: Enabled(s, PollReturn(events)) <==> Wakeup !in events
  {
    hide CanExec, Exec;
    var s1 := Next(Initial(), OwnerPush(f));
    var s2 := Next(s1, OwnerWakeTest);
    var s3 := Next(s2, Publish);
    Three(Initial(), OwnerPush(f), s1, OwnerWakeTest, s2, Publish);
    QuitReset(s3);
    PollWithoutWakeup(s3.(pc := Polling, looping := true, quit := false));
    ExecAppends(Initial(), [OwnerPush(f), OwnerWakeTest, Publish], [Begin, ResetQuit, TestQuit]);
  }

  lemma PollWithoutWakeup(s: State)
    requires s.pc == Polling && s.counter == 0 && !s.ownerPushed
    ensures forall events :: Enabled(s, PollReturn(events)) <==> Wakeup !in events
  {
  }

  // ----- the ledger -----------------------------------------------------------------------

  /** Functors in lock order are those executed, the unrun rest of the batch, and those
      pending: every functor runs at most once, and in the order it was queued. */
  lemma FunctorLedger(steps: seq<Step>)
    requires CanExec(Initial(), steps)
    ensures var s := Exec(Initial(), steps);
      && s.pushed == s.executed + Rest(s.pc) + s.pending
      && s.batchEnd <= |s.pushed|
      && s.executed + Rest(s.pc) == s.pushed[..s.batchEnd]
  {
    AlwaysInv(Initial(), steps);
    var s := Exec(Initial(), steps);
    assert s.pushed[..s.batchEnd] == s.executed + Rest(s.pc);
  }

  function By(fs: seq<Functor>, p: Producer): seq<Functor> {
    if fs == [] then [] else (if fs[0].producer == p then [fs[0]] else []) + By(fs[1..], p)
  }

  lemma {:induction false} ByAppends(a: seq<Functor>, b: seq<Functor>, p: Producer)
    ensures By(a + b, p) == By(a, p) + By(b, p)
  {
    if a == [] {
      assert a + b == b;
    } else {
      var head := if a[0].producer == p then [a[0]] else [];
      assert (a + b)[0] == a[0] && (a + b)[1..] == a[1..] + b;
      ByAppends(a[1..], b, p);
      assert head + (By(a[1..], p) + By(b, p)) == (head + By(a[1..], p)) + By(b, p);
    }
  }

  /** Each producer's functors run in the order that producer queued them. */
  lemma ProducerOrder(steps: seq<Step>, p: Producer)
    requires CanExec(Initial(), steps)
    ensures var s := Exec(Initial(), steps);
      By(s.executed, p) <= By(s.pushed, p)
  {
    FunctorLedger(steps);
    var s := Exec(Initial(), steps);
    assert s.pushed == s.executed + (Rest(s.pc) + s.pending);
    ByAppends(s.executed, Rest(s.pc) + s.pending, p);
  }

  // ----- batches --------------------------------------------------------------------------

  /** Histories only grow, and a swap after `s` takes in everything queued by `s`. */
  predicate Later(s: State, t: State) {
    && s.pushed <= t.pushed && s.executed <= t.executed
    && s.swaps <= t.swaps
    && (t.swaps == s.swaps ==> t.batchEnd == s.batchEnd)
    && (t.swaps > s.swaps ==> t.batchEnd >= |s.pushed|)
  }

  lemma StepIsLater(s: State, step: Step)
    requires Enabled(s, step)
    ensures Later(s, Next(s, step))
  {
  }

  lemma {:induction false} HistoryGrows(s: State, steps: seq<Step>)
    requires CanExec(s, steps)
    ensures Later(s, Exec(s, steps))
    decreases |steps|
  {
    if steps != [] {
      var next := Next(s, steps[0]);
      StepIsLater(s, steps[0]);
      HistoryGrows(next, steps[1..]);
      LaterChains(s, next, Exec(next, steps[1..]));
    }
  }

  lemma LaterChains(s: State, t: State, u: State)
    requires Later(s, t) && Later(t, u)
    ensures Later(s, u)
  {
  }

  /** Everything queued before a swap has run once the batch of that swap, or any later one,
      is over. */
  lemma QueuedBeforeSwapHasRun(before: seq<Step>, after: seq<Step>)
    requires CanExec(Initial(), before) && CanExec(Exec(Initial(), before), after)
    requires var s, t := Exec(Initial(), before), Exec(Exec(Initial(), before), after);
      t.swaps > s.swaps && !InBatch(t.pc)
    ensures Exec(Initial(), before).pushed <= Exec(Exec(Initial(), before), after).executed
  {
    var s := Exec(Initial(), before);
    var t := Exec(s, after);
    AlwaysInv(Initial(), before);
    AlwaysInv(s, after);
    HistoryGrows(s, after);
    assert t.executed == t.pushed[..t.batchEnd];
  }

  /** A swap fixes its batch: whatever is queued after it, by other threads or by the functors
      of the batch themselves, does not run before the next swap. */
  lemma QueuedAfterSwapWaits(before: seq<Step>, after: seq<Step>)
    requires CanExec(Initial(), before) && CanExec(Exec(Initial(), before), after)
    requires Exec(Exec(Initial(), before), after).swaps == Exec(Initial(), before).swaps
    ensures var s, t := Exec(Initial(), before), Exec(Exec(Initial(), before), after);
      t.executed <= s.executed + Rest(s.pc)
  {
    var s := Exec(Initial(), before);
    var t := Exec(s, after);
    AlwaysInv(Initial(), before);
    AlwaysInv(s, after);
    HistoryGrows(s, after);
    assert t.executed + Rest(t.pc) == t.pushed[..t.batchEnd];
    assert s.executed + Rest(s.pc) == s.pushed[..s.batchEnd];
  }

  // ----- dispatch -------------------------------------------------------------------------

  function Todo(pc: Pc): seq<Event> {
    if pc.Dispatching? then pc.todo else []
  }

  /** The events handled during a run, in order. */
  function Handled(s: State, steps: seq<Step>): seq<Event>
    requires CanExec(s, steps)
    decreases |steps|
  {
    if steps == [] then []
    else
      (if steps[0].ReadWakeup? || steps[0].HandlerDone? then [s.pc.todo[0]] else [])
      + Handled(Next(s, steps[0]), steps[1..])
  }

  lemma {:induction false} HandledInOrder(s: State, steps: seq<Step>)
    requires CanExec(s, steps) && forall k :: 0 <= k < |steps| ==> !steps[k].PollReturn?
    ensures Todo(s.pc) == Handled(s, steps) + Todo(Exec(s, steps).pc)
    decreases |steps|
  {
    if steps != [] {
      var next := Next(s, steps[0]);
      assert !steps[0].PollReturn?;
      HandledInOrder(next, steps[1..]);
      HandledOne(s, steps[0]);
    }
  }

  lemma HandledOne(s: State, step: Step)
    requires Enabled(s, step) && !step.PollReturn?
    ensures Todo(s.pc) == (if step.ReadWakeup? || step.HandlerDone? then [s.pc.todo[0]] else []) + Todo(Next(s, step).pc)
  {
    if step.ReadWakeup? || step.HandlerDone? {
      assert s.pc.todo == [s.pc.todo[0]] + s.pc.todo[1..];
    } else {
      assert Todo(Next(s, step).pc) == Todo(s.pc);
    }
  }

  /** Each poll's events are handled once each and in order: what was handled since it returned
      and what is left are its event list, and nothing is left when the dispatch is over. */
  lemma EventsHandledInOrder(before: seq<Step>, events: seq<Event>, after: seq<Step>)
    requires CanExec(Initial(), before) && Enabled(Exec(Initial(), before), PollReturn(events))
    requires var s := Next(Exec(Initial(), before), PollReturn(events));
      CanExec(s, after) && forall k :: 0 <= k < |after| ==> !after[k].PollReturn?
    ensures var s := Next(Exec(Initial(), before), PollReturn(events));
      && events == Handled(s, after) + Todo(Exec(s, after).pc)
      && (DispatchDone in after ==> events == Handled(s, after))
  {
    var s := Next(Exec(Initial(), before), PollReturn(events));
    HandledInOrder(s, after);
    if DispatchDone in after {
      DispatchOver(s, after);
    }
  }

  lemma {:induction false} DispatchOver(s: State, steps: seq<Step>)
    requires CanExec(s, steps) && forall k :: 0 <= k < |steps| ==> !steps[k].PollReturn?
    requires DispatchDone in steps || !s.pc.Dispatching?
    ensures !Exec(s, steps).pc.Dispatching?
    decreases |steps|
  {
    if steps != [] {
      assert !steps[0].PollReturn?;
      assert steps == [steps[0]] + steps[1..];
      DispatchLeft(s, steps[0]);
      DispatchOver(Next(s, steps[0]), steps[1..]);
    }
  }

  lemma DispatchLeft(s: State, step: Step)
    requires Enabled(s, step) && !step.PollReturn?
    ensures step.DispatchDone? || !s.pc.Dispatching? ==> !Next(s, step).pc.Dispatching?
  {
  }

  // ----- quitting -------------------------------------------------------------------------

  predicate IsQuit(step: Step) {
    step == OwnerQuit || step == OtherQuit
  }

  /** Some `quit()` stored its flag after `loop()` had passed its reset. */
  predicate QuitAfterReset(s: State, steps: seq<Step>)
    requires CanExec(s, steps)
    decreases |steps|
  {
    steps != [] &&
    ((IsQuit(steps[0]) && PastReset(s.pc)) || QuitAfterReset(Next(s, steps[0]), steps[1..]))
  }

  lemma StepPastReset(s: State, step: Step)
    requires Enabled(s, step)
    ensures PastReset(s.pc) ==> PastReset(Next(s, step).pc)
    ensures !PastReset(s.pc) && PastReset(Next(s, step).pc) ==> step == ResetQuit
  {
    match step {
      case Publish =>
      case Begin =>
      case ResetQuit =>
      case _ =>
    }
  }

  lemma StepQuitFlag(s: State, step: Step)
    requires Enabled(s, step)
    ensures PastReset(s.pc) ==> (Next(s, step).quit <==> s.quit || IsQuit(step))
  {
  }

  lemma {:induction false} QuitFlag(s: State, steps: seq<Step>)
    requires CanExec(s, steps)
    ensures var t := Exec(s, steps);
      PastReset(t.pc) ==> (t.quit <==> QuitAfterReset(s, steps) || (PastReset(s.pc) && s.quit))
    decreases |steps|
  {
    if steps != [] {
      StepPastReset(s, steps[0]);
      StepQuitFlag(s, steps[0]);
      QuitFlag(Next(s, steps[0]), steps[1..]);
    }
  }

  /** A loop past its reset has its quit flag set iff some `quit()` came after the reset; and
      then it is not blocked in poll: the eventfd is readable or a quitter is about to write it. */
  lemma QuitHeardIffAfterReset(steps: seq<Step>)
    requires CanExec(Initial(), steps)
    ensures var s := Exec(Initial(), steps);
      && (PastReset(s.pc) ==> (s.quit <==> QuitAfterReset(Initial(), steps)))
      && (s.pc == Polling && QuitAfterReset(Initial(), steps) ==> s.counter > 0 || s.quitters > 0)
  {
    AlwaysInv(Initial(), steps);
    QuitFlag(Initial(), steps);
  }

  /** How many more batches a loop that is told to quit can start. */
  function BatchesLeft(pc: Pc): nat {
    match pc
    case Polling => 1
    case Dispatching(_) => 1
    case Flagging => 1
    case Swapping => 1
    case _ => 0
  }

  lemma StepQuitBound(s: State, step: Step)
    requires PastReset(s.pc) && s.quit && Enabled(s, step)
    ensures var t := Next(s, step);
      t.quit && PastReset(t.pc) && t.swaps + BatchesLeft(t.pc) <= s.swaps + BatchesLeft(s.pc)
  {
    match step {
      case Publish =>
      case Begin =>
      case ResetQuit =>
      case TestQuit =>
      case OwnerPush(_) =>
      case OwnerWakeTest =>
      case OwnerQuit =>
      case OtherPush(_) =>
      case OtherPushWake =>
      case OtherQuit =>
      case OtherQuitWake =>
      case _ =>
    }
  }

  lemma {:induction false} QuitBound(s: State, steps: seq<Step>)
    requires PastReset(s.pc) && s.quit && CanExec(s, steps)
    ensures var t := Exec(s, steps);
      t.quit && PastReset(t.pc) && t.swaps + BatchesLeft(t.pc) <= s.swaps + BatchesLeft(s.pc)
    decreases |steps|
  {
    if steps != [] {
      StepQuitBound(s, steps[0]);
      QuitBound(Next(s, steps[0]), steps[1..]);
    }
  }

  /** The next test of the flag ends the loop for good. */
  lemma {:induction false} QuitEnds(s: State, steps: seq<Step>)
    requires Inv(s) && PastReset(s.pc) && s.quit && CanExec(s, steps)
    ensures TestQuit in steps || s.pc == Stopped ==> Exec(s, steps).pc == Stopped && !Exec(s, steps).looping
    decreases |steps|
  {
    if steps != [] {
      StepKeepsInv(s, steps[0]);
      StepQuitBound(s, steps[0]);
      if s.pc == Stopped || steps[0] == TestQuit {
        StoppedStays(s, steps[0]);
      }
      assert steps == [steps[0]] + steps[1..];
      QuitEnds(Next(s, steps[0]), steps[1..]);
    }
  }

  lemma StoppedStays(s: State, step: Step)
    requires Inv(s) && s.quit && Enabled(s, step) && (s.pc == Stopped || step == TestQuit)
    ensures Next(s, step).pc == Stopped
  {
  }

  /** After `quit()` the loop starts at most one more batch, never polls again once it has
      finished the pass it is in, and has ended once it has tested the flag again. */
  lemma QuitIsPrompt(before: seq<Step>, after: seq<Step>)
    requires CanExec(Initial(), before) && CanExec(Exec(Initial(), before), after)
    requires PastReset(Exec(Initial(), before).pc) && Exec(Initial(), before).quit
    ensures var s, t := Exec(Initial(), before), Exec(Exec(Initial(), before), after);
      && t.swaps <= s.swaps + 1
      && (t.swaps > s.swaps ==> t.pc != Polling && !t.pc.Dispatching?)
      && (TestQuit in after || s.pc == Stopped ==> t.pc == Stopped && !t.looping)
  {
    AlwaysInv(Initial(), before);
    QuitBound(Exec(Initial(), before), after);
    QuitEnds(Exec(Initial(), before), after);
  }

  /** A loop ends only because of a `quit()` after its reset; until then each test of the flag
      leads to poll. */
  lemma EndsOnlyOnQuit(steps: seq<Step>)
    requires CanExec(Initial(), steps)
    ensures var s := Exec(Initial(), steps);
      && (s.pc == Stopped ==> QuitAfterReset(Initial(), steps))
      && (Enabled(s, TestQuit) ==>
            Next(s, TestQuit).pc == if QuitAfterReset(Initial(), steps) then Stopped else Polling)
  {
    AlwaysInv(Initial(), steps);
    QuitFlag(Initial(), steps);
  }

  /** A `quit()` between publishing the loop and its reset is overwritten: the wakeup it wrote
      is read, and the loop polls again with no flag and no wakeup, until the timeout or an
      event of another descriptor, and on from there. */
  lemma EarlyQuitIsLost()
    ensures var steps := [Publish, OtherQuit, OtherQuitWake] + [Begin, ResetQuit, TestQuit]
                         + [PollReturn([Wakeup]), ReadWakeup, DispatchDone]
                         + [SetCalling, Swap, ClearCalling, TestQuit];
      && CanExec(Initial(), steps)
      && var s := Exec(Initial(), steps);
      && s.pc == Polling && !s.quit && !WakeupComing(s)
  {
    hide CanExec, Exec;
    var a := [Publish, OtherQuit, OtherQuitWake];
    var b := [Begin, ResetQuit, TestQuit];
    var c := [PollReturn([Wakeup]), ReadWakeup, DispatchDone];
    var d := [SetCalling, Swap, ClearCalling, TestQuit];
    var s := Initial().(pc := Published, quit := true, counter := 1, wakes := 1);
    var t := s.(pc := Polling, looping := true, quit := false);
    var u := t.(pc := Flagging, counter := 0);
    QuitBeforeLoop(s);
    QuitReset(s);
    WakeupRead(t, u);
    EmptyBatch(u);
    ExecAppends(Initial(), a, b);
    ExecAppends(Initial(), a + b, c);
    ExecAppends(Initial(), a + b + c, d);
  }

  lemma QuitBeforeLoop(s: State)
    requires s == Initial().(pc := Published, quit := true, counter := 1, wakes := 1)
    ensures var a := [Publish, OtherQuit, OtherQuitWake];
      CanExec(Initial(), a) && Exec(Initial(), a) == s
  {
    hide CanExec, Exec;
    var s1 := Next(Initial(), Publish);
    var s2 := Next(s1, OtherQuit);
    Three(Initial(), Publish, s1, OtherQuit, s2, OtherQuitWake);
  }

  /** A run of three steps. */
  lemma Three(s: State, a: Step, t: State, b: Step, u: State, c: Step)
    requires Enabled(s, a) && t == Next(s, a) && Enabled(t, b) && u == Next(t, b) && Enabled(u, c)
    ensures CanExec(s, [a, b, c]) && Exec(s, [a, b, c]) == Next(u, c)
  {
    hide Enabled, Next;
    Unfold(u, c, []);
    Unfold(t, b, [c]);
    Unfold(s, a, [b, c]);
    assert [c] + [] == [c] && [b] + [c] == [b, c] && [a] + [b, c] == [a, b, c];
  }

  lemma QuitReset(s: State)
    requires s.pc == Published && !s.ownerPushed
    ensures CanExec(s, [Begin, ResetQuit, TestQuit])
    ensures Exec(s, [Begin, ResetQuit, TestQuit]) == s.(pc := Polling, looping := true, quit := false)
  {
    Three(s, Begin, Next(s, Begin), ResetQuit, Next(Next(s, Begin), ResetQuit), TestQuit);
  }

  lemma WakeupRead(s: State, t: State)
    requires s.pc == Polling && s.counter > 0 && !s.ownerPushed && t == s.(pc := Flagging, counter := 0)
    ensures var b := [PollReturn([Wakeup]), ReadWakeup, DispatchDone];
      CanExec(s, b) && Exec(s, b) == t
  {
    var s1 := Next(s, PollReturn([Wakeup]));
    Three(s, PollReturn([Wakeup]), s1, ReadWakeup, Next(s1, ReadWakeup), DispatchDone);
  }

  lemma EmptyBatch(t: State)
    requires t.pc == Flagging && t.pending == [] && !t.quit && !t.calling && !t.ownerPushed && t.pushed == []
    ensures var c := [SetCalling, Swap, ClearCalling, TestQuit];
      CanExec(t, c) && Exec(t, c) == t.(pc := Polling, swaps := t.swaps + 1, batchEnd := 0)
  {
    var t1 := Next(t, SetCalling);
    var t2 := Next(t1, Swap);
    assert CanExec(t2, [ClearCalling, TestQuit]);
    assert [Swap, ClearCalling, TestQuit][1..] == [ClearCalling, TestQuit];
    assert [SetCalling, Swap, ClearCalling, TestQuit][1..] == [Swap, ClearCalling, TestQuit];
    assert CanExec(t1, [Swap, ClearCalling, TestQuit]);
  }
}
