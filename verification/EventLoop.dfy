/** `EventLoop` as an object. Each method is proved to be the steps of the protocol that it
    takes when no other thread comes between them. */
module EventLoops {
  import opened EventLoopProtocol

  class EventLoop {
    var looping: bool
    var quit: bool
    var callingPendingFunctors: bool
    var pendingFunctors: seq<Functor>
    var eventfd: nat  // the counter behind wakeupFd_

    ghost var sys: State

    ghost predicate Valid()
      reads this
    {
      && Inv(sys) && !sys.ownerPushed
      && sys.looping == looping && sys.quit == quit && sys.calling == callingPendingFunctors
      && sys.pending == pendingFunctors && sys.counter == eventfd
    }

    constructor ()
      ensures Valid() && sys == Initial() && !looping && !quit && pendingFunctors == [] && eventfd == 0
    {
      looping, quit, callingPendingFunctors, pendingFunctors, eventfd := false, false, false, [], 0;
      sys := Initial();
    }

    /** The two stores at the top of `loop()`. */
    method EnterLoop()
      requires Valid() && sys.pc == Published
      modifies this
      ensures Valid() && sys == Exec(old(sys), [Begin, ResetQuit])
      ensures looping && !quit && pendingFunctors == old(pendingFunctors) && eventfd == old(eventfd)
    {
      Unfold(Next(sys, Begin), ResetQuit, []);
      Unfold(sys, Begin, [ResetQuit]);
      sys := TakeStep(Begin);
      looping := true;
      sys := TakeStep(ResetQuit);
      quit := false;
    }

    /** One protocol step, with the invariant it keeps. */
    ghost function TakeStep(step: Step): (t: State)
      requires Inv(sys) && Enabled(sys, step)
      reads this
      ensures t == Next(sys, step) && Inv(t)
    {
      StepKeepsInv(sys, step);
      Next(sys, step)
    }

    method Wakeup()
      modifies this`eventfd
      ensures eventfd == old(eventfd) + 1
    {
      eventfd := eventfd + 1;
    }

    method HandleRead()
      requires Valid() && Enabled(sys, ReadWakeup)
      modifies this
      ensures Valid() && sys == Next(old(sys), ReadWakeup)
      ensures eventfd == 0 && pendingFunctors == old(pendingFunctors) && quit == old(quit)
    {
      sys := TakeStep(ReadWakeup);
      eventfd := 0;
    }

    method QueueInLoop(cb: Functor, inLoopThread: bool)
      requires Valid() && (if inLoopThread then OwnerMayCall(sys.pc) else sys.pc != Created)
      modifies this
      ensures Valid()
      ensures var steps := if inLoopThread then [OwnerPush(cb), OwnerWakeTest] else [OtherPush(cb), OtherPushWake];
        CanExec(old(sys), steps) && sys == Exec(old(sys), steps)
      ensures sys.pc == old(sys.pc) && sys.swaps == old(sys.swaps) && sys.executed == old(sys.executed)
      ensures pendingFunctors == old(pendingFunctors) + [cb] && sys.pushed == old(sys.pushed) + [cb]
      ensures eventfd == old(eventfd) + (if !inLoopThread || callingPendingFunctors then 1 else 0)
      ensures callingPendingFunctors == old(callingPendingFunctors) && quit == old(quit)
    {
      hide Inv;
      ghost var push := if inLoopThread then OwnerPush(cb) else OtherPush(cb);
      ghost var wake := if inLoopThread then OwnerWakeTest else OtherPushWake;
      Unfold(Next(sys, push), wake, []);
      Unfold(sys, push, [wake]);
      sys := TakeStep(push);
      pendingFunctors := pendingFunctors + [cb];
      sys := TakeStep(wake);
      if !inLoopThread || callingPendingFunctors {
        Wakeup();
      }
    }

    method Quit(inLoopThread: bool)
      requires Valid() && (if inLoopThread then OwnerMayCall(sys.pc) else sys.pc != Created)
      modifies this
      ensures Valid()
      ensures var steps := if inLoopThread then [OwnerQuit] else [OtherQuit, OtherQuitWake];
        CanExec(old(sys), steps) && sys == Exec(old(sys), steps)
      ensures quit && (inLoopThread ==> sys == old(sys).(quit := true))
      ensures eventfd == old(eventfd) + (if inLoopThread then 0 else 1) && pendingFunctors == old(pendingFunctors)
    {
      hide Inv;
      if inLoopThread {
        Unfold(sys, OwnerQuit, []);
        sys := TakeStep(OwnerQuit);
      } else {
        Unfold(Next(sys, OtherQuit), OtherQuitWake, []);
        Unfold(sys, OtherQuit, [OtherQuitWake]);
        sys := TakeStep(OtherQuit);
        sys := TakeStep(OtherQuitWake);
      }
      quit := true;
      if !inLoopThread {
        Wakeup();
      }
    }

    /** Runs the functors that were pending at the swap, in order, and no others: those that
        they queue, `queues(f)` for functor `f`, wait for the next batch, each with a wakeup.
        A functor that quits the loop, `quits(f)`, does not cut the batch short. */
    method DoPendingFunctors(queues: Functor -> seq<Functor>, quits: Functor -> bool)
      requires Valid() && sys.pc == Flagging
      modifies this
      ensures Valid() && sys.pc == Testing && sys.swaps == old(sys.swaps) + 1
      ensures sys.executed == old(sys.executed) + old(pendingFunctors)
      ensures pendingFunctors == QueuedBy(old(pendingFunctors), queues)
      ensures sys.pushed == old(sys.pushed) + QueuedBy(old(pendingFunctors), queues)
      ensures eventfd == old(eventfd) + |QueuedBy(old(pendingFunctors), queues)|
      ensures quit == (old(quit) || exists f :: f in old(pendingFunctors) && quits(f))
    {
      hide Inv;
      var functors := TakeBatch();
      ghost var pushed, executed, counter := sys.pushed, sys.executed, eventfd;
      assert functors[0..] == functors && functors[..0] == [];
      for i := 0 to |functors|
        invariant Valid() && sys.pc == Running(functors[i..]) && sys.swaps == old(sys.swaps) + 1
        invariant sys.executed == executed + functors[..i]
        invariant pendingFunctors == QueuedBy(functors[..i], queues)
        invariant sys.pushed == pushed + QueuedBy(functors[..i], queues)
        invariant eventfd == counter + |QueuedBy(functors[..i], queues)|
        invariant quit == (old(quit) || exists f :: f in functors[..i] && quits(f))
      {
        assert functors[..i + 1] == functors[..i] + [functors[i]];
        assert functors[i..][1..] == functors[i + 1..];
        QueuedBySnoc(functors[..i], functors[i], queues);
        RunNext(queues(functors[i]), quits(functors[i]));
      }
      assert functors[..|functors|] == functors;
      FinishBatch();
    }

    method FinishBatch()
      requires Valid() && sys.pc == Running([])
      modifies this
      ensures Valid() && sys == Next(old(sys), ClearCalling)
    {
      sys := TakeStep(ClearCalling);
      callingPendingFunctors := false;
    }

    /** The flag and the swap under the lock. */
    method TakeBatch() returns (functors: seq<Functor>)
      requires Valid() && sys.pc == Flagging
      modifies this
      ensures Valid() && sys.pc == Running(functors) && sys.swaps == old(sys.swaps) + 1
      ensures functors == old(pendingFunctors) && pendingFunctors == [] && eventfd == old(eventfd) && quit == old(quit)
      ensures sys.executed == old(sys.executed) && sys.pushed == old(sys.pushed)
    {
      sys := TakeStep(SetCalling);
      callingPendingFunctors := true;
      functors := pendingFunctors;
      sys := TakeStep(Swap);
      pendingFunctors := [];
    }

    /** One turn of the loop over the batch. */
    method RunNext(fs: seq<Functor>, quits: bool)
      requires Valid() && sys.pc.Running? && sys.pc.rest != []
      modifies this
      ensures Valid() && sys.pc == Running(old(sys.pc.rest[1..])) && sys.swaps == old(sys.swaps)
      ensures sys.executed == old(sys.executed) + [old(sys.pc.rest[0])]
      ensures pendingFunctors == old(pendingFunctors) + fs && sys.pushed == old(sys.pushed) + fs
      ensures eventfd == old(eventfd) + |fs| && quit == (old(quit) || quits)
    {
      sys := TakeStep(StartFunctor);
      RunFunctor(fs, quits);
      sys := TakeStep(FunctorDone);
    }

    /** A functor's calls of `queueInLoop`, and of `quit` if it makes one. */
    method RunFunctor(fs: seq<Functor>, quits: bool)
      requires Valid() && sys.pc.InFunctor?
      modifies this
      ensures Valid() && sys.pc == old(sys.pc) && sys.swaps == old(sys.swaps) && sys.executed == old(sys.executed)
      ensures pendingFunctors == old(pendingFunctors) + fs && sys.pushed == old(sys.pushed) + fs
      ensures eventfd == old(eventfd) + |fs| && quit == (old(quit) || quits)
    {
      assert callingPendingFunctors;
      for i := 0 to |fs|
        invariant Valid() && callingPendingFunctors && sys.pc == old(sys.pc) && sys.swaps == old(sys.swaps) && sys.executed == old(sys.executed)
        invariant pendingFunctors == old(pendingFunctors) + fs[..i] && sys.pushed == old(sys.pushed) + fs[..i]
        invariant eventfd == old(eventfd) + i && quit == old(quit)
      {
        hide Inv;
        QueueInLoop(fs[i], true);
      }
      if quits {
        Quit(true);
      }
    }
  }

  /** Everything that the functors of a batch queue while they run. */
  function QueuedBy(batch: seq<Functor>, queues: Functor -> seq<Functor>): seq<Functor> {
    if batch == [] then [] else queues(batch[0]) + QueuedBy(batch[1..], queues)
  }

  lemma {:induction false} QueuedBySnoc(batch: seq<Functor>, f: Functor, queues: Functor -> seq<Functor>)
    ensures QueuedBy(batch + [f], queues) == QueuedBy(batch, queues) + queues(f)
  {
    if batch == [] {
      assert [] + [f] == [f];
    } else {
      assert (batch + [f])[0] == batch[0] && (batch + [f])[1..] == batch[1..] + [f];
      QueuedBySnoc(batch[1..], f, queues);
    }
  }
}
