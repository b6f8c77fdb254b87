/** Messages of one thread keep their order. */
module SendOrder {
  import opened Buffers
  import opened Output
  import OutputLaws

  /** One run of `sendInLoop`: for which other thread, if it was queued by one, with what, and
      whether the message was not refused. */
  datatype Sending = Sending(from: Option<nat>, data: seq<byte>, kept: bool)

  function Sendings(s: Sys, step: Step): seq<Sending>
    requires Enabled(s, step)
  {
    var call := SendCall(s, step);
    if call.None? then []
    else [Sending(if step.RunTask? then Some(s.core.queue[0].thread) else None, call.value.data, !Refused(s.core, call.value))]
  }

  /** Every run of `sendInLoop`, in order. */
  function Log(s: Sys, steps: seq<Step>): seq<Sending>
    requires CanExec(s, steps)
    decreases |steps|
  {
    if steps == [] then [] else Sendings(s, steps[0]) + Log(Next(s, steps[0]), steps[1..])
  }

  /** The messages in the log that thread `t` sent. */
  function From(log: seq<Sending>, t: nat): seq<seq<byte>> {
    if log == [] then [] else (if log[0].from == Some(t) then [log[0].data] else []) + From(log[1..], t)
  }

  /** The messages with which thread `t` passed the state test of `send`, in order. */
  function Sent(s: Sys, steps: seq<Step>, t: nat): seq<seq<byte>>
    requires CanExec(s, steps)
    decreases |steps|
  {
    if steps == [] then [] else Passed(steps[0], t) + Sent(Next(s, steps[0]), steps[1..], t)
  }

  function Passed(step: Step, t: nat): seq<seq<byte>> {
    if step.CheckSend? && step.thread == t then [step.data] else []
  }

  /** The messages of thread `t` that are on their way, those queued first. */
  function OnTheWay(s: Sys, t: nat): seq<seq<byte>> {
    QueuedBy(s.core.queue, t) + (if t in s.checked then [s.checked[t]] else [])
  }

  function QueuedBy(queue: seq<Task>, t: nat): seq<seq<byte>> {
    if queue == [] then [] else SentBy(queue[0], t) + QueuedBy(queue[1..], t)
  }

  function SentBy(task: Task, t: nat): seq<seq<byte>> {
    if task.SendTask? && task.thread == t then [task.data] else []
  }

  lemma {:induction false} QueuedByAppends(queue: seq<Task>, task: Task, t: nat)
    ensures QueuedBy(queue + [task], t) == QueuedBy(queue, t) + SentBy(task, t)
  {
    if queue == [] {
      assert [] + [task] == [task];
    } else {
      assert (queue + [task])[1..] == queue[1..] + [task];
      QueuedByAppends(queue[1..], task, t);
    }
  }

  lemma SendInLoopQueuesNoSend(c: Core, data: seq<byte>, reply: Reply, t: nat)
    requires Fits(reply, |data|)
    ensures QueuedBy(SendInLoop(c, data, reply).core.queue, t) == QueuedBy(c.queue, t)
  {
    var total := SendInLoop(c, data, reply).core.backlog;
    var c1 := PostIf(c, Direct(c) && reply == Wrote(|data|) && c.cfg.onWriteComplete, WriteCompleteTask);
    QueuedByAppends(c.queue, WriteCompleteTask, t);
    QueuedByAppends(c1.queue, HighWaterTask(|total|), t);
  }

  lemma StepKeepsOrder(s: Sys, step: Step, t: nat)
    requires Enabled(s, step)
    ensures OnTheWay(s, t) + Passed(step, t) == From(Sendings(s, step), t) + OnTheWay(Next(s, step), t)
  {
    hide SendInLoop, HandleWrite;
    if step.RunTask? {
      TaskKeepsOrder(s, step.reply, t);
    } else if step.PushSend? {
      PushKeepsOrder(s, step.thread, t);
    } else {
      OtherStepKeepsQueue(s, step, t);
    }
  }

  lemma PushKeepsOrder(s: Sys, u: nat, t: nat)
    requires u in s.checked
    ensures OnTheWay(Next(s, PushSend(u)), t) == OnTheWay(s, t)
  {
    QueuedByAppends(s.core.queue, SendTask(u, s.checked[u]), t);
  }

  lemma OtherStepKeepsQueue(s: Sys, step: Step, t: nat)
    requires Enabled(s, step) && !step.RunTask? && !step.PushSend?
    ensures QueuedBy(Next(s, step).core.queue, t) == QueuedBy(s.core.queue, t)
    ensures From(Sendings(s, step), t) == []
  {
    hide SendInLoop, Refused;
    match step {
      case InLoopSend(data, reply) =>
        if s.core.state == Connected { SendInLoopQueuesNoSend(s.core, data, reply, t); }
      case PushShutdown => QueuedByAppends(s.core.queue, ShutdownTask, t);
      case WriteReady(reply) => QueuedByAppends(s.core.queue, WriteCompleteTask, t);
      case _ =>
    }
  }

  lemma TaskKeepsOrder(s: Sys, reply: Reply, t: nat)
    requires Enabled(s, RunTask(reply))
    ensures var s' := Next(s, RunTask(reply));
      && s'.checked == s.checked
      && QueuedBy(s.core.queue, t) == From(Sendings(s, RunTask(reply)), t) + QueuedBy(s'.core.queue, t)
  {
    hide SendInLoop, Refused, QueuedBy;
    var task := s.core.queue[0];
    var c := s.core.(queue := s.core.queue[1..]);
    QueuedByPops(s.core.queue, t);
    if task.SendTask? {
      SendInLoopQueuesNoSend(c, task.data, reply, t);
      FromOne(Sendings(s, RunTask(reply))[0], t);
    }
  }

  lemma QueuedByPops(queue: seq<Task>, t: nat)
    requires queue != []
    ensures QueuedBy(queue, t) == SentBy(queue[0], t) + QueuedBy(queue[1..], t)
  {
  }

  lemma FromOne(sending: Sending, t: nat)
    ensures From([sending], t) == if sending.from == Some(t) then [sending.data] else []
  {
    assert [sending][1..] == [];
  }

  lemma {:induction false} FromAppends(a: seq<Sending>, b: seq<Sending>, t: nat)
    ensures From(a + b, t) == From(a, t) + From(b, t)
  {
    if a == [] {
      assert a + b == b;
    } else {
      assert (a + b)[1..] == a[1..] + b;
      FromAppends(a[1..], b, t);
    }
  }

  lemma {:induction false} OrderBalance(s: Sys, steps: seq<Step>, t: nat)
    requires CanExec(s, steps)
    ensures OnTheWay(s, t) + Sent(s, steps, t) == From(Log(s, steps), t) + OnTheWay(Exec(s, steps), t)
    decreases |steps|
  {
    if steps != [] {
      var next := Next(s, steps[0]);
      StepKeepsOrder(s, steps[0], t);
      OrderBalance(next, steps[1..], t);
      FromAppends(Sendings(s, steps[0]), Log(next, steps[1..]), t);
      Rebracket(OnTheWay(s, t), Passed(steps[0], t), Sent(next, steps[1..], t), From(Sendings(s, steps[0]), t),
                OnTheWay(next, t), From(Log(next, steps[1..]), t), OnTheWay(Exec(s, steps), t));
    }
  }

  lemma Rebracket<T>(way: seq<T>, passed: seq<T>, later: seq<T>, from: seq<T>, between: seq<T>, rest: seq<T>, after: seq<T>)
    requires way + passed == from + between && between + later == rest + after
    ensures way + (passed + later) == (from + rest) + after
  {
    assert way + (passed + later) == (way + passed) + later;
    assert (from + between) + later == from + (between + later);
  }

  /** However the other threads, the loop and the kernel interleave, the messages of thread
      `t` reach `sendInLoop` in the order in which `t` sent them, each once, and the rest is
      queued or about to be. */
  lemma ThreadOrder(cfg: Config, steps: seq<Step>, t: nat)
    requires CanExec(Initial(cfg), steps)
    ensures var s := Initial(cfg);
      Sent(s, steps, t) == From(Log(s, steps), t) + OnTheWay(Exec(s, steps), t)
  {
    OrderBalance(Initial(cfg), steps, t);
    assert OnTheWay(Initial(cfg), t) == [];
  }

  // ----- the wire ---------------------------------------------------------------------------

  function KeptOnly(log: seq<Sending>): seq<Sending> {
    if log == [] then [] else (if log[0].kept then [log[0]] else []) + KeptOnly(log[1..])
  }

  function Data(log: seq<Sending>): seq<seq<byte>> {
    if log == [] then [] else [log[0].data] + Data(log[1..])
  }

  lemma {:induction false} KeptInOrder(s: Sys, steps: seq<Step>)
    requires CanExec(s, steps)
    ensures Data(KeptOnly(Log(s, steps))) == Kept(s, steps)
    decreases |steps|
  {
    if steps != [] {
      KeptInOrder(Next(s, steps[0]), steps[1..]);
      var log, rest := Log(s, steps), Log(Next(s, steps[0]), steps[1..]);
      if Sendings(s, steps[0]) == [] {
        assert log == rest;
      } else {
        assert log[1..] == rest;
        if log[0].kept {
          assert KeptOnly(log)[1..] == KeptOnly(rest);
        } else {
          assert KeptOnly(log) == KeptOnly(rest);
        }
      }
    }
  }

  /** `a` is `b` with some elements left out. */
  predicate Subsequence<T(==)>(a: seq<T>, b: seq<T>) {
    a == [] || (b != [] && (if a[0] == b[0] then Subsequence(a[1..], b[1..]) else Subsequence(a, b[1..])))
  }

  lemma {:induction false} SubsequenceSkips<T>(x: T, a: seq<T>, b: seq<T>)
    requires Subsequence(a, b)
    ensures Subsequence(a, [x] + b)
    decreases |b|
  {
    assert ([x] + b)[1..] == b;
    if a != [] && a[0] == x {
      if a[0] == b[0] {
        SubsequenceSkips(b[0], a[1..], b[1..]);
        assert [b[0]] + b[1..] == b;
      } else {
        SubsequenceDrops(a, b[1..]);
        SubsequenceSkips(b[0], a[1..], b[1..]);
        assert [b[0]] + b[1..] == b;
      }
    }
  }

  lemma {:induction false} SubsequenceDrops<T>(a: seq<T>, b: seq<T>)
    requires Subsequence(a, b) && a != []
    ensures Subsequence(a[1..], b)
    decreases |b|
  {
    if a[0] == b[0] {
      SubsequenceSkips(b[0], a[1..], b[1..]);
      assert [b[0]] + b[1..] == b;
    } else {
      SubsequenceDrops(a, b[1..]);
      SubsequenceSkips(b[0], a[1..], b[1..]);
      assert [b[0]] + b[1..] == b;
    }
  }

  lemma {:induction false} SubsequenceOfPrefix<T>(a: seq<T>, b: seq<T>, c: seq<T>)
    requires Subsequence(a, b)
    ensures Subsequence(a, b + c)
    decreases |b|
  {
    if a != [] {
      assert (b + c)[1..] == b[1..] + c;
      SubsequenceOfPrefix(if a[0] == b[0] then a[1..] else a, b[1..], c);
    }
  }

  /** Leaving out refused messages keeps the order of each thread. */
  lemma {:induction false} KeptOnlyKeepsOrder(log: seq<Sending>, t: nat)
    ensures Subsequence(From(KeptOnly(log), t), From(log, t))
  {
    if log != [] {
      KeptOnlyKeepsOrder(log[1..], t);
      var kept, all := From(KeptOnly(log[1..]), t), From(log[1..], t);
      FromAppends(if log[0].kept then [log[0]] else [], KeptOnly(log[1..]), t);
      FromOne(log[0], t);
      if log[0].from == Some(t) {
        if log[0].kept {
          assert ([log[0].data] + kept)[1..] == kept && ([log[0].data] + all)[1..] == all;
        } else {
          assert From(KeptOnly(log), t) == kept;
          SubsequenceSkips(log[0].data, kept, all);
        }
      } else {
        assert From(KeptOnly(log), t) == kept && From(log, t) == all;
      }
    }
  }

  /** Consuming once, the bytes the kernel took followed by the backlog are whole messages one
      after the other, and among them those of each thread come in the order in which that
      thread sent them. */
  lemma WireKeepsThreadOrder(cfg: Config, steps: seq<Step>, t: nat)
    requires !cfg.retrieveAgain && CanExec(Initial(cfg), steps)
    ensures var s := Initial(cfg);
      var messages := KeptOnly(Log(s, steps));
      && Bytes(s, steps) + Exec(s, steps).core.backlog == Flatten(Data(messages))
      && Subsequence(From(messages, t), Sent(s, steps, t))
  {
    var s := Initial(cfg);
    OutputLaws.BytesConserved(s, steps);
    KeptInOrder(s, steps);
    assert [] + Flatten(Kept(s, steps)) == Flatten(Kept(s, steps));
    ThreadOrder(cfg, steps, t);
    KeptOnlyKeepsOrder(Log(s, steps), t);
    SubsequenceOfPrefix(From(KeptOnly(Log(s, steps)), t), From(Log(s, steps), t), OnTheWay(Exec(s, steps), t));
  }
}
