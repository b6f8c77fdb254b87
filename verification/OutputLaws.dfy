/** Laws of the sending side over every run. */
module OutputLaws {
  import opened Buffers
  import opened Output

  // ----- byte conservation ----------------------------------------------------------------

  /** What became of bytes that left the backlog or never entered it. */
  datatype Chunk = ToKernel(bytes: seq<byte>) | Vanished(bytes: seq<byte>)

  /** A writable event whose write takes some of the backlog and not all of it. */
  predicate PartialDrain(s: Sys, step: Step) {
    step.WriteReady? && s.core.writing && step.reply.Wrote? && 0 < step.reply.n < |s.core.backlog|
  }

  predicate NoPartialDrain(s: Sys, steps: seq<Step>)
    requires CanExec(s, steps)
    decreases |steps|
  {
    steps == [] || (!PartialDrain(s, steps[0]) && NoPartialDrain(Next(s, steps[0]), steps[1..]))
  }

  /** The bytes that a step of the code as written retrieves without having written them. */
  function Overrun(s: Sys, step: Step): seq<byte>
    requires Enabled(s, step)
  {
    if s.core.cfg.retrieveAgain && PartialDrain(s, step) then
      var n, r := step.reply.n, |s.core.backlog|;
      s.core.backlog[n..n + Min(n, r - n)]
    else []
  }

  function Ledger(s: Sys, steps: seq<Step>): seq<Chunk>
    requires CanExec(s, steps)
    decreases |steps|
  {
    if steps == [] then []
    else [ToKernel(Run(s, steps[0]).bytes), Vanished(Overrun(s, steps[0]))] + Ledger(Next(s, steps[0]), steps[1..])
  }

  function AllBytes(ledger: seq<Chunk>): seq<byte> {
    if ledger == [] then [] else ledger[0].bytes + AllBytes(ledger[1..])
  }

  function LostLength(s: Sys, steps: seq<Step>): nat
    requires CanExec(s, steps)
    decreases |steps|
  {
    if steps == [] then 0
    else
      (if PartialDrain(s, steps[0]) then Min(steps[0].reply.n, |s.core.backlog| - steps[0].reply.n) else 0)
      + LostLength(Next(s, steps[0]), steps[1..])
  }

  function KeptBy(s: Sys, step: Step): seq<byte>
    requires Enabled(s, step)
  {
    var call := SendCall(s, step);
    if call.Some? && !Refused(s.core, call.value) then call.value.data else []
  }

  /** One step: what was waiting and what it accepts is what the kernel took, then what
      vanished, then what waits now. */
  lemma StepBalance(s: Sys, step: Step)
    requires Enabled(s, step)
    ensures s.core.backlog + KeptBy(s, step) == Run(s, step).bytes + Overrun(s, step) + Next(s, step).core.backlog
    ensures Next(s, step).core.cfg == s.core.cfg
  {
    hide SendInLoop, HandleWrite;
    match step {
      case InLoopSend(data, reply) =>
        if s.core.state == Connected { SendBalance(s.core, data, reply); }
      case RunTask(reply) => TaskBalance(s, reply);
      case WriteReady(reply) => DrainBalance(s, reply);
      case _ =>
    }
  }

  lemma TaskBalance(s: Sys, reply: Reply)
    requires Enabled(s, RunTask(reply))
    ensures var step := RunTask(reply);
      && s.core.backlog + KeptBy(s, step) == Run(s, step).bytes + Next(s, step).core.backlog
      && Next(s, step).core.cfg == s.core.cfg
  {
    if s.core.queue[0].SendTask? {
      SendBalance(s.core.(queue := s.core.queue[1..]), s.core.queue[0].data, reply);
    }
  }

  lemma DrainBalance(s: Sys, reply: Reply)
    requires Enabled(s, WriteReady(reply))
    ensures var e := HandleWrite(s.core, reply);
      && s.core.backlog == e.bytes + Overrun(s, WriteReady(reply)) + e.core.backlog
      && e.core.cfg == s.core.cfg
  {
    if s.core.writing && reply.Wrote? && reply.n > 0 {
      Cut(s.core.backlog, reply.n, Min(reply.n, |s.core.backlog| - reply.n));
    }
  }

  /** A sequence is its first `n` elements, the next `m`, and the rest. */
  lemma Cut<T>(xs: seq<T>, n: nat, m: nat)
    requires n + m <= |xs|
    ensures xs == xs[..n] + xs[n..n + m] + xs[n..][m..]
    ensures xs == xs[..n] + [] + xs[n..]
    ensures n + m == |xs| ==> xs[n..][m..] == []
  {
  }

  lemma SendBalance(c: Core, data: seq<byte>, reply: Reply)
    requires Fits(reply, |data|)
    ensures var e := SendInLoop(c, data, reply);
      c.backlog + (if Refused(c, Call(data, reply)) then [] else data) == e.bytes + e.core.backlog
    ensures SendInLoop(c, data, reply).core.cfg == c.cfg
  {
    if Direct(c) && reply.Wrote? {
      assert data == data[..reply.n] + data[reply.n..];
    }
  }

  /** The code as written and the version that consumes once, over every run: the kept
      messages, in order and whole, are the kernel's bytes and the vanished bytes
      interleaved as the ledger says, followed by what still waits. */
  lemma {:induction false} LedgerBalance(s: Sys, steps: seq<Step>)
    requires CanExec(s, steps)
    ensures s.core.backlog + Flatten(Kept(s, steps)) == AllBytes(Ledger(s, steps)) + Exec(s, steps).core.backlog
    ensures Exec(s, steps).core.cfg == s.core.cfg
    decreases |steps|
  {
    if steps != [] {
      var next := Next(s, steps[0]);
      StepBalance(s, steps[0]);
      LedgerBalance(next, steps[1..]);
      KeptUnfolds(s, steps);
      LedgerUnfolds(s, steps);
      Rebracket(s.core.backlog, KeptBy(s, steps[0]), Flatten(Kept(next, steps[1..])),
                Run(s, steps[0]).bytes + Overrun(s, steps[0]), next.core.backlog,
                AllBytes(Ledger(next, steps[1..])), Exec(s, steps).core.backlog);
    }
  }

  lemma Rebracket<T>(before: seq<T>, kept: seq<T>, later: seq<T>, out: seq<T>, between: seq<T>, rest: seq<T>, after: seq<T>)
    requires before + kept == out + between && between + later == rest + after
    ensures before + (kept + later) == (out + rest) + after
  {
    assert before + (kept + later) == (before + kept) + later;
    assert (out + between) + later == out + (between + later);
    assert out + (rest + after) == (out + rest) + after;
  }

  lemma KeptUnfolds(s: Sys, steps: seq<Step>)
    requires CanExec(s, steps) && steps != []
    ensures Flatten(Kept(s, steps)) == KeptBy(s, steps[0]) + Flatten(Kept(Next(s, steps[0]), steps[1..]))
  {
    var rest := Kept(Next(s, steps[0]), steps[1..]);
    var call := SendCall(s, steps[0]);
    if call.Some? && !Refused(s.core, call.value) {
      assert Kept(s, steps)[1..] == rest;
    } else {
      assert Kept(s, steps) == rest;
    }
  }

  lemma LedgerUnfolds(s: Sys, steps: seq<Step>)
    requires CanExec(s, steps) && steps != []
    ensures AllBytes(Ledger(s, steps)) ==
            Run(s, steps[0]).bytes + Overrun(s, steps[0]) + AllBytes(Ledger(Next(s, steps[0]), steps[1..]))
  {
    var ledger := Ledger(s, steps);
    var rest := Ledger(Next(s, steps[0]), steps[1..]);
    assert ledger[1..][1..] == rest;
    assert ledger[1..][0] == Vanished(Overrun(s, steps[0]));
  }

  /** The kernel's bytes are the kernel chunks of the ledger. */
  function KernelBytes(ledger: seq<Chunk>): seq<byte> {
    if ledger == [] then []
    else (if ledger[0].ToKernel? then ledger[0].bytes else []) + KernelBytes(ledger[1..])
  }

  function VanishedLength(ledger: seq<Chunk>): nat {
    if ledger == [] then 0
    else (if ledger[0].Vanished? then |ledger[0].bytes| else 0) + VanishedLength(ledger[1..])
  }

  lemma {:induction false} LedgerReadsBack(s: Sys, steps: seq<Step>)
    requires CanExec(s, steps)
    ensures KernelBytes(Ledger(s, steps)) == Bytes(s, steps)
    ensures VanishedLength(Ledger(s, steps)) == if s.core.cfg.retrieveAgain then LostLength(s, steps) else 0
    decreases |steps|
  {
    if steps != [] {
      StepBalance(s, steps[0]);
      LedgerReadsBack(Next(s, steps[0]), steps[1..]);
      var ledger := Ledger(s, steps);
      var rest := Ledger(Next(s, steps[0]), steps[1..]);
      assert ledger[1..][1..] == rest;
      assert ledger[1..][0] == Vanished(Overrun(s, steps[0]));
      assert KernelBytes(ledger[1..]) == KernelBytes(rest);
    }
  }

  lemma {:induction false} LedgerLengths(ledger: seq<Chunk>)
    ensures |AllBytes(ledger)| == |KernelBytes(ledger)| + VanishedLength(ledger)
    ensures VanishedLength(ledger) == 0 ==> AllBytes(ledger) == KernelBytes(ledger)
  {
    if ledger != [] {
      LedgerLengths(ledger[1..]);
    }
  }

  /** Consuming once, no byte is lost, duplicated or reordered: over any run, the bytes the
      kernel took followed by the backlog are the kept messages in order. */
  lemma BytesConserved(s: Sys, steps: seq<Step>)
    requires CanExec(s, steps) && !s.core.cfg.retrieveAgain
    ensures Bytes(s, steps) + Exec(s, steps).core.backlog == s.core.backlog + Flatten(Kept(s, steps))
  {
    LedgerBalance(s, steps);
    LedgerReadsBack(s, steps);
    LedgerLengths(Ledger(s, steps));
  }

  /** As written, every drain of `n` out of `r` bytes loses exactly `min(n, r - n)`. */
  lemma ExactLoss(s: Sys, steps: seq<Step>)
    requires CanExec(s, steps) && s.core.cfg.retrieveAgain
    ensures |Bytes(s, steps)| + |Exec(s, steps).core.backlog| + LostLength(s, steps)
            == |s.core.backlog| + |Flatten(Kept(s, steps))|
  {
    LedgerBalance(s, steps);
    LedgerReadsBack(s, steps);
    LedgerLengths(Ledger(s, steps));
  }

  /** As written, conservation holds exactly on the runs in which no writable event drains
      part of the backlog. */
  lemma ConservedIffNoPartialDrain(s: Sys, steps: seq<Step>)
    requires CanExec(s, steps) && s.core.cfg.retrieveAgain
    ensures Bytes(s, steps) + Exec(s, steps).core.backlog == s.core.backlog + Flatten(Kept(s, steps))
            <==> NoPartialDrain(s, steps)
  {
    LossIffPartialDrain(s, steps);
    LedgerBalance(s, steps);
    LedgerReadsBack(s, steps);
    LedgerLengths(Ledger(s, steps));
    if LostLength(s, steps) != 0 {
      ExactLoss(s, steps);
      assert |Bytes(s, steps) + Exec(s, steps).core.backlog| != |s.core.backlog + Flatten(Kept(s, steps))|;
    }
  }

  lemma {:induction false} LossIffPartialDrain(s: Sys, steps: seq<Step>)
    requires CanExec(s, steps)
    ensures LostLength(s, steps) == 0 <==> NoPartialDrain(s, steps)
    decreases |steps|
  {
    if steps != [] {
      LossIffPartialDrain(Next(s, steps[0]), steps[1..]);
    }
  }

  /** The smallest loss: two bytes wait, one is written, the other is gone, the connection
      reports the write complete and half-closes. */
  lemma OneByteLost(a: byte, b: byte, cfg: Config)
    requires cfg == Config(100, false, false, true)
    ensures var steps := [Establish, InLoopSend([a, b], Blocked), InLoopShutdown, WriteReady(Wrote(1))];
      && CanExec(Initial(cfg), steps)
      && WireOf(Initial(cfg), steps) == [Data(a), Fin]
      && Exec(Initial(cfg), steps).core.backlog == []
      && Flatten(Kept(Initial(cfg), steps)) == [a, b]
  {
    var s1 := Next(Initial(cfg), Establish);
    var s2 := s1.(core := s1.core.(writing := true, backlog := [a, b]));
    assert [] + [a, b] == [a, b];
    assert Next(s1, InLoopSend([a, b], Blocked)) == s2;
    LostAtDrain(a, b, s2);
    assert Flatten([[a, b]]) == [a, b] + Flatten([]);
    Cons(s1, InLoopSend([a, b], Blocked), [InLoopShutdown, WriteReady(Wrote(1))]);
    Cons(Initial(cfg), Establish, [InLoopSend([a, b], Blocked), InLoopShutdown, WriteReady(Wrote(1))]);
  }

  lemma LostAtDrain(a: byte, b: byte, s: Sys)
    requires s.established && s.core.backlog == [a, b] && s.core.writing && s.core.state == Connected
    requires s.core.cfg.retrieveAgain && !s.core.cfg.onWriteComplete
    ensures var steps := [InLoopShutdown, WriteReady(Wrote(1))];
      && CanExec(s, steps) && WireOf(s, steps) == [Data(a), Fin] && Kept(s, steps) == []
      && Exec(s, steps).core.backlog == []
  {
    assert Consume([a, b], 1, true) == [];
    assert [a, b][..1] == [a];
    Cons(Next(s, InLoopShutdown), WriteReady(Wrote(1)), []);
    Cons(s, InLoopShutdown, [WriteReady(Wrote(1))]);
  }

  /** A run unfolds at its first step. */
  lemma Cons(s: Sys, step: Step, rest: seq<Step>)
    requires Enabled(s, step) && CanExec(Next(s, step), rest)
    ensures CanExec(s, [step] + rest)
    ensures Exec(s, [step] + rest) == Exec(Next(s, step), rest)
    ensures WireOf(s, [step] + rest) ==
            AsData(Run(s, step).bytes) + (if Run(s, step).fin then [Fin] else []) + WireOf(Next(s, step), rest)
    ensures Kept(s, [step] + rest) ==
            (var call := SendCall(s, step); if call.Some? && !Refused(s.core, call.value) then [call.value.data] else [])
            + Kept(Next(s, step), rest)
  {
    assert ([step] + rest)[1..] == rest;
  }
}
