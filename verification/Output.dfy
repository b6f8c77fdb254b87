/** The sending side of a connection as a step system: direct writes, the backlog and its
    EPOLLOUT draining, high-water notifications and the half-close, with other threads
    interleaved between the points where they touch shared state. */
module Output {
  import opened Buffers

  datatype State = Disconnected | Connecting | Connected | Disconnecting

  /** Functors a connection queues on its own loop; a send remembers which thread called. */
  datatype Task = SendTask(thread: nat, data: seq<byte>) | ShutdownTask | WriteCompleteTask | HighWaterTask(backlog: nat)

  /** Fixed per connection. `retrieveAgain` tells apart the code as written, whose
      `handleWrite` retrieves once more what `writeFd` has already consumed, from the
      version that consumes once. */
  datatype Config = Config(mark: nat, onHighWater: bool, onWriteComplete: bool, retrieveAgain: bool)

  /** The kernel's answer to one `write`. */
  datatype Reply = Wrote(n: nat) | Blocked | Fatal

  datatype Core = Core(state: State, writing: bool, backlog: seq<byte>, queue: seq<Task>, cfg: Config)

  /** The new state, the bytes the kernel took, and whether SHUT_WR followed them. */
  datatype Effect = Effect(core: Core, bytes: seq<byte>, fin: bool)

  predicate Fits(reply: Reply, len: nat) {
    reply.Wrote? ==> reply.n <= len
  }

  function Post(c: Core, task: Task): Core {
    c.(queue := c.queue + [task])
  }

  function PostIf(c: Core, condition: bool, task: Task): Core {
    if condition then Post(c, task) else c
  }

  /** `sendInLoop` tries the kernel first only when nothing is waiting. */
  predicate Direct(c: Core) {
    !c.writing && c.backlog == []
  }

  function Enqueue(c: Core, rest: seq<byte>): Core {
    if rest == [] then c
    else
      var total := |c.backlog| + |rest|;
      PostIf(c.(backlog := c.backlog + rest, writing := true),
             c.cfg.onHighWater && |c.backlog| < c.cfg.mark <= total, HighWaterTask(total))
  }

  function SendInLoop(c: Core, data: seq<byte>, reply: Reply): Effect
    requires Fits(reply, |data|)
  {
    if !Direct(c) then Effect(Enqueue(c, data), [], false)
    else match reply
      case Wrote(n) =>
        Effect(Enqueue(PostIf(c, n == |data| && c.cfg.onWriteComplete, WriteCompleteTask), data[n..]), data[..n], false)
      case Blocked => Effect(Enqueue(c, data), [], false)
      case Fatal => Effect(c, [], false)
  }

  function ShutdownInLoop(c: Core): Effect {
    Effect(c, [], !c.writing)
  }

  /** What is left of the backlog after the kernel took `n` bytes of it. */
  function Consume(backlog: seq<byte>, n: nat, again: bool): seq<byte>
    requires n <= |backlog|
  {
    if again then backlog[n..][Min(n, |backlog| - n)..] else backlog[n..]
  }

  function HandleWrite(c: Core, reply: Reply): Effect
    requires Fits(reply, |c.backlog|)
  {
    if !c.writing || !reply.Wrote? || reply.n == 0 then Effect(c, [], false)
    else
      var taken := c.backlog[..reply.n];
      var c1 := c.(backlog := Consume(c.backlog, reply.n, c.cfg.retrieveAgain));
      if c1.backlog != [] then Effect(c1, taken, false)
      else
        var c2 := PostIf(c1.(writing := false), c.cfg.onWriteComplete, WriteCompleteTask);
        Effect(c2, taken, c2.state == Disconnecting)
  }

  // ----- the step system ----------------------------------------------------------------

  /** The connection and the program points of other threads: for each thread inside `send`,
      the message that passed the state test and is not queued yet, and the number of
      shutdowns that exchanged the state and have not queued their functor yet. `closed` means
      that all interest was turned off, by `handleClose` or by a `connectDestroyed` that found
      the connection up. */
  datatype Sys = Sys(core: Core, established: bool, closed: bool, checked: map<nat, seq<byte>>, owed: nat)

  datatype Step =
    | Establish                               // connectEstablished
    | InLoopSend(data: seq<byte>, reply: Reply)
    | CheckSend(thread: nat, data: seq<byte>) // send from another thread: the state test
    | PushSend(thread: nat)                   // ... and its queueInLoop
    | InLoopShutdown
    | ForeignShutdown                         // shutdown from another thread: the exchange
    | PushShutdown                            // ... and its queueInLoop
    | RunTask(reply: Reply)                   // the loop runs the next functor
    | WriteReady(reply: Reply)                // EPOLLOUT
    | HandleClose
    | Destroy                                 // connectDestroyed

  function Initial(cfg: Config): Sys {
    Sys(Core(Connecting, false, [], [], cfg), false, false, map[], 0)
  }

  predicate Enabled(s: Sys, step: Step) {
    match step
    case Establish => !s.established
    case InLoopSend(data, reply) => Fits(reply, |data|)
    case CheckSend(t, _) => s.core.state == Connected && t !in s.checked
    case PushSend(t) => t in s.checked
    case InLoopShutdown => true
    case ForeignShutdown => true
    case PushShutdown => s.owed > 0
    case RunTask(reply) => s.core.queue != [] && (s.core.queue[0].SendTask? ==> Fits(reply, |s.core.queue[0].data|))
    case WriteReady(reply) => s.established && Fits(reply, |s.core.backlog|)
    case HandleClose => s.established
    case Destroy => s.established
  }

  datatype Ran = Ran(sys: Sys, bytes: seq<byte>, fin: bool)

  function Lift(s: Sys, e: Effect): Ran {
    Ran(s.(core := e.core), e.bytes, e.fin)
  }

  function Quietly(s: Sys): Ran {
    Ran(s, [], false)
  }

  function Run(s: Sys, step: Step): Ran
    requires Enabled(s, step)
  {
    var c := s.core;
    match step
    case Establish => Quietly(s.(core := c.(state := Connected), established := true))
    case InLoopSend(data, reply) => if c.state != Connected then Quietly(s) else Lift(s, SendInLoop(c, data, reply))
    case CheckSend(t, data) => Quietly(s.(checked := s.checked[t := data]))
    case PushSend(t) => Quietly(s.(core := Post(c, SendTask(t, s.checked[t])), checked := s.checked - {t}))
    case InLoopShutdown =>
      var c1 := c.(state := Disconnecting);
      if c.state == Connected then Lift(s, ShutdownInLoop(c1)) else Quietly(s.(core := c1))
    case ForeignShutdown =>
      Quietly(s.(core := c.(state := Disconnecting), owed := if c.state == Connected then s.owed + 1 else s.owed))
    case PushShutdown => Quietly(s.(core := Post(c, ShutdownTask), owed := s.owed - 1))
    case RunTask(reply) =>
      var c1 := c.(queue := c.queue[1..]);
      (match c.queue[0]
       case SendTask(_, data) => Lift(s, SendInLoop(c1, data, reply))
       case ShutdownTask => Lift(s, ShutdownInLoop(c1))
       case _ => Quietly(s.(core := c1)))
    case WriteReady(reply) => Lift(s, HandleWrite(c, reply))
    case HandleClose => Quietly(s.(core := c.(state := Disconnected, writing := false), closed := true))
    case Destroy =>
      if c.state == Connected then Quietly(s.(core := c.(state := Disconnected, writing := false), closed := true))
      else Quietly(s.(core := c.(state := Disconnected)))
  }

  function Next(s: Sys, step: Step): Sys
    requires Enabled(s, step)
  {
    Run(s, step).sys
  }

  predicate CanExec(s: Sys, steps: seq<Step>)
    decreases |steps|
  {
    steps == [] || (Enabled(s, steps[0]) && CanExec(Next(s, steps[0]), steps[1..]))
  }

  function Exec(s: Sys, steps: seq<Step>): Sys
    requires CanExec(s, steps)
    decreases |steps|
  {
    if steps == [] then s else Exec(Next(s, steps[0]), steps[1..])
  }

  // ----- what an observer of a run sees ---------------------------------------------------

  datatype Wire = Data(b: byte) | Fin

  function AsData(bytes: seq<byte>): (w: seq<Wire>)
    ensures |w| == |bytes|
  {
    seq(|bytes|, i requires 0 <= i < |bytes| => Data(bytes[i]))
  }

  /** The bytes the kernel took during a run. */
  function Bytes(s: Sys, steps: seq<Step>): seq<byte>
    requires CanExec(s, steps)
    decreases |steps|
  {
    if steps == [] then [] else Run(s, steps[0]).bytes + Bytes(Next(s, steps[0]), steps[1..])
  }

  /** Bytes and half-closes in the order the kernel saw them. */
  function WireOf(s: Sys, steps: seq<Step>): seq<Wire>
    requires CanExec(s, steps)
    decreases |steps|
  {
    if steps == [] then []
    else
      var o := Run(s, steps[0]);
      AsData(o.bytes) + (if o.fin then [Fin] else []) + WireOf(o.sys, steps[1..])
  }

  datatype Option<+T> = None | Some(value: T)
  datatype Call = Call(data: seq<byte>, reply: Reply)

  /** The `sendInLoop` call that a step makes. */
  function SendCall(s: Sys, step: Step): Option<Call>
    requires Enabled(s, step)
  {
    match step
    case InLoopSend(data, reply) => if s.core.state == Connected then Some(Call(data, reply)) else None
    case RunTask(reply) => if s.core.queue[0].SendTask? then Some(Call(s.core.queue[0].data, reply)) else None
    case _ => None
  }

  /** The message is refused: its first write failed for good. */
  predicate Refused(c: Core, call: Call) {
    Direct(c) && call.reply == Fatal
  }

  /** The messages of a run that were not refused, each in full. */
  function Kept(s: Sys, steps: seq<Step>): seq<seq<byte>>
    requires CanExec(s, steps)
    decreases |steps|
  {
    if steps == [] then []
    else
      var call := SendCall(s, steps[0]);
      (if call.Some? && !Refused(s.core, call.value) then [call.value.data] else [])
      + Kept(Next(s, steps[0]), steps[1..])
  }

  function Flatten(messages: seq<seq<byte>>): seq<byte> {
    if messages == [] then [] else messages[0] + Flatten(messages[1..])
  }

  lemma {:induction false} FlattenAppends(a: seq<seq<byte>>, b: seq<seq<byte>>)
    ensures Flatten(a + b) == Flatten(a) + Flatten(b)
  {
    if a == [] {
      assert a + b == b;
    } else {
      assert (a + b)[1..] == a[1..] + b;
      FlattenAppends(a[1..], b);
    }
  }
}
