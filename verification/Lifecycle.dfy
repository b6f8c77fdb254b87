/** The life of connections across the base loop and the I/O loops: `TcpServer` accepts on
    loop 0, a connection is established, closed and destroyed on its home loop, and the
    server's map is changed on loop 0. Every loop runs its functor queue in batches between
    dispatches; any interleaving of the loops is a run. */
module Lifecycle {
  import opened Poller
  import Output

  type LoopId = nat
  type ConnId = nat

  /** Functors in a loop's queue that concern a connection. The first three hold a reference
      to it; a send functor holds a bare pointer. */
  datatype Task = Establish(conn: ConnId) | Remove(conn: ConnId) | Destroy(conn: ConnId) | LateSend(conn: ConnId)

  datatype Phase = Polling | Dispatching | Functors

  /** One loop: where it is, the active connections it has yet to dispatch, its functor queue
      of which the first `batch` are being run, and its poller. */
  datatype Loop = Loop(phase: Phase, active: seq<ConnId>, queue: seq<Task>, batch: nat, reg: Registry<ConnId>)

  datatype Conn = Conn(
    home: LoopId,
    fd: int,
    serial: nat,         // how many names the server had handed out before
    open: bool,          // the descriptor is not closed yet
    state: Output.State,
    established: bool,
    closes: nat,         // runs of handleClose
    issued: nat,         // connectDestroyed functors queued
    destroyed: nat,      // runs of connectDestroyed
    ups: nat,            // connection callbacks
    downs: nat,
    decisions: nat)      // shutdown calls that found Connected

  /** `incoming`: loop 0 still has its acceptor's read event to handle, which accepts once. */
  datatype System = System(loops: seq<Loop>, conns: seq<Conn>, connections: map<nat, ConnId>, serial: nat, incoming: bool)

  datatype Step =
    | Accept(home: LoopId, fd: int)           // newConnection, in a dispatch of loop 0
    | AcceptFails                             // its getsockname failed
    | PollReturn(loop: LoopId, active: seq<ConnId>)
    | HandleClose(loop: LoopId)               // of the connection being dispatched
    | Drained(loop: LoopId)                   // its handleWrite turns writing interest off
    | Handled(loop: LoopId)                   // its dispatch is over
    | StartBatch(loop: LoopId)                // no active channel left: swap
    | RunTask(loop: LoopId, waits: bool)      // `waits`: a send leaves bytes in the backlog
    | EndBatch(loop: LoopId)
    | InLoopSend(loop: LoopId, conn: ConnId)  // one that leaves bytes in the backlog
    | PushSend(conn: ConnId)                  // from another thread
    | Shutdown(conn: ConnId)                  // from any thread
    | Release(conn: ConnId)                   // the last reference is gone: the fd is closed

  const NAMES := 0x1_0000_0000  // nextConnId_ is a 32-bit counter that starts at 1

  function Name(serial: nat): nat {
    (serial + 1) % NAMES
  }

  function EmptyLoop(): Loop {
    Loop(Polling, [], [], 0, Registry(map[], map[], map[], 0))
  }

  function Initial(n: nat): System
    requires n > 0
  {
    System(seq(n, _ => EmptyLoop()), [], map[], 0, false)
  }

  // ----- parts of steps -------------------------------------------------------------------

  predicate Known(s: System, c: ConnId) {
    c < |s.conns| && s.conns[c].home < |s.loops| && c in s.loops[s.conns[c].home].reg.slots
  }

  function Home(s: System, c: ConnId): Loop
    requires Known(s, c)
  {
    s.loops[s.conns[c].home]
  }

  function SlotOf(s: System, c: ConnId): Slot
    requires Known(s, c)
  {
    Home(s, c).reg.slots[c]
  }

  function SetConn(s: System, c: ConnId, conn: Conn): System
    requires c < |s.conns|
  {
    s.(conns := s.conns[c := conn])
  }

  function Post(s: System, l: LoopId, task: Task): System {
    if l < |s.loops| then s.(loops := s.loops[l := s.loops[l].(queue := s.loops[l].queue + [task])]) else s
  }

  /** A call on the connection's channel. */
  function OnChannel(s: System, c: ConnId, op: ChannelOp): System
    requires Known(s, c)
  {
    var l := s.conns[c].home;
    s.(loops := s.loops[l := s.loops[l].(reg := Apply(s.loops[l].reg, c, op))])
  }

  function ConnectEstablished(s: System, c: ConnId): System
    requires Known(s, c)
  {
    var conn := s.conns[c];
    OnChannel(SetConn(s, c, conn.(state := Output.Connected, established := true, ups := conn.ups + 1)), c, EnableReading)
  }

  function RemoveConnectionInLoop(s: System, c: ConnId): System
    requires Known(s, c)
  {
    var conn := s.conns[c];
    if Name(conn.serial) !in s.connections then s
    else
      var erased := s.(connections := s.connections - {Name(conn.serial)});
      Post(SetConn(erased, c, conn.(issued := conn.issued + 1)), conn.home, Destroy(c))
  }

  function CloseConn(s: System, c: ConnId): System
    requires Known(s, c)
  {
    var conn := s.conns[c];
    var s1 := OnChannel(SetConn(s, c, conn.(state := Output.Disconnected, closes := conn.closes + 1, downs := conn.downs + 1)), c, DisableAll);
    if conn.home == 0 then RemoveConnectionInLoop(s1, c) else Post(s1, 0, Remove(c))
  }

  function ConnectDestroyed(s: System, c: ConnId): System
    requires Known(s, c)
  {
    var conn := s.conns[c];
    var connected := conn.state == Output.Connected;
    var s1 := SetConn(s, c, conn.(state := Output.Disconnected, destroyed := conn.destroyed + 1,
                                  downs := if connected then conn.downs + 1 else conn.downs));
    OnChannel(if connected then OnChannel(s1, c, DisableAll) else s1, c, RemoveChannel)
  }

  function EnableWritingIf(s: System, c: ConnId, waits: bool): System
    requires Known(s, c)
  {
    if waits && Out !in SlotOf(s, c).events then OnChannel(s, c, EnableWriting) else s
  }

  function NewConnection(s: System, home: LoopId, fd: int): System
    requires home < |s.loops|
  {
    var c := |s.conns|;
    var name := Name(s.serial);
    var conn := Conn(home, fd, s.serial, true, Output.Connecting, false, 0, 0, 0, 0, 0, 0);
    var s1 := System(s.loops[home := s.loops[home].(reg := Adopt(s.loops[home].reg, c, fd))],
                     s.conns + [conn],
                     if name in s.connections then s.connections else s.connections[name := c],
                     s.serial + 1,
                     false);
    if home == 0 then ConnectEstablished(s1, c) else Post(s1, home, Establish(c))
  }

  function RunOne(s: System, task: Task, waits: bool): System
    requires Known(s, task.conn)
  {
    match task
    case Establish(c) => ConnectEstablished(s, c)
    case Remove(c) => RemoveConnectionInLoop(s, c)
    case Destroy(c) => ConnectDestroyed(s, c)
    case LateSend(c) => EnableWritingIf(s, c, waits)
  }

  // ----- steps ----------------------------------------------------------------------------

  predicate DispatchingOne(s: System, l: LoopId) {
    l < |s.loops| && s.loops[l].phase == Dispatching && s.loops[l].active != [] && Known(s, s.loops[l].active[0])
  }

  /** Some reference keeps the connection alive: the server's map or a functor. */
  predicate Referenced(s: System, c: ConnId)
    requires c < |s.conns|
  {
    || (Name(s.conns[c].serial) in s.connections && s.connections[Name(s.conns[c].serial)] == c)
    || exists l :: 0 <= l < |s.loops| && HoldsReference(s.loops[l].queue, c)
  }

  predicate HoldsReference(queue: seq<Task>, c: ConnId) {
    Establish(c) in queue || Remove(c) in queue || Destroy(c) in queue
  }

  /** The kernel hands out a descriptor that is not open. */
  predicate FreshFd(s: System, fd: int) {
    forall c :: 0 <= c < |s.conns| && s.conns[c].open ==> s.conns[c].fd != fd
  }

  predicate Enabled(s: System, step: Step) {
    match step
    case Accept(home, fd) => home < |s.loops| && s.loops[0].phase == Dispatching && s.incoming && FreshFd(s, fd)
    case AcceptFails => |s.loops| > 0 && s.loops[0].phase == Dispatching && s.incoming
    case PollReturn(l, active) =>
      l < |s.loops| && s.loops[l].phase == Polling &&
      forall k :: 0 <= k < |active| ==> active[k] in s.loops[l].reg.slots && Watched(s.loops[l].reg, active[k])
    case HandleClose(l) => DispatchingOne(s, l)
    case Drained(l) => DispatchingOne(s, l) && Out in SlotOf(s, s.loops[l].active[0]).events
    case Handled(l) => DispatchingOne(s, l)
    case StartBatch(l) => l < |s.loops| && s.loops[l].phase == Dispatching && s.loops[l].active == []
    case RunTask(l, _) =>
      l < |s.loops| && s.loops[l].phase == Functors && s.loops[l].batch > 0 && s.loops[l].queue != [] && Known(s, s.loops[l].queue[0].conn)
    case EndBatch(l) => l < |s.loops| && s.loops[l].phase == Functors && s.loops[l].batch == 0
    case InLoopSend(l, c) => Known(s, c) && s.conns[c].home == l && s.loops[l].phase != Polling && s.conns[c].state == Output.Connected
    case PushSend(c) => c < |s.conns| && s.conns[c].established
    case Shutdown(c) => c < |s.conns|
    case Release(c) => c < |s.conns| && s.conns[c].open && !Referenced(s, c)
  }

  function SetLoop(s: System, l: LoopId, loop: Loop): System
    requires l < |s.loops|
  {
    s.(loops := s.loops[l := loop])
  }

  function Next(s: System, step: Step): System
    requires Enabled(s, step)
  {
    match step
    case Accept(home, fd) => NewConnection(s, home, fd)
    case AcceptFails => s.(serial := s.serial + 1, incoming := false)
    case PollReturn(l, active) =>
      SetLoop(s, l, s.loops[l].(phase := Dispatching, active := active)).(incoming := l == 0 || s.incoming)
    case HandleClose(l) => CloseConn(s, s.loops[l].active[0])
    case Drained(l) => OnChannel(s, s.loops[l].active[0], DisableWriting)
    case Handled(l) => SetLoop(s, l, s.loops[l].(active := s.loops[l].active[1..]))
    case StartBatch(l) => SetLoop(s, l, s.loops[l].(phase := Functors, batch := |s.loops[l].queue|))
    case RunTask(l, waits) =>
      var loop := s.loops[l];
      RunOne(SetLoop(s, l, loop.(queue := loop.queue[1..], batch := loop.batch - 1)), loop.queue[0], waits)
    case EndBatch(l) => SetLoop(s, l, s.loops[l].(phase := Polling))
    case InLoopSend(_, c) => EnableWritingIf(s, c, true)
    case PushSend(c) => Post(s, s.conns[c].home, LateSend(c))
    case Shutdown(c) =>
      var conn := s.conns[c];
      SetConn(s, c, conn.(state := Output.Disconnecting, decisions := if conn.state == Output.Connected then conn.decisions + 1 else conn.decisions))
    case Release(c) => SetConn(s, c, s.conns[c].(open := false))
  }

  predicate CanExec(s: System, steps: seq<Step>)
    decreases |steps|
  {
    steps == [] || (Enabled(s, steps[0]) && CanExec(Next(s, steps[0]), steps[1..]))
  }

  function Exec(s: System, steps: seq<Step>): System
    requires CanExec(s, steps)
    decreases |steps|
  {
    if steps == [] then s else Exec(Next(s, steps[0]), steps[1..])
  }

  /** An entry under the connection's name is the connection's own. */
  predicate OwnName(s: System, c: ConnId)
    requires c < |s.conns|
  {
    Name(s.conns[c].serial) in s.connections ==> s.connections[Name(s.conns[c].serial)] == c
  }

  /** What the design takes for granted about a step: a new connection's name is not in the
      map, a removal finds its own connection under the name, and no send functor makes a
      destroyed connection's channel register again. */
  predicate Clean(s: System, step: Step)
    requires Enabled(s, step)
  {
    match step
    case Accept(_, _) => Name(s.serial) !in s.connections
    case HandleClose(l) => l == 0 ==> OwnName(s, s.loops[l].active[0])
    case RunTask(l, waits) =>
      (match s.loops[l].queue[0]
       case Remove(c) => OwnName(s, c)
       case LateSend(c) => waits && Out !in SlotOf(s, c).events ==> s.conns[c].destroyed == 0
       case _ => true)
    case _ => true
  }

  predicate CleanRun(s: System, steps: seq<Step>)
    requires CanExec(s, steps)
    decreases |steps|
  {
    steps == [] || (Clean(s, steps[0]) && CleanRun(Next(s, steps[0]), steps[1..]))
  }

  // ----- the invariant --------------------------------------------------------------------

  /** Connections and the loops that know them. */
  ghost predicate Shape(s: System) {
    && |s.loops| > 0
    && (forall c :: 0 <= c < |s.conns| ==> ShapeOk(s, c))
    && (forall l :: 0 <= l < |s.loops| ==> LoopShape(s, l))
  }

  predicate ShapeOk(s: System, c: ConnId)
    requires c < |s.conns|
  {
    Known(s, c) && SlotOf(s, c).fd == s.conns[c].fd && s.conns[c].serial < s.serial
  }

  ghost predicate LoopShape(s: System, l: LoopId)
    requires l < |s.loops|
  {
    && (forall c :: c in s.loops[l].reg.slots ==> c < |s.conns| && s.conns[c].home == l)
    && (forall task :: task in s.loops[l].queue ==> task.conn < |s.conns|)
    && (forall c :: c in s.loops[l].active ==> c < |s.conns| && s.conns[c].home == l)
    && (s.loops[l].active != [] ==> s.loops[l].phase == Dispatching)
    && s.loops[l].batch <= |s.loops[l].queue|
  }

  function Queued(s: System, l: LoopId, task: Task): nat
    requires l < |s.loops|
  {
    multiset(s.loops[l].queue)[task]
  }

  /** Functors, the map and the progress of one connection. */
  ghost predicate TasksOk(s: System, c: ConnId)
    requires c < |s.conns|
  {
    var conn := s.conns[c];
    && conn.destroyed <= conn.issued <= 1
    && (conn.issued > 0 ==> conn.closes > 0)
    && (conn.closes > 0 ==> conn.established)
    && (conn.issued == 0 <==> Name(conn.serial) in s.connections && s.connections[Name(conn.serial)] == c)
    && (conn.closes > 0 && conn.issued == 0 ==> |s.loops| > 0 && Remove(c) in s.loops[0].queue)
    && (forall l :: 0 <= l < |s.loops| ==> QueueOk(s, c, l))
  }

  predicate QueueOk(s: System, c: ConnId, l: LoopId)
    requires c < |s.conns| && l < |s.loops|
  {
    var conn := s.conns[c];
    && Queued(s, l, Establish(c)) == (if l == conn.home && !conn.established then 1 else 0)
    && Queued(s, l, Destroy(c)) == (if l == conn.home && conn.destroyed < conn.issued then 1 else 0)
    && (Remove(c) in s.loops[l].queue ==> l == 0 && conn.closes > 0)
    && (LateSend(c) in s.loops[l].queue ==> l == conn.home && conn.established)
    && (c in s.loops[l].active ==> conn.established && conn.destroyed == 0)
  }

  ghost predicate Tasks(s: System) {
    && (forall c :: 0 <= c < |s.conns| ==> TasksOk(s, c))
    && (forall n :: n in s.connections ==> s.connections[n] < |s.conns| && Name(s.conns[s.connections[n]].serial) == n)
  }

  /** The pollers: a connection is registered from its establishing to its destruction. */
  ghost predicate Registered(s: System) {
    && (forall l :: 0 <= l < |s.loops| ==> Coherent(s.loops[l].reg))
    && (forall c :: 0 <= c < |s.conns| && Known(s, c) ==> RegOk(s, c))
    && (forall c, d :: 0 <= c < d < |s.conns| && s.conns[c].open && s.conns[d].open ==> s.conns[c].fd != s.conns[d].fd)
  }

  predicate RegOk(s: System, c: ConnId)
    requires Known(s, c)
  {
    && (SlotOf(s, c).index != KNew <==> s.conns[c].established && s.conns[c].destroyed == 0)
    && (s.conns[c].destroyed == 0 ==> s.conns[c].open)
  }

  /** Connection callbacks and half-close decisions. */
  predicate CallbacksOk(conn: Conn) {
    && conn.ups == (if conn.established then 1 else 0)
    && conn.downs == conn.closes
    && (conn.state == Output.Connected <==> conn.established && conn.closes == 0 && conn.decisions == 0)
    && conn.decisions <= 1
    && (conn.decisions == 1 ==> conn.established && conn.state != Output.Connected)
  }

  predicate Callbacks(s: System) {
    forall c :: 0 <= c < |s.conns| ==> CallbacksOk(s.conns[c])
  }

  ghost predicate Inv(s: System) {
    Shape(s) && Tasks(s) && Registered(s) && Callbacks(s)
  }
}
