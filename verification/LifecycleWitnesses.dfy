/** The steps that break the life-cycle invariant do happen: for each of them a clean run from
    the start that reaches it. */
module LifecycleWitnesses {
  import opened Poller
  import Output
  import opened Lifecycle
  import opened LifecycleLaws
  import opened LifecycleTheorems

  // ----- building runs ----------------------------------------------------------------------

  predicate Reaches(s: System, steps: seq<Step>, t: System) {
    CanExec(s, steps) && CleanRun(s, steps) && Exec(s, steps) == t
  }

  predicate Takes(s: System, step: Step, t: System) {
    Enabled(s, step) && Clean(s, step) && Next(s, step) == t
  }

  lemma {:induction false} Onwards(s: System, a: seq<Step>, t: System, b: seq<Step>, u: System)
    requires Reaches(s, a, t) && Reaches(t, b, u)
    ensures Reaches(s, a + b, u)
    decreases |a|
  {
    if a == [] {
      assert a + b == b;
    } else {
      assert (a + b)[0] == a[0] && (a + b)[1..] == a[1..] + b;
      Onwards(Next(s, a[0]), a[1..], t, b, u);
    }
  }

  lemma OneStep(s: System, step: Step, t: System)
    requires Takes(s, step, t)
    ensures Reaches(s, [step], t)
  {
    assert [step][1..] == [];
  }

  lemma TwoSteps(s: System, a: Step, t: System, b: Step, u: System)
    requires Takes(s, a, t) && Takes(t, b, u)
    ensures Reaches(s, [a, b], u)
  {
    OneStep(s, a, t);
    OneStep(t, b, u);
    Onwards(s, [a], t, [b], u);
    assert [a] + [b] == [a, b];
  }

  lemma InThree(s: System, a: seq<Step>, t: System, b: seq<Step>, u: System, c: seq<Step>, v: System)
    requires Reaches(s, a, t) && Reaches(t, b, u) && Reaches(u, c, v)
    ensures Reaches(s, a + b + c, v)
  {
    Onwards(s, a, t, b, u);
    Onwards(s, a + b, u, c, v);
  }

  // ----- one loop, one connection -----------------------------------------------------------

  /** The registers that a sole connection with descriptor 5 leaves. */
  function Watching(): Registry<ConnId> {
    Registry(map[5 := 0], map[5 := Interest(0, READ_EVENT)], map[0 := Slot(5, KAdded, READ_EVENT)], 0)
  }

  function Unwatched(): Registry<ConnId> {
    Registry(map[5 := 0], map[], map[0 := Slot(5, KDeleted, NONE_EVENT)], 0)
  }

  function Gone(): Registry<ConnId> {
    Registry(map[], map[], map[0 := Slot(5, KNew, NONE_EVENT)], 0)
  }

  function Fresh(): Registry<ConnId> {
    Registry(map[], map[], map[], 0)
  }

  lemma RegisterCalls()
    ensures Apply(Adopt(Fresh(), 0, 5), 0, EnableReading) == Watching()
    ensures Apply(Watching(), 0, DisableAll) == Unwatched()
    ensures Apply(Unwatched(), 0, RemoveChannel) == Gone()
  {
    assert NONE_EVENT + READ_EVENT == READ_EVENT;
    assert Adopt(Fresh(), 0, 5).slots == map[0 := Slot(5, KNew, NONE_EVENT)];
  }

  /** The connection accepted first: its progress. */
  function First(home: LoopId, state: Output.State, established: bool, closes: nat, issued: nat, destroyed: nat): Conn {
    Conn(home, 5, 0, true, state, established, closes, issued, destroyed, if established then 1 else 0, closes, 0)
  }

  function Alone(loop: Loop, conn: Conn, mapped: bool, incoming: bool): System {
    System([loop], [conn], if mapped then map[1 := 0] else map[], 1, incoming)
  }

  function Up(): Conn {
    First(0, Output.Connected, true, 0, 0, 0)
  }

  function Down(destroyed: nat): Conn {
    First(0, Output.Disconnected, true, 1, 1, destroyed)
  }

  /** The server accepts a connection for its only loop, which then goes back to poll. */
  function Opening(): seq<Step> {
    [PollReturn(0, []), Accept(0, 5)] + [StartBatch(0), EndBatch(0)]
  }

  function Opened(): System {
    Alone(Loop(Polling, [], [], 0, Watching()), Up(), true, false)
  }

  lemma OpeningRuns()
    ensures Reaches(Initial(1), Opening(), Opened())
  {
    hide Apply;
    RegisterCalls();
    var s1 := System([Loop(Dispatching, [], [], 0, Fresh())], [], map[], 0, true);
    var s2 := Alone(Loop(Dispatching, [], [], 0, Watching()), Up(), true, false);
    var s3 := Alone(Loop(Functors, [], [], 0, Watching()), Up(), true, false);
    assert Takes(Initial(1), PollReturn(0, []), s1);
    assert Name(0) == 1;
    assert Takes(s1, Accept(0, 5), s2);
    TwoSteps(Initial(1), PollReturn(0, []), s1, Accept(0, 5), s2);
    TwoSteps(s2, StartBatch(0), s3, EndBatch(0), Opened());
    Onwards(Initial(1), [PollReturn(0, []), Accept(0, 5)], s2, [StartBatch(0), EndBatch(0)], Opened());
  }

  // ----- a taken name -----------------------------------------------------------------------

  /** One turn of loop 0 whose only event is an accept that fails: it uses up a name. */
  function Pass(): seq<Step> {
    [PollReturn(0, []), AcceptFails] + [StartBatch(0), EndBatch(0)]
  }

  function Passes(k: nat): seq<Step> {
    if k == 0 then [] else Pass() + Passes(k - 1)
  }

  predicate Idle(s: System) {
    |s.loops| > 0 && s.loops[0].phase == Polling && s.loops[0].active == [] && s.loops[0].queue == [] && s.loops[0].batch == 0 && !s.incoming
  }

  lemma PassRuns(s: System)
    requires Idle(s)
    ensures Reaches(s, Pass(), s.(serial := s.serial + 1))
  {
    var s1 := SetLoop(s, 0, s.loops[0].(phase := Dispatching)).(incoming := true);
    var s2 := s1.(serial := s.serial + 1, incoming := false);
    var s3 := SetLoop(s, 0, s.loops[0].(phase := Functors)).(serial := s.serial + 1);
    assert Takes(s, PollReturn(0, []), s1);
    assert Takes(s2, StartBatch(0), s3);
    assert s3.loops[0 := s.loops[0]] == s.loops;
    assert Takes(s3, EndBatch(0), s.(serial := s.serial + 1));
    TwoSteps(s, PollReturn(0, []), s1, AcceptFails, s2);
    TwoSteps(s2, StartBatch(0), s3, EndBatch(0), s.(serial := s.serial + 1));
    Onwards(s, [PollReturn(0, []), AcceptFails], s2, [StartBatch(0), EndBatch(0)], s.(serial := s.serial + 1));
  }

  lemma {:induction false} PassesRun(s: System, k: nat)
    requires Idle(s)
    ensures Reaches(s, Passes(k), s.(serial := s.serial + k))
    decreases k
  {
    if k > 0 {
      var t := s.(serial := s.serial + 1);
      PassRuns(s);
      PassesRun(t, k - 1);
      Onwards(s, Pass(), t, Passes(k - 1), t.(serial := t.serial + (k - 1)));
    }
  }

  /** The first connection stays open for 2^32 names, one per turn of the loop: the next accept
      finds its name in the map. So the bound of `CleanUnlessNamesWrap` is exact. */
  lemma NameIsTaken()
    ensures var steps := Opening() + Passes(NAMES - 1) + [PollReturn(0, [])];
      && IsRun(1, steps) && After(1, steps).serial == 0x1_0000_0000
      && Enabled(After(1, steps), Accept(0, 6)) && !Clean(After(1, steps), Accept(0, 6))
      && !Inv(Next(After(1, steps), Accept(0, 6)))
  {
    hide Inv, Passes, Opening;
    var s := Opened().(serial := NAMES);
    var t := Alone(Loop(Dispatching, [], [], 0, Watching()), Up(), true, true).(serial := NAMES);
    var steps := Opening() + Passes(NAMES - 1) + [PollReturn(0, [])];
    OpeningRuns();
    PassesRun(Opened(), NAMES - 1);
    OneStep(s, PollReturn(0, []), t);
    InThree(Initial(1), Opening(), Opened(), Passes(NAMES - 1), s, [PollReturn(0, [])], t);
    RunInv(1, steps);
    StepKeepsInvIffClean(t, Accept(0, 6));
  }

  // ----- a send functor that comes too late -------------------------------------------------

  /** The peer closes while another thread, which found the connection up, queues its send. */
  function Closing(): seq<Step> {
    [PollReturn(0, [0]), HandleClose(0)] + [PushSend(0), Handled(0)]
  }

  function Closed(): System {
    Alone(Loop(Dispatching, [], [Destroy(0), LateSend(0)], 0, Unwatched()), Down(0), false, true)
  }

  lemma ClosingRuns()
    ensures Reaches(Opened(), Closing(), Closed())
  {
    hide Apply;
    RegisterCalls();
    var s1 := Alone(Loop(Dispatching, [0], [], 0, Watching()), Up(), true, true);
    var s2 := Alone(Loop(Dispatching, [0], [Destroy(0)], 0, Unwatched()), Down(0), false, true);
    var s3 := Alone(Loop(Dispatching, [0], [Destroy(0), LateSend(0)], 0, Unwatched()), Down(0), false, true);
    assert Takes(Opened(), PollReturn(0, [0]), s1);
    ClosedNow(s1, s2);
    assert [Destroy(0)] + [LateSend(0)] == [Destroy(0), LateSend(0)];
    assert Takes(s2, PushSend(0), s3);
    assert [0][1..] == [];
    assert Takes(s3, Handled(0), Closed());
    TwoSteps(Opened(), PollReturn(0, [0]), s1, HandleClose(0), s2);
    TwoSteps(s2, PushSend(0), s3, Handled(0), Closed());
    Onwards(Opened(), [PollReturn(0, [0]), HandleClose(0)], s2, [PushSend(0), Handled(0)], Closed());
  }

  lemma ClosedNow(s: System, t: System)
    requires s == Alone(Loop(Dispatching, [0], [], 0, Watching()), Up(), true, true)
    requires t == Alone(Loop(Dispatching, [0], [Destroy(0)], 0, Unwatched()), Down(0), false, true)
    ensures Takes(s, HandleClose(0), t)
  {
    hide Apply;
    RegisterCalls();
    var s1 := Alone(Loop(Dispatching, [0], [], 0, Unwatched()), First(0, Output.Disconnected, true, 1, 0, 0), true, true);
    assert CloseConn(s, 0) == RemoveConnectionInLoop(s1, 0);
    assert Name(0) == 1 && s1.connections - {1} == map[];
    assert [] + [Destroy(0)] == [Destroy(0)];
    assert t == RemoveConnectionInLoop(s1, 0);
  }

  function Destroyed(): System {
    Alone(Loop(Functors, [], [LateSend(0)], 1, Gone()), Down(1), false, true)
  }

  lemma DestroyingRuns()
    ensures Reaches(Closed(), [StartBatch(0), RunTask(0, false)], Destroyed())
  {
    hide Apply;
    RegisterCalls();
    var s := Alone(Loop(Functors, [], [Destroy(0), LateSend(0)], 2, Unwatched()), Down(0), false, true);
    assert Takes(Closed(), StartBatch(0), s);
    assert [Destroy(0), LateSend(0)][1..] == [LateSend(0)];
    assert Takes(s, RunTask(0, false), Destroyed());
    TwoSteps(Closed(), StartBatch(0), s, RunTask(0, false), Destroyed());
  }

  /** A message that passed the state test before the close and meets a full kernel buffer
      after `connectDestroyed`: its functor registers the destroyed connection's channel. */
  lemma LateSendRegisters()
    ensures var steps := Opening() + Closing() + [StartBatch(0), RunTask(0, false)];
      && IsRun(1, steps)
      && Enabled(After(1, steps), RunTask(0, true)) && !Clean(After(1, steps), RunTask(0, true))
      && !Inv(Next(After(1, steps), RunTask(0, true)))
  {
    hide Inv, Enabled, Clean, Next, Opening, Closing, Opened, Closed, Destroyed;
    var steps := Opening() + Closing() + [StartBatch(0), RunTask(0, false)];
    OpeningRuns();
    ClosingRuns();
    DestroyingRuns();
    InThree(Initial(1), Opening(), Opened(), Closing(), Closed(), [StartBatch(0), RunTask(0, false)], Destroyed());
    RunInv(1, steps);
    Unclean();
    StepKeepsInvIffClean(Destroyed(), RunTask(0, true));
  }

  lemma Unclean()
    ensures Enabled(Destroyed(), RunTask(0, true)) && !Clean(Destroyed(), RunTask(0, true))
  {
  }

  // ----- an entry that is stolen ------------------------------------------------------------

  function Adopted(): Registry<ConnId> {
    Registry(map[], map[], map[0 := Slot(5, KNew, NONE_EVENT)], 0)
  }

  /** After a second `disableAll`. */
  function WatchedForNothing(): Registry<ConnId> {
    Registry(map[5 := 0], map[5 := Interest(0, NONE_EVENT)], map[0 := Slot(5, KAdded, NONE_EVENT)], 0)
  }

  function WatchingSecond(): Registry<ConnId> {
    Registry(map[6 := 1], map[6 := Interest(1, READ_EVENT)], map[1 := Slot(6, KAdded, READ_EVENT)], 0)
  }

  lemma MoreRegisterCalls()
    ensures Adopt(Fresh(), 0, 5) == Adopted() && Apply(Adopted(), 0, EnableReading) == Watching()
    ensures Apply(Watching(), 0, DisableAll) == Unwatched()
    ensures Apply(Unwatched(), 0, DisableAll) == WatchedForNothing()
    ensures Apply(Adopt(Fresh(), 1, 6), 1, EnableReading) == WatchingSecond()
  {
    RegisterCalls();
    assert Adopt(Fresh(), 0, 5).slots == map[0 := Slot(5, KNew, NONE_EVENT)];
    assert Adopt(Fresh(), 1, 6).slots == map[1 := Slot(6, KNew, NONE_EVENT)];
  }

  /** A base loop and an I/O loop. */
  function Two(base: Loop, io: Loop, conn: Conn, connections: map<nat, ConnId>, serial: nat, incoming: bool): System {
    System([base, io], [conn], connections, serial, incoming)
  }

  /** Accepted for the I/O loop, whose functor is queued. */
  function Point0(): System {
    Two(Loop(Dispatching, [], [], 0, Fresh()), Loop(Polling, [], [Establish(0)], 0, Adopted()),
        First(1, Output.Connecting, false, 0, 0, 0), map[1 := 0], 1, false)
  }

  function Point1(): System {
    Two(Loop(Dispatching, [], [], 0, Fresh()), Loop(Functors, [], [Establish(0)], 1, Adopted()),
        First(1, Output.Connecting, false, 0, 0, 0), map[1 := 0], 1, false)
  }

  /** Established. */
  function Point2(phase: Phase, serial: nat): System {
    Two(Loop(phase, [], [], 0, Fresh()), Loop(Polling, [], [], 0, Watching()),
        First(1, Output.Connected, true, 0, 0, 0), map[1 := 0], serial, false)
  }

  /** Both loops dispatch, 2^32 names later. */
  function Point3(): System {
    Two(Loop(Dispatching, [], [], 0, Fresh()), Loop(Dispatching, [0], [], 0, Watching()),
        First(1, Output.Connected, true, 0, 0, 0), map[1 := 0], NAMES, true)
  }

  /** Closed once, and the base loop has swapped. */
  function Point4(): System {
    Two(Loop(Functors, [], [Remove(0)], 1, Fresh()), Loop(Dispatching, [0], [], 0, Unwatched()),
        First(1, Output.Disconnected, true, 1, 0, 0), map[1 := 0], NAMES, true)
  }

  /** Closed twice in one dispatch, removed once. */
  function Point5(): System {
    Two(Loop(Functors, [], [Remove(0)], 0, Fresh()), Loop(Dispatching, [0], [Destroy(0)], 0, WatchedForNothing()),
        First(1, Output.Disconnected, true, 2, 1, 0), map[], NAMES, true)
  }

  function Point6(): System {
    Point5().(loops := [Loop(Dispatching, [], [Remove(0)], 0, Fresh()), Point5().loops[1]])
  }

  /** Another connection has the name, and the second removal is about to run. */
  function Point7(phase: Phase, batch: nat): System {
    System([Loop(phase, [], [Remove(0)], batch, WatchingSecond()), Loop(Dispatching, [0], [Destroy(0)], 0, WatchedForNothing())],
           [First(1, Output.Disconnected, true, 2, 1, 0), Conn(0, 6, NAMES, true, Output.Connected, true, 0, 0, 0, 1, 0, 0)],
           map[1 := 1], NAMES + 1, false)
  }

  lemma ToPoint0()
    ensures Reaches(Initial(2), [PollReturn(0, []), Accept(1, 5)], Point0())
  {
    hide Apply;
    MoreRegisterCalls();
    var s := System([Loop(Dispatching, [], [], 0, Fresh()), EmptyLoop()], [], map[], 0, true);
    assert Takes(Initial(2), PollReturn(0, []), s);
    assert Name(0) == 1 && [] + [Establish(0)] == [Establish(0)];
    assert Takes(s, Accept(1, 5), Point0());
    TwoSteps(Initial(2), PollReturn(0, []), s, Accept(1, 5), Point0());
  }

  lemma ToPoint1()
    ensures Reaches(Point0(), [PollReturn(1, []), StartBatch(1)], Point1())
  {
    var s := Point0().(loops := [Point0().loops[0], Point0().loops[1].(phase := Dispatching)]);
    assert Takes(Point0(), PollReturn(1, []), s);
    assert Takes(s, StartBatch(1), Point1());
    TwoSteps(Point0(), PollReturn(1, []), s, StartBatch(1), Point1());
  }

  lemma ToPoint2()
    ensures Reaches(Point1(), [RunTask(1, false), EndBatch(1)], Point2(Dispatching, 1))
  {
    hide Apply;
    MoreRegisterCalls();
    var t := Point2(Dispatching, 1);
    var s := t.(loops := [t.loops[0], t.loops[1].(phase := Functors)]);
    assert [Establish(0)][1..] == [];
    assert Takes(Point1(), RunTask(1, false), s);
    assert Takes(s, EndBatch(1), t);
    TwoSteps(Point1(), RunTask(1, false), s, EndBatch(1), t);
  }

  lemma BackToPoll()
    ensures Reaches(Point2(Dispatching, 1), [StartBatch(0), EndBatch(0)], Point2(Polling, 1))
  {
    assert Takes(Point2(Dispatching, 1), StartBatch(0), Point2(Functors, 1));
    assert Takes(Point2(Functors, 1), EndBatch(0), Point2(Polling, 1));
    TwoSteps(Point2(Dispatching, 1), StartBatch(0), Point2(Functors, 1), EndBatch(0), Point2(Polling, 1));
  }

  lemma ToPoint3()
    ensures Reaches(Point2(Polling, NAMES), [PollReturn(0, []), PollReturn(1, [0])], Point3())
  {
    var s := Point2(Dispatching, NAMES).(incoming := true);
    assert Takes(Point2(Polling, NAMES), PollReturn(0, []), s);
    assert Takes(s, PollReturn(1, [0]), Point3());
    TwoSteps(Point2(Polling, NAMES), PollReturn(0, []), s, PollReturn(1, [0]), Point3());
  }

  lemma ToPoint4()
    ensures Reaches(Point3(), [HandleClose(1), StartBatch(0)], Point4())
  {
    hide Apply;
    MoreRegisterCalls();
    var s := Point4().(loops := [Loop(Dispatching, [], [Remove(0)], 0, Fresh()), Point4().loops[1]]);
    assert [] + [Remove(0)] == [Remove(0)];
    assert Takes(Point3(), HandleClose(1), s);
    assert Takes(s, StartBatch(0), Point4());
    TwoSteps(Point3(), HandleClose(1), s, StartBatch(0), Point4());
  }

  lemma ToPoint5()
    ensures Reaches(Point4(), [HandleClose(1), RunTask(0, false)], Point5())
  {
    hide Apply;
    MoreRegisterCalls();
    var s := Two(Loop(Functors, [], [Remove(0), Remove(0)], 1, Fresh()), Loop(Dispatching, [0], [], 0, WatchedForNothing()),
                 First(1, Output.Disconnected, true, 2, 0, 0), map[1 := 0], NAMES, true);
    assert [Remove(0)] + [Remove(0)] == [Remove(0), Remove(0)];
    assert Takes(Point4(), HandleClose(1), s);
    RemovedNow(s);
    TwoSteps(Point4(), HandleClose(1), s, RunTask(0, false), Point5());
  }

  lemma RemovedNow(s: System)
    requires s == Two(Loop(Functors, [], [Remove(0), Remove(0)], 1, Fresh()), Loop(Dispatching, [0], [], 0, WatchedForNothing()),
                      First(1, Output.Disconnected, true, 2, 0, 0), map[1 := 0], NAMES, true)
    ensures Takes(s, RunTask(0, false), Point5())
  {
    hide Apply;
    assert [Remove(0), Remove(0)][1..] == [Remove(0)] && [] + [Destroy(0)] == [Destroy(0)];
    assert Name(0) == 1 && map[1 := 0] - {1} == map[];
  }

  lemma ToPoint6()
    ensures Reaches(Point5(), [EndBatch(0), PollReturn(0, [])], Point6())
  {
    var s := Point5().(loops := [Loop(Polling, [], [Remove(0)], 0, Fresh()), Point5().loops[1]]);
    assert Takes(Point5(), EndBatch(0), s);
    assert Takes(s, PollReturn(0, []), Point6());
    TwoSteps(Point5(), EndBatch(0), s, PollReturn(0, []), Point6());
  }

  lemma ToPoint7()
    ensures Reaches(Point6(), [Accept(0, 6), StartBatch(0)], Point7(Functors, 1))
  {
    hide Apply;
    MoreRegisterCalls();
    assert Name(NAMES) == 1;
    assert Takes(Point6(), Accept(0, 6), Point7(Dispatching, 0));
    assert Takes(Point7(Dispatching, 0), StartBatch(0), Point7(Functors, 1));
    TwoSteps(Point6(), Accept(0, 6), Point7(Dispatching, 0), StartBatch(0), Point7(Functors, 1));
  }

  /** The connection comes up on the I/O loop. */
  function Establishing(): seq<Step> {
    [PollReturn(0, []), Accept(1, 5)] + [PollReturn(1, []), StartBatch(1)] + [RunTask(1, false), EndBatch(1)] + [StartBatch(0), EndBatch(0)]
  }

  lemma EstablishingRuns()
    ensures Reaches(Initial(2), Establishing(), Point2(Polling, 1))
  {
    hide Reaches, Point0, Point1, Point2;
    ToPoint0();
    ToPoint1();
    ToPoint2();
    BackToPoll();
    InThree(Initial(2), [PollReturn(0, []), Accept(1, 5)], Point0(), [PollReturn(1, []), StartBatch(1)], Point1(),
            [RunTask(1, false), EndBatch(1)], Point2(Dispatching, 1));
    Onwards(Initial(2), [PollReturn(0, []), Accept(1, 5)] + [PollReturn(1, []), StartBatch(1)] + [RunTask(1, false), EndBatch(1)],
            Point2(Dispatching, 1), [StartBatch(0), EndBatch(0)], Point2(Polling, 1));
  }

  /** It closes twice in one dispatch, the base loop swapping in between; the first removal
      runs, and the next turn of the base loop accepts and gets to the second one. */
  function ClosingTwice(): seq<Step> {
    [PollReturn(0, []), PollReturn(1, [0])] + [HandleClose(1), StartBatch(0)] + [HandleClose(1), RunTask(0, false)]
    + [EndBatch(0), PollReturn(0, [])] + [Accept(0, 6), StartBatch(0)]
  }

  lemma ClosingTwiceRuns()
    ensures Reaches(Point2(Polling, NAMES), ClosingTwice(), Point7(Functors, 1))
  {
    hide Reaches, Point2, Point3, Point4, Point5, Point6, Point7;
    ToPoint3();
    ToPoint4();
    ToPoint5();
    ToPoint6();
    ToPoint7();
    InThree(Point2(Polling, NAMES), [PollReturn(0, []), PollReturn(1, [0])], Point3(), [HandleClose(1), StartBatch(0)], Point4(),
            [HandleClose(1), RunTask(0, false)], Point5());
    InThree(Point2(Polling, NAMES),
            [PollReturn(0, []), PollReturn(1, [0])] + [HandleClose(1), StartBatch(0)] + [HandleClose(1), RunTask(0, false)], Point5(),
            [EndBatch(0), PollReturn(0, [])], Point6(), [Accept(0, 6), StartBatch(0)], Point7(Functors, 1));
  }

  lemma StealsEntry()
    ensures Enabled(Point7(Functors, 1), RunTask(0, false)) && !Clean(Point7(Functors, 1), RunTask(0, false))
  {
    assert Name(0) == 1;
  }

  /** A connection lives for 2^32 names, one per turn of the base loop, and closes twice in one
      dispatch. Its first removal frees the name, the next accept gets that name again, and the
      second removal erases the new connection's entry. */
  lemma EntryIsStolen()
    ensures var steps := Establishing() + Passes(NAMES - 1) + ClosingTwice();
      && IsRun(2, steps)
      && Enabled(After(2, steps), RunTask(0, false)) && !Clean(After(2, steps), RunTask(0, false))
      && !Inv(Next(After(2, steps), RunTask(0, false)))
  {
    hide Inv, Enabled, Clean, Next, Passes, Establishing, ClosingTwice, Point7;
    var steps := Establishing() + Passes(NAMES - 1) + ClosingTwice();
    EstablishingRuns();
    PassesRun(Point2(Polling, 1), NAMES - 1);
    ClosingTwiceRuns();
    InThree(Initial(2), Establishing(), Point2(Polling, 1), Passes(NAMES - 1), Point2(Polling, NAMES), ClosingTwice(), Point7(Functors, 1));
    RunInv(2, steps);
    StealsEntry();
    StepKeepsInvIffClean(Point7(Functors, 1), RunTask(0, false));
  }
}
