/** Runs that show why the conditions on the return stream, on shutdown and on
    teardown are needed: openConn sends "open" before it registers the connection. */
module Interleavings {
  import opened Frames
  import opened Options
  import opened Multiplexer
  import opened MultiplexerView
  import opened Bridging
  import SessionShutdown
  import SessionTeardown
  import Shutdown
  import R = RelaySide
  import D = DaemonSide

  /** The local dial fails, and its "close" is handled before openConn
      registers: nobody will ever close the registered connection. */
  function Refusing(): seq<Act> { [NewTcp("t", 80), RecvDown(false), Refuse] }

  function Overtaking(): seq<Act> { [RecvUp, Handler(0, R.Register)] }

  function StrandedRun(): seq<Act> { Refusing() + Overtaking() }

  function StrandedRec(): Rec {
    Rec(Tcp, Accepted(0), "t", 80, R.Reading, [Close], false, [], None, D.LEnded, None, [], None)
  }

  function StrandedSession(): Session {
    var open, close := Of(Own(0), Open("t", 80, Tcp)), Of(Own(0), Close);
    Session([StrandedRec()], map[Own(0) := Accepted(0)], map[Accepted(0) := NEW_WIRE], R.Running, Idle,
            Link(true, [open], [], [open]), Link(true, [close], [], [close]), true, Ready, map[], map[], [], {})
  }

  function RefusedSession(): Session {
    var open, close := Of(Own(0), Open("t", 80, Tcp)), Of(Own(0), Close);
    Session([StrandedRec().(handler := R.Opening, before := [])], map[], map[Accepted(0) := NEW_WIRE], R.Running, Idle,
            Link(true, [open], [], [open]), Link(true, [close], [close], []), true, Ready, map[], map[], [], {})
  }

  lemma RefusedReached()
    ensures Runs(Start([]), Refusing()) && Final(Start([]), Refusing()) == RefusedSession()
  {
    var g0, acts := Start([]), Refusing();
    var g1 := Next(g0, acts[0]);
    assert g1.recs == [NewRec(Tcp, Accepted(0), "t", 80)];
    var g2 := Next(g1, acts[1]);
    var g3 := Next(g2, acts[2]);
    assert g3.recs == RefusedSession().recs;
    assert g3 == RefusedSession();
    RunsFirst(g2, acts[2], []);
    RunsFirst(g1, acts[1], [acts[2]]);
    RunsFirst(g0, acts[0], [acts[1], acts[2]]);
    assert acts == [acts[0]] + [acts[1], acts[2]];
  }

  lemma OvertakenReached()
    ensures Runs(RefusedSession(), Overtaking()) && Final(RefusedSession(), Overtaking()) == StrandedSession()
  {
    var g0, acts := RefusedSession(), Overtaking();
    var g1 := Next(g0, acts[0]);
    var close := Of(Own(0), Close);
    FramesOfSnoc([], close, 0);
    assert [] + [close] == [close] && g1.up.got == [close];
    assert FramesOf(g1.up.got, 0) == [Close];
    var g2 := Next(g1, acts[1]);
    assert g2.recs == StrandedSession().recs && g2.conns == StrandedSession().conns;
    assert g2 == StrandedSession();
    RunsFirst(g1, acts[1], []);
    RunsFirst(g0, acts[0], [acts[1]]);
    assert acts == [acts[0]] + [acts[1]];
  }

  lemma StrandedReached()
    ensures Reached(StrandedSession(), [], StrandedRun())
  {
    RefusedReached();
    OvertakenReached();
    RunsThen(Start([]), Refusing(), Overtaking());
  }

  lemma NobodyMoves(a: Act)
    requires SessionShutdown.Internal(a)
    ensures !Enabled(StrandedSession(), a)
  {
    var g := StrandedSession();
    assert g.recs[0].handler.Reading? && g.recs[0].reader.LEnded? && g.peers[Accepted(0)] == NEW_WIRE;
    match a
    case Handler(n, h) => assert !HandlerEnabled(g, n, h);
    case LocalReader(n, r) => assert !ReaderEnabled(g, n, r);
    case _ =>
  }

  lemma ViewStranded()
    ensures Shutdown.Stranded(View(StrandedSession(), 0)) && D.LocalGone(DaemonOf(StrandedSession(), 0))
  {
  }

  /** A reachable whole session at rest, a local end that is gone, and a TCP
      connection that is not shut down. */
  lemma ShutdownCanStall()
    ensures var g := StrandedSession();
      && Reached(g, [], StrandedRun()) && SessionShutdown.Whole(g) && SessionShutdown.AtRest(g)
      && D.LocalGone(DaemonOf(g, 0)) && Shutdown.Stranded(View(g, 0)) && !Shutdown.Clean(View(g, 0))
  {
    StrandedReached();
    ViewStranded();
    forall a | SessionShutdown.Internal(a) ensures !Enabled(StrandedSession(), a) {
      NobodyMoves(a);
    }
  }

  /** A UDP tunnel is stopped while one of its sources is registered; then the
      service answers. */
  function Arriving(): seq<Act> { [NewUdp("t", 80, "a"), RecvDown(true)] }

  function Stopping(): seq<Act> { [Handler(0, R.Register), StopUdp("t")] }

  function Responding(x: Item): seq<Act> {
    [LocalReader(0, D.LocalRead([x], false)), LocalReader(0, D.LocalSend(true))]
  }

  function Dropping(): seq<Act> { [RecvUp, WriteExt(1)] }

  function StopRun(x: Item): seq<Act> { Arriving() + (Stopping() + (Responding(x) + Dropping())) }

  function UdpSession(h: R.Handler, conns: map<ConnId, Peer>, wire: Wire, read: seq<Item>, up: Link<Frame>,
                      stopped: set<string>): Session
  {
    var open, sock, source := Of(Own(0), Open("t", 80, Udp)), Dialled(Own(0), 80, Udp), Source("t", "a");
    Session([Rec(Udp, source, "t", 80, h, [], false, [], None, D.LReading, Some(sock), read, None)],
            conns, map[source := wire], R.Running, Idle, Link(true, [open], [], [open]), up, true, Ready,
            map[Own(0) := sock], map[sock := NEW_WIRE], [], stopped)
  }

  function AfterArrival(): Session { UdpSession(R.Opening, map[], NEW_WIRE, [], NewLink(), {}) }

  function AfterStop(read: seq<Item>, up: Link<Frame>): Session {
    UdpSession(R.Reading, map[Own(0) := Source("t", "a")], Severed(NEW_WIRE), read, up, {"t"})
  }

  lemma ArrivalReached()
    ensures Runs(Start([]), Arriving()) && Final(Start([]), Arriving()) == AfterArrival()
  {
    var g0, acts := Start([]), Arriving();
    var g1 := Next(g0, acts[0]);
    assert g1.recs == [NewRec(Udp, Source("t", "a"), "t", 80)];
    var g2 := Next(g1, acts[1]);
    assert g2.recs == AfterArrival().recs;
    assert g2 == AfterArrival();
    RunsFirst(g1, acts[1], []);
    RunsFirst(g0, acts[0], [acts[1]]);
    assert acts == [acts[0]] + [acts[1]];
  }

  lemma StopReached()
    ensures Runs(AfterArrival(), Stopping()) && Final(AfterArrival(), Stopping()) == AfterStop([], NewLink())
  {
    var g0, acts := AfterArrival(), Stopping();
    var g1 := Next(g0, acts[0]);
    assert g1.recs == AfterStop([], NewLink()).recs && g1.conns == AfterStop([], NewLink()).conns;
    var g2 := Next(g1, acts[1]);
    assert g2.stopped == {"t"} && g2.peers == map[Source("t", "a") := Severed(NEW_WIRE)];
    assert g2 == AfterStop([], NewLink());
    RunsFirst(g1, acts[1], []);
    RunsFirst(g0, acts[0], [acts[1]]);
    assert acts == [acts[0]] + [acts[1]];
  }

  lemma ResponseReached(x: Item)
    ensures var data := Of(Own(0), Data([x]));
      Runs(AfterStop([], NewLink()), Responding(x))
      && Final(AfterStop([], NewLink()), Responding(x)) == AfterStop([x], Link(true, [data], [data], []))
  {
    var g0, acts := AfterStop([], NewLink()), Responding(x);
    var g1 := Next(g0, acts[0]);
    assert [] + [x] == [x];
    assert g1.recs == [g0.recs[0].(reader := D.LHolding([x], false), localInput := [x])];
    var g2 := Next(g1, acts[1]);
    assert g2.recs == AfterStop([x], NewLink()).recs;
    assert g2.up == Link(true, [Of(Own(0), Data([x]))], [Of(Own(0), Data([x]))], []);
    RunsFirst(g1, acts[1], []);
    RunsFirst(g0, acts[0], [acts[1]]);
    assert acts == [acts[0]] + [acts[1]];
  }

  lemma DropReached(x: Item)
    ensures var data := Of(Own(0), Data([x]));
      Runs(AfterStop([x], Link(true, [data], [data], [])), Dropping())
      && Final(AfterStop([x], Link(true, [data], [data], [])), Dropping())
         == AfterStop([x], Link(true, [data], [], [data]))
  {
    var data, acts := Of(Own(0), Data([x])), Dropping();
    var g0 := AfterStop([x], Link(true, [data], [data], []));
    var g1 := Next(g0, acts[0]);
    assert g1.up == Link(true, [data], [], [data]) && g1.dispatch == WritingTo(Own(0), Source("t", "a"), [x]);
    var g2 := Next(g1, acts[1]);
    assert g2 == AfterStop([x], Link(true, [data], [], [data]));
    RunsFirst(g1, acts[1], []);
    RunsFirst(g0, acts[0], [acts[1]]);
    assert acts == [acts[0]] + [acts[1]];
  }

  /** A whole session, both loops idle and both channels empty, a UDP connection
      still registered; what its service sent has gone nowhere. */
  lemma StoppedTunnelLosesReturns(x: Item)
    ensures Runs(Start([]), StopRun(x))
    ensures var g := Final(Start([]), StopRun(x));
      && SessionShutdown.Whole(g) && SessionShutdown.LoopsIdle(g) && |g.recs| == 1 && Own(0) in g.conns
      && g.recs[0].localInput == [x] && Stream(g.recs[0].before) == [] && ExtOutput(g, 0) == []
  {
    ArrivalReached();
    StopReached();
    ResponseReached(x);
    DropReached(x);
    RunsThen(AfterStop([], NewLink()), Responding(x), Dropping());
    RunsThen(AfterArrival(), Stopping(), Responding(x) + Dropping());
    RunsThen(Start([]), Arriving(), Stopping() + (Responding(x) + Dropping()));
  }

  /** The session ends while openConn is between its "open" and its registration. */
  function LateRun(): seq<Act> { [NewTcp("t", 80), StopLoop, CloseAll, Handler(0, R.Register)] }

  function LateSession(): Session {
    var open := Of(Own(0), Open("t", 80, Tcp));
    Session([NewRec(Tcp, Accepted(0), "t", 80).(handler := R.Reading, late := true)],
            map[Own(0) := Accepted(0)], map[Accepted(0) := NEW_WIRE], R.Stopped, Idle,
            Link(true, [open], [open], []), NewLink(), true, Ready, map[], map[], [], {})
  }

  lemma LateReached()
    ensures Reached(LateSession(), [], LateRun())
  {
    var g0, acts := Start([]), LateRun();
    var g1 := Next(g0, acts[0]);
    assert g1.recs == [NewRec(Tcp, Accepted(0), "t", 80)];
    var g2 := Next(g1, acts[1]);
    var g3 := Next(g2, acts[2]);
    assert g3.peers == map[Accepted(0) := NEW_WIRE];
    var g4 := Next(g3, acts[3]);
    assert g4.recs == LateSession().recs && g4.conns == LateSession().conns;
    assert g4 == LateSession();
    RunsFirst(g3, acts[3], []);
    RunsFirst(g2, acts[2], [acts[3]]);
    RunsFirst(g1, acts[1], [acts[2], acts[3]]);
    RunsFirst(g0, acts[0], [acts[1], acts[2], acts[3]]);
    assert acts == [acts[0]] + [acts[1], acts[2], acts[3]];
  }

  /** closeAllExternal has run, nothing is left to do, and a connection is in
      conns with its peer connected to a session that is gone. */
  lemma TeardownCanMissAConnection()
    ensures var g := LateSession();
      && Reached(g, [], LateRun()) && g.loop.Stopped? && SessionTeardown.RelayRests(g, 0)
      && Own(0) in g.conns && !g.peers[Accepted(0)].closed
  {
    LateReached();
    var g := LateSession();
    assert g.recs[0].handler.Reading? && g.peers[Accepted(0)] == NEW_WIRE;
    forall h: R.HandlerAct | !h.ExtRead? && !h.Expire? && !h.Abandon? ensures !HandlerEnabled(g, 0, h) {
    }
  }

  /** The local service answers before openConn registers: its first byte is
      handled with no table entry, and dropped. */
  function Dialling(): seq<Act> { [NewTcp("t", 80), RecvDown(true)] }

  function Answering(x: Item): seq<Act> {
    [LocalReader(0, D.LocalRead([x], false)), LocalReader(0, D.LocalSend(true)), RecvUp]
  }

  function Registering(): seq<Act> { [Handler(0, R.Register)] }

  function Continuing(y: Item): seq<Act> {
    [LocalReader(0, D.LocalRead([y], false)), LocalReader(0, D.LocalSend(true))]
  }

  function Delivering(): seq<Act> { [RecvUp, WriteExt(1)] }

  function GapRun(x: Item, y: Item): seq<Act> {
    Dialling() + (Answering(x) + (Registering() + (Continuing(y) + Delivering())))
  }

  /** A session with this one connection, dialled; nothing read from its peer. */
  function GapSession(h: R.Handler, before: seq<Body>, read: seq<Item>, conns: map<ConnId, Peer>, up: Link<Frame>)
    : Session
  {
    var open, sock := Of(Own(0), Open("t", 80, Tcp)), Dialled(Own(0), 80, Tcp);
    Session([Rec(Tcp, Accepted(0), "t", 80, h, before, false, [], None, D.LReading, Some(sock), read, None)],
            conns, map[Accepted(0) := NEW_WIRE], R.Running, Idle,
            Link(true, [open], [], [open]), up, true, Ready,
            map[Own(0) := sock], map[sock := NEW_WIRE], [], {})
  }

  function AfterDial(): Session { GapSession(R.Opening, [], [], map[], NewLink()) }

  /** The first byte is read, sent, taken and gone. */
  function AfterAnswer(x: Item): Session {
    var data := Of(Own(0), Data([x]));
    GapSession(R.Opening, [], [x], map[], Link(true, [data], [], [data]))
  }

  function AfterRegister(x: Item): Session {
    var data := Of(Own(0), Data([x]));
    GapSession(R.Reading, [Data([x])], [x], map[Own(0) := Accepted(0)], Link(true, [data], [], [data]))
  }

  function AfterContinue(x: Item, y: Item): Session {
    var data, more := Of(Own(0), Data([x])), Of(Own(0), Data([y]));
    GapSession(R.Reading, [Data([x])], [x, y], map[Own(0) := Accepted(0)], Link(true, [data, more], [more], [data]))
  }

  lemma DialReached()
    ensures Runs(Start([]), Dialling()) && Final(Start([]), Dialling()) == AfterDial()
  {
    var g0, acts := Start([]), Dialling();
    var g1 := Next(g0, acts[0]);
    assert g1.recs == [NewRec(Tcp, Accepted(0), "t", 80)];
    var g2 := Next(g1, acts[1]);
    assert g2.recs == AfterDial().recs;
    assert g2 == AfterDial();
    RunsFirst(g1, acts[1], []);
    RunsFirst(g0, acts[0], [acts[1]]);
    assert acts == [acts[0]] + [acts[1]];
  }

  lemma AnswerReached(x: Item)
    ensures Runs(AfterDial(), Answering(x)) && Final(AfterDial(), Answering(x)) == AfterAnswer(x)
  {
    var g0, acts := AfterDial(), Answering(x);
    var g1 := Next(g0, acts[0]);
    assert [] + [x] == [x];
    assert g1.recs == [g0.recs[0].(reader := D.LHolding([x], false), localInput := [x])];
    var g2 := Next(g1, acts[1]);
    assert g2.recs == AfterAnswer(x).recs;
    var g3 := Next(g2, acts[2]);
    assert g3.up == AfterAnswer(x).up;
    assert g3 == AfterAnswer(x);
    RunsFirst(g2, acts[2], []);
    RunsFirst(g1, acts[1], [acts[2]]);
    RunsFirst(g0, acts[0], [acts[1], acts[2]]);
    assert acts == [acts[0]] + [acts[1], acts[2]];
  }

  lemma RegisterReached(x: Item)
    ensures Runs(AfterAnswer(x), Registering()) && Final(AfterAnswer(x), Registering()) == AfterRegister(x)
  {
    var g0, acts := AfterAnswer(x), Registering();
    var data := Of(Own(0), Data([x]));
    FramesOfSnoc([], data, 0);
    assert [] + [data] == [data] && g0.up.got == [data] && [] + [Data([x])] == [Data([x])];
    assert FramesOf(g0.up.got, 0) == [Data([x])];
    var g1 := Next(g0, acts[0]);
    assert g1.recs == AfterRegister(x).recs;
    assert g1 == AfterRegister(x);
    RunsFirst(g0, acts[0], []);
    assert acts == [acts[0]] + [];
  }

  lemma ContinueReached(x: Item, y: Item)
    ensures Runs(AfterRegister(x), Continuing(y)) && Final(AfterRegister(x), Continuing(y)) == AfterContinue(x, y)
  {
    var g0, acts := AfterRegister(x), Continuing(y);
    var g1 := Next(g0, acts[0]);
    assert [x] + [y] == [x, y];
    assert g1 == g0.(recs := [g0.recs[0].(reader := D.LHolding([y], false), localInput := [x, y])]);
    var g2 := Next(g1, acts[1]);
    assert g2 == AfterContinue(x, y) by {
      assert g2.recs == AfterContinue(x, y).recs && g2.up == AfterContinue(x, y).up;
    }
    RunsFirst(g1, acts[1], []);
    RunsFirst(g0, acts[0], [acts[1]]);
    assert acts == [acts[0]] + [acts[1]];
  }

  lemma DeliverReached(x: Item, y: Item)
    ensures Runs(AfterContinue(x, y), Delivering())
    ensures var g := Final(AfterContinue(x, y), Delivering());
      |g.recs| == 1 && ExtOutput(g, 0) == [y] && g.recs[0].localInput == [x, y]
  {
    var g0, acts := AfterContinue(x, y), Delivering();
    var g1 := Next(g0, acts[0]);
    assert g1.dispatch == WritingTo(Own(0), Accepted(0), [y]);
    var g2 := Next(g1, acts[1]);
    assert g2.peers[Accepted(0)].output == [] + [Delivery(Own(0), [y])];
    CollectSnoc([], Delivery(Own(0), [y]), Own(0));
    RunsFirst(g1, acts[1], []);
    RunsFirst(g0, acts[0], [acts[1]]);
    assert acts == [acts[0]] + [acts[1]];
  }

  /** The peer is given a stream that is not a prefix of what the service sent. */
  lemma ReturnCanLoseItsStart(x: Item, y: Item)
    requires x != y
    ensures Runs(Start([]), GapRun(x, y))
    ensures var g := Final(Start([]), GapRun(x, y));
      |g.recs| == 1 && !(ExtOutput(g, 0) <= g.recs[0].localInput)
  {
    DialReached();
    AnswerReached(x);
    RegisterReached(x);
    ContinueReached(x, y);
    DeliverReached(x, y);
    RunsThen(AfterRegister(x), Continuing(y), Delivering());
    RunsThen(AfterAnswer(x), Registering(), Continuing(y) + Delivering());
    RunsThen(AfterDial(), Answering(x), Registering() + (Continuing(y) + Delivering()));
    RunsThen(Start([]), Dialling(), Answering(x) + (Registering() + (Continuing(y) + Delivering())));
    assert [y][0] != [x, y][0];
  }
}
