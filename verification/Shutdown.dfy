/** When nothing more can happen to a TCP connection without new bytes, is it
    shut down? Exactly when its external end is lost, or its local end is and
    the daemon's "close" did not overtake openConn's registration. */
module Shutdown {
  import opened Frames
  import opened Connection
  import R = RelaySide
  import D = DaemonSide

  /** Steps the program takes by itself: no new bytes, no peer hanging up, no
      failure of the session. */
  predicate Internal(a: Act) {
    match a
    case Handler(h) => !h.ExtRead? && !h.Expire? && !h.Abandon?
    case Dispatch(d) => !d.StopLoop? && !d.CloseAll?
    case FrameReader(f) => !f.StopFrames?
    case LocalReader(r) => !r.LocalRead?
    case _ => false
  }

  ghost predicate Quiescent(s: Conn) {
    forall a :: Internal(a) ==> !Enabled(s, a)
  }

  /** Both sockets closed, no table entry, no frame in flight, no goroutine left. */
  predicate Clean(s: Conn) {
    && s.relay.handler.Ended? && s.relay.ext.closed && !s.relay.registered && s.relay.dispatch.Free?
    && s.daemon.reader.LEnded? && (s.daemon.dialled ==> s.daemon.local.closed)
    && !s.daemon.listed && s.daemon.task.Ready?
    && s.down.flight == [] && s.up.flight == []
  }

  /** Both ends up, both goroutines waiting for bytes. */
  predicate Bridged(s: Conn) {
    && s.relay.handler.Reading? && s.relay.registered && !s.relay.ext.closed && !s.relay.ext.eof
    && s.daemon.reader.LReading? && s.daemon.listed && !s.daemon.local.closed && !s.daemon.local.eof
  }

  /** The daemon's side is gone, yet the relay keeps the external connection in
      conns and waits for bytes it can only throw away. */
  predicate Stranded(s: Conn) {
    && s.relay.handler.Reading? && s.relay.registered && !s.relay.ext.closed && !s.relay.ext.eof
    && s.daemon.reader.LEnded? && !s.daemon.listed && R.EarlyClose(s.relay)
  }

  predicate LoopsIdle(s: Conn) {
    s.down.flight == [] && s.up.flight == [] && s.relay.dispatch.Free? && s.daemon.task.Ready?
  }

  predicate HandlerWaits(r: R.Relay) {
    r.handler.Ended? || r.handler.Abandoned? || (r.handler.Reading? && !r.ext.closed && !r.ext.eof)
  }

  predicate ReaderWaits(d: D.Daemon) {
    d.reader.Unopened? || d.reader.LEnded? || (d.reader.LReading? && !d.local.closed && !d.local.eof)
  }

  /** Unless everything waits for bytes, some internal step is possible. */
  lemma LoopCanMove(s: Conn) returns (a: Act)
    requires !Broken(s) && !LoopsIdle(s)
    ensures Internal(a) && Enabled(s, a)
  {
    match s.relay.dispatch
    case WritingExt(data) => a := Dispatch(R.WriteExt(|data|));
    case ClosingExt => a := Dispatch(R.CloseExt);
    case Free =>
      match s.daemon.task {
        case WritingLocal(data) => a := FrameReader(D.WriteLocal(|data|));
        case ClosingLocal => a := FrameReader(D.CloseLocal);
        case Refusing => a := FrameReader(D.Refuse);
        case Ready => a := if s.up.flight != [] then Dispatch(R.RecvUp) else FrameReader(D.RecvDown(true));
      }
  }

  lemma HandlerCanMove(s: Conn) returns (a: Act)
    requires s.proto.Tcp? && !HandlerWaits(s.relay)
    ensures Internal(a) && Enabled(s, a)
  {
    match s.relay.handler
    case Opening => a := Handler(R.Register);
    case Holding(_, _) => a := Handler(R.SendData(true));
    case Leaving => a := Handler(R.Detach);
    case Detached(_) => a := Handler(R.CloseDetached);
    case Ending => a := Handler(R.SendClose);
    case Returning => a := Handler(R.Return);
    case _ => a := Handler(R.ReadFail);
  }

  lemma ReaderCanMove(s: Conn) returns (a: Act)
    requires !ReaderWaits(s.daemon)
    ensures Internal(a) && Enabled(s, a)
  {
    match s.daemon.reader
    case LHolding(_, _) => a := LocalReader(D.LocalSend(true));
    case LLeaving => a := LocalReader(D.LocalDetach);
    case LDetached(_) => a := LocalReader(D.LocalCloseDetached);
    case LEnding => a := LocalReader(D.LocalSendClose);
    case _ => a := LocalReader(D.LocalFail);
  }

  /** What quiescence means for each goroutine. */
  lemma QuiescentShape(s: Conn)
    requires s.proto.Tcp? && !Broken(s) && Quiescent(s)
    ensures LoopsIdle(s) && HandlerWaits(s.relay) && ReaderWaits(s.daemon)
  {
    if !LoopsIdle(s) {
      var a := LoopCanMove(s);
    } else if !HandlerWaits(s.relay) {
      var a := HandlerCanMove(s);
    } else if !ReaderWaits(s.daemon) {
      var a := ReaderCanMove(s);
    }
  }

  /** Only three ways to come to rest. */
  lemma RestingStates(s: Conn)
    requires Inv(s) && s.proto.Tcp? && !Broken(s) && Quiescent(s)
    ensures Clean(s) || Bridged(s) || Stranded(s)
  {
    QuiescentShape(s);
    assert s.down.got == s.down.sent && s.up.got == s.up.sent;
  }

  /** The exact condition under which a resting connection has been shut down. */
  lemma ShutdownExact(s: Conn)
    requires Inv(s) && s.proto.Tcp? && !Broken(s) && Quiescent(s)
    ensures Clean(s) <==> s.relay.ext.eof || (D.LocalGone(s.daemon) && !R.EarlyClose(s.relay))
  {
    QuiescentShape(s);
    RestingStates(s);
  }

  // ---- a measure of the work left for one connection ----

  function HandlerWeight(h: R.Handler): nat {
    match h
    case Opening => 9
    case Reading => 8
    case Holding(_, _) => 12
    case Leaving => 7
    case Detached(_) => 6
    case Ending => 5
    case Returning => 1
    case _ => 0
  }

  function ReaderWeight(r: D.Reader): nat {
    match r
    case LReading => 7
    case LHolding(_, _) => 11
    case LLeaving => 6
    case LDetached(_) => 5
    case LEnding => 4
    case _ => 0
  }

  function BodyWeight(f: Body): nat { if f.Open? then 20 else 3 }

  function BodiesWeight(fs: seq<Body>): nat {
    if fs == [] then 0 else BodyWeight(fs[0]) + BodiesWeight(fs[1..])
  }

  lemma {:induction false} BodiesSnoc(fs: seq<Body>, f: Body)
    ensures BodiesWeight(fs + [f]) == BodiesWeight(fs) + BodyWeight(f)
  {
    if fs == [] {
      assert [f][1..] == [];
    } else {
      BodiesSnoc(fs[1..], f);
      assert (fs + [f])[1..] == fs[1..] + [f];
    }
  }

  function LoopsWeight(d: R.Dispatch, t: D.Task): nat {
    (if d.Free? then 0 else 1) + (match t case Ready => 0 case Refusing => 5 case _ => 1)
  }

  function ConnMeasure(s: Conn): nat {
    HandlerWeight(s.relay.handler) + ReaderWeight(s.daemon.reader) + LoopsWeight(s.relay.dispatch, s.daemon.task)
    + BodiesWeight(s.down.flight) + BodiesWeight(s.up.flight)
  }

  lemma PushBodies(l: Link<Body>, f: Body)
    ensures BodiesWeight(Push(l, f).flight) <= BodiesWeight(l.flight) + BodyWeight(f)
  {
    BodiesSnoc(l.flight, f);
  }

  lemma HandlerLowers(s: Conn, h: R.HandlerAct)
    requires Internal(Handler(h)) && Enabled(s, Handler(h))
    ensures ConnMeasure(Next(s, Handler(h))) < ConnMeasure(s)
  {
    if h.SendData? {
      PushBodies(s.down, Data(s.relay.handler.chunk));
    } else if h.SendClose? {
      PushBodies(s.down, Close);
    }
  }

  lemma ReaderLowers(s: Conn, r: D.ReaderAct)
    requires Internal(LocalReader(r)) && Enabled(s, LocalReader(r))
    ensures ConnMeasure(Next(s, LocalReader(r))) < ConnMeasure(s)
  {
    if r.LocalSend? {
      PushBodies(s.up, Data(s.daemon.reader.chunk));
    } else if r.LocalSendClose? {
      PushBodies(s.up, Close);
    }
  }

  lemma DispatchLowers(s: Conn, d: R.DispatchAct)
    requires Internal(Dispatch(d)) && Enabled(s, Dispatch(d))
    ensures ConnMeasure(Next(s, Dispatch(d))) < ConnMeasure(s)
  {
  }

  lemma FrameReaderLowers(s: Conn, f: D.FrameAct)
    requires Internal(FrameReader(f)) && Enabled(s, FrameReader(f))
    ensures ConnMeasure(Next(s, FrameReader(f))) < ConnMeasure(s)
  {
    if f.Refuse? {
      PushBodies(s.up, Close);
    }
  }

  /** Each internal step of the connection lowers its measure. */
  lemma InternalLowers(s: Conn, a: Act)
    requires Internal(a) && Enabled(s, a)
    ensures ConnMeasure(Next(s, a)) < ConnMeasure(s)
  {
    match a
    case Handler(h) => HandlerLowers(s, h);
    case LocalReader(r) => ReaderLowers(s, r);
    case FrameReader(f) => FrameReaderLowers(s, f);
    case Dispatch(d) => DispatchLowers(s, d);
  }
}
