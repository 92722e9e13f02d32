/** One bridged connection through the whole of one session: the relay's side,
    the daemon's side, and the two channels between them. */
module Connection {
  import opened Frames
  import opened Sockets
  import R = RelaySide
  import D = DaemonSide

  datatype Conn = Conn(proto: Protocol, relay: R.Relay, down: Link<Body>, up: Link<Body>, daemon: D.Daemon)

  datatype Act =
    | Handler(h: R.HandlerAct)
    | Dispatch(d: R.DispatchAct)
    | FrameReader(f: D.FrameAct)
    | LocalReader(r: D.ReaderAct)
    | ExtLost | LocalLost | UdpClosed | CutDown(n: nat) | CutUp(n: nat)

  /** The state right after openConn has written its "open" frame; a UDP tunnel
      may have been stopped meanwhile. */
  function Opened(p: Protocol, open: Body, downLive: bool, upLive: bool, loop: R.Loop, frames: bool, stopped: bool)
    : Conn
  {
    Conn(p, R.Relay(R.Opening, false, [], false, NEW_SOCKET.(eof := stopped, dead := stopped), loop, R.Free),
         Push(NewLink<Body>().(live := downLive), open), NewLink<Body>().(live := upLive),
         D.Daemon(frames, D.Ready, D.Unopened, false, false, NEW_SOCKET))
  }

  predicate Enabled(s: Conn, a: Act) {
    match a
    case Handler(h) => R.HandlerEnabled(s.proto, s.relay, s.down, h)
    case Dispatch(d) => R.DispatchEnabled(s.proto, s.relay, s.up, d)
    case FrameReader(f) => D.FrameEnabled(s.proto, s.daemon, s.down, f)
    case LocalReader(r) => D.ReaderEnabled(s.proto, s.daemon, s.up, r)
    case ExtLost => s.proto.Tcp?
    case LocalLost => s.daemon.dialled
    case UdpClosed => s.proto.Udp?
    case CutDown(n) => n <= |s.down.flight|
    case CutUp(n) => n <= |s.up.flight|
  }

  function Next(s: Conn, a: Act): Conn
    requires Enabled(s, a)
  {
    match a
    case Handler(h) =>
      s.(relay := R.HandlerNext(s.proto, s.relay, s.up.got, h), down := R.HandlerSends(s.relay, s.down, h))
    case Dispatch(d) =>
      s.(relay := R.DispatchNext(s.proto, s.relay, s.up, d), up := if d.RecvUp? then Pop(s.up) else s.up)
    case FrameReader(f) =>
      s.(daemon := D.FrameNext(s.proto, s.daemon, s.down, f),
         down := if f.RecvDown? then Pop(s.down) else s.down,
         up := if f.Refuse? then Push(s.up, Close) else s.up)
    case LocalReader(r) =>
      s.(daemon := D.ReaderNext(s.daemon, r), up := D.ReaderSends(s.daemon, s.up, r))
    case ExtLost => s.(relay := s.relay.(ext := s.relay.ext.(eof := true)))
    case LocalLost => s.(daemon := s.daemon.(local := s.daemon.local.(eof := true)))
    case UdpClosed => s.(relay := s.relay.(ext := s.relay.ext.(eof := true, dead := true)))
    case CutDown(n) => s.(down := Cut(s.down, n))
    case CutUp(n) => s.(up := Cut(s.up, n))
  }

  /** A failure of the session itself: a broken channel or a loop that ended. */
  predicate Broken(s: Conn) {
    !s.down.live || !s.up.live || !s.relay.loop.Running? || !s.daemon.frames
  }

  /** Why a TCP connection is being torn down, as long as the session is whole. */
  predicate Cause(s: Conn) {
    var r, d := s.relay, s.daemon;
    s.proto.Tcp? && !Broken(s) ==>
      && (r.ext.closed || r.dispatch.ClosingExt? ==> R.Left(r.handler) || R.LateClose(r, s.up.got))
      && (R.Left(r.handler) ==> r.ext.eof || R.LateClose(r, s.up.got))
      && (d.local.closed || d.task.ClosingLocal? ==> D.LLeft(d.reader) || Closed(s.down.got))
      && (R.Left(r.handler) || D.LLeft(d.reader) ==> r.ext.eof || D.LocalGone(d))
  }

  predicate Inv(s: Conn) {
    && Fifo(s.down) && Fifo(s.up)
    && R.RelayInv(s.proto, s.relay, s.down, s.up.got)
    && D.DaemonInv(s.daemon, s.down.got, s.up)
    && Cause(s)
  }

  lemma OpenedInv(p: Protocol, open: Body, downLive: bool, upLive: bool, loop: R.Loop, frames: bool, stopped: bool)
    requires open.Open?
    ensures Inv(Opened(p, open, downLive, upLive, loop, frames, stopped))
  {
    StreamSnoc([], open);
  }

  /** A "close" is the last frame of its direction: seen by one end, it was the
      other end's last word, and nothing follows it. */
  lemma ClosedIsLast(s: Conn)
    requires Inv(s)
    ensures Closed(s.down.got) ==> Closed(s.down.sent) && s.down.flight == []
    ensures Closed(s.up.got) ==> Closed(s.up.sent) && s.up.flight == []
    ensures Closed(s.down.got) ==> R.Left(s.relay.handler)
    ensures Closed(s.up.got) ==> D.LLeft(s.daemon.reader)
  {
    if Closed(s.down.got) {
      assert s.down.sent[|s.down.got| - 1] == s.down.got[|s.down.got| - 1];
    }
    if Closed(s.up.got) {
      assert s.up.sent[|s.up.got| - 1] == s.up.got[|s.up.got| - 1];
    }
  }

  lemma HandlerKeepsCause(s: Conn, h: R.HandlerAct)
    requires Cause(s) && Enabled(s, Handler(h)) && (Closed(s.up.got) ==> D.LLeft(s.daemon.reader))
    requires R.ExtPhases(s.proto, s.relay) && R.ExtTeardown(s.proto, s.relay, s.up.got)
    ensures Cause(Next(s, Handler(h)))
  {
  }

  lemma HandlerKeepsInv(s: Conn, h: R.HandlerAct)
    requires Inv(s) && Enabled(s, Handler(h))
    ensures Inv(Next(s, Handler(h)))
  {
    R.HandlerKeeps(s.proto, s.relay, s.down, s.up.got, h);
    ClosedIsLast(s);
    HandlerKeepsCause(s, h);
    if h.SendData? {
      PushFifo(s.down, Data(s.relay.handler.chunk));
    } else if h.SendClose? {
      PushFifo(s.down, Close);
    }
  }

  lemma DispatchKeepsCause(s: Conn, d: R.DispatchAct)
    requires Cause(s) && Enabled(s, Dispatch(d))
    requires R.ExtPhases(s.proto, s.relay) && R.ExtTeardown(s.proto, s.relay, s.up.got)
    requires d.RecvUp? ==> !Closed(s.up.got) && !Closed(s.relay.before)
    ensures Cause(Next(s, Dispatch(d)))
  {
  }

  lemma NotLastNotClosed(first: seq<Body>, sent: seq<Body>)
    requires UpGrammar(sent) && first <= sent && |first| < |sent|
    ensures !Closed(first)
  {
    assert first != [] ==> first[|first| - 1] == sent[|first| - 1];
  }

  /** While frames are still to come, no "close" has been handled. */
  lemma NoneClosedYet(s: Conn)
    requires Inv(s) && s.up.flight != []
    ensures !Closed(s.up.got) && !Closed(s.relay.before) && Fifo(Pop(s.up))
  {
    PopSent(s.up);
    NotLastNotClosed(s.up.got, s.up.sent);
    NotLastNotClosed(s.relay.before, s.up.sent);
  }

  lemma DispatchKeepsInv(s: Conn, d: R.DispatchAct)
    requires Inv(s) && Enabled(s, Dispatch(d))
    ensures Inv(Next(s, Dispatch(d)))
  {
    R.DispatchKeeps(s.proto, s.relay, s.down, s.up, d);
    if d.RecvUp? {
      NoneClosedYet(s);
    }
    DispatchKeepsCause(s, d);
  }

  lemma FrameReaderKeepsCause(s: Conn, f: D.FrameAct)
    requires Cause(s) && Enabled(s, FrameReader(f)) && (Closed(s.down.got) ==> R.Left(s.relay.handler))
    requires D.LocalPhases(s.daemon, s.down.got) && D.LocalTeardown(s.daemon, s.down.got)
    requires f.RecvDown? ==> (s.down.flight[0].Open? <==> s.down.got == []) && !Closed(s.down.got)
    ensures Cause(Next(s, FrameReader(f)))
  {
  }

  /** The daemon meets the relay's frames in the order of their grammar. */
  lemma TakenInOrder(s: Conn)
    requires Inv(s) && s.down.flight != []
    ensures s.down.flight[0].Open? <==> s.down.got == []
    ensures !Closed(s.down.got) && Fifo(Pop(s.down))
  {
    ClosedIsLast(s);
    PopSent(s.down);
  }

  lemma RecvDownKeepsInv(s: Conn, dialOk: bool)
    requires Inv(s) && Enabled(s, FrameReader(D.RecvDown(dialOk)))
    ensures Inv(Next(s, FrameReader(D.RecvDown(dialOk))))
  {
    ClosedIsLast(s);
    TakenInOrder(s);
    FrameReaderKeepsCause(s, D.RecvDown(dialOk));
    D.ReceiveKeeps(s.daemon, s.down.got, s.up, s.down.flight[0], dialOk);
  }

  lemma FrameReaderKeepsInv(s: Conn, f: D.FrameAct)
    requires Inv(s) && Enabled(s, FrameReader(f)) && !f.RecvDown?
    ensures Inv(Next(s, FrameReader(f)))
  {
    ClosedIsLast(s);
    FrameReaderKeepsCause(s, f);
    if f.Refuse? {
      PushFifo(s.up, Close);
      D.RefuseKeeps(s.daemon, s.down.got, s.up);
    } else {
      D.FrameKeeps(s.proto, s.daemon, s.down, s.up, f);
    }
  }

  lemma LocalReaderKeepsCause(s: Conn, r: D.ReaderAct)
    requires Cause(s) && Enabled(s, LocalReader(r)) && (Closed(s.down.got) ==> R.Left(s.relay.handler))
    requires D.LocalPhases(s.daemon, s.down.got) && D.LocalTeardown(s.daemon, s.down.got)
    ensures Cause(Next(s, LocalReader(r)))
  {
  }

  lemma LocalReaderKeepsInv(s: Conn, r: D.ReaderAct)
    requires Inv(s) && Enabled(s, LocalReader(r))
    ensures Inv(Next(s, LocalReader(r)))
  {
    D.ReaderKeeps(s.proto, s.daemon, s.down.got, s.up, r);
    ClosedIsLast(s);
    LocalReaderKeepsCause(s, r);
    if r.LocalSend? {
      PushFifo(s.up, Data(s.daemon.reader.chunk));
    } else if r.LocalSendClose? {
      PushFifo(s.up, Close);
    }
  }

  lemma NextInv(s: Conn, a: Act)
    requires Inv(s) && Enabled(s, a)
    ensures Inv(Next(s, a))
  {
    match a
    case Handler(h) => HandlerKeepsInv(s, h);
    case Dispatch(d) => DispatchKeepsInv(s, d);
    case FrameReader(f) => if f.RecvDown? { RecvDownKeepsInv(s, f.dialOk); } else { FrameReaderKeepsInv(s, f); }
    case LocalReader(r) => LocalReaderKeepsInv(s, r);
    case CutDown(n) => CutKeepsOrder(s.down, n);
    case CutUp(n) => CutKeepsOrder(s.up, n);
    case _ =>
  }
}
