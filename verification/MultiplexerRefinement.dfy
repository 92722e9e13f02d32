/** Every step of the session is, for each connection, one of its own steps or
    no step at all; and it keeps the routing invariant. */
module MultiplexerRefinement {
  import opened Frames
  import opened Options
  import opened Sockets
  import opened Multiplexer
  import opened MultiplexerView
  import R = RelaySide
  import D = DaemonSide
  import C = Connection

  predicate HeadFor(l: Link<Frame>, n: nat) {
    l.flight != [] && l.flight[0].Of? && l.flight[0].id == Own(n)
  }

  /** The step that connection n takes when the session takes step a. */
  function Proj(g: Session, a: Act, n: nat): Option<C.Act>
    requires n < |g.recs| && Enabled(g, a)
  {
    match a
    case Handler(m, h) => if m == n then Some(C.Handler(h)) else None
    case RecvUp => if HeadFor(g.up, n) then Some(C.Dispatch(R.RecvUp)) else None
    case WriteExt(k) => if g.dispatch.id == Own(n) then Some(C.Dispatch(R.WriteExt(k))) else None
    case CloseExt => if g.dispatch.id == Own(n) then Some(C.Dispatch(R.CloseExt)) else None
    case StopLoop => Some(C.Dispatch(R.StopLoop))
    case CloseAll => Some(C.Dispatch(R.CloseAll))
    case RecvDown(dialOk) =>
      if HeadFor(g.down, n)
      then Some(C.FrameReader(D.RecvDown(dialOk && ResolvePort(g.config, g.recs[n].tunnel, g.recs[n].port) != 0)))
      else None
    case Refuse => if g.task.id == Own(n) then Some(C.FrameReader(D.Refuse)) else None
    case WriteLocal(k) => if g.task.id == Own(n) then Some(C.FrameReader(D.WriteLocal(k))) else None
    case CloseLocal => if g.task.id == Own(n) then Some(C.FrameReader(D.CloseLocal)) else None
    case StopFrames => Some(C.FrameReader(D.StopFrames))
    case LocalReader(m, r) => if m == n then Some(C.LocalReader(r)) else None
    case ExtLost(m) => if m == n then Some(C.ExtLost) else None
    case LocalLost(m) => if m == n then Some(C.LocalLost) else None
    case StopUdp(tunnel) =>
      if g.recs[n].peer.Source? && g.recs[n].peer.tunnel == tunnel then Some(C.UdpClosed) else None
    case CutDown(k) => Some(C.CutDown(|FramesOf(g.down.flight[..k], n)|))
    case CutUp(k) => Some(C.CutUp(|FramesOf(g.up.flight[..k], n)|))
    case _ => None
  }

  /** Before and after, as connection n sees it. */
  predicate Simulates(v: C.Conn, v': C.Conn, pa: Option<C.Act>) {
    match pa
    case None => v' == v
    case Some(a) => C.Enabled(v, a) && v' == C.Next(v, a)
  }

  predicate StepOk(g: Session, a: Act, n: nat)
    requires Enabled(g, a) && n < |g.recs|
  {
    n < |Next(g, a).recs| && Simulates(View(g, n), View(Next(g, a), n), Proj(g, a, n))
  }

  ghost predicate SessionInv(g: Session) {
    Routing(g) && forall n :: 0 <= n < |g.recs| ==> C.Inv(View(g, n))
  }

  /** Steps that change the table, or the external socket, or neither. */
  lemma HandlerTableOwn(g: Session, n: nat, h: R.HandlerAct)
    requires PeersRouted(g) && HandlerEnabled(g, n, h) && (h.Register? || h.Detach?)
    ensures RelayOf(HandlerNext(g, n, h), n) ==
      R.HandlerNext(g.recs[n].proto, RelayOf(g, n), FramesOf(g.up.got, n), h)
  {
  }

  lemma HandlerSocketOwn(g: Session, n: nat, h: R.HandlerAct)
    requires PeersRouted(g) && HandlerEnabled(g, n, h)
    requires h.ExtRead? || h.CloseDetached? || h.Return?
    ensures RelayOf(HandlerNext(g, n, h), n) ==
      R.HandlerNext(g.recs[n].proto, RelayOf(g, n), FramesOf(g.up.got, n), h)
  {
  }

  lemma HandlerQuietOwn(g: Session, n: nat, h: R.HandlerAct)
    requires PeersRouted(g) && HandlerEnabled(g, n, h)
    requires !h.Register? && !h.Detach? && !h.ExtRead? && !h.CloseDetached? && !h.Return?
    ensures RelayOf(HandlerNext(g, n, h), n) ==
      R.HandlerNext(g.recs[n].proto, RelayOf(g, n), FramesOf(g.up.got, n), h)
  {
  }

  lemma HandlerRelayOwn(g: Session, n: nat, h: R.HandlerAct)
    requires PeersRouted(g) && HandlerEnabled(g, n, h)
    ensures RelayOf(HandlerNext(g, n, h), n) ==
      R.HandlerNext(g.recs[n].proto, RelayOf(g, n), FramesOf(g.up.got, n), h)
  {
    if h.Register? || h.Detach? {
      HandlerTableOwn(g, n, h);
    } else if h.ExtRead? || h.CloseDetached? || h.Return? {
      HandlerSocketOwn(g, n, h);
    } else {
      HandlerQuietOwn(g, n, h);
    }
  }

  lemma HandlerRelayOther(g: Session, m: nat, h: R.HandlerAct, n: nat)
    requires PeersRouted(g) && HandlerEnabled(g, m, h) && n < |g.recs| && m != n
    ensures RelayOf(HandlerNext(g, m, h), n) == RelayOf(g, n)
  {
  }

  lemma HandlerDown(g: Session, m: nat, h: R.HandlerAct, n: nat)
    requires HandlerEnabled(g, m, h) && n < |g.recs|
    ensures LinkOf(HandlerNext(g, m, h).down, n) ==
      if m == n then R.HandlerSends(RelayOf(g, n), LinkOf(g.down, n), h) else LinkOf(g.down, n)
  {
    match h
    case SendData(ok) => PushOf(g.down, Of(Own(m), Data(g.recs[m].handler.chunk)), n);
    case SendClose => PushOf(g.down, Of(Own(m), Close), n);
    case _ =>
  }

  /** A relay handler leaves the daemon's half alone. */
  lemma HandlerFields(g: Session, m: nat, h: R.HandlerAct, n: nat)
    requires HandlerEnabled(g, m, h) && n < |g.recs|
    ensures var g' := HandlerNext(g, m, h); var c, c' := g.recs[n], g'.recs[n];
      && g' == g.(recs := g'.recs, peers := g'.peers, conns := g'.conns, down := g'.down)
      && c' == c.(handler := c'.handler, before := c'.before, late := c'.late, input := c'.input, taken := c'.taken)
  {
  }

  lemma HandlerRest(g: Session, m: nat, h: R.HandlerAct, n: nat)
    requires HandlerEnabled(g, m, h) && n < |g.recs|
    ensures DaemonOf(HandlerNext(g, m, h), n) == DaemonOf(g, n) && HandlerNext(g, m, h).up == g.up
    ensures HandlerNext(g, m, h).recs[n].proto == g.recs[n].proto
  {
    HandlerFields(g, m, h, n);
  }

  lemma HandlerSimulates(g: Session, m: nat, h: R.HandlerAct, n: nat)
    requires PeersRouted(g) && TablesRouted(g) && HandlerEnabled(g, m, h) && n < |g.recs|
    ensures StepOk(g, Handler(m, h), n)
  {
    if m == n {
      HandlerRelayOwn(g, n, h);
    } else {
      HandlerRelayOther(g, m, h, n);
    }
    HandlerDown(g, m, h, n);
    HandlerRest(g, m, h, n);
    assert m == n ==> R.HandlerEnabled(g.recs[n].proto, RelayOf(g, n), LinkOf(g.down, n), h);
  }

  lemma RecvUpOwn(g: Session, n: nat)
    requires Enabled(g, RecvUp) && n < |g.recs| && HeadFor(g.up, n)
    ensures RelayOf(RecvUpNext(g), n) == R.Receive(RelayOf(g, n), g.up.flight[0].body)
  {
  }

  lemma RecvUpOther(g: Session, n: nat)
    requires Enabled(g, RecvUp) && n < |g.recs| && !HeadFor(g.up, n)
    ensures RelayOf(RecvUpNext(g), n) == RelayOf(g, n)
  {
  }

  lemma RecvUpRest(g: Session, n: nat)
    requires Enabled(g, RecvUp) && n < |g.recs|
    ensures DaemonOf(RecvUpNext(g), n) == DaemonOf(g, n)
    ensures RecvUpNext(g).up == Pop(g.up) && RecvUpNext(g).down == g.down && RecvUpNext(g).recs == g.recs
  {
  }

  lemma RecvUpSimulates(g: Session, n: nat)
    requires Enabled(g, RecvUp) && n < |g.recs|
    ensures StepOk(g, RecvUp, n)
  {
    PopOf(g.up, n);
    RecvUpRest(g, n);
    var v, v' := View(g, n), View(RecvUpNext(g), n);
    if HeadFor(g.up, n) {
      RecvUpOwn(g, n);
      assert v' == v.(relay := v'.relay, up := Pop(v.up));
    } else {
      RecvUpOther(g, n);
      assert v' == v;
    }
  }

  /** What happens to external sockets is nothing to the daemon's side. */
  lemma ExtKeepsDaemon(g: Session, a: Act, n: nat)
    requires Enabled(g, a) && n < |g.recs| && (a.WriteExt? || a.CloseExt? || a.ExtLost?)
    ensures var g' := Next(g, a);
      DaemonOf(g', n) == DaemonOf(g, n) && g'.down == g.down && g'.up == g.up && g'.recs == g.recs
  {
  }

  /** What happens to local sockets is nothing to the relay's side. */
  lemma LocalKeepsRelay(g: Session, a: Act, n: nat)
    requires Enabled(g, a) && n < |g.recs| && (a.WriteLocal? || a.CloseLocal? || a.LocalLost?)
    ensures var g' := Next(g, a);
      RelayOf(g', n) == RelayOf(g, n) && g'.down == g.down && g'.up == g.up && g'.recs == g.recs
  {
  }

  lemma WriteExtRelay(g: Session, k: nat, n: nat)
    requires PeersRouted(g) && LoopsRouted(g) && Enabled(g, WriteExt(k)) && n < |g.recs|
    ensures var r := RelayOf(g, n);
      RelayOf(Next(g, WriteExt(k)), n) ==
        if g.dispatch.id == Own(n) then r.(dispatch := R.Free, ext := Write(r.ext, g.dispatch.data, k)) else r
  {
    WriteOf(g.peers[g.dispatch.peer], g.dispatch.id, g.dispatch.data, k, g.recs[n].input, Own(n));
  }

  lemma WriteExtSimulates(g: Session, k: nat, n: nat)
    requires PeersRouted(g) && LoopsRouted(g) && Enabled(g, WriteExt(k)) && n < |g.recs|
    ensures StepOk(g, WriteExt(k), n)
  {
    WriteExtRelay(g, k, n);
    ExtKeepsDaemon(g, WriteExt(k), n);
  }

  lemma CloseExtSimulates(g: Session, n: nat)
    requires PeersRouted(g) && LoopsRouted(g) && Enabled(g, CloseExt) && n < |g.recs|
    ensures StepOk(g, CloseExt, n)
  {
    ExtKeepsDaemon(g, CloseExt, n);
  }

  /** A TCP peer is in conns under its own connID, if at all. */
  lemma OwnPeerListed(g: Session, n: nat)
    requires PeersRouted(g) && TablesRouted(g) && n < |g.recs| && g.recs[n].peer.Accepted?
    ensures g.recs[n].peer in g.conns.Values <==> Own(n) in g.conns
  {
    if g.recs[n].peer in g.conns.Values {
      var id :| id in g.conns && g.conns[id] == g.recs[n].peer;
      assert g.recs[id.n].peer == g.recs[n].peer && id == Own(n);
    }
  }

  lemma CloseAllRelay(g: Session, n: nat)
    requires PeersRouted(g) && TablesRouted(g) && n < |g.recs|
    ensures var r := RelayOf(g, n);
      RelayOf(CloseAllNext(g), n) ==
        r.(loop := R.Stopped, registered := false,
           ext := if r.registered then CloseSocket(g.recs[n].proto, r.ext) else r.ext)
  {
    if g.recs[n].peer.Accepted? {
      OwnPeerListed(g, n);
    }
  }

  lemma CloseAllSimulates(g: Session, n: nat)
    requires PeersRouted(g) && TablesRouted(g) && Enabled(g, CloseAll) && n < |g.recs|
    ensures StepOk(g, CloseAll, n)
  {
    CloseAllRelay(g, n);
    assert DaemonOf(CloseAllNext(g), n) == DaemonOf(g, n);
  }

  lemma RecvDownDaemonOwn(g: Session, dialOk: bool, n: nat)
    requires TablesRouted(g) && LocalsRouted(g) && Enabled(g, RecvDown(dialOk)) && n < |g.recs|
    requires DownRouted(g, g.down.flight[0]) && HeadFor(g.down, n)
    requires g.down.flight[0].body.Open? ==> g.recs[n].sock.None? && g.recs[n].localInput == []
    ensures DaemonOf(RecvDownNext(g, dialOk), n) ==
      D.Receive(DaemonOf(g, n), g.down.flight[0].body,
                dialOk && ResolvePort(g.config, g.recs[n].tunnel, g.recs[n].port) != 0)
  {
  }

  lemma RecvDownDaemonOther(g: Session, dialOk: bool, n: nat)
    requires LocalsRouted(g) && Enabled(g, RecvDown(dialOk)) && n < |g.recs| && !HeadFor(g.down, n)
    ensures DaemonOf(RecvDownNext(g, dialOk), n) == DaemonOf(g, n)
  {
  }

  lemma RecvDownRelay(g: Session, dialOk: bool, n: nat)
    requires Enabled(g, RecvDown(dialOk)) && n < |g.recs|
    ensures RelayOf(RecvDownNext(g, dialOk), n) == RelayOf(g, n)
    ensures RecvDownNext(g, dialOk).up == g.up && RecvDownNext(g, dialOk).down == Pop(g.down)
    ensures RecvDownNext(g, dialOk).recs[n].proto == g.recs[n].proto
  {
  }

  lemma HeadRouted(g: Session)
    requires Fifo(g.down) && FramesRouted(g) && g.down.flight != []
    ensures DownRouted(g, g.down.flight[0])
  {
    PopSent(g.down);
    assert DownRouted(g, g.down.sent[|g.down.got|]);
  }

  /** The relay sends "open" for a connID once, so the daemon holds nothing for it yet. */
  lemma OpenIsFirst(g: Session, n: nat)
    requires n < |g.recs| && C.Inv(View(g, n)) && HeadFor(g.down, n)
    ensures g.down.flight[0].body.Open? ==> g.recs[n].sock.None? && g.recs[n].localInput == []
  {
    PopOf(g.down, n);
    PopSent(LinkOf(g.down, n));
  }

  lemma RecvDownOwnView(g: Session, dialOk: bool, n: nat)
    requires TablesRouted(g) && LocalsRouted(g) && Enabled(g, RecvDown(dialOk)) && n < |g.recs|
    requires DownRouted(g, g.down.flight[0]) && HeadFor(g.down, n)
    requires g.down.flight[0].body.Open? ==> g.recs[n].sock.None? && g.recs[n].localInput == []
    ensures var v, ok := View(g, n), dialOk && ResolvePort(g.config, g.recs[n].tunnel, g.recs[n].port) != 0;
      v.down.flight != [] && View(RecvDownNext(g, dialOk), n) ==
        v.(daemon := D.Receive(v.daemon, g.down.flight[0].body, ok), down := Pop(v.down))
  {
    PopOf(g.down, n);
    RecvDownDaemonOwn(g, dialOk, n);
    RecvDownRelay(g, dialOk, n);
  }

  lemma ConnRecvDown(v: C.Conn, ok: bool)
    requires v.daemon.frames && v.daemon.task.Ready? && v.down.flight != []
    ensures Simulates(v, v.(daemon := D.Receive(v.daemon, v.down.flight[0], ok), down := Pop(v.down)),
                      Some(C.FrameReader(D.RecvDown(ok))))
  {
  }

  lemma ReaderReady(g: Session, dialOk: bool, n: nat)
    requires Enabled(g, RecvDown(dialOk)) && n < |g.recs|
    ensures DaemonOf(g, n).frames && DaemonOf(g, n).task.Ready?
  {
  }

  lemma RecvDownOwn(g: Session, dialOk: bool, n: nat)
    requires TablesRouted(g) && LocalsRouted(g) && Enabled(g, RecvDown(dialOk)) && n < |g.recs|
    requires DownRouted(g, g.down.flight[0]) && HeadFor(g.down, n)
    requires g.down.flight[0].body.Open? ==> g.recs[n].sock.None? && g.recs[n].localInput == []
    ensures StepOk(g, RecvDown(dialOk), n)
  {
    PopOf(g.down, n);
    ReaderReady(g, dialOk, n);
    RecvDownOwnView(g, dialOk, n);
    ConnRecvDown(View(g, n), dialOk && ResolvePort(g.config, g.recs[n].tunnel, g.recs[n].port) != 0);
  }

  lemma RecvDownOther(g: Session, dialOk: bool, n: nat)
    requires TablesRouted(g) && LocalsRouted(g) && Enabled(g, RecvDown(dialOk)) && n < |g.recs|
    requires DownRouted(g, g.down.flight[0]) && !HeadFor(g.down, n)
    ensures StepOk(g, RecvDown(dialOk), n)
  {
    PopOf(g.down, n);
    RecvDownDaemonOther(g, dialOk, n);
    RecvDownRelay(g, dialOk, n);
  }

  lemma RecvDownStep(g: Session, dialOk: bool, n: nat)
    requires Routing(g) && n < |g.recs| && C.Inv(View(g, n)) && Enabled(g, RecvDown(dialOk))
    ensures StepOk(g, RecvDown(dialOk), n)
  {
    HeadRouted(g);
    if HeadFor(g.down, n) {
      OpenIsFirst(g, n);
      RecvDownOwn(g, dialOk, n);
    } else {
      RecvDownOther(g, dialOk, n);
    }
  }

  lemma WriteLocalDaemon(g: Session, k: nat, n: nat)
    requires LocalsRouted(g) && LoopsRouted(g) && Enabled(g, WriteLocal(k)) && n < |g.recs|
    ensures var d := DaemonOf(g, n);
      DaemonOf(Next(g, WriteLocal(k)), n) ==
        if g.task.id == Own(n) then d.(task := D.Ready, local := Write(d.local, g.task.data, k)) else d
  {
    WriteOf(g.locals[g.task.sock], g.task.id, g.task.data, k, g.recs[n].localInput, Own(n));
  }

  lemma WriteLocalSimulates(g: Session, k: nat, n: nat)
    requires LocalsRouted(g) && LoopsRouted(g) && Enabled(g, WriteLocal(k)) && n < |g.recs|
    ensures StepOk(g, WriteLocal(k), n)
  {
    WriteLocalDaemon(g, k, n);
    LocalKeepsRelay(g, WriteLocal(k), n);
  }

  lemma RefuseRest(g: Session, n: nat)
    requires Enabled(g, Refuse) && n < |g.recs|
    ensures var g' := Next(g, Refuse);
      RelayOf(g', n) == RelayOf(g, n) && g'.down == g.down && g'.recs[n].proto == g.recs[n].proto
      && g'.up == Push(g.up, Of(g.task.id, Close))
  {
  }

  lemma RefuseDaemon(g: Session, n: nat)
    requires Enabled(g, Refuse) && n < |g.recs| && Known(g, g.task.id)
    ensures DaemonOf(Next(g, Refuse), n) ==
      if g.task.id == Own(n) then DaemonOf(g, n).(task := D.Ready, reader := D.LEnded) else DaemonOf(g, n)
  {
  }

  lemma RefuseSimulates(g: Session, n: nat)
    requires LoopsRouted(g) && Enabled(g, Refuse) && n < |g.recs|
    ensures StepOk(g, Refuse, n)
  {
    PushOf(g.up, Of(g.task.id, Close), n);
    RefuseRest(g, n);
    RefuseDaemon(g, n);
    var v, v' := View(g, n), View(Next(g, Refuse), n);
    assert v' == v.(daemon := v'.daemon, up := v'.up);
  }

  lemma CloseLocalDaemon(g: Session, n: nat)
    requires LocalsRouted(g) && LoopsRouted(g) && Enabled(g, CloseLocal) && n < |g.recs|
    ensures var d := DaemonOf(g, n);
      DaemonOf(Next(g, CloseLocal), n) ==
        if g.task.id == Own(n) then d.(task := D.Ready, local := d.local.(closed := true)) else d
  {
  }

  lemma CloseLocalSimulates(g: Session, n: nat)
    requires LocalsRouted(g) && LoopsRouted(g) && Enabled(g, CloseLocal) && n < |g.recs|
    ensures StepOk(g, CloseLocal, n)
  {
    CloseLocalDaemon(g, n);
    LocalKeepsRelay(g, CloseLocal, n);
  }

  lemma StopSimulates(g: Session, a: Act, n: nat)
    requires Enabled(g, a) && n < |g.recs| && (a.StopFrames? || a.StopLoop?)
    ensures StepOk(g, a, n)
  {
    var v, v' := View(g, n), View(Next(g, a), n);
    if a.StopLoop? {
      assert v' == v.(relay := v.relay.(loop := R.Draining));
    } else {
      assert v' == v.(daemon := v.daemon.(frames := false));
    }
  }

  lemma ReaderDaemon(g: Session, m: nat, r: D.ReaderAct, n: nat)
    requires TablesRouted(g) && LocalsRouted(g) && ReaderEnabled(g, m, r) && n < |g.recs|
    ensures DaemonOf(ReaderNext(g, m, r), n) ==
      if m == n then D.ReaderNext(DaemonOf(g, n), r) else DaemonOf(g, n)
  {
  }

  lemma ReaderUp(g: Session, m: nat, r: D.ReaderAct, n: nat)
    requires ReaderEnabled(g, m, r) && n < |g.recs|
    ensures LinkOf(ReaderNext(g, m, r).up, n) ==
      if m == n then D.ReaderSends(DaemonOf(g, n), LinkOf(g.up, n), r) else LinkOf(g.up, n)
  {
    match r
    case LocalSend(ok) => PushOf(g.up, Of(Own(m), Data(g.recs[m].reader.chunk)), n);
    case LocalSendClose => PushOf(g.up, Of(Own(m), Close), n);
    case _ =>
  }

  lemma ReaderRest(g: Session, m: nat, r: D.ReaderAct, n: nat)
    requires ReaderEnabled(g, m, r) && n < |g.recs|
    ensures RelayOf(ReaderNext(g, m, r), n) == RelayOf(g, n) && ReaderNext(g, m, r).down == g.down
    ensures ReaderNext(g, m, r).recs[n].proto == g.recs[n].proto
  {
  }

  lemma ReaderCouldRead(g: Session, n: nat, r: D.ReaderAct)
    requires LocalsRouted(g) && ReaderEnabled(g, n, r)
    ensures D.ReaderEnabled(g.recs[n].proto, DaemonOf(g, n), LinkOf(g.up, n), r)
  {
  }

  lemma LocalReaderSimulates(g: Session, m: nat, r: D.ReaderAct, n: nat)
    requires TablesRouted(g) && LocalsRouted(g) && ReaderEnabled(g, m, r) && n < |g.recs|
    ensures StepOk(g, LocalReader(m, r), n)
  {
    ReaderDaemon(g, m, r, n);
    ReaderUp(g, m, r, n);
    ReaderRest(g, m, r, n);
    var v, v' := View(g, n), View(ReaderNext(g, m, r), n);
    assert v' == v.(daemon := v'.daemon, up := v'.up);
    if m == n {
      ReaderCouldRead(g, n, r);
      assert v' == C.Next(v, C.LocalReader(r));
    }
  }

  /** Frames of no connection of this session: keepalives and stale UDP traffic. */
  lemma SendLinks(g: Session, a: Act, n: nat)
    requires Enabled(g, a) && (a.SendPing? || a.SendPong? || a.SendStale?)
    ensures LinkOf(Next(g, a).down, n) == LinkOf(g.down, n) && LinkOf(Next(g, a).up, n) == LinkOf(g.up, n)
  {
    match a
    case SendPing => PushOf(g.up, Ping, n);
    case SendPong => PushOf(g.down, Pong, n);
    case SendStale(serial, body) => PushOf(g.down, Of(Stale(serial), body), n);
  }

  lemma SendRest(g: Session, a: Act, n: nat)
    requires Enabled(g, a) && n < |g.recs| && (a.SendPing? || a.SendPong? || a.SendStale?)
    ensures var g' := Next(g, a);
      RelayOf(g', n) == RelayOf(g, n) && DaemonOf(g', n) == DaemonOf(g, n) && g'.recs == g.recs
  {
  }

  lemma SendSimulates(g: Session, a: Act, n: nat)
    requires Enabled(g, a) && n < |g.recs|
    requires a.SendPing? || a.SendPong? || a.SendStale?
    ensures StepOk(g, a, n)
  {
    SendLinks(g, a, n);
    SendRest(g, a, n);
  }

  lemma CutRest(g: Session, a: Act, n: nat)
    requires Enabled(g, a) && n < |g.recs| && (a.CutDown? || a.CutUp?)
    ensures var g' := Next(g, a);
      RelayOf(g', n) == RelayOf(g, n) && DaemonOf(g', n) == DaemonOf(g, n) && g'.recs == g.recs
  {
  }

  lemma CutDownSimulates(g: Session, k: nat, n: nat)
    requires Enabled(g, CutDown(k)) && n < |g.recs|
    ensures StepOk(g, CutDown(k), n)
  {
    CutRest(g, CutDown(k), n);
    CutOf(g.down, k, n);
    var v, v' := View(g, n), View(Next(g, CutDown(k)), n);
    assert v' == v.(down := v'.down);
  }

  lemma CutUpSimulates(g: Session, k: nat, n: nat)
    requires Enabled(g, CutUp(k)) && n < |g.recs|
    ensures StepOk(g, CutUp(k), n)
  {
    CutRest(g, CutUp(k), n);
    CutOf(g.up, k, n);
    var v, v' := View(g, n), View(Next(g, CutUp(k)), n);
    assert v' == v.(up := v'.up);
  }

  lemma StopUdpRelay(g: Session, tunnel: string, n: nat)
    requires PeersRouted(g) && n < |g.recs|
    ensures var r, p := RelayOf(g, n), g.recs[n].peer;
      RelayOf(StopUdpNext(g, tunnel), n) ==
        if p.Source? && p.tunnel == tunnel then r.(ext := r.ext.(eof := true, dead := true)) else r
    ensures DaemonOf(StopUdpNext(g, tunnel), n) == DaemonOf(g, n)
  {
  }

  lemma StopUdpSimulates(g: Session, tunnel: string, n: nat)
    requires PeersRouted(g) && n < |g.recs|
    ensures StepOk(g, StopUdp(tunnel), n)
  {
    StopUdpRelay(g, tunnel, n);
  }

  lemma ExtLostSimulates(g: Session, m: nat, n: nat)
    requires PeersRouted(g) && Enabled(g, ExtLost(m)) && n < |g.recs|
    ensures StepOk(g, ExtLost(m), n)
  {
    ExtKeepsDaemon(g, ExtLost(m), n);
  }

  lemma LocalLostDaemon(g: Session, m: nat, n: nat)
    requires LocalsRouted(g) && Enabled(g, LocalLost(m)) && n < |g.recs|
    ensures var d := DaemonOf(g, n);
      DaemonOf(Next(g, LocalLost(m)), n) == if m == n then d.(local := d.local.(eof := true)) else d
  {
  }

  lemma LocalLostSimulates(g: Session, m: nat, n: nat)
    requires LocalsRouted(g) && Enabled(g, LocalLost(m)) && n < |g.recs|
    ensures StepOk(g, LocalLost(m), n)
  {
    LocalLostDaemon(g, m, n);
    LocalKeepsRelay(g, LocalLost(m), n);
  }

  lemma NewRest(g: Session, a: Act, n: nat)
    requires PeersRouted(g) && Enabled(g, a) && n < |g.recs| && (a.NewTcp? || a.NewUdp?)
    ensures var g' := Next(g, a);
      RelayOf(g', n) == RelayOf(g, n) && DaemonOf(g', n) == DaemonOf(g, n) && g'.recs[n] == g.recs[n] && g'.up == g.up
  {
  }

  /** Opening another connection changes nothing for the ones that exist. */
  lemma NewSimulates(g: Session, a: Act, n: nat)
    requires PeersRouted(g) && Enabled(g, a) && n < |g.recs|
    requires a.NewTcp? || a.NewUdp?
    ensures StepOk(g, a, n)
  {
    PushOf(g.down, Of(Own(|g.recs|), Open(a.tunnel, a.port, if a.NewTcp? then Tcp else Udp)), n);
    NewRest(g, a, n);
  }

  lemma OtherSimulates(g: Session, a: Act, n: nat)
    requires Routing(g) && n < |g.recs| && Enabled(g, a) && !a.RecvDown?
    ensures StepOk(g, a, n)
  {
    match a
    case NewTcp(_, _) => NewSimulates(g, a, n);
    case NewUdp(_, _, _) => NewSimulates(g, a, n);
    case Handler(m, h) => HandlerSimulates(g, m, h, n);
    case RecvUp => RecvUpSimulates(g, n);
    case WriteExt(k) => WriteExtSimulates(g, k, n);
    case CloseAll => CloseAllSimulates(g, n);
    case CloseExt => CloseExtSimulates(g, n);
    case StopLoop => StopSimulates(g, a, n);
    case SendPong => SendSimulates(g, a, n);
    case WriteLocal(k) => WriteLocalSimulates(g, k, n);
    case Refuse => RefuseSimulates(g, n);
    case CloseLocal => CloseLocalSimulates(g, n);
    case StopFrames => StopSimulates(g, a, n);
    case LocalReader(m, r) => LocalReaderSimulates(g, m, r, n);
    case ExtLost(m) => ExtLostSimulates(g, m, n);
    case LocalLost(m) => LocalLostSimulates(g, m, n);
    case SendPing => SendSimulates(g, a, n);
    case StopUdp(tunnel) => StopUdpSimulates(g, tunnel, n);
    case SendStale(_, _) => SendSimulates(g, a, n);
    case CutDown(k) => CutDownSimulates(g, k, n);
    case CutUp(k) => CutUpSimulates(g, k, n);
  }

  lemma StepSimulates(g: Session, a: Act, n: nat)
    requires Routing(g) && n < |g.recs| && C.Inv(View(g, n)) && Enabled(g, a)
    ensures StepOk(g, a, n)
  {
    if a.RecvDown? {
      RecvDownStep(g, a.dialOk, n);
    } else {
      OtherSimulates(g, a, n);
    }
  }
}
