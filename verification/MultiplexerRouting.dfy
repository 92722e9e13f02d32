/** Every step of the session keeps the routing invariant, part by part, and
    with it each connection's own invariant: the session invariant is inductive. */
module MultiplexerRouting {
  import opened Frames
  import opened Sockets
  import opened Multiplexer
  import opened MultiplexerView
  import opened MultiplexerRefinement
  import R = RelaySide
  import D = DaemonSide
  import C = Connection

  /** An "open" reaches a daemon that holds no socket for its connID. */
  predicate OpensFirst(g: Session, f: Frame) {
    f.Of? && f.body.Open? && Known(g, f.id) ==> g.recs[f.id.n].sock.None?
  }

  /** At most one frame was sent, for connection n, and it is no "open". */
  predicate SendsOwn(l: Link<Frame>, l': Link<Frame>, n: nat) {
    || l'.sent == l.sent
    || (|l'.sent| == |l.sent| + 1 && l'.sent[..|l.sent|] == l.sent
        && var f := l'.sent[|l.sent|]; f.Of? && f.id == Own(n) && !f.body.Open?)
  }

  /** What a relay handler's step may change. */
  predicate HandlerFrame(g: Session, g': Session, n: nat)
    requires n < |g.recs|
  {
    && g' == g.(recs := g'.recs, peers := g'.peers, conns := g'.conns, down := g'.down)
    && |g'.recs| == |g.recs|
    && (forall m :: 0 <= m < |g.recs| && m != n ==> g'.recs[m] == g.recs[m])
    && (var c, c' := g.recs[n], g'.recs[n];
        c' == c.(handler := c'.handler, before := c'.before, late := c'.late, input := c'.input, taken := c'.taken))
    && g'.peers.Keys == g.peers.Keys
    && (forall p :: p in g.peers ==> g'.peers[p].output == g.peers[p].output)
    && (g'.conns == g.conns || g'.conns == g.conns[Own(n) := g.recs[n].peer] || g'.conns == Remove(g.conns, Own(n)))
    && SendsOwn(g.down, g'.down, n)
  }

  lemma HandlerChanges(g: Session, n: nat, h: R.HandlerAct)
    requires HandlerEnabled(g, n, h)
    ensures HandlerFrame(g, HandlerNext(g, n, h), n)
  {}

  lemma PeerKept(g: Session, n: nat, h: R.HandlerAct, p: Peer)
    requires PeersRouted(g) && TablesRouted(g) && HandlerEnabled(g, n, h) && p in g.peers && p.Source?
    ensures p in HandlerNext(g, n, h).peers
    ensures SourceOk(g, p, HandlerNext(g, n, h).peers[p])
  {}

  lemma TakenKept(g: Session, n: nat, h: R.HandlerAct)
    requires TablesRouted(g) && HandlerEnabled(g, n, h)
    requires g.recs[n].taken.Some? ==> g.recs[n].taken.value == g.recs[n].peer
    requires g.recs[n].handler.Detached? ==> g.recs[n].handler.had == g.recs[n].taken.Some?
    ensures var c := HandlerNext(g, n, h).recs[n];
      (c.taken.Some? ==> c.taken.value == c.peer) && (c.handler.Detached? ==> c.handler.had == c.taken.Some?)
  {}

  lemma HandlerKeepsPeers(g: Session, g': Session, n: nat)
    requires n < |g.recs| && HandlerFrame(g, g', n) && PeersRouted(g)
    requires var c := g'.recs[n];
      (c.taken.Some? ==> c.taken.value == c.peer) && (c.handler.Detached? ==> c.handler.had == c.taken.Some?)
    requires forall p :: p in g'.peers && p.Source? ==> SourceOk(g, p, g'.peers[p])
    ensures PeersRouted(g')
  {}

  lemma HandlerKeepsTables(g: Session, g': Session, n: nat)
    requires n < |g.recs| && HandlerFrame(g, g', n) && TablesRouted(g)
    ensures TablesRouted(g')
  {}

  lemma HandlerKeepsRest(g: Session, g': Session, n: nat)
    requires n < |g.recs| && HandlerFrame(g, g', n) && LoopsRouted(g) && LocalsRouted(g)
    ensures LoopsRouted(g') && LocalsRouted(g')
  {}

  lemma HandlerKeepsFrames(g: Session, g': Session, n: nat)
    requires n < |g.recs| && HandlerFrame(g, g', n) && FramesRouted(g) && DeliveriesRouted(g)
    ensures FramesRouted(g') && DeliveriesRouted(g')
  {
    forall i | 0 <= i < |g'.down.sent| ensures DownRouted(g', g'.down.sent[i]) {
      if i < |g.down.sent| {
        assert g'.down.sent[i] == g.down.sent[i] && DownRouted(g, g.down.sent[i]);
      }
    }
    forall i | 0 <= i < |g'.up.sent| ensures UpRouted(g', g'.up.sent[i]) {
      assert UpRouted(g, g.up.sent[i]);
    }
    forall p, i | p in g'.peers && 0 <= i < |g'.peers[p].output| ensures DeliveredTo(g', p, g'.peers[p].output[i].id) {
      assert DeliveredTo(g, p, g.peers[p].output[i].id);
    }
  }

  /** What a local reader's step may change. */
  predicate ReaderFrame(g: Session, g': Session, n: nat)
    requires n < |g.recs|
  {
    && g' == g.(recs := g'.recs, locals := g'.locals, localConns := g'.localConns, up := g'.up)
    && |g'.recs| == |g.recs|
    && (forall m :: 0 <= m < |g.recs| && m != n ==> g'.recs[m] == g.recs[m])
    && (var c, c' := g.recs[n], g'.recs[n];
        c' == c.(reader := c'.reader, localInput := c'.localInput, localTaken := c'.localTaken))
    && g'.locals.Keys == g.locals.Keys
    && (forall s :: s in g.locals ==> g'.locals[s].output == g.locals[s].output)
    && SendsOwn(g.up, g'.up, n)
  }

  lemma ReaderChanges(g: Session, n: nat, r: D.ReaderAct)
    requires ReaderEnabled(g, n, r)
    ensures ReaderFrame(g, ReaderNext(g, n, r), n)
  {}

  lemma ReaderKeepsTables(g: Session, n: nat, r: D.ReaderAct)
    requires TablesRouted(g) && ReaderEnabled(g, n, r)
    ensures TablesRouted(ReaderNext(g, n, r))
  {}

  lemma LocalTakenKept(g: Session, n: nat, r: D.ReaderAct)
    requires TablesRouted(g) && ReaderEnabled(g, n, r)
    requires g.recs[n].localTaken.Some? ==> g.recs[n].localTaken == g.recs[n].sock
    requires g.recs[n].reader.LDetached? ==> g.recs[n].reader.had == g.recs[n].localTaken.Some?
    ensures var c := ReaderNext(g, n, r).recs[n];
      (c.localTaken.Some? ==> c.localTaken == c.sock) && (c.reader.LDetached? ==> c.reader.had == c.localTaken.Some?)
  {}

  lemma ReaderKeepsSockets(g: Session, g': Session, n: nat)
    requires n < |g.recs| && ReaderFrame(g, g', n) && LocalsRouted(g)
    requires var c := g'.recs[n];
      (c.localTaken.Some? ==> c.localTaken == c.sock) && (c.reader.LDetached? ==> c.reader.had == c.localTaken.Some?)
    ensures LocalsRouted(g')
  {}

  lemma ReaderKeepsRest(g: Session, g': Session, n: nat)
    requires n < |g.recs| && ReaderFrame(g, g', n) && PeersRouted(g) && LoopsRouted(g)
    ensures PeersRouted(g') && LoopsRouted(g')
  {}

  lemma ReaderKeepsFrames(g: Session, g': Session, n: nat)
    requires n < |g.recs| && ReaderFrame(g, g', n) && FramesRouted(g) && DeliveriesRouted(g)
    ensures FramesRouted(g') && DeliveriesRouted(g')
  {
    forall i | 0 <= i < |g'.down.sent| ensures DownRouted(g', g'.down.sent[i]) {
      assert DownRouted(g, g.down.sent[i]);
    }
    forall i | 0 <= i < |g'.up.sent| ensures UpRouted(g', g'.up.sent[i]) {
      if i < |g.up.sent| {
        assert g'.up.sent[i] == g.up.sent[i] && UpRouted(g, g.up.sent[i]);
      }
    }
    forall p, i | p in g'.peers && 0 <= i < |g'.peers[p].output| ensures DeliveredTo(g', p, g'.peers[p].output[i].id) {
      assert DeliveredTo(g, p, g.peers[p].output[i].id);
    }
  }

  lemma RecvUpKeepsPeers(g: Session)
    requires PeersRouted(g)
    requires Enabled(g, RecvUp)
    ensures PeersRouted(RecvUpNext(g))
  {}

  lemma RecvUpKeepsTables(g: Session)
    requires TablesRouted(g)
    requires Enabled(g, RecvUp)
    ensures TablesRouted(RecvUpNext(g))
  {}

  lemma RecvUpKeepsLoops(g: Session)
    requires LoopsRouted(g) && TablesRouted(g)
    requires Enabled(g, RecvUp)
    ensures LoopsRouted(RecvUpNext(g))
  {}

  lemma RecvUpKeepsSockets(g: Session)
    requires LocalsRouted(g)
    requires Enabled(g, RecvUp)
    ensures LocalsRouted(RecvUpNext(g))
  {}

  lemma RecvUpKeepsFrames(g: Session)
    requires FramesRouted(g) && DeliveriesRouted(g)
    requires Enabled(g, RecvUp)
    ensures FramesRouted(RecvUpNext(g)) && DeliveriesRouted(RecvUpNext(g))
  {}

  lemma RecvDownKeepsPeers(g: Session, dialOk: bool)
    requires PeersRouted(g)
    requires Enabled(g, RecvDown(dialOk)) && DownRouted(g, g.down.flight[0]) && OpensFirst(g, g.down.flight[0])
    ensures PeersRouted(RecvDownNext(g, dialOk))
  {}

  lemma DialKeepsTables(g: Session, n: nat, port: int, proto: Protocol)
    requires TablesRouted(g) && n < |g.recs|
    ensures TablesRouted(DialLocal(g, n, port, proto))
  {}

  lemma RecvDownKeepsTables(g: Session, dialOk: bool)
    requires TablesRouted(g)
    requires Enabled(g, RecvDown(dialOk)) && DownRouted(g, g.down.flight[0]) && OpensFirst(g, g.down.flight[0])
    ensures TablesRouted(RecvDownNext(g, dialOk))
  {
    var f := g.down.flight[0];
    if f.Of? && f.body.Open? {
      DialKeepsTables(g.(down := Pop(g.down)), f.id.n, ResolvePort(g.config, f.body.tunnel, f.body.port), f.body.proto);
    }
  }

  lemma RecvDownKeepsLoops(g: Session, dialOk: bool)
    requires LoopsRouted(g) && TablesRouted(g)
    requires Enabled(g, RecvDown(dialOk)) && DownRouted(g, g.down.flight[0]) && OpensFirst(g, g.down.flight[0])
    ensures LoopsRouted(RecvDownNext(g, dialOk))
  {}

  lemma RecvDownKeepsSockets(g: Session, dialOk: bool)
    requires LocalsRouted(g)
    requires Enabled(g, RecvDown(dialOk)) && DownRouted(g, g.down.flight[0]) && OpensFirst(g, g.down.flight[0])
    ensures LocalsRouted(RecvDownNext(g, dialOk))
  {}

  lemma RecvDownKeepsFrames(g: Session, dialOk: bool)
    requires FramesRouted(g) && DeliveriesRouted(g) && LocalsRouted(g)
    requires Enabled(g, RecvDown(dialOk)) && DownRouted(g, g.down.flight[0]) && OpensFirst(g, g.down.flight[0])
    ensures FramesRouted(RecvDownNext(g, dialOk)) && DeliveriesRouted(RecvDownNext(g, dialOk))
  {}

  /** A frame of no connection of this session. */
  predicate Foreign(f: Frame) { f.Of? ==> f.id.Stale? && !f.body.Open? }

  /** What keepalives, stale traffic and the ways a session fails may change. */
  predicate ChannelFrame(g: Session, g': Session) {
    && g' == g.(dispatch := g'.dispatch, loop := g'.loop, frames := g'.frames, down := g'.down, up := g'.up)
    && (g'.dispatch == g.dispatch || g'.dispatch.Idle?)
    && (forall i :: 0 <= i < |g'.down.sent| ==> g'.down.sent[i] in g.down.sent || Foreign(g'.down.sent[i]))
    && (forall i :: 0 <= i < |g'.up.sent| ==> g'.up.sent[i] in g.up.sent || !g'.up.sent[i].Of?)
  }

  predicate OnChannel(a: Act) {
    a.SendPong? || a.StopLoop? || a.StopFrames? || a.SendPing? || a.SendStale? || a.CutDown? || a.CutUp?
  }

  lemma ChannelChanges(g: Session, a: Act)
    requires Enabled(g, a) && OnChannel(a)
    ensures ChannelFrame(g, Next(g, a))
  {}

  lemma ChannelKeepsTables(g: Session, g': Session)
    requires ChannelFrame(g, g') && PeersRouted(g) && TablesRouted(g)
    ensures PeersRouted(g') && TablesRouted(g')
  {}

  lemma ChannelKeepsSockets(g: Session, g': Session)
    requires ChannelFrame(g, g') && LoopsRouted(g) && LocalsRouted(g)
    ensures LoopsRouted(g') && LocalsRouted(g')
  {}

  lemma ChannelKeepsFrames(g: Session, g': Session)
    requires ChannelFrame(g, g') && FramesRouted(g) && DeliveriesRouted(g)
    ensures FramesRouted(g') && DeliveriesRouted(g')
  {
    forall i | 0 <= i < |g'.down.sent| ensures DownRouted(g', g'.down.sent[i]) {
      if g'.down.sent[i] in g.down.sent {
        var k :| 0 <= k < |g.down.sent| && g.down.sent[k] == g'.down.sent[i];
        assert DownRouted(g, g.down.sent[k]);
      }
    }
    forall i | 0 <= i < |g'.up.sent| ensures UpRouted(g', g'.up.sent[i]) {
      if g'.up.sent[i] in g.up.sent {
        var k :| 0 <= k < |g.up.sent| && g.up.sent[k] == g'.up.sent[i];
        assert UpRouted(g, g.up.sent[k]);
      }
    }
    forall p, i | p in g'.peers && 0 <= i < |g'.peers[p].output| ensures DeliveredTo(g', p, g'.peers[p].output[i].id) {
      assert DeliveredTo(g, p, g.peers[p].output[i].id);
    }
  }

  /** Refusing ends the reader that was never started. */
  lemma RefuseChanges(g: Session)
    requires Enabled(g, Refuse) && Known(g, g.task.id)
    ensures var g', n := Next(g, Refuse), g.task.id.n;
      && g' == g.(task := Ready, up := g'.up, recs := g.recs[n := g.recs[n].(reader := D.LEnded)])
      && g'.up == Push(g.up, Of(Own(n), Close))
  {}

  lemma LEndedKeeps(g: Session, g': Session, n: nat)
    requires n < |g.recs| && g'.up == Push(g.up, Of(Own(n), Close))
    requires g' == g.(up := g'.up, recs := g.recs[n := g.recs[n].(reader := D.LEnded)])
    requires TablesRouted(g)
    ensures ReaderFrame(g, g', n) && TablesRouted(g')
  {}

  lemma ReadyKeepsTables(g: Session)
    requires PeersRouted(g) && TablesRouted(g) && LoopsRouted(g) && LocalsRouted(g)
    ensures var g' := g.(task := Ready);
      PeersRouted(g') && TablesRouted(g') && LoopsRouted(g') && LocalsRouted(g')
  {}

  lemma ReadyKeepsFrames(g: Session)
    requires FramesRouted(g) && DeliveriesRouted(g)
    ensures FramesRouted(g.(task := Ready)) && DeliveriesRouted(g.(task := Ready))
  {
    var g' := g.(task := Ready);
    forall p, i | p in g'.peers && 0 <= i < |g'.peers[p].output| ensures DeliveredTo(g', p, g'.peers[p].output[i].id) {
      assert DeliveredTo(g, p, g.peers[p].output[i].id);
    }
  }

  lemma RefuseRouted(g: Session)
    requires Routing(g) && Enabled(g, Refuse)
    ensures Routing(Next(g, Refuse))
  {
    RefuseChanges(g);
    var g1, n := Next(g, Refuse).(task := g.task), g.task.id.n;
    LEndedKeeps(g, g1, n);
    ReaderKeepsSockets(g, g1, n);
    ReaderKeepsRest(g, g1, n);
    ReaderKeepsFrames(g, g1, n);
    PushFifo(g.up, Of(Own(n), Close));
    ReadyKeepsTables(g1);
    ReadyKeepsFrames(g1);
    assert Next(g, Refuse) == g1.(task := Ready);
  }

  lemma LocalSocketKeepsPeers(g: Session, a: Act)
    requires PeersRouted(g) && Enabled(g, a) && (a.WriteLocal? || a.LocalLost? || a.CloseLocal?)
    ensures PeersRouted(Next(g, a))
  {}

  lemma ExtSocketKeepsPeers(g: Session, a: Act)
    requires PeersRouted(g) && LoopsRouted(g) && Enabled(g, a) && (a.WriteExt? || a.ExtLost? || a.CloseExt?)
    ensures PeersRouted(Next(g, a))
  {}

  lemma SocketKeepsPeers(g: Session, a: Act)
    requires PeersRouted(g) && LoopsRouted(g) && Enabled(g, a)
    requires a.WriteExt? || a.WriteLocal? || a.ExtLost? || a.LocalLost? || a.CloseExt? || a.CloseLocal?
    ensures PeersRouted(Next(g, a))
  {
    if a.WriteExt? || a.ExtLost? || a.CloseExt? {
      ExtSocketKeepsPeers(g, a);
    } else {
      LocalSocketKeepsPeers(g, a);
    }
  }

  /** Reading and writing sockets, losing and closing them, touches nothing else. */
  lemma SocketsOnly(g: Session, a: Act)
    requires Enabled(g, a)
    requires a.WriteExt? || a.WriteLocal? || a.ExtLost? || a.LocalLost? || a.CloseExt? || a.CloseLocal?
    ensures var g' := Next(g, a);
      && g' == g.(dispatch := g'.dispatch, task := g'.task, peers := g'.peers, locals := g'.locals)
      && g'.locals.Keys == g.locals.Keys
      && (g'.dispatch == g.dispatch || g'.dispatch.Idle?) && (g'.task == g.task || g'.task.Ready?)
  {}

  lemma SocketKeepsTables(g: Session, g': Session)
    requires TablesRouted(g) && LoopsRouted(g)
    requires g' == g.(dispatch := g'.dispatch, task := g'.task, peers := g'.peers, locals := g'.locals)
    requires (g'.dispatch == g.dispatch || g'.dispatch.Idle?) && (g'.task == g.task || g'.task.Ready?)
    ensures TablesRouted(g') && LoopsRouted(g')
  {}

  lemma SocketKeepsSockets(g: Session, g': Session)
    requires LocalsRouted(g) && FramesRouted(g)
    requires g' == g.(dispatch := g'.dispatch, task := g'.task, peers := g'.peers, locals := g'.locals)
    requires g'.locals.Keys == g.locals.Keys
    ensures LocalsRouted(g') && FramesRouted(g')
  {}

  lemma WriteExtKeepsDeliveries(g: Session, k: nat)
    requires DeliveriesRouted(g) && LoopsRouted(g) && Enabled(g, WriteExt(k))
    ensures DeliveriesRouted(Next(g, WriteExt(k)))
  {}

  lemma WriteLocalKeepsDeliveries(g: Session, k: nat)
    requires DeliveriesRouted(g) && LoopsRouted(g) && LocalsRouted(g) && Enabled(g, WriteLocal(k))
    ensures DeliveriesRouted(Next(g, WriteLocal(k)))
  {}

  lemma SocketKeepsDeliveries(g: Session, a: Act)
    requires DeliveriesRouted(g) && Enabled(g, a)
    requires a.ExtLost? || a.LocalLost? || a.CloseExt? || a.CloseLocal?
    ensures DeliveriesRouted(Next(g, a))
  {}

  /** What a new connection changes: one more record, its peer, its "open". */
  predicate OpenFrameOnly(g: Session, g': Session, c: Rec) {
    && g' == g.(recs := g.recs + [c], peers := g'.peers, down := g'.down)
    && g'.peers == WithPeer(g.peers, g.stopped, c.peer)
    && g'.down == Push(g.down, Of(Own(|g.recs|), Open(c.tunnel, c.port, c.proto)))
    && c == NewRec(c.proto, c.peer, c.tunnel, c.port)
    && (c.proto.Tcp? ==> c.peer == Accepted(|g.recs|))
    && (c.proto.Udp? ==> c.peer.Source? && c.peer.tunnel == c.tunnel)
  }

  function RecFor(a: Act, n: nat): Rec
    requires a.NewTcp? || a.NewUdp?
  {
    if a.NewTcp? then NewRec(Tcp, Accepted(n), a.tunnel, a.port)
    else NewRec(Udp, Source(a.tunnel, a.addr), a.tunnel, a.port)
  }

  lemma OpenConnChanges(g: Session, a: Act)
    requires a.NewTcp? || a.NewUdp?
    ensures OpenFrameOnly(g, Next(g, a), RecFor(a, |g.recs|))
  {}

  lemma OpenConnKeepsPeers(g: Session, g': Session, c: Rec)
    requires OpenFrameOnly(g, g', c) && PeersRouted(g)
    ensures PeersRouted(g')
  {}

  lemma OpenConnKeepsTables(g: Session, g': Session, c: Rec)
    requires OpenFrameOnly(g, g', c) && TablesRouted(g) && LoopsRouted(g)
    ensures TablesRouted(g') && LoopsRouted(g')
  {}

  lemma OpenConnKeepsSockets(g: Session, g': Session, c: Rec)
    requires OpenFrameOnly(g, g', c) && LocalsRouted(g)
    ensures LocalsRouted(g')
  {}

  lemma OpenConnKeepsFrames(g: Session, g': Session, c: Rec)
    requires OpenFrameOnly(g, g', c) && FramesRouted(g) && DeliveriesRouted(g)
    ensures FramesRouted(g') && DeliveriesRouted(g')
  {
    forall i | 0 <= i < |g'.down.sent| ensures DownRouted(g', g'.down.sent[i]) {
      if i < |g.down.sent| {
        assert DownRouted(g, g.down.sent[i]);
      }
    }
    forall i | 0 <= i < |g'.up.sent| ensures UpRouted(g', g'.up.sent[i]) {
      assert UpRouted(g, g.up.sent[i]);
    }
    forall p, i | p in g'.peers && 0 <= i < |g'.peers[p].output| ensures DeliveredTo(g', p, g'.peers[p].output[i].id) {
      assert DeliveredTo(g, p, g.peers[p].output[i].id);
    }
  }

  lemma HandlerRouted(g: Session, n: nat, h: R.HandlerAct)
    requires Routing(g) && HandlerEnabled(g, n, h)
    ensures Routing(HandlerNext(g, n, h))
  {
    var g' := HandlerNext(g, n, h);
    HandlerChanges(g, n, h);
    TakenKept(g, n, h);
    forall p | p in g'.peers && p.Source? ensures SourceOk(g, p, g'.peers[p]) {
      PeerKept(g, n, h, p);
    }
    HandlerKeepsPeers(g, g', n);
    HandlerKeepsTables(g, g', n);
    HandlerKeepsRest(g, g', n);
    HandlerKeepsFrames(g, g', n);
    match h
    case SendData(ok) => PushFifo(g.down, Of(Own(n), Data(g.recs[n].handler.chunk)));
    case SendClose => PushFifo(g.down, Of(Own(n), Close));
    case _ =>
  }

  lemma ReaderRouted(g: Session, n: nat, r: D.ReaderAct)
    requires Routing(g) && ReaderEnabled(g, n, r)
    ensures Routing(ReaderNext(g, n, r))
  {
    var g' := ReaderNext(g, n, r);
    ReaderChanges(g, n, r);
    ReaderKeepsTables(g, n, r);
    LocalTakenKept(g, n, r);
    ReaderKeepsSockets(g, g', n);
    ReaderKeepsRest(g, g', n);
    ReaderKeepsFrames(g, g', n);
    match r
    case LocalSend(ok) => PushFifo(g.up, Of(Own(n), Data(g.recs[n].reader.chunk)));
    case LocalSendClose => PushFifo(g.up, Of(Own(n), Close));
    case _ =>
  }

  lemma RecvUpRouted(g: Session)
    requires Routing(g) && Enabled(g, RecvUp)
    ensures Routing(RecvUpNext(g))
  {
    RecvUpKeepsPeers(g);
    RecvUpKeepsTables(g);
    RecvUpKeepsLoops(g);
    RecvUpKeepsSockets(g);
    RecvUpKeepsFrames(g);
    PopSent(g.up);
  }

  lemma RecvDownRouted(g: Session, dialOk: bool)
    requires Routing(g) && Enabled(g, RecvDown(dialOk)) && OpensFirst(g, g.down.flight[0])
    ensures Routing(RecvDownNext(g, dialOk))
  {
    HeadRouted(g);
    RecvDownKeepsPeers(g, dialOk);
    RecvDownKeepsTables(g, dialOk);
    RecvDownKeepsLoops(g, dialOk);
    RecvDownKeepsSockets(g, dialOk);
    RecvDownKeepsFrames(g, dialOk);
    PopSent(g.down);
  }

  lemma ChannelFifo(g: Session, a: Act)
    requires Fifo(g.down) && Fifo(g.up) && Enabled(g, a) && OnChannel(a)
    ensures Fifo(Next(g, a).down) && Fifo(Next(g, a).up)
  {
    match a
    case SendPong => PushFifo(g.down, Pong);
    case SendPing => PushFifo(g.up, Ping);
    case SendStale(serial, body) => PushFifo(g.down, Of(Stale(serial), body));
    case CutDown(k) => CutKeepsOrder(g.down, k);
    case CutUp(k) => CutKeepsOrder(g.up, k);
    case _ =>
  }

  lemma ChannelRouted(g: Session, a: Act)
    requires Routing(g) && Enabled(g, a) && OnChannel(a)
    ensures Routing(Next(g, a))
  {
    ChannelChanges(g, a);
    ChannelKeepsTables(g, Next(g, a));
    ChannelKeepsSockets(g, Next(g, a));
    ChannelKeepsFrames(g, Next(g, a));
    ChannelFifo(g, a);
  }

  lemma SocketRouted(g: Session, a: Act)
    requires Routing(g) && Enabled(g, a)
    requires a.WriteExt? || a.WriteLocal? || a.ExtLost? || a.LocalLost? || a.CloseExt? || a.CloseLocal?
    ensures Routing(Next(g, a))
  {
    SocketKeepsPeers(g, a);
    SocketsOnly(g, a);
    SocketKeepsTables(g, Next(g, a));
    SocketKeepsSockets(g, Next(g, a));
    match a
    case WriteExt(k) => WriteExtKeepsDeliveries(g, k);
    case WriteLocal(k) => WriteLocalKeepsDeliveries(g, k);
    case _ => SocketKeepsDeliveries(g, a);
  }

  lemma CloseAllKeepsPeers(g: Session)
    requires PeersRouted(g)
    ensures PeersRouted(CloseAllNext(g))
  {}

  lemma CloseAllKeepsTables(g: Session)
    requires TablesRouted(g) && LoopsRouted(g) && LocalsRouted(g)
    ensures TablesRouted(CloseAllNext(g)) && LoopsRouted(CloseAllNext(g)) && LocalsRouted(CloseAllNext(g))
  {}

  lemma CloseAllKeepsFrames(g: Session)
    requires FramesRouted(g) && DeliveriesRouted(g)
    ensures FramesRouted(CloseAllNext(g)) && DeliveriesRouted(CloseAllNext(g))
  {
    var g' := CloseAllNext(g);
    forall p, i | p in g'.peers && 0 <= i < |g'.peers[p].output| ensures DeliveredTo(g', p, g'.peers[p].output[i].id) {
      assert DeliveredTo(g, p, g.peers[p].output[i].id);
    }
  }

  lemma CloseAllRouted(g: Session)
    requires Routing(g)
    ensures Routing(CloseAllNext(g))
  {
    CloseAllKeepsPeers(g);
    CloseAllKeepsTables(g);
    CloseAllKeepsFrames(g);
  }

  lemma StopUdpKeepsPeers(g: Session, tunnel: string)
    requires PeersRouted(g)
    ensures PeersRouted(StopUdpNext(g, tunnel))
  {}

  lemma StopUdpKeepsTables(g: Session, tunnel: string)
    requires TablesRouted(g) && LoopsRouted(g) && LocalsRouted(g)
    ensures TablesRouted(StopUdpNext(g, tunnel)) && LoopsRouted(StopUdpNext(g, tunnel))
    ensures LocalsRouted(StopUdpNext(g, tunnel))
  {}

  lemma StopUdpKeepsFrames(g: Session, tunnel: string)
    requires FramesRouted(g) && DeliveriesRouted(g)
    ensures FramesRouted(StopUdpNext(g, tunnel)) && DeliveriesRouted(StopUdpNext(g, tunnel))
  {
    var g' := StopUdpNext(g, tunnel);
    forall p, i | p in g'.peers && 0 <= i < |g'.peers[p].output| ensures DeliveredTo(g', p, g'.peers[p].output[i].id) {
      assert DeliveredTo(g, p, g.peers[p].output[i].id);
    }
  }

  lemma StopUdpRouted(g: Session, tunnel: string)
    requires Routing(g)
    ensures Routing(StopUdpNext(g, tunnel))
  {
    StopUdpKeepsPeers(g, tunnel);
    StopUdpKeepsTables(g, tunnel);
    StopUdpKeepsFrames(g, tunnel);
  }

  lemma OpenConnRouted(g: Session, a: Act)
    requires Routing(g) && (a.NewTcp? || a.NewUdp?)
    ensures Routing(Next(g, a))
  {
    var g', c := Next(g, a), RecFor(a, |g.recs|);
    OpenConnChanges(g, a);
    OpenConnKeepsPeers(g, g', c);
    OpenConnKeepsTables(g, g', c);
    OpenConnKeepsSockets(g, g', c);
    OpenConnKeepsFrames(g, g', c);
    PushFifo(g.down, Of(Own(|g.recs|), Open(a.tunnel, a.port, if a.NewTcp? then Tcp else Udp)));
  }

  /** The daemon holds no socket yet for an "open" that it takes. */
  lemma HeadOpensFirst(g: Session)
    requires SessionInv(g) && g.down.flight != []
    ensures OpensFirst(g, g.down.flight[0])
  {
    var f := g.down.flight[0];
    if f.Of? && f.id.Own? && f.id.n < |g.recs| {
      OpenIsFirst(g, f.id.n);
    }
  }

  lemma OtherRouted(g: Session, a: Act)
    requires Routing(g) && Enabled(g, a) && !a.RecvDown?
    ensures Routing(Next(g, a))
  {
    match a
    case NewTcp(_, _) => OpenConnRouted(g, a);
    case NewUdp(_, _, _) => OpenConnRouted(g, a);
    case Handler(n, h) => HandlerRouted(g, n, h);
    case LocalReader(n, r) => ReaderRouted(g, n, r);
    case RecvUp => RecvUpRouted(g);
    case CloseAll => CloseAllRouted(g);
    case Refuse => RefuseRouted(g);
    case StopUdp(tunnel) => StopUdpRouted(g, tunnel);
    case WriteExt(_) => SocketRouted(g, a);
    case WriteLocal(_) => SocketRouted(g, a);
    case ExtLost(_) => SocketRouted(g, a);
    case LocalLost(_) => SocketRouted(g, a);
    case CloseExt => SocketRouted(g, a);
    case CloseLocal => SocketRouted(g, a);
    case _ => ChannelRouted(g, a);
  }

  lemma StepRouted(g: Session, a: Act)
    requires SessionInv(g) && Enabled(g, a)
    ensures Routing(Next(g, a))
  {
    if a.RecvDown? {
      HeadOpensFirst(g);
      RecvDownRouted(g, a.dialOk);
    } else {
      OtherRouted(g, a);
    }
  }

  // ---- a new connection starts clean ----

  lemma {:induction false} NoFramesYet(fs: seq<Frame>, n: nat)
    requires forall i :: 0 <= i < |fs| ==> fs[i].Of? ==> fs[i].id != Own(n)
    ensures FramesOf(fs, n) == []
  {
    if fs != [] {
      NoFramesYet(fs[..|fs| - 1], n);
    }
  }

  lemma {:induction false} NoDeliveriesYet(out: seq<Delivery>, id: ConnId)
    requires forall i :: 0 <= i < |out| ==> out[i].id != id
    ensures Collect(out, id) == []
  {
    if out != [] {
      NoDeliveriesYet(out[..|out| - 1], id);
    }
  }

  lemma NothingInLinkYet(l: Link<Frame>, n: nat)
    requires Fifo(l) && forall i :: 0 <= i < |l.sent| ==> l.sent[i].Of? ==> l.sent[i].id != Own(n)
    ensures LinkOf(l, n) == NewLink<Body>().(live := l.live)
  {
    var past := l.got + l.flight;
    assert forall i :: 0 <= i < |past| ==> past[i] == l.sent[i];
    assert forall i :: 0 <= i < |l.got| ==> l.got[i] == past[i];
    assert forall i :: 0 <= i < |l.flight| ==> l.flight[i] == past[|l.got| + i];
    NoFramesYet(l.sent, n);
    NoFramesYet(l.got, n);
    NoFramesYet(l.flight, n);
  }

  function OpenFrame(a: Act): Body
    requires a.NewTcp? || a.NewUdp?
  {
    Open(a.tunnel, a.port, if a.NewTcp? then Tcp else Udp)
  }

  predicate OnStopped(g: Session, a: Act) { a.NewUdp? && a.tunnel in g.stopped }

  lemma NewRelay(g: Session, a: Act)
    requires PeersRouted(g) && TablesRouted(g) && LoopsRouted(g) && DeliveriesRouted(g) && (a.NewTcp? || a.NewUdp?)
    ensures RelayOf(Next(g, a), |g.recs|) ==
      R.Relay(R.Opening, false, [], false, NEW_SOCKET.(eof := OnStopped(g, a), dead := OnStopped(g, a)), g.loop, R.Free)
  {
    var peer := if a.NewTcp? then Accepted(|g.recs|) else Source(a.tunnel, a.addr);
    if peer in g.peers {
      forall i | 0 <= i < |g.peers[peer].output| ensures g.peers[peer].output[i].id != Own(|g.recs|) {
        assert DeliveredTo(g, peer, g.peers[peer].output[i].id);
      }
      NoDeliveriesYet(g.peers[peer].output, Own(|g.recs|));
    }
  }

  lemma NewView(g: Session, a: Act)
    requires Routing(g) && (a.NewTcp? || a.NewUdp?)
    ensures |Next(g, a).recs| == |g.recs| + 1
    ensures View(Next(g, a), |g.recs|) ==
      C.Opened(OpenFrame(a).proto, OpenFrame(a), g.down.live, g.up.live, g.loop, g.frames, OnStopped(g, a))
  {
    var n := |g.recs|;
    forall i | 0 <= i < |g.down.sent| ensures g.down.sent[i].Of? ==> g.down.sent[i].id != Own(n) {
      assert DownRouted(g, g.down.sent[i]);
    }
    forall i | 0 <= i < |g.up.sent| ensures g.up.sent[i].Of? ==> g.up.sent[i].id != Own(n) {
      assert UpRouted(g, g.up.sent[i]);
    }
    NothingInLinkYet(g.down, n);
    NothingInLinkYet(g.up, n);
    assert Next(g, a).recs[n] == RecFor(a, n);
    PushOf(g.down, Of(Own(n), OpenFrame(a)), n);
    NewRelay(g, a);
  }

  // ---- the session invariant is inductive ----

  lemma OneKept(g: Session, a: Act, n: nat)
    requires SessionInv(g) && Enabled(g, a) && n < |g.recs|
    ensures n < |Next(g, a).recs| && C.Inv(View(Next(g, a), n))
  {
    StepSimulates(g, a, n);
    var pa := Proj(g, a, n);
    if pa.Some? {
      C.NextInv(View(g, n), pa.value);
    }
  }

  lemma NewKept(g: Session, a: Act)
    requires Routing(g) && (a.NewTcp? || a.NewUdp?)
    ensures |Next(g, a).recs| == |g.recs| + 1 && C.Inv(View(Next(g, a), |g.recs|))
  {
    NewView(g, a);
    C.OpenedInv(OpenFrame(a).proto, OpenFrame(a), g.down.live, g.up.live, g.loop, g.frames, OnStopped(g, a));
  }

  lemma AllKept(g: Session, a: Act)
    requires SessionInv(g) && Enabled(g, a)
    ensures |g.recs| <= |Next(g, a).recs|
    ensures forall n :: 0 <= n < |g.recs| ==> C.Inv(View(Next(g, a), n))
  {
    forall n | 0 <= n < |g.recs| ensures C.Inv(View(Next(g, a), n)) {
      OneKept(g, a, n);
    }
  }

  lemma NextSessionInv(g: Session, a: Act)
    requires SessionInv(g) && Enabled(g, a)
    ensures SessionInv(Next(g, a))
  {
    StepRouted(g, a);
    if a.NewTcp? || a.NewUdp? {
      NewKept(g, a);
    }
    AllKept(g, a);
  }

  lemma StartInv(config: seq<(string, int)>)
    ensures SessionInv(Start(config))
  {}

  /** In every run of a session, after every interleaving, the invariant holds. */
  lemma {:induction false} RunInv(g: Session, acts: seq<Act>)
    requires SessionInv(g) && Runs(g, acts)
    ensures SessionInv(Final(g, acts))
    decreases |acts|
  {
    if acts != [] {
      NextSessionInv(g, acts[0]);
      RunInv(Next(g, acts[0]), acts[1..]);
    }
  }
}
