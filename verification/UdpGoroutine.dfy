/** The goroutine that serves a UDP tunnel, among all the others of a session: what
    it owns there, what the others leave alone, and its own steps one by one. */
module UdpGoroutines {
  import opened Frames
  import opened Multiplexer
  import MultiplexerRouting
  import R = RelaySide
  import D = DaemonSide

  /** `foreign`: the serials under which entries of earlier sessions still speak. */
  datatype Tunnel = Tunnel(id: string, port: int, foreign: set<nat>)

  // ---- what the proxy's goroutine owns ----

  function FramesFor(fs: seq<Frame>, id: ConnId): seq<Body> {
    if fs == [] then []
    else
      var init, last := FramesFor(fs[..|fs| - 1], id), fs[|fs| - 1];
      if last.Of? && last.id == id then init + [last.body] else init
  }

  lemma {:induction false} FramesForOwn(fs: seq<Frame>, n: nat)
    ensures FramesFor(fs, Own(n)) == FramesOf(fs, n)
  {
    if fs != [] {
      FramesForOwn(fs[..|fs| - 1], n);
    }
  }

  /** What the daemon has been told about one identifier. */
  function Told(g: Session, id: ConnId): seq<Body> { FramesFor(g.down.sent, id) }

  lemma PushTold(l: Link<Frame>, f: Frame, id: ConnId)
    ensures FramesFor(Push(l, f).sent, id) ==
      FramesFor(l.sent, id) + (if l.live && f.Of? && f.id == id then [f.body] else [])
  {
    assert (l.sent + [f])[..|l.sent|] == l.sent;
  }

  predicate OfTunnel(c: Rec, t: Tunnel) { c.peer.Source? && c.peer.tunnel == t.id }

  /** The identifiers that only this proxy speaks under. */
  predicate Mine(g: Session, t: Tunnel, id: ConnId) {
    match id
    case Own(n) => n < |g.recs| && OfTunnel(g.recs[n], t)
    case Stale(serial) => serial in t.foreign
  }

  /** A step of some other goroutine, or of the world; the tunnel is not stopped. */
  predicate Elsewhere(g: Session, a: Act, t: Tunnel) {
    match a
    case Handler(n, _) => n < |g.recs| ==> !OfTunnel(g.recs[n], t)
    case NewUdp(tunnel, _, _) => tunnel != t.id
    case StopUdp(tunnel) => tunnel != t.id
    case SendStale(serial, _) => serial !in t.foreign
    case _ => true
  }

  predicate SocketOpen(g: Session, tunnel: string) {
    tunnel !in g.stopped
    && forall p :: p in g.peers ==> (p.Source? && p.tunnel == tunnel ==> !g.peers[p].closed && !g.peers[p].dead)
  }

  /** Identifiers not drawn yet have not been spoken of. */
  ghost predicate Unborn(g: Session) { forall n: nat :: |g.recs| <= n ==> Told(g, Own(n)) == [] }

  predicate NoneOpening(g: Session, t: Tunnel) {
    forall n :: 0 <= n < |g.recs| ==> OfTunnel(g.recs[n], t) ==> !g.recs[n].handler.Opening?
  }

  // ---- before and after ----

  predicate SameRole(c: Rec, c': Rec) {
    c'.proto == c.proto && c'.peer == c.peer && c'.tunnel == c.tunnel && c'.port == c.port && c'.handler == c.handler
  }

  /** Nothing has happened to this identifier. */
  predicate Same(g: Session, g': Session, id: ConnId) {
    && (id.Own? ==> id.n < |g.recs| <= |g'.recs| && SameRole(g.recs[id.n], g'.recs[id.n]))
    && (g'.down.live ==> Told(g', id) == Told(g, id))
  }

  ghost predicate Around(g: Session, g': Session, t: Tunnel) {
    && |g.recs| <= |g'.recs| && (forall n :: 0 <= n < |g.recs| ==> g'.recs[n].peer == g.recs[n].peer)
    && (g'.down.live ==> g.down.live)
    && (SocketOpen(g, t.id) ==> SocketOpen(g', t.id)) && (Unborn(g) ==> Unborn(g'))
    && g.peers.Keys <= g'.peers.Keys
  }

  /** Only identifier `id` was touched, and the daemon was told this about it. */
  ghost predicate Beside(g: Session, g': Session, t: Tunnel, id: ConnId, fs: seq<Body>) {
    && Around(g, g', t)
    && (forall i :: Mine(g, t, i) && i != id ==> Same(g, g', i))
    && (forall n :: |g.recs| <= n < |g'.recs| && OfTunnel(g'.recs[n], t) ==> id == Own(n))
    && (g'.down.live ==> Told(g', id) == Told(g, id) + fs)
  }

  /** None of the proxy's identifiers was touched. */
  ghost predicate Still(g: Session, g': Session, t: Tunnel) {
    && Around(g, g', t)
    && (forall i :: Mine(g, t, i) ==> Same(g, g', i))
    && (forall n :: |g.recs| <= n < |g'.recs| ==> !OfTunnel(g'.recs[n], t))
  }

  lemma StillThen(g: Session, g1: Session, g2: Session, t: Tunnel)
    requires Still(g, g1, t) && Still(g1, g2, t)
    ensures Still(g, g2, t)
  {
    forall i | Mine(g, t, i) ensures Same(g, g2, i) {
      assert Same(g, g1, i) && Mine(g1, t, i) && Same(g1, g2, i);
    }
  }

  lemma BesideThen(g: Session, g1: Session, g2: Session, t: Tunnel, id: ConnId, fs: seq<Body>, more: seq<Body>)
    requires Beside(g, g1, t, id, fs) && Beside(g1, g2, t, id, more)
    ensures Beside(g, g2, t, id, fs + more)
  {
    forall i | Mine(g, t, i) && i != id ensures Same(g, g2, i) {
      assert Same(g, g1, i) && Mine(g1, t, i) && Same(g1, g2, i);
    }
    assert (Told(g, id) + fs) + more == Told(g, id) + (fs + more);
  }

  lemma StillBeside(g: Session, g1: Session, g2: Session, t: Tunnel, id: ConnId, fs: seq<Body>)
    requires Still(g, g1, t) && Beside(g1, g2, t, id, fs)
    requires Mine(g, t, id) || (Unborn(g) && id.Own? && |g1.recs| <= id.n)
    ensures Beside(g, g2, t, id, fs)
  {
    forall i | Mine(g, t, i) && i != id ensures Same(g, g2, i) {
      assert Same(g, g1, i) && Mine(g1, t, i) && Same(g1, g2, i);
    }
    if Mine(g, t, id) {
      assert Same(g, g1, id);
    } else {
      assert Told(g, id) == [] && Told(g1, id) == [];
    }
  }

  // ---- steps of the others ----

  lemma PushUnborn(g: Session, g': Session, f: Frame)
    requires Unborn(g) && |g.recs| <= |g'.recs| && g'.down == Push(g.down, f)
    requires f.Of? && f.id.Own? ==> f.id.n < |g'.recs|
    ensures Unborn(g')
  {
    forall n: nat | |g'.recs| <= n ensures Told(g', Own(n)) == [] {
      PushTold(g.down, f, Own(n));
      assert Told(g, Own(n)) == [];
    }
  }

  /** One frame, if any, is pushed; about something that is not the proxy's. */
  predicate Mutters(g: Session, g': Session, t: Tunnel, f: Frame) {
    && (g'.down == g.down || g'.down == Push(g.down, f))
    && (f.Of? ==> !Mine(g, t, f.id) && (f.id.Own? ==> f.id.n < |g'.recs|))
  }

  lemma MuttersStill(g: Session, g': Session, t: Tunnel, f: Frame)
    requires |g.recs| <= |g'.recs| && Mutters(g, g', t, f)
    ensures Unborn(g) ==> Unborn(g')
    ensures forall i :: Mine(g, t, i) ==> Told(g', i) == Told(g, i)
  {
    if Unborn(g) && g'.down != g.down {
      PushUnborn(g, g', f);
    }
    forall i | Mine(g, t, i) ensures Told(g', i) == Told(g, i) {
      PushTold(g.down, f, i);
    }
  }

  lemma HandlerSockets(g: Session, m: nat, h: R.HandlerAct, tunnel: string)
    requires HandlerEnabled(g, m, h)
    ensures SocketOpen(g, tunnel) ==> SocketOpen(HandlerNext(g, m, h), tunnel)
  {
  }

  lemma HandlerElsewhere(g: Session, m: nat, h: R.HandlerAct, t: Tunnel)
    requires HandlerEnabled(g, m, h) && !OfTunnel(g.recs[m], t)
    ensures Still(g, HandlerNext(g, m, h), t)
  {
    var g' := HandlerNext(g, m, h);
    MultiplexerRouting.HandlerChanges(g, m, h);
    var f := if h.SendData? then Of(Own(m), Data(g.recs[m].handler.chunk)) else Of(Own(m), Close);
    assert Mutters(g, g', t, f);
    MuttersStill(g, g', t, f);
    HandlerSockets(g, m, h, t.id);
  }

  lemma ReaderElsewhere(g: Session, m: nat, r: D.ReaderAct, t: Tunnel)
    requires ReaderEnabled(g, m, r)
    ensures Still(g, ReaderNext(g, m, r), t)
  {
    MultiplexerRouting.ReaderChanges(g, m, r);
    MuttersStill(g, ReaderNext(g, m, r), t, Pong);
  }

  lemma NewElsewhere(g: Session, a: Act, t: Tunnel)
    requires (a.NewTcp? || a.NewUdp?) && Elsewhere(g, a, t)
    ensures Still(g, Next(g, a), t)
  {
    MultiplexerRouting.OpenConnChanges(g, a);
    var n := |g.recs|;
    var c := MultiplexerRouting.RecFor(a, n);
    MuttersStill(g, Next(g, a), t, Of(Own(n), Open(c.tunnel, c.port, c.proto)));
  }

  lemma TellsSame(g: Session, g': Session, t: Tunnel)
    requires |g.recs| <= |g'.recs| && g'.down.sent == g.down.sent
    ensures Unborn(g) ==> Unborn(g')
    ensures forall i :: Told(g', i) == Told(g, i)
  {
    if Unborn(g) {
      forall n: nat | |g'.recs| <= n ensures Told(g', Own(n)) == [] {
        assert Told(g, Own(n)) == [];
      }
    }
  }

  lemma RecvRoles(g: Session, a: Act)
    requires Enabled(g, a) && (a.RecvUp? || a.RecvDown? || a.Refuse? || a.StopFrames? || a.StopLoop?)
    ensures var g' := Next(g, a);
      && g'.down.sent == g.down.sent && g'.down.live == g.down.live && g'.peers == g.peers && g'.stopped == g.stopped
      && forall n :: 0 <= n < |g.recs| ==> SameRole(g.recs[n], g'.recs[n])
  {
  }

  lemma RecvElsewhere(g: Session, a: Act, t: Tunnel)
    requires Enabled(g, a) && (a.RecvUp? || a.RecvDown? || a.Refuse? || a.StopFrames? || a.StopLoop?)
    ensures Still(g, Next(g, a), t)
  {
    RecvRoles(g, a);
    TellsSame(g, Next(g, a), t);
  }

  lemma ManySockets(g: Session, a: Act, t: Tunnel)
    requires Enabled(g, a) && Elsewhere(g, a, t) && (a.CloseAll? || a.StopUdp?)
    ensures var g' := Next(g, a);
      && g'.down == g.down && g'.recs == g.recs && g'.peers.Keys == g.peers.Keys
      && (SocketOpen(g, t.id) ==> SocketOpen(g', t.id))
  {
  }

  lemma OneSocket(g: Session, a: Act, t: Tunnel)
    requires Enabled(g, a) && (a.WriteExt? || a.CloseExt? || a.ExtLost?)
    ensures var g' := Next(g, a);
      && g'.down == g.down && g'.recs == g.recs && g'.peers.Keys == g.peers.Keys
      && (SocketOpen(g, t.id) ==> SocketOpen(g', t.id))
  {
  }

  lemma ExtSockets(g: Session, a: Act, t: Tunnel)
    requires Enabled(g, a) && Elsewhere(g, a, t)
    requires a.WriteExt? || a.CloseExt? || a.CloseAll? || a.ExtLost? || a.StopUdp?
    ensures var g' := Next(g, a);
      && g'.down == g.down && g'.recs == g.recs && g'.peers.Keys == g.peers.Keys
      && (SocketOpen(g, t.id) ==> SocketOpen(g', t.id))
  {
    if a.CloseAll? || a.StopUdp? {
      ManySockets(g, a, t);
    } else {
      OneSocket(g, a, t);
    }
  }

  lemma ExtElsewhere(g: Session, a: Act, t: Tunnel)
    requires Enabled(g, a) && Elsewhere(g, a, t)
    requires a.WriteExt? || a.CloseExt? || a.CloseAll? || a.ExtLost? || a.StopUdp?
    ensures Still(g, Next(g, a), t)
  {
    var g' := Next(g, a);
    ExtSockets(g, a, t);
    TellsSame(g, g', t);
  }

  lemma LocalElsewhere(g: Session, a: Act, t: Tunnel)
    requires Enabled(g, a) && (a.WriteLocal? || a.CloseLocal? || a.LocalLost?)
    ensures Still(g, Next(g, a), t)
  {
    var g' := Next(g, a);
    assert g' == g.(task := g'.task, locals := g'.locals);
    TellsSame(g, g', t);
  }

  lemma SendElsewhere(g: Session, a: Act, t: Tunnel)
    requires Enabled(g, a) && Elsewhere(g, a, t)
    requires a.SendPong? || a.SendPing? || a.SendStale? || a.CutDown? || a.CutUp?
    ensures Still(g, Next(g, a), t)
  {
    var g' := Next(g, a);
    assert g'.recs == g.recs && g'.peers == g.peers && g'.stopped == g.stopped;
    if a.SendStale? {
      MuttersStill(g, g', t, Of(Stale(a.serial), a.body));
    } else if a.SendPong? {
      MuttersStill(g, g', t, Pong);
    } else {
      TellsSame(g, g', t);
    }
  }

  lemma ElsewhereStill(g: Session, a: Act, t: Tunnel)
    requires Enabled(g, a) && Elsewhere(g, a, t)
    ensures Still(g, Next(g, a), t)
  {
    match a
    case Handler(m, h) => HandlerElsewhere(g, m, h, t);
    case LocalReader(m, r) => ReaderElsewhere(g, m, r, t);
    case NewTcp(_, _) => NewElsewhere(g, a, t);
    case NewUdp(_, _, _) => NewElsewhere(g, a, t);
    case RecvUp => RecvElsewhere(g, a, t);
    case RecvDown(_) => RecvElsewhere(g, a, t);
    case Refuse => RecvElsewhere(g, a, t);
    case StopFrames => RecvElsewhere(g, a, t);
    case StopLoop => RecvElsewhere(g, a, t);
    case SendPong => SendElsewhere(g, a, t);
    case SendPing => SendElsewhere(g, a, t);
    case SendStale(_, _) => SendElsewhere(g, a, t);
    case CutDown(_) => SendElsewhere(g, a, t);
    case CutUp(_) => SendElsewhere(g, a, t);
    case WriteLocal(_) => LocalElsewhere(g, a, t);
    case CloseLocal => LocalElsewhere(g, a, t);
    case LocalLost(_) => LocalElsewhere(g, a, t);
    case _ => ExtElsewhere(g, a, t);
  }

  // ---- the proxy's own steps ----

  /** What a handler's step tells the daemon. */
  function Says(h: R.Handler, a: R.HandlerAct): seq<Body> {
    match a
    case SendData(_) => if h.Holding? then [Data(h.chunk)] else []
    case SendClose => [Close]
    case _ => []
  }

  /** Where a UDP handler's step leads. */
  predicate Leads(a: R.HandlerAct, h': R.Handler) {
    match a
    case Register => h'.Reading?
    case OpenFails => h'.Abandoned?
    case ExtRead(chunk, last) => h' == R.Holding(chunk, last)
    case SendData(_) => h'.Reading?
    case Expire => h'.Leaving?
    case Abandon => h'.Abandoned?
    case Detach => h'.Detached?
    case CloseDetached => h'.Ending?
    case SendClose => h'.Returning?
    case Return => h'.Ended?
    case ReadFail => h'.Leaving?
  }

  /** A connection of the tunnel, for one source address. */
  predicate Serves(g: Session, t: Tunnel, addr: string, n: nat) {
    && n < |g.recs| && g.recs[n].proto.Udp? && g.recs[n].peer == Source(t.id, addr)
    && g.recs[n].tunnel == t.id && g.recs[n].port == t.port && Source(t.id, addr) in g.peers
  }

  lemma OwnTold(g: Session, n: nat, h: R.HandlerAct)
    requires HandlerEnabled(g, n, h)
    ensures var g' := HandlerNext(g, n, h);
      && (forall i :: i != Own(n) ==> Told(g', i) == Told(g, i))
      && (g'.down.live ==> g.down.live && Told(g', Own(n)) == Told(g, Own(n)) + Says(g.recs[n].handler, h))
      && (Unborn(g) ==> Unborn(g'))
  {
    var g' := HandlerNext(g, n, h);
    var f := if h.SendData? then Of(Own(n), Data(g.recs[n].handler.chunk)) else Of(Own(n), Close);
    assert g'.down == (if h.SendData? || h.SendClose? then Push(g.down, f) else g.down);
    forall i ensures i != Own(n) ==> Told(g', i) == Told(g, i) {
      PushTold(g.down, f, i);
    }
    PushTold(g.down, f, Own(n));
    if Unborn(g) && g'.down != g.down {
      PushUnborn(g, g', f);
    }
  }

  lemma OwnStep(g: Session, t: Tunnel, addr: string, n: nat, h: R.HandlerAct)
    requires Serves(g, t, addr, n) && HandlerEnabled(g, n, h) && (h.ExtRead? ==> !h.last)
    ensures var g' := HandlerNext(g, n, h);
      && Beside(g, g', t, Own(n), Says(g.recs[n].handler, h))
      && Serves(g', t, addr, n) && |g'.recs| == |g.recs| && Leads(h, g'.recs[n].handler)
  {
    var g' := HandlerNext(g, n, h);
    MultiplexerRouting.HandlerChanges(g, n, h);
    HandlerSockets(g, n, h, t.id);
    OwnTold(g, n, h);
    assert OfTunnel(g.recs[n], t);
  }

  lemma OwnOpen(g: Session, t: Tunnel, addr: string)
    requires SocketOpen(g, t.id)
    ensures var a, n := NewUdp(t.id, t.port, addr), |g.recs|;
      var g' := Next(g, a);
      && Beside(g, g', t, Own(n), [Open(t.id, t.port, Udp)]) && |g'.recs| == n + 1
      && Serves(g', t, addr, n) && g'.recs[n].handler.Opening?
  {
    var a, n := NewUdp(t.id, t.port, addr), |g.recs|;
    var g' := Next(g, a);
    MultiplexerRouting.OpenConnChanges(g, a);
    var f := Of(Own(n), Open(t.id, t.port, Udp));
    assert g'.down == Push(g.down, f);
    forall i ensures i != Own(n) ==> Told(g', i) == Told(g, i) {
      PushTold(g.down, f, i);
    }
    PushTold(g.down, f, Own(n));
    if Unborn(g) {
      PushUnborn(g, g', f);
    }
  }

  lemma OwnForeign(g: Session, t: Tunnel, serial: nat, body: Body)
    requires !body.Open?
    ensures var g' := Next(g, SendStale(serial, body));
      Beside(g, g', t, Stale(serial), [body]) && g'.recs == g.recs
  {
    var f := Of(Stale(serial), body);
    var g' := Next(g, SendStale(serial, body));
    assert g'.down == Push(g.down, f);
    forall i ensures i != Stale(serial) ==> Told(g', i) == Told(g, i) {
      PushTold(g.down, f, i);
    }
    PushTold(g.down, f, Stale(serial));
    if Unborn(g) {
      PushUnborn(g, g', f);
    }
  }

  // ---- interleavings ----

  /** A run in which the proxy takes exactly the steps `own`, in this order, and
      the others take theirs, in between and in any order. */
  predicate Mixes(g: Session, acts: seq<Act>, own: seq<Act>, t: Tunnel)
    requires Runs(g, acts)
    decreases |acts|
  {
    if acts == [] then own == []
    else if Elsewhere(g, acts[0], t) then Mixes(Next(g, acts[0]), acts[1..], own, t)
    else own != [] && own[0] == acts[0] && Mixes(Next(g, acts[0]), acts[1..], own[1..], t)
  }

  /** Up to the proxy's first step the others leave its identifiers alone. */
  lemma {:induction false} Peel(g: Session, acts: seq<Act>, own: seq<Act>, t: Tunnel)
    returns (g1: Session, rest: seq<Act>)
    requires Runs(g, acts) && Mixes(g, acts, own, t) && own != []
    ensures Still(g, g1, t) && Enabled(g1, own[0]) && !Elsewhere(g1, own[0], t)
    ensures Runs(Next(g1, own[0]), rest) && Mixes(Next(g1, own[0]), rest, own[1..], t)
    ensures Final(Next(g1, own[0]), rest) == Final(g, acts)
    decreases |acts|
  {
    if Elsewhere(g, acts[0], t) {
      ElsewhereStill(g, acts[0], t);
      g1, rest := Peel(Next(g, acts[0]), acts[1..], own, t);
      StillThen(g, Next(g, acts[0]), g1, t);
    } else {
      g1, rest := g, acts[1..];
    }
  }

  lemma {:induction false} OnlyOthers(g: Session, acts: seq<Act>, t: Tunnel)
    requires Runs(g, acts) && Mixes(g, acts, [], t)
    ensures Still(g, Final(g, acts), t)
    decreases |acts|
  {
    if acts != [] {
      ElsewhereStill(g, acts[0], t);
      OnlyOthers(Next(g, acts[0]), acts[1..], t);
      StillThen(g, Next(g, acts[0]), Final(g, acts), t);
    }
  }

  lemma {:induction false} MixesThen(g: Session, acts: seq<Act>, more: seq<Act>, own: seq<Act>, rest: seq<Act>,
                                     t: Tunnel)
    requires Runs(g, acts) && Mixes(g, acts, own, t)
    requires Runs(Final(g, acts), more) && Mixes(Final(g, acts), more, rest, t)
    ensures Runs(g, acts + more) && Final(g, acts + more) == Final(Final(g, acts), more)
    ensures Mixes(g, acts + more, own + rest, t)
    decreases |acts|
  {
    RunsThen(g, acts, more);
    if acts == [] {
      assert acts + more == more && own + rest == rest;
    } else {
      var g1 := Next(g, acts[0]);
      assert (acts + more)[1..] == acts[1..] + more;
      if Elsewhere(g, acts[0], t) {
        MixesThen(g1, acts[1..], more, own, rest, t);
      } else {
        MixesThen(g1, acts[1..], more, own[1..], rest, t);
        assert (own + rest)[1..] == own[1..] + rest;
      }
    }
  }

  /** The proxy's next step on one of its connections, after whatever the others did. */
  lemma PeelHandler(g: Session, acts: seq<Act>, own: seq<Act>, t: Tunnel, addr: string, n: nat, h: R.HandlerAct)
    returns (g': Session, rest: seq<Act>)
    requires Runs(g, acts) && Mixes(g, acts, own, t) && own != [] && own[0] == Handler(n, h)
    requires Serves(g, t, addr, n) && (h.ExtRead? ==> !h.last)
    ensures Beside(g, g', t, Own(n), Says(g.recs[n].handler, h))
    ensures Serves(g', t, addr, n) && Leads(h, g'.recs[n].handler)
    ensures Runs(g', rest) && Mixes(g', rest, own[1..], t) && Final(g', rest) == Final(g, acts)
  {
    var g1: Session;
    g1, rest := Peel(g, acts, own, t);
    g' := Next(g1, own[0]);
    assert Mine(g, t, Own(n)) && Same(g, g1, Own(n));
    OwnStep(g1, t, addr, n, h);
    StillBeside(g, g1, g', t, Own(n), Says(g1.recs[n].handler, h));
  }

  lemma PeelForeign(g: Session, acts: seq<Act>, own: seq<Act>, t: Tunnel, serial: nat, body: Body)
    returns (g': Session, rest: seq<Act>)
    requires Runs(g, acts) && Mixes(g, acts, own, t) && own != [] && own[0] == SendStale(serial, body)
    requires serial in t.foreign && !body.Open?
    ensures Beside(g, g', t, Stale(serial), [body])
    ensures Runs(g', rest) && Mixes(g', rest, own[1..], t) && Final(g', rest) == Final(g, acts)
  {
    var g1: Session;
    g1, rest := Peel(g, acts, own, t);
    g' := Next(g1, own[0]);
    OwnForeign(g1, t, serial, body);
    StillBeside(g, g1, g', t, Stale(serial), [body]);
  }

  lemma PeelOpen(g: Session, acts: seq<Act>, own: seq<Act>, t: Tunnel, addr: string)
    returns (g': Session, rest: seq<Act>, n: nat)
    requires Runs(g, acts) && Mixes(g, acts, own, t) && own != [] && own[0] == NewUdp(t.id, t.port, addr)
    requires SocketOpen(g, t.id) && Unborn(g)
    ensures |g.recs| <= n && |g'.recs| == n + 1
    ensures Beside(g, g', t, Own(n), [Open(t.id, t.port, Udp)])
    ensures Serves(g', t, addr, n) && g'.recs[n].handler.Opening?
    ensures Runs(g', rest) && Mixes(g', rest, own[1..], t) && Final(g', rest) == Final(g, acts)
  {
    var g1: Session;
    g1, rest := Peel(g, acts, own, t);
    g', n := Next(g1, own[0]), |g1.recs|;
    OwnOpen(g1, t, addr);
    StillBeside(g, g1, g', t, Own(n), [Open(t.id, t.port, Udp)]);
  }
}
