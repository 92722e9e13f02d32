/** Left to itself, a session comes to rest, and a connection that has lost an
    end has then been shut down. */
module SessionShutdown {
  import opened Frames
  import opened Options
  import opened Multiplexer
  import opened MultiplexerView
  import opened MultiplexerRefinement
  import MultiplexerRouting
  import Shutdown
  import R = RelaySide
  import D = DaemonSide
  import C = Connection

  /** What the program does by itself: no new bytes or keepalives, no peer
      hanging up, no failure of the session. */
  predicate Internal(a: Act) {
    match a
    case Handler(_, h) => !h.ExtRead? && !h.Expire? && !h.Abandon?
    case LocalReader(_, r) => !r.LocalRead?
    case RecvUp => true
    case SendPong => true
    case WriteExt(_) => true
    case CloseExt => true
    case RecvDown(_) => true
    case Refuse => true
    case WriteLocal(_) => true
    case CloseLocal => true
    case _ => false
  }

  // ---- a measure of the work left ----

  function FrameWeight(f: Frame): nat {
    match f case Ping => 5 case Pong => 3 case Of(_, body) => Shutdown.BodyWeight(body)
  }

  function RecWeight(c: Rec): nat { Shutdown.HandlerWeight(c.handler) + Shutdown.ReaderWeight(c.reader) }

  function RecsWeight(cs: seq<Rec>): nat {
    if cs == [] then 0 else RecsWeight(cs[..|cs| - 1]) + RecWeight(cs[|cs| - 1])
  }

  function FramesWeight(fs: seq<Frame>): nat {
    if fs == [] then 0 else FramesWeight(fs[..|fs| - 1]) + FrameWeight(fs[|fs| - 1])
  }

  function LoopsWeight(d: Dispatch, t: Task): nat {
    (match d case Idle => 0 case Ponging => 4 case _ => 1) + (match t case Ready => 0 case Refusing(_) => 5 case _ => 1)
  }

  function Measure(g: Session): nat {
    RecsWeight(g.recs) + FramesWeight(g.down.flight) + FramesWeight(g.up.flight) + LoopsWeight(g.dispatch, g.task)
  }

  lemma {:induction false} RecsWeightUpdate(cs: seq<Rec>, n: nat, c: Rec)
    requires n < |cs|
    ensures RecsWeight(cs[n := c]) == RecsWeight(cs) - RecWeight(cs[n]) + RecWeight(c)
  {
    var last := |cs| - 1;
    if n < last {
      RecsWeightUpdate(cs[..last], n, c);
      assert cs[n := c][..last] == cs[..last][n := c];
    } else {
      assert cs[n := c][..last] == cs[..last];
    }
  }

  lemma {:induction false} PopWeight(fs: seq<Frame>)
    requires fs != []
    ensures FramesWeight(fs) == FrameWeight(fs[0]) + FramesWeight(fs[1..])
  {
    var last := |fs| - 1;
    if last > 0 {
      PopWeight(fs[..last]);
      assert fs[1..][..last - 1] == fs[..last][1..];
    }
  }

  lemma PushWeight(l: Link<Frame>, f: Frame)
    ensures FramesWeight(Push(l, f).flight) <= FramesWeight(l.flight) + FrameWeight(f)
  {
    assert (l.flight + [f])[..|l.flight|] == l.flight;
  }

  lemma HandlerDecreases(g: Session, n: nat, h: R.HandlerAct)
    requires HandlerEnabled(g, n, h) && Internal(Handler(n, h))
    ensures Measure(HandlerNext(g, n, h)) < Measure(g)
  {
    RecsWeightUpdate(g.recs, n, HandlerNext(g, n, h).recs[n]);
    match h
    case SendData(_) => PushWeight(g.down, Of(Own(n), Data(g.recs[n].handler.chunk)));
    case SendClose => PushWeight(g.down, Of(Own(n), Close));
    case _ =>
  }

  lemma ReaderDecreases(g: Session, n: nat, r: D.ReaderAct)
    requires ReaderEnabled(g, n, r) && Internal(LocalReader(n, r))
    ensures Measure(ReaderNext(g, n, r)) < Measure(g)
  {
    RecsWeightUpdate(g.recs, n, ReaderNext(g, n, r).recs[n]);
    match r
    case LocalSend(_) => PushWeight(g.up, Of(Own(n), Data(g.recs[n].reader.chunk)));
    case LocalSendClose => PushWeight(g.up, Of(Own(n), Close));
    case _ =>
  }

  lemma RecvDownDecreases(g: Session, dialOk: bool)
    requires Enabled(g, RecvDown(dialOk))
    ensures Measure(RecvDownNext(g, dialOk)) < Measure(g)
  {
    PopWeight(g.down.flight);
    var f, g' := g.down.flight[0], RecvDownNext(g, dialOk);
    assert g'.down == Pop(g.down) && g'.up == g.up && g'.dispatch == g.dispatch;
    if f.Of? && f.body.Open? && f.id.Own? && f.id.n < |g.recs| {
      var sock := Some(Dialled(f.id, ResolvePort(g.config, f.body.tunnel, f.body.port), f.body.proto));
      RecsWeightUpdate(g.recs, f.id.n, g.recs[f.id.n].(reader := D.LReading, sock := sock));
    }
  }

  lemma RecvUpDecreases(g: Session)
    requires Enabled(g, RecvUp)
    ensures Measure(RecvUpNext(g)) < Measure(g)
  {
    PopWeight(g.up.flight);
    var g' := RecvUpNext(g);
    assert g' == g.(up := Pop(g.up), dispatch := g'.dispatch, conns := g'.conns);
  }

  lemma RefuseDecreases(g: Session)
    requires Enabled(g, Refuse)
    ensures Measure(Next(g, Refuse)) < Measure(g)
  {
    var id := g.task.id;
    PushWeight(g.up, Of(id, Close));
    if id.Own? && id.n < |g.recs| {
      RecsWeightUpdate(g.recs, id.n, g.recs[id.n].(reader := D.LEnded));
    }
  }

  lemma LoopDecreases(g: Session, a: Act)
    requires Enabled(g, a) && (a.SendPong? || a.WriteExt? || a.CloseExt? || a.WriteLocal? || a.CloseLocal?)
    ensures Measure(Next(g, a)) < Measure(g)
  {
    PushWeight(g.down, Pong);
  }

  lemma InternalDecreases(g: Session, a: Act)
    requires Enabled(g, a) && Internal(a)
    ensures Measure(Next(g, a)) < Measure(g)
  {
    match a
    case Handler(n, h) => HandlerDecreases(g, n, h);
    case LocalReader(n, r) => ReaderDecreases(g, n, r);
    case RecvDown(dialOk) => RecvDownDecreases(g, dialOk);
    case RecvUp => RecvUpDecreases(g);
    case Refuse => RefuseDecreases(g);
    case _ => LoopDecreases(g, a);
  }

  predicate AllInternal(acts: seq<Act>) {
    forall i :: 0 <= i < |acts| ==> Internal(acts[i])
  }

  /** No run of internal steps is longer than the measure: the session comes to rest. */
  lemma {:induction false} ComesToRest(g: Session, acts: seq<Act>)
    requires Runs(g, acts) && AllInternal(acts)
    ensures |acts| + Measure(Final(g, acts)) <= Measure(g)
    decreases |acts|
  {
    if acts != [] {
      InternalDecreases(g, acts[0]);
      ComesToRest(Next(g, acts[0]), acts[1..]);
    }
  }

  // ---- rest, for the session and for each connection ----

  ghost predicate AtRest(g: Session) {
    forall a :: Internal(a) ==> !Enabled(g, a)
  }

  predicate Whole(g: Session) { g.down.live && g.up.live && g.loop.Running? && g.frames }

  predicate LoopsIdle(g: Session) {
    g.dispatch.Idle? && g.task.Ready? && g.down.flight == [] && g.up.flight == []
  }

  lemma LoopCanMove(g: Session) returns (a: Act)
    requires LoopsRouted(g) && Whole(g) && !LoopsIdle(g)
    ensures Internal(a) && Enabled(g, a)
  {
    match g.dispatch
    case Ponging => a := SendPong;
    case WritingTo(_, _, data) => a := WriteExt(|data|);
    case Closing(_, _) => a := CloseExt;
    case Idle =>
      match g.task {
        case Refusing(_) => a := Refuse;
        case WritingLocal(_, _, data) => a := WriteLocal(|data|);
        case ClosingLocal(_, _) => a := CloseLocal;
        case Ready => a := if g.up.flight != [] then RecvUp else RecvDown(true);
      }
  }

  lemma LoopsAtRest(g: Session)
    requires LoopsRouted(g) && Whole(g) && AtRest(g)
    ensures LoopsIdle(g)
  {
    if !LoopsIdle(g) {
      var a := LoopCanMove(g);
    }
  }

  lemma HandlerCouldRun(g: Session, n: nat, h: R.HandlerAct)
    requires PeersRouted(g) && n < |g.recs| && R.HandlerEnabled(g.recs[n].proto, RelayOf(g, n), LinkOf(g.down, n), h)
    ensures HandlerEnabled(g, n, h)
  {
  }

  lemma ReaderCouldRun(g: Session, n: nat, r: D.ReaderAct)
    requires LocalsRouted(g) && n < |g.recs| && D.ReaderEnabled(g.recs[n].proto, DaemonOf(g, n), LinkOf(g.up, n), r)
    requires g.recs[n].reader.LReading? ==> g.recs[n].sock.Some?
    ensures ReaderEnabled(g, n, r)
  {
  }

  lemma LoopsIdleForAll(g: Session, n: nat, pa: C.Act)
    requires LoopsIdle(g) && n < |g.recs|
    requires Shutdown.Internal(pa) && !pa.Handler? && !pa.LocalReader?
    ensures !C.Enabled(View(g, n), pa)
  {
  }

  /** Whatever a connection could do by itself, the session could. */
  lemma ConnCouldMove(g: Session, n: nat, pa: C.Act) returns (a: Act)
    requires PeersRouted(g) && LocalsRouted(g) && LoopsIdle(g) && n < |g.recs|
    requires g.recs[n].reader.LReading? ==> g.recs[n].sock.Some?
    requires Shutdown.Internal(pa) && C.Enabled(View(g, n), pa)
    ensures Internal(a) && Enabled(g, a)
  {
    if pa.Handler? {
      HandlerCouldRun(g, n, pa.h);
      a := Handler(n, pa.h);
    } else if pa.LocalReader? {
      ReaderCouldRun(g, n, pa.r);
      a := LocalReader(n, pa.r);
    } else {
      LoopsIdleForAll(g, n, pa);
      a := RecvUp;
    }
  }

  lemma ReadingIsDialled(g: Session, n: nat)
    requires SessionInv(g) && n < |g.recs|
    ensures g.recs[n].reader.LReading? ==> g.recs[n].sock.Some?
  {
    assert C.Inv(View(g, n));
  }

  lemma ConnAtRest(g: Session, n: nat)
    requires SessionInv(g) && Whole(g) && AtRest(g) && n < |g.recs|
    ensures Shutdown.Quiescent(View(g, n))
  {
    LoopsAtRest(g);
    ReadingIsDialled(g, n);
    forall pa | Shutdown.Internal(pa) ensures !C.Enabled(View(g, n), pa) {
      if C.Enabled(View(g, n), pa) {
        var a := ConnCouldMove(g, n, pa);
      }
    }
  }

  // ---- a connection that has lost an end stays lost ----

  /** The external end is gone; or the local one is, and the connection was
      registered before the daemon's "close" was handled. */
  predicate Doomed(v: C.Conn) {
    v.relay.ext.eof || (D.LocalGone(v.daemon) && !v.relay.handler.Opening? && !R.EarlyClose(v.relay))
  }

  predicate OpenWhenUnopened(v: C.Conn) {
    && (v.down.flight != [] && v.down.flight[0].Open? ==> v.daemon.reader.Unopened?)
    && (v.daemon.task.Refusing? ==> !v.daemon.dialled && v.daemon.reader.Unopened?)
  }

  lemma ExtStaysLost(v: C.Conn, a: C.Act)
    requires C.Enabled(v, a) && v.relay.ext.eof
    ensures C.Next(v, a).relay.ext.eof
  {
  }

  lemma LocalStaysGone(v: C.Conn, a: C.Act)
    requires C.Enabled(v, a) && OpenWhenUnopened(v)
    requires D.LocalGone(v.daemon) && !v.relay.handler.Opening?
    ensures D.LocalGone(C.Next(v, a).daemon)
    ensures !C.Next(v, a).relay.handler.Opening? && C.Next(v, a).relay.before == v.relay.before
  {
  }

  lemma DoomedStays(v: C.Conn, a: C.Act)
    requires C.Enabled(v, a) && Doomed(v) && OpenWhenUnopened(v)
    ensures Doomed(C.Next(v, a))
  {
    if v.relay.ext.eof {
      ExtStaysLost(v, a);
    } else {
      LocalStaysGone(v, a);
    }
  }

  lemma OpenFindsUnopened(v: C.Conn)
    requires C.Inv(v)
    ensures OpenWhenUnopened(v)
  {
    if v.down.flight != [] {
      PopSent(v.down);
    }
  }

  lemma StepKeepsDoom(v: C.Conn, v': C.Conn, pa: Option<C.Act>)
    requires C.Inv(v) && Simulates(v, v', pa)
    ensures v'.proto == v.proto && (Doomed(v) ==> Doomed(v'))
  {
    OpenFindsUnopened(v);
    if pa.Some? && Doomed(v) {
      DoomedStays(v, pa.value);
    }
  }

  lemma StepKeeps(g: Session, a: Act, n: nat)
    requires SessionInv(g) && Enabled(g, a) && n < |g.recs|
    ensures n < |Next(g, a).recs| && SessionInv(Next(g, a))
    ensures View(Next(g, a), n).proto == View(g, n).proto
    ensures Doomed(View(g, n)) ==> Doomed(View(Next(g, a), n))
  {
    MultiplexerRouting.NextSessionInv(g, a);
    StepSimulates(g, a, n);
    StepKeepsDoom(View(g, n), View(Next(g, a), n), Proj(g, a, n));
  }

  lemma HandlerKeepsWhole(g: Session, n: nat, h: R.HandlerAct)
    requires HandlerEnabled(g, n, h) && Whole(g)
    ensures Whole(HandlerNext(g, n, h))
  {
  }

  lemma ReaderKeepsWhole(g: Session, n: nat, r: D.ReaderAct)
    requires ReaderEnabled(g, n, r) && Whole(g)
    ensures Whole(ReaderNext(g, n, r))
  {
  }

  // ---- one connection among any others ----

  /** Connection n reads no new bytes and the session does not fail. Every other
      connection is free: it may be opened, read, lost or closed, and keepalives
      and stale traffic flow. */
  predicate Spares(a: Act, n: nat) {
    match a
    case Handler(m, h) => m == n ==> !h.ExtRead?
    case LocalReader(m, r) => m == n ==> !r.LocalRead?
    case StopLoop => false
    case CloseAll => false
    case StopFrames => false
    case CutDown(_) => false
    case CutUp(_) => false
    case _ => true
  }

  predicate AllSpare(acts: seq<Act>, n: nat) {
    forall i :: 0 <= i < |acts| ==> Spares(acts[i], n)
  }

  /** Is this one of connection n's own internal steps? */
  predicate OwnStep(g: Session, a: Act, n: nat)
    requires Enabled(g, a) && n < |g.recs|
  {
    Proj(g, a, n).Some? && Shutdown.Internal(Proj(g, a, n).value)
  }

  function OwnSteps(g: Session, acts: seq<Act>, n: nat): nat
    requires Runs(g, acts) && n < |g.recs|
    decreases |acts|
  {
    if acts == [] then 0
    else (if OwnStep(g, acts[0], n) then 1 else 0) + OwnSteps(Next(g, acts[0]), acts[1..], n)
  }

  lemma SparedProj(g: Session, a: Act, n: nat)
    requires Enabled(g, a) && n < |g.recs| && g.recs[n].proto.Tcp? && Spares(a, n)
    ensures var pa := Proj(g, a, n);
      pa.None? || Shutdown.Internal(pa.value) || pa.value.ExtLost? || pa.value.LocalLost? || pa.value.UdpClosed?
  {
  }

  lemma SparedKeepsWhole(g: Session, a: Act, n: nat)
    requires Enabled(g, a) && Spares(a, n) && Whole(g)
    ensures Whole(Next(g, a))
  {
    if a.Handler? {
      HandlerKeepsWhole(g, a.n, a.h);
    } else if a.LocalReader? {
      ReaderKeepsWhole(g, a.n, a.r);
    }
  }

  lemma ViewLowers(v: C.Conn, v': C.Conn, pa: Option<C.Act>)
    requires Simulates(v, v', pa)
    requires pa.None? || Shutdown.Internal(pa.value) || pa.value.ExtLost? || pa.value.LocalLost? || pa.value.UdpClosed?
    ensures Shutdown.ConnMeasure(v') <= Shutdown.ConnMeasure(v)
    ensures pa.Some? && Shutdown.Internal(pa.value) ==> Shutdown.ConnMeasure(v') < Shutdown.ConnMeasure(v)
  {
    if pa.Some? && Shutdown.Internal(pa.value) {
      Shutdown.InternalLowers(v, pa.value);
    }
  }

  lemma SparedLowers(g: Session, a: Act, n: nat)
    requires Routing(g) && n < |g.recs| && C.Inv(View(g, n)) && Enabled(g, a)
    requires g.recs[n].proto.Tcp? && Spares(a, n)
    ensures n < |Next(g, a).recs|
    ensures Shutdown.ConnMeasure(View(Next(g, a), n)) + (if OwnStep(g, a, n) then 1 else 0)
            <= Shutdown.ConnMeasure(View(g, n))
  {
    SparedProj(g, a, n);
    StepSimulates(g, a, n);
    ViewLowers(View(g, n), View(Next(g, a), n), Proj(g, a, n));
  }

  /** What connection n sees of such a step: nothing, or a peer lost, or one of
      its own internal steps, which lowers its measure. */
  lemma SparedStep(g: Session, a: Act, n: nat)
    requires SessionInv(g) && Whole(g) && Enabled(g, a) && Spares(a, n) && n < |g.recs| && g.recs[n].proto.Tcp?
    ensures var g' := Next(g, a);
      && n < |g'.recs| && SessionInv(g') && Whole(g') && g'.recs[n].proto.Tcp?
      && (Doomed(View(g, n)) ==> Doomed(View(g', n)))
      && Shutdown.ConnMeasure(View(g', n)) + (if OwnStep(g, a, n) then 1 else 0) <= Shutdown.ConnMeasure(View(g, n))
  {
    StepKeeps(g, a, n);
    SparedKeepsWhole(g, a, n);
    SparedLowers(g, a, n);
  }

  /** A TCP connection of a whole session that satisfies the invariant, with so
      much work left and perhaps an end lost. */
  ghost predicate Stands(g: Session, n: nat, work: int, lost: bool) {
    && SessionInv(g) && Whole(g) && n < |g.recs| && g.recs[n].proto.Tcp?
    && Shutdown.ConnMeasure(View(g, n)) <= work && (lost ==> Doomed(View(g, n)))
  }

  lemma StandsStep(g: Session, a: Act, n: nat, work: int, lost: bool)
    requires Stands(g, n, work, lost) && Enabled(g, a) && Spares(a, n)
    ensures Stands(Next(g, a), n, work - (if OwnStep(g, a, n) then 1 else 0), lost)
  {
    SparedStep(g, a, n);
  }

  lemma FirstSpared(g: Session, acts: seq<Act>, n: nat)
    requires Runs(g, acts) && acts != [] && AllSpare(acts, n) && n < |g.recs|
    ensures Enabled(g, acts[0]) && Spares(acts[0], n)
    ensures var own, g1, rest := if OwnStep(g, acts[0], n) then 1 else 0, Next(g, acts[0]), acts[1..];
      && AllSpare(rest, n) && Runs(g1, rest)
      && Final(g, acts) == Final(g1, rest) && OwnSteps(g, acts, n) == own + OwnSteps(g1, rest, n)
  {
  }

  lemma {:induction false} SparedRun(g: Session, acts: seq<Act>, n: nat, work: int, lost: bool)
    requires Stands(g, n, work, lost) && Runs(g, acts) && AllSpare(acts, n)
    ensures Stands(Final(g, acts), n, work - OwnSteps(g, acts, n), lost)
    decreases |acts|
  {
    if acts != [] {
      var a, rest := acts[0], acts[1..];
      var own, g1 := if OwnStep(g, a, n) then 1 else 0, Next(g, a);
      FirstSpared(g, acts, n);
      StandsStep(g, a, n, work, lost);
      SparedRun(g1, rest, n, work - own, lost);
    }
  }

  /** Shutdown completes, for one connection among any others: take any reachable
      whole session and a TCP connection in it that has lost an end, and let the
      session run on, with other connections opening, reading and closing as they
      like. As long as this one reads no new bytes and the session does not fail,
      its own steps are bounded by its own measure; it stays lost; and wherever
      it has no step of its own left, it is closed at both ends, in neither
      table, with no frame in flight. */
  lemma ShutdownCompletes(config: seq<(string, int)>, before: seq<Act>, acts: seq<Act>, n: nat)
    requires Runs(Start(config), before)
    requires var g := Final(Start(config), before);
      && Whole(g) && n < |g.recs| && g.recs[n].proto.Tcp? && Doomed(View(g, n))
      && Runs(g, acts) && AllSpare(acts, n)
    ensures var g := Final(Start(config), before); var g' := Final(g, acts);
      && OwnSteps(g, acts, n) <= Shutdown.ConnMeasure(View(g, n))
      && n < |g'.recs| && Doomed(View(g', n))
      && (Shutdown.Quiescent(View(g', n)) ==> Shutdown.Clean(View(g', n)))
  {
    var g := Final(Start(config), before);
    MultiplexerRouting.StartInv(config);
    MultiplexerRouting.RunInv(Start(config), before);
    SparedRun(g, acts, n, Shutdown.ConnMeasure(View(g, n)), true);
    var g' := Final(g, acts);
    if Shutdown.Quiescent(View(g', n)) {
      Shutdown.ShutdownExact(View(g', n));
    }
  }

  lemma InternalSpares(acts: seq<Act>, n: nat)
    requires AllInternal(acts)
    ensures AllSpare(acts, n)
  {
  }

  /** In particular when the whole session is left to itself: however the
      internal steps interleave, they are finitely many, and where they stop the
      connection is shut down. */
  lemma ShutdownByRest(config: seq<(string, int)>, before: seq<Act>, acts: seq<Act>, n: nat)
    requires Runs(Start(config), before)
    requires var g := Final(Start(config), before);
      && Whole(g) && n < |g.recs| && g.recs[n].proto.Tcp? && Doomed(View(g, n))
      && Runs(g, acts) && AllInternal(acts)
    ensures var g := Final(Start(config), before);
      && |acts| <= Measure(g)
      && n < |Final(g, acts).recs|
      && (AtRest(Final(g, acts)) ==> Shutdown.Clean(View(Final(g, acts), n)))
  {
    var g := Final(Start(config), before);
    InternalSpares(acts, n);
    ShutdownCompletes(config, before, acts, n);
    ComesToRest(g, acts);
    MultiplexerRouting.StartInv(config);
    MultiplexerRouting.RunInv(Start(config), before);
    SparedRun(g, acts, n, Shutdown.ConnMeasure(View(g, n)), true);
    if AtRest(Final(g, acts)) {
      ConnAtRest(Final(g, acts), n);
    }
  }

  /** From anywhere, internal steps alone lead to rest. */
  lemma {:induction false} RestReachable(g: Session) returns (acts: seq<Act>)
    ensures Runs(g, acts) && AllInternal(acts) && AtRest(Final(g, acts))
    decreases Measure(g)
  {
    acts := [];
    if a :| Internal(a) && Enabled(g, a) {
      InternalDecreases(g, a);
      var rest := RestReachable(Next(g, a));
      RunsFirst(g, a, rest);
      acts := [a] + rest;
    }
  }

  /** So after any such run the shutdown can still be completed, whatever the
      other connections have done. */
  lemma ShutdownStaysPossible(config: seq<(string, int)>, before: seq<Act>, acts: seq<Act>, n: nat)
    returns (rest: seq<Act>)
    requires Runs(Start(config), before)
    requires var g := Final(Start(config), before);
      && Whole(g) && n < |g.recs| && g.recs[n].proto.Tcp? && Doomed(View(g, n))
      && Runs(g, acts) && AllSpare(acts, n)
    ensures var g := Final(Final(Start(config), before), acts);
      Runs(g, rest) && AllInternal(rest) && n < |Final(g, rest).recs| && Shutdown.Clean(View(Final(g, rest), n))
  {
    MultiplexerRouting.StartInv(config);
    MultiplexerRouting.RunInv(Start(config), before);
    var g := Final(Start(config), before);
    SparedRun(g, acts, n, Shutdown.ConnMeasure(View(g, n)), true);
    var g' := Final(g, acts);
    rest := RestReachable(g');
    InternalSpares(rest, n);
    SparedRun(g', rest, n, Shutdown.ConnMeasure(View(g', n)), true);
    ConnAtRest(Final(g', rest), n);
    Shutdown.ShutdownExact(View(Final(g', rest), n));
  }

  /** And only such connections: at rest, a TCP connection is shut down exactly
      if it has lost an end and was not stranded by an early "close"; otherwise
      it is bridged, or stranded. */
  lemma RestExact(config: seq<(string, int)>, acts: seq<Act>, n: nat)
    requires Runs(Start(config), acts)
    requires var g := Final(Start(config), acts);
      Whole(g) && AtRest(g) && n < |g.recs| && g.recs[n].proto.Tcp?
    ensures var v := View(Final(Start(config), acts), n);
      && (Shutdown.Clean(v) <==> v.relay.ext.eof || (D.LocalGone(v.daemon) && !R.EarlyClose(v.relay)))
      && (Shutdown.Clean(v) || Shutdown.Bridged(v) || Shutdown.Stranded(v))
  {
    MultiplexerRouting.StartInv(config);
    MultiplexerRouting.RunInv(Start(config), acts);
    var g := Final(Start(config), acts);
    ConnAtRest(g, n);
    Shutdown.ShutdownExact(View(g, n));
    Shutdown.RestingStates(View(g, n));
  }
}
