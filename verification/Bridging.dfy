/** What a session promises about the data it carries, for every run and every
    connection in it. */
module Bridging {
  import opened Frames
  import opened Options
  import opened Multiplexer
  import opened MultiplexerView
  import opened MultiplexerRefinement
  import MultiplexerRouting
  import R = RelaySide
  import D = DaemonSide
  import C = Connection

  /** The session some run from the start has reached. */
  ghost predicate Reached(g: Session, config: seq<(string, int)>, acts: seq<Act>) {
    Runs(Start(config), acts) && g == Final(Start(config), acts)
  }

  lemma ReachedInv(g: Session, config: seq<(string, int)>, acts: seq<Act>)
    requires Reached(g, config, acts)
    ensures SessionInv(g)
  {
    MultiplexerRouting.StartInv(config);
    MultiplexerRouting.RunInv(Start(config), acts);
  }

  /** What the local socket of connection n has been given. */
  function LocalOutput(g: Session, n: nat): seq<Item>
    requires n < |g.recs|
  {
    DaemonOf(g, n).local.output
  }

  /** What the external peer of connection n has been given on its behalf. */
  function ExtOutput(g: Session, n: nat): seq<Item>
    requires n < |g.recs|
  {
    RelayOf(g, n).ext.output
  }

  lemma SentSplits(l: Link<Body>)
    requires Fifo(l) && l.live
    ensures Stream(l.sent) == Stream(l.got) + Stream(l.flight)
  {
    StreamConcat(l.got, l.flight);
  }

  lemma ConnForward(v: C.Conn)
    requires C.Inv(v)
    ensures v.daemon.local.output <= v.relay.ext.input
    ensures v.daemon.listed && !v.daemon.local.dead && v.down.live ==>
      && Stream(v.down.sent) == D.PlusPending(v.daemon.local.output, v.daemon.task) + Stream(v.down.flight)
      && R.PlusHeld(Stream(v.down.sent), v.relay.handler) == v.relay.ext.input
  {
    StreamPrefix(v.down.got, v.down.sent);
    if v.down.live {
      SentSplits(v.down);
    }
  }

  /** Forward: the local service receives a prefix of what the external peer
      sent. While the connection is in localConns on a whole channel, nothing is
      missing: what was sent is what was written, what is being written, and
      what is still in the channel; and what was read is that plus the chunk the
      handler holds. */
  lemma ForwardIntegrity(g: Session, config: seq<(string, int)>, acts: seq<Act>, n: nat)
    requires Reached(g, config, acts) && n < |g.recs|
    ensures LocalOutput(g, n) <= g.recs[n].input
    ensures Own(n) in g.localConns && !DaemonOf(g, n).local.dead && g.down.live ==>
      var sent := Stream(FramesOf(g.down.sent, n));
      && sent == D.PlusPending(LocalOutput(g, n), TaskOf(g.task, n)) + Stream(FramesOf(g.down.flight, n))
      && R.PlusHeld(sent, g.recs[n].handler) == g.recs[n].input
  {
    ReachedInv(g, config, acts);
    ConnForward(View(g, n));
  }

  lemma ConnReturn(v: C.Conn)
    requires C.Inv(v)
    ensures Stream(v.relay.before) + v.relay.ext.output <= v.daemon.local.input
    ensures v.relay.registered && !v.relay.ext.dead && v.up.live ==>
      && Stream(v.up.sent)
         == R.PlusPending(Stream(v.relay.before) + v.relay.ext.output, v.relay.dispatch) + Stream(v.up.flight)
      && D.PlusHeld(Stream(v.up.sent), v.daemon.reader) == v.daemon.local.input
  {
    StreamPrefix(v.up.got, v.up.sent);
    if v.up.live {
      SentSplits(v.up);
    }
  }

  lemma ReachedReturn(g: Session, config: seq<(string, int)>, acts: seq<Act>, n: nat)
    requires Reached(g, config, acts) && n < |g.recs|
    ensures Stream(g.recs[n].before) + ExtOutput(g, n) <= g.recs[n].localInput
    ensures Own(n) in g.conns && !RelayOf(g, n).ext.dead && g.up.live ==>
      var sent := Stream(FramesOf(g.up.sent, n));
      && sent == R.PlusPending(Stream(g.recs[n].before) + ExtOutput(g, n), DispatchOf(g.dispatch, n))
                 + Stream(FramesOf(g.up.flight, n))
      && D.PlusHeld(sent, g.recs[n].reader) == g.recs[n].localInput
    ensures PeersRouted(g)
  {
    ReachedInv(g, config, acts);
    ConnReturn(View(g, n));
  }

  lemma Block(start: seq<Item>, out: seq<Item>, read: seq<Item>)
    requires start + out <= read
    ensures |start| + |out| <= |read| && out == read[|start|..|start| + |out|]
    ensures start == [] ==> out <= read
  {
    assert (start + out)[|start|..] == out;
  }

  lemma StoppedIsDead(g: Session, n: nat)
    requires PeersRouted(g) && n < |g.recs| && g.recs[n].proto.Udp?
    ensures RelayOf(g, n).ext.dead <==> g.recs[n].tunnel in g.stopped
  {
    assert SourceOk(g, g.recs[n].peer, g.peers[g.recs[n].peer]);
  }

  /** Return: what the external peer is given is one contiguous block of what
      the local service sent, starting right after the data that was handled
      before openConn registered the connection. While the connection is in
      conns on a whole channel and its external socket takes writes, nothing after
      that point is missing; a UDP source's socket takes none, exactly once its
      tunnel has been stopped. */
  lemma ReturnIntegrity(g: Session, config: seq<(string, int)>, acts: seq<Act>, n: nat)
    requires Reached(g, config, acts) && n < |g.recs|
    ensures var skipped, out, read := |Stream(g.recs[n].before)|, ExtOutput(g, n), g.recs[n].localInput;
      skipped + |out| <= |read| && out == read[skipped..skipped + |out|]
    ensures Stream(g.recs[n].before) == [] ==> ExtOutput(g, n) <= g.recs[n].localInput
    ensures Own(n) in g.conns && !RelayOf(g, n).ext.dead && g.up.live ==>
      var sent := Stream(FramesOf(g.up.sent, n));
      && sent == R.PlusPending(Stream(g.recs[n].before) + ExtOutput(g, n), DispatchOf(g.dispatch, n))
                 + Stream(FramesOf(g.up.flight, n))
      && D.PlusHeld(sent, g.recs[n].reader) == g.recs[n].localInput
    ensures g.recs[n].proto.Udp? ==> (RelayOf(g, n).ext.dead <==> g.recs[n].tunnel in g.stopped)
  {
    ReachedReturn(g, config, acts, n);
    Block(Stream(g.recs[n].before), ExtOutput(g, n), g.recs[n].localInput);
    if g.recs[n].proto.Udp? {
      StoppedIsDead(g, n);
    }
  }

  // ---- a stopped UDP tunnel ----

  lemma DeadStands(v: C.Conn, v': C.Conn, pa: Option<C.Act>)
    requires Simulates(v, v', pa) && v.relay.ext.dead
    ensures v'.relay.ext.dead && v'.proto == v.proto && v'.relay.ext.output == v.relay.ext.output
    ensures v.proto.Udp? ==> v'.relay.ext.input == v.relay.ext.input
  {
  }

  /** The external socket of connection n is dead, with so much read and written. */
  ghost predicate Stands(g: Session, n: nat, read: seq<Item>, written: seq<Item>) {
    && SessionInv(g) && n < |g.recs| && g.recs[n].proto.Udp? && RelayOf(g, n).ext.dead
    && g.recs[n].input == read && ExtOutput(g, n) == written
  }

  lemma StandsStep(g: Session, a: Act, n: nat, read: seq<Item>, written: seq<Item>)
    requires Stands(g, n, read, written) && Enabled(g, a)
    ensures Stands(Next(g, a), n, read, written)
  {
    MultiplexerRouting.NextSessionInv(g, a);
    StepSimulates(g, a, n);
    DeadStands(View(g, n), View(Next(g, a), n), Proj(g, a, n));
  }

  lemma {:induction false} StandsRun(g: Session, acts: seq<Act>, n: nat, read: seq<Item>, written: seq<Item>)
    requires Stands(g, n, read, written) && Runs(g, acts)
    ensures Stands(Final(g, acts), n, read, written)
    decreases |acts|
  {
    if acts != [] {
      StandsStep(g, acts[0], n, read, written);
      StandsRun(Next(g, acts[0]), acts[1..], n, read, written);
    }
  }

  lemma StopSevers(g: Session, tunnel: string, n: nat)
    requires SessionInv(g) && n < |g.recs| && g.recs[n].proto.Udp? && g.recs[n].tunnel == tunnel
    ensures Stands(StopUdpNext(g, tunnel), n, g.recs[n].input, ExtOutput(g, n))
  {
    MultiplexerRouting.NextSessionInv(g, StopUdp(tunnel));
    StopUdpRelay(g, tunnel, n);
  }

  /** Stopping a UDP tunnel: from then on, in every run, its sources are given
      nothing more and nothing more is read from them. So a source that was
      registered then, on a whole channel, has got what its service had sent by
      then, less what was handled before registration, what the dispatch loop had
      in hand, and what was still in the channel. */
  lemma StoppedSourceStands(config: seq<(string, int)>, before: seq<Act>, tunnel: string, after: seq<Act>, n: nat)
    requires Runs(Start(config), before)
    requires var g := Final(Start(config), before);
      && n < |g.recs| && g.recs[n].proto.Udp? && g.recs[n].tunnel == tunnel
      && Runs(StopUdpNext(g, tunnel), after)
    ensures var g := Final(Start(config), before); var g' := Final(StopUdpNext(g, tunnel), after);
      && n < |g'.recs| && ExtOutput(g', n) == ExtOutput(g, n) && g'.recs[n].input == g.recs[n].input
      && (Own(n) in g.conns && tunnel !in g.stopped && g.up.live ==>
            Stream(FramesOf(g.up.sent, n))
            == R.PlusPending(Stream(g.recs[n].before) + ExtOutput(g', n), DispatchOf(g.dispatch, n))
               + Stream(FramesOf(g.up.flight, n)))
  {
    var g := Final(Start(config), before);
    ReachedInv(g, config, before);
    StopSevers(g, tunnel, n);
    StandsRun(StopUdpNext(g, tunnel), after, n, g.recs[n].input, ExtOutput(g, n));
    ReturnIntegrity(g, config, before, n);
  }

  // ---- a closed connection ----

  /** A closed external TCP connection stays closed, with what was read from it
      and what it was given. */
  predicate ExtStands(v: C.Conn, v': C.Conn) {
    && v'.proto == v.proto
    && (v.proto.Tcp? && v.relay.ext.closed ==>
          && v'.relay.ext.closed && v'.relay.ext.input == v.relay.ext.input
          && v'.relay.ext.output == v.relay.ext.output)
  }

  /** So does a closed local connection. */
  predicate LocalStands(v: C.Conn, v': C.Conn) {
    v.daemon.local.closed ==>
      && v'.daemon.local.closed && v'.daemon.local.input == v.daemon.local.input
      && v'.daemon.local.output == v.daemon.local.output
  }

  lemma ClosedExtStep(v: C.Conn, v': C.Conn, pa: Option<C.Act>)
    requires Simulates(v, v', pa)
    ensures ExtStands(v, v')
  {
  }

  lemma ClosedLocalStep(v: C.Conn, v': C.Conn, pa: Option<C.Act>)
    requires Simulates(v, v', pa)
    ensures LocalStands(v, v')
  {
  }

  lemma {:induction false} ClosedRun(g: Session, acts: seq<Act>, n: nat)
    requires SessionInv(g) && Runs(g, acts) && n < |g.recs|
    ensures n < |Final(g, acts).recs|
    ensures ExtStands(View(g, n), View(Final(g, acts), n)) && LocalStands(View(g, n), View(Final(g, acts), n))
    decreases |acts|
  {
    if acts != [] {
      MultiplexerRouting.NextSessionInv(g, acts[0]);
      StepSimulates(g, acts[0], n);
      ClosedExtStep(View(g, n), View(Next(g, acts[0]), n), Proj(g, acts[0], n));
      ClosedLocalStep(View(g, n), View(Next(g, acts[0]), n), Proj(g, acts[0], n));
      ClosedRun(Next(g, acts[0]), acts[1..], n);
    }
  }

  /** Closing is final: from the moment an external TCP connection or a local one
      is closed, whatever is still in the channel or in a loop's hands, it is
      given nothing more and nothing more is read from it. */
  lemma ClosedStands(config: seq<(string, int)>, before: seq<Act>, after: seq<Act>, n: nat)
    requires Runs(Start(config), before) && n < |Final(Start(config), before).recs|
    requires Runs(Final(Start(config), before), after)
    ensures var g := Final(Start(config), before); var g' := Final(g, after);
      && n < |g'.recs|
      && (g.recs[n].proto.Tcp? && RelayOf(g, n).ext.closed ==>
            ExtOutput(g', n) == ExtOutput(g, n) && g'.recs[n].input == g.recs[n].input)
      && (DaemonOf(g, n).local.closed ==>
            LocalOutput(g', n) == LocalOutput(g, n) && g'.recs[n].localInput == g.recs[n].localInput)
  {
    ReachedInv(Final(Start(config), before), config, before);
    ClosedRun(Final(Start(config), before), after, n);
  }

  /** Frame grammar: per connID the relay sends Open Data* Close?, the daemon
      Data* Close? and only once it has taken the Open; the relay's "close" is
      sent when its handler ends, the daemon's when its reader ends or its dial
      failed, so each processed "open" gets one "close" back at most and a
      "close" is never answered by another. On whole channels a handler that has
      ended has sent its "close". */
  lemma FrameGrammar(g: Session, config: seq<(string, int)>, acts: seq<Act>, n: nat)
    requires Reached(g, config, acts) && n < |g.recs|
    ensures var down, up := FramesOf(g.down.sent, n), FramesOf(g.up.sent, n);
      && DownGrammar(down) && UpGrammar(up)
      && (up != [] ==> FramesOf(g.down.got, n) != [] && FramesOf(g.down.got, n)[0].Open?)
      && (Closed(down) ==> g.recs[n].handler.Returning? || g.recs[n].handler.Ended?)
      && (Closed(up) ==> g.recs[n].reader.LEnded?)
      && (g.down.live && g.recs[n].handler.Ended? ==> Closed(down))
      && (g.up.live && g.recs[n].reader.LEnded? ==> Closed(up))
  {
    ReachedInv(g, config, acts);
    var v := View(g, n);
    assert C.Inv(v);
    if v.up.sent != [] {
      assert v.down.got != [];
      assert v.down.got[0] == v.down.sent[0];
    }
  }

  // ---- routing isolation ----

  /** All the data a socket was given, whatever connID it came under. */
  function Everything(out: seq<Delivery>): seq<Item> {
    if out == [] then [] else Everything(out[..|out| - 1]) + out[|out| - 1].data
  }

  lemma {:induction false} AllForOne(out: seq<Delivery>, id: ConnId)
    requires forall i :: 0 <= i < |out| ==> out[i].id == id
    ensures Everything(out) == Collect(out, id)
  {
    if out != [] {
      AllForOne(out[..|out| - 1], id);
    }
  }

  lemma StepConfig(g: Session, a: Act)
    requires Enabled(g, a)
    ensures Next(g, a).config == g.config
  {
    if a.Handler? {
      MultiplexerRouting.HandlerChanges(g, a.n, a.h);
    } else if a.LocalReader? {
      MultiplexerRouting.ReaderChanges(g, a.n, a.r);
    }
  }

  lemma {:induction false} ConfigStays(g: Session, acts: seq<Act>)
    requires Runs(g, acts)
    ensures Final(g, acts).config == g.config
    decreases |acts|
  {
    if acts != [] {
      StepConfig(g, acts[0]);
      ConfigStays(Next(g, acts[0]), acts[1..]);
    }
  }

  /** An "open" without a port, for a tunnel that is not configured, is refused
      with a "close", whether or not a dial would succeed. */
  lemma UnknownPortRefused(g: Session, dialOk: bool)
    requires Enabled(g, RecvDown(dialOk)) && g.down.flight[0].Of? && g.down.flight[0].body.Open?
    requires g.down.flight[0].body.port == 0
    requires forall j :: 0 <= j < |g.config| ==> g.config[j].0 != g.down.flight[0].body.tunnel
    ensures var g1, id := Next(g, RecvDown(dialOk)), g.down.flight[0].id;
      && g1.localConns == g.localConns && g1.locals == g.locals && Enabled(g1, Refuse)
      && Next(g1, Refuse).up == Push(g.up, Of(id, Close))
  {
    PortIsChosen(g.config, g.down.flight[0].body.tunnel, 0);
  }

  /** A local socket was dialled for one connection, over its protocol and on its
      tunnel's local port: the one in its "open", or the first configured;
      and all it was ever given, from any number of peers sharing the channel,
      is a prefix of what that connection's own peer sent. */
  lemma LocalIsolation(g: Session, config: seq<(string, int)>, acts: seq<Act>, s: LocalSock)
    requires Reached(g, config, acts) && s in g.locals
    ensures Known(g, s.id) && g.recs[s.id.n].sock == Some(s) && s.proto == g.recs[s.id.n].proto
    ensures s.port != 0
    ensures g.recs[s.id.n].port != 0 ==> s.port == g.recs[s.id.n].port
    ensures g.recs[s.id.n].port == 0 ==>
      exists i :: 0 <= i < |config| && config[i].0 == g.recs[s.id.n].tunnel && config[i].1 == s.port
                  && forall j :: 0 <= j < i ==> config[j].0 != g.recs[s.id.n].tunnel
    ensures Everything(g.locals[s].output) <= g.recs[s.id.n].input
  {
    ReachedInv(g, config, acts);
    ConfigStays(Start(config), acts);
    PortIsChosen(config, g.recs[s.id.n].tunnel, g.recs[s.id.n].port);
    AllForOne(g.locals[s].output, s.id);
    ForwardIntegrity(g, config, acts, s.id.n);
  }

  /** Whatever an external peer was given came under connIDs that it opened. */
  lemma PeerIsolation(g: Session, config: seq<(string, int)>, acts: seq<Act>, p: Peer)
    requires Reached(g, config, acts) && p in g.peers
    ensures forall i :: 0 <= i < |g.peers[p].output| ==>
      DeliveredTo(g, p, g.peers[p].output[i].id)
  {
    ReachedInv(g, config, acts);
  }

  /** For a TCP peer, that is one connID: all it was ever given is one block of
      what the socket dialled for its own connection sent. */
  lemma TcpPeerIsolation(g: Session, config: seq<(string, int)>, acts: seq<Act>, n: nat)
    requires Reached(g, config, acts) && n < |g.recs| && g.recs[n].proto.Tcp?
    ensures g.recs[n].peer == Accepted(n) && Accepted(n) in g.peers
    ensures var all, skipped := Everything(g.peers[Accepted(n)].output), |Stream(g.recs[n].before)|;
      skipped + |all| <= |g.recs[n].localInput| && all == g.recs[n].localInput[skipped..skipped + |all|]
  {
    ReachedInv(g, config, acts);
    var out := g.peers[Accepted(n)].output;
    forall i | 0 <= i < |out| ensures out[i].id == Own(n) {
      assert DeliveredTo(g, Accepted(n), out[i].id);
    }
    AllForOne(out, Own(n));
    ReturnIntegrity(g, config, acts, n);
  }

  /** Identifiers of other sessions, which a UDP address entry may still hold,
      reach no socket and no table. */
  lemma StaleReachesNothing(g: Session, config: seq<(string, int)>, acts: seq<Act>, serial: nat)
    requires Reached(g, config, acts)
    ensures Stale(serial) !in g.conns && Stale(serial) !in g.localConns
    ensures forall s, i :: s in g.locals && 0 <= i < |g.locals[s].output| ==> g.locals[s].output[i].id != Stale(serial)
    ensures forall p, i :: p in g.peers && 0 <= i < |g.peers[p].output| ==> g.peers[p].output[i].id != Stale(serial)
  {
    ReachedInv(g, config, acts);
    forall p, i | p in g.peers && 0 <= i < |g.peers[p].output| ensures g.peers[p].output[i].id != Stale(serial) {
      assert DeliveredTo(g, p, g.peers[p].output[i].id);
    }
  }
}
