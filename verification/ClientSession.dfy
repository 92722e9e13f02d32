/** The relay's session object as the program writes it: a table, an encoder and
    methods that change them. Each method is proved against its effect on the
    tables, and each effect is what the session machine does when the method's
    critical sections run with nothing in between. */
module ClientSessions {
  import opened Frames
  import opened Multiplexer
  import opened MultiplexerView
  import MultiplexerRouting
  import R = RelaySide

  /** What the session's methods can see and change. */
  datatype Tables = Tables(conns: map<ConnId, Peer>, peers: map<Peer, Wire>, down: Link<Frame>)

  function TablesOf(g: Session): Tables { Tables(g.conns, g.peers, g.down) }

  function CloseConnEffect(t: Tables, id: ConnId, sendFrame: bool): Tables {
    Tables(Remove(t.conns, id),
           if id in t.conns then ClosePeer(t.peers, t.conns[id]) else t.peers,
           if sendFrame then Push(t.down, Of(id, Close)) else t.down)
  }

  /** openConn is handed the external connection as it is: `wire`, unless it is
      known already. When "open" cannot be sent, it is not registered. */
  function OpenConnEffect(t: Tables, id: ConnId, open: Body, peer: Peer, wire: Wire, ok: bool): Tables {
    var peers := if peer in t.peers then t.peers else t.peers[peer := wire];
    if ok then Tables(t.conns[id := peer], peers, Push(t.down, Of(id, open))) else t.(peers := peers)
  }

  function WriteEffect(t: Tables, id: ConnId, data: seq<Item>, k: nat): Tables {
    if id in t.conns && t.conns[id] in t.peers
    then t.(peers := t.peers[t.conns[id] := WireWrite(t.peers[t.conns[id]], id, data, Took(k, data))])
    else t
  }

  function CloseAllEffect(t: Tables): Tables {
    t.(conns := map[],
       peers := map p | p in t.peers ::
         if p.Accepted? && p in t.conns.Values then t.peers[p].(closed := true) else t.peers[p])
  }

  /** One frame through the dispatch loop; k is how much a Write would take. */
  function DispatchEffect(t: Tables, f: Frame, k: nat): Tables {
    match f
    case Ping => t.(down := Push(t.down, Pong))
    case Pong => t
    case Of(id, Data(data)) => WriteEffect(t, id, data, k)
    case Of(id, Close) => CloseConnEffect(t, id, false)
    case Of(_, Open(_, _, _)) => t
  }

  /** What happens to a session while it is served: a frame arrives, of which a
      Write would take k bytes, or a proxy handler opens or closes a connection. */
  datatype Event =
    | Arrives(frame: Frame, k: nat)
    | Opens(id: ConnId, open: Body, peer: Peer, wire: Wire)
    | Closes(id: ConnId)

  function EventEffect(t: Tables, e: Event, lucky: bool): Tables {
    match e
    case Arrives(frame, k) => DispatchEffect(t, frame, k)
    case Opens(id, open, peer, wire) => OpenConnEffect(t, id, open, peer, wire, t.down.live || lucky)
    case Closes(id) => CloseConnEffect(t, id, true)
  }

  function ServeEffect(t: Tables, es: seq<Event>, lucky: bool): Tables {
    if es == [] then t else EventEffect(ServeEffect(t, es[..|es| - 1], lucky), es[|es| - 1], lucky)
  }

  class ClientSession {
    var conns: map<ConnId, Peer>
    var peers: map<Peer, Wire>
    var down: Link<Frame>

    function State(): Tables
      reads this
    {
      Tables(conns, peers, down)
    }

    constructor (down: Link<Frame>)
      ensures State() == Tables(map[], map[], down)
    {
      this.conns, this.peers, this.down := map[], map[], down;
    }

    /** A broken channel may fail or silently lose the frame: `lucky` says which. */
    method Send(f: Frame, lucky: bool) returns (ok: bool)
      modifies this
      ensures State() == old(State()).(down := Push(old(down), f))
      ensures ok == (old(down.live) || lucky)
    {
      ok := down.live || lucky;
      down := Push(down, f);
    }

    method OpenConn(id: ConnId, open: Body, peer: Peer, wire: Wire, lucky: bool) returns (ok: bool)
      modifies this
      ensures ok == (old(down.live) || lucky)
      ensures State() == OpenConnEffect(old(State()), id, open, peer, wire, ok)
    {
      if peer !in peers {
        peers := peers[peer := wire];
      }
      ok := Send(Of(id, open), lucky);
      if ok {
        conns := conns[id := peer];
      }
    }

    method CloseConn(id: ConnId, sendFrame: bool, lucky: bool)
      modifies this
      ensures State() == CloseConnEffect(old(State()), id, sendFrame)
    {
      var conn := Lookup(conns, id);
      conns := Remove(conns, id);
      if conn.Some? {
        peers := ClosePeer(peers, conn.value);
      }
      if sendFrame {
        var _ := Send(Of(id, Close), lucky);
      }
    }

    method WriteToExternal(id: ConnId, data: seq<Item>, k: nat)
      modifies this
      ensures State() == WriteEffect(old(State()), id, data, k)
    {
      var conn := Lookup(conns, id);
      if conn.Some? && conn.value in peers {
        peers := peers[conn.value := WireWrite(peers[conn.value], id, data, Took(k, data))];
      }
    }

    method CloseAllExternal()
      modifies this
      ensures State() == CloseAllEffect(old(State()))
    {
      var todo := conns.Keys;
      while todo != {}
        invariant todo <= old(conns).Keys && conns == old(conns) && down == old(down)
        invariant peers.Keys == old(peers).Keys
        invariant forall p :: p in peers ==>
          peers[p] == if exists id :: id in old(conns).Keys - todo && p == old(conns)[id] && p.Accepted?
                      then old(peers)[p].(closed := true) else old(peers)[p]
        decreases |todo|
      {
        var id :| id in todo;
        peers := ClosePeer(peers, conns[id]);
        todo := todo - {id};
      }
      conns := map[];
    }

    method Dispatch(f: Frame, k: nat, lucky: bool)
      modifies this
      ensures State() == DispatchEffect(old(State()), f, k)
    {
      match f
      case Ping =>
        var _ := Send(Pong, lucky);
      case Pong =>
      case Of(id, body) =>
        match body {
          case Data(data) => WriteToExternal(id, data, k);
          case Close => CloseConn(id, false, lucky);
          case Open(_, _, _) =>
        }
    }

    /** The read loop of HandleControlConn until decoding fails, with the calls
        that proxy handlers make between its frames. */
    method Serve(es: seq<Event>, lucky: bool)
      modifies this
      ensures State() == ServeEffect(old(State()), es, lucky)
    {
      for i := 0 to |es|
        invariant State() == ServeEffect(old(State()), es[..i], lucky)
      {
        match es[i] {
          case Arrives(frame, k) => Dispatch(frame, k, lucky);
          case Opens(id, open, peer, wire) =>
            var _ := OpenConn(id, open, peer, wire, lucky);
          case Closes(id) => CloseConn(id, true, lucky);
        }
        assert es[..i + 1][..i] == es[..i];
      }
      assert es[..|es|] == es;
    }
  }

  // ---- the methods are runs of the session machine ----

  lemma DetachCloses(g: Session, n: nat)
    requires PeersRouted(g) && n < |g.recs| && g.recs[n].handler.Leaving?
    ensures var g1 := HandlerNext(g, n, R.Detach);
      && HandlerEnabled(g1, n, R.CloseDetached)
      && var g2 := HandlerNext(g1, n, R.CloseDetached);
         HandlerEnabled(g2, n, R.SendClose) && TablesOf(g2) == CloseConnEffect(TablesOf(g), Own(n), false)
  {
  }

  lemma CloseConnIsRun(g: Session, n: nat)
    requires Routing(g) && n < |g.recs| && g.recs[n].handler.Leaving?
    ensures var acts := [Handler(n, R.Detach)] + [Handler(n, R.CloseDetached)] + [Handler(n, R.SendClose)];
      Runs(g, acts) && TablesOf(Final(g, acts)) == CloseConnEffect(TablesOf(g), Own(n), true)
  {
    var a, b, c := Handler(n, R.Detach), Handler(n, R.CloseDetached), Handler(n, R.SendClose);
    DetachCloses(g, n);
    var g1 := HandlerNext(g, n, R.Detach);
    var g2 := HandlerNext(g1, n, R.CloseDetached);
    assert g1 == Next(g, a) && g2 == Next(g1, b);
    RunsThree(g, a, b, c);
  }

  lemma OpenConnIsRun(g: Session, tunnel: string, port: int)
    ensures var n := |g.recs|;
      var acts := [NewTcp(tunnel, port)] + [Handler(n, R.Register)];
      && Runs(g, acts)
      && TablesOf(Final(g, acts))
         == OpenConnEffect(TablesOf(g), Own(n), Open(tunnel, port, Tcp), Accepted(n), NEW_WIRE, true)
  {
    var a, b := NewTcp(tunnel, port), Handler(|g.recs|, R.Register);
    var g1 := OpenConn(g, Tcp, Accepted(|g.recs|), tunnel, port);
    assert g1 == Next(g, a) && HandlerEnabled(g1, |g.recs|, R.Register);
    RunsFirst(g1, b, []);
    RunsFirst(g, a, [b] + []);
    assert [b] + [] == [b];
  }

  /** On a broken channel openConn may fail; all that is left is to hang up. */
  lemma OpenFailsIsRun(g: Session, tunnel: string, port: int)
    requires !g.down.live
    ensures var n := |g.recs|;
      var acts := [NewTcp(tunnel, port)] + [Handler(n, R.OpenFails)];
      && Runs(g, acts)
      && TablesOf(Final(g, acts))
         == OpenConnEffect(TablesOf(g), Own(n), Open(tunnel, port, Tcp), Accepted(n), NEW_WIRE, false)
      && |Final(g, acts).recs| == n + 1 && Final(g, acts).recs[n].handler.Returning?
  {
    var a, b := NewTcp(tunnel, port), Handler(|g.recs|, R.OpenFails);
    var g1 := OpenConn(g, Tcp, Accepted(|g.recs|), tunnel, port);
    assert g1 == Next(g, a) && HandlerEnabled(g1, |g.recs|, R.OpenFails);
    RunsFirst(g1, b, []);
    RunsFirst(g, a, [b] + []);
    assert [b] + [] == [b];
  }

  /** The step that finishes what RecvUp began, if there is one. */
  function Finish(d: Dispatch, k: nat): seq<Act> {
    match d
    case Idle => []
    case Ponging => [SendPong]
    case WritingTo(_, _, data) => [WriteExt(Took(k, data))]
    case Closing(_, _) => [CloseExt]
  }

  /** What that step does to the tables. */
  function FinishEffect(t: Tables, d: Dispatch, k: nat): Tables {
    match d
    case Idle => t
    case Ponging => t.(down := Push(t.down, Pong))
    case WritingTo(id, p, data) =>
      if p in t.peers then t.(peers := t.peers[p := WireWrite(t.peers[p], id, data, Took(k, data))]) else t
    case Closing(id, p) => t.(peers := ClosePeer(t.peers, p))
  }

  lemma FinishRuns(g: Session, k: nat)
    requires LoopsRouted(g) && PeersRouted(g)
    requires g.dispatch.WritingTo? && g.dispatch.peer.Source? ==> k >= |g.dispatch.data|
    ensures Runs(g, Finish(g.dispatch, k))
    ensures TablesOf(Final(g, Finish(g.dispatch, k))) == FinishEffect(TablesOf(g), g.dispatch, k)
  {
    var rest := Finish(g.dispatch, k);
    if rest != [] {
      assert Enabled(g, rest[0]);
      RunsFirst(g, rest[0], []);
      assert rest == [rest[0]] + [];
    }
  }

  lemma ReceiptEffect(g: Session, k: nat)
    requires Enabled(g, RecvUp)
    ensures var g' := RecvUpNext(g);
      DispatchEffect(TablesOf(g), g.up.flight[0], k) == FinishEffect(TablesOf(g'), g'.dispatch, k)
  {
    var f, g' := g.up.flight[0], RecvUpNext(g);
    assert TablesOf(g') == TablesOf(g).(conns := g'.conns);
    if f.Of? && f.id !in g.conns {
      assert g'.conns == g.conns;
    }
  }

  /** A frame's whole turn: taking it off the channel, then finishing with it.
      A UDP peer takes each datagram whole. */
  lemma DispatchIsRun(g: Session, k: nat)
    requires Routing(g) && Enabled(g, RecvUp)
    requires RecvUpNext(g).dispatch.WritingTo? && RecvUpNext(g).dispatch.peer.Source? ==>
      k >= |RecvUpNext(g).dispatch.data|
    ensures var acts := [RecvUp] + Finish(RecvUpNext(g).dispatch, k);
      Runs(g, acts) && TablesOf(Final(g, acts)) == DispatchEffect(TablesOf(g), g.up.flight[0], k)
  {
    var g' := RecvUpNext(g);
    MultiplexerRouting.RecvUpRouted(g);
    FinishRuns(g', k);
    RunsFirst(g, RecvUp, Finish(g'.dispatch, k));
    ReceiptEffect(g, k);
  }

  /** closeAllExternal is one step, taken when the loop has ended. */
  lemma CloseAllIsRun(g: Session)
    requires g.loop.Draining?
    ensures Runs(g, [CloseAll]) && TablesOf(Final(g, [CloseAll])) == CloseAllEffect(TablesOf(g))
  {
    RunsFirst(g, CloseAll, []);
    assert [CloseAll] + [] == [CloseAll];
  }

  // ---- what a session leaves behind ----

  /** Identifiers are never drawn twice. */
  predicate FreshIds(t: Tables, es: seq<Event>) {
    forall i :: 0 <= i < |es| && es[i].Opens? ==>
      && es[i].id !in t.conns
      && forall j :: 0 <= j < i && es[j].Opens? ==> es[j].id != es[i].id
  }

  /** Every external connection that was ever registered. */
  function EverIn(t: Tables, es: seq<Event>, lucky: bool): set<Peer> {
    if es == [] then t.conns.Values
    else EverIn(t, es[..|es| - 1], lucky) + ServeEffect(t, es, lucky).conns.Values
  }

  lemma EventKeepsPeers(t: Tables, e: Event, lucky: bool)
    ensures t.peers.Keys <= EventEffect(t, e, lucky).peers.Keys
    ensures forall p :: p in t.peers && t.peers[p].closed ==> EventEffect(t, e, lucky).peers[p].closed
  {
  }

  /** What leaves the table is closed; what enters it has a fresh identifier. */
  lemma EventClosesWhatLeaves(t: Tables, e: Event, lucky: bool)
    requires t.conns.Values <= t.peers.Keys && (e.Opens? ==> e.id !in t.conns)
    ensures var t' := EventEffect(t, e, lucky);
      && t'.conns.Values <= t'.peers.Keys
      && t'.conns.Keys <= t.conns.Keys + (if e.Opens? then {e.id} else {})
      && forall p :: p in t.conns.Values && p.Accepted? ==>
           p in t'.peers && (t'.peers[p].closed || p in t'.conns.Values)
  {
    var t' := EventEffect(t, e, lucky);
    forall p | p in t.conns.Values && p.Accepted?
      ensures p in t'.peers && (t'.peers[p].closed || p in t'.conns.Values)
    {
      var id :| id in t.conns && t.conns[id] == p;
      if id in t'.conns {
        assert t'.conns[id] == p;
      }
    }
  }

  lemma {:induction false} ClosedOrRegistered(t: Tables, es: seq<Event>, lucky: bool)
    requires t.conns.Values <= t.peers.Keys && FreshIds(t, es)
    ensures var t' := ServeEffect(t, es, lucky);
      && t'.conns.Values <= t'.peers.Keys
      && (forall id :: id in t'.conns ==> id in t.conns || exists i :: 0 <= i < |es| && es[i].Opens? && es[i].id == id)
      && (forall p :: p in EverIn(t, es, lucky) && p.Accepted? ==>
            p in t'.peers && (t'.peers[p].closed || p in t'.conns.Values))
  {
    if es != [] {
      var init, e := es[..|es| - 1], es[|es| - 1];
      ClosedOrRegistered(t, init, lucky);
      var t1, t' := ServeEffect(t, init, lucky), ServeEffect(t, es, lucky);
      EventClosesWhatLeaves(t1, e, lucky);
      EventKeepsPeers(t1, e, lucky);
      forall id | id in t'.conns
        ensures id in t.conns || exists i :: 0 <= i < |es| && es[i].Opens? && es[i].id == id
      {
        if id in t1.conns && id !in t.conns {
          var i :| 0 <= i < |init| && init[i].Opens? && init[i].id == id;
          assert es[i].Opens? && es[i].id == id;
        } else if id !in t.conns {
          assert es[|es| - 1].Opens? && es[|es| - 1].id == id;
        }
      }
    }
  }

  /** Whatever frames came in and whatever handlers did meanwhile: once the
      session has been served and torn down, no connection is registered and
      every TCP connection that ever was is closed. (A handler may still register
      one afterwards; SessionTeardown says when.) */
  lemma SessionLeavesNothingOpen(t: Tables, es: seq<Event>, lucky: bool)
    requires t.conns.Values <= t.peers.Keys && FreshIds(t, es)
    ensures var t' := CloseAllEffect(ServeEffect(t, es, lucky));
      t'.conns == map[] && forall p :: p in EverIn(t, es, lucky) && p.Accepted? ==> p in t'.peers && t'.peers[p].closed
  {
    ClosedOrRegistered(t, es, lucky);
  }

  /** Frames from the daemon never add to the table or redirect it; a TCP
      connection they take out of it is closed. */
  lemma {:induction false} ServeOnlyRemoves(t: Tables, es: seq<Event>, lucky: bool)
    requires t.conns.Values <= t.peers.Keys && forall i :: 0 <= i < |es| ==> es[i].Arrives?
    ensures var t' := ServeEffect(t, es, lucky);
      && t.peers.Keys <= t'.peers.Keys
      && t'.conns.Keys <= t.conns.Keys && (forall id :: id in t'.conns ==> t'.conns[id] == t.conns[id])
      && (forall id :: id in t.conns && id !in t'.conns && t.conns[id].Accepted? ==> t'.peers[t.conns[id]].closed)
  {
    if es != [] {
      var init, e := es[..|es| - 1], es[|es| - 1];
      ServeOnlyRemoves(t, init, lucky);
      EventKeepsPeers(ServeEffect(t, init, lucky), e, lucky);
    }
  }
}
