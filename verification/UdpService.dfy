/** A UDP proxy at work for as long as one session lasts, and from one session to
    the next: whatever datagrams arrive and whatever other goroutines do. */
module UdpServices {
  import opened Frames
  import opened Multiplexer
  import opened MultiplexerView
  import opened UdpGoroutines
  import opened UdpSessions
  import R = RelaySide
  import U = UdpProxies

  // ---- any datagrams, any interleaving ----

  /** The proxy's steps over some datagrams. */
  function ServiceActs(p: U.Proxy, ids: map<nat, ConnId>, t: Tunnel, ds: seq<U.Datagram>, ks: seq<Notes>): seq<Act>
    requires |ks| == |ds|
    decreases |ds|
  {
    if ds == [] then []
    else
      TurnActs(p, ids, t, ds[0], ks[0])
      + ServiceActs(U.Step(p, ds[0]).0, IdsAfter(p, ids, ds[0], ks[0]), t, ds[1..], ks[1..])
  }

  function IdsAtEnd(p: U.Proxy, ids: map<nat, ConnId>, ds: seq<U.Datagram>, ks: seq<Notes>): map<nat, ConnId>
    requires |ks| == |ds|
    decreases |ds|
  {
    if ds == [] then ids
    else IdsAtEnd(U.Step(p, ds[0]).0, IdsAfter(p, ids, ds[0], ks[0]), ds[1..], ks[1..])
  }

  /** Identifiers are drawn afresh, and each sweep covers its idle entries. */
  ghost predicate Sensible(p: U.Proxy, ids: map<nat, ConnId>, ds: seq<U.Datagram>, ks: seq<Notes>)
    requires |ks| == |ds|
    decreases |ds|
  {
    ds == [] ||
    (ds[0].drawn !in ids && Lists(ks[0].order, Swept(p, ds[0]))
     && Sensible(U.Step(p, ds[0]).0, IdsAfter(p, ids, ds[0], ks[0]), ds[1..], ks[1..]))
  }

  /** All that the proxy's answers to some datagrams say about one connID. */
  function AllAnswers(p: U.Proxy, t: Tunnel, ds: seq<U.Datagram>, conn: nat): seq<Body>
    decreases |ds|
  {
    if ds == [] then []
    else Get(Answer(U.Step(p, ds[0]).1, t), conn) + AllAnswers(U.Step(p, ds[0]).0, t, ds[1..], conn)
  }

  /** `ids` only grows, by numbers that were not used before. */
  predicate Grows(ids: map<nat, ConnId>, ids': map<nat, ConnId>, used: nat) {
    && (forall c :: c in ids ==> c in ids' && ids'[c] == ids[c])
    && (forall c :: c in ids' && c !in ids ==> ids'[c].Own? && used <= ids'[c].n)
  }

  lemma GrowsThen(ids: map<nat, ConnId>, ids1: map<nat, ConnId>, ids2: map<nat, ConnId>, used: nat, more: nat)
    requires Grows(ids, ids1, used) && Grows(ids1, ids2, more) && used <= more
    ensures Grows(ids, ids2, used)
  {
  }

  /** On a whole channel, the daemon has been told the proxy's answers. */
  predicate Heard(g: Session, g': Session, ids: map<nat, ConnId>, p: U.Proxy, t: Tunnel, ds: seq<U.Datagram>) {
    g'.down.live ==>
      g.down.live && forall c :: c in ids ==> Told(g', ids[c]) == Told(g, ids[c]) + AllAnswers(p, t, ds, c)
  }

  lemma OneAnswer(p: U.Proxy, t: Tunnel, d: U.Datagram, conn: nat)
    ensures AllAnswers(p, t, [d], conn) == Get(Answer(U.Step(p, d).1, t), conn)
  {
    assert [d][1..] == [];
    assert Get(Answer(U.Step(p, d).1, t), conn) + [] == Get(Answer(U.Step(p, d).1, t), conn);
  }

  lemma AnswerKnown(p: U.Proxy, ids: map<nat, ConnId>, t: Tunnel, d: U.Datagram, k: Notes, conn: nat)
    requires forall a :: a in p.table ==> p.table[a].conn in ids
    requires conn !in IdsAfter(p, ids, d, k)
    ensures Get(Answer(U.Step(p, d).1, t), conn) == []
  {
  }

  lemma UnbornTold(g: Session, g1: Session, id: ConnId)
    requires Unborn(g) && Unborn(g1) && |g.recs| <= |g1.recs| && id.Own? && |g1.recs| <= id.n
    ensures Told(g, id) == [] && Told(g1, id) == []
  {
    assert id == Own(id.n);
  }

  /** A turn says nothing about identifiers that are drawn later. */
  lemma HeardLater(p: U.Proxy, g: Session, g1: Session, t: Tunnel, ids: map<nat, ConnId>, ids': map<nat, ConnId>,
                   d: U.Datagram, k: Notes)
    requires forall a :: a in p.table ==> p.table[a].conn in ids
    requires Unborn(g) && Unborn(g1) && |g.recs| <= |g1.recs|
    requires Said(g, g1, IdsAfter(p, ids, d, k), Answer(U.Step(p, d).1, t))
    requires Grows(IdsAfter(p, ids, d, k), ids', |g1.recs|)
    ensures Heard(g, g1, ids', p, t, [d])
  {
    if g1.down.live {
      forall c | c in ids' ensures Told(g1, ids'[c]) == Told(g, ids'[c]) + AllAnswers(p, t, [d], c) {
        OneAnswer(p, t, d, c);
        if c !in IdsAfter(p, ids, d, k) {
          AnswerKnown(p, ids, t, d, k, c);
          UnbornTold(g, g1, ids'[c]);
        }
      }
    }
  }

  lemma HeardOnce(g: Session, g1: Session, g2: Session, id: ConnId, first: seq<Body>, next: seq<Body>)
    requires Told(g1, id) == Told(g, id) + first && Told(g2, id) == Told(g1, id) + next
    ensures Told(g2, id) == Told(g, id) + (first + next)
  {
  }

  lemma HeardThen(g: Session, g1: Session, g2: Session, ids: map<nat, ConnId>, p: U.Proxy, t: Tunnel,
                  ds: seq<U.Datagram>)
    requires ds != []
    requires Heard(g, g1, ids, p, t, [ds[0]]) && Heard(g1, g2, ids, U.Step(p, ds[0]).0, t, ds[1..])
    ensures Heard(g, g2, ids, p, t, ds)
  {
    if g2.down.live {
      forall c | c in ids ensures Told(g2, ids[c]) == Told(g, ids[c]) + AllAnswers(p, t, ds, c) {
        OneAnswer(p, t, ds[0], c);
        HeardOnce(g, g1, g2, ids[c], AllAnswers(p, t, [ds[0]], c), AllAnswers(U.Step(p, ds[0]).0, t, ds[1..], c));
      }
    }
  }

  /** One turn, as the service sees it. */
  lemma TurnServed(p: U.Proxy, g: Session, acts: seq<Act>, own: seq<Act>, t: Tunnel, ids: map<nat, ConnId>,
                   d: U.Datagram, k: Notes) returns (g': Session, rest: seq<Act>)
    requires Tracks(p.table, g, t, ids) && d.drawn !in ids && Lists(k.order, Swept(p, d))
    requires Runs(g, acts) && Mixes(g, acts, TurnActs(p, ids, t, d, k) + own, t)
    ensures Tracks(U.Step(p, d).0.table, g', t, IdsAfter(p, ids, d, k))
    ensures |g.recs| <= |g'.recs| && Grows(ids, IdsAfter(p, ids, d, k), |g.recs|)
    ensures Said(g, g', IdsAfter(p, ids, d, k), Answer(U.Step(p, d).1, t))
    ensures Runs(g', rest) && Mixes(g', rest, own, t) && Final(g', rest) == Final(g, acts)
  {
    g', rest := TurnMixed(p, g, acts, own, t, ids, d, k);
  }

  /** A UDP proxy in one session: start from any state in which table and session
      agree, take any datagrams, and interleave the proxy's steps in any way with
      those of all other goroutines. Table and session agree in the end; and on a
      whole channel the daemon has been told, about each identifier, exactly the
      proxy's answers for the address it was opened for, in order. */
  lemma {:induction false} ServiceInterleaved(p: U.Proxy, g: Session, acts: seq<Act>, t: Tunnel, ids: map<nat, ConnId>,
                                              ds: seq<U.Datagram>, ks: seq<Notes>)
    requires Tracks(p.table, g, t, ids) && |ks| == |ds| && Sensible(p, ids, ds, ks)
    requires Runs(g, acts) && Mixes(g, acts, ServiceActs(p, ids, t, ds, ks), t)
    ensures Tracks(U.RunAll(p, ds).table, Final(g, acts), t, IdsAtEnd(p, ids, ds, ks))
    ensures Grows(ids, IdsAtEnd(p, ids, ds, ks), |g.recs|)
    ensures Heard(g, Final(g, acts), IdsAtEnd(p, ids, ds, ks), p, t, ds)
    decreases |ds|
  {
    if ds == [] {
      OnlyOthers(g, acts, t);
      StillTracks(p.table, g, Final(g, acts), t, ids);
    } else {
      var p1, ids1 := U.Step(p, ds[0]).0, IdsAfter(p, ids, ds[0], ks[0]);
      var later := ServiceActs(p1, ids1, t, ds[1..], ks[1..]);
      var g1, rest := TurnServed(p, g, acts, later, t, ids, ds[0], ks[0]);
      ServiceInterleaved(p1, g1, rest, t, ids1, ds[1..], ks[1..]);
      var ids' := IdsAtEnd(p, ids, ds, ks);
      GrowsThen(ids, ids1, ids', |g.recs|, |g1.recs|);
      HeardLater(p, g, g1, t, ids, ids', ds[0], ks[0]);
      HeardThen(g, g1, Final(g, acts), ids', p, t, ds);
    }
  }

  // ---- the proxy can always take its turn ----

  lemma MixesOne(g: Session, a: Act, t: Tunnel)
    requires Enabled(g, a) && !Elsewhere(g, a, t)
    ensures Runs(g, [a]) && Final(g, [a]) == Next(g, a) && Mixes(g, [a], [a], t)
  {
    RunsFirst(g, a, []);
    assert [a] + [] == [a];
  }

  lemma StepTaken(g: Session, t: Tunnel, addr: string, n: nat, h: R.HandlerAct)
    requires Serves(g, t, addr, n) && HandlerEnabled(g, n, h) && (h.ExtRead? ==> !h.last)
    ensures var acts := [Handler(n, h)];
      && Runs(g, acts) && Mixes(g, acts, acts, t)
      && Serves(Final(g, acts), t, addr, n) && Leads(h, Final(g, acts).recs[n].handler)
  {
    MixesOne(g, Handler(n, h), t);
    OwnStep(g, t, addr, n, h);
  }

  lemma OpenTaken(g: Session, t: Tunnel, addr: string)
    requires SocketOpen(g, t.id)
    ensures var acts := OpenActs(t, addr, |g.recs|);
      Runs(g, acts) && Mixes(g, acts, acts, t)
  {
    var a, b := NewUdp(t.id, t.port, addr), Handler(|g.recs|, R.Register);
    MixesOne(g, a, t);
    OwnOpen(g, t, addr);
    StepTaken(Next(g, a), t, addr, |g.recs|, R.Register);
    MixesThen(g, [a], [b], [a], [b], t);
    assert [a] + [b] == [a, b];
  }

  lemma DataTaken(g: Session, t: Tunnel, addr: string, id: ConnId, item: Item)
    requires Entry(g, t, addr, id) && Mine(g, t, id) && SocketOpen(g, t.id)
    ensures Runs(g, DataActs(id, item)) && Mixes(g, DataActs(id, item), DataActs(id, item), t)
  {
    match id
    case Own(n) =>
      var a, b := Handler(n, R.ExtRead([item], false)), Handler(n, R.SendData(true));
      StepTaken(g, t, addr, n, R.ExtRead([item], false));
      StepTaken(Final(g, [a]), t, addr, n, R.SendData(true));
      MixesThen(g, [a], [b], [a], [b], t);
      assert [a] + [b] == [a, b];
    case Stale(serial) => MixesOne(g, SendStale(serial, Data([item])), t);
  }

  lemma LeaveTaken(g: Session, t: Tunnel, addr: string, n: nat)
    requires Serves(g, t, addr, n) && g.recs[n].handler.Reading?
    ensures var acts := [Handler(n, R.Expire)] + ([Handler(n, R.Detach)] + [Handler(n, R.CloseDetached)]);
      && Runs(g, acts) && Mixes(g, acts, acts, t)
      && Serves(Final(g, acts), t, addr, n) && Final(g, acts).recs[n].handler.Ending?
  {
    var a, b, c := [Handler(n, R.Expire)], [Handler(n, R.Detach)], [Handler(n, R.CloseDetached)];
    StepTaken(g, t, addr, n, R.Expire);
    var g1 := Final(g, a);
    StepTaken(g1, t, addr, n, R.Detach);
    var g2 := Final(g1, b);
    StepTaken(g2, t, addr, n, R.CloseDetached);
    MixesThen(g1, b, c, b, c, t);
    MixesThen(g, a, b + c, a, b + c, t);
  }

  lemma EndTaken(g: Session, t: Tunnel, addr: string, n: nat)
    requires Serves(g, t, addr, n) && g.recs[n].handler.Ending?
    ensures var acts := [Handler(n, R.SendClose)] + [Handler(n, R.Return)];
      Runs(g, acts) && Mixes(g, acts, acts, t)
  {
    var a, b := [Handler(n, R.SendClose)], [Handler(n, R.Return)];
    StepTaken(g, t, addr, n, R.SendClose);
    StepTaken(Final(g, a), t, addr, n, R.Return);
    MixesThen(g, a, b, a, b, t);
  }

  lemma CloseTaken(g: Session, t: Tunnel, addr: string, id: ConnId)
    requires Entry(g, t, addr, id) && Mine(g, t, id)
    ensures Runs(g, CloseActs(id)) && Mixes(g, CloseActs(id), CloseActs(id), t)
  {
    match id
    case Own(n) =>
      var leave := [Handler(n, R.Expire)] + ([Handler(n, R.Detach)] + [Handler(n, R.CloseDetached)]);
      var end := [Handler(n, R.SendClose)] + [Handler(n, R.Return)];
      LeaveTaken(g, t, addr, n);
      EndTaken(Final(g, leave), t, addr, n);
      MixesThen(g, leave, end, leave, end, t);
      assert leave + end == CloseActs(id);
    case Stale(serial) => MixesOne(g, SendStale(serial, Close), t);
  }

  lemma DropTaken(g: Session, t: Tunnel, addr: string, id: ConnId)
    requires Entry(g, t, addr, id) && Mine(g, t, id)
    ensures Runs(g, DropActs(id)) && Mixes(g, DropActs(id), DropActs(id), t)
  {
    if id.Own? {
      StepTaken(g, t, addr, id.n, R.Abandon);
    }
  }

  lemma OrderTaken(table: map<string, U.Virtual>, ids: map<nat, ConnId>, dropped: set<string>, idle: set<string>,
                   a: string, later: seq<string>)
    requires a in idle && idle <= table.Keys && Lists(later, idle - {a}) && table[a].conn in ids
    ensures Lists([a] + later, idle)
    ensures SweepActs([a] + later, table, ids, dropped) ==
      (if a in dropped then DropActs(ids[table[a].conn]) else CloseActs(ids[table[a].conn]))
      + SweepActs(later, table, ids, dropped)
  {
    assert ([a] + later)[1..] == later;
  }

  lemma {:induction false} SweepTaken(table: map<string, U.Virtual>, g: Session, t: Tunnel, ids: map<nat, ConnId>,
                                      idle: set<string>, dropped: set<string>) returns (order: seq<string>)
    requires Tracks(table, g, t, ids) && idle <= table.Keys
    ensures var acts := SweepActs(order, table, ids, dropped);
      Lists(order, idle) && Runs(g, acts) && Mixes(g, acts, acts, t)
    decreases idle
  {
    if idle == {} {
      return [];
    }
    var a :| a in idle;
    var id := ids[table[a].conn];
    var piece := if a in dropped then DropActs(id) else CloseActs(id);
    if a in dropped {
      DropTaken(g, t, a, id);
    } else {
      CloseTaken(g, t, a, id);
    }
    assert piece + [] == piece;
    var g1, none := SweepOne(table, g, piece, [], t, ids, a, a in dropped);
    OnlyOthers(g1, none, t);
    StillTracks(table - {a}, g1, Final(g, piece), t, ids);
    var later := SweepTaken(table - {a}, Final(g, piece), t, ids, idle - {a}, dropped);
    SweepElsewhere(later, table, ids, dropped, a);
    var tail := SweepActs(later, table, ids, dropped);
    MixesThen(g, piece, tail, piece, tail, t);
    order := [a] + later;
    OrderTaken(table, ids, dropped, idle, a, later);
  }

  lemma DatagramTaken(p: U.Proxy, g: Session, t: Tunnel, ids: map<nat, ConnId>, d: U.Datagram, k: Notes)
    requires Tracks(p.table, g, t, ids) && U.Reaches(p, d) && d.drawn !in ids && k.n == |g.recs|
    ensures var acts := DatagramActs(p, ids, t, d, k);
      Runs(g, acts) && Mixes(g, acts, acts, t) && Tracks(U.Seen(p, d), Final(g, acts), t, IdsAfter(p, ids, d, k))
  {
    var item, ids' := Frames.Datagram(d.payload), IdsAfter(p, ids, d, k);
    var opening := if d.addr in p.table then [] else OpenActs(t, d.addr, k.n);
    var data := DataActs(IdOf(ids', U.Seen(p, d)[d.addr].conn), item);
    if d.addr in p.table {
      DataTaken(g, t, d.addr, ids[p.table[d.addr].conn], item);
      assert opening + data == data;
    } else {
      OpenTaken(g, t, d.addr);
      assert opening + [] == opening;
      var g1, none := NewMixed(p, g, opening, [], t, ids, d, k.n);
      OnlyOthers(g1, none, t);
      StillTracks(U.Seen(p, d), g1, Final(g, opening), t, ids');
      DataTaken(Final(g, opening), t, d.addr, Own(k.n), item);
      MixesThen(g, opening, data, opening, data, t);
    }
    var acts := opening + data;
    assert acts + [] == acts;
    var g2, none2 := DatagramMixed(p, g, acts, [], t, ids, d, k);
    OnlyOthers(g2, none2, t);
    StillTracks(U.Seen(p, d), g2, Final(g, acts), t, ids');
  }

  /** Whenever table and session agree, a turn that reaches the cleanup check can
      be taken: no step of it has to wait for anyone. */
  lemma TurnTaken(p: U.Proxy, g: Session, t: Tunnel, ids: map<nat, ConnId>, d: U.Datagram) returns (k: Notes)
    requires Tracks(p.table, g, t, ids) && U.Reaches(p, d) && d.drawn !in ids
    ensures Lists(k.order, Swept(p, d))
    ensures var acts := TurnActs(p, ids, t, d, k);
      Runs(g, acts) && Mixes(g, acts, acts, t)
  {
    k := Notes(|g.recs|, []);
    var ids', first := IdsAfter(p, ids, d, k), DatagramActs(p, ids, t, d, k);
    DatagramTaken(p, g, t, ids, d, k);
    var order := SweepTaken(U.Seen(p, d), Final(g, first), t, ids', Swept(p, d), d.gone + d.moved);
    k := k.(order := order);
    var sweep := SweepActs(order, U.Seen(p, d), ids', d.gone + d.moved);
    MixesThen(g, first, sweep, first, sweep, t);
  }

  // ---- where a proxy starts, and what a new session finds ----

  lemma {:induction false} NoFramesFor(fs: seq<Frame>, id: ConnId)
    requires forall i :: 0 <= i < |fs| ==> fs[i].Of? ==> fs[i].id != id
    ensures FramesFor(fs, id) == []
  {
    if fs != [] {
      NoFramesFor(fs[..|fs| - 1], id);
    }
  }

  lemma RoutedUnborn(g: Session)
    requires FramesRouted(g)
    ensures Unborn(g)
  {
    forall n: nat | |g.recs| <= n ensures Told(g, Own(n)) == [] {
      forall i | 0 <= i < |g.down.sent| ensures g.down.sent[i].Of? ==> g.down.sent[i].id != Own(n) {
        assert DownRouted(g, g.down.sent[i]);
      }
      NoFramesFor(g.down.sent, Own(n));
    }
  }

  /** The daemon has reconnected: the table's entries stand for identifiers of
      another session, and in any session in which the tunnel's proxy has opened
      nothing yet they agree with it. An empty table is the case of a new tunnel. */
  lemma EntriesOutliveSession(table: map<string, U.Virtual>, g: Session, tunnel: string, port: int)
    requires Routing(g) && tunnel !in g.stopped && Apart(table)
    requires forall n :: 0 <= n < |g.recs| ==> g.recs[n].peer.Source? ==> g.recs[n].peer.tunnel != tunnel
    ensures var conns := set a | a in table :: table[a].conn;
      Tracks(table, g, Tunnel(tunnel, port, conns), map c | c in conns :: Stale(c))
  {
    RoutedUnborn(g);
    forall p | p in g.peers && p.Source? && p.tunnel == tunnel ensures !g.peers[p].closed && !g.peers[p].dead {
      assert SourceOk(g, p, g.peers[p]);
    }
  }

  /** A sweep whose lookup finds another session closes the entry there, under an
      identifier that session does not know: one frame, and nothing else. */
  lemma StrayIsStep(h: Session, conn: nat)
    ensures var a := SendStale(conn, Close);
      Enabled(h, a) && Next(h, a) == h.(down := Push(h.down, Of(Stale(conn), Close)))
  {
  }
}
