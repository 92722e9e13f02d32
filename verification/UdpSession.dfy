/** The address table of a UDP proxy and the session it feeds. Whatever the other
    goroutines do between its steps, each datagram goes out under the connID of its
    own address, and table and session keep agreeing. Entries may have outlived an
    earlier session. */
module UdpSessions {
  import opened Frames
  import opened Multiplexer
  import opened UdpGoroutines
  import R = RelaySide
  import U = UdpProxies

  /** What a table entry stands for in this session: a connection that waits for
      the next datagram of its source, or an identifier of another session. */
  predicate Entry(g: Session, t: Tunnel, addr: string, id: ConnId) {
    id.Own? ==> Serves(g, t, addr, id.n) && g.recs[id.n].handler.Reading?
  }

  predicate Apart(table: map<string, U.Virtual>) {
    forall a, b :: a in table && b in table && a != b ==> table[a].conn != table[b].conn
  }

  /** `ids` translates the proxy's connIDs; different ones stay different. */
  ghost predicate Tracks(table: map<string, U.Virtual>, g: Session, t: Tunnel, ids: map<nat, ConnId>) {
    && SocketOpen(g, t.id) && Unborn(g) && NoneOpening(g, t)
    && (forall a :: a in table ==> table[a].conn in ids && Entry(g, t, a, ids[table[a].conn]))
    && Apart(table)
    && (forall c, e :: c in ids && e in ids && c != e ==> ids[c] != ids[e])
    && (forall c :: c in ids ==> Mine(g, t, ids[c]))
  }

  /** What was said about each identifier, by connID; nothing on a broken channel. */
  ghost predicate Said(g: Session, g': Session, ids: map<nat, ConnId>, said: map<nat, seq<Body>>) {
    && |g.recs| <= |g'.recs| && (g'.down.live ==> g.down.live)
    && (g'.down.live ==> forall c :: c in ids ==>
          Told(g', ids[c]) == Told(g, ids[c]) + (if c in said then said[c] else []))
  }

  function Get(said: map<nat, seq<Body>>, conn: nat): seq<Body> { if conn in said then said[conn] else [] }

  lemma SaidThen(g: Session, g1: Session, g2: Session, ids: map<nat, ConnId>,
                 first: map<nat, seq<Body>>, next: map<nat, seq<Body>>, all: map<nat, seq<Body>>)
    requires Said(g, g1, ids, first) && Said(g1, g2, ids, next)
    requires forall c :: c in ids ==> Get(all, c) == Get(first, c) + Get(next, c)
    ensures Said(g, g2, ids, all)
  {
    if g2.down.live {
      forall c | c in ids ensures Told(g2, ids[c]) == Told(g, ids[c]) + Get(all, c) {
        assert (Told(g, ids[c]) + Get(first, c)) + Get(next, c) == Told(g, ids[c]) + (Get(first, c) + Get(next, c));
      }
    }
  }

  lemma SaidTwice(g: Session, g1: Session, g2: Session, ids: map<nat, ConnId>, conn: nat,
                  fs: seq<Body>, more: seq<Body>)
    requires Said(g, g1, ids, map[conn := fs]) && Said(g1, g2, ids, map[conn := more])
    ensures Said(g, g2, ids, map[conn := fs + more])
  {
    SaidThen(g, g1, g2, ids, map[conn := fs], map[conn := more], map[conn := fs + more]);
  }

  lemma Regroup(a: seq<Act>, b: seq<Act>, c: seq<Act>)
    ensures a + b + c == a + (b + c)
  {
  }

  // ---- what keeps table and session in agreement ----

  lemma EntryKept(g: Session, g': Session, t: Tunnel, addr: string, id: ConnId)
    requires Entry(g, t, addr, id) && Same(g, g', id) && g.peers.Keys <= g'.peers.Keys
    ensures Entry(g', t, addr, id)
  {
  }

  /** The steps of the others keep it, whole. */
  lemma StillTracks(table: map<string, U.Virtual>, g: Session, g': Session, t: Tunnel, ids: map<nat, ConnId>)
    requires Tracks(table, g, t, ids) && Still(g, g', t)
    ensures Tracks(table, g', t, ids) && Said(g, g', ids, map[])
  {
    forall c | c in ids ensures Same(g, g', ids[c]) && Mine(g', t, ids[c]) {
      assert Mine(g, t, ids[c]);
    }
    forall a | a in table ensures Entry(g', t, a, ids[table[a].conn]) {
      EntryKept(g, g', t, a, ids[table[a].conn]);
    }
    forall n | 0 <= n < |g'.recs| && OfTunnel(g'.recs[n], t) ensures !g'.recs[n].handler.Opening? {
      assert n < |g.recs| && Mine(g, t, Own(n)) && Same(g, g', Own(n));
    }
  }

  lemma NoneOpens(g: Session, g': Session, t: Tunnel, id: ConnId, fs: seq<Body>)
    requires NoneOpening(g, t) && Beside(g, g', t, id, fs)
    requires id.Own? ==> id.n < |g'.recs| && !g'.recs[id.n].handler.Opening?
    ensures NoneOpening(g', t)
  {
    forall n | 0 <= n < |g'.recs| && OfTunnel(g'.recs[n], t) ensures !g'.recs[n].handler.Opening? {
      if n < |g.recs| && Own(n) != id {
        assert Mine(g, t, Own(n)) && Same(g, g', Own(n));
      }
    }
  }

  /** A step of the proxy keeps it for every address but the one it is about. */
  lemma BesideTracks(table: map<string, U.Virtual>, g: Session, g': Session, t: Tunnel, ids: map<nat, ConnId>,
                     conn: nat, fs: seq<Body>)
    requires Tracks(table, g, t, ids) && conn in ids && Beside(g, g', t, ids[conn], fs)
    requires forall a :: a in table ==> table[a].conn != conn
    requires ids[conn].Own? ==> ids[conn].n < |g'.recs| && !g'.recs[ids[conn].n].handler.Opening?
    ensures Tracks(table, g', t, ids) && Said(g, g', ids, map[conn := fs])
  {
    forall c | c in ids && c != conn ensures Same(g, g', ids[c]) {
      assert Mine(g, t, ids[c]) && ids[c] != ids[conn];
    }
    forall a | a in table ensures Entry(g', t, a, ids[table[a].conn]) {
      EntryKept(g, g', t, a, ids[table[a].conn]);
    }
    NoneOpens(g, g', t, ids[conn], fs);
  }

  function With(table: map<string, U.Virtual>, a: string, conn: nat, now: int): map<string, U.Virtual> {
    table[a := U.Virtual(conn, now)]
  }

  /** The same, with the entry put back, or in, for the address it is about. */
  lemma EntryTracks(table: map<string, U.Virtual>, g: Session, t: Tunnel, ids: map<nat, ConnId>,
                    a: string, conn: nat, now: int)
    requires Tracks(table - {a}, g, t, ids) && conn in ids && Entry(g, t, a, ids[conn])
    requires forall b :: b in table && b != a ==> table[b].conn != conn
    ensures Tracks(With(table, a, conn, now), g, t, ids)
  {
    var with := With(table, a, conn, now);
    forall b | b in with && b != a ensures with[b] == (table - {a})[b] {
    }
  }

  // ---- the steps of one turn ----

  function IdOf(ids: map<nat, ConnId>, conn: nat): ConnId { if conn in ids then ids[conn] else Stale(0) }

  function OpenActs(t: Tunnel, addr: string, n: nat): seq<Act> {
    [NewUdp(t.id, t.port, addr), Handler(n, R.Register)]
  }

  function DataActs(id: ConnId, item: Item): seq<Act> {
    match id
    case Own(n) => [Handler(n, R.ExtRead([item], false)), Handler(n, R.SendData(true))]
    case Stale(serial) => [SendStale(serial, Data([item]))]
  }

  /** closeConn on an idle entry, in this session. */
  function CloseActs(id: ConnId): seq<Act> {
    match id
    case Own(n) =>
      [Handler(n, R.Expire), Handler(n, R.Detach), Handler(n, R.CloseDetached), Handler(n, R.SendClose),
       Handler(n, R.Return)]
    case Stale(serial) => [SendStale(serial, Close)]
  }

  /** An idle entry whose turn finds no session, or another one. */
  function DropActs(id: ConnId): seq<Act> {
    match id
    case Own(n) => [Handler(n, R.Abandon)]
    case Stale(_) => []
  }

  /** The sweep over idle addresses, as the table happens to list them. */
  function SweepActs(order: seq<string>, table: map<string, U.Virtual>, ids: map<nat, ConnId>, dropped: set<string>)
    : seq<Act>
  {
    if order == [] || order[0] !in table then []
    else
      var id := IdOf(ids, table[order[0]].conn);
      (if order[0] in dropped then DropActs(id) else CloseActs(id)) + SweepActs(order[1..], table, ids, dropped)
  }

  // ---- each piece, among the steps of the others ----

  /** Only one connection of the tunnel is being opened: the new one. */
  lemma OnlyOneOpening(g: Session, g1: Session, t: Tunnel, m: nat, fs: seq<Body>)
    requires NoneOpening(g, t) && Beside(g, g1, t, Own(m), fs) && |g1.recs| == m + 1
    ensures forall n :: 0 <= n < m && OfTunnel(g1.recs[n], t) ==> !g1.recs[n].handler.Opening?
  {
    forall n | 0 <= n < m && OfTunnel(g1.recs[n], t) ensures !g1.recs[n].handler.Opening? {
      if n < |g.recs| {
        assert Mine(g, t, Own(n)) && Same(g, g1, Own(n));
      }
    }
  }

  lemma RegisterIsNew(g: Session, g1: Session, acts: seq<Act>, own: seq<Act>, t: Tunnel, n: nat, m: nat)
    requires NoneOpening(g, t) && Beside(g, g1, t, Own(m), [Open(t.id, t.port, Udp)]) && |g1.recs| == m + 1
    requires Runs(g1, acts) && Mixes(g1, acts, own, t) && own != []
    requires own[0] == Handler(n, R.Register) || own[0] == Handler(n, R.OpenFails)
    ensures n == m
  {
    var g2, rest := Peel(g1, acts, own, t);
    assert OfTunnel(g2.recs[n], t) && g2.recs[n].handler.Opening?;
    assert n < |g1.recs| && Mine(g1, t, Own(n)) && Same(g1, g2, Own(n));
    OnlyOneOpening(g, g1, t, m, [Open(t.id, t.port, Udp)]);
  }

  lemma OpenMixed(g: Session, acts: seq<Act>, own: seq<Act>, t: Tunnel, addr: string, n: nat)
    returns (g': Session, rest: seq<Act>)
    requires Runs(g, acts) && Mixes(g, acts, OpenActs(t, addr, n) + own, t)
    requires SocketOpen(g, t.id) && Unborn(g) && NoneOpening(g, t)
    ensures |g.recs| <= n && Beside(g, g', t, Own(n), [Open(t.id, t.port, Udp)]) && Entry(g', t, addr, Own(n))
    ensures Runs(g', rest) && Mixes(g', rest, own, t) && Final(g', rest) == Final(g, acts)
  {
    var all := OpenActs(t, addr, n) + own;
    var g1, rest1, m := PeelOpen(g, acts, all, t, addr);
    assert all[1..] == [Handler(n, R.Register)] + own;
    RegisterIsNew(g, g1, rest1, all[1..], t, n, m);
    g', rest := PeelHandler(g1, rest1, all[1..], t, addr, n, R.Register);
    assert all[1..][1..] == own;
    BesideThen(g, g1, g', t, Own(n), [Open(t.id, t.port, Udp)], []);
    assert [Open(t.id, t.port, Udp)] + [] == [Open(t.id, t.port, Udp)];
  }

  lemma DataMixed(g: Session, acts: seq<Act>, own: seq<Act>, t: Tunnel, addr: string, id: ConnId, item: Item)
    returns (g': Session, rest: seq<Act>)
    requires Runs(g, acts) && Mixes(g, acts, DataActs(id, item) + own, t)
    requires Entry(g, t, addr, id) && Mine(g, t, id)
    ensures Beside(g, g', t, id, [Data([item])]) && Entry(g', t, addr, id)
    ensures Runs(g', rest) && Mixes(g', rest, own, t) && Final(g', rest) == Final(g, acts)
  {
    var all := DataActs(id, item) + own;
    match id
    case Own(n) =>
      var g1, rest1 := PeelHandler(g, acts, all, t, addr, n, R.ExtRead([item], false));
      g', rest := PeelHandler(g1, rest1, all[1..], t, addr, n, R.SendData(true));
      assert all[1..][1..] == own;
      BesideThen(g, g1, g', t, id, [], [Data([item])]);
      assert [] + [Data([item])] == [Data([item])];
    case Stale(serial) =>
      g', rest := PeelForeign(g, acts, all, t, serial, Data([item]));
      assert all[1..] == own;
  }

  /** The handler has ended, or been abandoned. */
  predicate Over(g: Session, id: ConnId) { id.Own? ==> id.n < |g.recs| && !g.recs[id.n].handler.Opening? }

  lemma DropMixed(g: Session, acts: seq<Act>, own: seq<Act>, t: Tunnel, addr: string, id: ConnId)
    returns (g': Session, rest: seq<Act>)
    requires Runs(g, acts) && Mixes(g, acts, DropActs(id) + own, t)
    requires Entry(g, t, addr, id) && Mine(g, t, id)
    ensures Beside(g, g', t, id, []) && Over(g', id)
    ensures Runs(g', rest) && Mixes(g', rest, own, t) && Final(g', rest) == Final(g, acts)
  {
    var all := DropActs(id) + own;
    match id
    case Own(n) =>
      g', rest := PeelHandler(g, acts, all, t, addr, n, R.Abandon);
      assert all[1..] == own;
    case Stale(serial) =>
      g', rest := g, acts;
      assert all == own;
  }

  lemma BesideTwice(g: Session, g1: Session, g2: Session, t: Tunnel, id: ConnId)
    requires Beside(g, g1, t, id, []) && Beside(g1, g2, t, id, [])
    ensures Beside(g, g2, t, id, [])
  {
    var none: seq<Body> := [];
    assert none + none == none;
    BesideThen(g, g1, g2, t, id, none, none);
  }

  /** An idle entry's handler leaves its loop and takes it out of conns. */
  lemma DetachMixed(g: Session, acts: seq<Act>, own: seq<Act>, t: Tunnel, addr: string, n: nat)
    returns (g': Session, rest: seq<Act>)
    requires Runs(g, acts) && Mixes(g, acts, [Handler(n, R.Expire), Handler(n, R.Detach)] + own, t)
    requires Serves(g, t, addr, n)
    ensures Beside(g, g', t, Own(n), []) && Serves(g', t, addr, n)
    ensures Runs(g', rest) && Mixes(g', rest, own, t) && Final(g', rest) == Final(g, acts)
  {
    var all := [Handler(n, R.Expire), Handler(n, R.Detach)] + own;
    var g1, rest1 := PeelHandler(g, acts, all, t, addr, n, R.Expire);
    g', rest := PeelHandler(g1, rest1, all[1..], t, addr, n, R.Detach);
    assert all[1..][1..] == own;
    BesideTwice(g, g1, g', t, Own(n));
  }

  /** closeConn up to the point where its frame is due. */
  lemma LeaveMixed(g: Session, acts: seq<Act>, own: seq<Act>, t: Tunnel, addr: string, n: nat)
    returns (g': Session, rest: seq<Act>)
    requires Runs(g, acts)
    requires Mixes(g, acts, [Handler(n, R.Expire), Handler(n, R.Detach), Handler(n, R.CloseDetached)] + own, t)
    requires Serves(g, t, addr, n)
    ensures Beside(g, g', t, Own(n), []) && Serves(g', t, addr, n)
    ensures Runs(g', rest) && Mixes(g', rest, own, t) && Final(g', rest) == Final(g, acts)
  {
    var tail := [Handler(n, R.CloseDetached)] + own;
    assert [Handler(n, R.Expire), Handler(n, R.Detach), Handler(n, R.CloseDetached)] + own
        == [Handler(n, R.Expire), Handler(n, R.Detach)] + tail;
    var g1, rest1 := DetachMixed(g, acts, tail, t, addr, n);
    g', rest := PeelHandler(g1, rest1, tail, t, addr, n, R.CloseDetached);
    assert tail[1..] == own;
    BesideTwice(g, g1, g', t, Own(n));
  }

  lemma EndMixed(g: Session, acts: seq<Act>, own: seq<Act>, t: Tunnel, addr: string, n: nat)
    returns (g': Session, rest: seq<Act>)
    requires Runs(g, acts) && Mixes(g, acts, [Handler(n, R.SendClose), Handler(n, R.Return)] + own, t)
    requires Serves(g, t, addr, n)
    ensures Beside(g, g', t, Own(n), [Close]) && Over(g', Own(n))
    ensures Runs(g', rest) && Mixes(g', rest, own, t) && Final(g', rest) == Final(g, acts)
  {
    var all := [Handler(n, R.SendClose), Handler(n, R.Return)] + own;
    var g1, rest1 := PeelHandler(g, acts, all, t, addr, n, R.SendClose);
    g', rest := PeelHandler(g1, rest1, all[1..], t, addr, n, R.Return);
    assert all[1..][1..] == own;
    BesideThen(g, g1, g', t, Own(n), [Close], []);
    assert [Close] + [] == [Close];
  }

  lemma CloseMixed(g: Session, acts: seq<Act>, own: seq<Act>, t: Tunnel, addr: string, id: ConnId)
    returns (g': Session, rest: seq<Act>)
    requires Runs(g, acts) && Mixes(g, acts, CloseActs(id) + own, t)
    requires Entry(g, t, addr, id) && Mine(g, t, id)
    ensures Beside(g, g', t, id, [Close]) && Over(g', id)
    ensures Runs(g', rest) && Mixes(g', rest, own, t) && Final(g', rest) == Final(g, acts)
  {
    match id
    case Own(n) =>
      var leave, end := [Handler(n, R.Expire), Handler(n, R.Detach), Handler(n, R.CloseDetached)],
                        [Handler(n, R.SendClose), Handler(n, R.Return)];
      Regroup(leave, end, own);
      assert CloseActs(id) == leave + end;
      var g1, rest1 := LeaveMixed(g, acts, end + own, t, addr, n);
      g', rest := EndMixed(g1, rest1, own, t, addr, n);
      BesideThen(g, g1, g', t, id, [], [Close]);
      assert [] + [Close] == [Close];
    case Stale(serial) =>
      var all := CloseActs(id) + own;
      g', rest := PeelForeign(g, acts, all, t, serial, Close);
      assert all[1..] == own;
  }

  // ---- the sweep ----

  /** A list of the elements of a set, each once. */
  ghost predicate Lists(order: seq<string>, s: set<string>) {
    && (forall a :: a in order <==> a in s)
    && (forall i, j :: 0 <= i < j < |order| ==> order[i] != order[j])
  }

  lemma ListsRest(order: seq<string>, s: set<string>)
    requires Lists(order, s) && order != []
    ensures order[0] in s && Lists(order[1..], s - {order[0]})
  {
    forall a ensures a in order[1..] <==> a in s - {order[0]} {
      if a in s - {order[0]} {
        assert a in order;
      }
    }
  }

  function ClosedOnes(table: map<string, U.Virtual>, idle: set<string>, dropped: set<string>): set<nat>
    requires idle <= table.Keys
  {
    set a | a in idle && a !in dropped :: table[a].conn
  }

  /** A "close" for each idle entry that is not dropped. */
  function Closes(table: map<string, U.Virtual>, idle: set<string>, dropped: set<string>): map<nat, seq<Body>>
    requires idle <= table.Keys
  {
    map c | c in ClosedOnes(table, idle, dropped) :: [Close]
  }

  lemma SweepOne(table: map<string, U.Virtual>, g: Session, acts: seq<Act>, own: seq<Act>, t: Tunnel,
                 ids: map<nat, ConnId>, a: string, drop: bool)
    returns (g': Session, rest: seq<Act>)
    requires Tracks(table, g, t, ids) && a in table && Runs(g, acts)
    requires Mixes(g, acts, (if drop then DropActs(ids[table[a].conn]) else CloseActs(ids[table[a].conn])) + own, t)
    ensures Tracks(table - {a}, g', t, ids) && Said(g, g', ids, map[table[a].conn := if drop then [] else [Close]])
    ensures Runs(g', rest) && Mixes(g', rest, own, t) && Final(g', rest) == Final(g, acts)
  {
    var id := ids[table[a].conn];
    if drop {
      g', rest := DropMixed(g, acts, own, t, a, id);
    } else {
      g', rest := CloseMixed(g, acts, own, t, a, id);
    }
    BesideTracks(table - {a}, g, g', t, ids, table[a].conn, if drop then [] else [Close]);
  }

  lemma NothingToSweep(table: map<string, U.Virtual>, ids: map<nat, ConnId>, idle: set<string>, dropped: set<string>,
                       own: seq<Act>)
    requires Lists([], idle)
    ensures idle == {} && table - idle == table && SweepActs([], table, ids, dropped) + own == own
  {
    forall a ensures a !in idle {
      assert a !in [];
    }
  }

  /** The rest of the sweep does not look at the entry that is gone. */
  lemma {:induction false} SweepElsewhere(order: seq<string>, table: map<string, U.Virtual>, ids: map<nat, ConnId>,
                                          dropped: set<string>, a: string)
    requires a !in order && forall b :: b in order ==> b in table
    ensures SweepActs(order, table, ids, dropped) == SweepActs(order, table - {a}, ids, dropped)
  {
    if order != [] {
      SweepElsewhere(order[1..], table, ids, dropped, a);
    }
  }

  lemma SweepParts(table: map<string, U.Virtual>, idle: set<string>, a: string, dropped: set<string>)
    requires Apart(table) && idle <= table.Keys && a in idle
    ensures var first := map[table[a].conn := if a in dropped then [] else [Close]];
      var next, all := Closes(table - {a}, idle - {a}, dropped), Closes(table, idle, dropped);
      forall c :: Get(all, c) == Get(first, c) + Get(next, c)
  {
    var conn, all, others := table[a].conn, Closes(table, idle, dropped), Closes(table - {a}, idle - {a}, dropped);
    assert forall c :: c in all <==> c in others || (c == conn && a !in dropped);
    assert conn !in others;
  }

  lemma SweepSaid(table: map<string, U.Virtual>, g: Session, g1: Session, g': Session, ids: map<nat, ConnId>,
                  idle: set<string>, a: string, dropped: set<string>)
    requires Apart(table) && idle <= table.Keys && a in idle
    requires Said(g, g1, ids, map[table[a].conn := if a in dropped then [] else [Close]])
    requires Said(g1, g', ids, Closes(table - {a}, idle - {a}, dropped))
    ensures Said(g, g', ids, Closes(table, idle, dropped))
  {
    SweepParts(table, idle, a, dropped);
    var first := map[table[a].conn := if a in dropped then [] else [Close]];
    SaidThen(g, g1, g', ids, first, Closes(table - {a}, idle - {a}, dropped), Closes(table, idle, dropped));
  }

  lemma {:induction false} SweepMixed(table: map<string, U.Virtual>, g: Session, acts: seq<Act>, own: seq<Act>,
                                      t: Tunnel, ids: map<nat, ConnId>, idle: set<string>, order: seq<string>,
                                      dropped: set<string>)
    returns (g': Session, rest: seq<Act>)
    requires Tracks(table, g, t, ids) && idle <= table.Keys && Lists(order, idle) && Runs(g, acts)
    requires Mixes(g, acts, SweepActs(order, table, ids, dropped) + own, t)
    ensures Tracks(table - idle, g', t, ids) && Said(g, g', ids, Closes(table, idle, dropped))
    ensures Runs(g', rest) && Mixes(g', rest, own, t) && Final(g', rest) == Final(g, acts)
    decreases |order|
  {
    if order == [] {
      NothingToSweep(table, ids, idle, dropped, own);
      return g, acts;
    }
    var a, later := order[0], order[1..];
    ListsRest(order, idle);
    var id, tail := ids[table[a].conn], SweepActs(later, table, ids, dropped);
    var piece := if a in dropped then DropActs(id) else CloseActs(id);
    Regroup(piece, tail, own);
    var g1, rest1 := SweepOne(table, g, acts, tail + own, t, ids, a, a in dropped);
    SweepElsewhere(later, table, ids, dropped, a);
    g', rest := SweepMixed(table - {a}, g1, rest1, own, t, ids, idle - {a}, later, dropped);
    assert table - {a} - (idle - {a}) == table - idle;
    SweepSaid(table, g, g1, g', ids, idle, a, dropped);
  }

  // ---- a whole turn ----

  /** A connection that no entry stands for was touched. */
  lemma OthersTrack(table: map<string, U.Virtual>, g: Session, g': Session, t: Tunnel, ids: map<nat, ConnId>,
                    id: ConnId, fs: seq<Body>)
    requires Tracks(table, g, t, ids) && Beside(g, g', t, id, fs) && Over(g', id)
    requires forall c :: c in ids ==> ids[c] != id
    ensures Tracks(table, g', t, ids) && Said(g, g', ids, map[])
  {
    forall c | c in ids ensures Same(g, g', ids[c]) {
      assert Mine(g, t, ids[c]);
    }
    forall a | a in table ensures Entry(g', t, a, ids[table[a].conn]) {
      EntryKept(g, g', t, a, ids[table[a].conn]);
    }
    NoneOpens(g, g', t, id, fs);
  }

  /** The choices a turn leaves open: the number of the connection that is opened,
      and the order in which the table lists its idle entries. */
  datatype Notes = Notes(n: nat, order: seq<string>)

  function Swept(p: U.Proxy, d: U.Datagram): set<string> {
    if U.Reaches(p, d) && U.Sweeps(p, d.now) then set a | a in U.Seen(p, d) && U.Idle(U.Seen(p, d)[a], d.now) else {}
  }

  function IdsAfter(p: U.Proxy, ids: map<nat, ConnId>, d: U.Datagram, k: Notes): map<nat, ConnId> {
    if U.Reaches(p, d) && d.addr !in p.table then ids[d.drawn := Own(k.n)] else ids
  }

  /** "open", if the address is new, and the datagram. */
  function DatagramActs(p: U.Proxy, ids: map<nat, ConnId>, t: Tunnel, d: U.Datagram, k: Notes): seq<Act> {
    (if d.addr in p.table then [] else OpenActs(t, d.addr, k.n))
    + DataActs(IdOf(IdsAfter(p, ids, d, k), U.Seen(p, d)[d.addr].conn), Frames.Datagram(d.payload))
  }

  /** One turn of the loop, in steps of the session. */
  function TurnActs(p: U.Proxy, ids: map<nat, ConnId>, t: Tunnel, d: U.Datagram, k: Notes): seq<Act> {
    if !d.session then []
    else if !U.Reaches(p, d) then [NewUdp(t.id, t.port, d.addr), Handler(k.n, R.OpenFails)]
    else
      DatagramActs(p, ids, t, d, k) + SweepActs(k.order, U.Seen(p, d), IdsAfter(p, ids, d, k), d.gone + d.moved)
  }

  /** What the turn's answer tells the daemon about each connID in this session. */
  function Answer(sent: U.Sent, t: Tunnel): map<nat, seq<Body>> {
    if !sent.data then map[]
    else
      (map c | c in sent.closed :: [Close])
      [sent.conn := (if sent.opens then [Open(t.id, t.port, Udp)] else []) + [Data([Frames.Datagram(sent.payload)])]]
  }

  function Spoken(p: U.Proxy, t: Tunnel, d: U.Datagram): seq<Body> {
    (if d.addr in p.table then [] else [Open(t.id, t.port, Udp)]) + [Data([Frames.Datagram(d.payload)])]
  }

  lemma FailedMixed(p: U.Proxy, g: Session, acts: seq<Act>, own: seq<Act>, t: Tunnel, ids: map<nat, ConnId>,
                    addr: string, n: nat) returns (g': Session, rest: seq<Act>)
    requires Tracks(p.table, g, t, ids) && Runs(g, acts)
    requires Mixes(g, acts, [NewUdp(t.id, t.port, addr), Handler(n, R.OpenFails)] + own, t)
    ensures Tracks(p.table, g', t, ids) && Said(g, g', ids, map[])
    ensures Runs(g', rest) && Mixes(g', rest, own, t) && Final(g', rest) == Final(g, acts)
  {
    var all := [NewUdp(t.id, t.port, addr), Handler(n, R.OpenFails)] + own;
    var g1, rest1, m := PeelOpen(g, acts, all, t, addr);
    RegisterIsNew(g, g1, rest1, all[1..], t, n, m);
    g', rest := PeelHandler(g1, rest1, all[1..], t, addr, n, R.OpenFails);
    assert all[1..][1..] == own;
    BesideThen(g, g1, g', t, Own(n), [Open(t.id, t.port, Udp)], []);
    OthersTrack(p.table, g, g', t, ids, Own(n), [Open(t.id, t.port, Udp)] + []);
  }

  lemma GrownTracks(table: map<string, U.Virtual>, g: Session, t: Tunnel, ids: map<nat, ConnId>, drawn: nat, n: nat)
    requires Tracks(table, g, t, ids) && drawn !in ids && Mine(g, t, Own(n))
    requires forall c :: c in ids ==> ids[c] != Own(n)
    ensures Tracks(table, g, t, ids[drawn := Own(n)])
  {
  }

  /** A new address is opened. */
  lemma NewMixed(p: U.Proxy, g: Session, acts: seq<Act>, own: seq<Act>, t: Tunnel, ids: map<nat, ConnId>,
                 d: U.Datagram, n: nat) returns (g': Session, rest: seq<Act>)
    requires Tracks(p.table, g, t, ids) && Runs(g, acts) && d.addr !in p.table && d.drawn !in ids
    requires Mixes(g, acts, OpenActs(t, d.addr, n) + own, t)
    ensures |g.recs| <= n
    ensures Tracks(U.Seen(p, d), g', t, ids[d.drawn := Own(n)])
    ensures Said(g, g', ids[d.drawn := Own(n)], map[d.drawn := [Open(t.id, t.port, Udp)]])
    ensures Runs(g', rest) && Mixes(g', rest, own, t) && Final(g', rest) == Final(g, acts)
  {
    g', rest := OpenMixed(g, acts, own, t, d.addr, n);
    forall c | c in ids ensures ids[c] != Own(n) {
      assert Mine(g, t, ids[c]);
    }
    OthersTrack(p.table, g, g', t, ids, Own(n), [Open(t.id, t.port, Udp)]);
    assert p.table - {d.addr} == p.table;
    GrownTracks(p.table, g', t, ids, d.drawn, n);
    EntryTracks(p.table, g', t, ids[d.drawn := Own(n)], d.addr, d.drawn, d.now);
  }

  /** A datagram goes out under its address's identifier. */
  lemma SeenMixed(table: map<string, U.Virtual>, g: Session, acts: seq<Act>, own: seq<Act>, t: Tunnel,
                  ids: map<nat, ConnId>, addr: string, now: int, item: Item)
    returns (g': Session, rest: seq<Act>)
    requires Tracks(table, g, t, ids) && addr in table && Runs(g, acts)
    requires Mixes(g, acts, DataActs(ids[table[addr].conn], item) + own, t)
    ensures Tracks(With(table, addr, table[addr].conn, now), g', t, ids)
    ensures Said(g, g', ids, map[table[addr].conn := [Data([item])]])
    ensures Runs(g', rest) && Mixes(g', rest, own, t) && Final(g', rest) == Final(g, acts)
  {
    var conn := table[addr].conn;
    g', rest := DataMixed(g, acts, own, t, addr, ids[conn], item);
    BesideTracks(table - {addr}, g, g', t, ids, conn, [Data([item])]);
    EntryTracks(table, g', t, ids, addr, conn, now);
  }

  /** A datagram from an address that has an entry. */
  lemma KnownMixed(p: U.Proxy, g: Session, acts: seq<Act>, own: seq<Act>, t: Tunnel, ids: map<nat, ConnId>,
                   d: U.Datagram) returns (g': Session, rest: seq<Act>)
    requires Tracks(p.table, g, t, ids) && Runs(g, acts) && d.addr in p.table
    requires Mixes(g, acts, [] + DataActs(IdOf(ids, p.table[d.addr].conn), Frames.Datagram(d.payload)) + own, t)
    ensures Tracks(U.Seen(p, d), g', t, ids)
    ensures Said(g, g', ids, map[p.table[d.addr].conn := Spoken(p, t, d)])
    ensures Runs(g', rest) && Mixes(g', rest, own, t) && Final(g', rest) == Final(g, acts)
  {
    var item, conn := Frames.Datagram(d.payload), p.table[d.addr].conn;
    assert [] + DataActs(ids[conn], item) + own == DataActs(ids[conn], item) + own;
    g', rest := SeenMixed(p.table, g, acts, own, t, ids, d.addr, d.now, item);
    assert [] + [Data([item])] == [Data([item])];
  }

  /** The first datagram of an address. */
  lemma FirstMixed(p: U.Proxy, g: Session, acts: seq<Act>, own: seq<Act>, t: Tunnel, ids: map<nat, ConnId>,
                   d: U.Datagram, n: nat) returns (g': Session, rest: seq<Act>)
    requires Tracks(p.table, g, t, ids) && Runs(g, acts) && d.addr !in p.table && d.drawn !in ids
    requires Mixes(g, acts, OpenActs(t, d.addr, n) + DataActs(Own(n), Frames.Datagram(d.payload)) + own, t)
    ensures |g.recs| <= n && Tracks(U.Seen(p, d), g', t, ids[d.drawn := Own(n)])
    ensures Said(g, g', ids[d.drawn := Own(n)], map[d.drawn := Spoken(p, t, d)])
    ensures Runs(g', rest) && Mixes(g', rest, own, t) && Final(g', rest) == Final(g, acts)
  {
    var item, seen, ids' := Frames.Datagram(d.payload), U.Seen(p, d), ids[d.drawn := Own(n)];
    var data := DataActs(Own(n), item);
    Regroup(OpenActs(t, d.addr, n), data, own);
    var g1, rest1 := NewMixed(p, g, acts, data + own, t, ids, d, n);
    g', rest := SeenMixed(seen, g1, rest1, own, t, ids', d.addr, d.now, item);
    assert With(seen, d.addr, d.drawn, d.now) == seen;
    SaidTwice(g, g1, g', ids', d.drawn, [Open(t.id, t.port, Udp)], [Data([item])]);
  }

  /** The part of a turn up to the sweep. */
  lemma DatagramMixed(p: U.Proxy, g: Session, acts: seq<Act>, own: seq<Act>, t: Tunnel, ids: map<nat, ConnId>,
                      d: U.Datagram, k: Notes) returns (g': Session, rest: seq<Act>)
    requires Tracks(p.table, g, t, ids) && Runs(g, acts) && U.Reaches(p, d) && d.drawn !in ids
    requires Mixes(g, acts, DatagramActs(p, ids, t, d, k) + own, t)
    ensures d.addr !in p.table ==> |g.recs| <= k.n
    ensures Tracks(U.Seen(p, d), g', t, IdsAfter(p, ids, d, k))
    ensures Said(g, g', IdsAfter(p, ids, d, k), map[U.Seen(p, d)[d.addr].conn := Spoken(p, t, d)])
    ensures Runs(g', rest) && Mixes(g', rest, own, t) && Final(g', rest) == Final(g, acts)
  {
    if d.addr in p.table {
      g', rest := KnownMixed(p, g, acts, own, t, ids, d);
    } else {
      g', rest := FirstMixed(p, g, acts, own, t, ids, d, k.n);
    }
  }

  /** The answer of a turn, put together from its parts. */
  lemma AnswerParts(p: U.Proxy, t: Tunnel, d: U.Datagram)
    requires U.Reaches(p, d) && Apart(U.Seen(p, d))
    ensures U.Step(p, d).0.table == U.Seen(p, d) - Swept(p, d)
    ensures var conn, closes := U.Seen(p, d)[d.addr].conn, Closes(U.Seen(p, d), Swept(p, d), d.gone + d.moved);
      forall c :: Get(Answer(U.Step(p, d).1, t), c) == Get(map[conn := Spoken(p, t, d)], c) + Get(closes, c)
  {
    var seen, sent := U.Seen(p, d), U.Step(p, d).1;
    assert U.Step(p, d).0.table == seen - Swept(p, d);
    assert ClosedOnes(seen, Swept(p, d), d.gone + d.moved) == sent.closed;
    assert sent.conn !in sent.closed;
  }

  /** One turn of handleUDPProxy's loop, in every interleaving with the steps of
      all other goroutines: table and session agree afterwards, and on a whole
      channel the daemon has been told exactly the turn's answer, each part of it
      about the identifier of its own address. */
  lemma TurnMixed(p: U.Proxy, g: Session, acts: seq<Act>, own: seq<Act>, t: Tunnel, ids: map<nat, ConnId>,
                  d: U.Datagram, k: Notes) returns (g': Session, rest: seq<Act>)
    requires Tracks(p.table, g, t, ids) && d.drawn !in ids && Lists(k.order, Swept(p, d))
    requires Runs(g, acts) && Mixes(g, acts, TurnActs(p, ids, t, d, k) + own, t)
    ensures var (p', sent) := U.Step(p, d);
      Tracks(p'.table, g', t, IdsAfter(p, ids, d, k)) && Said(g, g', IdsAfter(p, ids, d, k), Answer(sent, t))
    ensures IdsAfter(p, ids, d, k) != ids ==> |g.recs| <= k.n
    ensures Runs(g', rest) && Mixes(g', rest, own, t) && Final(g', rest) == Final(g, acts)
  {
    if !d.session {
      assert [] + own == own;
      g', rest := g, acts;
    } else if !U.Reaches(p, d) {
      g', rest := FailedMixed(p, g, acts, own, t, ids, d.addr, k.n);
    } else {
      var ids', seen, dropped := IdsAfter(p, ids, d, k), U.Seen(p, d), d.gone + d.moved;
      var sweep := SweepActs(k.order, seen, ids', dropped);
      Regroup(DatagramActs(p, ids, t, d, k), sweep, own);
      var g1, rest1 := DatagramMixed(p, g, acts, sweep + own, t, ids, d, k);
      g', rest := SweepMixed(seen, g1, rest1, own, t, ids', Swept(p, d), k.order, dropped);
      AnswerParts(p, t, d);
      SaidThen(g, g1, g', ids', map[seen[d.addr].conn := Spoken(p, t, d)], Closes(seen, Swept(p, d), dropped),
               Answer(U.Step(p, d).1, t));
    }
  }

  // ---- the turn in frames ----

  /** Is the entry of address a swept, and its connection closed in this session? */
  predicate ClosedIn(p: U.Proxy, d: U.Datagram, a: string)
    requires a in p.table
  {
    d.now - p.lastCleanup > 60 && d.now - p.table[a].lastSeen > 300 && a !in d.gone && a !in d.moved
  }

  lemma AnswerToSender(p: U.Proxy, t: Tunnel, d: U.Datagram)
    requires d.session && (d.addr in p.table || d.openOk)
    ensures var said := Answer(U.Step(p, d).1, t);
      && (d.addr in p.table ==> Get(said, p.table[d.addr].conn) == [Data([Frames.Datagram(d.payload)])])
      && (d.addr !in p.table ==>
            Get(said, d.drawn) == [Open(t.id, t.port, Udp), Data([Frames.Datagram(d.payload)])])
  {
  }

  lemma AnswerToOther(p: U.Proxy, t: Tunnel, d: U.Datagram, a: string)
    requires d.session && (d.addr in p.table || d.openOk)
    requires Apart(U.Seen(p, d)) && a in p.table && a != d.addr
    ensures Get(Answer(U.Step(p, d).1, t), p.table[a].conn) == if ClosedIn(p, d, a) then [Close] else []
  {
    AnswerParts(p, t, d);
    var seen := U.Seen(p, d);
    assert seen[a] == p.table[a];
    assert p.table[a].conn in ClosedOnes(seen, Swept(p, d), d.gone + d.moved) <==> ClosedIn(p, d, a);
    assert Get(map[seen[d.addr].conn := Spoken(p, t, d)], p.table[a].conn) == [];
  }

  lemma SaidToSender(p: U.Proxy, g: Session, g': Session, t: Tunnel, ids: map<nat, ConnId>, d: U.Datagram, k: Notes)
    requires d.session && (d.addr in p.table || d.openOk) && g'.down.live
    requires Said(g, g', IdsAfter(p, ids, d, k), Answer(U.Step(p, d).1, t))
    ensures d.addr in p.table && p.table[d.addr].conn in ids ==>
      Told(g', ids[p.table[d.addr].conn]) == Told(g, ids[p.table[d.addr].conn]) + [Data([Frames.Datagram(d.payload)])]
    ensures d.addr !in p.table && Told(g, Own(k.n)) == [] ==>
      Told(g', Own(k.n)) == [Open(t.id, t.port, Udp), Data([Frames.Datagram(d.payload)])]
  {
    AnswerToSender(p, t, d);
    if d.addr !in p.table {
      assert IdsAfter(p, ids, d, k)[d.drawn] == Own(k.n);
    }
  }

  lemma SaidToOther(p: U.Proxy, g: Session, g': Session, t: Tunnel, ids: map<nat, ConnId>, d: U.Datagram, k: Notes,
                    a: string)
    requires d.session && (d.addr in p.table || d.openOk) && g'.down.live && d.drawn !in ids
    requires Said(g, g', IdsAfter(p, ids, d, k), Answer(U.Step(p, d).1, t))
    requires Apart(U.Seen(p, d)) && a in p.table && a != d.addr && p.table[a].conn in ids
    ensures Told(g', ids[p.table[a].conn]) == Told(g, ids[p.table[a].conn]) + if ClosedIn(p, d, a) then [Close] else []
  {
    AnswerToOther(p, t, d, a);
    assert IdsAfter(p, ids, d, k)[p.table[a].conn] == ids[p.table[a].conn];
  }

  lemma SeenApart(p: U.Proxy, ids: map<nat, ConnId>, d: U.Datagram)
    requires Apart(p.table) && d.drawn !in ids && forall a :: a in p.table ==> p.table[a].conn in ids
    ensures Apart(U.Seen(p, d))
  {
  }

  /** The frames of one turn that is not dropped, interleaved in any way, on a
      whole channel. A new address: "open" on its tunnel's port, then the datagram,
      and nothing else, under a new identifier. A known one: the datagram. Any
      other address: a "close", exactly if a sweep is due after a minute, the
      address has been silent for more than five, and the daemon is still served
      by this session. */
  lemma TurnInFrames(p: U.Proxy, g: Session, acts: seq<Act>, own: seq<Act>, t: Tunnel, ids: map<nat, ConnId>,
                     d: U.Datagram, k: Notes) returns (g': Session, rest: seq<Act>)
    requires Tracks(p.table, g, t, ids) && d.drawn !in ids && Lists(k.order, Swept(p, d))
    requires d.session && (d.addr in p.table || d.openOk)
    requires Runs(g, acts) && Mixes(g, acts, TurnActs(p, ids, t, d, k) + own, t)
    ensures g'.down.live && d.addr in p.table ==>
      Told(g', ids[p.table[d.addr].conn]) == Told(g, ids[p.table[d.addr].conn]) + [Data([Frames.Datagram(d.payload)])]
    ensures g'.down.live && d.addr !in p.table ==>
      |g.recs| <= k.n && Told(g', Own(k.n)) == [Open(t.id, t.port, Udp), Data([Frames.Datagram(d.payload)])]
    ensures g'.down.live ==> forall a :: a in p.table && a != d.addr ==>
      Told(g', ids[p.table[a].conn]) ==
        Told(g, ids[p.table[a].conn])
        + if d.now - p.lastCleanup > 60 && d.now - p.table[a].lastSeen > 300 && a !in d.gone && a !in d.moved
          then [Close] else []
    ensures Runs(g', rest) && Mixes(g', rest, own, t) && Final(g', rest) == Final(g, acts)
  {
    g', rest := TurnMixed(p, g, acts, own, t, ids, d, k);
    if g'.down.live {
      assert IdsAfter(p, ids, d, k) != ids ==> Told(g, Own(k.n)) == [];
      SaidToSender(p, g, g', t, ids, d, k);
      SeenApart(p, ids, d);
      forall a | a in p.table && a != d.addr {
        SaidToOther(p, g, g', t, ids, d, k, a);
      }
    }
  }
}
