/** The UDP proxy of one tunnel: the table from source address to connID, its
    idle sweep, and the frames each datagram causes. */
module UdpProxies {
  const IDLE_TIMEOUT := 300  // seconds
  const SWEEP_PERIOD := 60   // seconds

  datatype Virtual = Virtual(conn: nat, lastSeen: int)

  /** `openers`, a history: the address each connID was opened for, which is
      where openConn told the session to send returned datagrams. */
  datatype Proxy = Proxy(table: map<string, Virtual>, lastCleanup: int, openers: map<nat, string>)

  /** One datagram as the loop meets it: when, from where, whether the daemon has
      a session, whether openConn would succeed, and the connID it would draw. The
      sweep looks the session up again for each idle address: `gone` are those at
      whose turn there is none, `moved` those at whose turn it is another one. */
  datatype Datagram = Datagram(now: int, addr: string, session: bool, openOk: bool, drawn: nat, payload: seq<bv8>,
                               gone: set<string>, moved: set<string>)

  /** What is sent to the daemon: at most one "open", at most one "data", and a
      "close" for each of a set of connIDs, in the session the datagram went to,
      or, the strayed ones, in one that has taken its place. */
  datatype Sent = Sent(opens: bool, data: bool, conn: nat, payload: seq<bv8>, closed: set<nat>, strayed: set<nat>)

  const NOTHING := Sent(false, false, 0, [], {}, {})

  predicate Idle(v: Virtual, now: int) { now - v.lastSeen > IDLE_TIMEOUT }

  predicate Sweeps(p: Proxy, now: int) { now - p.lastCleanup > SWEEP_PERIOD }

  function Kept(table: map<string, Virtual>, now: int): map<string, Virtual> {
    map a | a in table && !Idle(table[a], now) :: table[a]
  }

  /** The connIDs of the idle addresses, except some. */
  function Expired(table: map<string, Virtual>, now: int, except: set<string>): set<nat> {
    set a | a in table && Idle(table[a], now) && a !in except :: table[a].conn
  }

  /** The connIDs of the idle addresses that are closed in another session. */
  function Strayed(table: map<string, Virtual>, now: int, gone: set<string>, moved: set<string>): set<nat> {
    set a | a in table && Idle(table[a], now) && a !in gone && a in moved :: table[a].conn
  }

  /** Does the datagram get as far as the cleanup check? */
  predicate Reaches(p: Proxy, d: Datagram) { d.session && (d.addr in p.table || d.openOk) }

  /** The table once the datagram's sender has been seen. */
  function Seen(p: Proxy, d: Datagram): map<string, Virtual> {
    p.table[d.addr := Virtual(if d.addr in p.table then p.table[d.addr].conn else d.drawn, d.now)]
  }

  function Step(p: Proxy, d: Datagram): (Proxy, Sent) {
    if !Reaches(p, d) then (p, NOTHING)
    else
      var isNew := d.addr !in p.table;
      var seen := Seen(p, d);
      var sweeps := Sweeps(p, d.now);
      (Proxy(if sweeps then Kept(seen, d.now) else seen,
             if sweeps then d.now else p.lastCleanup,
             if isNew then p.openers[d.drawn := d.addr] else p.openers),
       Sent(isNew, true, seen[d.addr].conn, d.payload,
            if sweeps then Expired(seen, d.now, d.gone + d.moved) else {},
            if sweeps then Strayed(seen, d.now, d.gone, d.moved) else {}))
  }

  function RunAll(p: Proxy, ds: seq<Datagram>): Proxy
    decreases |ds|
  {
    if ds == [] then p else RunAll(Step(p, ds[0]).0, ds[1..])
  }

  /** What a run of datagrams sends, one answer each. */
  function Answers(p: Proxy, ds: seq<Datagram>): seq<Sent>
    decreases |ds|
  {
    if ds == [] then [] else [Step(p, ds[0]).1] + Answers(Step(p, ds[0]).0, ds[1..])
  }

  class UdpProxy {
    var table: map<string, Virtual>
    var lastCleanup: int
    ghost var openers: map<nat, string>

    ghost function State(): Proxy
      reads this
    {
      Proxy(table, lastCleanup, openers)
    }

    constructor (now: int)
      ensures State() == Proxy(map[], now, map[])
    {
      table, lastCleanup, openers := map[], now, map[];
    }

    method Sweep(now: int, gone: set<string>, moved: set<string>) returns (closed: set<nat>, strayed: set<nat>)
      modifies this`table
      ensures table == Kept(old(table), now)
      ensures closed == Expired(old(table), now, gone + moved) && strayed == Strayed(old(table), now, gone, moved)
      ensures forall a :: a in table <==> a in old(table) && now - old(table)[a].lastSeen <= 300
      ensures forall a :: a in table ==> table[a] == old(table)[a]
    {
      closed, strayed := {}, {};
      var todo := table.Keys;
      while todo != {}
        invariant todo <= table.Keys <= old(table).Keys
        invariant forall a :: a in table ==> table[a] == old(table)[a]
        invariant forall a :: a in old(table) && a !in todo ==> (a in table <==> !Idle(old(table)[a], now))
        invariant closed == set a |
          a in old(table) && a !in todo && Idle(old(table)[a], now) && a !in gone + moved :: old(table)[a].conn
        invariant strayed == set a |
          a in old(table) && a !in todo && Idle(old(table)[a], now) && a !in gone && a in moved :: old(table)[a].conn
        decreases |todo|
      {
        var a :| a in todo;
        if Idle(table[a], now) {
          if a !in gone {
            if a in moved {
              strayed := strayed + {table[a].conn};
            } else {
              closed := closed + {table[a].conn};
            }
          }
          table := table - {a};
        }
        todo := todo - {a};
      }
    }

    /** One turn of the loop of handleUDPProxy. */
    method OnDatagram(d: Datagram) returns (out: Sent)
      modifies this
      ensures (State(), out) == Step(old(State()), d)
    {
      if !d.session {
        return NOTHING;
      }
      var opens := false;
      if d.addr !in table {
        if !d.openOk {
          return NOTHING;
        }
        table := table[d.addr := Virtual(d.drawn, d.now)];
        openers := openers[d.drawn := d.addr];
        opens := true;
      }
      table := table[d.addr := Virtual(table[d.addr].conn, d.now)];
      out := Sent(opens, true, table[d.addr].conn, d.payload, {}, {});
      assert table == Seen(old(State()), d);
      if d.now - lastCleanup > SWEEP_PERIOD {
        lastCleanup := d.now;
        var closed, strayed := Sweep(d.now, d.gone, d.moved);
        out := out.(closed := closed, strayed := strayed);
      }
    }

    /** The loop of handleUDPProxy, over the datagrams that arrive before its
        socket is closed. */
    method Serve(ds: seq<Datagram>) returns (outs: seq<Sent>)
      modifies this
      ensures State() == RunAll(old(State()), ds) && outs == Answers(old(State()), ds)
    {
      outs := [];
      for i := 0 to |ds|
        invariant RunAll(State(), ds[i..]) == RunAll(old(State()), ds)
        invariant outs + Answers(State(), ds[i..]) == Answers(old(State()), ds)
      {
        var out := OnDatagram(ds[i]);
        assert ds[i..][0] == ds[i] && ds[i..][1..] == ds[i + 1..];
        assert outs + ([out] + Answers(State(), ds[i + 1..])) == (outs + [out]) + Answers(State(), ds[i + 1..]);
        outs := outs + [out];
      }
    }
  }

  // ---- runs ----

  /** The clock does not go back, and connIDs are never drawn twice. */
  predicate Timely(p: Proxy, clock: int, ds: seq<Datagram>)
    decreases |ds|
  {
    ds == [] ||
    (clock <= ds[0].now && ds[0].drawn !in p.openers && Timely(Step(p, ds[0]).0, ds[0].now, ds[1..]))
  }

  /** Every entry's connID was opened for that entry's address; no entry is seen
      in the future; and none was idle too long when the last sweep ran. */
  predicate Inv(p: Proxy, clock: int) {
    && (forall a :: a in p.table ==> p.table[a].conn in p.openers && p.openers[p.table[a].conn] == a)
    && (forall a :: a in p.table ==> p.table[a].lastSeen <= clock)
    && (forall a :: a in p.table ==> p.lastCleanup - p.table[a].lastSeen <= IDLE_TIMEOUT)
    && p.lastCleanup <= clock
  }

  lemma StepInv(p: Proxy, clock: int, d: Datagram)
    requires Inv(p, clock) && clock <= d.now && d.drawn !in p.openers
    ensures Inv(Step(p, d).0, d.now)
  {
  }

  lemma {:induction false} RunInv(p: Proxy, clock: int, ds: seq<Datagram>)
    requires Inv(p, clock) && Timely(p, clock, ds)
    ensures Inv(RunAll(p, ds), if ds == [] then clock else ds[|ds| - 1].now)
    decreases |ds|
  {
    if ds != [] {
      StepInv(p, clock, ds[0]);
      RunInv(Step(p, ds[0]).0, ds[0].now, ds[1..]);
    }
  }

  function Fresh(now: int): Proxy { Proxy(map[], now, map[]) }

  /** Injective: no two addresses share a connID, and each connID's return path
      is the address it is filed under. */
  lemma AddressesKeepTheirConnection(start: int, ds: seq<Datagram>, a: string, b: string)
    requires Timely(Fresh(start), start, ds)
    requires var p := RunAll(Fresh(start), ds); a in p.table && b in p.table
    ensures var p := RunAll(Fresh(start), ds);
      && p.table[a].conn in p.openers && p.openers[p.table[a].conn] == a
      && (a != b ==> p.table[a].conn != p.table[b].conn)
  {
    RunInv(Fresh(start), start, ds);
  }

  /** A return path, once opened, always leads to the same address. */
  lemma {:induction false} ReturnPathsNeverMove(p: Proxy, clock: int, ds: seq<Datagram>, conn: nat)
    requires Timely(p, clock, ds) && conn in p.openers
    ensures conn in RunAll(p, ds).openers && RunAll(p, ds).openers[conn] == p.openers[conn]
    decreases |ds|
  {
    if ds != [] {
      ReturnPathsNeverMove(Step(p, ds[0]).0, ds[0].now, ds[1..], conn);
    }
  }

  lemma {:induction false} RunSplits(p: Proxy, clock: int, before: seq<Datagram>, d: Datagram)
    requires Timely(p, clock, before + [d])
    ensures Timely(p, clock, before)
    ensures RunAll(p, before + [d]) == Step(RunAll(p, before), d).0
    ensures d.drawn !in RunAll(p, before).openers
    ensures (if before == [] then clock else before[|before| - 1].now) <= d.now
    decreases |before|
  {
    if before == [] {
      assert ([d])[1..] == [];
    } else {
      assert (before + [d])[1..] == before[1..] + [d];
      RunSplits(Step(p, before[0]).0, before[0].now, before[1..], d);
    }
  }

  /** A datagram is dropped, and changes nothing, if the daemon has no session, or
      if its sender is new and openConn fails. */
  lemma DroppedDatagram(p: Proxy, d: Datagram)
    requires !d.session || (d.addr !in p.table && !d.openOk)
    ensures Step(p, d).0 == p && !Step(p, d).1.opens && !Step(p, d).1.data
    ensures Step(p, d).1.closed == {} && Step(p, d).1.strayed == {}
  {
  }

  lemma TurnSends(p: Proxy, d: Datagram)
    requires Reaches(p, d)
    ensures var (p', sent) := Step(p, d);
      && sent.data && sent.payload == d.payload && (sent.opens <==> d.addr !in p.table)
      && sent.conn == (if d.addr in p.table then p.table[d.addr].conn else d.drawn)
      && d.addr in p'.table && p'.table[d.addr] == Virtual(sent.conn, d.now)
      && p'.lastCleanup == (if d.now - p.lastCleanup > 60 then d.now else p.lastCleanup)
  {
  }

  lemma TurnForgets(p: Proxy, d: Datagram, a: string)
    requires Reaches(p, d) && a != d.addr
    ensures a in Step(p, d).0.table <==>
      a in p.table && !(d.now - p.lastCleanup > 60 && d.now - p.table[a].lastSeen > 300)
    ensures a in Step(p, d).0.table ==> Step(p, d).0.table[a] == p.table[a]
  {
  }

  lemma TurnCloses(p: Proxy, clock: int, d: Datagram, a: string)
    requires Reaches(p, d) && Inv(p, clock) && clock <= d.now && d.drawn !in p.openers && a in p.table && a != d.addr
    ensures var (p', sent) := Step(p, d);
      && (p.table[a].conn in sent.closed <==> a !in p'.table && a !in d.gone && a !in d.moved)
      && (p.table[a].conn in sent.strayed <==> a !in p'.table && a !in d.gone && a in d.moved)
  {
    forall b | b in Seen(p, d) && Idle(Seen(p, d)[b], d.now) && Seen(p, d)[b].conn == p.table[a].conn
      ensures a == b
    {
      assert b in p.table && p.openers[p.table[b].conn] == b && p.openers[p.table[a].conn] == a;
    }
  }

  lemma ClosesOthers(p: Proxy, d: Datagram, c: nat)
    requires Reaches(p, d) && c in Step(p, d).1.closed + Step(p, d).1.strayed
    ensures exists a :: a in p.table && a != d.addr && p.table[a].conn == c
  {
    var a :| a in Seen(p, d) && Idle(Seen(p, d)[a], d.now) && Seen(p, d)[a].conn == c;
    assert a in p.table && a != d.addr;
  }

  /** What any other datagram sends: its payload on its own address's connID,
      opened first if new. It forgets exactly the entries idle for more than five
      minutes, if the last sweep is more than a minute past, and closes those at
      whose turn the daemon has a session, in that session. */
  lemma SweepIsExact(start: int, before: seq<Datagram>, d: Datagram)
    requires Timely(Fresh(start), start, before + [d])
    requires d.session && (d.addr in RunAll(Fresh(start), before).table || d.openOk)
    ensures var p := RunAll(Fresh(start), before);
      var (p', sent) := Step(p, d);
      && sent.data && sent.payload == d.payload && (sent.opens <==> d.addr !in p.table)
      && sent.conn == (if d.addr in p.table then p.table[d.addr].conn else d.drawn)
      && d.addr in p'.table && p'.table[d.addr] == Virtual(sent.conn, d.now)
      && sent.conn in p'.openers && p'.openers[sent.conn] == d.addr
      && p'.lastCleanup == (if d.now - p.lastCleanup > 60 then d.now else p.lastCleanup)
      && (forall a :: a in p'.table && a != d.addr ==> a in p.table && p'.table[a] == p.table[a])
      && (forall a :: a in p.table && a != d.addr ==>
            (a in p'.table <==> !(d.now - p.lastCleanup > 60 && d.now - p.table[a].lastSeen > 300))
            && (p.table[a].conn in sent.closed <==> a !in p'.table && a !in d.gone && a !in d.moved)
            && (p.table[a].conn in sent.strayed <==> a !in p'.table && a !in d.gone && a in d.moved))
      && (forall c :: c in sent.closed + sent.strayed ==>
            exists a :: a in p.table && a != d.addr && p.table[a].conn == c)
  {
    RunSplits(Fresh(start), start, before, d);
    RunInv(Fresh(start), start, before);
    var p, clock := RunAll(Fresh(start), before), if before == [] then start else before[|before| - 1].now;
    TurnSends(p, d);
    StepInv(p, clock, d);
    forall a | a != d.addr {
      TurnForgets(p, d, a);
    }
    forall a | a in p.table && a != d.addr {
      TurnCloses(p, clock, d, a);
    }
    forall c | c in Step(p, d).1.closed + Step(p, d).1.strayed {
      ClosesOthers(p, d, c);
    }
  }

  /** After every datagram that is not dropped, no entry has been idle for more
      than six minutes: five, and the minute between sweeps. */
  lemma IdleBound(start: int, before: seq<Datagram>, d: Datagram, a: string)
    requires Timely(Fresh(start), start, before + [d])
    requires d.session && (d.addr in RunAll(Fresh(start), before).table || d.openOk)
    requires a in RunAll(Fresh(start), before + [d]).table
    ensures d.now - RunAll(Fresh(start), before + [d]).table[a].lastSeen <= 360
  {
    RunSplits(Fresh(start), start, before, d);
    RunInv(Fresh(start), start, before);
  }

  /** Only those: while the daemon has no session the loop skips the check, and
      an entry can have been idle for any length of time. */
  lemma IdleIsUnboundedWithoutSession(start: int, idle: nat, addr: string, other: string, conn: nat)
    ensures var ds := [Datagram(start, addr, true, true, conn, [], {}, {}),
                       Datagram(start + idle, other, false, true, conn + 1, [], {}, {})];
      && Timely(Fresh(start), start, ds)
      && addr in RunAll(Fresh(start), ds).table
      && ds[1].now - RunAll(Fresh(start), ds).table[addr].lastSeen == idle
  {
    var first := Datagram(start, addr, true, true, conn, [], {}, {});
    var second := Datagram(start + idle, other, false, true, conn + 1, [], {}, {});
    var p1 := Step(Fresh(start), first).0;
    assert [first, second][1..] == [second] && [second][1..] == [];
    assert RunAll(p1, [second]) == Step(p1, second).0 == p1;
    assert Timely(p1, start, [second]);
  }
}
