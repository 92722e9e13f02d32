/** The registry under concurrency. AddTunnel takes its port before it takes the
    registry's mutex, RemoveTunnel and RemoveClient release ports while they
    hold it, and the pool has a mutex of its own; so ports and records agree
    only up to the calls in flight. */
module PortAccounting {
  import opened Pools
  import opened Registries

  /** Who holds the registry's mutex, and how far it has got. */
  datatype Mutex =
    | Free
    | Dropping(id: nat, released: bool)                              // RemoveTunnel
    | Purging(client: string, todo: seq<Tunnel>, gone: bool)         // RemoveClient: todo[0] released?

  /** `inflight`: AddTunnel calls that hold a port but are not inserted yet.
      Two histories: `adopted`, the tunnels appended to their client's slice,
      and `holder`, who each taken port was last handed to. */
  datatype Machine = Machine(reg: RegState, mu: Mutex, inflight: map<nat, Tunnel>, nextId: nat,
                             adopted: set<nat>, holder: map<int, Holder>)

  datatype Holder = Call(call: nat) | Record(id: nat)

  datatype Act =
    | Take(call: nat, client: string, proto: string, localPort: int, requested: int)
    | Insert(call: nat)
    | AddClient(id: string, name: string, ip: string)
    | MarkOffline(id: string)
    | DropLock(tunnel: nat) | DropRelease | DropDelete
    | PurgeLock(client: string) | PurgeRelease | PurgeDelete | PurgeUnlock

  function Start(min: int, max: int): Machine {
    Machine(RegState(PoolState(min, max, {}, min), map[], map[]), Free, map[], 0, {}, map[])
  }

  predicate Enabled(m: Machine, a: Act) {
    match a
    case Take(call, _, _, _, _) => call !in m.inflight
    case Insert(call) => m.mu.Free? && call in m.inflight
    case AddClient(_, _, _) => m.mu.Free?
    case MarkOffline(_) => m.mu.Free?
    case DropLock(id) => m.mu.Free? && id in m.reg.tunnels
    case DropRelease => m.mu.Dropping? && !m.mu.released && m.mu.id in m.reg.tunnels
    case DropDelete => m.mu.Dropping? && m.mu.released && m.mu.id in m.reg.tunnels
    case PurgeLock(client) => m.mu.Free? && client in m.reg.clients
    case PurgeRelease => m.mu.Purging? && m.mu.todo != [] && !m.mu.gone
    case PurgeDelete => m.mu.Purging? && m.mu.todo != [] && m.mu.gone
    case PurgeUnlock => m.mu.Purging? && m.mu.todo == [] && m.mu.client in m.reg.clients
  }

  function Release(s: RegState, port: int): RegState { s.(pool := Released(s.pool, port)) }

  function Next(m: Machine, a: Act): Machine
    requires Enabled(m, a)
  {
    match a
    case Take(call, client, proto, localPort, requested) =>
      var (pool', port) := Allocated(m.reg.pool, requested);
      m.(reg := m.reg.(pool := pool'),
         inflight := if port.None? then m.inflight
                     else m.inflight[call := Tunnel(0, client, proto, localPort, port.value)],
         holder := if port.None? then m.holder else m.holder[port.value := Call(call)])
    case Insert(call) =>
      var t := m.inflight[call].(id := m.nextId);
      m.(reg := WithTunnel(m.reg, t), inflight := m.inflight - {call}, nextId := m.nextId + 1,
         adopted := if t.client in m.reg.clients then m.adopted + {t.id} else m.adopted,
         holder := m.holder[t.remotePort := Record(t.id)])
    case AddClient(id, name, ip) => m.(reg := WithClient(m.reg, id, name, ip))
    case MarkOffline(id) => m.(reg := WithOffline(m.reg, id))
    case DropLock(id) => m.(mu := Dropping(id, false))
    case DropRelease =>
      var port := m.reg.tunnels[m.mu.id].remotePort;
      m.(reg := Release(m.reg, port), mu := Dropping(m.mu.id, true), holder := m.holder - {port})
    case DropDelete => m.(reg := WithoutTunnel(m.reg, m.reg.tunnels[m.mu.id]), mu := Free)
    case PurgeLock(client) =>
      m.(reg := WithOffline(m.reg, client), mu := Purging(client, m.reg.clients[client].slice, false))
    case PurgeRelease =>
      var port := m.mu.todo[0].remotePort;
      m.(reg := Release(m.reg, port), mu := m.mu.(gone := true), holder := m.holder - {port})
    case PurgeDelete =>
      m.(reg := m.reg.(tunnels := m.reg.tunnels - {m.mu.todo[0].id}),
         mu := m.mu.(todo := m.mu.todo[1..], gone := false))
    case PurgeUnlock =>
      var c := m.reg.clients[m.mu.client];
      m.(reg := m.reg.(clients := m.reg.clients[m.mu.client := c.(slice := [])]), mu := Free)
  }

  // ---- the accounting identity ----

  /** The record whose port has been released but which is not deleted yet. */
  predicate LetGo(m: Machine, id: nat) {
    || (m.mu == Dropping(id, true))
    || (m.mu.Purging? && m.mu.gone && m.mu.todo != [] && m.mu.todo[0].id == id)
  }

  predicate Holds(m: Machine, id: nat) { id in m.reg.tunnels && !LetGo(m, id) }

  function PortOf(m: Machine, id: nat): int
    requires id in m.reg.tunnels
  {
    m.reg.tunnels[id].remotePort
  }

  predicate Keeps(m: Machine, h: Holder, port: int) {
    match h
    case Call(call) => call in m.inflight && m.inflight[call].remotePort == port
    case Record(id) => Holds(m, id) && PortOf(m, id) == port
  }

  predicate Kept(m: Machine, port: int, h: Holder) { port in m.holder && m.holder[port] == h }

  /** Every taken port has a holder, and every holder its port. */
  ghost predicate Accounted(m: Machine) {
    && m.holder.Keys == m.reg.pool.taken
    && (forall p :: p in m.holder ==> Keeps(m, m.holder[p], p))
    && (forall id :: id in m.reg.tunnels && !LetGo(m, id) ==> Kept(m, m.reg.tunnels[id].remotePort, Record(id)))
    && (forall c :: c in m.inflight ==> Kept(m, m.inflight[c].remotePort, Call(c)))
  }

  // ---- records and slices ----

  predicate Sorted(ts: seq<Tunnel>) {
    forall i, j :: 0 <= i < j < |ts| ==> ts[i].id < ts[j].id
  }

  predicate Registered(m: Machine, t: Tunnel) { t.id in m.reg.tunnels && m.reg.tunnels[t.id] == t }

  predicate Adopted(m: Machine, id: nat, client: string) {
    id in m.reg.tunnels && id in m.adopted && m.reg.tunnels[id].client == client
  }

  /** What is listed for a client and still registered: its slice, or while
      RemoveClient works through it, the rest of it. */
  function Listed(m: Machine, client: string): seq<Tunnel>
    requires client in m.reg.clients
  {
    if m.mu.Purging? && m.mu.client == client then m.mu.todo else m.reg.clients[client].slice
  }

  /** A client's slice lists, in order and without duplicates, exactly the
      registered tunnels that were adopted for it. */
  ghost predicate SliceAgrees(m: Machine, client: string)
    requires client in m.reg.clients
  {
    && Sorted(Listed(m, client))
    && (forall t :: t in Listed(m, client) ==> Registered(m, t) && Adopted(m, t.id, client))
    && (forall id :: id in m.reg.tunnels && Adopted(m, id, client) ==> m.reg.tunnels[id] in Listed(m, client))
  }

  ghost predicate SlicesAgree(m: Machine) {
    forall c :: c in m.reg.clients ==> SliceAgrees(m, c)
  }

  ghost predicate Numbered(m: Machine) {
    && (forall id :: id in m.reg.tunnels ==> id < m.nextId && m.reg.tunnels[id].id == id)
    && (forall id :: id in m.adopted ==> id < m.nextId)
    && (forall id :: id in m.reg.tunnels && id in m.adopted ==> m.reg.tunnels[id].client in m.reg.clients)
    && (m.mu.Dropping? ==> m.mu.id in m.reg.tunnels)
    && (m.mu.Purging? ==> m.mu.client in m.reg.clients)
  }

  ghost predicate Inv(m: Machine) {
    Valid(m.reg.pool) && Numbered(m) && Accounted(m) && SlicesAgree(m)
  }

  lemma {:induction false} WithoutKeeps(ts: seq<Tunnel>, id: nat)
    requires Sorted(ts)
    ensures Sorted(Without(ts, id))
    ensures forall t :: t in Without(ts, id) <==> t in ts && t.id != id
  {
    if ts != [] {
      var init, last := ts[..|ts| - 1], ts[|ts| - 1];
      WithoutKeeps(init, id);
      assert ts == init + [last];
    }
  }

  lemma StartInv(min: int, max: int)
    ensures Inv(Start(min, max))
  {
  }

  /** The port a call is given was nobody's; without one, nothing changes. */
  lemma TakeChanges(m: Machine, a: Act)
    requires Valid(m.reg.pool) && Enabled(m, a) && a.Take?
    ensures var m', (pool', port) := Next(m, a), Allocated(m.reg.pool, a.requested);
      && Valid(m'.reg.pool) && m'.reg == m.reg.(pool := pool') && m'.mu == m.mu
      && (port.None? ==> m' == m)
      && (port.Some? ==>
            && port.value !in m.reg.pool.taken && pool'.taken == m.reg.pool.taken + {port.value}
            && m'.inflight == m.inflight[a.call := Tunnel(0, a.client, a.proto, a.localPort, port.value)]
            && m'.holder == m.holder[port.value := Call(a.call)])
  {
    AssignedIsFree(m.reg.pool, a.requested);
  }

  lemma TakeAccounts(m: Machine, a: Act)
    requires Valid(m.reg.pool) && Accounted(m) && Enabled(m, a) && a.Take?
    ensures Valid(Next(m, a).reg.pool) && Accounted(Next(m, a))
  {
    TakeChanges(m, a);
  }

  lemma InsertAccounts(m: Machine, call: nat)
    requires Accounted(m) && Numbered(m) && Enabled(m, Insert(call))
    ensures Accounted(Next(m, Insert(call)))
  {
  }

  lemma ClientAccounts(m: Machine, a: Act)
    requires Accounted(m) && Enabled(m, a) && (a.AddClient? || a.MarkOffline?)
    ensures Accounted(Next(m, a))
  {
  }

  lemma DropAccounts(m: Machine, a: Act)
    requires Accounted(m) && Numbered(m) && Enabled(m, a) && (a.DropLock? || a.DropRelease? || a.DropDelete?)
    ensures Accounted(Next(m, a))
  {
  }

  lemma PurgeAccounts(m: Machine, a: Act)
    requires Accounted(m) && Numbered(m) && Enabled(m, a)
    requires a.PurgeLock? || a.PurgeDelete? || a.PurgeUnlock?
    ensures Accounted(Next(m, a))
  {
  }

  lemma PurgeReleaseAccounts(m: Machine)
    requires Accounted(m) && Enabled(m, PurgeRelease)
    requires Registered(m, m.mu.todo[0])
    ensures Accounted(Next(m, PurgeRelease))
  {
  }

  lemma NextNumbered(m: Machine, a: Act)
    requires Numbered(m) && Enabled(m, a)
    ensures Numbered(Next(m, a))
  {
  }

  lemma TakeSlices(m: Machine, a: Act, c: string)
    requires c in m.reg.clients && SliceAgrees(m, c) && Enabled(m, a) && (a.Take? || a.DropLock? || a.DropRelease?)
    ensures c in Next(m, a).reg.clients && SliceAgrees(Next(m, a), c)
  {
  }

  lemma InsertSlices(m: Machine, call: nat, c: string)
    requires c in m.reg.clients && SliceAgrees(m, c) && Numbered(m) && Enabled(m, Insert(call))
    ensures c in Next(m, Insert(call)).reg.clients && SliceAgrees(Next(m, Insert(call)), c)
  {
    var m', t := Next(m, Insert(call)), m.inflight[call].(id := m.nextId);
    if t.client == c {
      assert Listed(m', c) == Listed(m, c) + [t];
    } else {
      assert Listed(m', c) == Listed(m, c);
    }
  }

  lemma ClientSlices(m: Machine, a: Act, c: string)
    requires Numbered(m) && Enabled(m, a) && (a.AddClient? || a.MarkOffline?)
    requires c in m.reg.clients ==> SliceAgrees(m, c)
    ensures c in Next(m, a).reg.clients ==> SliceAgrees(Next(m, a), c)
  {
  }

  lemma DropSlices(m: Machine, c: string)
    requires c in m.reg.clients && SliceAgrees(m, c) && Numbered(m) && Enabled(m, DropDelete)
    ensures c in Next(m, DropDelete).reg.clients && SliceAgrees(Next(m, DropDelete), c)
  {
    if c == m.reg.tunnels[m.mu.id].client {
      WithoutKeeps(m.reg.clients[c].slice, m.mu.id);
      assert Listed(Next(m, DropDelete), c) == Without(m.reg.clients[c].slice, m.mu.id);
    } else {
      assert Listed(Next(m, DropDelete), c) == Listed(m, c);
    }
  }

  lemma PurgeSlices(m: Machine, a: Act, c: string)
    requires c in m.reg.clients && SliceAgrees(m, c) && Numbered(m) && Enabled(m, a)
    requires a.PurgeLock? || a.PurgeRelease? || a.PurgeUnlock?
    ensures c in Next(m, a).reg.clients && SliceAgrees(Next(m, a), c)
  {
  }

  lemma DropFirst(ts: seq<Tunnel>)
    requires Sorted(ts) && ts != []
    ensures Sorted(ts[1..])
    ensures forall t :: t in ts[1..] <==> t in ts && t.id != ts[0].id
  {
    assert ts == [ts[0]] + ts[1..];
  }

  lemma PurgeDeleteOwn(m: Machine)
    requires Enabled(m, PurgeDelete) && m.mu.client in m.reg.clients && SliceAgrees(m, m.mu.client) && Numbered(m)
    ensures SliceAgrees(Next(m, PurgeDelete), m.mu.client)
  {
    var m', first := Next(m, PurgeDelete), m.mu.todo[0];
    DropFirst(m.mu.todo);
    assert Listed(m', m.mu.client) == m.mu.todo[1..];
    forall t | t in m.mu.todo[1..] ensures Registered(m', t) && Adopted(m', t.id, m.mu.client) {
      assert t in Listed(m, m.mu.client) && t.id != first.id;
    }
  }

  lemma PurgeDeleteOther(m: Machine, c: string)
    requires c in m.reg.clients && SliceAgrees(m, c) && Numbered(m) && Enabled(m, PurgeDelete)
    requires SliceAgrees(m, m.mu.client) && c != m.mu.client
    ensures SliceAgrees(Next(m, PurgeDelete), c)
  {
    assert m.mu.todo[0] in Listed(m, m.mu.client);
  }

  lemma NextSlices(m: Machine, a: Act)
    requires SlicesAgree(m) && Numbered(m) && Enabled(m, a)
    ensures SlicesAgree(Next(m, a))
  {
    forall c | c in Next(m, a).reg.clients ensures SliceAgrees(Next(m, a), c) {
      match a
      case Take(_, _, _, _, _) => TakeSlices(m, a, c);
      case DropLock(_) => TakeSlices(m, a, c);
      case DropRelease => TakeSlices(m, a, c);
      case Insert(call) => InsertSlices(m, call, c);
      case DropDelete => DropSlices(m, c);
      case PurgeDelete =>
        if c == m.mu.client {
          PurgeDeleteOwn(m);
        } else {
          PurgeDeleteOther(m, c);
        }
      case AddClient(_, _, _) => ClientSlices(m, a, c);
      case MarkOffline(_) => ClientSlices(m, a, c);
      case _ => PurgeSlices(m, a, c);
    }
  }

  lemma NextAccounts(m: Machine, a: Act)
    requires Inv(m) && Enabled(m, a)
    ensures Valid(Next(m, a).reg.pool) && Accounted(Next(m, a))
  {
    match a
    case Take(_, _, _, _, _) => TakeAccounts(m, a);
    case Insert(call) => InsertAccounts(m, call);
    case AddClient(_, _, _) => ClientAccounts(m, a);
    case MarkOffline(_) => ClientAccounts(m, a);
    case DropLock(_) => DropAccounts(m, a);
    case DropRelease => DropAccounts(m, a);
    case DropDelete => DropAccounts(m, a);
    case PurgeRelease =>
      assert SliceAgrees(m, m.mu.client) && m.mu.todo[0] in Listed(m, m.mu.client);
      PurgeReleaseAccounts(m);
    case _ => PurgeAccounts(m, a);
  }

  lemma NextInv(m: Machine, a: Act)
    requires Inv(m) && Enabled(m, a)
    ensures Inv(Next(m, a))
  {
    NextAccounts(m, a);
    NextNumbered(m, a);
    NextSlices(m, a);
  }

  predicate Runs(m: Machine, acts: seq<Act>)
    decreases |acts|
  {
    acts == [] || (Enabled(m, acts[0]) && Runs(Next(m, acts[0]), acts[1..]))
  }

  function Final(m: Machine, acts: seq<Act>): Machine
    requires Runs(m, acts)
    decreases |acts|
  {
    if acts == [] then m else Final(Next(m, acts[0]), acts[1..])
  }

  lemma {:induction false} RunInv(m: Machine, acts: seq<Act>)
    requires Inv(m) && Runs(m, acts)
    ensures Inv(Final(m, acts))
    decreases |acts|
  {
    if acts != [] {
      NextInv(m, acts[0]);
      RunInv(Next(m, acts[0]), acts[1..]);
    }
  }

  // ---- what holds whenever the mutex is free ----

  function RecordPorts(m: Machine): set<int> { set id | id in m.reg.tunnels :: m.reg.tunnels[id].remotePort }

  function CallPorts(m: Machine): set<int> { set c | c in m.inflight :: m.inflight[c].remotePort }

  /** However calls interleave: whenever the registry's mutex is free, the taken
      ports are exactly those of the registered tunnels and those of the
      AddTunnel calls in flight, all in range and none held twice. */
  lemma PortsAccountedFor(min: int, max: int, acts: seq<Act>)
    requires Runs(Start(min, max), acts) && Final(Start(min, max), acts).mu.Free?
    ensures var m := Final(Start(min, max), acts);
      && m.reg.pool.taken == RecordPorts(m) + CallPorts(m)
      && RecordPorts(m) !! CallPorts(m)
      && (forall i, j :: i in m.reg.tunnels && j in m.reg.tunnels && i != j ==>
            m.reg.tunnels[i].remotePort != m.reg.tunnels[j].remotePort)
      && (forall c, d :: c in m.inflight && d in m.inflight && c != d ==>
            m.inflight[c].remotePort != m.inflight[d].remotePort)
      && (forall p :: p in m.reg.pool.taken ==> m.reg.pool.min <= p <= m.reg.pool.max)
  {
    var m := Final(Start(min, max), acts);
    StartInv(min, max);
    RunInv(Start(min, max), acts);
    forall p | p in m.reg.pool.taken ensures p in RecordPorts(m) + CallPorts(m) {
      assert Keeps(m, m.holder[p], p);
    }
    forall i | i in m.reg.tunnels ensures Kept(m, m.reg.tunnels[i].remotePort, Record(i)) {
      assert !LetGo(m, i);
    }
  }

  /** And then each client's slice is its adopted, registered tunnels in the
      order they were registered: nothing more, nothing less, nothing twice. */
  lemma SlicesMatchRecords(min: int, max: int, acts: seq<Act>, client: string)
    requires Runs(Start(min, max), acts)
    requires var m := Final(Start(min, max), acts); m.mu.Free? && client in m.reg.clients
    ensures var m := Final(Start(min, max), acts);
      var slice := m.reg.clients[client].slice;
      && Sorted(slice)
      && (forall t: Tunnel :: t in slice <==>
            t.id in m.reg.tunnels && m.reg.tunnels[t.id] == t && t.client == client && t.id in m.adopted)
  {
    var m := Final(Start(min, max), acts);
    StartInv(min, max);
    RunInv(Start(min, max), acts);
    assert SliceAgrees(m, client);
    forall t: Tunnel | t.id in m.reg.tunnels && m.reg.tunnels[t.id] == t && t.client == client && t.id in m.adopted
      ensures t in m.reg.clients[client].slice
    {
      assert Adopted(m, t.id, client);
    }
  }

  /** Why the mutex must be free: while RemoveTunnel is between releasing the
      port and deleting the record, another call can already hold that port. */
  lemma TransientOverlap(m: Machine, id: nat, call: nat, client: string, proto: string, localPort: int)
    requires Inv(m) && m.mu.Free? && id in m.reg.tunnels && call !in m.inflight && m.reg.tunnels[id].remotePort != 0
    ensures var m1 := Next(Next(m, DropLock(id)), DropRelease);
      var take := Take(call, client, proto, localPort, m.reg.tunnels[id].remotePort);
      Enabled(m1, take) && !Next(m1, take).mu.Free? && call in Next(m1, take).inflight
      && Next(m1, take).inflight[call].remotePort == Next(m1, take).reg.tunnels[id].remotePort
  {
    assert Holds(m, id) && Kept(m, m.reg.tunnels[id].remotePort, Record(id));
  }

  // ---- the registry's methods are runs of this machine ----

  lemma AddTunnelIsRun(m: Machine, call: nat, client: string, proto: string, localPort: int, requested: int)
    requires m.mu.Free? && call !in m.inflight
    ensures var take := Take(call, client, proto, localPort, requested);
      var m1 := Next(m, take);
      var (reg', t) := AddTunnelSpec(m.reg, m.nextId, client, proto, localPort, requested);
      if t.None? then m1.reg == reg' && m1.inflight == m.inflight
      else
        Enabled(m1, Insert(call))
        && Next(m1, Insert(call)).reg == reg' && Next(m1, Insert(call)).inflight == m.inflight
  {
  }

  lemma RemoveTunnelIsRun(m: Machine, id: nat)
    requires m.mu.Free? && Numbered(m) && id in m.reg.tunnels
    ensures var m1 := Next(m, DropLock(id));
      Enabled(m1, DropRelease) && Enabled(Next(m1, DropRelease), DropDelete)
      && Next(Next(m1, DropRelease), DropDelete).reg == RemoveTunnelSpec(m.reg, id)
      && Next(Next(m1, DropRelease), DropDelete).mu.Free?
  {
  }

  lemma {:induction false} DroppedFront(s: RegState, ts: seq<Tunnel>)
    requires ts != []
    ensures Dropped(s, ts) ==
      Dropped(s.(pool := Released(s.pool, ts[0].remotePort), tunnels := s.tunnels - {ts[0].id}), ts[1..])
  {
    var last := |ts| - 1;
    if last > 0 {
      DroppedFront(s, ts[..last]);
      assert ts[1..][..last - 1] == ts[..last][1..];
    } else {
      assert ts[..0] == [];
    }
  }

  function PurgeActs(n: nat): seq<Act> {
    if n == 0 then [PurgeUnlock] else [PurgeRelease] + ([PurgeDelete] + PurgeActs(n - 1))
  }

  lemma {:induction false} PurgeRuns(m: Machine)
    requires m.mu.Purging? && !m.mu.gone && m.mu.client in m.reg.clients
    ensures Runs(m, PurgeActs(|m.mu.todo|))
    ensures var m', dropped := Final(m, PurgeActs(|m.mu.todo|)), Dropped(m.reg, m.mu.todo);
      m'.mu.Free?
      && m'.reg == dropped.(clients := dropped.clients[m.mu.client := m.reg.clients[m.mu.client].(slice := [])])
      && dropped.clients == m.reg.clients
    decreases |m.mu.todo|
  {
    if m.mu.todo != [] {
      DroppedFront(m.reg, m.mu.todo);
      var m1 := Next(m, PurgeRelease);
      var m2 := Next(m1, PurgeDelete);
      PurgeRuns(m2);
      var rest := PurgeActs(|m2.mu.todo|);
      var all := [PurgeRelease] + ([PurgeDelete] + rest);
      assert PurgeActs(|m.mu.todo|) == all && all[1..] == [PurgeDelete] + rest;
      assert ([PurgeDelete] + rest)[1..] == rest;
      assert Runs(m1, [PurgeDelete] + rest);
    } else {
      assert PurgeActs(0)[1..] == [] && Runs(Next(m, PurgeUnlock), []);
    }
  }

  lemma {:induction false} DroppedIgnoresClients(s: RegState, s': RegState, ts: seq<Tunnel>)
    requires s'.pool == s.pool && s'.tunnels == s.tunnels
    ensures Dropped(s', ts).pool == Dropped(s, ts).pool && Dropped(s', ts).tunnels == Dropped(s, ts).tunnels
    ensures Dropped(s, ts).clients == s.clients
  {
    if ts != [] {
      DroppedIgnoresClients(s, s', ts[..|ts| - 1]);
    }
  }

  lemma RemoveClientIsRun(m: Machine, client: string)
    requires m.mu.Free? && client in m.reg.clients
    ensures var m1, acts := Next(m, PurgeLock(client)), PurgeActs(|m.reg.clients[client].slice|);
      Runs(m1, acts) && Final(m1, acts).mu.Free? && Final(m1, acts).reg == RemoveClientSpec(m.reg, client).0
  {
    var m1 := Next(m, PurgeLock(client));
    PurgeRuns(m1);
    DroppedIgnoresClients(m.reg, m1.reg, m.reg.clients[client].slice);
    DroppedIgnoresClients(m1.reg, m1.reg, m.reg.clients[client].slice);
  }
}
