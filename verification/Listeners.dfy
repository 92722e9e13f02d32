/** Tunnel listeners and firewall rules, and the create and delete requests that
    keep them in step with the registry. */
module Listeners {
  import opened Pools
  import opened Registries

  datatype Transport = OverTcp | OverUdp

  function TransportOf(proto: string): Transport { if proto == "udp" then OverUdp else OverTcp }

  datatype Entry = Entry(transport: Transport, port: int)

  /** Listeners by tunnel, and the firewall rules for tunnel ports. */
  datatype ProxyState = ProxyState(data: map<nat, Entry>, rules: set<Entry>)

  /** listenOk: whether the operating system lets us listen. */
  function Started(s: ProxyState, id: nat, proto: string, port: int, listenOk: bool): ProxyState {
    var e := Entry(TransportOf(proto), port);
    if listenOk then ProxyState(s.data[id := e], s.rules + {e}) else s
  }

  function Stopped(s: ProxyState, id: nat): ProxyState {
    if id in s.data then ProxyState(s.data - {id}, s.rules - {s.data[id]}) else s
  }

  function AllStopped(s: ProxyState): ProxyState {
    ProxyState(map[], s.rules - s.data.Values)
  }

  class ProxyStore {
    var data: map<nat, Entry>
    var rules: set<Entry>

    function State(): ProxyState
      reads this
    {
      ProxyState(data, rules)
    }

    constructor ()
      ensures State() == ProxyState(map[], {})
    {
      data, rules := map[], {};
    }

    method Start(proto: string, port: int, id: nat, listenOk: bool) returns (ok: bool)
      modifies this
      ensures ok == listenOk && State() == Started(old(State()), id, proto, port, listenOk)
      ensures !ok ==> data == old(data) && rules == old(rules)
      ensures ok ==> id in data && data == old(data)[id := data[id]] && rules == old(rules) + {data[id]}
      ensures ok ==> data[id].port == port && (data[id].transport.OverUdp? <==> proto == "udp")
    {
      if !listenOk {
        return false;
      }
      var transport := OverTcp;
      if proto == "udp" {
        transport := OverUdp;
      }
      data := data[id := Entry(transport, port)];
      rules := rules + {Entry(transport, port)};
      return true;
    }

    method Stop(id: nat)
      modifies this
      ensures State() == Stopped(old(State()), id)
    {
      if id in data {
        var e := data[id];
        data := data - {id};
        rules := rules - {e};
      }
    }

    method StopAll()
      modifies this
      ensures State() == AllStopped(old(State()))
    {
      var entries := data;
      data := map[];
      var todo := entries.Keys;
      ghost var gone: set<Entry> := {};
      while todo != {}
        invariant todo <= entries.Keys && data == map[] && rules == old(rules) - gone
        invariant gone == set id | id in entries.Keys - todo :: entries[id]
        decreases |todo|
      {
        var id :| id in todo;
        rules := rules - {entries[id]};
        gone := gone + {entries[id]};
        todo := todo - {id};
      }
      assert gone == entries.Values;
    }
  }

  // ---- the create and delete requests ----

  /** `listening`, a history: the tunnels whose listen succeeded. */
  datatype ServerState = ServerState(reg: RegState, proxy: ProxyState, nextId: nat, listening: set<nat>)

  datatype Request =
    | Create(client: string, proto: string, localPort: int, remotePort: int, listenOk: bool)
    | Delete(id: nat)

  datatype Status = Created | Deleted | BadRequest | NotFound | Failed

  function Handle(s: ServerState, r: Request): (ServerState, Status) {
    match r
    case Create(client, proto, localPort, remotePort, listenOk) =>
      if client == "" || proto == "" || localPort == 0 then (s, BadRequest)
      else
        var (reg', t) := AddTunnelSpec(s.reg, s.nextId, client, proto, localPort, remotePort);
        if t.None? then (s.(reg := reg'), Failed)
        else (ServerState(reg', Started(s.proxy, t.value.id, proto, t.value.remotePort, listenOk), s.nextId + 1,
                          if listenOk then s.listening + {t.value.id} else s.listening), Created)
    case Delete(id) =>
      if id !in s.reg.tunnels then (s, NotFound)
      else (s.(reg := RemoveTunnelSpec(s.reg, id), proxy := Stopped(s.proxy, id)), Deleted)
  }

  class Server {
    const registry: Registry
    const proxies: ProxyStore
    var nextId: nat
    ghost var listening: set<nat>

    ghost predicate Valid()
      reads this, registry, registry.pool, registry.clients.Values
    {
      registry.Valid()
    }

    ghost function State(): ServerState
      requires Valid()
      reads this, registry, registry.pool, registry.clients.Values, registry.Arrays(), proxies
    {
      ServerState(registry.State(), proxies.State(), nextId, listening)
    }

    constructor (registry: Registry, proxies: ProxyStore)
      requires registry.Valid()
      ensures Valid() && State() == ServerState(registry.State(), proxies.State(), 0, {})
      ensures this.registry == registry && this.proxies == proxies
    {
      this.registry, this.proxies, this.nextId, this.listening := registry, proxies, 0, {};
    }

    /** StartTunnelProxy; its failure is only logged. */
    method Launch(t: Tunnel, listenOk: bool)
      requires Valid()
      modifies proxies
      ensures Valid() && registry.State() == old(registry.State())
      ensures proxies.State() == Started(old(proxies.State()), t.id, t.proto, t.remotePort, listenOk)
    {
      var ok := proxies.Start(t.proto, t.remotePort, t.id, listenOk);
      assert registry.ClientStates() == old(registry.ClientStates());
    }

    /** The next tunnel gets another id; the history grows. */
    method Note(id: nat, listenOk: bool)
      requires Valid()
      modifies this
      ensures Valid() && registry.State() == old(registry.State())
      ensures nextId == old(nextId) + 1
      ensures listening == if listenOk then old(listening) + {id} else old(listening)
    {
      nextId := nextId + 1;
      if listenOk {
        listening := listening + {id};
      }
      assert registry.ClientStates() == old(registry.ClientStates());
    }

    method Retire(id: nat)
      requires Valid()
      modifies proxies
      ensures Valid() && registry.State() == old(registry.State())
      ensures proxies.State() == Stopped(old(proxies.State()), id)
    {
      proxies.Stop(id);
      assert registry.ClientStates() == old(registry.ClientStates());
    }

    method CreateTunnel(client: string, proto: string, localPort: int, remotePort: int, listenOk: bool)
      returns (status: Status)
      requires Valid()
      modifies this, proxies, registry`tunnels, registry.pool, registry.clients.Values, registry.Arrays()
      ensures Valid()
      ensures (State(), status) == Handle(old(State()), Create(client, proto, localPort, remotePort, listenOk))
    {
      if client == "" || proto == "" || localPort == 0 {
        return BadRequest;
      }
      var t := registry.AddTunnel(nextId, client, proto, localPort, remotePort);
      assert proxies.State() == old(proxies.State()) && nextId == old(nextId) && listening == old(listening);
      if t.None? {
        return Failed;
      }
      Launch(t.value, listenOk);
      Note(t.value.id, listenOk);
      return Created;
    }

    method DeleteTunnel(id: nat) returns (status: Status)
      requires Valid()
      modifies proxies, registry`tunnels, registry.pool, registry.clients.Values, registry.Arrays()
      ensures Valid()
      ensures (State(), status) == Handle(old(State()), Delete(id))
    {
      if id !in registry.tunnels {
        return NotFound;
      }
      var found := registry.RemoveTunnel(id);
      Retire(id);
      return Deleted;
    }
  }

  // ---- what a request is answered ----

  /** A create is answered Created exactly if it added the tunnel asked for, on a
      port that was free: the one asked for, if that is in range. It fails only
      for want of a port, and what is not Created changes nothing. */
  lemma CreateAnswers(s: ServerState, r: Request)
    requires r.Create? && Pools.Valid(s.reg.pool) && s.nextId !in s.reg.tunnels
    ensures var (s', status) := Handle(s, r);
      var asked := r.remotePort != 0 && s.reg.pool.min <= r.remotePort <= s.reg.pool.max;
      && (status == BadRequest <==> r.client == "" || r.proto == "" || r.localPort == 0)
      && (status == Created <==> s.nextId in s'.reg.tunnels)
      && (status == BadRequest || status == Created || status == Failed)
      && (status == Failed ==>
            if asked then r.remotePort in s.reg.pool.taken
            else forall p :: s.reg.pool.min <= p <= s.reg.pool.max ==> p in s.reg.pool.taken)
      && (status != Created ==> s' == s)
      && (status == Created ==>
            var t := s'.reg.tunnels[s.nextId];
            && t.client == r.client && t.proto == r.proto && t.localPort == r.localPort
            && t.remotePort !in s.reg.pool.taken && (asked ==> t.remotePort == r.remotePort)
            && s'.reg.tunnels == s.reg.tunnels[s.nextId := t]
            && s'.listening == (if r.listenOk then s.listening + {s.nextId} else s.listening)
            && s'.nextId > s.nextId)
  {
    TunnelArrives(s.reg, s.nextId, r.client, r.proto, r.localPort, r.remotePort);
  }

  /** A delete is answered Deleted exactly if the tunnel was registered, and then
      neither it nor its listener is left; else NotFound, and nothing changes. */
  lemma DeleteAnswers(s: ServerState, id: nat)
    requires id in s.reg.tunnels ==> s.reg.tunnels[id].id == id
    ensures var (s', status) := Handle(s, Delete(id));
      && (status == Deleted <==> id in s.reg.tunnels) && (status == NotFound <==> id !in s.reg.tunnels)
      && (status == NotFound ==> s' == s)
      && (status == Deleted ==> s'.reg.tunnels == s.reg.tunnels - {id} && s'.proxy.data == s.proxy.data - {id})
      && (status == Deleted ==> s'.reg.pool.taken == s.reg.pool.taken - {s.reg.tunnels[id].remotePort})
  {
  }

  // ---- agreement ----

  predicate Matches(s: ServerState, id: nat) {
    && id in s.reg.tunnels && id in s.proxy.data
    && s.proxy.data[id] == Entry(TransportOf(s.reg.tunnels[id].proto), s.reg.tunnels[id].remotePort)
  }

  /** A tunnel has a listener exactly if it is registered and its listen
      succeeded; the listener has its port and transport; the firewall rules are
      those of the listeners; and no two tunnels share a port. */
  ghost predicate Agrees(s: ServerState) {
    && (forall id :: id in s.proxy.data ==> Matches(s, id))
    && (forall id :: id in s.proxy.data <==> id in s.reg.tunnels && id in s.listening)
    && s.proxy.rules == s.proxy.data.Values
    && (forall i, j :: i in s.reg.tunnels && j in s.reg.tunnels && i != j ==>
          s.reg.tunnels[i].remotePort != s.reg.tunnels[j].remotePort)
    && (forall i :: i in s.reg.tunnels ==>
          s.reg.tunnels[i].id == i < s.nextId && s.reg.tunnels[i].remotePort in s.reg.pool.taken)
    && (forall i :: i in s.listening ==> i < s.nextId)
    && Pools.Valid(s.reg.pool)
  }

  function Fresh(min: int, max: int): ServerState {
    ServerState(RegState(PoolState(min, max, {}, min), map[], map[]), ProxyState(map[], {}), 0, {})
  }

  lemma CreateAgrees(s: ServerState, r: Request)
    requires Agrees(s) && r.Create?
    ensures Agrees(Handle(s, r).0)
  {
    AssignedIsFree(s.reg.pool, r.remotePort);
    var s' := Handle(s, r).0;
    if s'.proxy != s.proxy {
      var id := s.nextId;
      assert s'.proxy.data == s.proxy.data[id := s'.proxy.data[id]];
      forall e | e in s'.proxy.rules ensures e in s'.proxy.data.Values {
        if e != s'.proxy.data[id] {
          var i :| i in s.proxy.data && s.proxy.data[i] == e;
          assert s'.proxy.data[i] == e;
        }
      }
    }
  }

  lemma DeleteAgrees(s: ServerState, id: nat)
    requires Agrees(s)
    ensures Agrees(Handle(s, Delete(id)).0)
  {
    var s' := Handle(s, Delete(id)).0;
    if id in s.proxy.data {
      assert Matches(s, id);
      forall i | i in s'.proxy.data ensures s'.proxy.data[i] in s'.proxy.rules {
        assert Matches(s, i);
      }
      forall e | e in s'.proxy.rules ensures e in s'.proxy.data.Values {
        var i :| i in s.proxy.data && s.proxy.data[i] == e;
        assert s'.proxy.data[i] == e;
      }
    }
  }

  /** Between requests, clients come and go. */
  datatype Event =
    | Asked(request: Request)
    | Connected(client: string, name: string, ip: string)
    | Disconnected(client: string)

  function After(s: ServerState, e: Event): ServerState {
    match e
    case Asked(request) => Handle(s, request).0
    case Connected(client, name, ip) => s.(reg := WithClient(s.reg, client, name, ip))
    case Disconnected(client) => s.(reg := WithOffline(s.reg, client))
  }

  function AfterAll(s: ServerState, es: seq<Event>): ServerState {
    if es == [] then s else After(AfterAll(s, es[..|es| - 1]), es[|es| - 1])
  }

  /** For any requests, handled one at a time, whoever is connected: listeners
      over UDP are those of the tunnels whose protocol is "udp", the others are
      over TCP; and the rules are one for each listener, with its port and class. */
  lemma {:induction false} ListenersAgree(min: int, max: int, es: seq<Event>)
    ensures Agrees(AfterAll(Fresh(min, max), es))
    ensures var s := AfterAll(Fresh(min, max), es);
      && (forall id :: id in s.proxy.data <==> id in s.reg.tunnels && id in s.listening)
      && (forall id :: id in s.proxy.data && id in s.reg.tunnels ==>
            && s.proxy.data[id].port == s.reg.tunnels[id].remotePort
            && (s.proxy.data[id].transport.OverUdp? <==> s.reg.tunnels[id].proto == "udp"))
      && s.proxy.rules == set id | id in s.proxy.data :: s.proxy.data[id]
  {
    if es != [] {
      ListenersAgree(min, max, es[..|es| - 1]);
      var s, e := AfterAll(Fresh(min, max), es[..|es| - 1]), es[|es| - 1];
      if e.Asked? {
        if e.request.Create? {
          CreateAgrees(s, e.request);
        } else {
          DeleteAgrees(s, e.request.id);
        }
      }
    }
  }

  /** stopAll, at shutdown, leaves no listener and no rule. */
  lemma StopAllLeavesNone(min: int, max: int, es: seq<Event>)
    ensures AllStopped(AfterAll(Fresh(min, max), es).proxy) == ProxyState(map[], {})
  {
    ListenersAgree(min, max, es);
  }
}
