/** The tunnel registry as the program writes it: client objects with their
    tunnel slices, the tunnels map and the pool, changed in place under one
    mutex. Each method is proved against a function of the registry's state. */
module Registries {
  import opened Options
  import opened Pools

  datatype Tunnel = Tunnel(id: nat, client: string, proto: string, localPort: int, remotePort: int)

  datatype ClientState = ClientState(name: string, ip: string, online: bool, slice: seq<Tunnel>)

  datatype RegState = RegState(pool: PoolState, clients: map<string, ClientState>, tunnels: map<nat, Tunnel>)

  // ---- the specification ----

  function WithClient(s: RegState, id: string, name: string, ip: string): RegState {
    s.(clients := s.clients[id :=
         if id in s.clients then s.clients[id].(online := true, ip := ip) else ClientState(name, ip, true, [])])
  }

  function WithOffline(s: RegState, id: string): RegState {
    if id in s.clients then s.(clients := s.clients[id := s.clients[id].(online := false)]) else s
  }

  /** The insertion half of AddTunnel, under the registry's mutex. */
  function WithTunnel(s: RegState, t: Tunnel): RegState {
    s.(tunnels := s.tunnels[t.id := t],
       clients := if t.client in s.clients
         then s.clients[t.client := s.clients[t.client].(slice := s.clients[t.client].slice + [t])]
         else s.clients)
  }

  function AddTunnelSpec(s: RegState, id: nat, client: string, proto: string, localPort: int, requested: int)
    : (RegState, Option<Tunnel>)
  {
    var (pool', port) := Allocated(s.pool, requested);
    if port.None? then (s.(pool := pool'), None)
    else
      var t := Tunnel(id, client, proto, localPort, port.value);
      (WithTunnel(s.(pool := pool'), t), Some(t))
  }

  /** The slice without one tunnel, order kept. */
  function Without(ts: seq<Tunnel>, id: nat): seq<Tunnel> {
    if ts == [] then []
    else
      var init, last := Without(ts[..|ts| - 1], id), ts[|ts| - 1];
      if last.id != id then init + [last] else init
  }

  /** The deletion half of RemoveTunnel, after the port has been released. */
  function WithoutTunnel(s: RegState, t: Tunnel): RegState {
    s.(tunnels := s.tunnels - {t.id},
       clients := if t.client in s.clients
         then s.clients[t.client := s.clients[t.client].(slice := Without(s.clients[t.client].slice, t.id))]
         else s.clients)
  }

  function RemoveTunnelSpec(s: RegState, id: nat): RegState {
    if id !in s.tunnels then s
    else WithoutTunnel(s.(pool := Released(s.pool, s.tunnels[id].remotePort)), s.tunnels[id])
  }

  /** RemoveClient's loop over the client's slice. */
  function Dropped(s: RegState, ts: seq<Tunnel>): RegState {
    if ts == [] then s
    else
      var s', t := Dropped(s, ts[..|ts| - 1]), ts[|ts| - 1];
      s'.(pool := Released(s'.pool, t.remotePort), tunnels := s'.tunnels - {t.id})
  }

  function RemoveClientSpec(s: RegState, id: string): (RegState, seq<Tunnel>) {
    if id !in s.clients then (s, [])
    else
      var c := s.clients[id];
      var s' := Dropped(s, c.slice);
      (s'.(clients := s'.clients[id := c.(online := false, slice := [])]), c.slice)
  }

  // ---- the objects ----

  /** A client with its tunnel slice: a backing array and a length. */
  class Client {
    const name: string
    var ip: string
    var online: bool
    var slots: array<Tunnel>
    var count: nat

    predicate Fits()
      reads this
    {
      count <= slots.Length
    }

    function Slice(): seq<Tunnel>
      requires Fits()
      reads this, slots
    {
      slots[..count]
    }

    function State(): ClientState
      requires Fits()
      reads this, slots
    {
      ClientState(name, ip, online, slots[..count])
    }

    constructor (name: string, ip: string)
      ensures Fits() && State() == ClientState(name, ip, true, []) && fresh(slots)
    {
      this.name, this.ip, this.online, this.count := name, ip, true, 0;
      this.slots := new Tunnel[0];
    }

    /** append: in place while there is room, else into a larger array. */
    method Append(t: Tunnel)
      requires Fits()
      modifies this, slots
      ensures Fits() && State() == old(State()).(slice := old(Slice()) + [t])
      ensures slots == old(slots) || fresh(slots)
    {
      if count == slots.Length {
        var bigger := new Tunnel[2 * count + 1](i requires 0 <= i < 2 * count + 1 reads this, slots =>
          if i < count && count <= slots.Length then slots[i] else t);
        slots := bigger;
      } else {
        slots[count] := t;
      }
      count := count + 1;
    }

    method Clear()
      requires Fits()
      modifies this
      ensures Fits() && slots == old(slots) && State() == old(State()).(online := false, slice := [])
    {
      online, count := false, 0;
    }

    /** The in-place filter c.Tunnels[:0]: kept tunnels move down over dropped ones. */
    method Filter(id: nat)
      requires Fits()
      modifies this, slots
      ensures Fits() && slots == old(slots)
      ensures State() == old(State()).(slice := Without(old(Slice()), id))
    {
      var kept := 0;
      ghost var was := slots[..];
      for i := 0 to count
        invariant kept <= i && count == old(count) && slots == old(slots) && ip == old(ip) && online == old(online)
        invariant |was| == slots.Length && forall j :: i <= j < slots.Length ==> slots[j] == was[j]
        invariant slots[..kept] == Without(was[..i], id)
      {
        var t := slots[i];
        assert t == was[i] && was[..i + 1][..i] == was[..i];
        if t.id != id {
          slots[kept] := t;
          kept := kept + 1;
        }
      }
      count := kept;
    }
  }

  class Registry {
    const pool: Pool
    var clients: map<string, Client>
    var tunnels: map<nat, Tunnel>

    ghost function Arrays(): set<array<Tunnel>>
      reads this, clients.Values
    {
      set c | c in clients.Values :: c.slots
    }

    /** Distinct clients are distinct objects with distinct backing arrays. */
    ghost predicate Valid()
      reads this, clients.Values, pool
    {
      && Pools.Valid(pool.State())
      && (forall k :: k in clients ==> clients[k].Fits())
      && (forall k, l :: k in clients && l in clients && k != l ==>
            clients[k] != clients[l] && clients[k].slots != clients[l].slots)
    }

    ghost function ClientStates(): map<string, ClientState>
      requires Valid()
      reads this, pool, clients.Values, Arrays()
    {
      map k | k in clients :: clients[k].State()
    }

    ghost function State(): RegState
      requires Valid()
      reads this, pool, clients.Values, Arrays()
    {
      RegState(pool.State(), ClientStates(), tunnels)
    }

    constructor (pool: Pool)
      requires Pools.Valid(pool.State())
      ensures Valid() && State() == RegState(pool.State(), map[], map[]) && this.pool == pool
    {
      this.pool, this.clients, this.tunnels := pool, map[], map[];
    }

    method Enrol(id: string, name: string, ip: string)
      requires Valid() && id !in clients
      modifies this`clients
      ensures Valid() && tunnels == old(tunnels)
      ensures ClientStates() == old(ClientStates())[id := ClientState(name, ip, true, [])]
      ensures fresh(clients.Values - old(clients.Values))
    {
      var c := new Client(name, ip);
      clients := clients[id := c];
      assert clients.Values <= old(clients).Values + {c};
      assert ClientStates() == old(ClientStates())[id := c.State()];
    }

    method AddClient(id: string, name: string, ip: string)
      requires Valid()
      modifies this`clients, clients.Values
      ensures Valid() && State() == WithClient(old(State()), id, name, ip)
      ensures fresh(clients.Values - old(clients.Values))
    {
      if id in clients {
        clients[id].online := true;
        clients[id].ip := ip;
        assert ClientStates() == old(ClientStates())[id := clients[id].State()];
      } else {
        Enrol(id, name, ip);
      }
    }

    method MarkOffline(id: string)
      requires Valid()
      modifies clients.Values
      ensures Valid() && State() == WithOffline(old(State()), id)
    {
      if id in clients {
        clients[id].online := false;
        assert ClientStates() == old(ClientStates())[id := clients[id].State()];
      }
    }

    method AppendTo(client: string, t: Tunnel)
      requires Valid() && client in clients
      modifies clients[client], clients[client].slots
      ensures Valid()
      ensures ClientStates() ==
        old(ClientStates())[client := old(ClientStates()[client].(slice := ClientStates()[client].slice + [t]))]
    {
      clients[client].Append(t);
      assert Valid();
      assert ClientStates() == old(ClientStates())[client := clients[client].State()];
    }

    method FilterOut(client: string, id: nat)
      requires Valid() && client in clients
      modifies clients[client], clients[client].slots
      ensures Valid()
      ensures ClientStates() ==
        old(ClientStates())[client :=
          old(ClientStates()[client].(slice := Without(ClientStates()[client].slice, id)))]
    {
      clients[client].Filter(id);
      assert Valid();
      assert ClientStates() == old(ClientStates())[client := clients[client].State()];
    }

    /** AddTunnel once it holds the mutex. */
    method Insert(t: Tunnel)
      requires Valid()
      modifies this`tunnels, clients.Values, Arrays()
      ensures Valid() && State() == WithTunnel(old(State()), t)
    {
      tunnels := tunnels[t.id := t];
      assert ClientStates() == old(ClientStates());
      if t.client in clients {
        AppendTo(t.client, t);
      }
    }

    method AddTunnel(id: nat, client: string, proto: string, localPort: int, requested: int) returns (r: Option<Tunnel>)
      requires Valid()
      modifies this`tunnels, pool, clients.Values, Arrays()
      ensures Valid()
      ensures (State(), r) == AddTunnelSpec(old(State()), id, client, proto, localPort, requested)
    {
      var port, _ := pool.Allocate(requested);
      assert ClientStates() == old(ClientStates());
      if port.None? {
        return None;
      }
      var t := Tunnel(id, client, proto, localPort, port.value);
      Insert(t);
      return Some(t);
    }

    method Delete(id: nat)
      requires Valid()
      modifies this`tunnels
      ensures Valid() && State() == old(State()).(tunnels := old(tunnels) - {id})
    {
      tunnels := tunnels - {id};
      assert ClientStates() == old(ClientStates());
    }

    /** RemoveTunnel once it has released the port. */
    method Erase(t: Tunnel)
      requires Valid()
      modifies this`tunnels, clients.Values, Arrays()
      ensures Valid() && State() == WithoutTunnel(old(State()), t)
    {
      if t.client in clients {
        FilterOut(t.client, t.id);
      }
      Delete(t.id);
    }

    method RemoveTunnel(id: nat) returns (found: bool)
      requires Valid()
      modifies this`tunnels, pool, clients.Values, Arrays()
      ensures Valid() && found == (id in old(tunnels))
      ensures State() == RemoveTunnelSpec(old(State()), id)
    {
      if id !in tunnels {
        return false;
      }
      var t := tunnels[id];
      pool.Release(t.remotePort);
      assert ClientStates() == old(ClientStates());
      Erase(t);
      return true;
    }

    method Reset(id: string)
      requires Valid() && id in clients
      modifies clients[id]
      ensures Valid()
      ensures ClientStates() == old(ClientStates())[id := old(ClientStates()[id].(online := false, slice := []))]
    {
      clients[id].Clear();
      assert ClientStates() == old(ClientStates())[id := clients[id].State()];
    }

    /** Release and delete every tunnel of one client's slice. */
    method DropAll(c: Client) returns (removed: seq<Tunnel>)
      requires Valid() && c in clients.Values
      modifies this`tunnels, pool
      ensures Valid() && removed == c.slots[..c.count] && State() == Dropped(old(State()), removed)
    {
      removed := [];
      for i := 0 to c.count
        invariant Pools.Valid(pool.State())
        invariant removed == c.slots[..i]
        invariant RegState(pool.State(), old(ClientStates()), tunnels) == Dropped(old(State()), removed)
      {
        var t := c.slots[i];
        pool.Release(t.remotePort);
        tunnels := tunnels - {t.id};
        removed := removed + [t];
        assert removed[..i] == c.slots[..i];
      }
      assert ClientStates() == old(ClientStates());
    }

    method RemoveClient(id: string) returns (removed: seq<Tunnel>)
      requires Valid()
      modifies this`tunnels, pool, clients.Values
      ensures Valid() && (State(), removed) == RemoveClientSpec(old(State()), id)
    {
      if id !in clients {
        return [];
      }
      removed := DropAll(clients[id]);
      assert removed == old(ClientStates())[id].slice;
      Reset(id);
    }
  }

  // ---- what the specification means ----

  /** A client that is known keeps its name and its tunnels, and comes online at
      the new address; another has no tunnels yet. Nobody else is affected. */
  lemma ClientArrives(s: RegState, id: string, name: string, ip: string)
    ensures var s' := WithClient(s, id, name, ip);
      && s'.tunnels == s.tunnels && s'.pool == s.pool && s'.clients.Keys == s.clients.Keys + {id}
      && s'.clients[id].online && s'.clients[id].ip == ip
      && (id in s.clients ==>
            s'.clients[id].name == s.clients[id].name && s'.clients[id].slice == s.clients[id].slice)
      && (id !in s.clients ==> s'.clients[id].name == name && s'.clients[id].slice == [])
      && forall c :: c in s.clients && c != id ==> s'.clients[c] == s.clients[c]
  {
  }

  /** A tunnel is added exactly if there is a port for it: the one asked for, or
      any. It has what was asked for, and joins its owner's slice. */
  lemma TunnelArrives(s: RegState, id: nat, client: string, proto: string, localPort: int, requested: int)
    requires Pools.Valid(s.pool)
    ensures var (s', r) := AddTunnelSpec(s, id, client, proto, localPort, requested);
      var asked := requested != 0 && s.pool.min <= requested <= s.pool.max;
      && (asked ==> (r.None? <==> requested in s.pool.taken))
      && (!asked ==> (r.None? <==> forall p :: s.pool.min <= p <= s.pool.max ==> p in s.pool.taken))
      && (r.None? ==> s' == s)
      && (r.Some? ==>
            var t := r.value;
            && t.id == id && t.client == client && t.proto == proto && t.localPort == localPort
            && (asked ==> t.remotePort == requested)
            && s.pool.min <= t.remotePort <= s.pool.max && t.remotePort !in s.pool.taken
            && s'.pool.taken == s.pool.taken + {t.remotePort} && s'.tunnels == s.tunnels[id := t]
            && s'.clients.Keys == s.clients.Keys
            && (forall c :: c in s.clients && c != client ==> s'.clients[c] == s.clients[c])
            && (client in s.clients ==>
                  s'.clients[client] == s.clients[client].(slice := s.clients[client].slice + [t])))
  {
    if requested != 0 && InRange(s.pool, requested) {
      RequestedAllocation(s.pool, requested);
    } else {
      AutomaticAllocation(s.pool, requested);
    }
  }

  lemma {:induction false} WithoutAbsent(ts: seq<Tunnel>, id: nat)
    requires forall i :: 0 <= i < |ts| ==> ts[i].id != id
    ensures Without(ts, id) == ts
  {
    if ts != [] {
      WithoutAbsent(ts[..|ts| - 1], id);
    }
  }

  /** Taking out the only tunnel with an identifier closes the gap it leaves. */
  lemma {:induction false} WithoutOne(ts: seq<Tunnel>, i: nat)
    requires i < |ts| && forall j :: 0 <= j < |ts| && j != i ==> ts[j].id != ts[i].id
    ensures Without(ts, ts[i].id) == ts[..i] + ts[i + 1..]
  {
    var init := ts[..|ts| - 1];
    if i == |ts| - 1 {
      WithoutAbsent(init, ts[i].id);
    } else {
      WithoutOne(init, i);
      assert init[..i] == ts[..i] && init[i + 1..] + [ts[|ts| - 1]] == ts[i + 1..];
    }
  }

  /** A tunnel that is removed gives its port back and leaves its owner's slice,
      the others in order; nothing else changes. */
  lemma TunnelLeaves(s: RegState, id: nat, i: nat)
    requires id in s.tunnels && s.tunnels[id].id == id
    requires s.tunnels[id].client in s.clients
    requires var ts := s.clients[s.tunnels[id].client].slice;
      i < |ts| && ts[i].id == id && forall j :: 0 <= j < |ts| && j != i ==> ts[j].id != id
    ensures var (s', owner, port) := (RemoveTunnelSpec(s, id), s.tunnels[id].client, s.tunnels[id].remotePort);
      && s'.tunnels == s.tunnels - {id} && s'.pool.taken == s.pool.taken - {port}
      && s'.pool.cursor == s.pool.cursor && s'.clients.Keys == s.clients.Keys
      && s'.clients[owner].slice == s.clients[owner].slice[..i] + s.clients[owner].slice[i + 1..]
      && s'.clients[owner].online == s.clients[owner].online
      && forall c :: c in s.clients && c != owner ==> s'.clients[c] == s.clients[c]
  {
    WithoutOne(s.clients[s.tunnels[id].client].slice, i);
  }

  lemma {:induction false} DroppedExactly(s: RegState, ts: seq<Tunnel>)
    ensures Dropped(s, ts).clients == s.clients
    ensures forall id :: id in Dropped(s, ts).tunnels <==>
      id in s.tunnels && forall i :: 0 <= i < |ts| ==> ts[i].id != id
    ensures forall id :: id in Dropped(s, ts).tunnels ==> Dropped(s, ts).tunnels[id] == s.tunnels[id]
    ensures forall p :: p in Dropped(s, ts).pool.taken <==>
      p in s.pool.taken && forall i :: 0 <= i < |ts| ==> ts[i].remotePort != p
  {
    if ts != [] {
      var init := ts[..|ts| - 1];
      DroppedExactly(s, init);
      assert forall i :: 0 <= i < |init| ==> ts[i] == init[i];
    }
  }

  /** RemoveClient returns the client's tunnels, and removes exactly these and
      their ports; the client stays, offline. */
  lemma ClientPurged(s: RegState, id: string)
    requires id in s.clients
    ensures var (s', ts) := RemoveClientSpec(s, id);
      && ts == s.clients[id].slice && s'.clients.Keys == s.clients.Keys
      && !s'.clients[id].online && s'.clients[id].slice == []
      && (forall c :: c in s.clients && c != id ==> s'.clients[c] == s.clients[c])
      && (forall i :: i in s'.tunnels <==> i in s.tunnels && forall k :: 0 <= k < |ts| ==> ts[k].id != i)
      && (forall p :: p in s'.pool.taken <==> p in s.pool.taken && forall k :: 0 <= k < |ts| ==> ts[k].remotePort != p)
  {
    DroppedExactly(s, s.clients[id].slice);
  }
}
