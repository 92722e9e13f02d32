/** Create and delete requests that overlap. Each has two halves: a create
    registers its tunnel and then starts its listener, a delete removes the tunnel
    from the registry and then stops its listener; anything may come in between. */
module ListenerRaces {
  import opened Pools
  import opened Registries
  import opened Listeners

  /** `starting`, `stopping`: creates and deletes between their halves. Two
      histories: `stopped`, the tunnels whose stop has run, and `late`, those whose
      listener started after that. */
  datatype World = World(reg: RegState, proxy: ProxyState, nextId: nat,
                         starting: map<nat, Tunnel>, stopping: set<nat>, stopped: set<nat>, late: set<nat>)

  datatype Act =
    | Register(client: string, proto: string, localPort: int, requested: int)
    | Launch(id: nat, listenOk: bool)
    | Unregister(id: nat)
    | Stop(id: nat)
    | Connect(client: string, name: string, ip: string)
    | Disconnect(client: string)

  function Start(min: int, max: int): World {
    World(RegState(PoolState(min, max, {}, min), map[], map[]), ProxyState(map[], {}), 0, map[], {}, {}, {})
  }

  /** A delete whose tunnel is gone by the time it would remove it does nothing. */
  predicate Enabled(w: World, a: Act) {
    match a
    case Register(_, _, _, _) => true
    case Launch(id, _) => id in w.starting
    case Unregister(id) => id in w.reg.tunnels
    case Stop(id) => id in w.stopping
    case Connect(_, _, _) => true
    case Disconnect(_) => true
  }

  function Next(w: World, a: Act): World
    requires Enabled(w, a)
  {
    match a
    case Register(client, proto, localPort, requested) =>
      var (reg', t) := AddTunnelSpec(w.reg, w.nextId, client, proto, localPort, requested);
      if t.None? then w.(reg := reg')
      else w.(reg := reg', nextId := w.nextId + 1, starting := w.starting[w.nextId := t.value])
    case Launch(id, listenOk) =>
      var t := w.starting[id];
      w.(proxy := Started(w.proxy, id, t.proto, t.remotePort, listenOk), starting := w.starting - {id},
         late := if listenOk && id in w.stopped then w.late + {id} else w.late)
    case Unregister(id) => w.(reg := RemoveTunnelSpec(w.reg, id), stopping := w.stopping + {id})
    case Stop(id) =>
      w.(proxy := Stopped(w.proxy, id), stopping := w.stopping - {id}, stopped := w.stopped + {id})
    case Connect(client, name, ip) => w.(reg := WithClient(w.reg, client, name, ip))
    case Disconnect(client) => w.(reg := WithOffline(w.reg, client))
  }

  predicate Runs(w: World, acts: seq<Act>)
    decreases |acts|
  {
    acts == [] || (Enabled(w, acts[0]) && Runs(Next(w, acts[0]), acts[1..]))
  }

  function Final(w: World, acts: seq<Act>): World
    requires Runs(w, acts)
    decreases |acts|
  {
    if acts == [] then w else Final(Next(w, acts[0]), acts[1..])
  }

  lemma RunsFirst(w: World, a: Act, rest: seq<Act>)
    requires Enabled(w, a) && Runs(Next(w, a), rest)
    ensures Runs(w, [a] + rest) && Final(w, [a] + rest) == Final(Next(w, a), rest)
  {
    assert ([a] + rest)[1..] == rest;
  }

  // ---- where a tunnel can be in its life ----

  /** Registered, then being deleted, then stopped; its create may still have to
      start the listener in any of these. */
  predicate Placed(w: World, id: nat) {
    && (id in w.reg.tunnels ==> w.reg.tunnels[id].id == id && id !in w.stopping && id !in w.stopped)
    && (id in w.stopping ==> id !in w.reg.tunnels && id !in w.stopped)
    && (id < w.nextId <==> id in w.reg.tunnels || id in w.stopping || id in w.stopped)
    && (id in w.starting || id in w.proxy.data || id in w.late ==> id < w.nextId)
  }

  /** A listener has its tunnel's port and transport; of the tunnels whose stop has
      run, exactly the late ones have a listener. */
  predicate Listening(w: World, id: nat) {
    && (id in w.starting ==> id !in w.proxy.data && id !in w.late)
    && (id in w.starting && id in w.reg.tunnels ==> w.starting[id] == w.reg.tunnels[id])
    && (id in w.proxy.data && id in w.reg.tunnels ==>
          w.proxy.data[id] == Entry(TransportOf(w.reg.tunnels[id].proto), w.reg.tunnels[id].remotePort))
    && (id in w.stopped && id in w.proxy.data <==> id in w.late)
  }

  predicate Ok(w: World, id: nat) { Placed(w, id) && Listening(w, id) }

  ghost predicate Inv(w: World) { forall id: nat :: Ok(w, id) }

  lemma NextOk(w: World, a: Act, id: nat)
    requires Enabled(w, a) && Ok(w, id) && Ok(w, w.nextId)
    requires a.Unregister? ==> Ok(w, a.id)
    ensures Ok(Next(w, a), id)
  {
  }

  lemma {:induction false} RunInv(w: World, acts: seq<Act>)
    requires Inv(w) && Runs(w, acts)
    ensures Inv(Final(w, acts))
    decreases |acts|
  {
    if acts != [] {
      forall id: nat ensures Ok(Next(w, acts[0]), id) {
        assert Ok(w, id) && Ok(w, w.nextId);
        if acts[0].Unregister? {
          assert Ok(w, acts[0].id);
        }
        NextOk(w, acts[0], id);
      }
      RunInv(Next(w, acts[0]), acts[1..]);
    }
  }

  // ---- which order of steps makes a listener late ----

  predicate StoppedBefore(acts: seq<Act>, id: nat, j: int) {
    exists i :: 0 <= i < j && i < |acts| && acts[i] == Stop(id)
  }

  /** A listener was started for the tunnel after the tunnel's stop had run. */
  predicate LaunchedAfterStop(acts: seq<Act>, id: nat, stopped: bool) {
    exists j :: 0 <= j < |acts| && acts[j] == Launch(id, true) && (stopped || StoppedBefore(acts, id, j))
  }

  lemma LaunchUnfolds(acts: seq<Act>, id: nat, stopped: bool)
    requires acts != []
    ensures LaunchedAfterStop(acts, id, stopped) <==>
      (stopped && acts[0] == Launch(id, true)) || LaunchedAfterStop(acts[1..], id, stopped || acts[0] == Stop(id))
  {
    var rest := acts[1..];
    assert forall i :: 0 < i < |acts| ==> acts[i] == rest[i - 1];
    if LaunchedAfterStop(acts, id, stopped) {
      var j :| 0 <= j < |acts| && acts[j] == Launch(id, true) && (stopped || StoppedBefore(acts, id, j));
      if j > 0 {
        if !stopped && acts[0] != Stop(id) {
          var i :| 0 <= i < j && i < |acts| && acts[i] == Stop(id);
          assert rest[i - 1] == Stop(id) && StoppedBefore(rest, id, j - 1);
        }
        assert rest[j - 1] == Launch(id, true);
      }
    }
    if LaunchedAfterStop(rest, id, stopped || acts[0] == Stop(id)) {
      var j :| 0 <= j < |rest| && rest[j] == Launch(id, true)
               && (stopped || acts[0] == Stop(id) || StoppedBefore(rest, id, j));
      assert acts[j + 1] == Launch(id, true);
      if !stopped {
        if acts[0] == Stop(id) {
          assert StoppedBefore(acts, id, j + 1);
        } else {
          var i :| 0 <= i < j && i < |rest| && rest[i] == Stop(id);
          assert acts[i + 1] == Stop(id) && StoppedBefore(acts, id, j + 1);
        }
      }
    }
  }

  lemma {:induction false} LateExactly(w: World, acts: seq<Act>, id: nat)
    requires Runs(w, acts)
    ensures id in Final(w, acts).late <==> id in w.late || LaunchedAfterStop(acts, id, id in w.stopped)
    decreases |acts|
  {
    if acts != [] {
      LaunchUnfolds(acts, id, id in w.stopped);
      LateExactly(Next(w, acts[0]), acts[1..], id);
    }
  }

  /** However requests overlap: unless a delete of it is between its two halves, a
      tunnel has a listener without being registered exactly if its listener was
      started after its stop had run. A listener whose tunnel is registered has its
      port and transport. */
  lemma OrphansExactly(min: int, max: int, acts: seq<Act>, id: nat)
    requires Runs(Start(min, max), acts)
    ensures var w := Final(Start(min, max), acts);
      && (id !in w.stopping ==>
            (id in w.proxy.data && id !in w.reg.tunnels <==> LaunchedAfterStop(acts, id, false)))
      && (id in w.proxy.data && id in w.reg.tunnels ==>
            && w.proxy.data[id].port == w.reg.tunnels[id].remotePort
            && (w.proxy.data[id].transport.OverUdp? <==> w.reg.tunnels[id].proto == "udp"))
  {
    RunInv(Start(min, max), acts);
    LateExactly(Start(min, max), acts, id);
    assert Ok(Final(Start(min, max), acts), id);
  }

  // ---- the orphan, and the requests that cannot make one ----

  /** A whole delete inside a create. */
  lemma DeleteInsideCreateOrphans(min: int, max: int, client: string, proto: string, localPort: int)
    requires min <= max
    ensures var acts := [Register(client, proto, localPort, 0), Unregister(0), Stop(0), Launch(0, true)];
      Runs(Start(min, max), acts)
      && var w := Final(Start(min, max), acts);
         && w.stopping == {} && w.starting == map[]
         && w.proxy.data == map[0 := Entry(if proto == "udp" then OverUdp else OverTcp, min)] && w.reg.tunnels == map[]
  {
    var w0 := Start(min, max);
    assert Ahead(w0.reg.pool, 0) == min;
    var w1 := Next(w0, Register(client, proto, localPort, 0));
    assert w1.starting == map[0 := Tunnel(0, client, proto, localPort, min)] && w1.reg.tunnels == w1.starting;
    var w2 := Next(w1, Unregister(0));
    var w3 := Next(w2, Stop(0));
    var w4 := Next(w3, Launch(0, true));
    assert w4.proxy.data == map[0 := Entry(TransportOf(proto), min)];
    RunsFirst(w3, Launch(0, true), []);
    RunsFirst(w2, Stop(0), [Launch(0, true)]);
    RunsFirst(w1, Unregister(0), [Stop(0), Launch(0, true)]);
    RunsFirst(w0, Register(client, proto, localPort, 0), [Unregister(0), Stop(0), Launch(0, true)]);
    assert [Register(client, proto, localPort, 0)] + [Unregister(0), Stop(0), Launch(0, true)]
        == [Register(client, proto, localPort, 0), Unregister(0), Stop(0), Launch(0, true)];
  }

  predicate Same(w: World, s: ServerState) { w.reg == s.reg && w.proxy == s.proxy && w.nextId == s.nextId }

  /** A request with nothing in between is a run of its two halves. */
  function Halves(w: World, r: Request): seq<Act> {
    match r
    case Create(client, proto, localPort, remotePort, listenOk) =>
      if client == "" || proto == "" || localPort == 0 then []
      else
        var register := Register(client, proto, localPort, remotePort);
        if AddTunnelSpec(w.reg, w.nextId, client, proto, localPort, remotePort).1.None? then [register]
        else [register] + [Launch(w.nextId, listenOk)]
    case Delete(id) => if id in w.reg.tunnels then [Unregister(id)] + [Stop(id)] else []
  }

  lemma RequestIsRun(w: World, s: ServerState, r: Request)
    requires Same(w, s)
    ensures Runs(w, Halves(w, r)) && Same(Final(w, Halves(w, r)), Handle(s, r).0)
  {
    var acts := Halves(w, r);
    if |acts| == 2 {
      RunsFirst(Next(w, acts[0]), acts[1], []);
      RunsFirst(w, acts[0], [acts[1]]);
      assert [acts[1]] + [] == [acts[1]] && acts == [acts[0]] + [acts[1]];
    } else if |acts| == 1 {
      RunsFirst(w, acts[0], []);
      assert acts == [acts[0]] + [];
    }
  }
}
