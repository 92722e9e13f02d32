/** The life of a client's control session on the relay, and the store that
    proxy handlers look sessions up in. Handlers of one client may overlap: the
    daemon reconnects before the relay has noticed that the old session died. */
module Control {
  import opened Frames
  import Pools
  import R = Registries
  import L = Listeners
  import M = Multiplexer
  import S = ClientSessions

  /** HandleControlConn after the handshake, step by step. */
  datatype Phase =
    | Greeted   // welcome sent
    | Added     // registry.AddClient done
    | Serving   // sessions.set done
    | Removed   // sessions.del done
    | Emptied   // closeAllExternal done
    | Finished  // registry.MarkOffline done

  datatype Handler = Handler(client: string, phase: Phase)

  /** `stored`: the handler whose session the store holds. */
  datatype World = World(handlers: seq<Handler>, stored: map<string, nat>, reg: R.RegState, proxy: L.ProxyState)

  datatype Act =
    | Greet(client: string)
    | Add(h: nat, name: string, ip: string)
    | Set(h: nat) | Del(h: nat) | CloseAll(h: nat) | Offline(h: nat)

  predicate At(w: World, h: nat, p: Phase) { h < |w.handlers| && w.handlers[h].phase == p }

  predicate Enabled(w: World, a: Act) {
    match a
    case Greet(client) => client != ""
    case Add(h, _, _) => At(w, h, Greeted)
    case Set(h) => At(w, h, Added)
    case Del(h) => At(w, h, Serving)
    case CloseAll(h) => At(w, h, Removed)
    case Offline(h) => At(w, h, Emptied)
  }

  function Moved(w: World, h: nat, p: Phase): World
    requires h < |w.handlers|
  {
    w.(handlers := w.handlers[h := w.handlers[h].(phase := p)])
  }

  function Next(w: World, a: Act): World
    requires Enabled(w, a)
  {
    match a
    case Greet(client) => w.(handlers := w.handlers + [Handler(client, Greeted)])
    case Add(h, name, ip) =>
      var c := w.handlers[h].client;
      Moved(w, h, Added).(reg := R.WithClient(w.reg, c, name, ip))
    case Set(h) => Moved(w, h, Serving).(stored := w.stored[w.handlers[h].client := h])
    case Del(h) => Moved(w, h, Removed).(stored := w.stored - {w.handlers[h].client})
    case CloseAll(h) => Moved(w, h, Emptied)
    case Offline(h) =>
      var c := w.handlers[h].client;
      Moved(w, h, Finished).(reg := R.WithOffline(w.reg, c))
  }

  // ---- an invariant that holds even when sessions of one client overlap ----

  predicate Started(p: Phase) { !p.Greeted? }

  ghost predicate StoreSafe(w: World) {
    && (forall c :: c in w.stored ==> At(w, w.stored[c], Serving) && w.handlers[w.stored[c]].client == c)
    && (forall h :: 0 <= h < |w.handlers| && Started(w.handlers[h].phase) ==> w.handlers[h].client in w.reg.clients)
  }

  lemma StoreStaysSafe(w: World, a: Act)
    requires StoreSafe(w) && Enabled(w, a)
    ensures StoreSafe(Next(w, a))
  {
  }

  // ---- runs ----

  predicate Runs(w: World, acts: seq<Act>)
    decreases |acts|
  {
    acts == [] || (Enabled(w, acts[0]) && Runs(Next(w, acts[0]), acts[1..]))
  }

  function Final(w: World, acts: seq<Act>): World
    requires Runs(w, acts)
    decreases |acts|
  {
    if acts == [] then w else Final(Next(w, acts[0]), acts[1..])
  }

  function Start(min: int, max: int): World {
    World([], map[], R.RegState(Pools.PoolState(min, max, {}, min), map[], map[]), L.ProxyState(map[], {}))
  }

  lemma {:induction false} RunInv(w: World, acts: seq<Act>)
    requires StoreSafe(w) && Runs(w, acts)
    ensures StoreSafe(Final(w, acts))
    decreases |acts|
  {
    if acts != [] {
      StoreStaysSafe(w, acts[0]);
      RunInv(Next(w, acts[0]), acts[1..]);
    }
  }

  /** Store safety, for any overlap: a session found in the store belongs to a
      handler of that client that is still serving. */
  lemma StoredSessionIsServing(min: int, max: int, acts: seq<Act>, client: string)
    requires Runs(Start(min, max), acts) && client in Final(Start(min, max), acts).stored
    ensures var w := Final(Start(min, max), acts);
      At(w, w.stored[client], Serving) && w.handlers[w.stored[client]].client == client
  {
    RunInv(Start(min, max), acts);
  }

  // ---- when a client is online, exactly ----

  /** In a run that ended in w: client c's AddClient, client c's MarkOffline. */
  predicate AddsClient(w: World, a: Act, c: string) { a.Add? && a.h < |w.handlers| && w.handlers[a.h].client == c }

  predicate HidesClient(w: World, a: Act, c: string) { a.Offline? && a.h < |w.handlers| && w.handlers[a.h].client == c }

  predicate NoneAdds(w: World, acts: seq<Act>, c: string) {
    forall j :: 0 <= j < |acts| ==> !AddsClient(w, acts[j], c)
  }

  /** A handler of c ran its MarkOffline, and none its AddClient after that. */
  predicate HiddenAt(w: World, acts: seq<Act>, c: string, i: int) {
    0 <= i < |acts| && HidesClient(w, acts[i], c) && NoneAdds(w, acts[i + 1..], c)
  }

  lemma {:induction false} HandlersLast(w: World, acts: seq<Act>, h: nat)
    requires Runs(w, acts) && h < |w.handlers|
    ensures var w' := Final(w, acts);
      && h < |w'.handlers| && w'.handlers[h].client == w.handlers[h].client
      && (w.handlers[h].phase.Finished? ==> w'.handlers[h].phase.Finished?)
    decreases |acts|
  {
    if acts != [] {
      HandlersLast(Next(w, acts[0]), acts[1..], h);
    }
  }

  lemma HiddenLater(w: World, acts: seq<Act>, c: string)
    requires acts != []
    ensures (exists i :: HiddenAt(w, acts, c, i)) <==>
      (HidesClient(w, acts[0], c) && NoneAdds(w, acts[1..], c)) || exists i :: HiddenAt(w, acts[1..], c, i)
    ensures NoneAdds(w, acts, c) <==> !AddsClient(w, acts[0], c) && NoneAdds(w, acts[1..], c)
  {
    var rest := acts[1..];
    forall i | 0 <= i < |rest| ensures HiddenAt(w, rest, c, i) <==> HiddenAt(w, acts, c, i + 1) {
      assert rest[i + 1..] == acts[i + 1 + 1..] && rest[i] == acts[i + 1];
    }
    if i :| HiddenAt(w, rest, c, i) {
      assert HiddenAt(w, acts, c, i + 1);
    }
    if i :| HiddenAt(w, acts, c, i) {
      if i > 0 {
        assert HiddenAt(w, rest, c, i - 1);
      }
    }
    if HidesClient(w, acts[0], c) && NoneAdds(w, rest, c) {
      assert HiddenAt(w, acts, c, 0);
    }
    if NoneAdds(w, acts, c) {
      forall j | 0 <= j < |rest| ensures !AddsClient(w, rest[j], c) {
        assert rest[j] == acts[j + 1];
      }
    }
    if !AddsClient(w, acts[0], c) && NoneAdds(w, rest, c) {
      forall j | 0 <= j < |acts| ensures !AddsClient(w, acts[j], c) {
        if j > 0 {
          assert !AddsClient(w, rest[j - 1], c);
        }
      }
    }
  }

  /** What one step does to a client's flag. */
  lemma StepFlag(w: World, a: Act, c: string)
    requires Enabled(w, a)
    ensures var w' := Next(w, a);
      && (AddsClient(w, a, c) ==> c in w'.reg.clients && w'.reg.clients[c].online)
      && (HidesClient(w, a, c) && c in w.reg.clients ==> c in w'.reg.clients && !w'.reg.clients[c].online)
      && (!AddsClient(w, a, c) ==> (c in w'.reg.clients <==> c in w.reg.clients))
      && (!AddsClient(w, a, c) && !HidesClient(w, a, c) && c in w.reg.clients ==>
            w'.reg.clients[c].online == w.reg.clients[c].online)
  {
  }

  /** From any world: the client is offline at the end exactly if a handler hid it
      and none has added it since, or it was offline before and none added it. */
  lemma {:induction false} OfflineExactly(w: World, acts: seq<Act>, c: string)
    requires StoreSafe(w) && Runs(w, acts) && c in Final(w, acts).reg.clients
    ensures var w' := Final(w, acts);
      !w'.reg.clients[c].online <==>
        (exists i :: HiddenAt(w', acts, c, i))
        || (c in w.reg.clients && !w.reg.clients[c].online && NoneAdds(w', acts, c))
    decreases |acts|
  {
    var w' := Final(w, acts);
    if acts != [] {
      var a, w1, rest := acts[0], Next(w, acts[0]), acts[1..];
      StoreStaysSafe(w, a);
      OfflineExactly(w1, rest, c);
      HiddenLater(w', acts, c);
      StepFlag(w, a, c);
      if a.Add? || a.Offline? {
        HandlersLast(w, acts, a.h);
      }
    }
  }

  lemma {:induction false} HiderFinished(w: World, acts: seq<Act>, i: nat)
    requires Runs(w, acts) && i < |acts| && acts[i].Offline? && acts[i].h < |Final(w, acts).handlers|
    ensures Final(w, acts).handlers[acts[i].h].phase.Finished?
    decreases |acts|
  {
    var w1 := Next(w, acts[0]);
    if i == 0 {
      HandlersLast(w1, acts[1..], acts[0].h);
    } else {
      HiderFinished(w1, acts[1..], i - 1);
    }
  }

  /** When the client of a stored session is marked offline, exactly: when some
      handler of that client has run its MarkOffline and none its AddClient since.
      It was not the stored session's own handler. */
  lemma StoredButOffline(min: int, max: int, acts: seq<Act>, client: string)
    requires Runs(Start(min, max), acts) && client in Final(Start(min, max), acts).stored
    ensures var w := Final(Start(min, max), acts);
      && client in w.reg.clients
      && (!w.reg.clients[client].online <==> exists i :: HiddenAt(w, acts, client, i))
      && (forall i :: HiddenAt(w, acts, client, i) ==> acts[i].h != w.stored[client])
  {
    RunInv(Start(min, max), acts);
    OfflineExactly(Start(min, max), acts, client);
    var w := Final(Start(min, max), acts);
    forall i | HiddenAt(w, acts, client, i) ensures acts[i].h != w.stored[client] {
      HiderFinished(Start(min, max), acts, i);
    }
  }

  // ---- without overlap ----

  predicate Alive(p: Phase) { p.Added? || p.Serving? || p.Removed? || p.Emptied? }

  /** No handler of this client is between AddClient and MarkOffline. */
  predicate Quiet(w: World, client: string) {
    forall h :: 0 <= h < |w.handlers| ==> w.handlers[h].client == client ==> !Alive(w.handlers[h].phase)
  }

  /** Each handler starts only after the client's previous one has finished. */
  predicate OneAtATime(w: World, acts: seq<Act>)
    requires Runs(w, acts)
    decreases |acts|
  {
    acts == [] || ((acts[0].Add? ==> Quiet(w, w.handlers[acts[0].h].client)) && OneAtATime(Next(w, acts[0]), acts[1..]))
  }

  ghost predicate AliveOnline(w: World) {
    && (forall h :: 0 <= h < |w.handlers| && Alive(w.handlers[h].phase) ==>
          w.handlers[h].client in w.reg.clients && w.reg.clients[w.handlers[h].client].online)
    && (forall h, k :: 0 <= h < k < |w.handlers| && Alive(w.handlers[h].phase) && Alive(w.handlers[k].phase) ==>
          w.handlers[h].client != w.handlers[k].client)
  }

  lemma AliveStaysOnline(w: World, a: Act)
    requires AliveOnline(w) && Enabled(w, a) && (a.Add? ==> Quiet(w, w.handlers[a.h].client))
    ensures AliveOnline(Next(w, a))
  {
  }

  lemma {:induction false} AliveRun(w: World, acts: seq<Act>)
    requires AliveOnline(w) && Runs(w, acts) && OneAtATime(w, acts)
    ensures AliveOnline(Final(w, acts))
    decreases |acts|
  {
    if acts != [] {
      AliveStaysOnline(w, acts[0]);
      AliveRun(Next(w, acts[0]), acts[1..]);
    }
  }

  /** When sessions of a client do not overlap, a stored session implies that
      its client is marked online. */
  lemma StoredIsOnline(min: int, max: int, acts: seq<Act>, client: string)
    requires Runs(Start(min, max), acts) && OneAtATime(Start(min, max), acts)
    requires client in Final(Start(min, max), acts).stored
    ensures var w := Final(Start(min, max), acts);
      client in w.reg.clients && w.reg.clients[client].online
  {
    RunInv(Start(min, max), acts);
    AliveRun(Start(min, max), acts);
  }

  lemma RunsFirst(w: World, a: Act, rest: seq<Act>)
    requires Enabled(w, a) && Runs(Next(w, a), rest)
    ensures Runs(w, [a] + rest) && Final(w, [a] + rest) == Final(Next(w, a), rest)
  {
    assert ([a] + rest)[1..] == rest;
  }

  /** The new session begins before the old one's handler has finished. */
  function Overlapping(c: string, ip: string): seq<Act> {
    [Greet(c)] + ([Add(1, c, ip)] + ([Set(1)] + [Offline(0)]))
  }

  lemma OverlapHides(w: World, c: string, ip: string)
    requires w.handlers == [Handler(c, Emptied)] && w.stored == map[] && c != ""
    ensures Runs(w, Overlapping(c, ip))
    ensures var w' := Final(w, Overlapping(c, ip));
      w'.stored == map[c := 1] && c in w'.reg.clients && !w'.reg.clients[c].online
  {
    var w1 := Next(w, Greet(c));
    var w2 := Next(w1, Add(1, c, ip));
    var w3 := Next(w2, Set(1));
    assert w3.stored == map[c := 1];
    RunsFirst(w3, Offline(0), []);
    assert [Offline(0)] + [] == [Offline(0)];
    RunsFirst(w2, Set(1), [Offline(0)]);
    RunsFirst(w1, Add(1, c, ip), [Set(1)] + [Offline(0)]);
    RunsFirst(w, Greet(c), [Add(1, c, ip)] + ([Set(1)] + [Offline(0)]));
  }

  /** With overlap, a session can be served, stored, and its client offline: the
      old handler's MarkOffline comes after the new one's AddClient. */
  lemma OverlapCanHideClient(min: int, max: int, c: string, ip: string)
    requires c != ""
    ensures var acts := [Greet(c)] + ([Add(0, c, ip)] + ([Set(0)] + ([Del(0)] + ([CloseAll(0)] + Overlapping(c, ip)))));
      Runs(Start(min, max), acts)
      && var w := Final(Start(min, max), acts);
         w.stored == map[c := 1] && c in w.reg.clients && !w.reg.clients[c].online
  {
    var w0, overlap := Start(min, max), Overlapping(c, ip);
    var w1 := Next(w0, Greet(c));
    var w2 := Next(w1, Add(0, c, ip));
    var w3 := Next(w2, Set(0));
    var w4 := Next(w3, Del(0));
    var w5 := Next(w4, CloseAll(0));
    assert w5.stored == map[];
    OverlapHides(w5, c, ip);
    RunsFirst(w4, CloseAll(0), overlap);
    RunsFirst(w3, Del(0), [CloseAll(0)] + overlap);
    RunsFirst(w2, Set(0), [Del(0)] + ([CloseAll(0)] + overlap));
    RunsFirst(w1, Add(0, c, ip), [Set(0)] + ([Del(0)] + ([CloseAll(0)] + overlap)));
    RunsFirst(w0, Greet(c), [Add(0, c, ip)] + ([Set(0)] + ([Del(0)] + ([CloseAll(0)] + overlap))));
  }

  /** The deferred teardown: out of the store, connections closed, offline. */
  lemma TeardownIsRun(w: World, h: nat)
    requires At(w, h, Serving)
    ensures var acts, client := [Del(h), CloseAll(h), Offline(h)], w.handlers[h].client;
      Runs(w, acts)
      && var w' := Final(w, acts);
         w'.stored == w.stored - {client} && w'.proxy == w.proxy && w'.reg == R.WithOffline(w.reg, client)
  {
    var w1 := Next(w, Del(h));
    var w2 := Next(w1, CloseAll(h));
    RunsFirst(w2, Offline(h), []);
    RunsFirst(w1, CloseAll(h), [Offline(h)]);
    RunsFirst(w, Del(h), [CloseAll(h), Offline(h)]);
    assert [Del(h)] + [CloseAll(h), Offline(h)] == [Del(h), CloseAll(h), Offline(h)];
  }

  /** HandleControlConn with nothing else running is a run of its six steps. */
  lemma ControlConnIsRun(w: World, client: string, name: string, ip: string)
    requires client != ""
    ensures var h := |w.handlers|;
      var acts := [Greet(client)] + ([Add(h, name, ip)] + ([Set(h)] + [Del(h), CloseAll(h), Offline(h)]));
      Runs(w, acts)
      && var w' := Final(w, acts);
         && w'.stored == w.stored - {client} && w'.proxy == w.proxy
         && w'.reg == R.WithOffline(R.WithClient(w.reg, client, name, ip), client)
  {
    var h := |w.handlers|;
    var w1 := Next(w, Greet(client));
    var w2 := Next(w1, Add(h, name, ip));
    var w3 := Next(w2, Set(h));
    assert w3.stored - {client} == w.stored - {client};
    TeardownIsRun(w3, h);
    var teardown := [Del(h), CloseAll(h), Offline(h)];
    RunsFirst(w2, Set(h), teardown);
    RunsFirst(w1, Add(h, name, ip), [Set(h)] + teardown);
    RunsFirst(w, Greet(client), [Add(h, name, ip)] + ([Set(h)] + teardown));
  }

  // ---- reconnecting ----

  function SliceOf(s: R.RegState, client: string): seq<R.Tunnel> {
    if client in s.clients then s.clients[client].slice else []
  }

  /** Any run of connects and disconnects, overlapping or not, leaves tunnels,
      ports, client slices and listeners as they were. */
  lemma {:induction false} ReconnectPreservesTunnels(w: World, acts: seq<Act>)
    requires Runs(w, acts)
    ensures var w' := Final(w, acts);
      && w'.reg.tunnels == w.reg.tunnels && w'.reg.pool == w.reg.pool && w'.proxy == w.proxy
      && forall c :: SliceOf(w'.reg, c) == SliceOf(w.reg, c)
    decreases |acts|
  {
    if acts != [] {
      ReconnectPreservesTunnels(Next(w, acts[0]), acts[1..]);
    }
  }

  // ---- the store and the handler as the program writes them ----

  class SessionStore {
    var data: map<string, S.ClientSession>

    constructor ()
      ensures data == map[]
    {
      data := map[];
    }

    method Set(client: string, sess: S.ClientSession)
      modifies this
      ensures data == old(data)[client := sess]
    {
      data := data[client := sess];
    }

    method Del(client: string)
      modifies this
      ensures data == old(data) - {client}
    {
      data := data - {client};
    }

    method Get(client: string) returns (sess: S.ClientSession?)
      ensures sess != null <==> client in data
      ensures sess != null ==> data[client] == sess
    {
      sess := null;
      if client in data {
        sess := data[client];
      }
    }
  }

  /** A new session, which the store now holds for the client. */
  method Enlist(store: SessionStore, client: string, down: Link<M.Frame>) returns (sess: S.ClientSession)
    modifies store
    ensures store.data == old(store.data)[client := sess] && fresh(sess)
    ensures sess.State() == S.Tables(map[], map[], down)
  {
    sess := new S.ClientSession(down);
    store.Set(client, sess);
  }

  /** A session's service: from sessions.set to closeAllExternal. */
  method ServeSession(store: SessionStore, client: string, down: Link<M.Frame>, es: seq<S.Event>, lucky: bool)
    returns (sess: S.ClientSession)
    modifies store
    ensures store.data == old(store.data) - {client} && fresh(sess)
    ensures sess.State() == S.CloseAllEffect(S.ServeEffect(S.Tables(map[], map[], down), es, lucky))
  {
    sess := Enlist(store, client, down);
    sess.Serve(es, lucky);
    store.Del(client);
    sess.CloseAllExternal();
  }

  /** Serving a session leaves the registry alone. */
  method ServeBeside(registry: R.Registry, store: SessionStore, client: string, down: Link<M.Frame>, es: seq<S.Event>,
                     lucky: bool)
    returns (sess: S.ClientSession)
    requires registry.Valid()
    modifies store
    ensures store.data == old(store.data) - {client} && fresh(sess)
    ensures sess.State() == S.CloseAllEffect(S.ServeEffect(S.Tables(map[], map[], down), es, lucky))
    ensures registry.Valid() && registry.State() == old(registry.State())
  {
    sess := ServeSession(store, client, down, es, lucky);
    assert registry.ClientStates() == old(registry.ClientStates());
  }

  /** One control connection from handshake to the end of its teardown: frames
      arrive and proxy handlers open and close connections, es, until decoding
      fails. The store forgets the client, the registry marks it offline and keeps
      its tunnels, and every TCP connection that was ever registered is closed. */
  method HandleControlConn(store: SessionStore, registry: R.Registry, client: string, name: string, ip: string,
                           down: Link<M.Frame>, es: seq<S.Event>, lucky: bool)
    returns (sess: S.ClientSession)
    requires registry.Valid()
    modifies store, registry`clients, registry.clients.Values
    ensures registry.Valid() && store.data == old(store.data) - {client}
    ensures registry.State() == R.WithOffline(R.WithClient(old(registry.State()), client, name, ip), client)
    ensures sess.State() == S.CloseAllEffect(S.ServeEffect(S.Tables(map[], map[], down), es, lucky))
    ensures sess.conns == map[]
    ensures S.FreshIds(S.Tables(map[], map[], down), es) ==>
      forall p :: p in S.EverIn(S.Tables(map[], map[], down), es, lucky) && p.Accepted? ==>
        p in sess.peers && sess.peers[p].closed
  {
    registry.AddClient(client, name, ip);
    sess := ServeBeside(registry, store, client, down, es, lucky);
    registry.MarkOffline(client);
    if S.FreshIds(S.Tables(map[], map[], down), es) {
      S.SessionLeavesNothingOpen(S.Tables(map[], map[], down), es, lucky);
    }
  }
}
