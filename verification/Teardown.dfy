/** What closeAllExternal leaves behind. It runs once, when the dispatch loop has
    ended; but a handler that found the session before it left the store may
    still be between its "open" and its registration. */
module SessionTeardown {
  import opened Frames
  import opened Multiplexer
  import opened MultiplexerView
  import MultiplexerRouting
  import Shutdown
  import R = RelaySide
  import C = Connection

  /** The handler of connection n has nothing to do before its peer acts. */
  ghost predicate RelayRests(g: Session, n: nat) {
    forall h: R.HandlerAct :: !h.ExtRead? && !h.Expire? && !h.Abandon? ==> !HandlerEnabled(g, n, h)
  }

  lemma RestingWaits(g: Session, n: nat)
    requires PeersRouted(g) && n < |g.recs| && g.recs[n].proto.Tcp? && RelayRests(g, n)
    ensures Shutdown.HandlerWaits(RelayOf(g, n))
  {
    var h := match g.recs[n].handler
      case Opening => R.Register
      case Holding(_, _) => R.SendData(true)
      case Leaving => R.Detach
      case Detached(_) => R.CloseDetached
      case Ending => R.SendClose
      case Returning => R.Return
      case _ => R.ReadFail;
    assert !HandlerEnabled(g, n, h);
  }

  lemma ConnTornDown(v: C.Conn)
    requires C.Inv(v) && v.relay.loop.Stopped?
    ensures v.relay.registered <==> v.relay.late && (R.Active(v.relay.handler) || v.relay.handler.Abandoned?)
    ensures v.proto.Tcp? && Shutdown.HandlerWaits(v.relay) ==>
      (v.relay.ext.closed <==> !(v.relay.late && v.relay.handler.Reading?))
  {
  }

  // ---- what "late" means for a run ----

  predicate CloseAllBefore(acts: seq<Act>, j: nat) { exists i :: 0 <= i < j && i < |acts| && acts[i].CloseAll? }

  /** Connection n is registered after closeAllExternal. */
  predicate RegisteredLate(acts: seq<Act>, n: nat, stopped: bool) {
    exists j :: 0 <= j < |acts| && acts[j] == Handler(n, R.Register) && (stopped || CloseAllBefore(acts, j))
  }

  lemma HandlerLate(g: Session, m: nat, h: R.HandlerAct, n: nat)
    requires HandlerEnabled(g, m, h) && n < |g.recs|
    ensures var c, c' := g.recs[n], HandlerNext(g, m, h).recs[n];
      && c'.late == (if m == n && h.Register? then g.loop.Stopped? else c.late)
      && (c'.handler.Opening? ==> c.handler.Opening?)
      && (m == n && h.Register? ==> c.handler.Opening? && !c'.handler.Opening?)
  {
  }

  lemma StepLate(g: Session, a: Act, n: nat)
    requires Enabled(g, a) && n < |g.recs|
    ensures var c, c' := g.recs[n], Next(g, a).recs[n];
      && c'.late == (if a == Handler(n, R.Register) then g.loop.Stopped? else c.late)
      && (c'.handler.Opening? ==> c.handler.Opening?)
      && (a == Handler(n, R.Register) ==> c.handler.Opening? && !c'.handler.Opening?)
  {
    if a.Handler? {
      HandlerLate(g, a.n, a.h, n);
    } else if a.LocalReader? {
      MultiplexerRouting.ReaderChanges(g, a.n, a.r);
    }
  }

  lemma NewIsNotLate(g: Session, a: Act)
    requires a.NewTcp? || a.NewUdp?
    ensures !Next(g, a).recs[|g.recs|].late
  {
  }

  lemma StoppedBy(g: Session, a: Act)
    requires Enabled(g, a)
    ensures Next(g, a).loop.Stopped? <==> g.loop.Stopped? || a.CloseAll?
  {
    if a.Handler? {
      MultiplexerRouting.HandlerChanges(g, a.n, a.h);
    } else if a.LocalReader? {
      MultiplexerRouting.ReaderChanges(g, a.n, a.r);
    }
  }

  /** A handler registers its connection once. */
  lemma {:induction false} NoSecondRegister(g: Session, acts: seq<Act>, n: nat)
    requires Runs(g, acts) && n < |g.recs| && !g.recs[n].handler.Opening?
    ensures forall j :: 0 <= j < |acts| ==> acts[j] != Handler(n, R.Register)
    decreases |acts|
  {
    if acts != [] {
      StepLate(g, acts[0], n);
      NoSecondRegister(Next(g, acts[0]), acts[1..], n);
    }
  }

  lemma LateUnfolds(acts: seq<Act>, n: nat, stopped: bool)
    requires acts != []
    ensures RegisteredLate(acts, n, stopped) <==>
      (stopped && acts[0] == Handler(n, R.Register)) || RegisteredLate(acts[1..], n, stopped || acts[0].CloseAll?)
  {
    var rest := acts[1..];
    assert forall i :: 0 < i < |acts| ==> acts[i] == rest[i - 1];
    if RegisteredLate(acts, n, stopped) {
      var j :| 0 <= j < |acts| && acts[j] == Handler(n, R.Register) && (stopped || CloseAllBefore(acts, j));
      if j > 0 {
        if !stopped && !acts[0].CloseAll? {
          var i :| 0 <= i < j && i < |acts| && acts[i].CloseAll?;
          assert rest[i - 1].CloseAll? && CloseAllBefore(rest, j - 1);
        }
        assert rest[j - 1] == Handler(n, R.Register);
      }
    }
    if RegisteredLate(rest, n, stopped || acts[0].CloseAll?) {
      var j :| 0 <= j < |rest| && rest[j] == Handler(n, R.Register)
               && (stopped || acts[0].CloseAll? || CloseAllBefore(rest, j));
      assert acts[j + 1] == Handler(n, R.Register);
      if !stopped {
        if acts[0].CloseAll? {
          assert CloseAllBefore(acts, j + 1);
        } else {
          var i :| 0 <= i < j && i < |rest| && rest[i].CloseAll?;
          assert acts[i + 1].CloseAll? && CloseAllBefore(acts, j + 1);
        }
      }
    }
  }

  lemma {:induction false} LateExactly(g: Session, acts: seq<Act>, n: nat)
    requires Runs(g, acts) && n < |Final(g, acts).recs|
    requires n < |g.recs| && g.recs[n].late ==> !g.recs[n].handler.Opening?
    ensures Final(g, acts).recs[n].late <==>
      (n < |g.recs| && g.recs[n].late) || RegisteredLate(acts, n, g.loop.Stopped?)
    decreases |acts|
  {
    if acts != [] {
      var a, g1 := acts[0], Next(g, acts[0]);
      LateUnfolds(acts, n, g.loop.Stopped?);
      StoppedBy(g, a);
      if n < |g.recs| {
        StepLate(g, a, n);
        if !g1.recs[n].handler.Opening? {
          NoSecondRegister(g1, acts[1..], n);
        }
      } else if n < |g1.recs| {
        NewIsNotLate(g, a);
      }
      LateExactly(g1, acts[1..], n);
    }
  }

  /** After closeAllExternal, in every reachable session: a connection is still
      in conns exactly if it was registered later and its handler has not taken
      it out. Once its handler has nothing left to do, a TCP connection is closed
      exactly if it is not one of those. */
  lemma TeardownLeaves(config: seq<(string, int)>, acts: seq<Act>, n: nat)
    requires Runs(Start(config), acts)
    requires var g := Final(Start(config), acts); g.loop.Stopped? && n < |g.recs|
    ensures var g := Final(Start(config), acts);
      && (Own(n) in g.conns <==> g.recs[n].late && (R.Active(g.recs[n].handler) || g.recs[n].handler.Abandoned?))
      && (g.recs[n].late <==> RegisteredLate(acts, n, false))
      && (g.recs[n].proto.Tcp? && RelayRests(g, n) ==>
            && Accepted(n) in g.peers
            && (g.peers[Accepted(n)].closed <==> !(g.recs[n].late && g.recs[n].handler.Reading?))
            && (g.peers[Accepted(n)].closed <==> Own(n) !in g.conns))
  {
    MultiplexerRouting.StartInv(config);
    MultiplexerRouting.RunInv(Start(config), acts);
    LateExactly(Start(config), acts, n);
    var g := Final(Start(config), acts);
    ConnTornDown(View(g, n));
    if g.recs[n].proto.Tcp? && RelayRests(g, n) {
      RestingWaits(g, n);
    }
  }

  // ---- a peer of a session that is gone ----

  function Failing(n: nat, chunk: seq<Item>): seq<Act> {
    [Handler(n, R.ExtRead(chunk, false))] + [Handler(n, R.SendData(false))]
  }

  function Leaving(n: nat): seq<Act> { [Handler(n, R.Detach)] + [Handler(n, R.CloseDetached)] }

  function Hanging(n: nat): seq<Act> { [Handler(n, R.SendClose)] + [Handler(n, R.Return)] }

  /** From the read that returned bytes to the end of the handler. */
  function Ending(n: nat, chunk: seq<Item>): seq<Act> { Failing(n, chunk) + (Leaving(n) + Hanging(n)) }

  lemma RunsTwo(g: Session, a: Act, b: Act)
    requires Enabled(g, a) && Enabled(Next(g, a), b)
    ensures Runs(g, [a] + [b]) && Final(g, [a] + [b]) == Next(Next(g, a), b)
  {
    RunsFirst(Next(g, a), b, []);
    RunsFirst(g, a, [b]);
    assert [b] + [] == [b];
  }

  lemma SendFails(g: Session, n: nat, chunk: seq<Item>)
    requires n < |g.recs| && g.recs[n].proto.Tcp? && g.recs[n].handler.Reading? && g.recs[n].peer in g.peers
    requires !g.down.live && !g.peers[g.recs[n].peer].closed && chunk != []
    ensures Runs(g, Failing(n, chunk))
    ensures var g' := Final(g, Failing(n, chunk));
      && n < |g'.recs| && g'.recs[n].handler.Leaving? && g'.recs[n].peer == g.recs[n].peer
      && g'.peers.Keys == g.peers.Keys
  {
    RunsTwo(g, Handler(n, R.ExtRead(chunk, false)), Handler(n, R.SendData(false)));
  }

  lemma LeavesTable(g: Session, n: nat)
    requires n < |g.recs| && g.recs[n].handler.Leaving? && g.recs[n].peer in g.peers
    ensures Runs(g, Leaving(n))
    ensures var g' := Final(g, Leaving(n));
      && n < |g'.recs| && g'.recs[n].handler.Ending? && g'.recs[n].peer == g.recs[n].peer
      && Own(n) !in g'.conns && g'.peers.Keys == g.peers.Keys
  {
    RunsTwo(g, Handler(n, R.Detach), Handler(n, R.CloseDetached));
  }

  lemma HangsUp(g: Session, n: nat)
    requires n < |g.recs| && g.recs[n].handler.Ending? && Own(n) !in g.conns
    requires g.recs[n].peer in g.peers && g.recs[n].peer.Accepted?
    ensures Runs(g, Hanging(n))
    ensures var g' := Final(g, Hanging(n));
      && n < |g'.recs| && g'.recs[n].handler.Ended? && Own(n) !in g'.conns
      && g.recs[n].peer in g'.peers && g'.peers[g.recs[n].peer].closed
  {
    RunsTwo(g, Handler(n, R.SendClose), Handler(n, R.Return));
  }

  lemma EndingRuns(g: Session, n: nat, chunk: seq<Item>)
    requires n < |g.recs| && g.recs[n].proto.Tcp? && g.recs[n].handler.Reading?
    requires g.recs[n].peer in g.peers && g.recs[n].peer.Accepted?
    requires !g.down.live && !g.peers[g.recs[n].peer].closed && chunk != []
    ensures Runs(g, Ending(n, chunk))
    ensures var g' := Final(g, Ending(n, chunk));
      && n < |g'.recs| && g'.recs[n].handler.Ended? && Own(n) !in g'.conns
      && g.recs[n].peer in g'.peers && g'.peers[g.recs[n].peer].closed
  {
    SendFails(g, n, chunk);
    var g1 := Final(g, Failing(n, chunk));
    LeavesTable(g1, n);
    HangsUp(Final(g1, Leaving(n)), n);
    RunsThen(g1, Leaving(n), Hanging(n));
    RunsThen(g, Failing(n, chunk), Leaving(n) + Hanging(n));
  }

  /** A TCP connection of a session whose channel is gone, late ones too, ends
      with the next bytes its peer sends: their frame fails, and the handler takes
      it out of conns and closes it, with no step that waits for anyone. */
  lemma NextBytesEndIt(config: seq<(string, int)>, acts: seq<Act>, n: nat, chunk: seq<Item>)
    requires Runs(Start(config), acts) && chunk != []
    requires var g := Final(Start(config), acts);
      n < |g.recs| && g.recs[n].proto.Tcp? && g.recs[n].handler.Reading? && !g.down.live
    ensures var g := Final(Start(config), acts);
      && Accepted(n) in g.peers
      && (!g.peers[Accepted(n)].closed ==>
            && Runs(g, Ending(n, chunk))
            && var g' := Final(g, Ending(n, chunk));
               && n < |g'.recs| && g'.recs[n].handler.Ended? && Own(n) !in g'.conns
               && Accepted(n) in g'.peers && g'.peers[Accepted(n)].closed)
  {
    MultiplexerRouting.StartInv(config);
    MultiplexerRouting.RunInv(Start(config), acts);
    var g := Final(Start(config), acts);
    if !g.peers[Accepted(n)].closed {
      EndingRuns(g, n, chunk);
    }
  }
}
