# renode: a verified model of the tunnel protocol and its bookkeeping

renode forwards outside TCP and UDP traffic through a relay to services behind a
client daemon. One control channel of JSON frames joins relay and daemon, and
every forwarded connection shares it. This project models that protocol, the
relay's port, tunnel, listener and session bookkeeping, the event hub and the
login lockout, and proves what they keep over every run and every interleaving.

`dafny verify dfyconfig.toml` checks all of it (Dafny 4.11).

## How the model is laid out

The protocol is modelled twice, and the two are tied together.

* **One session, all connections** (`Multiplexer.dfy`). `Session` holds the
  relay's `conns` table, the daemon's `localConns` table, both directions of the
  channel, the dispatch loop, the frame reader, and per connection one relay
  handler and one local reader. A step (`Act`) is one critical section or one
  system call, so every interleaving of the goroutines is a run, including those
  in which return frames overtake the registration in `openConn`.
* **One connection** (`RelaySide.dfy`, `DaemonSide.dfy`, `Connection.dfy`), small
  enough for its invariant `Connection.Inv` to be stated and kept.
* `MultiplexerView.dfy` projects the session on each connection and states the
  routing invariant; `MultiplexerRefinement.dfy` proves that every session step
  is, for each connection, one of its own steps or none;
  `MultiplexerRouting.dfy` proves that routing, and with it the whole session
  invariant, is inductive.
* `Bridging.dfy`, `Keepalive.dfy`, `Shutdown.dfy`, `SessionShutdown.dfy`,
  `Teardown.dfy` and `Interleavings.dfy` hold the results about byte streams, frame
  grammar, isolation, pings, shutdown of a connection and teardown of a session.
* `ClientSession.dfy` and `LocalTable.dfy` are the relay's session object and the
  daemon's tables in the program's own form, classes whose methods update maps
  and write frames. Each method is proved against its effect on the tables, and
  each effect is proved to be a run of the session.

The bookkeeping follows the same pattern, mutable classes proved against
functions of their state, and properties of those functions over all runs:
`Pool.dfy`, `Registry.dfy` (client objects, backing arrays, the in-place filter),
`PortAccounting.dfy` (the registry under concurrency, step by step),
`Listeners.dfy` (proxy store, firewall rules, create and delete requests and their
answers),
`ListenerRaces.dfy` (the same requests overlapping), `Control.dfy` (session store
and the life of a control connection, overlapping or not), `UdpProxy.dfy` (the
UDP address table), `Hub.dfy` and `Lockout.dfy`. `UdpGoroutine.dfy`,
`UdpSession.dfy` and `UdpService.dfy` put the UDP proxy's loop into the session,
among the steps of all other goroutines.

### Assumptions

* A channel direction is FIFO until it breaks; when it breaks, a prefix of what
  is in flight still arrives, and a later write may or may not report the error.
* A socket write takes all its bytes, or takes some of them and the socket is
  dead from then on. A UDP datagram is handed over whole, until its tunnel is
  stopped; from then on its socket takes nothing. Every write returns.
* `uuid.New` never repeats: the n-th `openConn` of a session draws identifier n.
  A UDP address entry that outlived its session holds an identifier of that other
  session, called `Stale`.
* Clocks are read in whole seconds, do not go back, and one datagram is handled
  at one reading. The UDP sweep looks the session up again for each idle entry.

### What the proofs found

* **An early "close" strands a connection.** `openConn` sends "open" before it
  registers the connection (relay/server/session.go:62-74). If the daemon's
  "close" is handled in between, nobody closes the connection once it is
  registered: the external peer stays connected to nothing until it hangs up.
  `Interleavings.ShutdownCanStall` is such a run, and `SessionShutdown.RestExact`
  says exactly when a resting connection has been shut down.
* **A return stream can lose its start** in the same window
  (`Interleavings.ReturnCanLoseItsStart`); `Bridging.ReturnIntegrity` says what is
  delivered instead: one contiguous block, starting after what was dropped.
* **Teardown can miss a connection** in that window too: one that is registered
  after `closeAllExternal` stays in `conns`, its peer connected to a session that
  is gone, until the peer sends or hangs up
  (`Interleavings.TeardownCanMissAConnection`, `SessionTeardown.NextBytesEndIt`).
  `SessionTeardown.TeardownLeaves` says that these, exactly, are what teardown
  leaves behind.
* **Returned datagrams of a stopped UDP tunnel are dropped** while its entries
  stay in `conns`: `proxyStore.stop` closes the socket, and `handleUDPProxy`
  returns without closing them (relay/server/proxy.go:209-211).
  `Interleavings.StoppedTunnelLosesReturns` is such a run;
  `Bridging.ReturnIntegrity` says that nothing is missing before the stop, and
  `Bridging.StoppedSourceStands` what such a source has got, for good.
* **Overlapping sessions of one client can hide it**: the old handler's
  `MarkOffline` may come after the new handler's `AddClient`
  (`Control.OverlapCanHideClient`), and `Control.StoredButOffline` says exactly
  when a stored session's client is online.
* **A delete in the middle of a create leaves a listener behind**
  (`ListenerRaces.DeleteInsideCreateOrphans`), and nothing else does:
  `ListenerRaces.OrphansExactly`.
* **Idle UDP entries are bounded only while the daemon is connected**
  (`UdpProxies.IdleIsUnboundedWithoutSession`).
* **Two calls can hold one port for a moment**, between the release and the
  deletion in `RemoveTunnel` (`PortAccounting.TransientOverlap`).
* The comment at relay/internal/tunnel/pool.go:30 says that a requested port that
  is taken is replaced by another one. The code (lines 43-45) refuses it; the
  model follows the code (`Pools.RequestedAllocation`).

## Model

| member | source | states |
|---|---|---|
| Bridging.ForwardIntegrity | client/internal/daemon/daemon.go:366-404 | In every run, what the local socket of a connection was given is a prefix of what its external peer sent; while it is in localConns on a whole channel, sent = written + being written + in flight, and read = sent + the chunk in the handler's hands. |
| Bridging.ReturnIntegrity | relay/server/session.go:60-100 | In every run, what the external peer was given is one contiguous block of what the local service sent, starting right after the data handled before registration (so a prefix if there was none); while registered on a whole channel, and while its external socket is not dead, nothing after that point is missing. A UDP source's socket is dead exactly once its tunnel has been stopped. |
| Bridging.StoppedSourceStands | relay/server/proxy.go:112-128 | After any run, stop a UDP tunnel, and run on in any way: what each of its sources was given, and what was read from it, stays what it was at the stop. For one that was registered on a live channel, what its service had sent by then is what was handled before registration, what it was given, what the loop had in hand and what was in the channel. |
| Bridging.ClosedStands | relay/server/proxy.go:154-187 | After any run, and whatever happens next: an external TCP connection or a local one that has been closed is given nothing more, and nothing more is read from it, though frames for it are still in the channel or in a loop's hands. |
| Bridging.FrameGrammar | relay/server/session.go:60-90 | Per connID the relay sends Open Data* Close?, the daemon Data* Close? and nothing before it has taken the Open; a close ends each direction, comes from a goroutine that has ended, and on a whole channel every ended one has sent it. |
| Bridging.LocalIsolation | client/internal/daemon/daemon.go:336-404 | Every local socket was dialled for one connID, over its connection's protocol, on the port of its "open" if that is not 0, else on the port of the first configured tunnel of that id; and all it was ever given, whatever shares the channel, is a prefix of what that connID's own peer sent. |
| Bridging.UnknownPortRefused | client/internal/daemon/daemon.go:349-353 | An "open" without a port, for a tunnel id that is not configured, dials nothing and is answered by one "close", whether or not a dial would succeed. |
| Multiplexer.PortIsChosen | client/internal/daemon/daemon.go:336-348 | For any configuration: the frame's port if it is not 0; else the port of the first entry with the tunnel's id, none before it having that id; and no port only if no entry has it. |
| Bridging.PeerIsolation | relay/server/proxy.go:219-236 | Whatever an external peer was given, TCP or UDP, came under connIDs that it opened. |
| Bridging.TcpPeerIsolation | relay/server/proxy.go:154-187 | All a TCP peer was ever given is one block of what the socket dialled for its own connection sent. |
| Bridging.StaleReachesNothing | relay/server/proxy.go:219-238 | Identifiers left over from another session enter no table and deliver nothing anywhere. |
| Keepalives.PingsAreAnswered | relay/server/control.go:99-101 | In every run the relay sends at most one pong for each ping it takes, and on a whole channel exactly one, but for the one it is about to send. |
| Keepalives.PingsTouchNothing | client/internal/daemon/daemon.go:322-324 | Taking a ping or a pong changes nothing in either table, socket or connection. |
| Connection.OpenedInv | relay/server/session.go:60-71 | A connection whose "open" has just been sent satisfies the connection invariant, whatever state the channel and the loops are in. |
| Connection.NextInv | relay/server/session.go:60-110 | The connection invariant (streams, phases, frame grammar, who closes what, why it is torn down) is kept by every step of handler, dispatch loop, frame reader and local reader, by lost peers and by broken channels. |
| Connection.ClosedIsLast | client/internal/daemon/daemon.go:282-293 | A close that has been seen was the other side's last frame: nothing follows it in the channel, and its sender has left its loop. |
| RelaySide.HandlerKeeps | relay/server/proxy.go:154-187 | Every step of a relay handler, openConn and closeConn included, keeps the relay's side of the invariant. |
| RelaySide.DispatchKeeps | relay/server/control.go:84-121 | Every step of the dispatch loop and closeAllExternal keeps the relay's side of the invariant. |
| DaemonSide.ReaderKeeps | client/internal/daemon/daemon.go:371-389 | Every step of a local reader keeps the daemon's side of the invariant. |
| DaemonSide.ReceiveKeeps | client/internal/daemon/daemon.go:322-410 | Taking any frame in the order of the relay's grammar keeps the daemon's side of the invariant. |
| MultiplexerRefinement.StepSimulates | relay/server/session.go:36-110 | Every step of a session with any number of connections is, seen by each of them, one of its own enabled steps or no change at all. |
| MultiplexerRouting.StepRouted | relay/server/session.go:60-110 | Every step keeps routing: each table entry, frame, pending write and delivery belongs to the peer, socket and tunnel its connID was drawn for. |
| MultiplexerRouting.NewView | relay/server/session.go:60-71 | A new connection starts clean among all that came before it: no old frame or delivery carries its identifier. |
| MultiplexerRouting.NextSessionInv | relay/server/session.go:36-110 | Routing together with every connection's invariant is inductive. |
| MultiplexerRouting.RunInv | relay/server/session.go:36-110 | They hold after every run. |
| Shutdown.QuiescentShape | relay/server/proxy.go:169-187 | Where no internal step is possible, the loops are idle, the channels empty, and each goroutine has ended or waits for bytes of a live socket. |
| Shutdown.RestingStates | relay/server/proxy.go:169-187 | A whole session's TCP connection can rest in three states only: shut down, bridged, or stranded by an early close. |
| Shutdown.ShutdownExact | client/internal/daemon/daemon.go:282-293 | At rest it is shut down (both sockets closed, in neither table, no frame in flight) if and only if its external end is lost, or its local end is and no close was handled before registration. |
| SessionShutdown.InternalDecreases | relay/server/session.go:79-90 | Every step the program takes by itself, without new bytes, lowers a measure of the whole session. |
| SessionShutdown.ComesToRest | relay/server/session.go:79-90 | So a run of such steps is no longer than the measure it starts from. |
| SessionShutdown.DoomedStays | relay/server/proxy.go:169-187 | A registered connection that has lost an end stays lost through every step. |
| SessionShutdown.ConnAtRest | relay/server/control.go:84-121 | If the session cannot move by itself, none of its connections can. |
| Shutdown.InternalLowers | relay/server/session.go:79-90 | Each step that one connection takes by itself lowers a measure of that connection alone. |
| SessionShutdown.SparedStep | relay/server/session.go:36-110 | A step of the session in which this connection reads nothing never raises its measure, whatever other connections do, and lowers it if it is its own. |
| SessionShutdown.ShutdownCompletes | relay/server/session.go:79-90 | In any reachable whole session, for a TCP connection that has lost an end, while others open, read, lose peers and close as they like: as long as it reads no new bytes itself and the session does not fail, its own steps are bounded by its own measure, it stays lost, and where it has no step left it is closed at both ends, in neither table, with no frame in flight. |
| SessionShutdown.ShutdownStaysPossible | relay/server/session.go:79-90 | After any such run, steps the program takes by itself can still bring it there. |
| SessionShutdown.ShutdownByRest | relay/server/session.go:79-90 | When the whole session is left to itself, its steps are finitely many and where they stop the connection is there. |
| SessionTeardown.TeardownLeaves | relay/server/control.go:66-73 | Once closeAllExternal has run, in every reachable session: a connection is in conns exactly if it was registered after that and its handler has not taken it out; and a TCP connection whose handler has nothing left to do is closed exactly if it is not one of those. |
| Interleavings.TeardownCanMissAConnection | relay/server/session.go:62-74 | A concrete run: the session ends between "open" and registration, and the connection stays registered and open. |
| SessionTeardown.NextBytesEndIt | relay/server/proxy.go:169-187 | In every reachable session whose channel is broken: an open TCP connection that waits for its peer, a late one too, is ended by the next bytes the peer sends, if sending their frame fails: steps of its own handler alone, none of which waits, take it out of conns and close it. |
| SessionShutdown.RestExact | relay/server/session.go:60-90 | In every reachable whole session at rest: shut down exactly if an end is lost and no early close stranded it; otherwise bridged or stranded. |
| Interleavings.StoppedTunnelLosesReturns | relay/server/proxy.go:207-211 | A concrete run that ends whole, idle and with empty channels, a UDP connection still registered, and its service's datagram gone. |
| Interleavings.ShutdownCanStall | relay/server/session.go:62-74 | A concrete run: the dial fails, its close overtakes registration, and the connection rests stranded. |
| Interleavings.ReturnCanLoseItsStart | relay/server/session.go:62-74 | For any two different items, a concrete run that delivers the second without the first. |
| ClientSessions.ClientSession.constructor | relay/server/session.go:44-50 | A new session has no connections and sent no frame. |
| ClientSessions.ClientSession.Send | relay/server/session.go:52-57 | Exactly one frame is appended to the channel if it is whole, none if it is broken. |
| ClientSessions.ClientSession.OpenConn | relay/server/session.go:60-76 | "open" is sent and the connection registered; if sending failed, it is not registered. |
| ClientSessions.ClientSession.CloseConn | relay/server/session.go:79-90 | The entry leaves the table, its connection is closed if there was one, and a close is sent if and only if asked for. |
| ClientSessions.ClientSession.WriteToExternal | relay/server/session.go:93-100 | Only the connection registered under the connID is written to; an unknown connID changes nothing. |
| ClientSessions.ClientSession.CloseAllExternal | relay/server/session.go:103-110 | Exactly the registered TCP connections are closed and the table is empty. |
| ClientSessions.ClientSession.Serve | relay/server/control.go:84-121 | The read loop applies each frame's effect in order of arrival, with the connections that proxy handlers open and close between frames. |
| ClientSessions.CloseConnIsRun | relay/server/session.go:79-90 | closeConn is a run of the session: detach, close, send. |
| ClientSessions.OpenConnIsRun | relay/server/session.go:60-76 | openConn is a run of the session: send, then register. |
| ClientSessions.OpenFailsIsRun | relay/server/session.go:69-71 | A failing openConn is a run of the session that leaves the handler with nothing but its hang-up. |
| ClientSessions.DispatchIsRun | relay/server/control.go:99-119 | Each turn of the dispatch loop is a run of the session. |
| ClientSessions.ServeOnlyRemoves | relay/server/control.go:84-121 | Frames from the daemon never add to or redirect the conns table, and a TCP connection they take out of it is closed. |
| ClientSessions.CloseAllIsRun | relay/server/session.go:103-110 | closeAllExternal is one step of the session, taken when its loop has ended. |
| ClientSessions.SessionLeavesNothingOpen | relay/server/control.go:66-73 | Whatever frames came in and whatever connections were opened and closed meanwhile, when closeAllExternal returns no connection is registered and every TCP connection that ever was is closed (what is registered after it returns is TeardownLeaves' subject). |
| LocalTables.LocalTable.CloseLocal | client/internal/daemon/daemon.go:282-293 | The entry leaves localConns, its socket is closed if there was one, and a close is sent if and only if asked for. |
| LocalTables.LocalTable.PortFor | client/internal/daemon/daemon.go:336-348 | The searching loop returns the frame's port if it is not 0, else the port of the first configured tunnel with that id, else 0. |
| LocalTables.LocalTable.HandleOpen | client/internal/daemon/daemon.go:326-390 | Exactly one of: a socket dialled over the protocol asked for, on the port of the frame or else of the first configured tunnel of that id, and registered; or a close sent back, and always if there is no such port. |
| LocalTables.LocalTable.HandleData | client/internal/daemon/daemon.go:391-404 | Only the socket registered under the connID is written to. |
| LocalTables.LocalTable.ReadFrames | client/internal/daemon/daemon.go:309-412 | The frame reader applies each frame's effect in order of arrival. |
| LocalTables.CloseLocalIsRun | client/internal/daemon/daemon.go:282-293 | closeLocal is a run of the session: detach, close, send. |
| LocalTables.FrameIsRun | client/internal/daemon/daemon.go:322-410 | Each turn of the frame reader is a run of the session. |
| Pools.Pool.Allocate | relay/internal/tunnel/pool.go:34-59 | The cyclic scan returns what the specification of "first free port from the cursor" returns, leaves the same state, and makes exactly the advances of its trace. |
| Pools.Pool.Advance | relay/internal/tunnel/pool.go:80-85 | The cursor moves to its cyclic successor. |
| Pools.Pool.Release | relay/internal/tunnel/pool.go:62-66 | One port becomes free, the cursor stays, the pool stays valid. |
| Pools.AutomaticAllocation | relay/internal/tunnel/pool.go:49-58 | Fails, changing nothing, if and only if every port in range is taken; otherwise hands out and takes a free port in range, every port from the cursor up to it, or from the cursor to the end and from the start up to it, being taken; the cursor moves to the port after it, or to the start. |
| Pools.RequestedAllocation | relay/internal/tunnel/pool.go:38-46 | A port in range is handed out exactly as asked, or refused with nothing changed if and only if it is taken; the cursor does not move. |
| Pools.AssignedIsFree | relay/internal/tunnel/pool.go:34-59 | However it was asked for, an assigned port was nobody's. |
| Pools.Pool.IsAllocated | relay/internal/tunnel/pool.go:69-74 | A port is reported in use exactly while it is taken. |
| Pools.TraceWalks | relay/internal/tunnel/pool.go:50-57 | One scan starts at the cursor, takes cyclic successors, ends at the new cursor, and hands out a port exactly if it was free when passed. |
| Pools.RunWalks | relay/internal/tunnel/pool.go:49-58 | Over any sequence of calls the cursor walks round the range without a gap, handing out or finding taken every port it passes. |
| Pools.TraceRecords | relay/internal/tunnel/pool.go:50-57 | In that walk, exactly the last visit of a successful call is marked as handed out, and it is of the port the call returned; an unsuccessful one visits the whole range. |
| Pools.ReuseDistance | relay/internal/tunnel/pool.go:34-66 | Between two automatic hand-outs of one port the cursor advances at least max-min+1 times, and passes every other port, taken then or handed out. |
| Registries.Client.Append | relay/internal/tunnel/registry.go:145-147 | The slice grows by the tunnel at its end, in place or in a new backing array. |
| Registries.Client.Filter | relay/internal/tunnel/registry.go:166-172 | The in-place filter over the slice's own backing array leaves exactly the other tunnels, in order. |
| Registries.Registry.AddClient | relay/internal/tunnel/registry.go:51-69 | A known client is online with the new address and keeps name and tunnels; an unknown one is added; no other client changes. |
| Registries.ClientArrives | relay/internal/tunnel/registry.go:51-69 | A known client comes online at the new address and keeps its name and slice; a new one has the given name and address and no tunnels; no other client, tunnel or port changes. |
| Registries.Registry.MarkOffline | relay/internal/tunnel/registry.go:74-80 | Only the client's flag changes. |
| Registries.Registry.RemoveClient | relay/internal/tunnel/registry.go:85-102 | Every tunnel of the slice is released and deleted and returned in order; the client stays, offline and without tunnels; an unknown client changes nothing. |
| Registries.ClientPurged | relay/internal/tunnel/registry.go:85-102 | RemoveClient returns the slice, leaves the client offline without tunnels, and removes exactly the tunnels and ports of the slice. |
| Registries.Registry.AddTunnel | relay/internal/tunnel/registry.go:125-149 | A tunnel on the allocated port is recorded and appended to its client's slice if the client is known; without a port nothing is. |
| Registries.TunnelArrives | relay/internal/tunnel/registry.go:125-149 | A port in range is given as asked or refused if taken, any other request gets a free port or fails if there is none; the tunnel has the id, client, protocol and local port asked for, and goes to the end of its client's slice. |
| Registries.Registry.RemoveTunnel | relay/internal/tunnel/registry.go:152-177 | Port, record and slice entry go together; an unknown tunnel is an error that changes nothing. |
| Registries.TunnelLeaves | relay/internal/tunnel/registry.go:152-177 | The port is free again, the record is gone, the owner's slice closes the gap with the others in order, and nobody else's changes. |
| PortAccounting.NextInv | relay/internal/tunnel/registry.go:125-177 | With allocation, insertion, release and deletion as separate steps, every step keeps: each taken port has one holder, a record or a call in flight, and each holder its port. |
| PortAccounting.RunInv | relay/internal/tunnel/registry.go:85-177 | So it does over every interleaving. |
| PortAccounting.PortsAccountedFor | relay/internal/tunnel/registry.go:125-177 | Whenever the registry's mutex is free, the taken ports are the disjoint union of the registered tunnels' ports and those of AddTunnel calls in flight; no two tunnels, and no two calls, share one; all are in range. |
| PortAccounting.SlicesMatchRecords | relay/internal/tunnel/registry.go:144-175 | Whenever the mutex is free, a client's slice lists, in the order of registration and without duplicates, exactly the registered tunnels that were added for it while it was known. |
| PortAccounting.TransientOverlap | relay/internal/tunnel/registry.go:162-175 | While RemoveTunnel holds the mutex, another call can be given the port of a tunnel that is still recorded. |
| PortAccounting.AddTunnelIsRun | relay/internal/tunnel/registry.go:125-149 | AddTunnel with nothing in between is a run of the concurrent registry. |
| PortAccounting.RemoveTunnelIsRun | relay/internal/tunnel/registry.go:152-177 | So is RemoveTunnel. |
| PortAccounting.RemoveClientIsRun | relay/internal/tunnel/registry.go:85-102 | So is RemoveClient, whatever the length of the slice. |
| Listeners.ProxyStore.Start | relay/server/proxy.go:63-110 | If listening fails nothing changes; else the tunnel has a listener on its port, over UDP if and only if the protocol is "udp", and the rules gain that port and class. |
| Listeners.ProxyStore.Stop | relay/server/proxy.go:112-128 | The tunnel's listener and its rule go; an unknown tunnel changes nothing. |
| Listeners.ProxyStore.StopAll | relay/server/proxy.go:132-150 | No listener is left, and the rules of all that were are gone. |
| Listeners.Server.CreateTunnel | relay/internal/api/handlers.go:344-379 | Bad requests and exhausted or taken ports change no tunnel and no listener; otherwise the tunnel is registered, whether or not its listener starts. |
| Listeners.CreateAnswers | relay/internal/api/handlers.go:355-379 | BadRequest exactly for an empty client, an empty protocol or local port 0; Created exactly if the tunnel was added, with what was asked for, on a port that was free; Failed only if the port asked for is taken, or none is free; what is not Created changes nothing. |
| Listeners.Server.DeleteTunnel | relay/internal/api/handlers.go:381-400 | Tunnel, port, slice entry, listener and rule of that id go, and no other; an unknown id is reported and changes nothing. |
| Listeners.DeleteAnswers | relay/internal/api/handlers.go:383-400 | Deleted exactly if the id was registered, and then its tunnel, listener and port go and no other; NotFound exactly if not, and then nothing changes. |
| Listeners.ListenersAgree | relay/internal/api/handlers.go:344-400 | After any requests one at a time, with clients coming and going in between: a tunnel has a listener if and only if it is registered and its listen succeeded, on its remote port, over UDP if and only if its protocol is "udp"; the rules are exactly the ports and classes of these listeners; no two tunnels share a port. |
| Listeners.StopAllLeavesNone | relay/server/proxy.go:132-150 | After any such requests, stopAll leaves no listener and no rule. |
| ListenerRaces.OrphansExactly | relay/internal/api/handlers.go:344-400 | However create and delete requests overlap: unless a delete of it is between its two halves, a tunnel has a listener without being registered if and only if its listener was started after its stop had run; and a listener of a registered tunnel is on its port, over UDP if and only if its protocol is "udp". |
| ListenerRaces.DeleteInsideCreateOrphans | relay/internal/api/handlers.go:360-371 | A concrete run, for any client, protocol and port range: a whole delete inside a create ends with a listener and no tunnel. |
| ListenerRaces.RequestIsRun | relay/internal/api/handlers.go:344-400 | A request with nothing in between is a run of its two halves. |
| Control.StoredSessionIsServing | relay/server/control.go:65-69 | Even with overlapping sessions, a session found in the store belongs to a handler of that client that has not run its delete. |
| Control.StoredButOffline | relay/server/control.go:60-81 | With overlap, a stored session's client is marked offline if and only if some handler of that client has run its MarkOffline and none its AddClient since; that handler is never the stored session's own. |
| Control.OfflineExactly | relay/internal/tunnel/registry.go:51-80 | From any world in which handlers and registry agree: a client ends offline exactly if it was hidden so, or was offline and nobody added it. |
| Control.StoredIsOnline | relay/server/control.go:60-81 | Without overlap, a stored session implies that its client is marked online. |
| Control.OverlapCanHideClient | relay/server/control.go:66-77 | A concrete overlap that ends with a stored, served session and its client offline. |
| Control.ReconnectPreservesTunnels | relay/server/control.go:74-77 | Any run of connects and disconnects, overlapping or not, leaves tunnels, ports, client slices and listeners as they were. |
| Control.TeardownIsRun | relay/server/control.go:66-81 | The deferred teardown takes the client's session out of the store and marks it offline, and touches nothing else. |
| Control.ControlConnIsRun | relay/server/control.go:60-81 | A control connection with nothing in between is a run of the session-store machine. |
| Control.SessionStore.Get | relay/server/proxy.go:34-39 | A session is found if and only if one is stored, and it is that one. |
| Control.HandleControlConn | relay/server/control.go:60-121 | From handshake to teardown, with connections opened and closed while it serves: the store forgets the client, the registry keeps it, offline, with its tunnels, and every TCP connection that was ever registered is closed. |
| UdpProxies.UdpProxy.Sweep | relay/server/proxy.go:243-251 | Exactly the entries seen within the last 300 seconds stay, as they were; a close is sent in this session for exactly those dropped whose lookup finds it, and in another session for exactly those whose lookup finds that. |
| UdpProxies.UdpProxy.OnDatagram | relay/server/proxy.go:207-253 | One turn of the loop has the table and the frames of the specification step. |
| UdpProxies.UdpProxy.Serve | relay/server/proxy.go:202-254 | So does the whole loop, over any datagrams. |
| UdpGoroutines.ElsewhereStill | relay/server/session.go:36-110 | No step of any other goroutine, in any state, touches a connection of the tunnel, its socket, or what the daemon has been told about its identifiers. |
| UdpGoroutines.Peel | relay/server/proxy.go:207-253 | In any interleaving, the proxy's next step finds its own connections as it left them. |
| UdpSessions.SweepMixed | relay/server/proxy.go:243-251 | The sweep, in whatever order the table is listed and among the steps of all others, drops exactly the idle entries and tells the daemon of exactly those closed in this session, once each. |
| UdpSessions.TurnMixed | relay/server/proxy.go:207-253 | Each turn of the loop, among the steps of all other goroutines and whether or not entries outlived an earlier session: on a whole channel the daemon is told exactly the turn's answer, each part under the identifier of its own address, and table and session agree again. |
| UdpSessions.TurnInFrames | relay/server/proxy.go:207-253 | That answer in frames: a new address gets "open" on its tunnel's port and the datagram under a new identifier, and nothing before; a known one gets the datagram; any other gets one "close" if and only if the last sweep is over 60 seconds past, it has been silent for over 300, and its lookup finds this session. |
| UdpServices.ServiceInterleaved | relay/server/proxy.go:202-254 | So for any datagrams in any interleaving: about each identifier the daemon is told exactly the proxy's answers for its address, in order. |
| UdpServices.TurnTaken | relay/server/proxy.go:207-253 | Whenever table and session agree, a turn that reaches the cleanup check can be taken to its end: no step of it waits for anyone. |
| UdpServices.StrayIsStep | relay/server/proxy.go:245-247 | An idle entry whose lookup finds another session costs that session one frame, under an identifier it does not know. |
| UdpServices.EntriesOutliveSession | relay/server/proxy.go:203-220 | After the daemon has reconnected, the table agrees with the new session, its entries standing for identifiers that session does not know. |
| UdpProxies.AddressesKeepTheirConnection | relay/server/proxy.go:219-231 | Over any run no two addresses share a connID, and each connID's return path is the address that opened it. |
| UdpProxies.ReturnPathsNeverMove | relay/server/proxy.go:222-228 | A connID's return path never changes. |
| UdpProxies.SweepIsExact | relay/server/proxy.go:231-252 | After any run, for a datagram that is not dropped: it goes out on its own address's connID, opened first if and only if new; every other entry stays, as it is, if and only if not (the last sweep is over 60 seconds past and the entry over 300 seconds idle); a sweep is dated now; a connID is closed if and only if its entry goes while there is a session, and in the session that its lookup finds. |
| UdpProxies.DroppedDatagram | relay/server/proxy.go:213-225 | Without a daemon session, or if openConn fails for a new address, a datagram sends nothing and changes nothing. |
| UdpProxies.IdleBound | relay/server/proxy.go:241-252 | After every datagram that is not dropped, no entry has been idle more than 360 seconds. |
| UdpProxies.IdleIsUnboundedWithoutSession | relay/server/proxy.go:213-217 | Without a daemon session there is no such bound. |
| Hubs.GapFree | relay/internal/api/events.go:44-126 | Over every interleaving of one broadcast at a time with writers, readers and newcomers: received is the first events since joining; received, in hand or lost in one failed write, and queued are contiguous; at most 64 are queued; a subscriber that missed an event is out of the hub. |
| Hubs.NextInv | relay/internal/api/events.go:44-139 | Each step of broadcast, writer and reader keeps that invariant, and who is in the hub or about to be disconnected. |
| Hubs.HubIsConnected | relay/internal/api/events.go:59-139 | In every run: who is in the hub has an open WebSocket; and who left it has a closed one, unless the broadcast, writer or reader that took it out, or its own writer, is about to close it. |
| Hubs.OnlySlowOrClosedLeave | relay/internal/api/events.go:59-68 | A broadcast takes a subscriber out only if 64 messages are queued or its writer has closed its channel; it goes on to disconnect one with 64 queued and an open channel; who stays has the event queued last; no other subscriber is touched. |
| Hubs.DisconnectedHearNothing | relay/internal/api/events.go:64-67 | Whatever happens after a subscriber is disconnected, it receives nothing more. |
| Hubs.Hub.Broadcast | relay/internal/api/events.go:44-70 | Who stays in the hub has the event at the end of its queue; who has 64 queued leaves, its queue untouched, and is disconnected if its channel is not closed; nobody else is disconnected, and only closed or full ones leave; no other object changes. |
| Hubs.Hub.Select | relay/internal/api/events.go:59-68 | The case taken is one that was ready, and the default only if none was. |
| Hubs.WsClient.WriterLoop | relay/internal/api/events.go:108-126 | The writer delivers in order; on a failed write, the first one if it has been disconnected, that one message is lost, those after it stay queued, and it closes its channel, leaves the hub and disconnects. |
| Hubs.BroadcastIsRun | relay/internal/api/events.go:44-70 | A broadcast with nothing in between is a run of the hub machine that serves exactly those in the hub, each as the method does. |
| Hubs.BroadcastShows | relay/internal/api/events.go:44-70 | That run leaves each subscriber's queue and connection, and its place in the hub, as the method leaves the object it stands for. |
| Lockouts.RateLimits.Check | relay/internal/db/db.go:228-244 | Locked if and only if the IP has a lock that has not run out. |
| Lockouts.RateLimits.RecordFailed | relay/internal/db/db.go:247-263 | One more attempt for this IP only; from the fifth on, each sets the lock to 600 seconds from now; before it the lock stays as it was. |
| Lockouts.RateLimits.ResetLimit | relay/internal/db/db.go:265-271 | The IP has no attempts and no lock; no row appears or goes, and no other changes. |
| Lockouts.RateLimits.HandleLogin | relay/internal/api/handlers.go:176-217 | TooMany exactly if the IP has a lock that has not run out, and then nothing changes; else Success exactly for a good login, which leaves no attempts and no lock, and a bad one is recorded; no other IP's row changes. |
| Lockouts.RowsTellHistory | relay/internal/db/db.go:246-271 | Over any logins of any IPs, from the logins and their results alone: an IP has as many attempts as failures were recorded for it since its last success; it has a lock if and only if these are at least 5; and the lock ends 600 seconds after the last of them. |
| Lockouts.AnswersAreDue | relay/internal/api/handlers.go:186-217 | So each login of any run is answered as its history says: turned away, with nothing changed, exactly with 5 failures since the last success and less than 600 seconds after the last; else a good one succeeds and leaves no attempts and no lock, and a bad one adds one. |
| Lockouts.LockIsSetAtFive | relay/internal/db/db.go:257-260 | Over any logins, an IP has a lock time if and only if at least five attempts are counted. |
| Lockouts.LockoutBound | relay/internal/db/db.go:228-271 | From any reachable state, a stretch of T seconds without a success records at most 5 + T/600 failures for one IP whose logins come one at a time, whatever other IPs do. |
| Lockouts.LockoutBoundIsTight | relay/internal/db/db.go:246-263 | For every k there is a stretch of 600 k seconds with exactly 5 + k failures: after the fifth, one more each time the lock runs out. |

## Left out

- Transport (TCP, TLS, JSON, base64): a frame is a value that carries bytes, and a frame that does not decode is not modelled.
- The daemon's fallback to its configuration for an empty protocol: the relay sends "tcp" or "udp" with every "open".
- Handshake ("hello", "welcome") and the informational "register" frames, which neither side acts on.
- Deadlines, keepalive timers and reconnection with backoff: a session can stop at any moment, and pings come at any moment.
- A write that blocks: a slow external peer or local service holds up its whole session, and the model does not measure that.
- Liveness of the session itself: shutdown results are about sessions whose channel and loops are whole; a broken session is covered by the stream, grammar and routing results, and what its teardown leaves by SessionTeardown.TeardownLeaves.
- Local connections left open when Connect returns: the tables are those of one live session.
- UDP shutdown: the shutdown results are about TCP connections; a UDP entry ends by its idle timeout.
- UDP datagrams on an address entry that outlived its session: the program does not deliver them, and Bridging.StaleReachesNothing says what happens instead.
- Read-buffer sizes (32 KiB, 64 KiB) and zero-length local datagrams, which the daemon reads and does not forward.
- Two broadcasts at once and two logins of one IP at once: the results about them are for one at a time.
- A create request's `AddTunnel` is one step in ListenerRaces: the port it takes before the registry's mutex is the subject of PortAccounting.
- Firewall rules under overlapping create and delete requests: `start` adds its rule and `stop` deletes it outside the store's mutex, so the rules are claimed to agree for one request at a time, and OrphansExactly speaks of listeners only.
- Bad request bodies, tokens, audit log and events of the request handlers: only the order of registry, listener and rate-limit changes is modelled.
- `Tunnel.Active`, `Tunnel.CreatedAt`, `Client.ConnectedAt`: no modelled code reads them.
- SQLite errors: a rate-limit row is always read and written.
- Fractions of a second in the lockout: SQLite stores the end of a lock in whole seconds, so by a finer clock a lock may run out up to one second early.
- The `ufw` commands: a firewall rule is an element of a set.
- `ListClients`, `ListTunnels`, `GetClient`, `Count`: snapshots that add only easy members.
- The dashboard, the command-line client, autostart, PID and log files, the setup wizard and certificate generation.
