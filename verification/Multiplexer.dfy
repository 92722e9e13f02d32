/** One session of the control channel, with any number of bridged connections
    sharing it: the relay's conns table, the daemon's localConns table, the two
    channels, the dispatch loop, the frame reader, one relay handler and one
    daemon reader per connection. Interleaving is by critical section. */
module Multiplexer {
  import opened Frames
  import opened Options
  import opened Sockets
  import R = RelaySide
  import D = DaemonSide

  /** The n-th openConn of this session draws Own(n): identifiers are fresh.
      A UDP address entry that outlived an earlier session still holds one of
      that session's identifiers, a Stale one here. */
  datatype ConnId = Own(n: nat) | Stale(serial: nat)

  /** Where outside traffic comes from: an accepted TCP connection (named after
      the openConn it led to), or a UDP source address of a tunnel. */
  datatype Peer = Accepted(n: nat) | Source(tunnel: string, addr: string)

  /** The socket dialled for a connID, on a local port, over TCP or UDP. */
  datatype LocalSock = Dialled(id: ConnId, port: int, proto: Protocol)

  datatype Frame = Ping | Pong | Of(id: ConnId, body: Body)

  /** One Write call that took data, with the connID it was made for. */
  datatype Delivery = Delivery(id: ConnId, data: seq<Item>)

  datatype Wire = Wire(output: seq<Delivery>, closed: bool, eof: bool, dead: bool)

  const NEW_WIRE := Wire([], false, false, false)

  /** A peer's wire once the UDP socket of its tunnel has been closed. */
  function Severed(w: Wire): Wire { w.(eof := true, dead := true) }

  /** The goroutines' own state, per connection: `taken`, `localTaken` hold what
      closeConn and closeLocal took out of their tables. */
  datatype Rec = Rec(proto: Protocol, peer: Peer, tunnel: string, port: int,
                     handler: R.Handler, before: seq<Body>, late: bool, input: seq<Item>, taken: Option<Peer>,
                     reader: D.Reader, sock: Option<LocalSock>, localInput: seq<Item>, localTaken: Option<LocalSock>)

  datatype Dispatch =
    | Idle
    | Ponging
    | WritingTo(id: ConnId, peer: Peer, data: seq<Item>)
    | Closing(id: ConnId, peer: Peer)

  datatype Task =
    | Ready
    | Refusing(id: ConnId)
    | WritingLocal(id: ConnId, sock: LocalSock, data: seq<Item>)
    | ClosingLocal(id: ConnId, sock: LocalSock)

  /** `config`: the daemon's configured tunnels, id and local port. `stopped`:
      the UDP tunnels whose socket the relay has closed. */
  datatype Session = Session(
    recs: seq<Rec>,
    conns: map<ConnId, Peer>, peers: map<Peer, Wire>, loop: R.Loop, dispatch: Dispatch,
    down: Link<Frame>, up: Link<Frame>,
    frames: bool, task: Task, localConns: map<ConnId, LocalSock>, locals: map<LocalSock, Wire>,
    config: seq<(string, int)>, stopped: set<string>)

  function Start(config: seq<(string, int)>): Session {
    Session([], map[], map[], R.Running, Idle, NewLink(), NewLink(), true, Ready, map[], map[], config, {})
  }

  datatype Act =
    | NewTcp(tunnel: string, port: int)
    | NewUdp(tunnel: string, port: int, addr: string)
    | Handler(n: nat, h: R.HandlerAct)
    | RecvUp | SendPong | WriteExt(k: nat) | CloseExt | StopLoop | CloseAll
    | RecvDown(dialOk: bool) | Refuse | WriteLocal(k: nat) | CloseLocal | StopFrames
    | LocalReader(n: nat, r: D.ReaderAct)
    | SendPing | SendStale(serial: nat, body: Body) | StopUdp(tunnel: string)
    | ExtLost(n: nat) | LocalLost(n: nat) | CutDown(k: nat) | CutUp(k: nat)

  /** The daemon falls back to its configuration for a missing local port; the
      first tunnel of that id decides. */
  function ConfiguredPort(config: seq<(string, int)>, tunnel: string): int {
    if config == [] then 0
    else if config[0].0 == tunnel then config[0].1
    else ConfiguredPort(config[1..], tunnel)
  }

  function ResolvePort(config: seq<(string, int)>, tunnel: string, port: int): int {
    if port != 0 then port else ConfiguredPort(config, tunnel)
  }

  lemma {:induction false} ConfiguredPortIsFirst(config: seq<(string, int)>, tunnel: string)
    ensures var p := ConfiguredPort(config, tunnel);
      || (exists i :: 0 <= i < |config| && config[i].0 == tunnel && config[i].1 == p
                      && forall j :: 0 <= j < i ==> config[j].0 != tunnel)
      || (p == 0 && forall j :: 0 <= j < |config| ==> config[j].0 != tunnel)
  {
    if config != [] && config[0].0 != tunnel {
      var rest := config[1..];
      ConfiguredPortIsFirst(rest, tunnel);
      var p := ConfiguredPort(rest, tunnel);
      assert forall j :: 0 < j < |config| ==> config[j] == rest[j - 1];
      if i :| 0 <= i < |rest| && rest[i].0 == tunnel && rest[i].1 == p
              && forall j :: 0 <= j < i ==> rest[j].0 != tunnel {
        assert config[i + 1] == rest[i];
      }
    }
  }

  /** A port in the frame is used; else the first configured tunnel of that id
      decides; else there is none. */
  lemma PortIsChosen(config: seq<(string, int)>, tunnel: string, port: int)
    ensures var p := ResolvePort(config, tunnel, port);
      && (port != 0 ==> p == port)
      && (port == 0 ==>
            || (exists i :: 0 <= i < |config| && config[i].0 == tunnel && config[i].1 == p
                            && forall j :: 0 <= j < i ==> config[j].0 != tunnel)
            || (p == 0 && forall j :: 0 <= j < |config| ==> config[j].0 != tunnel))
  {
    ConfiguredPortIsFirst(config, tunnel);
  }

  /** How much of data a Write takes when it would take k. */
  function Took(k: nat, data: seq<Item>): nat { if k <= |data| then k else |data| }

  function WireWrite(w: Wire, id: ConnId, data: seq<Item>, k: nat): Wire
    requires k <= |data|
  {
    if w.closed || w.dead then w
    else if k == |data| then w.(output := w.output + [Delivery(id, data)])
    else w.(output := w.output + [Delivery(id, data[..k])], dead := true, eof := true)
  }

  /** extConn.Close: a UDP peer shares its socket, so closing it does nothing. */
  function ClosePeer(peers: map<Peer, Wire>, p: Peer): map<Peer, Wire> {
    if p.Accepted? && p in peers then peers[p := peers[p].(closed := true)] else peers
  }

  function CloseLocalSock(locals: map<LocalSock, Wire>, s: LocalSock): map<LocalSock, Wire> {
    if s in locals then locals[s := locals[s].(closed := true)] else locals
  }

  function Remove<K(==), V>(m: map<K, V>, k: K): map<K, V> { m - {k} }

  function Lookup<K(==), V>(m: map<K, V>, k: K): Option<V> { if k in m then Some(m[k]) else None }

  /** The frames of one connID among fs, in order. */
  function FramesOf(fs: seq<Frame>, n: nat): seq<Body> {
    if fs == [] then []
    else
      var init, last := FramesOf(fs[..|fs| - 1], n), fs[|fs| - 1];
      if last.Of? && last.id == Own(n) then init + [last.body] else init
  }

  predicate HandlerEnabled(g: Session, n: nat, h: R.HandlerAct) {
    n < |g.recs| && g.recs[n].peer in g.peers &&
    var c := g.recs[n];
    var w := g.peers[c.peer];
    match h
    case Register => c.handler.Opening?
    case OpenFails => c.handler.Opening? && !g.down.live
    case ExtRead(chunk, last) =>
      c.handler.Reading? && !w.closed && Chunk(c.proto, chunk) && (last ==> c.proto.Tcp?) && (c.proto.Udp? ==> !w.dead)
    case SendData(ok) => c.handler.Holding? && (g.down.live ==> ok)
    case ReadFail => c.handler.Reading? && c.proto.Tcp? && (w.closed || w.eof)
    case Expire => c.handler.Reading? && c.proto.Udp?
    case Abandon => c.handler.Reading? && c.proto.Udp?
    case Detach => c.handler.Leaving?
    case CloseDetached => c.handler.Detached?
    case SendClose => c.handler.Ending?
    case Return => c.handler.Returning?
  }

  predicate ReaderEnabled(g: Session, n: nat, r: D.ReaderAct) {
    n < |g.recs| &&
    var c := g.recs[n];
    match r
    case LocalRead(chunk, last) =>
      c.reader.LReading? && c.sock.Some? && c.sock.value in g.locals && !g.locals[c.sock.value].closed
      && Chunk(c.proto, chunk)
    case LocalSend(ok) => c.reader.LHolding? && (g.up.live ==> ok)
    case LocalFail =>
      c.reader.LReading? && c.sock.Some? && c.sock.value in g.locals
      && (g.locals[c.sock.value].closed || g.locals[c.sock.value].eof)
    case LocalDetach => c.reader.LLeaving?
    case LocalCloseDetached => c.reader.LDetached?
    case LocalSendClose => c.reader.LEnding?
  }

  predicate Enabled(g: Session, a: Act) {
    match a
    case NewTcp(_, _) => true
    case NewUdp(_, _, _) => true
    case Handler(n, h) => HandlerEnabled(g, n, h)
    case RecvUp => g.loop.Running? && g.dispatch.Idle? && g.up.flight != []
    case SendPong => g.dispatch.Ponging?
    case WriteExt(k) =>
      g.dispatch.WritingTo? && k <= |g.dispatch.data| && (g.dispatch.peer.Source? ==> k == |g.dispatch.data|)
    case CloseExt => g.dispatch.Closing?
    case StopLoop => g.loop.Running? && g.dispatch.Idle?
    case CloseAll => g.loop.Draining?
    case RecvDown(_) => g.frames && g.task.Ready? && g.down.flight != []
    case Refuse => g.task.Refusing?
    case WriteLocal(k) =>
      g.task.WritingLocal? && k <= |g.task.data| && g.task.id.Own? && g.task.id.n < |g.recs|
      && (g.recs[g.task.id.n].proto.Udp? ==> k == |g.task.data|)
    case CloseLocal => g.task.ClosingLocal?
    case StopFrames => g.frames && g.task.Ready?
    case LocalReader(n, r) => ReaderEnabled(g, n, r)
    case SendPing => true
    case SendStale(_, body) => !body.Open?
    case StopUdp(_) => true
    case ExtLost(n) => n < |g.recs| && g.recs[n].proto.Tcp?
    case LocalLost(n) => n < |g.recs| && g.recs[n].sock.Some?
    case CutDown(k) => k <= |g.down.flight|
    case CutUp(k) => k <= |g.up.flight|
  }

  function NewRec(proto: Protocol, peer: Peer, tunnel: string, port: int): Rec {
    Rec(proto, peer, tunnel, port, R.Opening, [], false, [], None, D.Unopened, None, [], None)
  }

  /** A peer seen for the first time; the table of peers keeps the others. */
  function WithPeer(peers: map<Peer, Wire>, stopped: set<string>, p: Peer): map<Peer, Wire> {
    if p in peers then peers
    else peers[p := if p.Source? && p.tunnel in stopped then Severed(NEW_WIRE) else NEW_WIRE]
  }

  /** openConn up to and including its send; registration is a later step. */
  function OpenConn(g: Session, proto: Protocol, peer: Peer, tunnel: string, port: int): Session {
    var n := |g.recs|;
    g.(recs := g.recs + [NewRec(proto, peer, tunnel, port)],
       peers := WithPeer(g.peers, g.stopped, peer),
       down := Push(g.down, Of(Own(n), Open(tunnel, port, proto))))
  }

  function HandlerNext(g: Session, n: nat, h: R.HandlerAct): (g': Session)
    requires HandlerEnabled(g, n, h)
    ensures |g'.recs| == |g.recs|
  {
    var c := g.recs[n];
    match h
    case Register =>
      g.(recs := g.recs[n := c.(handler := R.Reading, before := FramesOf(g.up.got, n), late := g.loop.Stopped?)],
         conns := g.conns[Own(n) := c.peer])
    case OpenFails => g.(recs := g.recs[n := c.(handler := if c.proto.Tcp? then R.Returning else R.Abandoned)])
    case ExtRead(chunk, last) =>
      var w := g.peers[c.peer];
      g.(recs := g.recs[n := c.(handler := R.Holding(chunk, last), input := c.input + chunk)],
         peers := g.peers[c.peer := w.(eof := w.eof || last)])
    case SendData(ok) =>
      g.(recs := g.recs[n := c.(handler := if c.proto.Tcp? && (c.handler.last || !ok) then R.Leaving else R.Reading)],
         down := Push(g.down, Of(Own(n), Data(c.handler.chunk))))
    case ReadFail => g.(recs := g.recs[n := c.(handler := R.Leaving)])
    case Expire => g.(recs := g.recs[n := c.(handler := R.Leaving)])
    case Abandon => g.(recs := g.recs[n := c.(handler := R.Abandoned)])
    case Detach =>
      var taken := Lookup(g.conns, Own(n));
      g.(recs := g.recs[n := c.(handler := R.Detached(taken.Some?), taken := taken)], conns := Remove(g.conns, Own(n)))
    case CloseDetached =>
      g.(recs := g.recs[n := c.(handler := R.Ending)],
         peers := if c.taken.Some? then ClosePeer(g.peers, c.taken.value) else g.peers)
    case SendClose =>
      g.(recs := g.recs[n := c.(handler := R.Returning)], down := Push(g.down, Of(Own(n), Close)))
    case Return =>
      g.(recs := g.recs[n := c.(handler := R.Ended)], peers := ClosePeer(g.peers, c.peer))
  }

  /** What the dispatch loop does next with a frame, looking it up in conns. */
  function DispatchFor(conns: map<ConnId, Peer>, f: Frame): Dispatch {
    match f
    case Ping => Ponging
    case Pong => Idle
    case Of(id, body) =>
      if id !in conns then Idle
      else
        match body
        case Data(d) => WritingTo(id, conns[id], d)
        case Close => Closing(id, conns[id])
        case Open(_, _, _) => Idle
  }

  /** A "close" takes its connection out of conns. */
  function ConnsAfter(conns: map<ConnId, Peer>, f: Frame): map<ConnId, Peer> {
    if f.Of? && f.body.Close? then Remove(conns, f.id) else conns
  }

  /** One turn of the dispatch loop of HandleControlConn. */
  function RecvUpNext(g: Session): Session
    requires g.up.flight != []
  {
    var f := g.up.flight[0];
    g.(up := Pop(g.up), dispatch := DispatchFor(g.conns, f), conns := ConnsAfter(g.conns, f))
  }

  function CloseAllNext(g: Session): Session {
    g.(loop := R.Stopped, conns := map[],
       peers := map p | p in g.peers ::
         if p.Accepted? && p in g.conns.Values then g.peers[p].(closed := true) else g.peers[p])
  }

  /** proxyStore.stop on a UDP tunnel: its one socket is closed, for every source. */
  function StopUdpNext(g: Session, tunnel: string): Session {
    g.(stopped := g.stopped + {tunnel},
       peers := map p | p in g.peers ::
         if p.Source? && p.tunnel == tunnel then Severed(g.peers[p]) else g.peers[p])
  }

  /** The dial succeeded: a new local socket, registered, with its reader started. */
  function DialLocal(g: Session, n: nat, port: int, proto: Protocol): (g': Session)
    requires n < |g.recs|
    ensures |g'.recs| == |g.recs|
  {
    var sock := Dialled(Own(n), port, proto);
    g.(recs := g.recs[n := g.recs[n].(reader := D.LReading, sock := Some(sock))],
       localConns := g.localConns[Own(n) := sock], locals := g.locals[sock := NEW_WIRE])
  }

  /** Does the frame open a connection whose dial succeeds, and to which port? */
  predicate Dials(g: Session, f: Frame, dialOk: bool) {
    f.Of? && f.body.Open? && f.id.Own? && f.id.n < |g.recs| && dialOk
    && ResolvePort(g.config, f.body.tunnel, f.body.port) != 0
  }

  /** What the frame reader does next with any other frame. */
  function TaskFor(localConns: map<ConnId, LocalSock>, f: Frame): Task {
    if !f.Of? then Ready
    else
      match f.body
      case Open(_, _, _) => Refusing(f.id)
      case Data(d) => if f.id in localConns then WritingLocal(f.id, localConns[f.id], d) else Ready
      case Close => if f.id in localConns then ClosingLocal(f.id, localConns[f.id]) else Ready
  }

  function LocalConnsAfter(localConns: map<ConnId, LocalSock>, f: Frame): map<ConnId, LocalSock> {
    if f.Of? && f.body.Close? then Remove(localConns, f.id) else localConns
  }

  /** One turn of the frame reader of Connect. */
  function RecvDownNext(g: Session, dialOk: bool): (g': Session)
    requires g.down.flight != []
    ensures |g'.recs| == |g.recs|
  {
    var f := g.down.flight[0];
    if Dials(g, f, dialOk)
    then DialLocal(g.(down := Pop(g.down)), f.id.n, ResolvePort(g.config, f.body.tunnel, f.body.port), f.body.proto)
    else g.(down := Pop(g.down), task := TaskFor(g.localConns, f), localConns := LocalConnsAfter(g.localConns, f))
  }

  function ReaderNext(g: Session, n: nat, r: D.ReaderAct): (g': Session)
    requires ReaderEnabled(g, n, r)
    ensures |g'.recs| == |g.recs|
  {
    var c := g.recs[n];
    match r
    case LocalRead(chunk, last) =>
      var w := g.locals[c.sock.value];
      g.(recs := g.recs[n := c.(reader := D.LHolding(chunk, last), localInput := c.localInput + chunk)],
         locals := g.locals[c.sock.value := w.(eof := w.eof || last)])
    case LocalSend(ok) =>
      g.(recs := g.recs[n := c.(reader := if c.reader.last || !ok then D.LLeaving else D.LReading)],
         up := Push(g.up, Of(Own(n), Data(c.reader.chunk))))
    case LocalFail => g.(recs := g.recs[n := c.(reader := D.LLeaving)])
    case LocalDetach =>
      var taken := Lookup(g.localConns, Own(n));
      g.(recs := g.recs[n := c.(reader := D.LDetached(taken.Some?), localTaken := taken)],
         localConns := Remove(g.localConns, Own(n)))
    case LocalCloseDetached =>
      g.(recs := g.recs[n := c.(reader := D.LEnding)],
         locals := if c.localTaken.Some? then CloseLocalSock(g.locals, c.localTaken.value) else g.locals)
    case LocalSendClose =>
      g.(recs := g.recs[n := c.(reader := D.LEnded)], up := Push(g.up, Of(Own(n), Close)))
  }

  /** The session after one step; only a new connection adds a record. */
  function Next(g: Session, a: Act): (g': Session)
    requires Enabled(g, a)
    ensures |g'.recs| == |g.recs| + (if a.NewTcp? || a.NewUdp? then 1 else 0)
  {
    match a
    case NewTcp(tunnel, port) => OpenConn(g, Tcp, Accepted(|g.recs|), tunnel, port)
    case NewUdp(tunnel, port, addr) => OpenConn(g, Udp, Source(tunnel, addr), tunnel, port)
    case Handler(n, h) => HandlerNext(g, n, h)
    case RecvUp => RecvUpNext(g)
    case SendPong => g.(dispatch := Idle, down := Push(g.down, Pong))
    case WriteExt(k) =>
      var p := g.dispatch.peer;
      g.(dispatch := Idle,
         peers := if p in g.peers then g.peers[p := WireWrite(g.peers[p], g.dispatch.id, g.dispatch.data, k)]
                  else g.peers)
    case CloseExt => g.(dispatch := Idle, peers := ClosePeer(g.peers, g.dispatch.peer))
    case StopLoop => g.(loop := R.Draining)
    case CloseAll => CloseAllNext(g)
    case RecvDown(dialOk) => RecvDownNext(g, dialOk)
    case Refuse =>
      var id := g.task.id;
      g.(task := Ready, up := Push(g.up, Of(id, Close)),
         recs := if id.Own? && id.n < |g.recs| then g.recs[id.n := g.recs[id.n].(reader := D.LEnded)] else g.recs)
    case WriteLocal(k) =>
      var s := g.task.sock;
      g.(task := Ready,
         locals := if s in g.locals then g.locals[s := WireWrite(g.locals[s], g.task.id, g.task.data, k)] else g.locals)
    case CloseLocal => g.(task := Ready, locals := CloseLocalSock(g.locals, g.task.sock))
    case StopFrames => g.(frames := false)
    case LocalReader(n, r) => ReaderNext(g, n, r)
    case SendPing => g.(up := Push(g.up, Ping))
    case SendStale(serial, body) => g.(down := Push(g.down, Of(Stale(serial), body)))
    case StopUdp(tunnel) => StopUdpNext(g, tunnel)
    case ExtLost(n) =>
      var p := g.recs[n].peer;
      if p in g.peers then g.(peers := g.peers[p := g.peers[p].(eof := true)]) else g
    case LocalLost(n) =>
      var s := g.recs[n].sock.value;
      if s in g.locals then g.(locals := g.locals[s := g.locals[s].(eof := true)]) else g
    case CutDown(k) => g.(down := Cut(g.down, k))
    case CutUp(k) => g.(up := Cut(g.up, k))
  }

  /** A run of the session: each action enabled in turn. */
  predicate Runs(g: Session, acts: seq<Act>)
    decreases |acts|
  {
    acts == [] || (Enabled(g, acts[0]) && Runs(Next(g, acts[0]), acts[1..]))
  }

  function Final(g: Session, acts: seq<Act>): Session
    requires Runs(g, acts)
    decreases |acts|
  {
    if acts == [] then g else Final(Next(g, acts[0]), acts[1..])
  }

  lemma RunsFirst(g: Session, a: Act, rest: seq<Act>)
    requires Enabled(g, a) && Runs(Next(g, a), rest)
    ensures Runs(g, [a] + rest) && Final(g, [a] + rest) == Final(Next(g, a), rest)
  {
    assert ([a] + rest)[1..] == rest;
  }

  lemma RunsThree(g: Session, a: Act, b: Act, c: Act)
    requires Enabled(g, a) && Enabled(Next(g, a), b) && Enabled(Next(Next(g, a), b), c)
    ensures Runs(g, [a] + [b] + [c]) && Final(g, [a] + [b] + [c]) == Next(Next(Next(g, a), b), c)
  {
    RunsFirst(Next(Next(g, a), b), c, []);
    RunsFirst(Next(g, a), b, [c] + []);
    RunsFirst(g, a, [b] + ([c] + []));
    assert [a] + ([b] + ([c] + [])) == [a] + [b] + [c];
  }

  lemma {:induction false} RunsThen(g: Session, first: seq<Act>, rest: seq<Act>)
    requires Runs(g, first) && Runs(Final(g, first), rest)
    ensures Runs(g, first + rest) && Final(g, first + rest) == Final(Final(g, first), rest)
    decreases |first|
  {
    if first == [] {
      assert first + rest == rest;
    } else {
      RunsThen(Next(g, first[0]), first[1..], rest);
      assert (first + rest)[1..] == first[1..] + rest;
    }
  }
}
