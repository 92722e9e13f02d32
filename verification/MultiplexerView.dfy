/** What one connection sees of a session, and the routing invariant: every
    table entry, frame and delivery belongs to the peer, the local socket and
    the tunnel its connID was drawn for. */
module MultiplexerView {
  import opened Frames
  import opened Options
  import opened Sockets
  import opened Multiplexer
  import R = RelaySide
  import D = DaemonSide
  import C = Connection

  /** The data delivered for one connID, in order. */
  function Collect(out: seq<Delivery>, id: ConnId): seq<Item> {
    if out == [] then []
    else
      var init, last := Collect(out[..|out| - 1], id), out[|out| - 1];
      if last.id == id then init + last.data else init
  }

  function LinkOf(l: Link<Frame>, n: nat): Link<Body> {
    Link(l.live, FramesOf(l.sent, n), FramesOf(l.flight, n), FramesOf(l.got, n))
  }

  function DispatchOf(d: Dispatch, n: nat): R.Dispatch {
    if d.WritingTo? && d.id == Own(n) then R.WritingExt(d.data)
    else if d.Closing? && d.id == Own(n) then R.ClosingExt
    else R.Free
  }

  function TaskOf(t: Task, n: nat): D.Task {
    if t.Refusing? && t.id == Own(n) then D.Refusing
    else if t.WritingLocal? && t.id == Own(n) then D.WritingLocal(t.data)
    else if t.ClosingLocal? && t.id == Own(n) then D.ClosingLocal
    else D.Ready
  }

  function SocketOf(w: Wire, input: seq<Item>, id: ConnId): Socket {
    Socket(input, Collect(w.output, id), w.closed, w.eof, w.dead)
  }

  function RelayOf(g: Session, n: nat): R.Relay
    requires n < |g.recs|
  {
    var c := g.recs[n];
    R.Relay(c.handler, Own(n) in g.conns, c.before, c.late,
            SocketOf(if c.peer in g.peers then g.peers[c.peer] else NEW_WIRE, c.input, Own(n)),
            g.loop, DispatchOf(g.dispatch, n))
  }

  function DaemonOf(g: Session, n: nat): D.Daemon
    requires n < |g.recs|
  {
    var c := g.recs[n];
    D.Daemon(g.frames, TaskOf(g.task, n), c.reader, c.sock.Some?, Own(n) in g.localConns,
             SocketOf(if c.sock.Some? && c.sock.value in g.locals then g.locals[c.sock.value] else NEW_WIRE,
                      c.localInput, Own(n)))
  }

  function View(g: Session, n: nat): C.Conn
    requires n < |g.recs|
  {
    C.Conn(g.recs[n].proto, RelayOf(g, n), LinkOf(g.down, n), LinkOf(g.up, n), DaemonOf(g, n))
  }

  // ---- routing ----

  predicate Known(g: Session, id: ConnId) { id.Own? && id.n < |g.recs| }

  /** A UDP source shares its tunnel's socket: never closed for it alone, dead
      exactly if the tunnel has been stopped. */
  predicate SourceOk(g: Session, p: Peer, w: Wire)
    requires p.Source?
  {
    !w.closed && (w.eof <==> p.tunnel in g.stopped) && (w.dead <==> p.tunnel in g.stopped)
  }

  predicate PeersRouted(g: Session) {
    && (forall n :: 0 <= n < |g.recs| ==>
          && g.recs[n].peer in g.peers
          && (g.recs[n].proto.Tcp? ==> g.recs[n].peer == Accepted(n))
          && (g.recs[n].proto.Udp? ==> g.recs[n].peer.Source? && g.recs[n].peer.tunnel == g.recs[n].tunnel)
          && (g.recs[n].taken.Some? ==> g.recs[n].taken.value == g.recs[n].peer)
          && (g.recs[n].handler.Detached? ==> g.recs[n].handler.had == g.recs[n].taken.Some?))
    && (forall p :: p in g.peers ==> (p.Accepted? ==> p.n < |g.recs|))
    && (forall p :: p in g.peers ==> (p.Source? ==> SourceOk(g, p, g.peers[p])))
  }

  predicate TablesRouted(g: Session) {
    && (forall id :: id in g.conns ==> Known(g, id) && g.conns[id] == g.recs[id.n].peer)
    && (forall id :: id in g.localConns ==> Known(g, id) && g.recs[id.n].sock == Some(g.localConns[id]))
  }

  predicate LoopsRouted(g: Session) {
    && (g.dispatch.WritingTo? || g.dispatch.Closing? ==>
          Known(g, g.dispatch.id) && g.dispatch.peer == g.recs[g.dispatch.id.n].peer)
    && (g.task.Refusing? ==> Known(g, g.task.id))
    && (g.task.WritingLocal? || g.task.ClosingLocal? ==>
          Known(g, g.task.id) && g.recs[g.task.id.n].sock == Some(g.task.sock))
  }

  predicate LocalsRouted(g: Session) {
    && (forall n :: 0 <= n < |g.recs| ==>
          && (g.recs[n].sock.Some? ==>
                && g.recs[n].sock.value in g.locals
                && g.recs[n].sock.value ==
                   Dialled(Own(n), ResolvePort(g.config, g.recs[n].tunnel, g.recs[n].port), g.recs[n].proto)
                && g.recs[n].sock.value.port != 0)
          && (g.recs[n].localTaken.Some? ==> g.recs[n].localTaken == g.recs[n].sock)
          && (g.recs[n].reader.LDetached? ==> g.recs[n].reader.had == g.recs[n].localTaken.Some?))
    && (forall s :: s in g.locals ==> Known(g, s.id) && g.recs[s.id.n].sock == Some(s))
  }

  predicate DownRouted(g: Session, f: Frame) {
    f.Of? ==>
      && (f.id.Own? ==> f.id.n < |g.recs|)
      && (f.body.Open? ==>
            f.id.Own? && f.body == Open(g.recs[f.id.n].tunnel, g.recs[f.id.n].port, g.recs[f.id.n].proto))
  }

  predicate UpRouted(g: Session, f: Frame) { f.Of? ==> Known(g, f.id) }

  predicate FramesRouted(g: Session) {
    && (forall i :: 0 <= i < |g.down.sent| ==> DownRouted(g, g.down.sent[i]))
    && (forall i :: 0 <= i < |g.up.sent| ==> UpRouted(g, g.up.sent[i]))
  }

  predicate DeliveredTo(g: Session, p: Peer, id: ConnId) { Known(g, id) && g.recs[id.n].peer == p }

  predicate DeliveriesRouted(g: Session) {
    && (forall p, i :: p in g.peers && 0 <= i < |g.peers[p].output| ==> DeliveredTo(g, p, g.peers[p].output[i].id))
    && (forall s, i :: s in g.locals && 0 <= i < |g.locals[s].output| ==> g.locals[s].output[i].id == s.id)
  }

  predicate Routing(g: Session) {
    && Fifo(g.down) && Fifo(g.up)
    && PeersRouted(g) && TablesRouted(g) && LoopsRouted(g) && LocalsRouted(g)
    && FramesRouted(g) && DeliveriesRouted(g)
  }

  // ---- projecting frames, deliveries and channels ----

  lemma FramesOfSnoc(fs: seq<Frame>, f: Frame, n: nat)
    ensures FramesOf(fs + [f], n) == FramesOf(fs, n) + (if f.Of? && f.id == Own(n) then [f.body] else [])
  {
    assert (fs + [f])[..|fs|] == fs;
  }

  lemma {:induction false} FramesOfConcat(a: seq<Frame>, b: seq<Frame>, n: nat)
    ensures FramesOf(a + b, n) == FramesOf(a, n) + FramesOf(b, n)
  {
    if b == [] {
      assert a + b == a;
    } else {
      var init := b[..|b| - 1];
      FramesOfConcat(a, init, n);
      assert (a + b)[..|a + b| - 1] == a + init;
    }
  }

  lemma PushOf(l: Link<Frame>, f: Frame, n: nat)
    ensures LinkOf(Push(l, f), n) == if f.Of? && f.id == Own(n) then Push(LinkOf(l, n), f.body) else LinkOf(l, n)
  {
    FramesOfSnoc(l.sent, f, n);
    FramesOfSnoc(l.flight, f, n);
  }

  lemma PopOf(l: Link<Frame>, n: nat)
    requires l.flight != []
    ensures var f := l.flight[0];
      if f.Of? && f.id == Own(n) then
        LinkOf(l, n).flight != [] && LinkOf(l, n).flight[0] == f.body && LinkOf(Pop(l), n) == Pop(LinkOf(l, n))
      else
        LinkOf(Pop(l), n) == LinkOf(l, n)
  {
    FramesOfSnoc(l.got, l.flight[0], n);
    FramesOfConcat(l.flight[..1], l.flight[1..], n);
    assert l.flight[..1] + l.flight[1..] == l.flight;
    assert l.flight[..1] == [] + [l.flight[0]];
    FramesOfSnoc([], l.flight[0], n);
  }

  lemma CutOf(l: Link<Frame>, k: nat, n: nat)
    requires k <= |l.flight|
    ensures |FramesOf(l.flight[..k], n)| <= |FramesOf(l.flight, n)|
    ensures LinkOf(Cut(l, k), n) == Cut(LinkOf(l, n), |FramesOf(l.flight[..k], n)|)
  {
    FramesOfConcat(l.flight[..k], l.flight[k..], n);
    assert l.flight[..k] + l.flight[k..] == l.flight;
  }

  lemma CollectSnoc(out: seq<Delivery>, d: Delivery, id: ConnId)
    ensures Collect(out + [d], id) == Collect(out, id) + (if d.id == id then d.data else [])
  {
    assert (out + [d])[..|out|] == out;
  }

  lemma WriteOf(w: Wire, id: ConnId, data: seq<Item>, k: nat, input: seq<Item>, other: ConnId)
    requires k <= |data|
    ensures id == other ==>
      SocketOf(WireWrite(w, id, data, k), input, other) == Write(SocketOf(w, input, other), data, k)
    ensures id != other && k == |data| ==>
      SocketOf(WireWrite(w, id, data, k), input, other) == SocketOf(w, input, other)
  {
    CollectSnoc(w.output, Delivery(id, data), other);
    CollectSnoc(w.output, Delivery(id, data[..k]), other);
  }
}
