/** The frames of the control channel, as values, and the streams they carry.
    One Item is the smallest thing a stream preserves: a byte of a TCP stream,
    or one whole datagram of a UDP source. */
module Frames {

  datatype Protocol = Tcp | Udp

  datatype Item = Octet(value: bv8) | Datagram(octets: seq<bv8>)

  datatype Body =
    | Open(tunnel: string, port: int, proto: Protocol)
    | Data(payload: seq<Item>)
    | Close

  function Payload(f: Body): seq<Item> {
    if f.Data? then f.payload else []
  }

  /** What the data frames of fs carry, in order. */
  function Stream(fs: seq<Body>): seq<Item> {
    if fs == [] then [] else Stream(fs[..|fs| - 1]) + Payload(fs[|fs| - 1])
  }

  lemma StreamSnoc(fs: seq<Body>, f: Body)
    ensures Stream(fs + [f]) == Stream(fs) + Payload(f)
  {
    assert (fs + [f])[..|fs|] == fs;
  }

  lemma LastApart(a: seq<Body>, b: seq<Body>)
    requires b != []
    ensures a + b == (a + b[..|b| - 1]) + [b[|b| - 1]]
  {
  }

  lemma Regroup(a: seq<Item>, b: seq<Item>, c: seq<Item>)
    ensures (a + b) + c == a + (b + c)
  {
  }

  lemma {:induction false} StreamConcat(a: seq<Body>, b: seq<Body>)
    ensures Stream(a + b) == Stream(a) + Stream(b)
  {
    if b == [] {
      assert a + b == a;
    } else {
      var init, last := b[..|b| - 1], b[|b| - 1];
      StreamConcat(a, init);
      LastApart(a, b);
      StreamSnoc(a + init, last);
      Regroup(Stream(a), Stream(init), Payload(last));
    }
  }

  lemma StreamPrefix(a: seq<Body>, b: seq<Body>)
    requires a <= b
    ensures Stream(a) <= Stream(b)
  {
    StreamConcat(a, b[|a|..]);
    assert a + b[|a|..] == b;
  }

  /** One direction of the control channel: FIFO until it breaks. `sent`, `got`
      are histories of what entered it and of what the far end took out. */
  datatype Link<T> = Link(live: bool, sent: seq<T>, flight: seq<T>, got: seq<T>)

  function NewLink<T>(): Link<T> { Link(true, [], [], []) }

  /** A frame written to a broken channel is lost, whatever Encode returned. */
  function Push<T>(l: Link<T>, f: T): Link<T> {
    if l.live then l.(sent := l.sent + [f], flight := l.flight + [f]) else l
  }

  function Pop<T>(l: Link<T>): Link<T>
    requires l.flight != []
  {
    l.(flight := l.flight[1..], got := l.got + [l.flight[0]])
  }

  /** The channel breaks; only the first n frames in flight still arrive. */
  function Cut<T>(l: Link<T>, n: nat): Link<T>
    requires n <= |l.flight|
  {
    l.(live := false, flight := l.flight[..n])
  }

  predicate Fifo<T(==)>(l: Link<T>) {
    && l.got + l.flight <= l.sent
    && (l.live ==> l.got + l.flight == l.sent)
  }

  lemma PushFifo<T>(l: Link<T>, f: T)
    requires Fifo(l)
    ensures Fifo(Push(l, f))
  {
    if l.live {
      assert l.got + (l.flight + [f]) == (l.got + l.flight) + [f];
    }
  }

  /** A frame taken out of a channel was sent, and sits where it was sent. */
  lemma PopSent<T>(l: Link<T>)
    requires Fifo(l) && l.flight != []
    ensures Fifo(Pop(l))
    ensures |l.got| < |l.sent| && l.sent[|l.got|] == l.flight[0]
  {
    assert Pop(l).got + Pop(l).flight == l.got + l.flight;
    assert (l.got + l.flight)[|l.got|] == l.flight[0];
  }

  lemma CutKeepsOrder<T>(l: Link<T>, n: nat)
    requires n <= |l.flight| && Fifo(l)
    ensures Fifo(Cut(l, n))
  {
    assert l.got + l.flight[..n] <= l.got + l.flight;
  }

  // ---- the frame grammar of one connection ----

  predicate Closed(fs: seq<Body>) { fs != [] && fs[|fs| - 1].Close? }

  /** Open Data* Close? */
  predicate DownGrammar(fs: seq<Body>) {
    forall i :: 0 <= i < |fs| ==> (fs[i].Open? <==> i == 0) && (fs[i].Close? ==> i == |fs| - 1)
  }

  /** Data* Close? */
  predicate UpGrammar(fs: seq<Body>) {
    forall i :: 0 <= i < |fs| ==> !fs[i].Open? && (fs[i].Close? ==> i == |fs| - 1)
  }
}

module Sockets {
  import opened Frames

  datatype Socket = Socket(input: seq<Item>, output: seq<Item>, closed: bool, eof: bool, dead: bool)

  const NEW_SOCKET := Socket([], [], false, false, false)

  /** A TCP read that counts returns bytes, a UDP read one datagram. */
  predicate Chunk(p: Protocol, chunk: seq<Item>) {
    if p.Tcp? then chunk != [] else |chunk| == 1
  }

  function Read(s: Socket, chunk: seq<Item>, last: bool): Socket {
    s.(input := s.input + chunk, eof := s.eof || last)
  }

  /** Write takes the whole chunk, or part of it and the socket is dead. */
  function Write(s: Socket, data: seq<Item>, k: nat): Socket
    requires k <= |data|
  {
    if s.closed || s.dead then s
    else if k == |data| then s.(output := s.output + data)
    else s.(output := s.output + data[..k], dead := true, eof := true)
  }

  /** An external connection's Close: real for TCP, a no-op for a UDP peer. */
  function CloseSocket(p: Protocol, s: Socket): Socket {
    if p.Tcp? then s.(closed := true) else s
  }
}
