/** The relay's half of one bridged connection: its handler goroutine
    (handleProxyConn, or handleUDPProxy on behalf of one source address), the
    dispatch loop of HandleControlConn while it serves this connID, and this
    connID's entry in the session's conns table. Each action is one critical
    section or one system call; goroutines interleave between actions. */
module RelaySide {
  import opened Frames
  import opened Sockets

  datatype Handler =
    | Opening                               // "open" sent, not yet in conns
    | Reading
    | Holding(chunk: seq<Item>, last: bool) // read, not yet sent
    | Leaving                               // loop left, closeConn not yet begun
    | Detached(had: bool)                   // entry deleted under connMu
    | Ending                                // external conn closed, "close" not yet sent
    | Returning                             // only the deferred extConn.Close() is left
    | Ended
    | Abandoned                             // UDP only: no address entry, no close sent

  datatype Dispatch = Free | WritingExt(data: seq<Item>) | ClosingExt

  /** The dispatch loop itself; after it stops, closeAllExternal runs once. */
  datatype Loop = Running | Draining | Stopped

  /** Two histories: `before`, the return frames handled before registration,
      and `late`, that registration came after closeAllExternal. */
  datatype Relay = Relay(handler: Handler, registered: bool, before: seq<Body>, late: bool, ext: Socket,
                         loop: Loop, dispatch: Dispatch)

  datatype HandlerAct =
    | Register | OpenFails | ExtRead(chunk: seq<Item>, last: bool) | SendData(ok: bool) | ReadFail
    | Expire | Abandon | Detach | CloseDetached | SendClose | Return

  datatype DispatchAct = RecvUp | WriteExt(k: nat) | CloseExt | StopLoop | CloseAll

  predicate HandlerEnabled(p: Protocol, r: Relay, down: Link<Body>, a: HandlerAct) {
    match a
    case Register => r.handler.Opening?
    case OpenFails => r.handler.Opening? && !down.live
    case ExtRead(chunk, last) =>
      r.handler.Reading? && !r.ext.closed && Chunk(p, chunk) && (last ==> p.Tcp?) && (p.Udp? ==> !r.ext.dead)
    case SendData(ok) => r.handler.Holding? && (down.live ==> ok)
    case ReadFail => r.handler.Reading? && p.Tcp? && (r.ext.closed || r.ext.eof)
    case Expire => r.handler.Reading? && p.Udp?
    case Abandon => r.handler.Reading? && p.Udp?
    case Detach => r.handler.Leaving?
    case CloseDetached => r.handler.Detached?
    case SendClose => r.handler.Ending?
    case Return => r.handler.Returning?
  }

  function HandlerNext(p: Protocol, r: Relay, upGot: seq<Body>, a: HandlerAct): Relay {
    match a
    case Register => r.(handler := Reading, registered := true, before := upGot, late := r.loop.Stopped?)
    case OpenFails => r.(handler := if p.Tcp? then Returning else Abandoned)
    case ExtRead(chunk, last) => r.(handler := Holding(chunk, last), ext := Read(r.ext, chunk, last))
    case SendData(ok) =>
      r.(handler := if p.Tcp? && r.handler.Holding? && (r.handler.last || !ok) then Leaving else Reading)
    case ReadFail => r.(handler := Leaving)
    case Expire => r.(handler := Leaving)
    case Abandon => r.(handler := Abandoned)
    case Detach => r.(handler := Detached(r.registered), registered := false)
    case CloseDetached =>
      r.(handler := Ending, ext := if r.handler.Detached? && r.handler.had then CloseSocket(p, r.ext) else r.ext)
    case SendClose => r.(handler := Returning)
    case Return => r.(handler := Ended, ext := CloseSocket(p, r.ext))
  }

  /** What the handler's action puts on the channel to the daemon. */
  function HandlerSends(r: Relay, down: Link<Body>, a: HandlerAct): Link<Body> {
    match a
    case SendData(_) => if r.handler.Holding? then Push(down, Data(r.handler.chunk)) else down
    case SendClose => Push(down, Close)
    case _ => down
  }

  predicate DispatchEnabled(p: Protocol, r: Relay, up: Link<Body>, a: DispatchAct) {
    match a
    case RecvUp => r.loop.Running? && r.dispatch.Free? && up.flight != []
    case WriteExt(k) => r.dispatch.WritingExt? && k <= |r.dispatch.data| && (p.Udp? ==> k == |r.dispatch.data|)
    case CloseExt => r.dispatch.ClosingExt?
    case StopLoop => r.loop.Running? && r.dispatch.Free?
    case CloseAll => r.loop.Draining?
  }

  /** A frame from the daemon is looked up in conns as it is taken. */
  function Receive(r: Relay, f: Body): Relay {
    if !r.registered then r else
    match f
    case Data(d) => r.(dispatch := WritingExt(d))
    case Close => r.(dispatch := ClosingExt, registered := false)
    case Open(_, _, _) => r
  }

  function DispatchNext(p: Protocol, r: Relay, up: Link<Body>, a: DispatchAct): Relay
    requires DispatchEnabled(p, r, up, a)
  {
    match a
    case RecvUp => Receive(r, up.flight[0])
    case WriteExt(k) => r.(dispatch := Free, ext := Write(r.ext, r.dispatch.data, k))
    case CloseExt => r.(dispatch := Free, ext := CloseSocket(p, r.ext))
    case StopLoop => r.(loop := Draining)
    case CloseAll =>
      r.(loop := Stopped, registered := false, ext := if r.registered then CloseSocket(p, r.ext) else r.ext)
  }

  // ---- invariants of this side ----

  predicate Active(h: Handler) { h.Reading? || h.Holding? || h.Leaving? }
  predicate Left(h: Handler) { h.Leaving? || h.Detached? || h.Ending? || h.Returning? || h.Ended? }

  function PlusHeld(stream: seq<Item>, h: Handler): seq<Item> {
    if h.Holding? then stream + h.chunk else stream
  }

  function PlusPending(stream: seq<Item>, d: Dispatch): seq<Item> {
    if d.WritingExt? then stream + d.data else stream
  }

  /** The "close" from the daemon was handled before openConn registered. */
  predicate EarlyClose(r: Relay) { Closed(r.before) }

  predicate LateClose(r: Relay, upGot: seq<Body>) { Closed(upGot) && !Closed(r.before) }

  /** What was sent is what was read, but for the chunk in hand. */
  predicate SentDown(r: Relay, down: Link<Body>) {
    && Stream(down.sent) <= r.ext.input
    && (down.live ==> PlusHeld(Stream(down.sent), r.handler) == r.ext.input)
  }

  /** What was written is what arrived since registration, but for the chunk in hand. */
  predicate WrittenExt(r: Relay, upGot: seq<Body>) {
    && Stream(r.before) + r.ext.output <= Stream(upGot)
    && ((r.registered || r.dispatch.WritingExt?) && !r.ext.dead ==>
          PlusPending(Stream(r.before) + r.ext.output, r.dispatch) == Stream(upGot))
  }

  predicate ExtPhases(p: Protocol, r: Relay) {
    && (r.handler.Opening? ==>
          !r.registered && r.before == [] && r.ext.output == [] && r.dispatch.Free? && !r.ext.closed)
    && (r.registered ==> (Active(r.handler) || r.handler.Abandoned?) && !r.ext.closed && !r.dispatch.ClosingExt?)
    && (p.Udp? ==> !r.ext.closed)
    && (p.Tcp? ==> !r.handler.Abandoned?)
    && (r.handler.Holding? && r.handler.last ==> r.ext.eof)
    && (r.ext.dead ==> r.ext.eof)
  }

  predicate DownFrames(r: Relay, down: Link<Body>) {
    && DownGrammar(down.sent)
    && (Closed(down.sent) ==> r.handler.Returning? || r.handler.Ended?)
    && (down.live ==> down.sent != [] && (r.handler.Returning? || r.handler.Ended? ==> Closed(down.sent)))
  }

  /** Whoever takes the entry out of conns closes the external connection. */
  predicate ExtTeardown(p: Protocol, r: Relay, upGot: seq<Body>) {
    && r.before <= upGot
    && (p.Tcp? && Active(r.handler) && !r.registered ==> r.ext.closed || r.dispatch.ClosingExt?)
    && (r.registered && Closed(upGot) ==> Closed(r.before))
    && (p.Tcp? && r.handler.Ended? ==> r.ext.closed)
  }

  /** After closeAllExternal an entry of conns is one that was registered later,
      and that its handler has not taken out. */
  predicate LateEntries(r: Relay) {
    && (r.late ==> r.loop.Stopped? && !r.handler.Opening?)
    && (!r.loop.Running? ==> r.dispatch.Free?)
    && (r.loop.Stopped? ==> (r.registered <==> r.late && (Active(r.handler) || r.handler.Abandoned?)))
  }

  predicate RelayInv(p: Protocol, r: Relay, down: Link<Body>, upGot: seq<Body>) {
    && SentDown(r, down) && WrittenExt(r, upGot) && ExtPhases(p, r)
    && DownFrames(r, down) && ExtTeardown(p, r, upGot) && LateEntries(r)
  }

  lemma SendKeepsSent(r: Relay, down: Link<Body>, next: Handler)
    requires SentDown(r, down) && r.handler.Holding? && !next.Holding?
    ensures SentDown(r.(handler := next), Push(down, Data(r.handler.chunk)))
  {
    StreamSnoc(down.sent, Data(r.handler.chunk));
  }

  lemma CloseKeepsSent(r: Relay, down: Link<Body>)
    requires SentDown(r, down) && r.handler.Ending?
    ensures SentDown(r.(handler := Returning), Push(down, Close))
  {
    StreamSnoc(down.sent, Close);
  }

  lemma ReadKeepsSent(r: Relay, down: Link<Body>, chunk: seq<Item>, last: bool)
    requires SentDown(r, down) && r.handler.Reading?
    ensures SentDown(r.(handler := Holding(chunk, last), ext := Read(r.ext, chunk, last)), down)
  {
  }

  /** The other steps neither read nor send. */
  lemma QuietKeepsSent(p: Protocol, r: Relay, down: Link<Body>, upGot: seq<Body>, a: HandlerAct)
    requires SentDown(r, down) && HandlerEnabled(p, r, down, a)
    requires !a.SendData? && !a.SendClose? && !a.ExtRead?
    ensures SentDown(HandlerNext(p, r, upGot, a), down)
  {
    var r' := HandlerNext(p, r, upGot, a);
    assert !r.handler.Holding? && !r'.handler.Holding? && r'.ext.input == r.ext.input;
  }

  lemma HandlerKeepsSent(p: Protocol, r: Relay, down: Link<Body>, upGot: seq<Body>, a: HandlerAct)
    requires SentDown(r, down) && HandlerEnabled(p, r, down, a)
    ensures SentDown(HandlerNext(p, r, upGot, a), HandlerSends(r, down, a))
  {
    match a
    case SendData(ok) => SendKeepsSent(r, down, HandlerNext(p, r, upGot, a).handler);
    case SendClose => CloseKeepsSent(r, down);
    case ExtRead(chunk, last) => ReadKeepsSent(r, down, chunk, last);
    case _ => QuietKeepsSent(p, r, down, upGot, a);
  }

  lemma HandlerKeepsFrames(p: Protocol, r: Relay, down: Link<Body>, upGot: seq<Body>, a: HandlerAct)
    requires DownFrames(r, down) && HandlerEnabled(p, r, down, a)
    ensures DownFrames(HandlerNext(p, r, upGot, a), HandlerSends(r, down, a))
  {
  }

  lemma HandlerKeepsWritten(p: Protocol, r: Relay, down: Link<Body>, upGot: seq<Body>, a: HandlerAct)
    requires WrittenExt(r, upGot) && ExtPhases(p, r) && HandlerEnabled(p, r, down, a)
    ensures WrittenExt(HandlerNext(p, r, upGot, a), upGot)
  {
  }

  lemma HandlerKeepsPhases(p: Protocol, r: Relay, down: Link<Body>, upGot: seq<Body>, a: HandlerAct)
    requires ExtPhases(p, r) && ExtTeardown(p, r, upGot) && HandlerEnabled(p, r, down, a)
    ensures ExtPhases(p, HandlerNext(p, r, upGot, a)) && ExtTeardown(p, HandlerNext(p, r, upGot, a), upGot)
  {
  }

  lemma HandlerKeepsLate(p: Protocol, r: Relay, down: Link<Body>, upGot: seq<Body>, a: HandlerAct)
    requires LateEntries(r) && ExtPhases(p, r) && HandlerEnabled(p, r, down, a)
    ensures LateEntries(HandlerNext(p, r, upGot, a))
  {
  }

  lemma HandlerKeeps(p: Protocol, r: Relay, down: Link<Body>, upGot: seq<Body>, a: HandlerAct)
    requires RelayInv(p, r, down, upGot) && HandlerEnabled(p, r, down, a)
    ensures RelayInv(p, HandlerNext(p, r, upGot, a), HandlerSends(r, down, a), upGot)
  {
    HandlerKeepsSent(p, r, down, upGot, a);
    HandlerKeepsFrames(p, r, down, upGot, a);
    HandlerKeepsWritten(p, r, down, upGot, a);
    HandlerKeepsPhases(p, r, down, upGot, a);
    HandlerKeepsLate(p, r, down, upGot, a);
  }

  lemma ReceiveKeepsWritten(r: Relay, upGot: seq<Body>, f: Body)
    requires WrittenExt(r, upGot) && r.dispatch.Free?
    ensures WrittenExt(Receive(r, f), upGot + [f])
  {
    StreamSnoc(upGot, f);
  }

  lemma WriteKeepsWritten(r: Relay, upGot: seq<Body>, k: nat)
    requires WrittenExt(r, upGot) && r.dispatch.WritingExt? && k <= |r.dispatch.data|
    requires r.registered ==> !r.ext.closed
    ensures WrittenExt(r.(dispatch := Free, ext := Write(r.ext, r.dispatch.data, k)), upGot)
  {
    var start, data := Stream(r.before), r.dispatch.data;
    assert start + (r.ext.output + data) == start + r.ext.output + data;
    assert start + (r.ext.output + data[..k]) == start + r.ext.output + data[..k];
    assert start + r.ext.output + data[..k] <= start + r.ext.output + data;
  }

  lemma DispatchKeepsWritten(p: Protocol, r: Relay, up: Link<Body>, a: DispatchAct)
    requires WrittenExt(r, up.got) && ExtPhases(p, r) && DispatchEnabled(p, r, up, a)
    ensures WrittenExt(DispatchNext(p, r, up, a), if a.RecvUp? then Pop(up).got else up.got)
  {
    match a
    case RecvUp => ReceiveKeepsWritten(r, up.got, up.flight[0]);
    case WriteExt(k) => WriteKeepsWritten(r, up.got, k);
    case _ =>
  }

  lemma DispatchKeeps(p: Protocol, r: Relay, down: Link<Body>, up: Link<Body>, a: DispatchAct)
    requires RelayInv(p, r, down, up.got) && DispatchEnabled(p, r, up, a)
    ensures RelayInv(p, DispatchNext(p, r, up, a), down, if a.RecvUp? then Pop(up).got else up.got)
  {
    DispatchKeepsWritten(p, r, up, a);
  }
}
