/** The daemon's half of one bridged connection: the frame reader of Connect
    while it serves this connID, the goroutine that reads the local connection,
    and this connID's entry in localConns. */
module DaemonSide {
  import opened Frames
  import opened Sockets

  datatype Task = Ready | Refusing | WritingLocal(payload: seq<Item>) | ClosingLocal

  datatype Reader =
    | Unopened
    | LReading
    | LHolding(chunk: seq<Item>, last: bool) // read, not yet sent
    | LLeaving                               // loop left, closeLocal not yet begun
    | LDetached(had: bool)                   // entry deleted under localMu
    | LEnding                                // local conn closed, "close" not yet sent
    | LEnded

  /** `frames`: the frame reader still runs. `dialled`: a local socket exists.
      `listed`: it is in localConns. */
  datatype Daemon = Daemon(frames: bool, task: Task, reader: Reader, dialled: bool, listed: bool, local: Socket)

  datatype FrameAct = RecvDown(dialOk: bool) | Refuse | WriteLocal(k: nat) | CloseLocal | StopFrames

  datatype ReaderAct =
    | LocalRead(chunk: seq<Item>, last: bool) | LocalSend(ok: bool) | LocalFail
    | LocalDetach | LocalCloseDetached | LocalSendClose

  predicate FrameEnabled(p: Protocol, d: Daemon, down: Link<Body>, a: FrameAct) {
    match a
    case RecvDown(_) => d.frames && d.task.Ready? && down.flight != []
    case Refuse => d.task.Refusing?
    case WriteLocal(k) => d.task.WritingLocal? && k <= |d.task.payload| && (p.Udp? ==> k == |d.task.payload|)
    case CloseLocal => d.task.ClosingLocal?
    case StopFrames => d.frames && d.task.Ready?
  }

  /** A frame from the relay is looked up in localConns as it is taken; "open"
      dials, and registers the connection if the dial succeeds. */
  function Receive(d: Daemon, f: Body, dialOk: bool): Daemon {
    match f
    case Open(_, _, _) =>
      if dialOk then d.(dialled := true, listed := true, reader := LReading) else d.(task := Refusing)
    case Data(data) => if d.listed then d.(task := WritingLocal(data)) else d
    case Close => if d.listed then d.(task := ClosingLocal, listed := false) else d
  }

  function FrameNext(p: Protocol, d: Daemon, down: Link<Body>, a: FrameAct): Daemon
    requires FrameEnabled(p, d, down, a)
  {
    match a
    case RecvDown(dialOk) => Receive(d, down.flight[0], dialOk)
    case Refuse => d.(task := Ready, reader := LEnded)
    case WriteLocal(k) => d.(task := Ready, local := Write(d.local, d.task.payload, k))
    case CloseLocal => d.(task := Ready, local := d.local.(closed := true))
    case StopFrames => d.(frames := false)
  }

  predicate ReaderEnabled(p: Protocol, d: Daemon, up: Link<Body>, a: ReaderAct) {
    match a
    case LocalRead(chunk, last) => d.reader.LReading? && !d.local.closed && Chunk(p, chunk)
    case LocalSend(ok) => d.reader.LHolding? && (up.live ==> ok)
    case LocalFail => d.reader.LReading? && (d.local.closed || d.local.eof)
    case LocalDetach => d.reader.LLeaving?
    case LocalCloseDetached => d.reader.LDetached?
    case LocalSendClose => d.reader.LEnding?
  }

  function ReaderNext(d: Daemon, a: ReaderAct): Daemon {
    match a
    case LocalRead(chunk, last) => d.(reader := LHolding(chunk, last), local := Read(d.local, chunk, last))
    case LocalSend(ok) => d.(reader := if d.reader.LHolding? && (d.reader.last || !ok) then LLeaving else LReading)
    case LocalFail => d.(reader := LLeaving)
    case LocalDetach => d.(reader := LDetached(d.listed), listed := false)
    case LocalCloseDetached =>
      d.(reader := LEnding, local := if d.reader.LDetached? && d.reader.had then d.local.(closed := true) else d.local)
    case LocalSendClose => d.(reader := LEnded)
  }

  /** What the reader goroutine's action puts on the channel to the relay. */
  function ReaderSends(d: Daemon, up: Link<Body>, a: ReaderAct): Link<Body> {
    match a
    case LocalSend(_) => if d.reader.LHolding? then Push(up, Data(d.reader.chunk)) else up
    case LocalSendClose => Push(up, Close)
    case _ => up
  }

  // ---- invariants of this side ----

  predicate LActive(r: Reader) { r.LReading? || r.LHolding? || r.LLeaving? }
  predicate LLeft(r: Reader) { r.LLeaving? || r.LDetached? || r.LEnding? || r.LEnded? }
  predicate Gone(r: Reader) { r == LDetached(false) || r.LEnding? || r.LEnded? }

  function PlusHeld(stream: seq<Item>, r: Reader): seq<Item> {
    if r.LHolding? then stream + r.chunk else stream
  }

  function PlusPending(stream: seq<Item>, t: Task): seq<Item> {
    if t.WritingLocal? then stream + t.payload else stream
  }

  /** The local service hung up, or was never reached. */
  predicate LocalGone(d: Daemon) {
    d.local.eof || d.task.Refusing? || (d.reader.LEnded? && !d.dialled)
  }

  /** What was sent is what was read, but for the chunk in hand. */
  predicate SentUp(d: Daemon, up: Link<Body>) {
    && Stream(up.sent) <= d.local.input
    && (up.live ==> PlusHeld(Stream(up.sent), d.reader) == d.local.input)
  }

  /** What was written is what arrived, but for the chunk in hand. */
  predicate WrittenLocal(d: Daemon, downGot: seq<Body>) {
    && d.local.output <= Stream(downGot)
    && ((d.listed || d.task.WritingLocal?) && !d.local.dead ==>
          PlusPending(d.local.output, d.task) == Stream(downGot))
  }

  predicate LocalPhases(d: Daemon, downGot: seq<Body>) {
    && (d.listed ==> d.dialled && !d.local.closed && LActive(d.reader) && !d.task.ClosingLocal?)
    && (d.dialled ==> !d.reader.Unopened? && !d.task.Refusing?)
    && (!d.dialled ==> (d.reader.Unopened? || d.reader.LEnded?) && d.local.output == [] && !d.local.closed
                       && !d.task.WritingLocal? && !d.task.ClosingLocal?)
    && (d.reader.Unopened? ==> d.task.Refusing? || downGot == [])
    && (downGot == [] ==> d.reader.Unopened? && !d.task.Refusing?)
    && (d.task.Refusing? ==> d.reader.Unopened?)
    && (d.reader.LHolding? && d.reader.last ==> d.local.eof)
    && (d.local.dead ==> d.local.eof)
  }

  predicate UpFrames(d: Daemon, up: Link<Body>) {
    && UpGrammar(up.sent)
    && (Closed(up.sent) ==> d.reader.LEnded?)
    && (up.live && d.reader.LEnded? ==> Closed(up.sent))
    && (d.reader.Unopened? ==> up.sent == [] && d.local.input == [])
  }

  /** Whoever takes the entry out of localConns closes the local connection. */
  predicate LocalTeardown(d: Daemon, downGot: seq<Body>) {
    && (LActive(d.reader) && !d.listed ==> d.local.closed || d.task.ClosingLocal?)
    && (Closed(downGot) ==> !d.listed)
    && (d.dialled && Gone(d.reader) ==> d.local.closed || d.task.ClosingLocal?)
  }

  predicate DaemonInv(d: Daemon, downGot: seq<Body>, up: Link<Body>) {
    && SentUp(d, up) && WrittenLocal(d, downGot) && LocalPhases(d, downGot)
    && UpFrames(d, up) && LocalTeardown(d, downGot)
  }

  lemma SendKeepsSent(d: Daemon, up: Link<Body>, next: Reader)
    requires SentUp(d, up) && d.reader.LHolding? && !next.LHolding?
    ensures SentUp(d.(reader := next), Push(up, Data(d.reader.chunk)))
  {
    StreamSnoc(up.sent, Data(d.reader.chunk));
  }

  lemma CloseKeepsSent(d: Daemon, up: Link<Body>)
    requires SentUp(d, up) && d.reader.LEnding?
    ensures SentUp(d.(reader := LEnded), Push(up, Close))
  {
    StreamSnoc(up.sent, Close);
  }

  lemma ReadKeepsSent(d: Daemon, up: Link<Body>, chunk: seq<Item>, last: bool)
    requires SentUp(d, up) && d.reader.LReading?
    ensures SentUp(d.(reader := LHolding(chunk, last), local := Read(d.local, chunk, last)), up)
  {
  }

  lemma ReaderKeepsSent(p: Protocol, d: Daemon, up: Link<Body>, a: ReaderAct)
    requires SentUp(d, up) && ReaderEnabled(p, d, up, a)
    ensures SentUp(ReaderNext(d, a), ReaderSends(d, up, a))
  {
    match a
    case LocalSend(ok) => SendKeepsSent(d, up, ReaderNext(d, a).reader);
    case LocalSendClose => CloseKeepsSent(d, up);
    case LocalRead(chunk, last) => ReadKeepsSent(d, up, chunk, last);
    case _ => assert !d.reader.LHolding? && !ReaderNext(d, a).reader.LHolding?;
  }

  lemma ReaderKeepsFrames(p: Protocol, d: Daemon, up: Link<Body>, a: ReaderAct)
    requires UpFrames(d, up) && ReaderEnabled(p, d, up, a)
    ensures UpFrames(ReaderNext(d, a), ReaderSends(d, up, a))
  {
  }

  lemma ReaderKeepsWritten(p: Protocol, d: Daemon, downGot: seq<Body>, up: Link<Body>, a: ReaderAct)
    requires WrittenLocal(d, downGot) && LocalPhases(d, downGot) && LocalTeardown(d, downGot)
    requires ReaderEnabled(p, d, up, a)
    ensures WrittenLocal(ReaderNext(d, a), downGot)
  {
  }

  lemma ReaderKeepsPhases(p: Protocol, d: Daemon, downGot: seq<Body>, up: Link<Body>, a: ReaderAct)
    requires LocalPhases(d, downGot) && LocalTeardown(d, downGot) && ReaderEnabled(p, d, up, a)
    ensures LocalPhases(ReaderNext(d, a), downGot) && LocalTeardown(ReaderNext(d, a), downGot)
  {
  }

  lemma ReaderKeeps(p: Protocol, d: Daemon, downGot: seq<Body>, up: Link<Body>, a: ReaderAct)
    requires DaemonInv(d, downGot, up) && ReaderEnabled(p, d, up, a)
    ensures DaemonInv(ReaderNext(d, a), downGot, ReaderSends(d, up, a))
  {
    ReaderKeepsSent(p, d, up, a);
    ReaderKeepsFrames(p, d, up, a);
    ReaderKeepsWritten(p, d, downGot, up, a);
    ReaderKeepsPhases(p, d, downGot, up, a);
  }

  /** The relay sends "open" once, first; so it finds the daemon's side unopened. */
  lemma ReceiveKeeps(d: Daemon, downGot: seq<Body>, up: Link<Body>, f: Body, dialOk: bool)
    requires DaemonInv(d, downGot, up) && d.task.Ready?
    requires f.Open? <==> downGot == []
    requires !Closed(downGot)
    ensures DaemonInv(Receive(d, f, dialOk), downGot + [f], up)
  {
    StreamSnoc(downGot, f);
  }

  lemma RefuseKeeps(d: Daemon, downGot: seq<Body>, up: Link<Body>)
    requires DaemonInv(d, downGot, up) && d.task.Refusing?
    ensures DaemonInv(d.(task := Ready, reader := LEnded), downGot, Push(up, Close))
  {
    StreamSnoc(up.sent, Close);
  }

  lemma FrameKeeps(p: Protocol, d: Daemon, down: Link<Body>, up: Link<Body>, a: FrameAct)
    requires DaemonInv(d, down.got, up) && FrameEnabled(p, d, down, a) && !a.RecvDown? && !a.Refuse?
    ensures DaemonInv(FrameNext(p, d, down, a), down.got, up)
  {
  }
}
