/** The WebSocket event hub: bounded queues, a writer per subscriber, and a
    broadcast that drops subscribers who cannot keep up. */
module Hubs {
  import opened Options

  type Event = string

  const CAPACITY := 64

  /** What the non-blocking select in Broadcast does with one subscriber. */
  datatype Outcome = Queued | FoundClosed | Slow

  /** The select may take any case that is ready; default only if none is. */
  predicate Possible(queued: nat, closed: bool, o: Outcome) {
    match o
    case Queued => queued < CAPACITY
    case FoundClosed => closed
    case Slow => queued >= CAPACITY && !closed
  }

  // ---- the hub with its writers, step by step ----

  /** `lost` is a message whose write failed; `stopped`, the writer has left its
      loop; `closed`, it has closed its channel; `gone`, it has taken the subscriber
      out of the hub. `open`: the WebSocket; `closing`: someone is about to close it. */
  datatype Sub = Sub(joined: nat, queue: seq<Event>, writing: Option<Event>, received: seq<Event>, lost: Option<Event>,
                     stopped: bool, closed: bool, gone: bool, inHub: bool, open: bool, closing: bool)

  /** `events`: every event broadcast so far, `pending`: the subscribers that the
      broadcast in progress has still to serve. */
  datatype Machine = Machine(events: seq<Event>, subs: seq<Sub>, pending: set<nat>)

  datatype Act =
    | Join
    | Begin(e: Event)
    | Offer(c: nat, outcome: Outcome)
    | Take(c: nat) | WriteOk(c: nat) | WriteFails(c: nat)
    | WriterCloses(c: nat) | WriterRemoves(c: nat) | ReaderRemoves(c: nat) | CloseConn(c: nat)

  predicate Enabled(m: Machine, a: Act) {
    match a
    case Join => true
    case Begin(_) => m.pending == {}
    case Offer(c, o) =>
      c in m.pending && c < |m.subs| && m.events != [] && Possible(|m.subs[c].queue|, m.subs[c].closed, o)
    case Take(c) => c < |m.subs| && !m.subs[c].stopped && m.subs[c].writing.None? && m.subs[c].queue != []
    case WriteOk(c) => c < |m.subs| && m.subs[c].writing.Some? && m.subs[c].open
    case WriteFails(c) => c < |m.subs| && m.subs[c].writing.Some?
    case WriterCloses(c) => c < |m.subs| && m.subs[c].stopped && !m.subs[c].closed
    case WriterRemoves(c) => c < |m.subs| && m.subs[c].closed && !m.subs[c].gone
    case ReaderRemoves(c) => c < |m.subs|
    case CloseConn(c) => c < |m.subs| && m.subs[c].closing
  }

  function InHub(m: Machine): set<nat> { set c | 0 <= c < |m.subs| && m.subs[c].inHub }

  function Next(m: Machine, a: Act): Machine
    requires Enabled(m, a)
  {
    match a
    case Join => m.(subs := m.subs + [Sub(|m.events|, [], None, [], None, false, false, false, true, true, false)])
    case Begin(e) => m.(events := m.events + [e], pending := InHub(m))
    case Offer(c, o) =>
      var s := m.subs[c];
      m.(pending := m.pending - {c},
         subs := m.subs[c := match o
                             case Queued => s.(queue := s.queue + [m.events[|m.events| - 1]])
                             case FoundClosed => s.(inHub := false)
                             case Slow => s.(inHub := false, closing := true)])
    case Take(c) =>
      var s := m.subs[c];
      m.(subs := m.subs[c := s.(writing := Some(s.queue[0]), queue := s.queue[1..])])
    case WriteOk(c) =>
      var s := m.subs[c];
      m.(subs := m.subs[c := s.(received := s.received + [s.writing.value], writing := None)])
    case WriteFails(c) =>
      var s := m.subs[c];
      m.(subs := m.subs[c := s.(lost := s.writing, writing := None, stopped := true)])
    case WriterCloses(c) => m.(subs := m.subs[c := m.subs[c].(closed := true)])
    case WriterRemoves(c) => m.(subs := m.subs[c := m.subs[c].(inHub := false, gone := true, closing := true)])
    case ReaderRemoves(c) => m.(subs := m.subs[c := m.subs[c].(inHub := false, closing := true)])
    case CloseConn(c) => m.(subs := m.subs[c := m.subs[c].(open := false, closing := false)])
  }

  // ---- no gaps ----

  function AsSeq(o: Option<Event>): seq<Event> { if o.Some? then [o.value] else [] }

  /** Received, then being written or lost in writing, then queued. */
  function Served(s: Sub): seq<Event> {
    s.received + AsSeq(s.writing) + AsSeq(s.lost) + s.queue
  }

  /** What a subscriber was served is the events since it joined, without a gap;
      all of them if it is in the hub, all but the current one if the current
      broadcast has still to serve it. */
  predicate SubOk(m: Machine, c: nat)
    requires c < |m.subs|
  {
    var s := m.subs[c];
    && s.joined + |Served(s)| <= |m.events|
    && Served(s) == m.events[s.joined..s.joined + |Served(s)|]
    && |s.queue| <= CAPACITY
    && (s.writing.Some? ==> s.lost.None?)
    && (s.lost.Some? ==> s.stopped)
    && (s.stopped ==> s.writing.None?)
    && (s.closed ==> s.stopped)
    && (s.gone ==> s.closed && !s.inHub)
    && (s.inHub ==> s.open && !s.closing)
    && (s.open && !s.inHub ==> s.closing || (s.closed && !s.gone))
    && (c in m.pending ==> s.joined + |Served(s)| + 1 == |m.events|)
    && (s.inHub && c !in m.pending ==> s.joined + |Served(s)| == |m.events|)
  }

  ghost predicate Inv(m: Machine) {
    && (forall c :: 0 <= c < |m.subs| ==> SubOk(m, c))
    && (forall c :: c in m.pending ==> c < |m.subs|)
    && (m.pending != {} ==> m.events != [])
  }

  lemma ServedQueued(s: Sub, e: Event)
    ensures Served(s.(queue := s.queue + [e])) == Served(s) + [e]
  {
    assert s.received + AsSeq(s.writing) + AsSeq(s.lost) + (s.queue + [e])
        == s.received + AsSeq(s.writing) + AsSeq(s.lost) + s.queue + [e];
  }

  lemma ServedTaken(s: Sub)
    requires s.queue != [] && s.writing.None? && s.lost.None?
    ensures Served(s.(writing := Some(s.queue[0]), queue := s.queue[1..])) == Served(s)
  {
    assert [s.queue[0]] + s.queue[1..] == s.queue;
    assert s.received + [] + [] + s.queue == s.received + [s.queue[0]] + [] + s.queue[1..];
  }

  lemma ServedWritten(s: Sub)
    requires s.writing.Some? && s.lost.None?
    ensures Served(s.(received := s.received + [s.writing.value], writing := None)) == Served(s)
    ensures Served(s.(lost := s.writing, writing := None, stopped := true)) == Served(s)
  {
    assert s.received + [s.writing.value] + [] + [] + s.queue == s.received + [s.writing.value] + [] + s.queue;
  }

  lemma BeginOk(m: Machine, e: Event, c: nat)
    requires Inv(m) && Enabled(m, Begin(e)) && c < |m.subs|
    ensures SubOk(Next(m, Begin(e)), c)
  {
    var s := m.subs[c];
    assert SubOk(m, c);
    assert (m.events + [e])[s.joined..s.joined + |Served(s)|] == m.events[s.joined..s.joined + |Served(s)|];
  }

  lemma QueuedOk(m: Machine, c: nat)
    requires Inv(m) && Enabled(m, Offer(c, Queued))
    ensures SubOk(Next(m, Offer(c, Queued)), c)
  {
    var s, n := m.subs[c], |m.events|;
    assert SubOk(m, c);
    ServedQueued(s, m.events[n - 1]);
    assert m.events[s.joined..n] == m.events[s.joined..n - 1] + [m.events[n - 1]];
  }

  lemma OfferOk(m: Machine, a: Act, c: nat)
    requires Inv(m) && Enabled(m, a) && a.Offer? && c < |m.subs|
    ensures SubOk(Next(m, a), c)
  {
    assert SubOk(m, c);
    if c != a.c {
      assert Next(m, a).subs[c] == m.subs[c];
    } else if a.outcome.Queued? {
      QueuedOk(m, c);
    } else {
      assert Next(m, a).subs[c] == m.subs[c].(inHub := false, closing := Next(m, a).subs[c].closing);
      assert Served(Next(m, a).subs[c]) == Served(m.subs[c]);
    }
  }

  predicate ByWriter(a: Act) { !a.Join? && !a.Begin? && !a.Offer? }

  /** A writer or a reader changes its own subscriber, and serves it nothing new. */
  lemma WriterServes(m: Machine, a: Act)
    requires Enabled(m, a) && ByWriter(a)
    requires m.subs[a.c].writing.Some? ==> m.subs[a.c].lost.None?
    requires m.subs[a.c].lost.Some? ==> m.subs[a.c].stopped
    ensures Served(Next(m, a).subs[a.c]) == Served(m.subs[a.c])
  {
    var s := m.subs[a.c];
    if a.Take? {
      ServedTaken(s);
    } else if a.WriteOk? || a.WriteFails? {
      ServedWritten(s);
    } else {
      var s' := Next(m, a).subs[a.c];
      assert s' == s.(closed := s'.closed, gone := s'.gone, inHub := s'.inHub, open := s'.open, closing := s'.closing);
    }
  }

  lemma WriterOk(m: Machine, a: Act, c: nat)
    requires Inv(m) && Enabled(m, a) && ByWriter(a) && c < |m.subs|
    ensures SubOk(Next(m, a), c)
  {
    assert SubOk(m, c);
    var m' := Next(m, a);
    assert m'.events == m.events && m'.pending == m.pending;
    if c == a.c {
      WriterServes(m, a);
    } else {
      assert m'.subs[c] == m.subs[c];
    }
  }

  lemma NextInv(m: Machine, a: Act)
    requires Inv(m) && Enabled(m, a)
    ensures Inv(Next(m, a))
  {
    forall c | 0 <= c < |Next(m, a).subs| ensures SubOk(Next(m, a), c) {
      match a
      case Join =>
        if c < |m.subs| {
          assert SubOk(m, c);
        }
      case Begin(e) => BeginOk(m, e, c);
      case Offer(_, _) => OfferOk(m, a, c);
      case _ => WriterOk(m, a, c);
    }
  }

  predicate Runs(m: Machine, acts: seq<Act>)
    decreases |acts|
  {
    acts == [] || (Enabled(m, acts[0]) && Runs(Next(m, acts[0]), acts[1..]))
  }

  function Final(m: Machine, acts: seq<Act>): Machine
    requires Runs(m, acts)
    decreases |acts|
  {
    if acts == [] then m else Final(Next(m, acts[0]), acts[1..])
  }

  lemma {:induction false} RunInv(m: Machine, acts: seq<Act>)
    requires Inv(m) && Runs(m, acts)
    ensures Inv(Final(m, acts))
    decreases |acts|
  {
    if acts != [] {
      NextInv(m, acts[0]);
      RunInv(Next(m, acts[0]), acts[1..]);
    }
  }

  const START := Machine([], [], {})

  lemma ReceivedFirst(s: Sub, tail: seq<Event>)
    requires Served(s) <= tail
    ensures s.received <= tail
    ensures s.writing.None? && s.lost.None? ==> Served(s) == s.received + s.queue
  {
    assert Served(s) == s.received + (AsSeq(s.writing) + AsSeq(s.lost) + s.queue);
  }

  /** Gap-free events: in every interleaving of one broadcast at a time with any
      number of writers, readers and newcomers, what a subscriber has received is
      the first events since it joined, and what it has received, is being
      written, lost in one failed write, or has queued is contiguous; its queue
      holds at most 64; and while it is in the hub and no broadcast is in
      progress nothing is missing: who missed an event is out. */
  lemma GapFree(acts: seq<Act>, c: nat)
    requires Runs(START, acts) && c < |Final(START, acts).subs|
    ensures var m := Final(START, acts); var s := m.subs[c];
      && s.joined + |s.received| <= |m.events| && s.received == m.events[s.joined..s.joined + |s.received|]
      && s.joined + |Served(s)| <= |m.events| && Served(s) == m.events[s.joined..s.joined + |Served(s)|]
      && |s.queue| <= 64
      && (m.pending == {} && s.joined + |Served(s)| < |m.events| ==> !s.inHub)
      && (s.inHub && m.pending == {} && s.writing.None? && s.lost.None? ==>
            s.received + s.queue == m.events[s.joined..])
  {
    RunInv(START, acts);
    var m := Final(START, acts);
    assert SubOk(m, c);
    ReceivedFirst(m.subs[c], m.events[m.subs[c].joined..]);
  }

  /** Whoever is in the hub is connected; and whoever left it is disconnected,
      unless someone is just about to do it: who took it out, or its writer. */
  lemma HubIsConnected(acts: seq<Act>, c: nat)
    requires Runs(START, acts) && c < |Final(START, acts).subs|
    ensures var s := Final(START, acts).subs[c];
      && (s.inHub ==> s.open && !s.closing)
      && (!s.closing && (s.closed ==> s.gone) ==> (s.inHub <==> s.open))
  {
    RunInv(START, acts);
    assert SubOk(Final(START, acts), c);
  }

  /** A broadcast takes a subscriber out of the hub only if its queue is full or
      its writer has closed its channel; one that leaves for its queue alone is
      about to be disconnected; and one that stays has the event queued last. */
  lemma OnlySlowOrClosedLeave(m: Machine, a: Act)
    requires Enabled(m, a) && a.Offer?
    ensures var s, s' := m.subs[a.c], Next(m, a).subs[a.c];
      && (s'.queue != s.queue ==> |s.queue| < 64 && s' == s.(queue := s.queue + [m.events[|m.events| - 1]]))
      && (s'.queue == s.queue ==> (|s.queue| >= 64 || s.closed) && !s'.inHub)
      && (|s.queue| >= 64 && !s.closed ==> s'.closing)
      && (s.closed ==> s'.closing == s.closing)
      && s'.received == s.received && s'.open == s.open
      && (forall c :: 0 <= c < |m.subs| && c != a.c ==> Next(m, a).subs[c] == m.subs[c])
  {
    var s := m.subs[a.c];
    assert |s.queue + [m.events[|m.events| - 1]]| == |s.queue| + 1;
  }

  /** Once disconnected, a subscriber receives nothing more. */
  lemma {:induction false} DisconnectedHearNothing(m: Machine, acts: seq<Act>, c: nat)
    requires Runs(m, acts) && c < |m.subs| && !m.subs[c].open
    ensures c < |Final(m, acts).subs|
    ensures !Final(m, acts).subs[c].open && Final(m, acts).subs[c].received == m.subs[c].received
    decreases |acts|
  {
    if acts != [] {
      DisconnectedHearNothing(Next(m, acts[0]), acts[1..], c);
    }
  }

  // ---- Broadcast, add and remove as the program writes them ----

  /** A subscriber's fields. */
  datatype Fields = Fields(send: seq<Event>, closed: bool, connOpen: bool, received: seq<Event>)

  /** Queued if there is room; a slow subscriber is disconnected; else untouched. */
  function Offered(f: Fields, e: Event, o: Outcome): Fields {
    match o
    case Queued => f.(send := f.send + [e])
    case FoundClosed => f
    case Slow => f.(connOpen := false)
  }

  class WsClient {
    var send: seq<Event>
    var closed: bool
    var connOpen: bool
    var received: seq<Event>

    constructor ()
      ensures send == [] && !closed && connOpen && received == []
    {
      send, closed, connOpen, received := [], false, true, [];
    }

    function View(): Fields
      reads this
    {
      Fields(send, closed, connOpen, received)
    }

    /** The writer goroutine over what is queued now, if its write number `fails`
        fails, or the first, if it has been disconnected: that message is lost, the
        ones after it stay queued, and the writer closes its channel, leaves the
        hub and disconnects. */
    method WriterLoop(hub: Hub, fails: nat)
      modifies this, hub
      ensures var n := if old(connOpen) then fails else 0;
        n >= |old(send)| ==>
          && received == old(received) + old(send) && send == []
          && closed == old(closed) && connOpen == old(connOpen) && hub.clients == old(hub.clients)
      ensures var n := if old(connOpen) then fails else 0;
        n < |old(send)| ==>
          && received == old(received) + old(send)[..n] && send == old(send)[n + 1..]
          && closed && !connOpen && hub.clients == old(hub.clients) - {this}
    {
      var i := 0;
      while send != []
        invariant i <= |old(send)| && i <= fails && send == old(send)[i..] && (!connOpen ==> i == 0)
        invariant received == old(received) + old(send)[..i] && hub.clients == old(hub.clients)
        invariant closed == old(closed) && connOpen == old(connOpen)
        decreases |send|
      {
        var msg := send[0];
        send := send[1..];
        if i == fails || !connOpen {
          closed, connOpen := true, false;
          hub.Remove(this);
          return;
        }
        received := received + [msg];
        i := i + 1;
      }
    }
  }

  class Hub {
    var clients: set<WsClient>

    constructor ()
      ensures clients == {}
    {
      clients := {};
    }

    method Add(c: WsClient)
      modifies this
      ensures clients == old(clients) + {c}
    {
      clients := clients + {c};
    }

    method Remove(c: WsClient)
      modifies this
      ensures clients == old(clients) - {c}
    {
      clients := clients - {c};
    }

    /** Which case the select takes for a subscriber in this state, if it prefers
        the closed channel exactly for `wary` ones. */
    static function Select(queued: nat, closed: bool, wary: bool): (o: Outcome)
      ensures Possible(queued, closed, o)
      ensures o.Slow? <==> queued >= 64 && !closed
      ensures Possible(queued, closed, FoundClosed) && (wary || !Possible(queued, closed, Queued)) ==> o == FoundClosed
    {
      if closed && (wary || queued >= CAPACITY) then FoundClosed
      else if queued < CAPACITY then Queued
      else Slow
    }

    /** The select for one subscriber, and what its case does. */
    method Offer(c: WsClient, e: Event, o: Outcome)
      modifies this, c
      ensures clients == if o.Queued? then old(clients) else old(clients) - {c}
      ensures c.View() == Offered(old(c.View()), e, o)
      ensures c.send == (if o.Queued? then old(c.send) + [e] else old(c.send))
      ensures c.connOpen == (old(c.connOpen) && !o.Slow?)
      ensures c.closed == old(c.closed) && c.received == old(c.received)
    {
      match o
      case Queued => c.send := c.send + [e];
      case FoundClosed => Remove(c);
      case Slow =>
        Remove(c);
        c.connOpen := false;
    }

    /** Every subscriber of the snapshot is served, or is out of the hub; only a
        slow one is disconnected; no other object changes. */
    method Broadcast(e: Event, wary: set<WsClient>)
      modifies this, clients
      ensures clients == set c | c in old(clients) && Select(|old(c.send)|, old(c.closed), c in wary).Queued?
      ensures forall c :: c in old(clients) ==>
        c.View() == Offered(old(c.View()), e, Select(|old(c.send)|, old(c.closed), c in wary))
      ensures forall c :: c in clients ==> c in old(clients) && c.send == old(c.send) + [e] && |c.send| <= 64
      ensures forall c :: c in old(clients) && c !in clients ==>
        c.send == old(c.send) && (|old(c.send)| >= 64 || old(c.closed))
      ensures forall c :: c in old(clients) && |old(c.send)| >= 64 ==> c !in clients
      ensures forall c :: c in old(clients) ==>
        c.connOpen == (old(c.connOpen) && !(|old(c.send)| >= 64 && !old(c.closed)))
      ensures forall c :: c in old(clients) ==> c.closed == old(c.closed) && c.received == old(c.received)
    {
      var targets := clients;
      while targets != {}
        invariant targets <= old(clients)
        invariant clients == set c |
          c in old(clients) && (c in targets || Select(|old(c.send)|, old(c.closed), c in wary).Queued?)
        invariant forall c :: c in targets ==> c.View() == old(c.View())
        invariant forall c :: c in old(clients) && c !in targets ==>
          c.View() == Offered(old(c.View()), e, Select(|old(c.send)|, old(c.closed), c in wary))
        modifies this, old(clients)
        decreases |targets|
      {
        var c :| c in targets;
        Offer(c, e, Select(|c.send|, c.closed, c in wary));
        targets := targets - {c};
      }
    }
  }

  // ---- a broadcast is a run of the machine ----

  /** A subscriber of the machine and the fields of an object it stands for. */
  predicate Shows(s: Sub, f: Fields) {
    s.queue == f.send && s.received == f.received && s.closed == f.closed && s.open == f.connOpen
  }

  function OfferedSub(s: Sub, e: Event, o: Outcome): Sub {
    match o
    case Queued => s.(queue := s.queue + [e])
    case FoundClosed => s.(inHub := false)
    case Slow => s.(inHub := false, open := false, closing := false)
  }

  lemma OfferedShows(s: Sub, f: Fields, e: Event, o: Outcome)
    requires Shows(s, f)
    ensures Shows(OfferedSub(s, e, o), Offered(f, e, o))
  {
  }

  function Choice(s: Sub, wary: bool): Outcome { Hub.Select(|s.queue|, s.closed, wary) }

  predicate Servable(m: Machine) { m.events != [] && forall c :: c in m.pending ==> c < |m.subs| }

  /** One subscriber's turn; the broadcast itself closes a slow one's connection. */
  function Turn(m: Machine, c: nat, wary: set<nat>): seq<Act>
    requires c < |m.subs|
  {
    var o := Choice(m.subs[c], c in wary);
    if o.Slow? then [Offer(c, o), CloseConn(c)] else [Offer(c, o)]
  }

  function AfterTurn(m: Machine, c: nat, wary: set<nat>): Machine
    requires Servable(m) && c in m.pending
  {
    var o := Choice(m.subs[c], c in wary);
    m.(pending := m.pending - {c}, subs := m.subs[c := OfferedSub(m.subs[c], m.events[|m.events| - 1], o)])
  }

  lemma TurnRuns(m: Machine, c: nat, wary: set<nat>, rest: seq<Act>)
    requires Servable(m) && c in m.pending && Runs(AfterTurn(m, c, wary), rest)
    ensures Runs(m, Turn(m, c, wary) + rest)
    ensures Final(m, Turn(m, c, wary) + rest) == Final(AfterTurn(m, c, wary), rest)
  {
    var o := Choice(m.subs[c], c in wary);
    var all, m1 := Turn(m, c, wary) + rest, Next(m, Offer(c, o));
    if o.Slow? {
      assert all[1..] == [CloseConn(c)] + rest && all[1..][1..] == rest;
      assert Next(m1, CloseConn(c)) == AfterTurn(m, c, wary);
    } else {
      assert all[1..] == rest && m1 == AfterTurn(m, c, wary);
    }
  }

  /** The rest of a broadcast, in whatever order the snapshot is listed. */
  ghost function Serving(m: Machine, wary: set<nat>): seq<Act>
    requires Servable(m)
    decreases |m.pending|
  {
    if m.pending == {} then []
    else
      var c :| c in m.pending;
      Turn(m, c, wary) + Serving(AfterTurn(m, c, wary), wary)
  }

  /** m' is m with the pending subscribers served. */
  predicate AllServed(m: Machine, m': Machine, wary: set<nat>)
    requires Servable(m)
  {
    var e := m.events[|m.events| - 1];
    && m'.events == m.events && m'.pending == {} && |m'.subs| == |m.subs|
    && forall c :: 0 <= c < |m.subs| ==>
         m'.subs[c] == if c in m.pending then OfferedSub(m.subs[c], e, Choice(m.subs[c], c in wary)) else m.subs[c]
  }

  lemma AllServedAfter(m: Machine, c: nat, m': Machine, wary: set<nat>)
    requires Servable(m) && c in m.pending && AllServed(AfterTurn(m, c, wary), m', wary)
    ensures AllServed(m, m', wary)
  {
  }

  lemma {:induction false} ServingRuns(m: Machine, wary: set<nat>)
    requires Servable(m)
    ensures Runs(m, Serving(m, wary)) && AllServed(m, Final(m, Serving(m, wary)), wary)
    decreases |m.pending|
  {
    if m.pending != {} {
      var c :| c in m.pending && Serving(m, wary) == Turn(m, c, wary) + Serving(AfterTurn(m, c, wary), wary);
      ServingRuns(AfterTurn(m, c, wary), wary);
      TurnRuns(m, c, wary, Serving(AfterTurn(m, c, wary), wary));
      AllServedAfter(m, c, Final(m, Serving(m, wary)), wary);
    }
  }

  /** Broadcast with nothing in between: exactly those in the hub are served, and
      each as the method serves it. */
  lemma BroadcastIsRun(m: Machine, e: Event, wary: set<nat>)
    requires m.pending == {}
    ensures Enabled(m, Begin(e)) && Servable(Next(m, Begin(e)))
    ensures var acts := [Begin(e)] + Serving(Next(m, Begin(e)), wary);
      Runs(m, acts)
      && var m' := Final(m, acts);
         && m'.events == m.events + [e] && m'.pending == {} && |m'.subs| == |m.subs|
         && forall c :: 0 <= c < |m.subs| ==>
              m'.subs[c] == if m.subs[c].inHub then OfferedSub(m.subs[c], e, Choice(m.subs[c], c in wary))
                            else m.subs[c]
  {
    var m1 := Next(m, Begin(e));
    ServingRuns(m1, wary);
    assert ([Begin(e)] + Serving(m1, wary))[1..] == Serving(m1, wary);
  }

  /** And the objects that the machine's subscribers stand for are left as the
      method Broadcast leaves them. */
  lemma BroadcastShows(m: Machine, e: Event, wary: set<nat>, fs: seq<Fields>)
    requires m.pending == {} && |fs| == |m.subs|
    requires forall c :: 0 <= c < |fs| ==> Shows(m.subs[c], fs[c])
    ensures Enabled(m, Begin(e)) && Servable(Next(m, Begin(e)))
    ensures var acts := [Begin(e)] + Serving(Next(m, Begin(e)), wary);
      Runs(m, acts) && |Final(m, acts).subs| == |fs|
      && forall c :: 0 <= c < |fs| ==>
           var outcome := Hub.Select(|fs[c].send|, fs[c].closed, c in wary);
           && Shows(Final(m, acts).subs[c], if m.subs[c].inHub then Offered(fs[c], e, outcome) else fs[c])
           && (Final(m, acts).subs[c].inHub <==> m.subs[c].inHub && outcome.Queued?)
  {
    BroadcastIsRun(m, e, wary);
    forall c | 0 <= c < |fs| ensures Choice(m.subs[c], c in wary) == Hub.Select(|fs[c].send|, fs[c].closed, c in wary) {
      OfferedShows(m.subs[c], fs[c], e, Choice(m.subs[c], c in wary));
    }
  }
}
