/** The daemon's side of Connect as the program writes it: localConns, the
    shared encoder, closeLocal, and the frame reader's loop. Each method is
    proved against its effect, and each effect is a run of the session machine. */
module LocalTables {
  import opened Frames
  import opened Multiplexer
  import opened MultiplexerView
  import MultiplexerRouting
  import opened MultiplexerRefinement
  import D = DaemonSide

  datatype Tables = Tables(localConns: map<ConnId, LocalSock>, locals: map<LocalSock, Wire>, up: Link<Frame>)

  function TablesOf(g: Session): Tables { Tables(g.localConns, g.locals, g.up) }

  function CloseLocalEffect(t: Tables, id: ConnId, sendFrame: bool): Tables {
    Tables(Remove(t.localConns, id),
           if id in t.localConns then CloseLocalSock(t.locals, t.localConns[id]) else t.locals,
           if sendFrame then Push(t.up, Of(id, Close)) else t.up)
  }

  function OpenEffect(t: Tables, config: seq<(string, int)>, id: ConnId, tunnel: string, port: int, proto: Protocol,
                      dialOk: bool): Tables
  {
    var p := ResolvePort(config, tunnel, port);
    if p == 0 || !dialOk then t.(up := Push(t.up, Of(id, Close)))
    else
      var sock := Dialled(id, p, proto);
      t.(localConns := t.localConns[id := sock], locals := t.locals[sock := NEW_WIRE])
  }

  function DataEffect(t: Tables, id: ConnId, data: seq<Item>, k: nat): Tables {
    if id in t.localConns && t.localConns[id] in t.locals
    then t.(locals := t.locals[t.localConns[id] := WireWrite(t.locals[t.localConns[id]], id, data, Took(k, data))])
    else t
  }

  /** One frame through the frame reader. */
  function FrameEffect(t: Tables, config: seq<(string, int)>, f: Frame, dialOk: bool, k: nat): Tables {
    match f
    case Ping => t
    case Pong => t
    case Of(id, Open(tunnel, port, proto)) => OpenEffect(t, config, id, tunnel, port, proto, dialOk)
    case Of(id, Data(data)) => DataEffect(t, id, data, k)
    case Of(id, Close) => CloseLocalEffect(t, id, false)
  }

  /** What the environment answers to one frame: does a dial succeed, how much
      does a write take. */
  datatype Luck = Luck(dialOk: bool, took: nat, sendOk: bool)

  function ReadEffect(t: Tables, config: seq<(string, int)>, fs: seq<Frame>, ls: seq<Luck>): Tables
    requires |ls| == |fs|
  {
    if fs == [] then t
    else
      var last := |fs| - 1;
      FrameEffect(ReadEffect(t, config, fs[..last], ls[..last]), config, fs[last], ls[last].dialOk, ls[last].took)
  }

  class LocalTable {
    const config: seq<(string, int)>
    var localConns: map<ConnId, LocalSock>
    var locals: map<LocalSock, Wire>
    var up: Link<Frame>

    function State(): Tables
      reads this
    {
      Tables(localConns, locals, up)
    }

    constructor (config: seq<(string, int)>, up: Link<Frame>)
      ensures State() == Tables(map[], map[], up) && this.config == config
    {
      this.config, this.localConns, this.locals, this.up := config, map[], map[], up;
    }

    method SafeEncode(f: Frame, lucky: bool) returns (ok: bool)
      modifies this
      ensures State() == old(State()).(up := Push(old(up), f))
      ensures ok == (old(up.live) || lucky)
    {
      ok := up.live || lucky;
      up := Push(up, f);
    }

    method CloseLocal(id: ConnId, sendFrame: bool, lucky: bool)
      modifies this
      ensures State() == CloseLocalEffect(old(State()), id, sendFrame)
    {
      var conn := Lookup(localConns, id);
      localConns := Remove(localConns, id);
      if conn.Some? {
        locals := CloseLocalSock(locals, conn.value);
      }
      if sendFrame {
        var _ := SafeEncode(Of(id, Close), lucky);
      }
    }

    /** The configured tunnels are searched in order, and the first match ends
        the search. */
    method PortFor(tunnel: string, port: int) returns (p: int)
      ensures p == ResolvePort(config, tunnel, port)
      ensures port != 0 ==> p == port
      ensures port == 0 ==>
        || (exists i :: 0 <= i < |config| && config[i].0 == tunnel && config[i].1 == p
                        && forall j :: 0 <= j < i ==> config[j].0 != tunnel)
        || (p == 0 && forall j :: 0 <= j < |config| ==> config[j].0 != tunnel)
    {
      PortIsChosen(config, tunnel, port);
      p := port;
      if p == 0 {
        var i := 0;
        while i < |config|
          invariant 0 <= i <= |config| && p == 0
          invariant ConfiguredPort(config, tunnel) == ConfiguredPort(config[i..], tunnel)
        {
          if config[i].0 == tunnel {
            p := config[i].1;
            break;
          }
          i := i + 1;
        }
      }
    }

    /** Dials the port the frame names, or the first one configured for its tunnel,
        over the frame's protocol; without a port, or if the dial fails, refuses. */
    method HandleOpen(id: ConnId, tunnel: string, port: int, proto: Protocol, luck: Luck)
      modifies this
      ensures State() == OpenEffect(old(State()), config, id, tunnel, port, proto, luck.dialOk)
      ensures !luck.dialOk ==> State() == old(State()).(up := Push(old(up), Of(id, Close)))
      ensures luck.dialOk && port != 0 ==> localConns == old(localConns)[id := Dialled(id, port, proto)]
      ensures port == 0 && (forall j :: 0 <= j < |config| ==> config[j].0 != tunnel) ==>
        State() == old(State()).(up := Push(old(up), Of(id, Close)))
      ensures luck.dialOk && port == 0 ==>
        forall i :: 0 <= i < |config| && config[i].0 == tunnel && (forall j :: 0 <= j < i ==> config[j].0 != tunnel) ==>
          if config[i].1 != 0 then localConns == old(localConns)[id := Dialled(id, config[i].1, proto)]
          else State() == old(State()).(up := Push(old(up), Of(id, Close)))
    {
      var p := PortFor(tunnel, port);
      if p == 0 || !luck.dialOk {
        var _ := SafeEncode(Of(id, Close), luck.sendOk);
      } else {
        locals := locals[Dialled(id, p, proto) := NEW_WIRE];
        localConns := localConns[id := Dialled(id, p, proto)];
      }
    }

    method HandleData(id: ConnId, data: seq<Item>, luck: Luck)
      modifies this
      ensures State() == DataEffect(old(State()), id, data, luck.took)
    {
      var conn := Lookup(localConns, id);
      if conn.Some? && conn.value in locals {
        locals := locals[conn.value := WireWrite(locals[conn.value], id, data, Took(luck.took, data))];
      }
    }

    /** The frame reader's loop, over the frames that arrive before it fails. */
    method ReadFrames(fs: seq<Frame>, ls: seq<Luck>)
      requires |ls| == |fs|
      modifies this
      ensures State() == ReadEffect(old(State()), config, fs, ls)
    {
      for i := 0 to |fs|
        invariant State() == ReadEffect(old(State()), config, fs[..i], ls[..i])
      {
        match fs[i] {
          case Ping =>
          case Pong =>
          case Of(id, body) =>
            match body {
              case Open(tunnel, port, proto) => HandleOpen(id, tunnel, port, proto, ls[i]);
              case Data(data) => HandleData(id, data, ls[i]);
              case Close => CloseLocal(id, false, ls[i].sendOk);
            }
        }
        assert fs[..i + 1][..i] == fs[..i] && ls[..i + 1][..i] == ls[..i];
      }
      assert fs[..|fs|] == fs && ls[..|fs|] == ls;
    }
  }

  // ---- the methods are runs of the session machine ----

  lemma DetachCloses(g: Session, n: nat)
    requires n < |g.recs| && g.recs[n].reader.LLeaving?
    ensures var g1 := ReaderNext(g, n, D.LocalDetach);
      && ReaderEnabled(g1, n, D.LocalCloseDetached)
      && var g2 := ReaderNext(g1, n, D.LocalCloseDetached);
         ReaderEnabled(g2, n, D.LocalSendClose) && TablesOf(g2) == CloseLocalEffect(TablesOf(g), Own(n), false)
  {
  }

  lemma CloseLocalIsRun(g: Session, n: nat)
    requires Routing(g) && n < |g.recs| && g.recs[n].reader.LLeaving?
    ensures var acts :=
        [LocalReader(n, D.LocalDetach)] + [LocalReader(n, D.LocalCloseDetached)] + [LocalReader(n, D.LocalSendClose)];
      Runs(g, acts) && TablesOf(Final(g, acts)) == CloseLocalEffect(TablesOf(g), Own(n), true)
  {
    var a, b := LocalReader(n, D.LocalDetach), LocalReader(n, D.LocalCloseDetached);
    var c := LocalReader(n, D.LocalSendClose);
    DetachCloses(g, n);
    var g1 := ReaderNext(g, n, D.LocalDetach);
    var g2 := ReaderNext(g1, n, D.LocalCloseDetached);
    assert g1 == Next(g, a) && g2 == Next(g1, b);
    RunsThree(g, a, b, c);
  }

  /** The step that finishes what RecvDown began, if there is one. */
  function Finish(t: Task, k: nat): seq<Act> {
    match t
    case Ready => []
    case Refusing(_) => [Refuse]
    case WritingLocal(_, _, data) => [WriteLocal(Took(k, data))]
    case ClosingLocal(_, _) => [CloseLocal]
  }

  /** What the second step does to the tables. */
  function FinishEffect(t: Tables, task: Task, k: nat): Tables {
    match task
    case Ready => t
    case Refusing(id) => t.(up := Push(t.up, Of(id, Close)))
    case WritingLocal(id, s, data) =>
      if s in t.locals then t.(locals := t.locals[s := WireWrite(t.locals[s], id, data, Took(k, data))]) else t
    case ClosingLocal(id, s) => t.(locals := CloseLocalSock(t.locals, s))
  }

  lemma FinishRuns(g: Session, k: nat)
    requires LoopsRouted(g) && LocalsRouted(g)
    requires g.task.WritingLocal? && g.recs[g.task.id.n].proto.Udp? ==> k >= |g.task.data|
    ensures Runs(g, Finish(g.task, k))
    ensures TablesOf(Final(g, Finish(g.task, k))) == FinishEffect(TablesOf(g), g.task, k)
  {
    var rest := Finish(g.task, k);
    if rest != [] {
      assert Enabled(g, rest[0]);
      RunsFirst(g, rest[0], []);
      assert rest == [rest[0]] + [];
    }
  }

  lemma OpenReceipt(g: Session, dialOk: bool, k: nat)
    requires Enabled(g, RecvDown(dialOk)) && DownRouted(g, g.down.flight[0])
    requires g.down.flight[0].Of? && g.down.flight[0].body.Open?
    ensures var g' := RecvDownNext(g, dialOk);
      FrameEffect(TablesOf(g), g.config, g.down.flight[0], dialOk, k) == FinishEffect(TablesOf(g'), g'.task, k)
  {
  }

  lemma DataReceipt(g: Session, dialOk: bool, k: nat)
    requires TablesRouted(g) && LocalsRouted(g) && Enabled(g, RecvDown(dialOk))
    requires g.down.flight[0].Of? && g.down.flight[0].body.Data?
    ensures var g' := RecvDownNext(g, dialOk);
      FrameEffect(TablesOf(g), g.config, g.down.flight[0], dialOk, k) == FinishEffect(TablesOf(g'), g'.task, k)
  {
  }

  lemma OtherReceipt(g: Session, dialOk: bool, k: nat)
    requires Enabled(g, RecvDown(dialOk))
    requires g.down.flight[0].Of? ==> g.down.flight[0].body.Close?
    ensures var g' := RecvDownNext(g, dialOk);
      FrameEffect(TablesOf(g), g.config, g.down.flight[0], dialOk, k) == FinishEffect(TablesOf(g'), g'.task, k)
  {
  }

  lemma TaskKeepsProto(g: Session, dialOk: bool)
    requires Enabled(g, RecvDown(dialOk))
    ensures forall n :: 0 <= n < |g.recs| ==> RecvDownNext(g, dialOk).recs[n].proto == g.recs[n].proto
  {
  }

  /** A frame's whole turn: taking it off the channel, then finishing with it. */
  lemma FrameIsRun(g: Session, dialOk: bool, k: nat)
    requires SessionInv(g) && Enabled(g, RecvDown(dialOk))
    requires var t := RecvDownNext(g, dialOk).task;
      t.WritingLocal? && t.id.Own? && t.id.n < |g.recs| && g.recs[t.id.n].proto.Udp? ==> k >= |t.data|
    ensures var acts := [RecvDown(dialOk)] + Finish(RecvDownNext(g, dialOk).task, k);
      Runs(g, acts) && TablesOf(Final(g, acts)) == FrameEffect(TablesOf(g), g.config, g.down.flight[0], dialOk, k)
  {
    var g' := RecvDownNext(g, dialOk);
    HeadRouted(g);
    MultiplexerRouting.StepRouted(g, RecvDown(dialOk));
    TaskKeepsProto(g, dialOk);
    FinishRuns(g', k);
    RunsFirst(g, RecvDown(dialOk), Finish(g'.task, k));
    var f := g.down.flight[0];
    if f.Of? && f.body.Open? {
      OpenReceipt(g, dialOk, k);
    } else if f.Of? && f.body.Data? {
      DataReceipt(g, dialOk, k);
    } else {
      OtherReceipt(g, dialOk, k);
    }
  }
}
