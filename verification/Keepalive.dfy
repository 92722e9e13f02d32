/** Pings and pongs: each ping that the relay takes is answered by one pong, and
    neither of them touches a connection. */
module Keepalives {
  import opened Frames
  import opened Multiplexer
  import MultiplexerRouting
  import R = RelaySide
  import D = DaemonSide

  /** How often f occurs in fs. */
  function Count(fs: seq<Frame>, f: Frame): nat {
    if fs == [] then 0 else Count(fs[..|fs| - 1], f) + if fs[|fs| - 1] == f then 1 else 0
  }

  lemma CountSnoc(fs: seq<Frame>, last: Frame, f: Frame)
    ensures Count(fs + [last], f) == Count(fs, f) + if last == f then 1 else 0
  {
    assert (fs + [last])[..|fs|] == fs;
  }

  /** Pings taken, pongs sent, and the one still to be sent. */
  predicate Answered(g: Session) {
    var owed := if g.dispatch.Ponging? then 1 else 0;
    && Count(g.down.sent, Pong) + owed <= Count(g.up.got, Ping)
    && (g.down.live ==> Count(g.down.sent, Pong) + owed == Count(g.up.got, Ping))
  }

  function Last(fs: seq<Frame>): Frame
    requires fs != []
  {
    fs[|fs| - 1]
  }

  /** Nothing about pings: at most one other frame is sent down. */
  predicate Quiet(g: Session, g': Session) {
    && g'.up.got == g.up.got && (g'.dispatch.Ponging? <==> g.dispatch.Ponging?)
    && (g'.down.live ==> g.down.live)
    && (g'.down.sent == g.down.sent || (g'.down.sent != [] && g'.down.sent == g.down.sent + [Last(g'.down.sent)]
                                        && Last(g'.down.sent) != Pong))
  }

  lemma QuietAnswered(g: Session, g': Session)
    requires Answered(g) && Quiet(g, g')
    ensures Answered(g')
  {
    if g'.down.sent != g.down.sent {
      CountSnoc(g.down.sent, Last(g'.down.sent), Pong);
    }
  }

  lemma TakeAnswered(g: Session)
    requires Answered(g) && Enabled(g, RecvUp)
    ensures Answered(RecvUpNext(g))
  {
    CountSnoc(g.up.got, g.up.flight[0], Ping);
  }

  lemma PongAnswered(g: Session)
    requires Answered(g) && Enabled(g, SendPong)
    ensures Answered(Next(g, SendPong))
  {
    CountSnoc(g.down.sent, Pong, Pong);
  }

  lemma HandlerQuiet(g: Session, n: nat, h: R.HandlerAct)
    requires HandlerEnabled(g, n, h)
    ensures Quiet(g, HandlerNext(g, n, h))
  {
    MultiplexerRouting.HandlerChanges(g, n, h);
  }

  lemma ReaderQuiet(g: Session, n: nat, r: D.ReaderAct)
    requires ReaderEnabled(g, n, r)
    ensures Quiet(g, ReaderNext(g, n, r))
  {
    MultiplexerRouting.ReaderChanges(g, n, r);
  }

  lemma NewQuiet(g: Session, a: Act)
    requires a.NewTcp? || a.NewUdp?
    ensures Quiet(g, Next(g, a))
  {
    MultiplexerRouting.OpenConnChanges(g, a);
  }

  lemma RelayQuiet(g: Session, a: Act)
    requires Enabled(g, a)
    requires a.WriteExt? || a.CloseExt? || a.StopLoop? || a.CloseAll? || a.StopUdp? || a.ExtLost?
    ensures Quiet(g, Next(g, a))
  {
  }

  lemma DaemonQuiet(g: Session, a: Act)
    requires Enabled(g, a)
    requires a.RecvDown? || a.Refuse? || a.WriteLocal? || a.CloseLocal? || a.StopFrames? || a.LocalLost?
    ensures Quiet(g, Next(g, a))
  {
  }

  lemma ChannelQuiet(g: Session, a: Act)
    requires Enabled(g, a) && (a.SendPing? || a.SendStale? || a.CutDown? || a.CutUp?)
    ensures Quiet(g, Next(g, a))
  {
  }

  lemma StepQuiet(g: Session, a: Act)
    requires Enabled(g, a) && !a.RecvUp? && !a.SendPong?
    ensures Quiet(g, Next(g, a))
  {
    match a
    case Handler(n, h) => HandlerQuiet(g, n, h);
    case LocalReader(n, r) => ReaderQuiet(g, n, r);
    case NewTcp(_, _) => NewQuiet(g, a);
    case NewUdp(_, _, _) => NewQuiet(g, a);
    case SendPing => ChannelQuiet(g, a);
    case SendStale(_, _) => ChannelQuiet(g, a);
    case CutDown(_) => ChannelQuiet(g, a);
    case CutUp(_) => ChannelQuiet(g, a);
    case _ =>
      if a.WriteExt? || a.CloseExt? || a.StopLoop? || a.CloseAll? || a.StopUdp? || a.ExtLost? {
        RelayQuiet(g, a);
      } else {
        DaemonQuiet(g, a);
      }
  }

  lemma {:induction false} RunAnswered(g: Session, acts: seq<Act>)
    requires Answered(g) && Runs(g, acts)
    ensures Answered(Final(g, acts))
    decreases |acts|
  {
    if acts != [] {
      var a := acts[0];
      if a.RecvUp? {
        TakeAnswered(g);
      } else if a.SendPong? {
        PongAnswered(g);
      } else {
        StepQuiet(g, a);
        QuietAnswered(g, Next(g, a));
      }
      RunAnswered(Next(g, a), acts[1..]);
    }
  }

  /** In every run the relay has sent no more pongs than it has taken pings; while
      the channel is whole, exactly as many, but for the one it is about to send. */
  lemma PingsAreAnswered(config: seq<(string, int)>, acts: seq<Act>)
    requires Runs(Start(config), acts)
    ensures var g := Final(Start(config), acts);
      && Count(g.down.sent, Pong) <= Count(g.up.got, Ping)
      && (g.down.live ==>
            Count(g.down.sent, Pong) + (if g.dispatch.Ponging? then 1 else 0) == Count(g.up.got, Ping))
  {
    RunAnswered(Start(config), acts);
  }

  /** Taking a ping or a pong takes it out of the channel, and changes nothing
      else but that the relay owes a pong for a ping. */
  lemma PingsTouchNothing(g: Session, dialOk: bool)
    ensures Enabled(g, RecvUp) && !g.up.flight[0].Of? ==>
      var g' := Next(g, RecvUp);
      && g' == g.(up := Pop(g.up), dispatch := g'.dispatch)
      && g'.dispatch == if g.up.flight[0].Ping? then Ponging else Idle
    ensures Enabled(g, RecvDown(dialOk)) && !g.down.flight[0].Of? ==>
      Next(g, RecvDown(dialOk)) == g.(down := Pop(g.down))
  {
  }
}
