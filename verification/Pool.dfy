/** The port allocator: a cyclic scan over [min, max], and its simple
    specification: the first free port in cyclic order from the cursor. */
module Pools {
  import opened Options

  /** `cursor` is the port Allocate would try next. */
  datatype PoolState = PoolState(min: int, max: int, taken: set<int>, cursor: int)

  function Size(s: PoolState): int { s.max - s.min + 1 }

  predicate InRange(s: PoolState, port: int) { s.min <= port <= s.max }

  predicate Valid(s: PoolState) {
    && (forall p :: p in s.taken ==> InRange(s, p))
    && (s.min <= s.max ==> InRange(s, s.cursor))
  }

  function Succ(s: PoolState, port: int): int { if port + 1 > s.max then s.min else port + 1 }

  /** The port d steps after the cursor in cyclic order. */
  function Ahead(s: PoolState, d: nat): int {
    if s.cursor + d > s.max then s.cursor + d - Size(s) else s.cursor + d
  }

  /** How many steps from the cursor to the first free port, if there is one. */
  function FirstFree(s: PoolState, d: nat): (r: Option<nat>)
    requires d <= Size(s) || Size(s) <= 0
    ensures r.Some? ==> d <= r.value < Size(s) && Ahead(s, r.value) !in s.taken
    ensures r.Some? ==> forall j :: d <= j < r.value ==> Ahead(s, j) in s.taken
    ensures r.None? ==> forall j :: d <= j < Size(s) ==> Ahead(s, j) in s.taken
    decreases Size(s) - d
  {
    if d >= Size(s) then None
    else if Ahead(s, d) !in s.taken then Some(d)
    else FirstFree(s, d + 1)
  }

  /** A requested port is taken if it is in range and free, refused if it is in
      range and taken; anything else asks for the first free port. */
  function Allocated(s: PoolState, requested: int): (PoolState, Option<int>) {
    if requested != 0 && InRange(s, requested) then
      if requested in s.taken then (s, None)
      else (s.(taken := s.taken + {requested}), Some(requested))
    else
      match FirstFree(s, 0)
      case None => (s, None)
      case Some(d) =>
        var port := Ahead(s, d);
        (s.(taken := s.taken + {port}, cursor := Succ(s, port)), Some(port))
  }

  function Released(s: PoolState, port: int): PoolState { s.(taken := s.taken - {port}) }

  /** One advance of the cursor: over which port, whether it was handed out, and
      which ports were taken at that moment. */
  datatype Visit = Visit(port: int, handed: bool, taken: set<int>)

  /** The cursor passes `upto` ports, and hands out the d-th, if it gets there. */
  function Visits(s: PoolState, upto: nat, d: nat): seq<Visit> {
    seq(upto, (j: nat) => Visit(Ahead(s, j), j == d, s.taken))
  }

  /** Every advance of the cursor that one call of Allocate makes. */
  function Trace(s: PoolState, requested: int): seq<Visit> {
    if requested != 0 && InRange(s, requested) then []
    else
      var size := if Size(s) > 0 then Size(s) else 0;
      match FirstFree(s, 0)
      case None => Visits(s, size, size)
      case Some(d) => Visits(s, d + 1, d)
  }

  class Pool {
    const min: int
    const max: int
    var taken: set<int>
    var next: int

    function State(): PoolState
      reads this
    {
      PoolState(min, max, taken, next)
    }

    constructor (min: int, max: int)
      ensures State() == PoolState(min, max, {}, min) && Valid(State())
    {
      this.min, this.max, this.taken, this.next := min, max, {}, min;
    }

    method Advance()
      modifies this`next
      ensures next == Succ(old(State()), old(next))
    {
      next := next + 1;
      if next > max {
        next := min;
      }
    }

    /** The program's loop: try the cursor, advance, at most once round. */
    method Allocate(requested: int) returns (port: Option<int>, ghost visits: seq<Visit>)
      requires Valid(State())
      modifies this
      ensures Valid(State())
      ensures (State(), port) == Allocated(old(State()), requested)
      ensures visits == Trace(old(State()), requested)
    {
      visits := [];
      if requested != 0 && min <= requested <= max {
        if requested !in taken {
          taken := taken + {requested};
          return Some(requested), visits;
        }
        return None, visits;
      }
      ghost var start := State();
      var i := 0;
      while i < max - min + 1
        invariant 0 <= i && (max - min + 1 >= 0 ==> i <= max - min + 1) && (max - min + 1 <= 0 ==> i == 0)
        invariant taken == start.taken
        invariant next == if i == 0 || i == Size(start) then start.cursor else Ahead(start, i)
        invariant i <= Size(start) || Size(start) <= 0
        invariant FirstFree(start, 0) == FirstFree(start, i)
        invariant |visits| == i
        invariant forall j :: 0 <= j < i ==> visits[j] == Visit(Ahead(start, j), false, start.taken)
      {
        var candidate := next;
        Advance();
        visits := visits + [Visit(candidate, candidate !in taken, taken)];
        if candidate !in taken {
          taken := taken + {candidate};
          return Some(candidate), visits;
        }
        i := i + 1;
      }
      return None, visits;
    }

    method Release(port: int)
      requires Valid(State())
      modifies this
      ensures Valid(State()) && State() == Released(old(State()), port)
    {
      taken := taken - {port};
    }

    method IsAllocated(port: int) returns (inUse: bool)
      ensures inUse == (port in State().taken)
    {
      inUse := port in taken;
    }
  }

  // ---- what the specification means ----

  lemma {:induction false} AheadCovers(s: PoolState, port: int)
    requires Valid(s) && InRange(s, port)
    ensures exists d: nat :: d < Size(s) && Ahead(s, d) == port
  {
    var d: nat := if port >= s.cursor then port - s.cursor else port - s.cursor + Size(s);
    assert d < Size(s) && Ahead(s, d) == port;
  }

  /** Automatic allocation fails exactly when every port is taken, and then
      changes nothing; a success was free, is taken now, and nothing else
      changed; every port from the old cursor up to it, round the end of the range
      if need be, was taken; and the cursor is at the port after it. */
  lemma AutomaticAllocation(s: PoolState, requested: int)
    requires Valid(s) && (requested == 0 || !InRange(s, requested))
    ensures var (s', port) := Allocated(s, requested);
      && Valid(s')
      && (port.None? <==> forall p :: InRange(s, p) ==> p in s.taken)
      && (port.None? ==> s' == s)
      && (port.Some? ==>
            && InRange(s, port.value) && port.value !in s.taken
            && s'.taken == s.taken + {port.value}
            && s'.cursor == (if port.value == s.max then s.min else port.value + 1)
            && (s.cursor <= port.value ==> forall q :: s.cursor <= q < port.value ==> q in s.taken)
            && (port.value < s.cursor ==>
                  forall q :: s.cursor <= q <= s.max || s.min <= q < port.value ==> q in s.taken))
  {
    var r := FirstFree(s, 0);
    if r.Some? {
      var port := Ahead(s, r.value);
      forall q | (s.cursor <= q < port || (port < s.cursor && (s.cursor <= q <= s.max || s.min <= q < port)))
        ensures q in s.taken
      {
        assert Ahead(s, if q >= s.cursor then q - s.cursor else q - s.cursor + Size(s)) == q;
      }
    }
    if r.None? {
      forall p | InRange(s, p) ensures p in s.taken {
        AheadCovers(s, p);
      }
    }
  }

  /** A port that is in range is handed out exactly as asked, or not at all. */
  lemma RequestedAllocation(s: PoolState, requested: int)
    requires Valid(s) && requested != 0 && InRange(s, requested)
    ensures var (s', port) := Allocated(s, requested);
      && Valid(s') && s'.cursor == s.cursor
      && (port == None <==> requested in s.taken)
      && (port == None ==> s' == s)
      && (port != None ==> port == Some(requested) && s'.taken == s.taken + {requested})
  {
  }

  /** However it was asked for, an assigned port was nobody's. */
  lemma AssignedIsFree(s: PoolState, requested: int)
    requires Valid(s)
    ensures var (s', port) := Allocated(s, requested);
      && Valid(s')
      && (port.Some? ==> port.value !in s.taken && s'.taken == s.taken + {port.value})
      && (port.None? ==> s' == s)
  {
    if requested != 0 && InRange(s, requested) {
      RequestedAllocation(s, requested);
    } else {
      AutomaticAllocation(s, requested);
    }
  }

  // ---- the cursor over a whole run ----

  datatype Op = Allocate(requested: int) | Release(port: int)

  function Passed(s: PoolState, op: Op): seq<Visit> {
    match op
    case Allocate(requested) => Trace(s, requested)
    case Release(_) => []
  }

  function Step(s: PoolState, op: Op): PoolState {
    match op
    case Allocate(requested) => Allocated(s, requested).0
    case Release(port) => Released(s, port)
  }

  function RunTrace(s: PoolState, ops: seq<Op>): seq<Visit>
    decreases |ops|
  {
    if ops == [] then [] else Passed(s, ops[0]) + RunTrace(Step(s, ops[0]), ops[1..])
  }

  /** The trace walks round the range without a gap, starting at `from`. */
  predicate Walks(s: PoolState, from: int, vs: seq<Visit>) {
    && (|vs| > 0 ==> vs[0].port == from)
    && (forall i :: 0 <= i < |vs| ==> InRange(s, vs[i].port) && (vs[i].handed <==> vs[i].port !in vs[i].taken))
    && (forall i :: 0 < i < |vs| ==> vs[i].port == Succ(s, vs[i - 1].port))
  }

  function After(s: PoolState, from: int, vs: seq<Visit>): int {
    if vs == [] then from else Succ(s, vs[|vs| - 1].port)
  }

  /** Every port that was passed over was taken; the one handed out was not. */
  lemma TraceWalks(s: PoolState, requested: int)
    requires Valid(s) && s.min <= s.max
    ensures Walks(s, s.cursor, Trace(s, requested))
    ensures After(s, s.cursor, Trace(s, requested)) == Allocated(s, requested).0.cursor
  {
  }

  /** The visit marked as handed out is the last, of the port the call returned;
      a call that finds none passes over the whole range. */
  lemma TraceRecords(s: PoolState, requested: int, i: nat)
    requires Valid(s) && (requested == 0 || !InRange(s, requested)) && i < |Trace(s, requested)|
    ensures var vs, port := Trace(s, requested), Allocated(s, requested).1;
      && (vs[i].handed <==> port == Some(vs[i].port)) && (vs[i].handed <==> port.Some? && i == |vs| - 1)
      && vs[i].taken == s.taken && (port.None? ==> |vs| == s.max - s.min + 1)
  {
    if FirstFree(s, 0).Some? && i < FirstFree(s, 0).value {
      assert Ahead(s, i) in s.taken;
    }
  }

  lemma PassedWalks(s: PoolState, op: Op)
    requires Valid(s) && s.min <= s.max
    ensures Valid(Step(s, op)) && Step(s, op).min == s.min && Step(s, op).max == s.max
    ensures Walks(s, s.cursor, Passed(s, op)) && After(s, s.cursor, Passed(s, op)) == Step(s, op).cursor
  {
    if op.Allocate? {
      TraceWalks(s, op.requested);
      AssignedIsFree(s, op.requested);
    }
  }

  lemma WalksJoin(s: PoolState, from: int, first: seq<Visit>, rest: seq<Visit>)
    requires Walks(s, from, first) && Walks(s, After(s, from, first), rest)
    ensures Walks(s, from, first + rest)
  {
    var all := first + rest;
    forall i | 0 < i < |all| ensures all[i].port == Succ(s, all[i - 1].port) {
      if i > |first| {
        assert rest[i - |first|].port == Succ(s, rest[i - |first| - 1].port);
      }
    }
  }

  lemma {:induction false} RunWalks(s: PoolState, ops: seq<Op>)
    requires Valid(s) && s.min <= s.max
    ensures Walks(s, s.cursor, RunTrace(s, ops))
    decreases |ops|
  {
    if ops != [] {
      PassedWalks(s, ops[0]);
      var s', first := Step(s, ops[0]), Passed(s, ops[0]);
      RunWalks(s', ops[1..]);
      var rest := RunTrace(s', ops[1..]);
      assert Walks(s, After(s, s.cursor, first), rest);
      WalksJoin(s, s.cursor, first, rest);
    }
  }

  lemma {:induction false} WalkDistance(s: PoolState, from: int, vs: seq<Visit>, i: nat, k: nat)
    requires Walks(s, from, vs) && i + k < |vs| && k < Size(s)
    ensures vs[i + k].port == if vs[i].port + k > s.max then vs[i].port + k - Size(s) else vs[i].port + k
  {
    if k > 0 {
      WalkDistance(s, from, vs, i, k - 1);
    }
  }

  /** Round robin: over any sequence of calls, between two automatic hand-outs
      of one port the cursor has gone all the way round, and has visited every
      other port, finding it taken or handing it out. */
  lemma ReuseDistance(s: PoolState, ops: seq<Op>, i: nat, j: nat, other: int)
    requires Valid(s) && s.min <= s.max
    requires var vs := RunTrace(s, ops); i < j < |vs| && vs[i].port == vs[j].port && vs[i].handed && vs[j].handed
    requires InRange(s, other)
    ensures j - i >= s.max - s.min + 1
    ensures var vs := RunTrace(s, ops);
      exists k :: i <= k < j && vs[k].port == other && (vs[k].handed || other in vs[k].taken)
  {
    var vs := RunTrace(s, ops);
    RunWalks(s, ops);
    if j - i < Size(s) {
      WalkDistance(s, s.cursor, vs, i, j - i);
    }
    var k: nat := if other >= vs[i].port then other - vs[i].port else other - vs[i].port + Size(s);
    WalkDistance(s, s.cursor, vs, i, k);
    assert vs[i + k].port == other;
  }
}
