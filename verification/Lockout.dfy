/** Login rate limiting: a row per IP, a lock that the login handler consults
    first, and how many failures any stretch of time can record. */
module Lockouts {
  import opened Options

  const MAX_ATTEMPTS := 5
  const LOCK_SECONDS := 600

  datatype Row = Row(attempts: nat, lockedUntil: Option<int>)

  datatype Result = TooMany | Unauthorized | Success

  /** One login, handled to its end before the next of the same IP: the lock is checked at one
      reading of the clock and the failure recorded at a later one. */
  datatype Login = Login(ip: string, good: bool, checked: int, recorded: int)

  function Locked(rows: map<string, Row>, ip: string, now: int): bool {
    ip in rows && rows[ip].lockedUntil.Some? && now < rows[ip].lockedUntil.value
  }

  function Failed(rows: map<string, Row>, ip: string, now: int): map<string, Row> {
    if ip !in rows then rows[ip := Row(1, None)]
    else
      var n := rows[ip].attempts + 1;
      rows[ip := Row(n, if n >= MAX_ATTEMPTS then Some(now + LOCK_SECONDS) else rows[ip].lockedUntil)]
  }

  function Reset(rows: map<string, Row>, ip: string): map<string, Row> {
    if ip in rows then rows[ip := Row(0, None)] else rows
  }

  function Step(rows: map<string, Row>, l: Login): (map<string, Row>, Result) {
    if Locked(rows, l.ip, l.checked) then (rows, TooMany)
    else if l.good then (Reset(rows, l.ip), Success)
    else (Failed(rows, l.ip, l.recorded), Unauthorized)
  }

  class RateLimits {
    var rows: map<string, Row>

    constructor ()
      ensures rows == map[]
    {
      rows := map[];
    }

    method Check(ip: string, now: int) returns (locked: bool)
      ensures locked == Locked(rows, ip, now)
      ensures locked <==> ip in rows && rows[ip].lockedUntil.Some? && now < rows[ip].lockedUntil.value
    {
      if ip !in rows {
        return false;
      }
      var until := rows[ip].lockedUntil;
      return until.Some? && now < until.value;
    }

    method RecordFailed(ip: string, now: int)
      modifies this
      ensures rows == Failed(old(rows), ip, now)
      ensures ip in rows && rows == old(rows)[ip := rows[ip]]
      ensures ip in old(rows) ==> rows[ip].attempts == old(rows)[ip].attempts + 1
      ensures ip in old(rows) ==>
        rows[ip].lockedUntil == if rows[ip].attempts >= 5 then Some(now + 600) else old(rows)[ip].lockedUntil
      ensures ip !in old(rows) ==> rows[ip].attempts == 1 && rows[ip].lockedUntil == None
    {
      if ip !in rows {
        rows := rows[ip := Row(1, None)];
      } else {
        var row := rows[ip];
        var until := row.lockedUntil;
        if row.attempts + 1 >= MAX_ATTEMPTS {
          until := Some(now + LOCK_SECONDS);
        }
        rows := rows[ip := Row(row.attempts + 1, until)];
      }
    }

    method ResetLimit(ip: string)
      modifies this
      ensures rows == Reset(old(rows), ip)
      ensures rows.Keys == old(rows).Keys && forall i :: i in rows && i != ip ==> rows[i] == old(rows)[i]
      ensures ip in rows ==> rows[ip].attempts == 0 && rows[ip].lockedUntil == None
    {
      if ip in rows {
        rows := rows[ip := Row(0, None)];
      }
    }

    method HandleLogin(l: Login) returns (r: Result)
      modifies this
      ensures (rows, r) == Step(old(rows), l)
      ensures r == TooMany <==>
        l.ip in old(rows) && old(rows)[l.ip].lockedUntil.Some? && l.checked < old(rows)[l.ip].lockedUntil.value
      ensures r == TooMany ==> rows == old(rows)
      ensures r != TooMany ==> (r == Success <==> l.good)
      ensures r == Success && l.ip in rows ==> rows[l.ip].attempts == 0 && rows[l.ip].lockedUntil == None
      ensures r == Unauthorized ==> l.ip in rows && rows[l.ip].attempts > 0
      ensures forall i :: i in rows && i != l.ip ==> i in old(rows) && rows[i] == old(rows)[i]
    {
      var locked := Check(l.ip, l.checked);
      if locked {
        return TooMany;
      }
      if !l.good {
        RecordFailed(l.ip, l.recorded);
        return Unauthorized;
      }
      ResetLimit(l.ip);
      return Success;
    }
  }

  // ---- runs ----

  function RunAll(rows: map<string, Row>, ls: seq<Login>): map<string, Row>
    decreases |ls|
  {
    if ls == [] then rows else RunAll(Step(rows, ls[0]).0, ls[1..])
  }

  /** The logins of one IP come one after another, as the clock goes; those of
      other IPs come when they like. */
  predicate InOrder(clock: int, ls: seq<Login>, ip: string)
    decreases |ls|
  {
    ls == [] ||
    if ls[0].ip == ip
    then clock <= ls[0].checked <= ls[0].recorded && InOrder(ls[0].recorded, ls[1..], ip)
    else InOrder(clock, ls[1..], ip)
  }

  /** When the last login of that IP was over. */
  function EndOf(clock: int, ls: seq<Login>, ip: string): int
    decreases |ls|
  {
    if ls == [] then clock else EndOf(if ls[0].ip == ip then ls[0].recorded else clock, ls[1..], ip)
  }

  /** Failures recorded for ip, successes of ip, among the logins of a stretch. */
  function Failures(rows: map<string, Row>, ls: seq<Login>, ip: string): nat
    decreases |ls|
  {
    if ls == [] then 0
    else
      (if ls[0].ip == ip && Step(rows, ls[0]).1 == Unauthorized then 1 else 0)
      + Failures(Step(rows, ls[0]).0, ls[1..], ip)
  }

  predicate NoSuccess(rows: map<string, Row>, ls: seq<Login>, ip: string)
    decreases |ls|
  {
    ls == [] || (!(ls[0].ip == ip && Step(rows, ls[0]).1 == Success) && NoSuccess(Step(rows, ls[0]).0, ls[1..], ip))
  }

  /** The lock is set exactly when five attempts have failed in a row. */
  predicate LockedAtFive(rows: map<string, Row>) {
    forall ip :: ip in rows ==> (rows[ip].lockedUntil.Some? <==> rows[ip].attempts >= 5)
  }

  lemma {:induction false} LockIsSetAtFive(rows: map<string, Row>, ls: seq<Login>)
    requires LockedAtFive(rows)
    ensures LockedAtFive(RunAll(rows, ls))
    decreases |ls|
  {
    if ls != [] {
      LockIsSetAtFive(Step(rows, ls[0]).0, ls[1..]);
    }
  }

  // ---- the rows and the answers, from the logins and their results alone ----

  /** What the logins of a run are answered. */
  function Results(rows: map<string, Row>, ls: seq<Login>): (rs: seq<Result>)
    ensures |rs| == |ls|
    decreases |ls|
  {
    if ls == [] then [] else [Step(rows, ls[0]).1] + Results(Step(rows, ls[0]).0, ls[1..])
  }

  /** The failures recorded for ip since its last success. */
  function FailuresSince(ls: seq<Login>, rs: seq<Result>, ip: string): nat
    requires |ls| == |rs|
  {
    if ls == [] then 0
    else
      var last := |ls| - 1;
      if ls[last].ip == ip && rs[last] == Success then 0
      else
        FailuresSince(ls[..last], rs[..last], ip)
        + if ls[last].ip == ip && rs[last] == Unauthorized then 1 else 0
  }

  /** When the last failure of ip was recorded. */
  function LastFailure(ls: seq<Login>, rs: seq<Result>, ip: string): int
    requires |ls| == |rs|
  {
    if ls == [] then 0
    else
      var last := |ls| - 1;
      if ls[last].ip == ip && rs[last] == Unauthorized then ls[last].recorded
      else LastFailure(ls[..last], rs[..last], ip)
  }

  /** What a login is to be answered, after ls were answered rs. */
  function Due(ls: seq<Login>, rs: seq<Result>, l: Login): Result
    requires |ls| == |rs|
  {
    if FailuresSince(ls, rs, l.ip) >= 5 && l.checked < LastFailure(ls, rs, l.ip) + 600 then TooMany
    else if l.good then Success
    else Unauthorized
  }

  lemma {:induction false} RunSplits(rows: map<string, Row>, ls: seq<Login>, l: Login)
    ensures RunAll(rows, ls + [l]) == Step(RunAll(rows, ls), l).0
    ensures Results(rows, ls + [l]) == Results(rows, ls) + [Step(RunAll(rows, ls), l).1]
    decreases |ls|
  {
    if ls == [] {
      assert [l][1..] == [];
    } else {
      assert (ls + [l])[0] == ls[0] && (ls + [l])[1..] == ls[1..] + [l];
      RunSplits(Step(rows, ls[0]).0, ls[1..], l);
    }
  }

  /** The row of ip is what the logins and their results tell: as many attempts as
      failures since the last success, and from the fifth a lock until 600 seconds
      after the last of them. */
  predicate Tells(rows: map<string, Row>, ls: seq<Login>, rs: seq<Result>, ip: string)
    requires |ls| == |rs|
  {
    var n := FailuresSince(ls, rs, ip);
    && n == (if ip in rows then rows[ip].attempts else 0)
    && (n >= 5 <==> ip in rows && rows[ip].lockedUntil.Some?)
    && (n >= 5 ==> rows[ip].lockedUntil == Some(LastFailure(ls, rs, ip) + 600))
  }

  lemma StepTells(rows: map<string, Row>, ls: seq<Login>, rs: seq<Result>, l: Login, ip: string)
    requires |ls| == |rs| && Tells(rows, ls, rs, ip)
    ensures Tells(Step(rows, l).0, ls + [l], rs + [Step(rows, l).1], ip)
    ensures l.ip == ip ==> Step(rows, l).1 == Due(ls, rs, l)
  {
    assert (ls + [l])[..|ls|] == ls && (rs + [Step(rows, l).1])[..|rs|] == rs;
  }

  /** After any logins of any addresses the row of each address, its lock too, is
      told by the results alone. */
  lemma {:induction false} RowsTellHistory(ls: seq<Login>, ip: string)
    ensures Tells(RunAll(map[], ls), ls, Results(map[], ls), ip)
    decreases |ls|
  {
    if ls != [] {
      var last := |ls| - 1;
      RowsTellHistory(ls[..last], ip);
      assert ls[..last] + [ls[last]] == ls;
      RunSplits(map[], ls[..last], ls[last]);
      StepTells(RunAll(map[], ls[..last]), ls[..last], Results(map[], ls[..last]), ls[last], ip);
    }
  }

  /** Every login of a run is answered as is due: a locked address is turned
      away, with nothing changed; else a good login succeeds, and leaves no
      attempts and no lock, and a bad one is recorded. */
  lemma AnswersAreDue(ls: seq<Login>, l: Login)
    ensures var rs := Results(map[], ls); var r := Due(ls, rs, l);
      && Results(map[], ls + [l]) == rs + [r]
      && (r == TooMany ==> RunAll(map[], ls + [l]) == RunAll(map[], ls))
      && (r == Success ==> var rows := RunAll(map[], ls + [l]);
            l.ip in rows ==> rows[l.ip].attempts == 0 && rows[l.ip].lockedUntil == None)
      && (r == Unauthorized ==> var rows := RunAll(map[], ls + [l]);
            l.ip in rows && rows[l.ip].attempts == FailuresSince(ls, rs, l.ip) + 1)
  {
    RowsTellHistory(ls, l.ip);
    RunSplits(map[], ls, l);
    StepTells(RunAll(map[], ls), ls, Results(map[], ls), l, l.ip);
  }

  // ---- how many failures any stretch can record ----

  /** How many failures a stretch from time t to time e can still record. */
  function Budget(rows: map<string, Row>, ip: string, t: int, e: int): int {
    if ip !in rows then MAX_ATTEMPTS + (e - t) / LOCK_SECONDS
    else if rows[ip].lockedUntil.None? then MAX_ATTEMPTS - rows[ip].attempts + (e - t) / LOCK_SECONDS
    else
      var free := if rows[ip].lockedUntil.value > t then rows[ip].lockedUntil.value else t;
      if e < free then 0 else 1 + (e - free) / LOCK_SECONDS
  }

  lemma {:induction false} InOrderEnds(clock: int, ls: seq<Login>, ip: string)
    requires InOrder(clock, ls, ip)
    ensures clock <= EndOf(clock, ls, ip)
    decreases |ls|
  {
    if ls != [] {
      InOrderEnds(if ls[0].ip == ip then ls[0].recorded else clock, ls[1..], ip);
    }
  }

  lemma StepLocks(rows: map<string, Row>, l: Login)
    requires LockedAtFive(rows)
    ensures LockedAtFive(Step(rows, l).0)
    ensures forall ip :: ip != l.ip ==>
      (ip in Step(rows, l).0 <==> ip in rows) && (ip in rows ==> Step(rows, l).0[ip] == rows[ip])
  {
  }

  /** Each recorded failure costs one unit of budget; nothing else adds any. */
  lemma BudgetStep(rows: map<string, Row>, l: Login, clock: int, e: int)
    requires LockedAtFive(rows) && clock <= l.checked <= l.recorded <= e
    requires Step(rows, l).1 != Success
    ensures Budget(Step(rows, l).0, l.ip, l.recorded, e) + (if Step(rows, l).1 == Unauthorized then 1 else 0)
            <= Budget(rows, l.ip, clock, e)
  {
  }

  lemma {:induction false} FailuresWithinBudget(rows: map<string, Row>, ls: seq<Login>, ip: string, clock: int, e: int)
    requires LockedAtFive(rows) && InOrder(clock, ls, ip) && NoSuccess(rows, ls, ip) && EndOf(clock, ls, ip) <= e
    ensures Failures(rows, ls, ip) <= Budget(rows, ip, clock, e)
    decreases |ls|
  {
    InOrderEnds(clock, ls, ip);
    if ls != [] {
      var rows', l := Step(rows, ls[0]).0, ls[0];
      var clock' := if l.ip == ip then l.recorded else clock;
      StepLocks(rows, l);
      InOrderEnds(clock', ls[1..], ip);
      FailuresWithinBudget(rows', ls[1..], ip, clock', e);
      if l.ip == ip {
        BudgetStep(rows, l, clock, e);
      }
    }
  }

  /** Lockout bound: from any reachable state, a stretch of T seconds without a
      success records at most 5 + T/600 failures for one IP, whatever logins of
      other IPs come in between, and when. */
  lemma LockoutBound(past: seq<Login>, ls: seq<Login>, ip: string, clock: int)
    requires var rows := RunAll(map[], past); InOrder(clock, ls, ip) && NoSuccess(rows, ls, ip)
    ensures Failures(RunAll(map[], past), ls, ip) <= 5 + (EndOf(clock, ls, ip) - clock) / 600
  {
    LockIsSetAtFive(map[], past);
    InOrderEnds(clock, ls, ip);
    FailuresWithinBudget(RunAll(map[], past), ls, ip, clock, EndOf(clock, ls, ip));
  }

  // ---- the bound is reached ----

  /** n failures in a row at one moment. */
  function Burst(ip: string, n: nat, at: int): seq<Login> {
    if n == 0 then [] else [Login(ip, false, at, at)] + Burst(ip, n - 1, at)
  }

  /** Then one as soon as each lock runs out. */
  function Patient(ip: string, k: nat, at: int): seq<Login> {
    if k == 0 then []
    else [Login(ip, false, at + LOCK_SECONDS, at + LOCK_SECONDS)] + Patient(ip, k - 1, at + LOCK_SECONDS)
  }

  lemma {:induction false} PatientFails(rows: map<string, Row>, ip: string, k: nat, at: int)
    requires ip in rows && rows[ip].attempts >= MAX_ATTEMPTS && rows[ip].lockedUntil == Some(at + LOCK_SECONDS)
    ensures Failures(rows, Patient(ip, k, at), ip) == k && NoSuccess(rows, Patient(ip, k, at), ip)
    ensures InOrder(at, Patient(ip, k, at), ip) && EndOf(at, Patient(ip, k, at), ip) == at + k * LOCK_SECONDS
    decreases k
  {
    if k > 0 {
      var l := Login(ip, false, at + LOCK_SECONDS, at + LOCK_SECONDS);
      var rest := Patient(ip, k - 1, at + LOCK_SECONDS);
      PatientFails(Step(rows, l).0, ip, k - 1, at + LOCK_SECONDS);
      assert ([l] + rest)[1..] == rest;
    }
  }

  lemma {:induction false} BurstFails(rows: map<string, Row>, ip: string, n: nat, at: int, rest: seq<Login>)
    requires 0 < n <= MAX_ATTEMPTS
    requires if ip in rows then rows[ip] == Row(MAX_ATTEMPTS - n, None) else n == MAX_ATTEMPTS
    ensures var rows' := rows[ip := Row(MAX_ATTEMPTS, Some(at + LOCK_SECONDS))];
      && Failures(rows, Burst(ip, n, at) + rest, ip) == n + Failures(rows', rest, ip)
      && (NoSuccess(rows', rest, ip) ==> NoSuccess(rows, Burst(ip, n, at) + rest, ip))
      && (InOrder(at, rest, ip) ==> InOrder(at, Burst(ip, n, at) + rest, ip))
      && EndOf(at, Burst(ip, n, at) + rest, ip) == EndOf(at, rest, ip)
    decreases n
  {
    var l := Login(ip, false, at, at);
    var all := Burst(ip, n, at) + rest;
    assert all[0] == l && all[1..] == Burst(ip, n - 1, at) + rest;
    var rows1 := Step(rows, l).0;
    if n == 1 {
      assert Burst(ip, 0, at) + rest == rest;
      assert rows1 == rows[ip := Row(MAX_ATTEMPTS, Some(at + LOCK_SECONDS))];
    } else {
      BurstFails(rows1, ip, n - 1, at, rest);
      var locked := Row(MAX_ATTEMPTS, Some(at + LOCK_SECONDS));
      assert rows1[ip := locked] == rows[ip := locked];
    }
  }

  /** For every k there is a stretch of 600 k seconds with exactly 5 + k failures. */
  lemma LockoutBoundIsTight(ip: string, k: nat, at: int)
    ensures var ls := Burst(ip, MAX_ATTEMPTS, at) + Patient(ip, k, at);
      && InOrder(at, ls, ip) && NoSuccess(map[], ls, ip) && EndOf(at, ls, ip) == at + k * 600
      && Failures(map[], ls, ip) == 5 + k
  {
    var ls := Patient(ip, k, at);
    PatientFails(map[ip := Row(MAX_ATTEMPTS, Some(at + LOCK_SECONDS))], ip, k, at);
    BurstFails(map[], ip, MAX_ATTEMPTS, at, ls);
    var locked := Row(MAX_ATTEMPTS, Some(at + LOCK_SECONDS));
    assert map[][ip := locked] == map[ip := locked];
  }
}
