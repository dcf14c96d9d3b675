/** The two throttles in front of the API: the lockout after failed keys, and the per-minute request limit. */
module Throttling {
  import opened Wrappers

  // ---------------------------------------------------------------- counting in a window of a log

  /** The places of a log whose times lie in [lo, hi). */
  function Within(times: seq<real>, lo: real, hi: real): set<nat> {
    set i: nat | i < |times| && lo <= times[i] < hi
  }

  lemma {:induction false} RangeCount(s: set<nat>, lo: nat, n: nat)
    requires forall i :: i in s ==> lo <= i < lo + n
    ensures |s| <= n
    decreases n
  {
    if n == 0 {
      assert s == {};
    } else {
      RangeCount(s - {lo + n - 1}, lo, n - 1);
    }
  }

  ghost predicate NonDecreasing(times: seq<real>) { forall i, j :: 0 <= i <= j < |times| ==> times[i] <= times[j] }

  lemma {:induction false} LeastBelow(s: set<nat>, n: nat) returns (m: nat)
    requires exists i :: i in s && i < n
    ensures m in s && forall i :: i in s ==> m <= i
  {
    if exists i :: i in s && i < n - 1 {
      m := LeastBelow(s, n - 1);
    } else {
      m := n - 1;
    }
  }

  /** A set of places of which any two are less than `n` apart has at most `n` members. */
  lemma SpreadCount(s: set<nat>, n: nat)
    requires forall i, j :: i in s && j in s ==> j < i + n
    ensures |s| <= n
  {
    if s != {} {
      var x :| x in s;
      var first := LeastBelow(s, x + 1);
      RangeCount(s, first, n);
    }
  }

  /** When times `n` places apart are always at least `span` apart, a half-open window of that length holds at
      most `n` of them. */
  lemma SpacingBoundsWindow(times: seq<real>, n: nat, span: real, lo: real)
    requires forall i: nat, j: nat :: i + n <= j < |times| ==> times[j] - times[i] >= span
    ensures |Within(times, lo, lo + span)| <= n
  {
    SpreadCount(Within(times, lo, lo + span), n);
  }

  // ---------------------------------------------------------------- the request limit

  const WINDOW := 60.0

  function Recent(times: seq<real>, now: real): seq<real> {
    if times == [] then [] else (if times[0] > now - WINDOW then [times[0]] else []) + Recent(times[1..], now)
  }

  method KeepRecent(times: seq<real>, now: real) returns (kept: seq<real>)
    ensures kept == Recent(times, now)
  {
    kept := [];
    var i := 0;
    assert times[0..] == times;
    while i < |times|
      invariant 0 <= i <= |times|
      invariant kept + Recent(times[i..], now) == Recent(times, now)
    {
      RecentNext(times, now, i);
      if times[i] > now - WINDOW { kept := kept + [times[i]]; }
      i := i + 1;
    }
  }

  lemma {:induction false} RecentNext(times: seq<real>, now: real, i: nat)
    requires i < |times|
    ensures Recent(times[i..], now) ==
      (if times[i] > now - WINDOW then [times[i]] else []) + Recent(times[i + 1..], now)
  {
    assert times[i..][1..] == times[i + 1..];
  }

  datatype Request = Request(ip: string, exempt: bool, now: real)

  predicate Accepts(times: seq<real>, now: real, limit: int) { |Recent(times, now)| < limit }

  /** The timestamps kept for a client after one of its requests. */
  function AfterRequest(times: seq<real>, now: real, limit: int): seq<real> {
    if Accepts(times, now, limit) then Recent(times, now) + [now] else Recent(times, now)
  }

  type Table = map<string, seq<real>>

  function TimesOf(table: Table, ip: string): seq<real> { if ip in table then table[ip] else [] }

  /** The middleware: exempt paths pass through; any other request cleans its client's list and is accepted
      while the list is below the limit. */
  class RateLimiter {
    var requests: Table
    const limit: int

    constructor (requestsPerMinute: int)
      ensures requests == map[] && limit == requestsPerMinute
    {
      requests := map[];
      limit := requestsPerMinute;
    }

    method CleanOld(ip: string, now: real)
      modifies this
      ensures TimesOf(requests, ip) == Recent(TimesOf(old(requests), ip), now)
      ensures forall other :: other != ip ==> TimesOf(requests, other) == TimesOf(old(requests), other)
      ensures ip in requests ==> requests[ip] != []
    {
      var kept := KeepRecent(TimesOf(requests, ip), now);
      requests := if kept == [] then requests - {ip} else requests[ip := kept];
    }

    method Dispatch(r: Request) returns (accepted: bool)
      modifies this
      ensures forall other ::
        TimesOf(requests, other) ==
          if !r.exempt && other == r.ip then AfterRequest(TimesOf(old(requests), other), r.now, limit)
          else TimesOf(old(requests), other)
      ensures accepted == (r.exempt || Accepts(TimesOf(old(requests), r.ip), r.now, limit))
    {
      if r.exempt { return true; }
      CleanOld(r.ip, r.now);
      var times := TimesOf(requests, r.ip);
      accepted := |times| < limit;
      requests := requests[r.ip := if accepted then times + [r.now] else times];
    }
  }

  /** One client's view of a run of requests: the timestamps kept and everything ever accepted. */
  datatype Client = Client(kept: seq<real>, log: seq<real>)

  function ClientStep(c: Client, r: Request, ip: string, limit: int): Client {
    if r.exempt || r.ip != ip then c
    else Client(AfterRequest(c.kept, r.now, limit), if Accepts(c.kept, r.now, limit) then c.log + [r.now] else c.log)
  }

  function ClientRun(requests: seq<Request>, ip: string, limit: int): Client {
    if requests == [] then Client([], [])
    else ClientStep(ClientRun(requests[..|requests| - 1], ip, limit), requests[|requests| - 1], ip, limit)
  }

  ghost predicate TimeFlows(requests: seq<Request>) {
    forall i, j :: 0 <= i <= j < |requests| ==> requests[i].now <= requests[j].now
  }

  /** What is kept is the end of what was accepted; everything forgotten is a window old; and `limit` places
      apart, accepted requests are a window apart. */
  ghost predicate ClientOk(c: Client, limit: int, now: real) {
    KeptOk(c, now) && LogOk(c.log, now) && SpacedOut(c.log, limit)
  }

  ghost predicate KeptOk(c: Client, now: real) {
    && |c.kept| <= |c.log|
    && c.kept == c.log[|c.log| - |c.kept|..]
    && (forall i :: 0 <= i < |c.log| - |c.kept| ==> c.log[i] <= now - WINDOW)
  }

  ghost predicate LogOk(log: seq<real>, now: real) {
    NonDecreasing(log) && forall i :: 0 <= i < |log| ==> log[i] <= now
  }

  ghost predicate SpacedOut(log: seq<real>, limit: int) {
    && (forall i: nat, j: nat :: limit >= 0 && i + limit <= j < |log| ==> log[j] - log[i] >= WINDOW)
    && (limit <= 0 ==> log == [])
  }

  lemma {:induction false} RecentAll(times: seq<real>, now: real)
    requires forall i :: 0 <= i < |times| ==> times[i] > now - WINDOW
    ensures Recent(times, now) == times
  {
    if times != [] { RecentAll(times[1..], now); }
  }

  lemma {:induction false} RecentIsSuffix(times: seq<real>, now: real) returns (k: nat)
    requires NonDecreasing(times)
    ensures k <= |times| && Recent(times, now) == times[k..]
    ensures forall i :: 0 <= i < k ==> times[i] <= now - WINDOW
    ensures forall i :: k <= i < |times| ==> times[i] > now - WINDOW
  {
    k := 0;
    if times != [] && times[0] > now - WINDOW {
      RecentAll(times, now);
    } else if times != [] {
      var k' := RecentIsSuffix(times[1..], now);
      k := k' + 1;
      assert forall i :: 1 <= i < |times| ==> times[i] == times[1..][i - 1];
    }
  }

  lemma {:induction false} CleaningKeepsKept(c: Client, before: real, now: real)
    requires KeptOk(c, before) && NonDecreasing(c.log) && before <= now
    ensures KeptOk(Client(Recent(c.kept, now), c.log), now)
  {
    var start := |c.log| - |c.kept|;
    KeptIsOrdered(c.kept, c.log, start);
    var k := RecentIsSuffix(c.kept, now);
    SuffixOfSuffix(c.log, start, k);
    forall i | 0 <= i < start + k
      ensures c.log[i] <= now - WINDOW
    {
      if i >= start { assert c.log[i] == c.kept[i - start]; }
    }
  }

  lemma {:induction false} KeptIsOrdered(kept: seq<real>, log: seq<real>, start: nat)
    requires start <= |log| && kept == log[start..] && NonDecreasing(log)
    ensures NonDecreasing(kept)
  {
    assert forall i :: 0 <= i < |kept| ==> kept[i] == log[start + i];
  }

  lemma {:induction false} SuffixOfSuffix(log: seq<real>, start: nat, k: nat)
    requires start + k <= |log|
    ensures log[start..][k..] == log[start + k..]
  {
  }

  lemma AcceptingKeepsSpacing(c: Client, limit: int, now: real)
    requires KeptOk(c, now) && SpacedOut(c.log, limit) && |c.kept| < limit
    ensures SpacedOut(c.log + [now], limit)
  {
    var log := c.log + [now];
    forall i: nat, j: nat | i + limit <= j < |log|
      ensures log[j] - log[i] >= WINDOW
    {
      if j < |c.log| { assert c.log[j] - c.log[i] >= WINDOW; }
    }
  }

  lemma LogGrows(log: seq<real>, now: real)
    requires LogOk(log, now)
    ensures LogOk(log + [now], now)
  {
  }

  lemma AcceptingKeepsOk(c: Client, limit: int, now: real)
    requires ClientOk(c, limit, now) && |c.kept| < limit
    ensures ClientOk(Client(c.kept + [now], c.log + [now]), limit, now)
  {
    AcceptingKeepsSpacing(c, limit, now);
    var d := Client(c.kept + [now], c.log + [now]);
    assert d.log[|d.log| - |d.kept|..] == d.kept;
    assert KeptOk(d, now);
    LogGrows(c.log, now);
  }

  lemma LaterOk(c: Client, limit: int, before: real, now: real)
    requires ClientOk(c, limit, before) && before <= now
    ensures ClientOk(c, limit, now)
  {
  }

  lemma ClientStepOk(c: Client, r: Request, ip: string, limit: int, before: real)
    requires ClientOk(c, limit, before) && before <= r.now
    ensures ClientOk(ClientStep(c, r, ip, limit), limit, r.now)
  {
    if r.exempt || r.ip != ip {
      LaterOk(c, limit, before, r.now);
    } else {
      CleaningKeepsKept(c, before, r.now);
      assert ClientOk(Client(Recent(c.kept, r.now), c.log), limit, r.now);
      if Accepts(c.kept, r.now, limit) { AcceptingKeepsOk(Client(Recent(c.kept, r.now), c.log), limit, r.now); }
    }
  }

  lemma {:induction false} ClientRunOk(requests: seq<Request>, ip: string, limit: int)
    requires TimeFlows(requests) && requests != []
    ensures ClientOk(ClientRun(requests, ip, limit), limit, requests[|requests| - 1].now)
  {
    var n := |requests| - 1;
    var c := ClientRun(requests[..n], ip, limit);
    if n == 0 {
      assert requests[..n] == [];
      ClientStepOk(c, requests[n], ip, limit, requests[n].now);
    } else {
      ClientRunOk(requests[..n], ip, limit);
      ClientStepOk(c, requests[n], ip, limit, requests[n - 1].now);
    }
  }

  /** The limit: over any run with time that never goes back, every half-open minute contains at most
      `limit` accepted requests of a client, although old timestamps are forgotten. */
  lemma {:induction false} RateIsLimited(requests: seq<Request>, ip: string, limit: int, lo: real)
    requires TimeFlows(requests)
    ensures |Within(ClientRun(requests, ip, limit).log, lo, lo + 60.0)| <= if limit < 0 then 0 else limit
  {
    var log := ClientRun(requests, ip, limit).log;
    if requests != [] { ClientRunOk(requests, ip, limit); }
    if limit <= 0 {
      assert Within(log, lo, lo + WINDOW) == {};
    } else {
      SpacingBoundsWindow(log, limit, WINDOW, lo);
    }
  }

  // ---------------------------------------------------------------- the ideal limiter

  /** The places of all accepted requests of the last minute. */
  function LastMinute(log: seq<real>, now: real): set<nat> { set i: nat | i < |log| && log[i] > now - WINDOW }

  /** A limiter that never forgets: it accepts a request while fewer than `limit` were accepted in the last
      minute. */
  function IdealRun(requests: seq<Request>, ip: string, limit: int): seq<real> {
    if requests == [] then [] else
    var log, r := IdealRun(requests[..|requests| - 1], ip, limit), requests[|requests| - 1];
    if r.exempt || r.ip != ip || |LastMinute(log, r.now)| >= limit then log else log + [r.now]
  }

  lemma {:induction false} RangeExactly(s: set<nat>, lo: nat, n: nat)
    requires forall i :: i in s <==> lo <= i < lo + n
    ensures |s| == n
    decreases n
  {
    if n == 0 {
      assert s == {};
    } else {
      RangeExactly(s - {lo + n - 1}, lo, n - 1);
    }
  }

  /** The timestamps kept decide as the whole log would. */
  lemma DecidesLikeIdeal(c: Client, limit: int, before: real, now: real)
    requires ClientOk(c, limit, before) && before <= now
    ensures Accepts(c.kept, now, limit) <==> |LastMinute(c.log, now)| < limit
  {
    var start := |c.log| - |c.kept|;
    assert forall i :: 0 <= i < |c.kept| ==> c.kept[i] == c.log[start + i];
    var k := RecentIsSuffix(c.kept, now);
    forall i: nat
      ensures i in LastMinute(c.log, now) <==> start + k <= i < start + k + |c.kept[k..]|
    {
      if start <= i < |c.log| { assert c.log[i] == c.kept[i - start]; }
    }
    RangeExactly(LastMinute(c.log, now), start + k, |c.kept[k..]|);
  }

  /** The middleware, which forgets, accepts exactly the requests the ideal limiter accepts. */
  lemma {:induction false} MiddlewareIsIdeal(requests: seq<Request>, ip: string, limit: int)
    requires TimeFlows(requests)
    ensures ClientRun(requests, ip, limit).log == IdealRun(requests, ip, limit)
  {
    if requests != [] {
      var n := |requests| - 1;
      var earlier, r := requests[..n], requests[n];
      MiddlewareIsIdeal(earlier, ip, limit);
      if n > 0 {
        ClientRunOk(earlier, ip, limit);
        DecidesLikeIdeal(ClientRun(earlier, ip, limit), limit, requests[n - 1].now, r.now);
      } else {
        DecidesLikeIdeal(Client([], []), limit, r.now, r.now);
      }
    }
  }

  // ---------------------------------------------------------------- the lockout

  const MAX_ATTEMPTS := 5
  const LOCKOUT := 300.0

  datatype Row = Row(attempts: nat, first: real)

  predicate LockedAt(row: Option<Row>, now: real) {
    row.Some? && row.value.attempts >= MAX_ATTEMPTS && now - row.value.first < LOCKOUT
  }

  /** The row after the lock check: an expired lock is deleted. */
  function RowAfterLook(row: Option<Row>, now: real): Option<Row> {
    if row.Some? && row.value.attempts >= MAX_ATTEMPTS && now - row.value.first >= LOCKOUT then None else row
  }

  predicate StartsWindow(row: Option<Row>, now: real) { row.None? || now - row.value.first > LOCKOUT }

  function RowAfterFailure(row: Option<Row>, now: real): Row {
    if StartsWindow(row, now) then Row(1, now) else Row(row.value.attempts + 1, row.value.first)
  }

  datatype Credential = Missing | Wrong | Right

  /** One authentication check of a client: the lock is looked at first, the outcome recorded later. */
  datatype Check = Check(anyKey: bool, credential: Credential, lookAt: real, recordAt: real)

  datatype Verdict = Locked | NoKeyConfigured | Refused(remaining: int) | Granted

  predicate Records(row: Option<Row>, c: Check) { !LockedAt(row, c.lookAt) && c.anyKey && !c.credential.Right? }

  function RowAfter(row: Option<Row>, c: Check): Option<Row> {
    if LockedAt(row, c.lookAt) then row
    else if !c.anyKey then RowAfterLook(row, c.lookAt)
    else if c.credential.Right? then None
    else Some(RowAfterFailure(RowAfterLook(row, c.lookAt), c.recordAt))
  }

  function RowOf(rows: map<string, Row>, ip: string): Option<Row> { if ip in rows then Some(rows[ip]) else None }

  /** The lockout table and the check that drives it. */
  class AuthLockout {
    var rows: map<string, Row>

    constructor ()
      ensures rows == map[]
    {
      rows := map[];
    }

    method IsLockedOut(ip: string, now: real) returns (locked: bool)
      modifies this
      ensures locked == LockedAt(RowOf(old(rows), ip), now)
      ensures RowOf(rows, ip) == RowAfterLook(RowOf(old(rows), ip), now)
      ensures forall other :: other != ip ==> RowOf(rows, other) == RowOf(old(rows), other)
    {
      if ip !in rows { return false; }
      if rows[ip].attempts >= MAX_ATTEMPTS {
        if now - rows[ip].first < LOCKOUT { return true; }
        rows := rows - {ip};
      }
      return false;
    }

    method RecordFailedAttempt(ip: string, now: real)
      modifies this
      ensures RowOf(rows, ip) == Some(RowAfterFailure(RowOf(old(rows), ip), now))
      ensures forall other :: other != ip ==> RowOf(rows, other) == RowOf(old(rows), other)
    {
      if ip !in rows || now - rows[ip].first > LOCKOUT {
        rows := rows[ip := Row(1, now)];
      } else {
        rows := rows[ip := Row(rows[ip].attempts + 1, rows[ip].first)];
      }
    }

    method CheckHeader(ip: string, c: Check) returns (v: Verdict)
      modifies this
      ensures RowOf(rows, ip) == RowAfter(RowOf(old(rows), ip), c)
      ensures forall other :: other != ip ==> RowOf(rows, other) == RowOf(old(rows), other)
      ensures v.Locked? <==> LockedAt(RowOf(old(rows), ip), c.lookAt)
      ensures v.Granted? <==> !v.Locked? && c.anyKey && c.credential.Right?
      ensures v.Refused? <==> Records(RowOf(old(rows), ip), c)
      ensures v.Refused? ==> ip in rows && v.remaining == MAX_ATTEMPTS - rows[ip].attempts
    {
      var locked := IsLockedOut(ip, c.lookAt);
      if locked { return Locked; }
      if !c.anyKey { return NoKeyConfigured; }
      if c.credential.Right? {
        rows := rows - {ip};
        return Granted;
      }
      RecordFailedAttempt(ip, c.recordAt);
      return Refused(MAX_ATTEMPTS - rows[ip].attempts);
    }
  }

  /** A recorded failure: when, and in which window. */
  datatype Mark = Mark(time: real, window: nat)

  /** One client's history: its row, the start of every window, and every failure recorded. */
  datatype History = History(row: Option<Row>, starts: seq<real>, log: seq<Mark>)

  /** A failure recorded in a history whose lock has been looked at. */
  function Recorded(h: History, now: real): History {
    var row := Some(RowAfterFailure(h.row, now));
    if StartsWindow(h.row, now) then History(row, h.starts + [now], h.log + [Mark(now, |h.starts|)])
    else History(row, h.starts, h.log + [Mark(now, if h.starts == [] then 0 else |h.starts| - 1)])
  }

  function Extend(h: History, c: Check): History {
    if Records(h.row, c) then Recorded(h.(row := RowAfterLook(h.row, c.lookAt)), c.recordAt)
    else h.(row := RowAfter(h.row, c))
  }

  function HistoryOf(checks: seq<Check>): History {
    if checks == [] then History(None, [], []) else Extend(HistoryOf(checks[..|checks| - 1]), checks[|checks| - 1])
  }

  /** Checks run one at a time, with time that never goes back, and none succeeds. */
  ghost predicate FailingRun(checks: seq<Check>) {
    && (forall i :: 0 <= i < |checks| ==> checks[i].lookAt <= checks[i].recordAt && !checks[i].credential.Right?)
    && (forall i, j :: 0 <= i < j < |checks| ==> checks[i].recordAt <= checks[j].lookAt)
  }

  /** The history's row is the row the table holds, and a failure is logged exactly when one is recorded. */
  lemma HistoryTracksTable(h: History, c: Check)
    ensures Extend(h, c).row == RowAfter(h.row, c)
    ensures Extend(h, c).log == h.log <==> !Records(h.row, c)
  {
    assert Records(h.row, c) ==> |Extend(h, c).log| == |h.log| + 1;
  }

  ghost predicate WindowsOk(h: History, now: real) {
    && (forall i :: 0 < i < |h.starts| ==> h.starts[i] - h.starts[i - 1] >= LOCKOUT)
    && (h.row.Some? ==>
          && h.starts != []
          && h.row.value.first == h.starts[|h.starts| - 1] <= now
          && 1 <= h.row.value.attempts <= MAX_ATTEMPTS)
    && (h.row.None? && h.starts != [] ==> now - h.starts[|h.starts| - 1] >= LOCKOUT)
  }

  /** The marks of the current window are the last ones, as many as the row says; five places on, a mark is in
      a later window. */
  ghost predicate MarksOk(h: History, now: real) {
    && MarksPlaced(h.log, h.starts, now)
    && MarksOrdered(h.log)
    && MarksBeforeNext(h.log, h.starts)
    && (h.row.Some? ==> CurrentMarksLast(h.log, |h.starts|, h.row.value.attempts))
    && FiveFillAWindow(h.log)
  }

  ghost predicate MarksPlaced(log: seq<Mark>, starts: seq<real>, now: real) {
    forall i :: 0 <= i < |log| ==> log[i].window < |starts| && starts[log[i].window] <= log[i].time <= now
  }

  ghost predicate MarksOrdered(log: seq<Mark>) {
    forall i, j :: 0 <= i <= j < |log| ==> log[i].time <= log[j].time && log[i].window <= log[j].window
  }

  ghost predicate MarksBeforeNext(log: seq<Mark>, starts: seq<real>) {
    forall i :: 0 <= i < |log| && log[i].window + 1 < |starts| ==> log[i].time <= starts[log[i].window + 1]
  }

  ghost predicate CurrentMarksLast(log: seq<Mark>, windows: nat, attempts: nat) {
    attempts <= |log| && forall i :: 0 <= i < |log| ==> (log[i].window == windows - 1 <==> i >= |log| - attempts)
  }

  ghost predicate FiveFillAWindow(log: seq<Mark>) {
    forall i, j :: 0 <= i && i + MAX_ATTEMPTS <= j < |log| ==> log[i].window < log[j].window
  }

  ghost predicate HistoryInv(h: History, now: real) { WindowsOk(h, now) && MarksOk(h, now) }

  lemma LaterKeeps(h: History, before: real, now: real)
    requires HistoryInv(h, before) && before <= now
    ensures HistoryInv(h, now)
  {
  }

  lemma LookKeeps(h: History, now: real)
    requires HistoryInv(h, now)
    ensures HistoryInv(h.(row := RowAfterLook(h.row, now)), now)
  {
  }

  lemma MarkInOrder(log: seq<Mark>, starts: seq<real>, now: real, m: Mark)
    requires MarksOrdered(log) && MarksPlaced(log, starts, now) && m.time == now && m.window + 1 >= |starts|
    ensures MarksOrdered(log + [m])
  {
  }

  lemma NewWindowMarks(h: History, now: real)
    requires MarksOk(h, now)
    ensures MarksOk(History(Some(Row(1, now)), h.starts + [now], h.log + [Mark(now, |h.starts|)]), now)
  {
    var log, starts := h.log + [Mark(now, |h.starts|)], h.starts + [now];
    MarkInOrder(h.log, h.starts, now, Mark(now, |h.starts|));
    assert MarksPlaced(log, starts, now);
    assert MarksBeforeNext(log, starts);
    assert CurrentMarksLast(log, |starts|, 1);
    assert FiveFillAWindow(log);
  }

  lemma SameWindowIsNotFull(log: seq<Mark>, windows: nat, attempts: nat, now: real)
    requires FiveFillAWindow(log) && CurrentMarksLast(log, windows, attempts) && 1 <= attempts < MAX_ATTEMPTS
    requires forall i :: 0 <= i < |log| ==> log[i].window < windows
    requires windows > 0
    ensures FiveFillAWindow(log + [Mark(now, windows - 1)])
  {
    var next := log + [Mark(now, windows - 1)];
    forall i, j | 0 <= i && i + MAX_ATTEMPTS <= j < |next|
      ensures next[i].window < next[j].window
    {
      if j == |log| { assert log[i].window <= windows - 1; }
    }
  }

  lemma SameWindowMarks(h: History, now: real)
    requires MarksOk(h, now) && h.row.Some? && h.starts != [] && h.starts[|h.starts| - 1] <= now
    requires 1 <= h.row.value.attempts < MAX_ATTEMPTS
    ensures MarksOk(History(Some(Row(h.row.value.attempts + 1, h.row.value.first)), h.starts,
                            h.log + [Mark(now, |h.starts| - 1)]), now)
  {
    var log := h.log + [Mark(now, |h.starts| - 1)];
    MarkInOrder(h.log, h.starts, now, Mark(now, |h.starts| - 1));
    SameWindowIsNotFull(h.log, |h.starts|, h.row.value.attempts, now);
    assert MarksPlaced(log, h.starts, now);
    assert MarksBeforeNext(log, h.starts);
    assert CurrentMarksLast(log, |h.starts|, h.row.value.attempts + 1);
  }

  lemma RecordKeepsWindows(h: History, now: real)
    requires WindowsOk(h, now)
    requires h.row.Some? ==> h.row.value.attempts < MAX_ATTEMPTS
    ensures WindowsOk(Recorded(h, now), now)
  {
  }

  lemma {:induction false} RecordKeepsMarks(h: History, now: real)
    requires WindowsOk(h, now) && MarksOk(h, now)
    requires h.row.Some? ==> h.row.value.attempts < MAX_ATTEMPTS
    ensures MarksOk(Recorded(h, now), now)
  {
    if StartsWindow(h.row, now) {
      NewWindowMarks(h, now);
      assert Recorded(h, now) == History(Some(Row(1, now)), h.starts + [now], h.log + [Mark(now, |h.starts|)]);
    } else {
      SameWindowMarks(h, now);
      var row := Row(h.row.value.attempts + 1, h.row.value.first);
      assert Recorded(h, now) == History(Some(row), h.starts, h.log + [Mark(now, |h.starts| - 1)]);
    }
  }

  lemma RecordKeeps(h: History, now: real)
    requires HistoryInv(h, now)
    requires h.row.Some? ==> h.row.value.attempts < MAX_ATTEMPTS
    ensures HistoryInv(Recorded(h, now), now)
  {
    RecordKeepsWindows(h, now);
    RecordKeepsMarks(h, now);
  }

  lemma ExtendKeeps(h: History, c: Check)
    requires HistoryInv(h, c.lookAt) && c.lookAt <= c.recordAt && !c.credential.Right?
    ensures HistoryInv(Extend(h, c), c.recordAt)
  {
    LookKeeps(h, c.lookAt);
    var looked := h.(row := RowAfterLook(h.row, c.lookAt));
    LaterKeeps(looked, c.lookAt, c.recordAt);
    LaterKeeps(h, c.lookAt, c.recordAt);
    if Records(h.row, c) { RecordKeeps(looked, c.recordAt); }
  }

  lemma {:induction false} HistoryOk(checks: seq<Check>, now: real)
    requires FailingRun(checks) && forall i :: 0 <= i < |checks| ==> checks[i].recordAt <= now
    ensures HistoryInv(HistoryOf(checks), now)
  {
    if checks != [] {
      var n := |checks| - 1;
      HistoryOk(checks[..n], checks[n].lookAt);
      ExtendKeeps(HistoryOf(checks[..n]), checks[n]);
      LaterKeeps(HistoryOf(checks), checks[n].recordAt, now);
    }
  }

  /** A client is locked out only after five failures recorded in the last 300 seconds. */
  lemma {:induction false} LockedMeansFive(checks: seq<Check>, now: real)
    requires FailingRun(checks) && forall i :: 0 <= i < |checks| ==> checks[i].recordAt <= now
    requires LockedAt(HistoryOf(checks).row, now)
    ensures var log := HistoryOf(checks).log;
      && |log| >= 5
      && forall i :: |log| - 5 <= i < |log| ==> now - 300.0 < log[i].time <= now
  {
    HistoryOk(checks, now);
  }

  lemma {:induction false} StartsSpread(starts: seq<real>, i: nat, j: nat)
    requires i <= j < |starts|
    requires forall k :: 0 < k < |starts| ==> starts[k] - starts[k - 1] >= LOCKOUT
    ensures starts[j] - starts[i] >= (j - i) as real * LOCKOUT
  {
    if i < j { StartsSpread(starts, i, j - 1); }
  }

  /** Marks 5k places apart are at least k windows apart. */
  lemma {:induction false} MarksSpread(h: History, now: real, i: nat, k: nat)
    requires MarksOk(h, now) && i + MAX_ATTEMPTS * k < |h.log|
    ensures h.log[i].window + k <= h.log[i + MAX_ATTEMPTS * k].window
    decreases k
  {
    if k > 0 { MarksSpread(h, now, i, k - 1); }
  }

  /** The number of failures an interval of length `d` may hold. */
  function MostFailures(d: real): nat
    requires d >= 0.0
  {
    MAX_ATTEMPTS * ((d / LOCKOUT).Floor + 2)
  }

  function Times(log: seq<Mark>): seq<real> { seq(|log|, i requires 0 <= i < |log| => log[i].time) }

  lemma FarMarksApart(h: History, now: real, d: real, i: nat, j: nat)
    requires WindowsOk(h, now) && MarksOk(h, now) && d >= 0.0 && i + MostFailures(d) <= j < |h.log|
    ensures h.log[j].time - h.log[i].time > d
  {
    var q := (d / LOCKOUT).Floor;
    var k := q + 2;
    var far, lo := i + MAX_ATTEMPTS * k, h.log[i].window;
    MarksSpread(h, now, i, k);
    var hi := h.log[far].window;
    StartsSpread(h.starts, lo + 1, hi);
    assert h.starts[hi] - h.starts[lo + 1] >= (hi - lo - 1) as real * LOCKOUT;
    assert (hi - lo - 1) as real >= q as real + 1.0;
    assert (q as real + 1.0) * LOCKOUT > d;
    assert h.log[far].time <= h.log[j].time;
  }

  /** The places of a log whose times lie in [lo, hi]. */
  function Between(times: seq<real>, lo: real, hi: real): set<nat> {
    set i: nat | i < |times| && lo <= times[i] <= hi
  }

  /** The lockout bound: while a client never succeeds, its stored attempts never exceed five, its windows
      start at least 300 seconds apart, and an interval of length `d` holds at most 5 * (d / 300 + 2) recorded
      failures. */
  lemma {:induction false} FailuresAreBounded(checks: seq<Check>, lo: real, d: real)
    requires FailingRun(checks) && d >= 0.0
    ensures var h := HistoryOf(checks);
      && (h.row.Some? ==> h.row.value.attempts <= 5)
      && (forall i :: 0 < i < |h.starts| ==> h.starts[i] - h.starts[i - 1] >= 300.0)
      && |Between(Times(h.log), lo, lo + d)| <= 5 * ((d / 300.0).Floor + 2)
  {
    var h := HistoryOf(checks);
    if checks != [] {
      HistoryOk(checks, checks[|checks| - 1].recordAt);
      var s, now := Between(Times(h.log), lo, lo + d), checks[|checks| - 1].recordAt;
      forall i, j | i in s && j in s
        ensures j < i + MostFailures(d)
      {
        if i + MostFailures(d) <= j { FarMarksApart(h, now, d, i, j); }
      }
      SpreadCount(s, MostFailures(d));
    }
  }

  /** The row of a client after a run of checks, successes and all. */
  function RowAfterAll(row: Option<Row>, checks: seq<Check>): Option<Row>
    decreases |checks|
  {
    if checks == [] then row else RowAfterAll(RowAfter(row, checks[0]), checks[1..])
  }

  predicate Succeeds(row: Option<Row>, c: Check) { !LockedAt(row, c.lookAt) && c.anyKey && c.credential.Right? }

  /** A success clears everything that was recorded: whatever follows, the row, and so every later lock, is what it
      would be for a client that had never failed. */
  lemma {:induction false} SuccessForgets(row: Option<Row>, before: seq<Check>, c: Check, after: seq<Check>)
    requires Succeeds(RowAfterAll(row, before), c)
    ensures RowAfterAll(row, before + [c] + after) == RowAfterAll(None, after)
    decreases |before|
  {
    if before == [] {
      assert ([] + [c] + after)[1..] == after;
    } else {
      assert (before + [c] + after)[1..] == before[1..] + [c] + after;
      SuccessForgets(RowAfter(row, before[0]), before[1..], c, after);
    }
  }

  /** Five wrong keys in a row, each within 300 seconds of the first, lock the client out until 300 seconds after it. */
  lemma {:induction false} FiveFailuresLock(checks: seq<Check>, now: real)
    requires |checks| == 5 && FailingRun(checks) && forall i :: 0 <= i < 5 ==> checks[i].anyKey
    requires forall i :: 0 <= i < 5 ==> checks[i].recordAt - checks[0].recordAt <= 300.0
    ensures LockedAt(RowAfterAll(None, checks), now) <==> now - checks[0].recordAt < 300.0
  {
    FailuresCount(checks, 0, None);
  }

  lemma {:induction false} FailuresCount(checks: seq<Check>, n: nat, row: Option<Row>)
    requires |checks| == 5 && n <= 5 && FailingRun(checks) && forall i :: 0 <= i < 5 ==> checks[i].anyKey
    requires forall i :: 0 <= i < 5 ==> checks[i].recordAt - checks[0].recordAt <= LOCKOUT
    requires row == if n == 0 then None else Some(Row(n, checks[0].recordAt))
    ensures RowAfterAll(row, checks[n..]) == Some(Row(5, checks[0].recordAt))
    decreases 5 - n
  {
    if n < 5 {
      assert checks[n..][0] == checks[n] && checks[n..][1..] == checks[n + 1..];
      FailuresCount(checks, n + 1, RowAfter(row, checks[n]));
    } else {
      assert checks[n..] == [];
    }
    assert checks[0..] == checks;
  }
}
