/** The settings cache with a single fetch in flight: any number of threads calling `get_settings`, with a
    condition variable, deadlines, overrides and calls a leading thread makes back into `get_settings`. Each
    action below is one critical section or one thread-local stretch, so runs are all interleavings. */
module SettingsFlight {
  import opened Wrappers

  const TTL := 300.0

  datatype Settings = Defaults | Fetched(version: nat) | Override(name: nat)

  datatype Request = Request(useCache: bool, deadline: Option<real>, cacheFallback: bool, hasSession: bool)

  /** A leader prepares a session, has the fetch in flight, or is about to publish. Settings to publish are
      absent when the fetch path was left by an exception. */
  datatype Stage = Preparing | Fetching | Publishing(settings: Option<Settings>, fetched: Option<Settings>)

  datatype Pc =
    | Idle
    | Looping(req: Request)
    | Waiting(req: Request, notified: bool)
    | Leading(req: Request, stage: Stage)
    | Returning(result: Settings)
    | SelfBlocked

  datatype Thread = Thread(pc: Pc, depth: nat, override: Option<Settings>)

  datatype Cached = Cached(settings: Settings, at: real)

  datatype State = State(
    threads: map<nat, Thread>, cache: Option<Cached>, inProgress: bool, generation: nat, mono: real, wall: real)

  datatype Action =
    | Call(t: nat, useCache: bool, timeout: Option<real>, cacheFallback: bool, hasSession: bool)
    | Look(t: nat)
    | Wake(t: nat)
    | Prepare(t: nat, sessionOk: bool)
    | FetchDone(t: nat, fetched: Option<Settings>)
    | Fail(t: nat)
    | Publish(t: nat)
    | Return(t: nat)
    | Reenter(t: nat)
    | SetOverride(t: nat, override: Option<Settings>)
    | Invalidate
    | Tick(mono: real, wall: real)

  // ---------------------------------------------------------------- the steps

  /** What a call answers before it touches the condition variable, if it answers there. */
  function EarlyAnswer(th: Thread): Option<Settings> {
    if th.override.Some? then th.override else if th.depth > 0 then Some(Defaults) else None
  }

  predicate Passed(deadline: Option<real>, mono: real) { deadline.Some? && deadline.value - mono <= 0.0 }

  predicate Fresh(s: State) { s.cache.Some? && s.wall - s.cache.value.at < TTL }

  predicate CanWake(s: State, pc: Pc)
    requires pc.Waiting?
  {
    pc.notified || (pc.req.deadline.Some? && s.mono >= pc.req.deadline.value)
  }

  /** The points of a call at which its thread can take a step. */
  predicate AtPoint(s: State, pc: Pc, a: Action) {
    match a
    case Call(_, _, _, _, _) => pc.Idle?
    case Look(_) => pc.Looping?
    case Wake(_) => pc.Waiting? && CanWake(s, pc)
    case Prepare(_, _) => pc.Leading? && pc.stage.Preparing?
    case FetchDone(_, _) => pc.Leading? && pc.stage.Fetching?
    case Fail(_) => pc.Leading? && !pc.stage.Publishing?
    case Publish(_) => pc.Leading? && pc.stage.Publishing?
    case Return(_) => pc.Returning?
    case Reenter(_) => pc.Leading? && !pc.stage.Publishing?
    case SetOverride(_, _) => pc.Idle? || (pc.Leading? && !pc.stage.Publishing?)
    case Invalidate => true
    case Tick(_, _) => true
  }

  predicate Enabled(s: State, a: Action) {
    if a.Invalidate? then true
    else if a.Tick? then a.mono >= s.mono
    else a.t in s.threads && AtPoint(s, s.threads[a.t].pc, a)
  }

  function WithPc(s: State, t: nat, pc: Pc): State
    requires t in s.threads
  {
    s.(threads := s.threads[t := s.threads[t].(pc := pc)])
  }

  /** One turn of the loop under the condition variable. */
  function LookStep(s: State, t: nat, req: Request): State
    requires t in s.threads
  {
    if req.useCache && Fresh(s) then WithPc(s, t, Returning(s.cache.value.settings))
    else if !s.inProgress then
      var th := s.threads[t];
      s.(threads := s.threads[t := th.(pc := Leading(req, Preparing), depth := th.depth + 1)], inProgress := true)
    else if Passed(req.deadline, s.mono) then WithPc(s, t, Returning(Defaults))
    else WithPc(s, t, Waiting(req, false))
  }

  function Notified(th: Thread): Thread {
    if th.pc.Waiting? then th.(pc := Waiting(th.pc.req, true)) else th
  }

  function NotifyAll(threads: map<nat, Thread>): map<nat, Thread> { map t | t in threads :: Notified(threads[t]) }

  /** Leaving the lead: the result is published, the flag cleared and every waiter notified. */
  function PublishStep(s: State, t: nat, req: Request, settings: Option<Settings>, fetched: Option<Settings>): State
    requires t in s.threads
  {
    var th := s.threads[t];
    var left := th.(pc := if settings.Some? then Returning(settings.value) else Idle,
                    depth := if th.depth > 0 then th.depth - 1 else 0);
    var store := settings.Some? && (fetched.Some? || req.cacheFallback);
    State(NotifyAll(s.threads)[t := left],
          if store then Some(Cached(settings.value, s.wall)) else s.cache,
          false,
          if settings.Some? then s.generation + 1 else s.generation,
          s.mono, s.wall)
  }

  function Step(s: State, a: Action): State
    requires Enabled(s, a)
  {
    match a
    case Call(t, useCache, timeout, cacheFallback, hasSession) =>
      var early := EarlyAnswer(s.threads[t]);
      if early.Some? then WithPc(s, t, Returning(early.value)) else
      var deadline := if timeout.None? then None else Some(s.mono + if timeout.value > 0.0 then timeout.value else 0.0);
      WithPc(s, t, Looping(Request(useCache, deadline, cacheFallback, hasSession)))
    case Look(t) => LookStep(s, t, s.threads[t].pc.req)
    case Wake(t) => WithPc(s, t, Looping(s.threads[t].pc.req))
    case Prepare(t, sessionOk) =>
      var req := s.threads[t].pc.req;
      if Passed(req.deadline, s.mono) || !(req.hasSession || sessionOk)
      then WithPc(s, t, Leading(req, Publishing(Some(Defaults), None)))
      else WithPc(s, t, Leading(req, Fetching))
    case FetchDone(t, fetched) =>
      var settings := if fetched.Some? then fetched.value else Defaults;
      WithPc(s, t, Leading(s.threads[t].pc.req, Publishing(Some(settings), fetched)))
    case Fail(t) => WithPc(s, t, Leading(s.threads[t].pc.req, Publishing(None, None)))
    case Publish(t) =>
      var pc := s.threads[t].pc;
      PublishStep(s, t, pc.req, pc.stage.settings, pc.stage.fetched)
    case Return(t) => WithPc(s, t, Idle)
    case Reenter(t) => if EarlyAnswer(s.threads[t]).Some? then s else WithPc(s, t, SelfBlocked)
    case SetOverride(t, override) => s.(threads := s.threads[t := s.threads[t].(override := override)])
    case Invalidate => s.(cache := None)
    case Tick(mono, wall) => s.(mono := mono, wall := wall)
  }

  // ---------------------------------------------------------------- the invariant

  predicate Leads(s: State, t: nat) { t in s.threads && s.threads[t].pc.Leading? }

  predicate InFlight(s: State, t: nat) { Leads(s, t) && s.threads[t].pc.stage.Fetching? }

  /** A waiter that nobody has woken yet. */
  predicate Asleep(s: State, t: nat) { t in s.threads && s.threads[t].pc.Waiting? && !s.threads[t].pc.notified }

  /** The flag is set exactly while some thread leads, no two lead, only a leader has a fetch depth, nobody
      sleeps once the flag is down, and no leader has blocked on itself. */
  ghost predicate Inv(s: State) {
    && (s.inProgress <==> exists t :: Leads(s, t))
    && (forall t, u :: Leads(s, t) && Leads(s, u) ==> t == u)
    && (forall t :: t in s.threads ==> s.threads[t].depth == if s.threads[t].pc.Leading? then 1 else 0)
    && (forall t :: Asleep(s, t) ==> s.inProgress)
    && (forall t :: t in s.threads ==> !s.threads[t].pc.SelfBlocked?)
  }

  ghost predicate Init(s: State) {
    && (forall t :: t in s.threads ==> s.threads[t] == Thread(Idle, 0, None))
    && s.cache.None? && !s.inProgress
  }

  lemma InitInv(s: State)
    requires Init(s)
    ensures Inv(s)
  {
  }

  /** Changing one thread that neither leads before nor after, nor falls asleep, keeps the invariant. */
  lemma PcKeeps(s: State, t: nat, pc: Pc)
    requires Inv(s) && t in s.threads
    requires pc.Leading? == s.threads[t].pc.Leading? && !pc.SelfBlocked?
    requires pc.Waiting? && !pc.notified ==> s.inProgress
    ensures Inv(WithPc(s, t, pc))
  {
    var s' := WithPc(s, t, pc);
    assert forall u :: Leads(s', u) == Leads(s, u);
    assert forall u :: Asleep(s', u) ==> Asleep(s, u) || u == t;
  }

  lemma LookKeeps(s: State, t: nat)
    requires Inv(s) && Enabled(s, Look(t))
    ensures Inv(Step(s, Look(t)))
  {
    var req := s.threads[t].pc.req;
    var s' := Step(s, Look(t));
    if req.useCache && Fresh(s) {
      PcKeeps(s, t, Returning(s.cache.value.settings));
    } else if !s.inProgress {
      assert forall u :: Leads(s', u) <==> u == t by {
        forall u ensures Leads(s', u) <==> u == t {
          if u != t { assert Leads(s', u) == Leads(s, u); }
        }
      }
      assert Leads(s', t);
    } else if Passed(req.deadline, s.mono) {
      PcKeeps(s, t, Returning(Defaults));
    } else {
      PcKeeps(s, t, Waiting(req, false));
    }
  }

  lemma PublishKeeps(s: State, t: nat)
    requires Inv(s) && Enabled(s, Publish(t))
    ensures Inv(Step(s, Publish(t)))
  {
    var s' := Step(s, Publish(t));
    assert Leads(s, t);
    forall u
      ensures !Leads(s', u) && !Asleep(s', u)
    {
      if u != t && u in s'.threads { assert Leads(s', u) == Leads(s, u); }
    }
  }

  /** Every step of every thread keeps the invariant. */
  lemma StepKeeps(s: State, a: Action)
    requires Inv(s) && Enabled(s, a)
    ensures Inv(Step(s, a))
  {
    match a
    case Look(t) => LookKeeps(s, t);
    case Publish(t) => PublishKeeps(s, t);
    case Call(t, _, _, _, _) => PcKeeps(s, t, Step(s, a).threads[t].pc);
    case Wake(t) => PcKeeps(s, t, Step(s, a).threads[t].pc);
    case Prepare(t, _) => PcKeeps(s, t, Step(s, a).threads[t].pc);
    case FetchDone(t, _) => PcKeeps(s, t, Step(s, a).threads[t].pc);
    case Fail(t) => PcKeeps(s, t, Step(s, a).threads[t].pc);
    case Return(t) => PcKeeps(s, t, Idle);
    case Reenter(t) => ReentryAnswersAtOnce(s, t);
    case SetOverride(t, _) =>
      var s' := Step(s, a);
      assert forall u :: Leads(s', u) == Leads(s, u);
      assert forall u :: Asleep(s', u) == Asleep(s, u);
    case Invalidate =>
      var s' := Step(s, a);
      assert forall u :: Leads(s', u) == Leads(s, u);
      assert forall u :: Asleep(s', u) == Asleep(s, u);
    case Tick(_, _) =>
      var s' := Step(s, a);
      assert forall u :: Leads(s', u) == Leads(s, u);
      assert forall u :: Asleep(s', u) == Asleep(s, u);
  }

  // ---------------------------------------------------------------- over whole runs

  /** A run: every state follows from the one before by an enabled step of some thread. */
  ghost predicate IsRun(run: seq<State>, steps: seq<Action>) {
    && |run| == |steps| + 1
    && Init(run[0])
    && forall i :: 0 <= i < |steps| ==> Enabled(run[i], steps[i]) && run[i + 1] == Step(run[i], steps[i])
  }

  lemma {:induction false} RunInv(run: seq<State>, steps: seq<Action>, n: nat)
    requires IsRun(run, steps) && n < |run|
    ensures Inv(run[n])
  {
    if n == 0 {
      InitInv(run[0]);
    } else {
      RunInv(run, steps, n - 1);
      StepKeeps(run[n - 1], steps[n - 1]);
    }
  }

  /** In every state of every run: at most one fetch is in flight, the flag is up exactly while a thread leads,
      and a call made back by the leader is answered at once. */
  lemma SingleFlight(run: seq<State>, steps: seq<Action>, n: nat)
    requires IsRun(run, steps) && n < |run|
    ensures forall t, u :: InFlight(run[n], t) && InFlight(run[n], u) ==> t == u
    ensures run[n].inProgress <==> exists t :: Leads(run[n], t)
    ensures forall t :: Leads(run[n], t) ==> EarlyAnswer(run[n].threads[t]).Some?
  {
    RunInv(run, steps, n);
  }

  /** A call the leader makes back into `get_settings` neither waits nor fetches: nothing changes. */
  lemma ReentryAnswersAtOnce(s: State, t: nat)
    requires Inv(s) && Enabled(s, Reenter(t))
    ensures EarlyAnswer(s.threads[t]).Some? && Step(s, Reenter(t)) == s
  {
  }

  predicate Busy(s: State, t: nat) { t in s.threads && !s.threads[t].pc.Idle? }

  /** The step that takes a busy thread further along its call. */
  function Onward(s: State, t: nat): Action
    requires Busy(s, t)
  {
    match s.threads[t].pc
    case Looping(_) => Look(t)
    case Waiting(_, _) => Wake(t)
    case Leading(_, Preparing) => Prepare(t, true)
    case Leading(_, Fetching) => FetchDone(t, None)
    case Leading(_, Publishing(_, _)) => Publish(t)
    case _ => Return(t)
  }

  /** No run gets stuck: while any thread is inside a call, some thread inside a call can go on. In
      particular no wake-up is ever lost. */
  lemma SomeThreadGoesOn(run: seq<State>, steps: seq<Action>, n: nat, busy: nat) returns (t: nat)
    requires IsRun(run, steps) && n < |run| && Busy(run[n], busy)
    ensures Busy(run[n], t) && Enabled(run[n], Onward(run[n], t))
  {
    RunInv(run, steps, n);
    var s := run[n];
    if Asleep(s, busy) {
      t :| Leads(s, t);
    } else {
      t := busy;
    }
  }

  /** A failed fetch of a caller that refuses the fallback leaves the cache as it was; any other published
      result becomes the cached one. */
  lemma PublishEffect(s: State, t: nat)
    requires Inv(s) && Enabled(s, Publish(t))
    ensures var stage, req, s' := s.threads[t].pc.stage, s.threads[t].pc.req, Step(s, Publish(t));
      && !s'.inProgress
      && (forall u :: u in s'.threads && s'.threads[u].pc.Waiting? ==> s'.threads[u].pc.notified)
      && (stage.settings.None? || (stage.fetched.None? && !req.cacheFallback) ==> s'.cache == s.cache)
      && (stage.settings.Some? && (stage.fetched.Some? || req.cacheFallback) ==>
            s'.cache == Some(Cached(stage.settings.value, s.wall)))
      && s'.generation == s.generation + if stage.settings.Some? then 1 else 0
  {
  }

  /** A stretch of some run: it starts in a reachable state. */
  ghost predicate IsStretch(run: seq<State>, steps: seq<Action>) {
    && |run| == |steps| + 1
    && Inv(run[0])
    && forall i :: 0 <= i < |steps| ==> Enabled(run[i], steps[i]) && run[i + 1] == Step(run[i], steps[i])
  }

  lemma {:induction false} StretchInv(run: seq<State>, steps: seq<Action>, n: nat)
    requires IsStretch(run, steps) && n < |run|
    ensures Inv(run[n])
  {
    if n > 0 {
      StretchInv(run, steps, n - 1);
      StepKeeps(run[n - 1], steps[n - 1]);
    }
  }

  /** Where a caller past its deadline can still be: looking once more, leading without fetching, or done. */
  predicate WindsUp(pc: Pc, req: Request) {
    match pc
    case Looping(r) => r == req
    case Leading(r, stage) => r == req && !stage.Fetching?
    case Returning(_) => true
    case Idle => true
    case _ => false
  }

  lemma WindsUpStep(s: State, a: Action, t: nat, req: Request)
    requires Inv(s) && Enabled(s, a) && t in s.threads && Passed(req.deadline, s.mono)
    requires WindsUp(s.threads[t].pc, req) && !(a.Call? && a.t == t)
    ensures var s' := Step(s, a); t in s'.threads && WindsUp(s'.threads[t].pc, req) && Passed(req.deadline, s'.mono)
  {
    if a.Reenter? { ReentryAnswersAtOnce(s, a.t); }
  }

  /** For the rest of its call, a caller whose deadline has passed never waits again and never fetches, whatever the
      other threads do. */
  lemma {:induction false} PastDeadline(run: seq<State>, steps: seq<Action>, n: nat, t: nat, req: Request)
    requires IsStretch(run, steps) && n < |run| && t in run[0].threads
    requires WindsUp(run[0].threads[t].pc, req) && Passed(req.deadline, run[0].mono)
    requires forall i :: 0 <= i < n ==> !(steps[i].Call? && steps[i].t == t)
    ensures t in run[n].threads && WindsUp(run[n].threads[t].pc, req) && Passed(req.deadline, run[n].mono)
  {
    if n > 0 {
      PastDeadline(run, steps, n - 1, t, req);
      StretchInv(run, steps, n - 1);
      WindsUpStep(run[n - 1], steps[n - 1], t, req);
    }
  }

  /** A waiter that has been woken, before it looks again: on its way with the leader's result in the cache. */
  predicate OnItsWay(s: State, u: nat, req: Request, cached: Cached) {
    && u in s.threads
    && (s.threads[u].pc == Waiting(req, true) || s.threads[u].pc == Looping(req))
    && s.cache == Some(cached)
  }

  lemma OnItsWayStep(s: State, a: Action, u: nat, req: Request, cached: Cached)
    requires Inv(s) && Enabled(s, a) && OnItsWay(s, u, req, cached)
    requires !a.Publish? && !a.Invalidate? && a != Look(u)
    ensures OnItsWay(Step(s, a), u, req, cached)
  {
    if a.Reenter? { ReentryAnswersAtOnce(s, a.t); }
  }

  lemma {:induction false} StaysOnItsWay(
    run: seq<State>, steps: seq<Action>, n: nat, u: nat, req: Request, cached: Cached)
    requires IsStretch(run, steps) && n < |run| && OnItsWay(run[0], u, req, cached)
    requires forall i :: 0 <= i < n ==> !steps[i].Publish? && !steps[i].Invalidate? && steps[i] != Look(u)
    ensures OnItsWay(run[n], u, req, cached)
  {
    if n > 0 {
      StaysOnItsWay(run, steps, n - 1, u, req, cached);
      StretchInv(run, steps, n - 1);
      OnItsWayStep(run[n - 1], steps[n - 1], u, req, cached);
    }
  }

  /** One fetch serves everybody: whatever happens between the leader's publishing and the moment a waiter that may
      use the cache looks again, short of another publishing, an invalidation or the end of the time to live, the
      waiter returns what the leader fetched and does not lead a fetch of its own. */
  lemma WaitersShareTheFetch(s: State, t: nat, u: nat, run: seq<State>, steps: seq<Action>)
    requires Inv(s) && Enabled(s, Publish(t)) && u in s.threads && s.threads[u].pc.Waiting?
    requires s.threads[u].pc.req.useCache
    requires s.threads[t].pc.stage.settings.Some? && s.threads[t].pc.stage.fetched.Some?
    requires IsStretch(run, steps) && run[0] == Step(s, Publish(t))
    requires forall i :: 0 <= i < |steps| ==> !steps[i].Publish? && !steps[i].Invalidate? && steps[i] != Look(u)
    requires var end := run[|steps|]; Enabled(end, Look(u)) && end.wall - s.wall < TTL
    ensures Step(run[|steps|], Look(u)).threads[u].pc == Returning(s.threads[t].pc.stage.settings.value)
  {
    var req, cached := s.threads[u].pc.req, Cached(s.threads[t].pc.stage.settings.value, s.wall);
    assert OnItsWay(run[0], u, req, cached);
    StaysOnItsWay(run, steps, |steps|, u, req, cached);
  }

  // ---------------------------------------------------------------- what a call returns

  /** A leader that has its result keeps it until it publishes. */
  lemma {:induction false} ResultWaits(run: seq<State>, steps: seq<Action>, n: nat, t: nat, pc: Pc)
    requires IsStretch(run, steps) && n < |run| && t in run[0].threads && run[0].threads[t].pc == pc
    requires pc.Leading? && pc.stage.Publishing?
    requires forall i :: 0 <= i < n ==> steps[i] != Publish(t)
    ensures t in run[n].threads && run[n].threads[t].pc == pc
  {
    if n > 0 {
      ResultWaits(run, steps, n - 1, t, pc);
      StretchInv(run, steps, n - 1);
      ResultWaitsStep(run[n - 1], steps[n - 1], t, pc);
    }
  }

  lemma {:induction false} ResultWaitsStep(s: State, a: Action, t: nat, pc: Pc)
    requires Inv(s) && Enabled(s, a) && t in s.threads && s.threads[t].pc == pc && a != Publish(t)
    requires pc.Leading? && pc.stage.Publishing?
    ensures t in Step(s, a).threads && Step(s, a).threads[t].pc == pc
  {
    if a.Publish? { assert Leads(s, t) && Leads(s, a.t); }
  }

  /** What a leader returns when it publishes, given the step that ended its work: what it fetched; the defaults if
      the fetch failed, the deadline had passed or there was no session; nothing, after an exception. */
  ghost predicate Yields(s: State, a: Action, t: nat, result: Option<Settings>) {
    && t in s.threads
    && match a
       case FetchDone(u, fetched) => u == t && result == Some(if fetched.Some? then fetched.value else Defaults)
       case Prepare(u, sessionOk) =>
         && u == t && s.threads[t].pc.Leading?
         && var req := s.threads[t].pc.req;
         && (Passed(req.deadline, s.mono) || !(req.hasSession || sessionOk))
         && result == Some(Defaults)
       case Fail(u) => u == t && result == None
       case _ => false
  }

  lemma {:induction false} TailIsStretch(run: seq<State>, steps: seq<Action>)
    requires IsStretch(run, steps) && steps != []
    ensures IsStretch(run[1..], steps[1..])
  {
    StretchInv(run, steps, 1);
  }

  /** Whatever the other threads do between the end of a leader's work and its publishing, the leader returns the
      result of its own work. */
  lemma {:induction false} LeaderGetsItsResult(
    run: seq<State>, steps: seq<Action>, t: nat, result: Option<Settings>)
    requires IsStretch(run, steps) && |steps| >= 2 && Yields(run[0], steps[0], t, result)
    requires steps[|steps| - 1] == Publish(t)
    requires forall i :: 0 < i < |steps| - 1 ==> steps[i] != Publish(t)
    ensures t in run[|steps|].threads
    ensures run[|steps|].threads[t].pc == if result.Some? then Returning(result.value) else Idle
  {
    var n := |steps| - 1;
    StretchInv(run, steps, 1);
    TailIsStretch(run, steps);
    assert run[1] == Step(run[0], steps[0]);
    var pc := run[1].threads[t].pc;
    assert pc.Leading? && pc.stage.Publishing? && pc.stage.settings == result;
    ResultWaits(run[1..], steps[1..], n - 1, t, pc);
    assert run[1..][n - 1] == run[n] && run[n + 1] == Step(run[n], steps[n]);
  }

  /** A call with an override returns the override at once; a call inside a fetch of its own thread the defaults; any
      other starts to look, with the deadline its timeout gives. */
  lemma {:induction false} CallAnswers(s: State, a: Action)
    requires a.Call? && Enabled(s, a)
    ensures var th, pc := s.threads[a.t], Step(s, a).threads[a.t].pc;
      && (th.override.Some? ==> pc == Returning(th.override.value))
      && (th.override.None? && th.depth > 0 ==> pc == Returning(Defaults))
      && (th.override.None? && th.depth == 0 ==>
           && pc.Looping? && pc.req.useCache == a.useCache && pc.req.cacheFallback == a.cacheFallback
           && pc.req.hasSession == a.hasSession && pc.req.deadline.Some? == a.timeout.Some?
           && (a.timeout.Some? && a.timeout.value > 0.0 ==> pc.req.deadline.value == s.mono + a.timeout.value)
           && (a.timeout.Some? && a.timeout.value <= 0.0 ==> pc.req.deadline.value == s.mono))
  {
  }

  /** A look answers with a fresh cached value, if the caller may use it; else leads when nobody does; else gives the
      defaults to a late caller and lets any other wait. */
  lemma {:induction false} LookAnswers(s: State, t: nat)
    requires Inv(s) && Enabled(s, Look(t))
    ensures var req, pc := s.threads[t].pc.req, Step(s, Look(t)).threads[t].pc;
      var cached := req.useCache && s.cache.Some? && s.wall - s.cache.value.at < 300.0;
      var late := req.deadline.Some? && s.mono >= req.deadline.value;
      && (cached ==> pc == Returning(s.cache.value.settings))
      && (!cached && !(exists u :: Leads(s, u)) ==> pc == Leading(req, Preparing))
      && (!cached && (exists u :: Leads(s, u)) && late ==> pc == Returning(Defaults))
      && (!cached && (exists u :: Leads(s, u)) && !late ==> pc == Waiting(req, false))
  {
  }

  /** A waiter can go on exactly when it has been notified or its deadline has come, and then looks again. */
  lemma {:induction false} WakesIff(s: State, t: nat)
    requires t in s.threads && s.threads[t].pc.Waiting?
    ensures var pc := s.threads[t].pc;
      Enabled(s, Wake(t)) <==> pc.notified || (pc.req.deadline.Some? && s.mono >= pc.req.deadline.value)
    ensures Enabled(s, Wake(t)) ==> Step(s, Wake(t)).threads[t].pc == Looping(s.threads[t].pc.req)
  {
  }

  /** A leader that has time and a session fetches. */
  lemma {:induction false} LeaderFetches(s: State, t: nat, sessionOk: bool)
    requires Enabled(s, Prepare(t, sessionOk))
    ensures var req := s.threads[t].pc.req;
      Step(s, Prepare(t, sessionOk)).threads[t].pc == Leading(req, Fetching) <==>
        (req.deadline.None? || s.mono < req.deadline.value) && (req.hasSession || sessionOk)
  {
  }

  // ---------------------------------------------------------------- where results come from

  predicate Fetches(a: Action, x: Settings) { a.FetchDone? && a.fetched == Some(x) }

  predicate Overrides(a: Action, t: nat, x: Settings) { a == SetOverride(t, Some(x)) }

  /** The defaults, or what some fetch of the run returned. */
  ghost predicate Genuine(steps: seq<Action>, x: Settings) {
    x == Defaults || exists i :: 0 <= i < |steps| && Fetches(steps[i], x)
  }

  ghost predicate OwnOverride(steps: seq<Action>, t: nat, x: Settings) {
    exists i :: 0 <= i < |steps| && Overrides(steps[i], t, x)
  }

  ghost predicate ThreadSourced(steps: seq<Action>, t: nat, th: Thread) {
    && (th.override.Some? ==> OwnOverride(steps, t, th.override.value))
    && (th.pc.Returning? ==> Genuine(steps, th.pc.result) || OwnOverride(steps, t, th.pc.result))
    && (th.pc.Leading? && th.pc.stage.Publishing? && th.pc.stage.settings.Some? ==>
          Genuine(steps, th.pc.stage.settings.value))
  }

  /** What is cached is genuine; what a call returns is genuine or an override its own thread has set. */
  ghost predicate Sourced(steps: seq<Action>, s: State) {
    && (s.cache.Some? ==> Genuine(steps, s.cache.value.settings))
    && forall t :: t in s.threads ==> ThreadSourced(steps, t, s.threads[t])
  }

  lemma LaterSourced(steps: seq<Action>, a: Action, s: State)
    requires Sourced(steps, s)
    ensures Sourced(steps + [a], s)
  {
    var longer := steps + [a];
    forall x | Genuine(steps, x) ensures Genuine(longer, x) {
      if x != Defaults {
        var i :| 0 <= i < |steps| && Fetches(steps[i], x);
        assert Fetches(longer[i], x);
      }
    }
    forall t, x | OwnOverride(steps, t, x) ensures OwnOverride(longer, t, x) {
      var i :| 0 <= i < |steps| && Overrides(steps[i], t, x);
      assert Overrides(longer[i], t, x);
    }
    forall t | t in s.threads ensures ThreadSourced(longer, t, s.threads[t]) {
      assert ThreadSourced(steps, t, s.threads[t]);
    }
  }

  lemma StepSourced(steps: seq<Action>, s: State, a: Action)
    requires Enabled(s, a) && Sourced(steps, s) && steps != [] && steps[|steps| - 1] == a
    ensures Sourced(steps, Step(s, a))
  {
    var s' := Step(s, a);
    if !a.Invalidate? && !a.Tick? { assert ThreadSourced(steps, a.t, s.threads[a.t]); }
    if a.FetchDone? && a.fetched.Some? { assert Fetches(steps[|steps| - 1], a.fetched.value); }
    if a.SetOverride? && a.override.Some? { assert Overrides(steps[|steps| - 1], a.t, a.override.value); }
    forall t | t in s'.threads ensures ThreadSourced(steps, t, s'.threads[t]) {
      assert ThreadSourced(steps, t, s.threads[t]);
    }
  }

  /** In every run: the cache only ever holds the defaults or something a fetch returned, so an override is seen by
      no thread but the one that set it. */
  lemma {:induction false} ResultsHaveASource(run: seq<State>, steps: seq<Action>, n: nat)
    requires IsRun(run, steps) && n < |run|
    ensures Sourced(steps[..n], run[n])
  {
    if n > 0 {
      ResultsHaveASource(run, steps, n - 1);
      LaterSourced(steps[..n - 1], steps[n - 1], run[n - 1]);
      assert steps[..n - 1] + [steps[n - 1]] == steps[..n];
      StepSourced(steps[..n], run[n - 1], steps[n - 1]);
    }
  }
}
