/** Applying a Ceph plan: completed plans are replayed, unsafe plans are refused, and the operations are tried in
    plan order up to the first failure. */
module CephApply {
  import opened Wrappers
  import opened CephPlan

  datatype Status = Completed | Failed | Blocked

  /** A persisted run of a plan. */
  datatype Run = Run(planId: string, status: Status, applied: nat)

  datatype Outcome = Replayed(run: Run) | Refused(httpStatus: int, reason: string) | Ran(run: Run)

  datatype Confirmation = Confirmation(flag: bool, token: string)

  predicate Confirmed(plan: Plan, c: Confirmation) {
    || c.flag
    || c.token == plan.id
    || c.token == "confirm:" + plan.id
    || c.token == "confirm-destructive:" + plan.id
  }

  /** The provider: whether it accepts the operation at a place of the plan. */
  type Provider = nat -> bool

  function CompletedRun(runs: seq<Run>, planId: string): Option<Run> {
    if runs == [] then None
    else
      var last := runs[|runs| - 1];
      if last.planId == planId && last.status.Completed? then Some(last) else CompletedRun(runs[..|runs| - 1], planId)
  }

  predicate AllSupported(plan: Plan) { forall i :: 0 <= i < |plan.operations| ==> plan.operations[i].supported }

  predicate AnyDestructive(plan: Plan) { exists i :: 0 <= i < |plan.operations| && plan.operations[i].destructive }

  /** Why a plan may not run, if it may not: the status of the recorded run and the HTTP answer. */
  function Gate(plan: Plan, c: Confirmation): Option<(Status, int, string)> {
    if plan.errors != [] then Some((Failed, 422, "plan_validation_failed"))
    else if !AllSupported(plan) then Some((Blocked, 409, "plan_has_blocked_operations"))
    else if AnyDestructive(plan) && !Confirmed(plan, c) then Some((Failed, 409, "destructive_confirmation_required"))
    else None
  }

  /** How many operations succeed before the first failure, from place `i` on. */
  function Successes(provider: Provider, n: nat, i: nat): (r: nat)
    requires i <= n
    ensures i + r <= n
    ensures forall k :: i <= k < i + r ==> provider(k)
    ensures i + r < n ==> !provider(i + r)
    decreases n - i
  {
    if i < n && provider(i) then 1 + Successes(provider, n, i + 1) else 0
  }

  /** What an apply call does: its outcome, the runs stored after it, and the operations sent to the provider. */
  datatype Effect = Effect(outcome: Outcome, runs: seq<Run>, calls: seq<Operation>)

  function Apply(runs: seq<Run>, plan: Plan, c: Confirmation, provider: Provider): Effect {
    var earlier := CompletedRun(runs, plan.id);
    if earlier.Some? then Effect(Replayed(earlier.value), runs, []) else
    var gate := Gate(plan, c);
    if gate.Some? then
      Effect(Refused(gate.value.1, gate.value.2), runs + [Run(plan.id, gate.value.0, 0)], [])
    else
      var n := |plan.operations|;
      var done := Successes(provider, n, 0);
      var run := Run(plan.id, if done == n then Completed else Failed, done);
      Effect(Ran(run), runs + [run], plan.operations[..if done < n then done + 1 else n])
  }

  /** The engine's persisted runs and a log of everything sent to providers. */
  class Engine {
    var runs: seq<Run>
    var calls: seq<Operation>

    constructor ()
      ensures runs == [] && calls == []
    {
      runs, calls := [], [];
    }

    /** The provider loop: it stops at the first failure. */
    method Send(operations: seq<Operation>, provider: Provider) returns (i: nat, failed: bool)
      modifies this`calls
      ensures i == Successes(provider, |operations|, 0) && (failed <==> i < |operations|)
      ensures calls == old(calls) + operations[..if failed then i + 1 else i]
    {
      i, failed := 0, false;
      while i < |operations| && !failed
        invariant 0 <= i <= |operations|
        invariant Successes(provider, |operations|, 0) == i + Successes(provider, |operations|, i)
        invariant failed ==> i < |operations| && !provider(i)
        invariant calls == old(calls) + operations[..if failed then i + 1 else i]
        decreases |operations| - i, !failed
      {
        calls := calls + [operations[i]];
        if provider(i) { i := i + 1; } else { failed := true; }
      }
    }

    method ApplyPlan(plan: Plan, c: Confirmation, provider: Provider) returns (outcome: Outcome)
      modifies this
      ensures var e := Apply(old(runs), plan, c, provider);
        outcome == e.outcome && runs == e.runs && calls == old(calls) + e.calls
    {
      var earlier := CompletedRun(runs, plan.id);
      if earlier.Some? { return Replayed(earlier.value); }
      var gate := Gate(plan, c);
      if gate.Some? {
        runs := runs + [Run(plan.id, gate.value.0, 0)];
        return Refused(gate.value.1, gate.value.2);
      }
      var i, failed := Send(plan.operations, provider);
      var run := Run(plan.id, if failed then Failed else Completed, i);
      runs := runs + [run];
      return Ran(run);
    }
  }

  // ---------------------------------------------------------------- safety of one call

  /** Nothing reaches the provider unless the plan has no validation error, no blocked operation, a confirmation
      if it destroys anything, and no completed run. */
  lemma {:induction false} NothingUnsafeIsSent(runs: seq<Run>, plan: Plan, c: Confirmation, provider: Provider)
    ensures var e := Apply(runs, plan, c, provider);
      e.calls != [] ==>
        && plan.errors == []
        && AllSupported(plan)
        && (Confirmed(plan, c) || forall i :: 0 <= i < |plan.operations| ==> !plan.operations[i].destructive)
        && CompletedRun(runs, plan.id).None?
  {
  }

  /** A plan runs exactly when it has no validation error, every operation is supported, a confirmation covers any
      destructive one, and it has not completed before. A refused one is recorded with nothing applied, and its
      status, its HTTP answer and its reason tell the first thing that stood in its way. */
  lemma {:induction false} RunsIffSafe(runs: seq<Run>, plan: Plan, c: Confirmation, provider: Provider)
    ensures var e, ops := Apply(runs, plan, c, provider), plan.operations;
      var supported := forall i :: 0 <= i < |ops| ==> ops[i].supported;
      var harmless := forall i :: 0 <= i < |ops| ==> !ops[i].destructive;
      var safe := plan.errors == [] && supported && (harmless || Confirmed(plan, c));
      && (e.outcome.Replayed? <==> CompletedRun(runs, plan.id).Some?)
      && (e.outcome.Ran? <==> CompletedRun(runs, plan.id).None? && safe)
      && (e.outcome.Refused? ==>
           && e.calls == [] && |e.runs| == |runs| + 1 && e.runs[..|runs|] == runs
           && var run := e.runs[|runs|];
           && run.planId == plan.id && run.applied == 0
           && (plan.errors != [] ==> run.status == Failed && e.outcome == Refused(422, "plan_validation_failed"))
           && (plan.errors == [] && !supported ==>
                 run.status == Blocked && e.outcome == Refused(409, "plan_has_blocked_operations"))
           && (plan.errors == [] && supported ==>
                 run.status == Failed && e.outcome == Refused(409, "destructive_confirmation_required")))
  {
  }

  /** The run that is replayed is the latest completed one of that very plan. */
  lemma {:induction false} CompletedRunIs(runs: seq<Run>, planId: string)
    ensures CompletedRun(runs, planId).None? <==>
      forall i :: 0 <= i < |runs| ==> !(runs[i].planId == planId && runs[i].status == Completed)
    ensures CompletedRun(runs, planId).Some? ==>
      exists i ::
        && 0 <= i < |runs| && runs[i] == CompletedRun(runs, planId).value
        && runs[i].planId == planId && runs[i].status == Completed
        && forall j :: i < j < |runs| ==> !(runs[j].planId == planId && runs[j].status == Completed)
  {
    if runs != [] {
      var n := |runs| - 1;
      CompletedRunIs(runs[..n], planId);
      if runs[n].planId == planId && runs[n].status == Completed {
        assert runs[n] == CompletedRun(runs, planId).value;
      }
    }
  }

  /** What is sent is a prefix of the plan in which every operation but the last succeeded; the run is completed
      exactly when every operation was sent and succeeded. */
  lemma SentInOrder(runs: seq<Run>, plan: Plan, c: Confirmation, provider: Provider)
    ensures var e := Apply(runs, plan, c, provider);
      && e.calls <= plan.operations
      && (forall i :: 0 <= i < |e.calls| - 1 ==> provider(i))
      && (e.outcome.Ran? ==>
           && (e.outcome.run.status.Completed? <==> forall i :: 0 <= i < |plan.operations| ==> provider(i))
           && (e.outcome.run.status.Completed? ==> e.calls == plan.operations)
           && e.outcome.run.applied <= |e.calls| <= e.outcome.run.applied + 1)
  {
    var done := Successes(provider, |plan.operations|, 0);
  }

  /** A deletion is sent only after every operation of the plan that is not a deletion has succeeded. */
  lemma DeletionsWait(runs: seq<Run>, plan: Plan, c: Confirmation, provider: Provider, i: nat, j: nat)
    requires WellBuilt(plan) && i < |plan.operations| && !DeleteLike(plan.operations[i])
    requires j < |Apply(runs, plan, c, provider).calls| && DeleteLike(Apply(runs, plan, c, provider).calls[j])
    ensures i < j && provider(i) && Confirmed(plan, c)
  {
    SentInOrder(runs, plan, c, provider);
    DeletionsLast(plan.operations, i, j);
    NothingUnsafeIsSent(runs, plan, c, provider);
    assert plan.operations[j].destructive;
  }

  // ---------------------------------------------------------------- confirmations

  /** The tokens that confirm a plan. */
  function TokensFor(planId: string): set<string> {
    {planId, "confirm:" + planId, "confirm-destructive:" + planId}
  }

  /** Without the flag, nothing is sent for a plan that destroys anything unless the token is one of that plan's
      own. */
  lemma {:induction false} ForeignTokenSendsNothing(runs: seq<Run>, plan: Plan, c: Confirmation, provider: Provider)
    requires AnyDestructive(plan) && !c.flag && c.token !in TokensFor(plan.id)
    ensures Apply(runs, plan, c, provider).calls == [] && !Apply(runs, plan, c, provider).outcome.Ran?
  {
  }

  /** An empty token is never one of a plan that has an id. */
  lemma {:induction false} EmptyTokenIsForeign(planId: string)
    requires planId != ""
    ensures "" !in TokensFor(planId)
  {
    assert |"confirm:" + planId| > 0 && |"confirm-destructive:" + planId| > 0;
  }

  /** The flag, or any of the three tokens, lets a safe plan run that has not completed before. */
  lemma {:induction false} OwnTokenRuns(runs: seq<Run>, plan: Plan, c: Confirmation, provider: Provider)
    requires c.flag || c.token in TokensFor(plan.id)
    requires plan.errors == [] && AllSupported(plan) && CompletedRun(runs, plan.id).None?
    ensures Apply(runs, plan, c, provider).outcome.Ran?
    ensures plan.operations != [] ==> Apply(runs, plan, c, provider).calls != []
  {
  }

  /** A token is good for one plan: no two plans with different ids of the same length are confirmed by the same
      token. */
  lemma {:induction false} TokensAreApart(a: string, b: string, token: string)
    requires |a| == |b| && token in TokensFor(a) && token in TokensFor(b)
    ensures a == b
  {
    var short, long := "confirm:", "confirm-destructive:";
    assert |short| == 8 && |long| == 20;
    if token == short + a { assert token[8..] == a && token[8..] == b; }
    if token == long + a { assert token[20..] == a && token[20..] == b; }
  }

  /** So, with the flag off, a token under which one plan's destruction was sent sends nothing for another. */
  lemma {:induction false} TokenDestroysOnce(
    runs: seq<Run>, a: Plan, b: Plan, c: Confirmation, provider: Provider, later: seq<Run>, other: Provider)
    requires !c.flag && AnyDestructive(a) && AnyDestructive(b) && a.id != b.id && |a.id| == |b.id|
    requires Apply(runs, a, c, provider).calls != []
    ensures Apply(later, b, c, other).calls == []
  {
    if c.token in TokensFor(b.id) {
      if c.token in TokensFor(a.id) {
        TokensAreApart(a.id, b.id, c.token);
      } else {
        ForeignTokenSendsNothing(runs, a, c, provider);
      }
      assert false;
    }
    ForeignTokenSendsNothing(later, b, c, other);
  }

  // ---------------------------------------------------------------- sequences of calls

  datatype Request = Request(plan: Plan, confirmation: Confirmation, provider: Provider)

  function NextRuns(): (seq<Run>, Request) -> seq<Run> {
    (runs: seq<Run>, r: Request) => Apply(runs, r.plan, r.confirmation, r.provider).runs
  }

  /** The runs after the first `n` requests, one after the other. */
  function RunsBy(next: (seq<Run>, Request) -> seq<Run>, requests: seq<Request>, n: nat): seq<Run>
    requires n <= |requests|
  {
    if n == 0 then [] else next(RunsBy(next, requests, n - 1), requests[n - 1])
  }

  function RunsAfter(requests: seq<Request>, n: nat): seq<Run>
    requires n <= |requests|
  {
    RunsBy(NextRuns(), requests, n)
  }

  function EffectOf(requests: seq<Request>, n: nat): Effect
    requires n < |requests|
  {
    Apply(RunsAfter(requests, n), requests[n].plan, requests[n].confirmation, requests[n].provider)
  }

  lemma {:induction false} CompletedStays(runs: seq<Run>, run: Run, planId: string)
    ensures CompletedRun(runs, planId).Some? ==> CompletedRun(runs + [run], planId).Some?
    ensures run.planId == planId && run.status.Completed? ==> CompletedRun(runs + [run], planId) == Some(run)
  {
    assert (runs + [run])[..|runs|] == runs;
  }

  /** Runs are only ever added. */
  lemma {:induction false} ApplyAdds(runs: seq<Run>, plan: Plan, c: Confirmation, provider: Provider)
    ensures runs <= Apply(runs, plan, c, provider).runs
  {
  }

  lemma {:induction false} CompletedLasts(
    next: (seq<Run>, Request) -> seq<Run>, requests: seq<Request>, planId: string, i: nat, j: nat)
    requires forall runs: seq<Run>, r: Request :: runs <= next(runs, r)
    requires i <= j <= |requests| && CompletedRun(RunsBy(next, requests, i), planId).Some?
    ensures CompletedRun(RunsBy(next, requests, j), planId).Some?
    decreases j - i
  {
    if i < j {
      CompletedRunIs(RunsBy(next, requests, i), planId);
      CompletedRunIs(RunsBy(next, requests, i + 1), planId);
      assert RunsBy(next, requests, i) <= RunsBy(next, requests, i + 1);
      CompletedLasts(next, requests, planId, i + 1, j);
    }
  }

  lemma {:induction false} CompletedForEver(requests: seq<Request>, planId: string, i: nat, j: nat)
    requires i <= j <= |requests| && CompletedRun(RunsAfter(requests, i), planId).Some?
    ensures CompletedRun(RunsAfter(requests, j), planId).Some?
  {
    var next := NextRuns();
    forall runs: seq<Run>, r: Request ensures runs <= next(runs, r) {
      ApplyAdds(runs, r.plan, r.confirmation, r.provider);
    }
    CompletedLasts(next, requests, planId, i, j);
  }

  /** Over any sequence of apply calls, made one after the other: once a plan has completed, it is only replayed,
      and nothing more is ever sent to the provider for it. */
  lemma CompletedIsReplayed(requests: seq<Request>, i: nat, j: nat)
    requires i < j < |requests| && requests[i].plan.id == requests[j].plan.id
    requires EffectOf(requests, i).outcome.Ran? && EffectOf(requests, i).outcome.run.status.Completed?
    ensures EffectOf(requests, j).outcome.Replayed? && EffectOf(requests, j).calls == []
    ensures RunsAfter(requests, j + 1) == RunsAfter(requests, j)
  {
    CompletedStays(RunsAfter(requests, i), EffectOf(requests, i).outcome.run, requests[i].plan.id);
    CompletedForEver(requests, requests[i].plan.id, i + 1, j);
  }

  // ---------------------------------------------------------------- the plan store

  const STORE_LIMIT := 512

  datatype Store = Store(plans: map<string, Plan>, order: seq<string>)

  function Trimmed(s: Store): Store
    decreases |s.order|
  {
    if |s.order| > STORE_LIMIT then Trimmed(Store(s.plans - {s.order[0]}, s.order[1..])) else s
  }

  /** The plan under an id; an unknown id is an error to the caller. */
  function Retrieved(s: Store, planId: string): Option<Plan> {
    if planId in s.plans then Some(s.plans[planId]) else None
  }

  function Remembered(s: Store, plan: Plan): Store {
    Trimmed(Store(s.plans[plan.id := plan], s.order + [plan.id]))
  }

  /** The in-process plan store. */
  class PlanStore {
    var plans: map<string, Plan>
    var order: seq<string>

    function View(): Store
      reads this
    {
      Store(plans, order)
    }

    constructor ()
      ensures View() == Store(map[], [])
    {
      plans, order := map[], [];
    }

    method Remember(plan: Plan)
      modifies this
      ensures View() == Remembered(old(View()), plan)
    {
      plans := plans[plan.id := plan];
      order := order + [plan.id];
      while |order| > STORE_LIMIT
        invariant Trimmed(View()) == Remembered(old(View()), plan)
        decreases |order|
      {
        var oldest := order[0];
        order := order[1..];
        plans := plans - {oldest};
      }
    }

    method Get(planId: string) returns (plan: Option<Plan>)
      ensures plan == Retrieved(View(), planId)
    {
      plan := if planId in plans then Some(plans[planId]) else None;
    }
  }

  ghost predicate StoreOk(s: Store) {
    |s.order| <= STORE_LIMIT && forall id :: id in s.plans ==> id in s.order
  }

  lemma {:induction false} TrimmedIsOk(s: Store)
    requires forall id :: id in s.plans ==> id in s.order
    ensures StoreOk(Trimmed(s))
    decreases |s.order|
  {
    if |s.order| > STORE_LIMIT {
      assert forall id :: id in s.order ==> id == s.order[0] || id in s.order[1..];
      TrimmedIsOk(Store(s.plans - {s.order[0]}, s.order[1..]));
    }
  }

  /** Whatever is remembered, the order list stays within its limit and lists every stored plan. */
  lemma RememberKeepsOk(s: Store, plan: Plan)
    requires StoreOk(s)
    ensures StoreOk(Remembered(s, plan))
  {
    TrimmedIsOk(Store(s.plans[plan.id := plan], s.order + [plan.id]));
  }

  /** What is remembered can be retrieved, exactly unless the list is full and the plan's own id stands at its front:
      then trimming the list takes the plan away again. */
  lemma RememberedIsFoundIff(s: Store, plan: Plan)
    requires |s.order| <= STORE_LIMIT
    ensures var found := Retrieved(Remembered(s, plan), plan.id);
      && (found == Some(plan) <==> !(|s.order| == STORE_LIMIT && s.order[0] == plan.id))
      && (found == Some(plan) || found == None)
  {
    if |s.order| < STORE_LIMIT { RememberWithRoom(s, plan); } else { RememberWhenFull(s, plan); }
  }

  /** Remembering a plan never changes what is retrieved under another id, but for the one at the front of a full
      list, which is forgotten. */
  lemma OthersStayRemembered(s: Store, plan: Plan, id: string)
    requires |s.order| <= STORE_LIMIT && id != plan.id
    ensures Retrieved(Remembered(s, plan), id) ==
      if |s.order| == STORE_LIMIT && s.order[0] == id then None else Retrieved(s, id)
  {
    if |s.order| < STORE_LIMIT { RememberWithRoom(s, plan); } else { RememberWhenFull(s, plan); }
  }

  /** Plans remembered once each. */
  function RememberOnce(plans: seq<Plan>): Store {
    if plans == [] then Store(map[], []) else Remembered(RememberOnce(plans[..|plans| - 1]), plans[|plans| - 1])
  }

  lemma {:induction false} RememberedOnce(plans: seq<Plan>)
    requires |plans| <= STORE_LIMIT
    ensures RememberOnce(plans).order == seq(|plans|, i requires 0 <= i < |plans| => plans[i].id)
  {
    if plans != [] {
      RememberedOnce(plans[..|plans| - 1]);
      RememberWithRoom(RememberOnce(plans[..|plans| - 1]), plans[|plans| - 1]);
    }
  }

  /** Any 512 plans remembered once each, and then the first of them again: the first can no longer be retrieved. */
  lemma {:induction false} RememberedAgainIsLost(plans: seq<Plan>)
    requires |plans| == STORE_LIMIT
    ensures Retrieved(Remembered(RememberOnce(plans), plans[0]), plans[0].id) == None
  {
    RememberedOnce(plans);
    RememberedIsFoundIff(RememberOnce(plans), plans[0]);
  }

  /** A route builds a plan, which remembers it, and then remembers it again. */
  function RememberAll(plans: seq<Plan>): Store {
    if plans == [] then Store(map[], []) else
    var last := plans[|plans| - 1];
    Remembered(Remembered(RememberAll(plans[..|plans| - 1]), last), last)
  }

  function Doubled(plans: seq<Plan>): (r: seq<string>)
    ensures |r| == 2 * |plans|
  {
    if plans == [] then [] else Doubled(plans[..|plans| - 1]) + [plans[|plans| - 1].id, plans[|plans| - 1].id]
  }

  function Latest(plans: seq<Plan>): (r: seq<Plan>)
    ensures |r| == if |plans| < 256 then |plans| else 256
  {
    if |plans| <= 256 then plans else plans[|plans| - 256..]
  }

  ghost predicate FreshIds(plans: seq<Plan>) { forall i, j :: 0 <= i < j < |plans| ==> plans[i].id != plans[j].id }

  /** The plans by id, later ones winning. */
  function ById(plans: seq<Plan>): map<string, Plan> {
    if plans == [] then map[] else ById(plans[..|plans| - 1])[plans[|plans| - 1].id := plans[|plans| - 1]]
  }

  lemma {:induction false} ByIdHolds(plans: seq<Plan>)
    requires FreshIds(plans)
    ensures forall i :: 0 <= i < |plans| ==> plans[i].id in ById(plans) && ById(plans)[plans[i].id] == plans[i]
    ensures forall id :: id in ById(plans) ==> exists i :: 0 <= i < |plans| && plans[i].id == id
  {
    if plans != [] { ByIdHolds(plans[..|plans| - 1]); }
  }

  lemma {:induction false} ByIdDrop(plans: seq<Plan>)
    requires FreshIds(plans) && plans != []
    ensures ById(plans) - {plans[0].id} == ById(plans[1..])
  {
    var n := |plans| - 1;
    if n > 0 {
      ByIdDrop(plans[..n]);
      assert plans[..n][1..] == plans[1..][..n - 1];
      assert plans[0].id != plans[n].id;
    }
  }

  lemma {:induction false} DoubledDrop(plans: seq<Plan>)
    requires plans != []
    ensures Doubled(plans)[0] == plans[0].id && Doubled(plans)[1] == plans[0].id
    ensures Doubled(plans)[2..] == Doubled(plans[1..])
  {
    var n := |plans| - 1;
    if n > 0 {
      DoubledDrop(plans[..n]);
      assert plans[..n][1..] == plans[1..][..n - 1];
    }
  }

  function Twice(plans: seq<Plan>): Store { Store(ById(plans), Doubled(plans)) }

  lemma RememberWithRoom(s: Store, plan: Plan)
    requires |s.order| < STORE_LIMIT
    ensures Remembered(s, plan) == Store(s.plans[plan.id := plan], s.order + [plan.id])
  {
  }

  lemma RememberWhenFull(s: Store, plan: Plan)
    requires |s.order| == STORE_LIMIT
    ensures Remembered(s, plan) == Store(s.plans[plan.id := plan] - {s.order[0]}, s.order[1..] + [plan.id])
  {
    var long := s.order + [plan.id];
    assert long[0] == s.order[0] && long[1..] == s.order[1..] + [plan.id];
    var popped := Store(s.plans[plan.id := plan] - {s.order[0]}, s.order[1..] + [plan.id]);
    assert Trimmed(popped) == popped;
  }

  /** With room left, remembering twice appends the plan. */
  lemma TwiceGrows(plans: seq<Plan>, plan: Plan)
    requires |plans| < 256
    ensures Remembered(Remembered(Twice(plans), plan), plan) == Twice(plans + [plan])
  {
    RememberWithRoom(Twice(plans), plan);
    RememberWithRoom(Remembered(Twice(plans), plan), plan);
    assert (plans + [plan])[..|plans|] == plans;
    assert Doubled(plans + [plan]) == Doubled(plans) + [plan.id] + [plan.id];
  }

  /** With a full list, remembering twice pushes the oldest plan out. */
  lemma TwiceShifts(plans: seq<Plan>, plan: Plan)
    requires |plans| == 256 && FreshIds(plans + [plan])
    ensures Remembered(Remembered(Twice(plans), plan), plan) == Twice(plans[1..] + [plan])
  {
    var oldest, doubled, all := plans[0].id, Doubled(plans), plans + [plan];
    assert all[..256] == plans && all[1..] == plans[1..] + [plan] && all[0].id != all[256].id;
    DoubledDrop(plans);
    var once := Remembered(Twice(plans), plan);
    RememberWhenFull(Twice(plans), plan);
    RememberWhenFull(once, plan);
    assert once.order[0] == oldest && once.order[1..] == doubled[2..] + [plan.id];
    ByIdDrop(all);
    assert once.plans[plan.id := plan] - {oldest} == ById(all) - {oldest};
    assert (plans[1..] + [plan])[..255] == plans[1..];
    assert Doubled(plans[1..] + [plan]) == Doubled(plans[1..]) + [plan.id] + [plan.id];
  }

  /** The last 256 plans after one more: the new one, and of the old ones all or all but the oldest. */
  lemma LatestStep(plans: seq<Plan>)
    requires plans != []
    ensures var n := |plans| - 1; var held := Latest(plans[..n]);
      && Latest(plans) == (if n < 256 then held else held[1..]) + [plans[n]]
      && (FreshIds(plans) ==> FreshIds(held + [plans[n]]))
  {
    var n := |plans| - 1;
    var held := Latest(plans[..n]);
    var skip := n - |held|;
    assert held + [plans[n]] == plans[skip..];
  }

  lemma {:induction false} RememberedAre(plans: seq<Plan>)
    requires FreshIds(plans)
    ensures RememberAll(plans) == Twice(Latest(plans))
  {
    if plans != [] {
      var n := |plans| - 1;
      RememberedAre(plans[..n]);
      LatestStep(plans);
      if n < 256 {
        TwiceGrows(Latest(plans[..n]), plans[n]);
      } else {
        TwiceShifts(Latest(plans[..n]), plans[n]);
      }
    }
  }

  /** Since each fresh plan is remembered twice in a row, exactly the 256 most recent plans can be retrieved. */
  lemma {:induction false} LatestAreRetrievable(plans: seq<Plan>)
    requires FreshIds(plans)
    ensures var s, latest := RememberAll(plans), Latest(plans);
      && latest == plans[|plans| - |latest|..] && |latest| == (if |plans| < 256 then |plans| else 256)
      && (forall i :: 0 <= i < |latest| ==> Retrieved(s, latest[i].id) == Some(latest[i]))
      && (forall id :: Retrieved(s, id).Some? ==> exists i :: 0 <= i < |latest| && latest[i].id == id)
  {
    RememberedAre(plans);
    ByIdHolds(Latest(plans));
  }
}
