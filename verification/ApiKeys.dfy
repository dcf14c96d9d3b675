/** The API key table under concurrent workers: one-time bootstrap, key creation, activation, and retirement
    under an exclusive write transaction. A step is one read or one atomic commit. */
module ApiKeys {
  import opened Wrappers

  /** The key rows by id (true for active) and the permanent bootstrap claim. */
  datatype Db = Db(keys: map<nat, bool>, claim: bool, nextId: nat)

  datatype Retirement = Delete | Deactivate

  /** Where a request is. `Holding` and `Staged` are inside BEGIN IMMEDIATE. */
  datatype Job =
    | Idle
    | MayBootstrap
    | MayCreate
    | MayActivate(id: nat, wasActive: bool)
    | Holding(id: nat, how: Retirement)
    | Staged(id: nat, how: Retirement)

  datatype State = State(db: Db, workers: map<nat, Job>, writer: Option<nat>, bootstraps: nat)

  datatype Action =
    | CheckBootstrap(w: nat, keyLength: nat)
    | CommitBootstrap(w: nat)
    | Authenticate(w: nat)
    | CommitCreate(w: nat)
    | ReadForActivate(w: nat, id: nat)
    | CommitActivate(w: nat)
    | BeginImmediate(w: nat, id: nat, how: Retirement)
    | Decide(w: nat)
    | CommitRetirement(w: nat)
    | Abort(w: nat)

  function ActiveIds(keys: map<nat, bool>): set<nat> { set id | id in keys && keys[id] }

  function ActiveCount(keys: map<nat, bool>): nat { |ActiveIds(keys)| }

  predicate Claimed(db: Db) { db.claim || db.keys != map[] }

  // ---------------------------------------------------------------- the steps

  predicate InTransaction(job: Job) { job.Holding? || job.Staged? }

  /** A commit, like BEGIN IMMEDIATE, waits for the writer to finish. */
  predicate AtPoint(s: State, job: Job, a: Action) {
    match a
    case CheckBootstrap(_, _) => job.Idle?
    case CommitBootstrap(_) => job.MayBootstrap? && s.writer.None?
    case Authenticate(_) => job.Idle? && ActiveCount(s.db.keys) > 0
    case CommitCreate(_) => job.MayCreate? && s.writer.None?
    case ReadForActivate(_, _) => job.Idle?
    case CommitActivate(_) => job.MayActivate? && s.writer.None?
    case BeginImmediate(_, _, _) => job.Idle? && s.writer.None?
    case Decide(_) => job.Holding?
    case CommitRetirement(_) => job.Staged?
    case Abort(_) => !job.Idle?
  }

  predicate Enabled(s: State, a: Action) { a.w in s.workers && AtPoint(s, s.workers[a.w], a) }

  function WithJob(s: State, w: nat, job: Job): State { s.(workers := s.workers[w := job]) }

  function AddKey(db: Db): Db { Db(db.keys[db.nextId := true], db.claim, db.nextId + 1) }

  /** The claim and the first key share one transaction: the claim's primary key lets it happen once. */
  function Bootstrap(db: Db): Option<Db> { if db.claim then None else Some(AddKey(db.(claim := true))) }

  function Activate(db: Db, id: nat, wasActive: bool): Db {
    if wasActive || id !in db.keys then db else db.(keys := db.keys[id := true])
  }

  /** Retiring the last active key is refused; a missing key is not found. */
  predicate MayRetire(db: Db, id: nat) { id in db.keys && !(db.keys[id] && ActiveCount(db.keys) <= 1) }

  function Retire(db: Db, id: nat, how: Retirement): Db {
    if how.Delete? then db.(keys := db.keys - {id})
    else if id in db.keys then db.(keys := db.keys[id := false]) else db
  }

  function Step(s: State, a: Action): State
    requires Enabled(s, a)
  {
    var job := s.workers[a.w];
    match a
    case CheckBootstrap(w, keyLength) =>
      if keyLength < 32 || Claimed(s.db) then s else WithJob(s, w, MayBootstrap)
    case CommitBootstrap(w) =>
      var done := Bootstrap(s.db);
      if done.None? then WithJob(s, w, Idle)
      else WithJob(s, w, Idle).(db := done.value, bootstraps := s.bootstraps + 1)
    case Authenticate(w) => WithJob(s, w, MayCreate)
    case CommitCreate(w) => WithJob(s, w, Idle).(db := AddKey(s.db))
    case ReadForActivate(w, id) =>
      if id in s.db.keys then WithJob(s, w, MayActivate(id, s.db.keys[id])) else s
    case CommitActivate(w) => WithJob(s, w, Idle).(db := Activate(s.db, job.id, job.wasActive))
    case BeginImmediate(w, id, how) => WithJob(s, w, Holding(id, how)).(writer := Some(w))
    case Decide(w) =>
      if MayRetire(s.db, job.id) then WithJob(s, w, Staged(job.id, job.how))
      else WithJob(s, w, Idle).(writer := None)
    case CommitRetirement(w) => WithJob(s, w, Idle).(db := Retire(s.db, job.id, job.how), writer := None)
    case Abort(w) => WithJob(s, w, Idle).(writer := if InTransaction(job) then None else s.writer)
  }

  // ---------------------------------------------------------------- the invariant

  /** Any key row implies the claim, and a bootstrap that succeeded left it. */
  ghost predicate TableInv(s: State) {
    && (s.db.keys != map[] ==> s.db.claim)
    && s.bootstraps <= 1 && (s.bootstraps == 1 ==> s.db.claim)
    && (forall id :: id in s.db.keys ==> id < s.db.nextId)
  }

  /** Only the writer is in a transaction; a staged retirement is still allowed; whoever was let in as an
      authenticated caller found a claimed table. */
  ghost predicate JobInv(s: State, w: nat)
    requires w in s.workers
  {
    var job := s.workers[w];
    && (InTransaction(job) ==> s.writer == Some(w))
    && (job.Staged? ==> MayRetire(s.db, job.id))
    && (job.MayCreate? ==> s.db.claim)
  }

  ghost predicate Inv(s: State) {
    TableInv(s) && forall w :: w in s.workers ==> JobInv(s, w)
  }

  /** Startup: the migration closes bootstrap for every table that ever held a key. */
  function Migrate(db: Db): Db { db.(claim := Claimed(db)) }

  ghost predicate Init(legacy: Db, s: State) {
    && s.db == Migrate(legacy) && (forall id :: id in legacy.keys ==> id < legacy.nextId)
    && (forall w :: w in s.workers ==> s.workers[w].Idle?)
    && s.writer.None? && s.bootstraps == 0
  }

  lemma ActiveAfterAdd(db: Db)
    requires db.nextId !in db.keys
    ensures ActiveIds(AddKey(db).keys) == ActiveIds(db.keys) + {db.nextId}
  {
  }

  lemma ActiveAfterRetire(db: Db, id: nat, how: Retirement)
    ensures ActiveIds(Retire(db, id, how).keys) == ActiveIds(db.keys) - {id}
  {
  }

  /** Retirement that was allowed leaves an active key if there was one. */
  lemma RetireKeepsActive(db: Db, id: nat, how: Retirement)
    requires MayRetire(db, id) && ActiveCount(db.keys) > 0
    ensures ActiveCount(Retire(db, id, how).keys) > 0
  {
    ActiveAfterRetire(db, id, how);
    if db.keys[id] {
      assert id in ActiveIds(db.keys);
    } else {
      assert ActiveIds(db.keys) - {id} == ActiveIds(db.keys);
    }
  }

  lemma ActivateKeepsActive(db: Db, id: nat, wasActive: bool)
    ensures ActiveIds(db.keys) <= ActiveIds(Activate(db, id, wasActive).keys)
  {
  }

  lemma SubsetCount(a: set<nat>, b: set<nat>)
    requires a <= b
    ensures |a| <= |b|
  {
    assert b == a + (b - a);
  }

  lemma StepKeepsTable(s: State, a: Action)
    requires Inv(s) && Enabled(s, a)
    ensures TableInv(Step(s, a)) && (s.db.claim ==> Step(s, a).db.claim)
  {
    assert JobInv(s, a.w);
  }

  /** A step of one worker leaves the facts about the others alone: the table only changes while no other
      worker is in a transaction. */
  lemma StepKeepsJobs(s: State, a: Action, w: nat)
    requires Inv(s) && Enabled(s, a) && w in s.workers
    ensures JobInv(Step(s, a), w)
  {
    assert JobInv(s, a.w) && JobInv(s, w);
    StepKeepsTable(s, a);
  }

  lemma StepKeepsActive(s: State, a: Action)
    requires Inv(s) && Enabled(s, a) && ActiveCount(s.db.keys) > 0
    ensures ActiveCount(Step(s, a).db.keys) > 0
  {
    assert JobInv(s, a.w);
    match a
    case CommitBootstrap(w) => ActiveAfterAdd(s.db.(claim := true));
    case CommitCreate(w) => ActiveAfterAdd(s.db);
    case CommitActivate(w) =>
      var job := s.workers[w];
      ActivateKeepsActive(s.db, job.id, job.wasActive);
      SubsetCount(ActiveIds(s.db.keys), ActiveIds(Activate(s.db, job.id, job.wasActive).keys));
    case CommitRetirement(w) => RetireKeepsActive(s.db, s.workers[w].id, s.workers[w].how);
    case _ =>
  }

  /** Every step keeps the invariant, the claim, and the presence of an active key. */
  lemma StepKeeps(s: State, a: Action)
    requires Inv(s) && Enabled(s, a)
    ensures Inv(Step(s, a))
    ensures s.db.claim ==> Step(s, a).db.claim
    ensures ActiveCount(s.db.keys) > 0 ==> ActiveCount(Step(s, a).db.keys) > 0
  {
    StepKeepsTable(s, a);
    var s' := Step(s, a);
    forall w | w in s'.workers ensures JobInv(s', w) { StepKeepsJobs(s, a, w); }
    if ActiveCount(s.db.keys) > 0 { StepKeepsActive(s, a); }
  }

  // ---------------------------------------------------------------- over whole runs

  ghost predicate IsRun(legacy: Db, run: seq<State>, steps: seq<Action>) {
    && |run| == |steps| + 1
    && Init(legacy, run[0])
    && forall i :: 0 <= i < |steps| ==> Enabled(run[i], steps[i]) && run[i + 1] == Step(run[i], steps[i])
  }

  lemma {:induction false} RunKeeps(legacy: Db, run: seq<State>, steps: seq<Action>, i: nat, j: nat)
    requires IsRun(legacy, run, steps) && i <= j < |run|
    ensures Inv(run[j])
    ensures run[i].db.claim ==> run[j].db.claim
    ensures ActiveCount(run[i].db.keys) > 0 ==> ActiveCount(run[j].db.keys) > 0
    ensures run[i].bootstraps <= run[j].bootstraps && (run[i].db.claim ==> run[j].bootstraps == run[i].bootstraps)
    decreases j
  {
    if j > 0 {
      RunKeeps(legacy, run, steps, if i < j then i else j - 1, j - 1);
      StepKeeps(run[j - 1], steps[j - 1]);
    }
  }

  /** In every interleaving of workers, from any earlier table: at most one bootstrap ever succeeds, and none on
      a table that held a key; the claim stays; and once a key is active, some key is active for ever. */
  lemma KeysAreSafe(legacy: Db, run: seq<State>, steps: seq<Action>, i: nat, j: nat)
    requires IsRun(legacy, run, steps) && i <= j < |run|
    ensures run[j].bootstraps <= 1 && (Claimed(legacy) ==> run[j].bootstraps == 0)
    ensures run[i].db.claim ==> run[j].db.claim
    ensures ActiveCount(run[i].db.keys) > 0 ==> ActiveCount(run[j].db.keys) > 0
  {
    RunKeeps(legacy, run, steps, i, j);
    RunKeeps(legacy, run, steps, 0, j);
  }

  /** A bootstrap that loses changes nothing in the table, and it loses exactly when the claim is there. */
  lemma LosingBootstrapLeavesNothing(s: State, w: nat)
    requires Inv(s) && Enabled(s, CommitBootstrap(w))
    ensures var s' := Step(s, CommitBootstrap(w));
      && (s'.bootstraps == s.bootstraps <==> s.db.claim)
      && (s.db.claim ==> s'.db == s.db)
      && (!s.db.claim ==> s'.db.keys == map[s.db.nextId := true] && s'.db.claim)
  {
  }

  /** A committed retirement takes away exactly the key asked for: its row when deleted, its activity when
      deactivated. */
  lemma RetirementEffect(s: State, w: nat)
    requires Inv(s) && Enabled(s, CommitRetirement(w))
    ensures var job, s' := s.workers[w], Step(s, CommitRetirement(w));
      && ActiveIds(s'.db.keys) == ActiveIds(s.db.keys) - {job.id}
      && s'.db.keys.Keys == (if job.how.Delete? then s.db.keys.Keys - {job.id} else s.db.keys.Keys)
      && s'.writer.None?
  {
    var job := s.workers[w];
    ActiveAfterRetire(s.db, job.id, job.how);
  }

  /** Who may be retired: any stored key but the only active one. */
  lemma {:induction false} MayRetireIff(db: Db, id: nat)
    ensures MayRetire(db, id) <==>
      id in db.keys && (db.keys[id] ==> exists other :: other in db.keys && other != id && db.keys[other])
  {
    if id in db.keys && db.keys[id] {
      var active := ActiveIds(db.keys);
      assert active == (active - {id}) + {id};
      if other :| other in db.keys && other != id && db.keys[other] {
        assert other in active - {id};
      } else {
        assert active - {id} == {};
      }
    }
  }

  /** A retirement that may happen does: decided and committed, the key is gone or inactive. */
  lemma {:induction false} RetirementHappens(s: State, w: nat)
    requires Inv(s) && Enabled(s, Decide(w)) && MayRetire(s.db, s.workers[w].id)
    ensures var decided := Step(s, Decide(w)); Enabled(decided, CommitRetirement(w))
    ensures var job, keys := s.workers[w], Step(Step(s, Decide(w)), CommitRetirement(w)).db.keys;
      job.id !in keys || (job.how.Deactivate? && !keys[job.id])
  {
  }

  /** Activating a stored key that was read as inactive makes it active, and leaves every other key alone. */
  lemma {:induction false} ActivationEffect(s: State, w: nat, id: nat)
    requires Inv(s) && Enabled(s, CommitActivate(w)) && s.workers[w] == MayActivate(id, false) && id in s.db.keys
    ensures var keys := Step(s, CommitActivate(w)).db.keys; id in keys && keys[id]
    ensures var keys := Step(s, CommitActivate(w)).db.keys;
      keys.Keys == s.db.keys.Keys && forall other :: other in keys && other != id ==> keys[other] == s.db.keys[other]
  {
  }

  /** A created key is new and active, and every other key is left alone. */
  lemma {:induction false} CreationEffect(s: State, w: nat)
    requires Inv(s) && Enabled(s, CommitCreate(w))
    ensures var keys, id := Step(s, CommitCreate(w)).db.keys, s.db.nextId;
      id !in s.db.keys && keys == s.db.keys[id := true] && id < Step(s, CommitCreate(w)).db.nextId
  {
  }

  /** A bootstrap is let through to its commit exactly with a key of at least 32 characters and an unclaimed table. */
  lemma {:induction false} BootstrapGate(s: State, w: nat, keyLength: nat)
    requires Inv(s) && Enabled(s, CheckBootstrap(w, keyLength))
    ensures Step(s, CheckBootstrap(w, keyLength)).workers[w] == MayBootstrap <==>
      keyLength >= 32 && !s.db.claim && |s.db.keys| == 0
  {
    assert |s.db.keys| == 0 <==> s.db.keys == map[];
  }

  /** Asking to activate a stored key goes on to its commit, with what was read; an unknown one changes nothing. */
  lemma {:induction false} ActivationStarts(s: State, w: nat, id: nat)
    requires Enabled(s, ReadForActivate(w, id))
    ensures var s' := Step(s, ReadForActivate(w, id));
      if id in s.db.keys then s'.workers[w] == MayActivate(id, s.db.keys[id]) && s'.db == s.db else s' == s
  {
  }

  /** Who may act when: a commit or a retirement waits for the writer, and only an active key lets a caller in. */
  lemma {:induction false} WaitsForWriter(s: State, a: Action)
    requires Inv(s) && Enabled(s, a) && s.writer.Some? && s.writer != Some(a.w)
    ensures Step(s, a).db == s.db
  {
    assert JobInv(s, a.w);
  }
}
