/** Reconciling desired payloads with a NetBox list: one record at a time, and in bulk with batches and a
    fallback to single items. The server's reading of a POST and of a PATCH is a parameter. */
module Reconcile {
  import opened Wrappers

  datatype Value = Null | Text(text: string) | Number(number: int) | Many(items: seq<Value>)

  type Fields = map<string, Value>

  /** A record as the server lists it: the details its `id` field and its `url` field name, if they are there. */
  datatype Rec = Rec(id: Option<nat>, url: Option<nat>, data: Fields)

  /** The detail a record is saved to: its `url` goes before its `id`. */
  function Own(r: Rec): Option<nat> { if r.url.Some? then r.url else r.id }

  /** The server's list of one path; every id in use is below `nextId`. */
  datatype Store = Store(recs: seq<Rec>, nextId: nat)

  /** The arguments of a reconcile call, and how the server stores a created and a patched record.
      `normalize` gives nothing for a record the normalizer rejects. */
  datatype Env = Env(
    lookupFields: seq<string>, normalize: Fields -> Option<Fields>,
    patchable: Option<set<string>>, nullable: set<string>, batchSize: int,
    onCreate: Fields -> Fields, onPatch: (Fields, Fields) -> Fields)

  function DropNull(fields: Fields): Fields { fields - set k | k in fields && fields[k] == Null }

  predicate Blank(v: Value) { v == Null || v == Text("") }

  function LookupOf(env: Env, payload: Fields): Fields {
    payload - set k | k in payload && (k !in env.lookupFields || Blank(payload[k]))
  }

  function Current(env: Env, data: Fields): Option<Fields> {
    match env.normalize(data)
    case None => None
    case Some(fields) => Some(DropNull(fields))
  }

  /** The lookup key of a record; none when it cannot be read or has no lookup field. */
  function KeyOf(env: Env, data: Fields): Option<Fields> {
    match Current(env, data)
    case None => None
    case Some(current) => if LookupOf(env, current) == map[] then None else Some(LookupOf(env, current))
  }

  /** The fields to send: those that differ, and nulls for stale nullable ones, within what may be patched. */
  function PatchFor(env: Env, desired: Fields, current: Fields): Fields {
    var differing := desired - set k | k in desired && k in current && current[k] == desired[k];
    var stale := map k | k in env.nullable && k in current && k !in desired :: Null;
    var patch := differing + stale;
    if env.patchable.None? then patch else patch - (patch.Keys - env.patchable.value)
  }

  /** A record has a key exactly when it can be read and has a lookup field that is not blank; the key is those. */
  lemma {:induction false} KeyIs(env: Env, data: Fields)
    ensures KeyOf(env, data).Some? <==> Current(env, data).Some? && |LookupOf(env, Current(env, data).value)| > 0
    ensures KeyOf(env, data).Some? ==> KeyOf(env, data).value == LookupOf(env, Current(env, data).value)
    ensures Current(env, data).Some? <==> env.normalize(data).Some?
  {
    if Current(env, data).Some? {
      var lookup := LookupOf(env, Current(env, data).value);
      assert |lookup| == 0 <==> lookup == map[];
    }
  }

  // ---------------------------------------------------------------- the server

  function NewRec(env: Env, s: Store, payload: Fields): Rec {
    Rec(Some(s.nextId), Some(s.nextId), env.onCreate(payload))
  }

  function Created(env: Env, s: Store, payload: Fields): Store {
    Store(s.recs + [NewRec(env, s, payload)], s.nextId + 1)
  }

  function Changed(env: Env, r: Rec, patch: Fields): Rec { r.(data := env.onPatch(r.data, patch)) }

  function PatchRec(env: Env, r: Rec, id: nat, patch: Fields): Rec {
    if Own(r) == Some(id) then Changed(env, r, patch) else r
  }

  function PatchRecs(env: Env, recs: seq<Rec>, id: nat, patch: Fields): (r: seq<Rec>)
    ensures |r| == |recs|
    ensures forall i :: 0 <= i < |r| ==> r[i] == PatchRec(env, recs[i], id, patch)
  {
    seq(|recs|, i requires 0 <= i < |recs| => PatchRec(env, recs[i], id, patch))
  }

  function Patched(env: Env, s: Store, id: nat, patch: Fields): Store {
    Store(PatchRecs(env, s.recs, id, patch), s.nextId)
  }

  /** The lookup of a payload: its lookup fields, but for null and empty ones. */
  lemma {:induction false} LookupIs(env: Env, payload: Fields, k: string)
    ensures k in LookupOf(env, payload) <==>
      k in payload && k in env.lookupFields && payload[k] != Null && payload[k] != Text("")
    ensures k in LookupOf(env, payload) ==> LookupOf(env, payload)[k] == payload[k]
  {
  }

  /** A record is saved to the detail its url names, and only without a url to the one its id names. */
  lemma {:induction false} SavedTo(r: Rec)
    ensures r.url.Some? ==> Own(r) == r.url
    ensures r.url.None? ==> Own(r) == r.id
  {
  }

  // ---------------------------------------------------------------- one record at a time

  datatype Entry = Entry(desired: Fields, lookup: Fields)

  datatype Status = WasCreated | WasUpdated | WasUnchanged | Raised

  datatype Single = Single(store: Store, rec: Rec, status: Status)

  /** The server-side filter: every lookup field has the wanted value. */
  predicate Matches(env: Env, lookup: Fields, data: Fields) {
    var current := Current(env, data);
    current.Some? && forall k :: k in lookup ==> k in current.value && current.value[k] == lookup[k]
  }

  function FirstMatching(env: Env, recs: seq<Rec>, lookup: Fields): Option<Rec> {
    if recs == [] then None
    else if Matches(env, lookup, recs[0].data) then Some(recs[0]) else FirstMatching(env, recs[1..], lookup)
  }

  /** Reconciling one record by strict lookup: create it, patch what differs, or leave it. */
  function ReconcileOne(env: Env, s: Store, e: Entry): Single {
    match FirstMatching(env, s.recs, e.lookup)
    case None => Single(Created(env, s, e.desired), NewRec(env, s, e.desired), WasCreated)
    case Some(r) =>
      var current := Current(env, r.data);
      if current.None? then Single(s, r, Raised) else
      var patch := PatchFor(env, e.desired, current.value);
      if patch == map[] then Single(s, r, WasUnchanged)
      else if Own(r).None? then Single(s, r, Raised)
      else Single(Patched(env, s, Own(r).value, patch), Changed(env, r, patch), WasUpdated)
  }

  function ReconcileEach(env: Env, s: Store, entries: seq<Entry>): Store
    decreases |entries|
  {
    if entries == [] then s else ReconcileEach(env, ReconcileOne(env, s, entries[0]).store, entries[1..])
  }

  // ---------------------------------------------------------------- bulk: the plan

  /** The payloads that will be synced: nulls dropped, the first for each lookup key. */
  function Dedup(env: Env, payloads: seq<Fields>, seen: set<Fields>): seq<Entry>
    decreases |payloads|
  {
    if payloads == [] then [] else
    var desired := DropNull(payloads[0]);
    var lookup := LookupOf(env, desired);
    if lookup == map[] || lookup in seen then Dedup(env, payloads[1..], seen)
    else [Entry(desired, lookup)] + Dedup(env, payloads[1..], seen + {lookup})
  }

  function FirstWithKey(env: Env, recs: seq<Rec>, key: Fields): Option<Rec> {
    if recs == [] then None
    else if KeyOf(env, recs[0].data) == Some(key) then Some(recs[0]) else FirstWithKey(env, recs[1..], key)
  }

  /** A record to patch, and the fields to send. */
  datatype Change = Change(rec: Rec, patch: Fields)

  datatype Decision = DoCreate(entry: Entry) | DoPatch(change: Change) | DoNothing(rec: Rec)

  function Decide(env: Env, recs: seq<Rec>, e: Entry): Decision {
    match FirstWithKey(env, recs, e.lookup)
    case None => DoCreate(e)
    case Some(r) =>
      var current := Current(env, r.data);
      var patch := if current.Some? then PatchFor(env, e.desired, current.value) else map[];
      if patch == map[] then DoNothing(r) else DoPatch(Change(r, patch))
  }

  function Decisions(env: Env, recs: seq<Rec>, entries: seq<Entry>): (r: seq<Decision>)
    ensures |r| == |entries|
    ensures forall i :: 0 <= i < |r| ==> r[i] == Decide(env, recs, entries[i])
  {
    seq(|entries|, i requires 0 <= i < |entries| => Decide(env, recs, entries[i]))
  }

  function Creates(ds: seq<Decision>): seq<Entry> {
    if ds == [] then [] else (if ds[0].DoCreate? then [ds[0].entry] else []) + Creates(ds[1..])
  }

  function Patches(ds: seq<Decision>): seq<Change> {
    if ds == [] then [] else (if ds[0].DoPatch? then [ds[0].change] else []) + Patches(ds[1..])
  }

  function Kept(ds: seq<Decision>): seq<Rec> {
    if ds == [] then [] else (if ds[0].DoNothing? then [ds[0].rec] else []) + Kept(ds[1..])
  }

  // ---------------------------------------------------------------- bulk: the batches

  /** The requests of a bulk call: which bulk requests, by batch, and which single fallback requests, by batch and
      place, succeed; and the objects an accepted bulk request answers. A failed request changes nothing. */
  datatype Network = Network(
    createOk: nat -> bool, createItemOk: (nat, nat) -> bool, createReply: nat -> seq<Rec>,
    patchOk: nat -> bool, patchItemOk: (nat, nat) -> bool, patchReply: nat -> seq<Rec>)

  /** The state of a bulk call. `noticed` tells that some write was answered with an object, on which the code
      forgets the cached lists of the path. */
  datatype Bulk = Bulk(
    store: Store, records: seq<Rec>, created: nat, updated: nat, same: nat, failed: nat, noticed: bool)

  function Start(s: Store, kept: seq<Rec>): Bulk { Bulk(s, kept, 0, 0, |kept|, 0, false) }

  function Count(b: Bulk, one: Single): Bulk {
    match one.status
    case WasCreated =>
      b.(store := one.store, records := b.records + [one.rec], created := b.created + 1, noticed := true)
    case WasUpdated =>
      b.(store := one.store, records := b.records + [one.rec], updated := b.updated + 1, noticed := true)
    case WasUnchanged => b.(records := b.records + [one.rec], same := b.same + 1)
    case Raised => b.(failed := b.failed + 1)
  }

  /** One item of a bulk POST that failed, reconciled on its own. */
  function SingleCreate(env: Env, net: Network, k: nat, j: nat, b: Bulk, e: Entry): Bulk {
    if net.createItemOk(k, j) then Count(b, ReconcileOne(env, b.store, e)) else b.(failed := b.failed + 1)
  }

  function SingleCreates(env: Env, net: Network, k: nat, batch: seq<Entry>, j: nat, b: Bulk): Bulk
    requires j <= |batch|
    decreases |batch| - j
  {
    if j == |batch| then b else SingleCreates(env, net, k, batch, j + 1, SingleCreate(env, net, k, j, b, batch[j]))
  }

  /** One batch of the create phase. An accepted POST stores every item, and the objects answered are counted. */
  function CreateBatch(env: Env, net: Network, k: nat, batch: seq<Entry>, b: Bulk): Bulk {
    if net.createOk(k) then
      b.(store := ActCreates(env, b.store, batch), records := b.records + net.createReply(k),
         created := b.created + |net.createReply(k)|, noticed := b.noticed || net.createReply(k) != [])
    else SingleCreates(env, net, k, batch, 0, b)
  }

  /** The changes a bulk PATCH sends: a record without an id is left out. */
  function Sent(batch: seq<Change>): seq<Change> {
    if batch == [] then [] else (if batch[0].rec.id.Some? then [batch[0]] else []) + Sent(batch[1..])
  }

  /** With nothing to send, no request is made and none can fail. */
  predicate PatchAccepted(net: Network, k: nat, batch: seq<Change>) { Sent(batch) == [] || net.patchOk(k) }

  function PatchAnswer(net: Network, k: nat, batch: seq<Change>): seq<Rec> {
    if Sent(batch) == [] then [] else net.patchReply(k)
  }

  /** One item of a bulk PATCH that failed, saved on its own. */
  function SinglePatch(env: Env, net: Network, k: nat, j: nat, b: Bulk, c: Change): Bulk {
    if net.patchItemOk(k, j) && Own(c.rec).Some? then
      b.(store := Patched(env, b.store, Own(c.rec).value, c.patch),
         records := b.records + [Changed(env, c.rec, c.patch)], updated := b.updated + 1, noticed := true)
    else b.(failed := b.failed + 1)
  }

  function SinglePatches(env: Env, net: Network, k: nat, batch: seq<Change>, j: nat, b: Bulk): Bulk
    requires j <= |batch|
    decreases |batch| - j
  {
    if j == |batch| then b else SinglePatches(env, net, k, batch, j + 1, SinglePatch(env, net, k, j, b, batch[j]))
  }

  /** One batch of the patch phase. */
  function PatchBatch(env: Env, net: Network, k: nat, batch: seq<Change>, b: Bulk): Bulk {
    if PatchAccepted(net, k, batch) then
      b.(store := ActPatches(env, b.store, batch), records := b.records + PatchAnswer(net, k, batch),
         updated := b.updated + |PatchAnswer(net, k, batch)|, noticed := b.noticed || PatchAnswer(net, k, batch) != [])
    else SinglePatches(env, net, k, batch, 0, b)
  }

  /** A single fallback request that fails is counted as failed, and changes nothing else. */
  lemma {:induction false} FailedSingleIsCounted(env: Env, net: Network, k: nat, j: nat, b: Bulk, e: Entry, c: Change)
    ensures !net.createItemOk(k, j) ==> SingleCreate(env, net, k, j, b, e) == b.(failed := b.failed + 1)
    ensures !net.patchItemOk(k, j) || (c.rec.id.None? && c.rec.url.None?) ==>
      SinglePatch(env, net, k, j, b, c) == b.(failed := b.failed + 1)
    ensures net.patchItemOk(k, j) && (c.rec.id.Some? || c.rec.url.Some?) ==>
      && SinglePatch(env, net, k, j, b, c).updated == b.updated + 1
      && SinglePatch(env, net, k, j, b, c).records == b.records + [c.rec.(data := env.onPatch(c.rec.data, c.patch))]
  {
  }

  /** A single reconcile that goes through is counted by what it did; its record is reported unless it raised; and the
      cached lists are forgotten exactly when it wrote. */
  lemma {:induction false} SingleIsCounted(env: Env, net: Network, k: nat, j: nat, b: Bulk, e: Entry)
    requires net.createItemOk(k, j)
    ensures var one, b' := ReconcileOne(env, b.store, e), SingleCreate(env, net, k, j, b, e);
      && b'.created == b.created + (if one.status.WasCreated? then 1 else 0)
      && b'.updated == b.updated + (if one.status.WasUpdated? then 1 else 0)
      && b'.same == b.same + (if one.status.WasUnchanged? then 1 else 0)
      && b'.failed == b.failed + (if one.status.Raised? then 1 else 0)
      && b'.records == b.records + (if one.status.Raised? then [] else [one.rec])
      && b'.store == one.store
      && (b'.noticed <==> b.noticed || one.status.WasCreated? || one.status.WasUpdated?)
  {
  }

  function BatchSize(env: Env): nat
    ensures BatchSize(env) >= 1
  {
    if env.batchSize < 1 then 1 else env.batchSize
  }

  /** The first batch of a list, and what is left after it. */
  function Head<T>(env: Env, xs: seq<T>): (r: seq<T>)
    ensures r <= xs && (xs != [] ==> r != [])
  {
    if |xs| <= BatchSize(env) then xs else xs[..BatchSize(env)]
  }

  function Rest<T>(env: Env, xs: seq<T>): (r: seq<T>)
    ensures Head(env, xs) + r == xs && (xs != [] ==> |r| < |xs|)
  {
    if |xs| <= BatchSize(env) then [] else xs[BatchSize(env)..]
  }

  /** Batches are cut in order, each of the size asked for, at least 1, but for a shorter last one. */
  lemma {:induction false} BatchIs<T>(env: Env, xs: seq<T>)
    ensures var size := if env.batchSize >= 1 then env.batchSize else 1;
      |Head(env, xs)| == (if |xs| < size then |xs| else size) && Head(env, xs) + Rest(env, xs) == xs
  {
  }

  /** The create phase from batch `k` on. */
  function RunCreates(env: Env, net: Network, cs: seq<Entry>, k: nat, b: Bulk): Bulk
    decreases |cs|
  {
    if cs == [] then b
    else RunCreates(env, net, Rest(env, cs), k + 1, CreateBatch(env, net, k, Head(env, cs), b))
  }

  /** The patch phase from batch `k` on. */
  function RunPatches(env: Env, net: Network, ps: seq<Change>, k: nat, b: Bulk): Bulk
    decreases |ps|
  {
    if ps == [] then b
    else RunPatches(env, net, Rest(env, ps), k + 1, PatchBatch(env, net, k, Head(env, ps), b))
  }

  /** Both phases, one after the other. */
  function RunPhases(env: Env, net: Network, s: Store, cs: seq<Entry>, ps: seq<Change>, kept: seq<Rec>): Bulk {
    RunPatches(env, net, ps, 0, RunCreates(env, net, cs, 0, Start(s, kept)))
  }

  /** A bulk call that plans against the list it was served. */
  function BulkFrom(env: Env, net: Network, s: Store, listed: seq<Rec>, payloads: seq<Fields>): Bulk {
    var ds := Decisions(env, listed, Dedup(env, payloads, {}));
    RunPhases(env, net, s, Creates(ds), Patches(ds), Kept(ds))
  }

  /** A bulk call that was served the server's own list. */
  function BulkReconcile(env: Env, net: Network, s: Store, payloads: seq<Fields>): Bulk {
    BulkFrom(env, net, s, s.recs, payloads)
  }

  // ---------------------------------------------------------------- every entry is accounted for

  function Total(b: Bulk): nat { b.created + b.updated + b.same + b.failed }

  function Reported(b: Bulk): nat { |b.records| + b.failed }

  lemma {:induction false} SingleCreatesCounted(env: Env, net: Network, k: nat, batch: seq<Entry>, j: nat, b: Bulk)
    requires j <= |batch|
    ensures Total(SingleCreates(env, net, k, batch, j, b)) == Total(b) + |batch| - j
    ensures Reported(SingleCreates(env, net, k, batch, j, b)) == Reported(b) + |batch| - j
    decreases |batch| - j
  {
    if j < |batch| {
      SingleCreatesCounted(env, net, k, batch, j + 1, SingleCreate(env, net, k, j, b, batch[j]));
    }
  }

  lemma {:induction false} SinglePatchesCounted(env: Env, net: Network, k: nat, batch: seq<Change>, j: nat, b: Bulk)
    requires j <= |batch|
    ensures Total(SinglePatches(env, net, k, batch, j, b)) == Total(b) + |batch| - j
    ensures Reported(SinglePatches(env, net, k, batch, j, b)) == Reported(b) + |batch| - j
    decreases |batch| - j
  {
    if j < |batch| {
      SinglePatchesCounted(env, net, k, batch, j + 1, SinglePatch(env, net, k, j, b, batch[j]));
    }
  }

  /** By how much the objects answered by the accepted batches exceed their entries. */
  function CreateDrift(env: Env, net: Network, cs: seq<Entry>, k: nat): int
    decreases |cs|
  {
    if cs == [] then 0 else
    (if net.createOk(k) then |net.createReply(k)| - |Head(env, cs)| else 0)
      + CreateDrift(env, net, Rest(env, cs), k + 1)
  }

  function PatchDrift(env: Env, net: Network, ps: seq<Change>, k: nat): int
    decreases |ps|
  {
    if ps == [] then 0 else
    var batch := Head(env, ps);
    (if PatchAccepted(net, k, batch) then |PatchAnswer(net, k, batch)| - |batch| else 0)
      + PatchDrift(env, net, Rest(env, ps), k + 1)
  }

  lemma {:induction false} CreatesCounted(env: Env, net: Network, cs: seq<Entry>, k: nat, b: Bulk)
    ensures Total(RunCreates(env, net, cs, k, b)) == Total(b) + |cs| + CreateDrift(env, net, cs, k)
    ensures Reported(RunCreates(env, net, cs, k, b)) == Reported(b) + |cs| + CreateDrift(env, net, cs, k)
    decreases |cs|
  {
    if cs != [] {
      SingleCreatesCounted(env, net, k, Head(env, cs), 0, b);
      CreatesCounted(env, net, Rest(env, cs), k + 1, CreateBatch(env, net, k, Head(env, cs), b));
    }
  }

  lemma {:induction false} PatchesCounted(env: Env, net: Network, ps: seq<Change>, k: nat, b: Bulk)
    ensures Total(RunPatches(env, net, ps, k, b)) == Total(b) + |ps| + PatchDrift(env, net, ps, k)
    ensures Reported(RunPatches(env, net, ps, k, b)) == Reported(b) + |ps| + PatchDrift(env, net, ps, k)
    decreases |ps|
  {
    if ps != [] {
      SinglePatchesCounted(env, net, k, Head(env, ps), 0, b);
      PatchesCounted(env, net, Rest(env, ps), k + 1, PatchBatch(env, net, k, Head(env, ps), b));
    }
  }

  lemma {:induction false} PhasesPartition(ds: seq<Decision>)
    ensures |Creates(ds)| + |Patches(ds)| + |Kept(ds)| == |ds|
  {
    if ds != [] { PhasesPartition(ds[1..]); }
  }

  /** The creates and the patches a bulk call plans against a list. */
  function Planned(env: Env, listed: seq<Rec>, payloads: seq<Fields>): (seq<Entry>, seq<Change>) {
    var ds := Decisions(env, listed, Dedup(env, payloads, {}));
    (Creates(ds), Patches(ds))
  }

  function Drift(env: Env, net: Network, s: Store, payloads: seq<Fields>): int {
    var (cs, ps) := Planned(env, s.recs, payloads);
    CreateDrift(env, net, cs, 0) + PatchDrift(env, net, ps, 0)
  }

  /** Counters and records both add up to the number of de-duplicated entries and the drift of the answers. */
  lemma {:induction false} BulkCounts(env: Env, net: Network, s: Store, payloads: seq<Fields>)
    ensures var n, b := |Dedup(env, payloads, {})|, BulkReconcile(env, net, s, payloads);
      var drift := Drift(env, net, s, payloads);
      Total(b) == n + drift && Reported(b) == n + drift
  {
    var ds := Decisions(env, s.recs, Dedup(env, payloads, {}));
    var kept := Kept(ds);
    PhasesPartition(ds);
    CreatesCounted(env, net, Creates(ds), 0, Start(s, kept));
    PatchesCounted(env, net, Patches(ds), 0, RunCreates(env, net, Creates(ds), 0, Start(s, kept)));
  }

  /** Every batch, once accepted, answers as many objects as it has entries. */
  ghost predicate FullCreates(env: Env, net: Network, cs: seq<Entry>, k: nat)
    decreases |cs|
  {
    cs != [] ==> |net.createReply(k)| == |Head(env, cs)| && FullCreates(env, net, Rest(env, cs), k + 1)
  }

  ghost predicate FullPatches(env: Env, net: Network, ps: seq<Change>, k: nat)
    decreases |ps|
  {
    ps != [] ==>
      |PatchAnswer(net, k, Head(env, ps))| == |Head(env, ps)| && FullPatches(env, net, Rest(env, ps), k + 1)
  }

  ghost predicate FullyAnswered(env: Env, net: Network, s: Store, payloads: seq<Fields>) {
    var (cs, ps) := Planned(env, s.recs, payloads);
    FullCreates(env, net, cs, 0) && FullPatches(env, net, ps, 0)
  }

  ghost predicate Conserves(env: Env, net: Network, s: Store, payloads: seq<Fields>) {
    var n, b := |Dedup(env, payloads, {})|, BulkReconcile(env, net, s, payloads);
    Total(b) == n && Reported(b) == n
  }

  /** The same answers, whatever requests fail. */
  ghost predicate SameReplies(net: Network, other: Network) {
    net.createReply == other.createReply && net.patchReply == other.patchReply
  }

  lemma {:induction false} FullCreatesDoNotDrift(env: Env, net: Network, other: Network, cs: seq<Entry>, k: nat)
    requires SameReplies(net, other) && FullCreates(env, net, cs, k)
    ensures CreateDrift(env, other, cs, k) == 0
    decreases |cs|
  {
    if cs != [] { FullCreatesDoNotDrift(env, net, other, Rest(env, cs), k + 1); }
  }

  lemma {:induction false} FullPatchesDoNotDrift(env: Env, net: Network, other: Network, ps: seq<Change>, k: nat)
    requires SameReplies(net, other) && FullPatches(env, net, ps, k)
    ensures PatchDrift(env, other, ps, k) == 0
    decreases |ps|
  {
    if ps != [] { FullPatchesDoNotDrift(env, net, other, Rest(env, ps), k + 1); }
  }

  /** The network that accepts one create batch and one patch batch at most, and every single request. */
  function Only(net: Network, create: Option<nat>, patch: Option<nat>): Network {
    Network(k => create == Some(k), (_, _) => true, net.createReply,
            k => patch == Some(k), (_, _) => true, net.patchReply)
  }

  ghost predicate AllSend(env: Env, ps: seq<Change>)
    decreases |ps|
  {
    ps != [] ==> Sent(Head(env, ps)) != [] && AllSend(env, Rest(env, ps))
  }

  /** When every bulk PATCH that is sent fails, the counts fall short by the batches that had nothing to send. */
  lemma {:induction false} UnsentDrift(env: Env, net: Network, create: Option<nat>, ps: seq<Change>, k: nat)
    ensures PatchDrift(env, Only(net, create, None), ps, k) <= 0
    ensures PatchDrift(env, Only(net, create, None), ps, k) == 0 <==> AllSend(env, ps)
    decreases |ps|
  {
    if ps != [] { UnsentDrift(env, net, create, Rest(env, ps), k + 1); }
  }

  lemma {:induction false} LaterCreateDrift(env: Env, net: Network, m: Option<nat>, cs: seq<Entry>, k: nat)
    requires m.Some? ==> m.value < k
    ensures CreateDrift(env, Only(net, m, None), cs, k) == 0
    decreases |cs|
  {
    if cs != [] { LaterCreateDrift(env, net, m, Rest(env, cs), k + 1); }
  }

  lemma {:induction false} LaterPatchDrift(env: Env, net: Network, m: nat, ps: seq<Change>, k: nat)
    requires m < k && AllSend(env, ps)
    ensures PatchDrift(env, Only(net, None, Some(m)), ps, k) == 0
    decreases |ps|
  {
    if ps != [] { LaterPatchDrift(env, net, m, Rest(env, ps), k + 1); }
  }

  /** A batch with too few or too many answers shows when it alone is accepted. */
  lemma {:induction false} OddCreate(env: Env, net: Network, cs: seq<Entry>, k: nat) returns (m: nat)
    requires !FullCreates(env, net, cs, k)
    ensures m >= k && CreateDrift(env, Only(net, Some(m), None), cs, k) != 0
    decreases |cs|
  {
    if |net.createReply(k)| != |Head(env, cs)| {
      m := k;
      LaterCreateDrift(env, net, Some(k), Rest(env, cs), k + 1);
    } else {
      m := OddCreate(env, net, Rest(env, cs), k + 1);
    }
  }

  lemma {:induction false} OddPatch(env: Env, net: Network, ps: seq<Change>, k: nat) returns (m: nat)
    requires !FullPatches(env, net, ps, k) && AllSend(env, ps)
    ensures m >= k && PatchDrift(env, Only(net, None, Some(m)), ps, k) != 0
    decreases |ps|
  {
    if |PatchAnswer(net, k, Head(env, ps))| != |Head(env, ps)| {
      m := k;
      LaterPatchDrift(env, net, k, Rest(env, ps), k + 1);
    } else {
      m := OddPatch(env, net, Rest(env, ps), k + 1);
    }
  }

  /** For answers that do not fill their batches, a pattern of failing requests under which the counts drift. */
  lemma DriftingNetwork(env: Env, net: Network, s: Store, payloads: seq<Fields>) returns (other: Network)
    requires !FullyAnswered(env, net, s, payloads)
    ensures SameReplies(net, other) && Drift(env, other, s, payloads) != 0
  {
    var (cs, ps) := Planned(env, s.recs, payloads);
    UnsentDrift(env, net, None, ps, 0);
    LaterCreateDrift(env, net, None, cs, 0);
    if !AllSend(env, ps) {
      other := Only(net, None, None);
    } else if !FullCreates(env, net, cs, 0) {
      var m := OddCreate(env, net, cs, 0);
      UnsentDrift(env, net, Some(m), ps, 0);
      other := Only(net, Some(m), None);
    } else {
      var m := OddPatch(env, net, ps, 0);
      other := Only(net, None, Some(m));
      FullCreatesDoNotDrift(env, net, other, cs, 0);
    }
  }

  /** Created + updated + unchanged + failed, and records + failed, both equal the number of de-duplicated entries
      for every pattern of failing requests, bulk or single: exactly when every batch, once accepted, answers as
      many objects as it has entries. */
  lemma BulkConservesIff(env: Env, net: Network, s: Store, payloads: seq<Fields>)
    ensures FullyAnswered(env, net, s, payloads) <==>
      forall other: Network :: SameReplies(net, other) ==> Conserves(env, other, s, payloads)
  {
    var (cs, ps) := Planned(env, s.recs, payloads);
    if FullyAnswered(env, net, s, payloads) {
      forall other: Network | SameReplies(net, other) ensures Conserves(env, other, s, payloads) {
        FullCreatesDoNotDrift(env, net, other, cs, 0);
        FullPatchesDoNotDrift(env, net, other, ps, 0);
        BulkCounts(env, other, s, payloads);
      }
    } else {
      var other := DriftingNetwork(env, net, s, payloads);
      BulkCounts(env, other, s, payloads);
      assert !Conserves(env, other, s, payloads);
    }
  }

  ghost predicate HaveIds(ps: seq<Change>) { forall i :: 0 <= i < |ps| ==> ps[i].rec.id.Some? }

  /** The number of objects each accepted PATCH answers, against the number it was sent. */
  ghost predicate NeverMore(env: Env, net: Network, ps: seq<Change>, k: nat)
    decreases |ps|
  {
    ps != [] ==>
      |net.patchReply(k)| <= |Sent(Head(env, ps))| && NeverMore(env, net, Rest(env, ps), k + 1)
  }

  ghost predicate AsSent(env: Env, net: Network, ps: seq<Change>, k: nat)
    decreases |ps|
  {
    ps != [] ==>
      |net.patchReply(k)| == |Sent(Head(env, ps))| && AsSent(env, net, Rest(env, ps), k + 1)
  }

  lemma {:induction false} SentAllIff(batch: seq<Change>)
    ensures |Sent(batch)| <= |batch|
    ensures |Sent(batch)| == |batch| <==> HaveIds(batch)
  {
    if batch != [] { SentAllIff(batch[1..]); }
  }

  lemma HaveIdsSplit(env: Env, ps: seq<Change>)
    ensures HaveIds(ps) <==> HaveIds(Head(env, ps)) && HaveIds(Rest(env, ps))
  {
    var head, rest := Head(env, ps), Rest(env, ps);
    assert forall i :: |head| <= i < |ps| ==> ps[i] == rest[i - |head|];
    assert forall i :: 0 <= i < |rest| ==> rest[i] == ps[|head| + i];
  }

  /** From a server that never answers more objects than it was sent, full answers mean two things: every record
      to patch has an id, and every PATCH is answered with as many objects as it was sent. */
  lemma {:induction false} FullPatchesIff(env: Env, net: Network, ps: seq<Change>, k: nat)
    requires NeverMore(env, net, ps, k)
    ensures FullPatches(env, net, ps, k) <==> HaveIds(ps) && AsSent(env, net, ps, k)
    decreases |ps|
  {
    if ps != [] {
      HaveIdsSplit(env, ps);
      SentAllIff(Head(env, ps));
      FullPatchesIff(env, net, Rest(env, ps), k + 1);
    }
  }

  // ---------------------------------------------------------------- two calls whose counts fall short

  /** A server that stores what it is sent, for records known by their name. */
  function PlainEnv(): Env {
    Env(["name"], (f: Fields) => Some(f), None, {}, 50, (f: Fields) => f, (data: Fields, patch: Fields) => data + patch)
  }

  /** A network on which everything succeeds and every bulk answer is this one. */
  function Answering(reply: seq<Rec>): Network {
    Network(_ => true, (_, _) => true, _ => reply, _ => true, (_, _) => true, _ => reply)
  }

  lemma PlainLookup(a: Fields)
    requires "name" in a && a["name"] == Text("a") && NoNull(a)
    ensures DropNull(a) == a && LookupOf(PlainEnv(), a) == map["name" := Text("a")]
    ensures Dedup(PlainEnv(), [a], {}) == [Entry(a, map["name" := Text("a")])]
    ensures KeyOf(PlainEnv(), a) == Some(map["name" := Text("a")])
  {
    var key := map["name" := Text("a")];
    assert LookupOf(PlainEnv(), a) == key && "name" in key;
    assert [a][1..] == [] && Dedup(PlainEnv(), [], {key}) == [];
  }

  lemma {:induction false} OneCreate(env: Env, listed: seq<Rec>, payload: Fields, e: Entry)
    requires Dedup(env, [payload], {}) == [e] && Decide(env, listed, e) == DoCreate(e)
    ensures Planned(env, listed, [payload]) == ([e], [])
    ensures Kept(Decisions(env, listed, Dedup(env, [payload], {}))) == []
  {
    var ds := Decisions(env, listed, [e]);
    assert ds == [DoCreate(e)] && ds[1..] == [];
    PhasesCons(ds);
    assert Creates([]) == [] && Patches([]) == [];
  }

  lemma {:induction false} OnePatch(env: Env, s: Store, payload: Fields, e: Entry, c: Change)
    requires Dedup(env, [payload], {}) == [e] && Decide(env, s.recs, e) == DoPatch(c)
    ensures Planned(env, s.recs, [payload]) == ([], [c])
  {
    var ds := Decisions(env, s.recs, [e]);
    assert ds == [DoPatch(c)] && ds[1..] == [];
    PhasesCons(ds);
    assert Creates([]) == [] && Patches([]) == [];
    assert Creates(ds) == [] && Patches(ds) == [c];
  }

  /** One create, accepted and not answered. */
  lemma {:induction false} OneCreateStores(env: Env, s: Store, e: Entry)
    ensures var b := RunCreates(env, Answering([]), [e], 0, Start(s, []));
      b.store == Created(env, s, e.desired) && !b.noticed
  {
    assert Rest(env, [e]) == [] && Head(env, [e]) == [e] && [e][1..] == [];
    assert ActCreates(env, s, [e]) == ActCreates(env, Created(env, s, e.desired), []);
  }

  lemma {:induction false} OneCreateDrifts(env: Env, net: Network, e: Entry)
    ensures CreateDrift(env, net, [e], 0) == if net.createOk(0) then |net.createReply(0)| - 1 else 0
  {
    assert Rest(env, [e]) == [] && Head(env, [e]) == [e];
  }

  lemma {:induction false} OnePatchDrifts(env: Env, net: Network, c: Change)
    requires c.rec.id.None?
    ensures PatchDrift(env, net, [c], 0) == -1
  {
    assert Rest(env, [c]) == [] && Head(env, [c]) == [c] && [c][1..] == [];
    assert Sent([c]) == [] + Sent([c][1..]) && Sent([]) == [];
  }

  /** One new record and an accepted POST that answers an empty list: nothing is counted. */
  lemma ShortAnswerFallsShort()
    ensures var b := BulkReconcile(PlainEnv(), Answering([]), Store([], 1), [map["name" := Text("a")]]);
      |Dedup(PlainEnv(), [map["name" := Text("a")]], {})| == 1 && Total(b) == 0 && Reported(b) == 0
  {
    var env, a := PlainEnv(), map["name" := Text("a")];
    PlainLookup(a);
    OneCreate(env, [], a, Entry(a, a));
    OneCreateDrifts(env, Answering([]), Entry(a, a));
    BulkCounts(env, Answering([]), Store([], 1), [a]);
  }

  /** One record to patch that the server lists without an id: it is not sent, and not counted. */
  lemma MissingIdFallsShort()
    ensures var now := map["name" := Text("a"), "tag" := Text("old")];
      var payload := map["name" := Text("a"), "tag" := Text("new")];
      var b := BulkReconcile(PlainEnv(), Answering([]), Store([Rec(None, None, now)], 1), [payload]);
      |Dedup(PlainEnv(), [payload], {})| == 1 && Total(b) == 0 && Reported(b) == 0
  {
    var env, now := PlainEnv(), map["name" := Text("a"), "tag" := Text("old")];
    var payload, key := map["name" := Text("a"), "tag" := Text("new")], map["name" := Text("a")];
    PlainLookup(now);
    PlainLookup(payload);
    var r, e := Rec(None, None, now), Entry(payload, key);
    var patch := PatchFor(env, payload, now);
    assert "tag" in patch;
    assert Decide(env, [r], e) == DoPatch(Change(r, patch));
    OnePatch(env, Store([r], 1), payload, e, Change(r, patch));
    OnePatchDrifts(env, Answering([]), Change(r, patch));
    BulkCounts(env, Answering([]), Store([r], 1), [payload]);
  }

  // ---------------------------------------------------------------- bulk refines one at a time

  ghost predicate CarriesLookup(env: Env, fields: Fields) {
    forall k :: k in env.lookupFields ==> k in fields && !Blank(fields[k])
  }

  ghost predicate KeepsKeyOnCreate(env: Env, p: Fields) {
    CarriesLookup(env, p) ==> KeyOf(env, env.onCreate(p)) == Some(LookupOf(env, p))
  }

  ghost predicate KeepsKeyOnPatch(env: Env, data: Fields, patch: Fields) {
    (forall k :: k in patch ==> k !in env.lookupFields) ==> KeyOf(env, env.onPatch(data, patch)) == KeyOf(env, data)
  }

  /** The server keeps lookup fields as they are sent, and a patch elsewhere leaves them alone. */
  ghost predicate Faithful(env: Env) {
    && env.lookupFields != []
    && (forall p :: KeepsKeyOnCreate(env, p))
    && (forall data, patch :: KeepsKeyOnPatch(env, data, patch))
  }

  /** Every record has its own id, below the next one, and no url that names another. */
  ghost predicate IdsOk(s: Store) {
    && (forall i :: 0 <= i < |s.recs| ==>
          s.recs[i].id.Some? && s.recs[i].id.value < s.nextId && Own(s.recs[i]) == s.recs[i].id)
    && (forall i, j :: 0 <= i < j < |s.recs| ==> s.recs[i].id != s.recs[j].id)
  }

  /** The entries come from `Dedup`: complete, keyed by their own lookup fields, one per key. */
  ghost predicate EntriesOk(env: Env, entries: seq<Entry>) {
    && (forall i :: 0 <= i < |entries| ==>
          CarriesLookup(env, entries[i].desired) && entries[i].lookup == LookupOf(env, entries[i].desired))
    && (forall i, j :: 0 <= i < j < |entries| ==> entries[i].lookup != entries[j].lookup)
  }

  /** A patch for a record found under the entry's key never holds a lookup field. */
  lemma PatchKeepsKey(env: Env, e: Entry, data: Fields)
    requires CarriesLookup(env, e.desired) && KeyOf(env, data) == Some(LookupOf(env, e.desired))
    ensures forall k :: k in PatchFor(env, e.desired, Current(env, data).value) ==> k !in env.lookupFields
  {
    var current, lookup := Current(env, data).value, LookupOf(env, e.desired);
    forall k | k in env.lookupFields
      ensures k !in PatchFor(env, e.desired, current)
    {
      assert k in lookup && lookup[k] == e.desired[k];
      assert LookupOf(env, current)[k] == lookup[k];
    }
  }

  /** With all lookup fields given, the server's filter and the key agree. */
  lemma MatchesIffKey(env: Env, e: Entry, data: Fields)
    requires env.lookupFields != [] && CarriesLookup(env, e.desired) && e.lookup == LookupOf(env, e.desired)
    ensures Matches(env, e.lookup, data) <==> KeyOf(env, data) == Some(e.lookup)
  {
    assert env.lookupFields[0] in e.lookup;
    var current := Current(env, data);
    if current.Some? {
      if Matches(env, e.lookup, data) {
        assert LookupOf(env, current.value) == e.lookup;
      }
    }
  }

  lemma {:induction false} FirstAgree(env: Env, recs: seq<Rec>, e: Entry)
    requires env.lookupFields != [] && CarriesLookup(env, e.desired) && e.lookup == LookupOf(env, e.desired)
    ensures FirstMatching(env, recs, e.lookup) == FirstWithKey(env, recs, e.lookup)
  {
    if recs != [] {
      MatchesIffKey(env, e, recs[0].data);
      FirstAgree(env, recs[1..], e);
    }
  }

  lemma {:induction false} FirstWithKeyFound(env: Env, recs: seq<Rec>, key: Fields)
    ensures FirstWithKey(env, recs, key).Some? ==>
      FirstWithKey(env, recs, key).value in recs && KeyOf(env, FirstWithKey(env, recs, key).value.data) == Some(key)
  {
    if recs != [] { FirstWithKeyFound(env, recs[1..], key); }
  }

  /** The effect of a change, and of a decision, on the server. */
  function ActChange(env: Env, s: Store, c: Change): Store {
    if c.rec.id.Some? then Patched(env, s, c.rec.id.value, c.patch) else s
  }

  function Act(env: Env, s: Store, d: Decision): Store {
    match d
    case DoCreate(e) => Created(env, s, e.desired)
    case DoPatch(c) => ActChange(env, s, c)
    case DoNothing(_) => s
  }

  function ActAll(env: Env, s: Store, ds: seq<Decision>): Store
    decreases |ds|
  {
    if ds == [] then s else ActAll(env, Act(env, s, ds[0]), ds[1..])
  }

  /** The creates, and the patches, in order. */
  function ActCreates(env: Env, s: Store, cs: seq<Entry>): Store
    decreases |cs|
  {
    if cs == [] then s else ActCreates(env, Created(env, s, cs[0].desired), cs[1..])
  }

  function ActPatches(env: Env, s: Store, ps: seq<Change>): Store
    decreases |ps|
  {
    if ps == [] then s else ActPatches(env, ActChange(env, s, ps[0]), ps[1..])
  }

  lemma OneIsAct(env: Env, s: Store, e: Entry)
    requires Faithful(env) && IdsOk(s) && CarriesLookup(env, e.desired) && e.lookup == LookupOf(env, e.desired)
    ensures ReconcileOne(env, s, e).store == Act(env, s, Decide(env, s.recs, e))
    ensures ReconcileOne(env, s, e).status == (
      match Decide(env, s.recs, e)
      case DoCreate(_) => WasCreated
      case DoPatch(_) => WasUpdated
      case DoNothing(_) => WasUnchanged)
  {
    FirstAgree(env, s.recs, e);
    FirstWithKeyFound(env, s.recs, e.lookup);
  }

  lemma {:induction false} FirstAppend(env: Env, recs: seq<Rec>, r: Rec, key: Fields)
    requires KeyOf(env, r.data) != Some(key)
    ensures FirstWithKey(env, recs + [r], key) == FirstWithKey(env, recs, key)
  {
    if recs == [] {
      assert ([r])[1..] == [];
    } else {
      assert (recs + [r])[1..] == recs[1..] + [r];
      FirstAppend(env, recs[1..], r, key);
    }
  }

  lemma {:induction false} FirstPatched(env: Env, recs: seq<Rec>, id: nat, patch: Fields, key: Fields)
    requires Faithful(env) && forall k :: k in patch ==> k !in env.lookupFields
    requires forall i :: 0 <= i < |recs| && Own(recs[i]) == Some(id) ==> KeyOf(env, recs[i].data) != Some(key)
    ensures FirstWithKey(env, PatchRecs(env, recs, id, patch), key) == FirstWithKey(env, recs, key)
  {
    if recs != [] {
      assert PatchRecs(env, recs, id, patch)[1..] == PatchRecs(env, recs[1..], id, patch);
      assert KeepsKeyOnPatch(env, recs[0].data, patch);
      FirstPatched(env, recs[1..], id, patch, key);
    }
  }

  /** Acting for one key leaves the record found under every other key as it was. */
  lemma {:induction false} ActKeepsOthers(env: Env, s: Store, e: Entry, key: Fields)
    requires Faithful(env) && IdsOk(s) && CarriesLookup(env, e.desired) && e.lookup == LookupOf(env, e.desired)
    requires key != e.lookup
    ensures FirstWithKey(env, Act(env, s, Decide(env, s.recs, e)).recs, key) == FirstWithKey(env, s.recs, key)
  {
    match Decide(env, s.recs, e)
    case DoCreate(_) =>
      assert KeepsKeyOnCreate(env, e.desired);
      FirstAppend(env, s.recs, NewRec(env, s, e.desired), key);
    case DoNothing(_) =>
    case DoPatch(c) =>
      FirstWithKeyFound(env, s.recs, e.lookup);
      PatchKeepsKey(env, e, c.rec.data);
      FirstPatched(env, s.recs, c.rec.id.value, c.patch, key);
  }

  lemma ActKeepsIds(env: Env, s: Store, d: Decision)
    requires IdsOk(s)
    ensures IdsOk(Act(env, s, d)) && s.nextId <= Act(env, s, d).nextId
  {
  }

  /** Acting for one entry leaves the decisions for entries under other keys as they were. */
  lemma DecisionsStay(env: Env, s: Store, e: Entry, rest: seq<Entry>)
    requires Faithful(env) && IdsOk(s) && CarriesLookup(env, e.desired) && e.lookup == LookupOf(env, e.desired)
    requires forall i :: 0 <= i < |rest| ==> rest[i].lookup != e.lookup
    ensures Decisions(env, Act(env, s, Decide(env, s.recs, e)).recs, rest) == Decisions(env, s.recs, rest)
  {
    forall i | 0 <= i < |rest|
      ensures Decisions(env, Act(env, s, Decide(env, s.recs, e)).recs, rest)[i] == Decisions(env, s.recs, rest)[i]
    {
      ActKeepsOthers(env, s, e, rest[i].lookup);
    }
  }

  /** One at a time: the decisions made against the first store stay right all along. */
  lemma {:induction false} EachIsActs(env: Env, s: Store, entries: seq<Entry>)
    requires Faithful(env) && IdsOk(s) && EntriesOk(env, entries)
    ensures ReconcileEach(env, s, entries) == ActAll(env, s, Decisions(env, s.recs, entries))
    decreases |entries|
  {
    if entries != [] {
      var e, rest := entries[0], entries[1..];
      var s' := Act(env, s, Decide(env, s.recs, e));
      OneIsAct(env, s, e);
      ActKeepsIds(env, s, Decide(env, s.recs, e));
      DecisionsStay(env, s, e, rest);
      EachIsActs(env, s', rest);
      DecisionsCons(env, s.recs, entries);
    }
  }

  lemma DecisionsCons(env: Env, recs: seq<Rec>, entries: seq<Entry>)
    requires entries != []
    ensures Decisions(env, recs, entries)[0] == Decide(env, recs, entries[0])
    ensures Decisions(env, recs, entries)[1..] == Decisions(env, recs, entries[1..])
  {
  }

  ghost predicate PatchIdsBelow(ds: seq<Decision>, bound: nat) {
    forall i :: 0 <= i < |ds| && ds[i].DoPatch? ==> HasIdBelow(ds[i].change, bound)
  }

  ghost predicate HasIdBelow(c: Change, bound: nat) {
    c.rec.id.Some? && c.rec.id.value < bound && Own(c.rec) == c.rec.id
  }

  lemma PatchCommutesWithCreate(env: Env, s: Store, c: Change, desired: Fields)
    requires c.rec.id.Some? && c.rec.id.value < s.nextId
    ensures Created(env, ActChange(env, s, c), desired) == ActChange(env, Created(env, s, desired), c)
  {
    assert Created(env, ActChange(env, s, c), desired).recs == ActChange(env, Created(env, s, desired), c).recs;
  }

  lemma {:induction false} PatchAfterCreates(env: Env, s: Store, c: Change, cs: seq<Entry>)
    requires c.rec.id.Some? && c.rec.id.value < s.nextId
    ensures ActCreates(env, ActChange(env, s, c), cs) == ActChange(env, ActCreates(env, s, cs), c)
    decreases |cs|
  {
    if cs != [] {
      PatchCommutesWithCreate(env, s, c, cs[0].desired);
      PatchAfterCreates(env, Created(env, s, cs[0].desired), c, cs[1..]);
    }
  }

  lemma {:induction false} PhasesCons(ds: seq<Decision>)
    requires ds != []
    ensures Creates(ds) == (if ds[0].DoCreate? then [ds[0].entry] else []) + Creates(ds[1..])
    ensures Patches(ds) == (if ds[0].DoPatch? then [ds[0].change] else []) + Patches(ds[1..])
    ensures Kept(ds) == (if ds[0].DoNothing? then [ds[0].rec] else []) + Kept(ds[1..])
  {
  }

  /** Doing all the creates first and the patches after them ends in the same store. */
  lemma {:induction false} PhasesReorder(env: Env, s: Store, ds: seq<Decision>)
    requires PatchIdsBelow(ds, s.nextId)
    ensures ActAll(env, s, ds) == ActPatches(env, ActCreates(env, s, Creates(ds)), Patches(ds))
    decreases |ds|
  {
    if ds != [] {
      var d, rest := ds[0], ds[1..];
      PhasesReorder(env, Act(env, s, d), rest);
      PhasesCons(ds);
      match d
      case DoCreate(_) =>
        assert Creates(ds)[1..] == Creates(rest);
        assert Patches(ds) == Patches(rest);
      case DoNothing(_) =>
        assert Creates(ds) == Creates(rest) && Patches(ds) == Patches(rest);
      case DoPatch(c) =>
        PatchAfterCreates(env, s, c, Creates(rest));
        assert Creates(ds) == Creates(rest);
        assert Patches(ds)[1..] == Patches(rest);
    }
  }

  /** An entry to create: complete, and under a key that is not in the store. */
  ghost predicate CreateOk(env: Env, recs: seq<Rec>, e: Entry) {
    && CarriesLookup(env, e.desired)
    && e.lookup == LookupOf(env, e.desired)
    && FirstWithKey(env, recs, e.lookup).None?
  }

  ghost predicate CreatesOk(env: Env, recs: seq<Rec>, cs: seq<Entry>) {
    && (forall i :: 0 <= i < |cs| ==> CreateOk(env, recs, cs[i]))
    && (forall i, j :: 0 <= i < j < |cs| ==> cs[i].lookup != cs[j].lookup)
  }

  lemma {:induction false} CreatesAreOk(env: Env, recs: seq<Rec>, entries: seq<Entry>)
    requires EntriesOk(env, entries)
    ensures CreatesOk(env, recs, Creates(Decisions(env, recs, entries)))
    ensures forall e :: e in Creates(Decisions(env, recs, entries)) ==> e in entries
    decreases |entries|
  {
    if entries != [] {
      DecisionsCons(env, recs, entries);
      PhasesCons(Decisions(env, recs, entries));
      CreatesAreOk(env, recs, entries[1..]);
      CreatesCons(env, recs, entries[0], entries[1..], Creates(Decisions(env, recs, entries[1..])));
    }
  }

  lemma CreatesCons(env: Env, recs: seq<Rec>, e: Entry, rest: seq<Entry>, cs: seq<Entry>)
    requires CarriesLookup(env, e.desired) && e.lookup == LookupOf(env, e.desired)
    requires forall i :: 0 <= i < |rest| ==> rest[i].lookup != e.lookup
    requires CreatesOk(env, recs, cs) && forall c :: c in cs ==> c in rest
    ensures Decide(env, recs, e).DoCreate? ==> CreatesOk(env, recs, [e] + cs)
  {
    assert forall i :: 0 <= i < |cs| ==> cs[i] in cs && cs[i] in rest;
  }

  function Tally(b: Bulk): (nat, nat, nat, nat) { (b.created, b.updated, b.same, b.failed) }

  /** The creates left to do are still all right after one of them. */
  lemma CreatesStayOk(env: Env, s: Store, cs: seq<Entry>)
    requires Faithful(env) && IdsOk(s) && cs != [] && CreatesOk(env, s.recs, cs)
    ensures CreatesOk(env, Created(env, s, cs[0].desired).recs, cs[1..])
    ensures IdsOk(Created(env, s, cs[0].desired))
  {
    var e, rest, s' := cs[0], cs[1..], Created(env, s, cs[0].desired);
    assert Decide(env, s.recs, e) == DoCreate(e);
    ActKeepsIds(env, s, DoCreate(e));
    forall i | 0 <= i < |rest|
      ensures CreateOk(env, s'.recs, rest[i])
    {
      assert CreateOk(env, s.recs, cs[i + 1]);
      ActKeepsOthers(env, s, e, rest[i].lookup);
    }
  }

  /** Reconciling the entry on its own creates it. */
  ghost predicate IsNew(env: Env, s: Store, e: Entry) {
    ReconcileOne(env, s, e) == Single(Created(env, s, e.desired), NewRec(env, s, e.desired), WasCreated)
  }

  /** Reconciling the entries one after the other creates each of them. */
  ghost predicate AllNew(env: Env, s: Store, cs: seq<Entry>)
    decreases |cs|
  {
    cs != [] ==> IsNew(env, s, cs[0]) && AllNew(env, Created(env, s, cs[0].desired), cs[1..])
  }

  lemma {:induction false} CreatesAreNew(env: Env, s: Store, cs: seq<Entry>)
    requires Faithful(env) && IdsOk(s) && CreatesOk(env, s.recs, cs)
    ensures AllNew(env, s, cs)
    decreases |cs|
  {
    if cs != [] {
      assert CreateOk(env, s.recs, cs[0]);
      FirstAgree(env, s.recs, cs[0]);
      CreatesStayOk(env, s, cs);
      CreatesAreNew(env, Created(env, s, cs[0].desired), cs[1..]);
    }
  }

  lemma {:induction false} AllNewSplit(env: Env, s: Store, batch: seq<Entry>, rest: seq<Entry>)
    requires AllNew(env, s, batch + rest)
    ensures AllNew(env, s, batch) && AllNew(env, ActCreates(env, s, batch), rest)
    decreases |batch|
  {
    if batch == [] {
      assert batch + rest == rest;
    } else {
      assert (batch + rest)[1..] == batch[1..] + rest && (batch + rest)[0] == batch[0];
      AllNewSplit(env, Created(env, s, batch[0].desired), batch[1..], rest);
    }
  }

  lemma {:induction false} ActCreatesJoin(env: Env, s: Store, batch: seq<Entry>, rest: seq<Entry>)
    ensures ActCreates(env, s, batch + rest) == ActCreates(env, ActCreates(env, s, batch), rest)
    decreases |batch|
  {
    if batch == [] {
      assert batch + rest == rest;
    } else {
      assert (batch + rest)[1..] == batch[1..] + rest;
      ActCreatesJoin(env, Created(env, s, batch[0].desired), batch[1..], rest);
    }
  }

  lemma {:induction false} ActPatchesJoin(env: Env, s: Store, batch: seq<Change>, rest: seq<Change>)
    ensures ActPatches(env, s, batch + rest) == ActPatches(env, ActPatches(env, s, batch), rest)
    decreases |batch|
  {
    if batch == [] {
      assert batch + rest == rest;
    } else {
      assert (batch + rest)[1..] == batch[1..] + rest;
      ActPatchesJoin(env, ActChange(env, s, batch[0]), batch[1..], rest);
    }
  }

  lemma {:induction false} SingleCreatesAct(
    env: Env, net: Network, k: nat, batch: seq<Entry>, j: nat, b: Bulk, left: seq<Entry>)
    requires j <= |batch| && left == batch[j..] && AllNew(env, b.store, left)
    requires forall n :: net.createItemOk(k, n)
    ensures var b' := SingleCreates(env, net, k, batch, j, b);
      b'.store == ActCreates(env, b.store, left) && Tally(b') == (b.created + |left|, b.updated, b.same, b.failed)
    decreases |batch| - j
  {
    if j < |batch| {
      assert left[0] == batch[j] && left[1..] == batch[j + 1..];
      assert IsNew(env, b.store, batch[j]);
      SingleCreatesAct(env, net, k, batch, j + 1, SingleCreate(env, net, k, j, b, batch[j]), left[1..]);
    }
  }

  /** One batch, accepted or not, performs its creates; if its answer is full, it counts them. */
  lemma {:induction false} CreateBatchActs(env: Env, net: Network, k: nat, batch: seq<Entry>, b: Bulk)
    requires AllNew(env, b.store, batch) && forall n :: net.createItemOk(k, n)
    ensures CreateBatch(env, net, k, batch, b).store == ActCreates(env, b.store, batch)
    ensures |net.createReply(k)| == |batch| ==>
      Tally(CreateBatch(env, net, k, batch, b)) == (b.created + |batch|, b.updated, b.same, b.failed)
  {
    if !net.createOk(k) {
      assert batch[0..] == batch;
      SingleCreatesAct(env, net, k, batch, 0, b, batch);
    }
  }

  /** The create phase, with any batches failing, performs the creates. */
  lemma {:induction false} CreatesAct(env: Env, net: Network, cs: seq<Entry>, k: nat, b: Bulk)
    requires AllNew(env, b.store, cs) && forall m, n :: net.createItemOk(m, n)
    ensures RunCreates(env, net, cs, k, b).store == ActCreates(env, b.store, cs)
    decreases |cs|
  {
    if cs != [] {
      var batch, rest := Head(env, cs), Rest(env, cs);
      AllNewSplit(env, b.store, batch, rest);
      CreateBatchActs(env, net, k, batch, b);
      ActCreatesJoin(env, b.store, batch, rest);
      CreatesAct(env, net, rest, k + 1, CreateBatch(env, net, k, batch, b));
    }
  }

  /** And it counts them, if every batch is fully answered. */
  lemma {:induction false} CreatesTallied(env: Env, net: Network, cs: seq<Entry>, k: nat, b: Bulk)
    requires AllNew(env, b.store, cs) && FullCreates(env, net, cs, k) && forall m, n :: net.createItemOk(m, n)
    ensures Tally(RunCreates(env, net, cs, k, b)) == (b.created + |cs|, b.updated, b.same, b.failed)
    decreases |cs|
  {
    if cs != [] {
      var batch, rest := Head(env, cs), Rest(env, cs);
      AllNewSplit(env, b.store, batch, rest);
      CreateBatchActs(env, net, k, batch, b);
      CreatesTallied(env, net, rest, k + 1, CreateBatch(env, net, k, batch, b));
    }
  }

  /** Every change is to a record with an id and no url that names another. */
  ghost predicate Addressed(ps: seq<Change>) {
    forall i :: 0 <= i < |ps| ==> ps[i].rec.id.Some? && Own(ps[i].rec) == ps[i].rec.id
  }

  lemma AddressedSplit(batch: seq<Change>, rest: seq<Change>)
    requires Addressed(batch + rest)
    ensures Addressed(batch) && Addressed(rest)
  {
    assert forall i :: 0 <= i < |batch| ==> (batch + rest)[i] == batch[i];
    assert forall i :: 0 <= i < |rest| ==> (batch + rest)[|batch| + i] == rest[i];
  }

  lemma {:induction false} SinglePatchesAct(env: Env, net: Network, k: nat, batch: seq<Change>, j: nat, b: Bulk)
    requires j <= |batch| && Addressed(batch) && forall m, n :: net.patchItemOk(m, n)
    ensures var b' := SinglePatches(env, net, k, batch, j, b);
      && b'.store == ActPatches(env, b.store, batch[j..])
      && Tally(b') == (b.created, b.updated + |batch| - j, b.same, b.failed)
    decreases |batch| - j
  {
    if j < |batch| {
      assert batch[j..][0] == batch[j] && batch[j..][1..] == batch[j + 1..];
      SinglePatchesAct(env, net, k, batch, j + 1, SinglePatch(env, net, k, j, b, batch[j]));
    }
  }

  lemma {:induction false} PatchBatchActs(env: Env, net: Network, k: nat, batch: seq<Change>, b: Bulk)
    requires Addressed(batch) && forall m, n :: net.patchItemOk(m, n)
    ensures PatchBatch(env, net, k, batch, b).store == ActPatches(env, b.store, batch)
    ensures |PatchAnswer(net, k, batch)| == |batch| ==>
      Tally(PatchBatch(env, net, k, batch, b)) == (b.created, b.updated + |batch|, b.same, b.failed)
  {
    if !PatchAccepted(net, k, batch) {
      assert batch[0..] == batch;
      SinglePatchesAct(env, net, k, batch, 0, b);
    }
  }

  /** The patch phase, with any batches failing, performs the patches. */
  lemma {:induction false} PatchesAct(env: Env, net: Network, ps: seq<Change>, k: nat, b: Bulk)
    requires Addressed(ps) && forall m, n :: net.patchItemOk(m, n)
    ensures RunPatches(env, net, ps, k, b).store == ActPatches(env, b.store, ps)
    decreases |ps|
  {
    if ps != [] {
      var batch, rest := Head(env, ps), Rest(env, ps);
      AddressedSplit(batch, rest);
      PatchBatchActs(env, net, k, batch, b);
      ActPatchesJoin(env, b.store, batch, rest);
      PatchesAct(env, net, rest, k + 1, PatchBatch(env, net, k, batch, b));
    }
  }

  /** And it counts them, if every batch is fully answered. */
  lemma {:induction false} PatchesTallied(env: Env, net: Network, ps: seq<Change>, k: nat, b: Bulk)
    requires Addressed(ps) && FullPatches(env, net, ps, k) && forall m, n :: net.patchItemOk(m, n)
    ensures Tally(RunPatches(env, net, ps, k, b)) == (b.created, b.updated + |ps|, b.same, b.failed)
    decreases |ps|
  {
    if ps != [] {
      var batch, rest := Head(env, ps), Rest(env, ps);
      AddressedSplit(batch, rest);
      PatchBatchActs(env, net, k, batch, b);
      PatchesTallied(env, net, rest, k + 1, PatchBatch(env, net, k, batch, b));
    }
  }

  lemma {:induction false} DedupIsOk(env: Env, payloads: seq<Fields>, seen: set<Fields>)
    requires forall i :: 0 <= i < |payloads| ==> CarriesLookup(env, DropNull(payloads[i]))
    ensures EntriesOk(env, Dedup(env, payloads, seen))
    ensures forall i :: 0 <= i < |Dedup(env, payloads, seen)| ==> Dedup(env, payloads, seen)[i].lookup !in seen
    decreases |payloads|
  {
    if payloads != [] {
      var desired, rest := DropNull(payloads[0]), payloads[1..];
      var lookup := LookupOf(env, desired);
      if lookup == map[] || lookup in seen {
        DedupIsOk(env, rest, seen);
      } else {
        DedupIsOk(env, rest, seen + {lookup});
        EntriesCons(env, Entry(desired, lookup), Dedup(env, rest, seen + {lookup}));
      }
    }
  }

  lemma EntriesCons(env: Env, e: Entry, rest: seq<Entry>)
    requires CarriesLookup(env, e.desired) && e.lookup == LookupOf(env, e.desired)
    requires EntriesOk(env, rest) && forall i :: 0 <= i < |rest| ==> rest[i].lookup != e.lookup
    ensures EntriesOk(env, [e] + rest)
  {
  }

  lemma DecisionIds(env: Env, s: Store, entries: seq<Entry>)
    requires IdsOk(s)
    ensures PatchIdsBelow(Decisions(env, s.recs, entries), s.nextId)
  {
    forall i | 0 <= i < |entries| {
      FirstWithKeyFound(env, s.recs, entries[i].lookup);
    }
  }

  lemma {:induction false} PhasesRun(env: Env, net: Network, s: Store, cs: seq<Entry>, ps: seq<Change>, kept: seq<Rec>)
    requires AllNew(env, s, cs) && Addressed(ps) && SinglesSucceed(net)
    ensures RunPhases(env, net, s, cs, ps, kept).store == ActPatches(env, ActCreates(env, s, cs), ps)
  {
    var b := Start(s, kept);
    CreatesAct(env, net, cs, 0, b);
    PatchesAct(env, net, ps, 0, RunCreates(env, net, cs, 0, b));
  }

  lemma {:induction false} PhasesTallied(
    env: Env, net: Network, s: Store, cs: seq<Entry>, ps: seq<Change>, kept: seq<Rec>)
    requires Tally(RunCreates(env, net, cs, 0, Start(s, kept))) == (|cs|, 0, |kept|, 0)
    requires Addressed(ps) && FullPatches(env, net, ps, 0) && forall k, j :: net.patchItemOk(k, j)
    ensures Tally(RunPhases(env, net, s, cs, ps, kept)) == (|cs|, |ps|, |kept|, 0)
  {
    PatchesTallied(env, net, ps, 0, RunCreates(env, net, cs, 0, Start(s, kept)));
  }

  /** Every single fallback request succeeds. */
  ghost predicate SinglesSucceed(net: Network) {
    (forall k, j :: net.createItemOk(k, j)) && forall k, j :: net.patchItemOk(k, j)
  }

  lemma {:induction false} PatchesHaveIds(ds: seq<Decision>, bound: nat)
    requires PatchIdsBelow(ds, bound)
    ensures Addressed(Patches(ds))
  {
    if ds != [] {
      PhasesCons(ds);
      PatchesHaveIds(ds[1..], bound);
    }
  }

  /** The refinement: with complete payloads and a faithful server, and whatever bulk requests fail as long as
      their single fallbacks succeed, the bulk call leaves the store that reconciling the de-duplicated payloads
      one after the other leaves, whatever is answered; and with full answers it counts what was decided against
      the first store. */
  lemma {:induction false} BulkRefinesSingles(env: Env, net: Network, s: Store, payloads: seq<Fields>)
    requires Faithful(env) && IdsOk(s) && SinglesSucceed(net)
    requires forall i :: 0 <= i < |payloads| ==> CarriesLookup(env, DropNull(payloads[i]))
    ensures BulkReconcile(env, net, s, payloads).store == ReconcileEach(env, s, Dedup(env, payloads, {}))
    ensures FullyAnswered(env, net, s, payloads) ==>
      var ds := Decisions(env, s.recs, Dedup(env, payloads, {}));
      Tally(BulkReconcile(env, net, s, payloads)) == (|Creates(ds)|, |Patches(ds)|, |Kept(ds)|, 0)
  {
    var entries := Dedup(env, payloads, {});
    DedupIsOk(env, payloads, {});
    EntriesRefine(env, net, s, entries);
    if FullyAnswered(env, net, s, payloads) { EntriesTallied(env, net, s, entries); }
  }

  /** What a plan made from entries in order brings to its phases. */
  lemma {:induction false} PlanIsReady(env: Env, s: Store, entries: seq<Entry>)
    requires Faithful(env) && IdsOk(s) && EntriesOk(env, entries)
    ensures var ds := Decisions(env, s.recs, entries);
      AllNew(env, s, Creates(ds)) && Addressed(Patches(ds)) && PatchIdsBelow(ds, s.nextId)
  {
    var ds := Decisions(env, s.recs, entries);
    DecisionIds(env, s, entries);
    CreatesAreOk(env, s.recs, entries);
    CreatesAreNew(env, s, Creates(ds));
    PatchesHaveIds(ds, s.nextId);
  }

  lemma {:induction false} EntriesRefine(env: Env, net: Network, s: Store, entries: seq<Entry>)
    requires Faithful(env) && IdsOk(s) && EntriesOk(env, entries) && SinglesSucceed(net)
    ensures var ds := Decisions(env, s.recs, entries);
      RunPhases(env, net, s, Creates(ds), Patches(ds), Kept(ds)).store == ReconcileEach(env, s, entries)
  {
    var ds := Decisions(env, s.recs, entries);
    EachIsActs(env, s, entries);
    PlanIsReady(env, s, entries);
    PhasesReorder(env, s, ds);
    PhasesRun(env, net, s, Creates(ds), Patches(ds), Kept(ds));
  }

  lemma {:induction false} EntriesTallied(env: Env, net: Network, s: Store, entries: seq<Entry>)
    requires Faithful(env) && IdsOk(s) && EntriesOk(env, entries) && SinglesSucceed(net)
    requires var ds := Decisions(env, s.recs, entries);
      FullCreates(env, net, Creates(ds), 0) && FullPatches(env, net, Patches(ds), 0)
    ensures var ds := Decisions(env, s.recs, entries);
      Tally(RunPhases(env, net, s, Creates(ds), Patches(ds), Kept(ds))) == (|Creates(ds)|, |Patches(ds)|, |Kept(ds)|, 0)
  {
    var ds := Decisions(env, s.recs, entries);
    PlanIsReady(env, s, entries);
    CreatesTallied(env, net, Creates(ds), 0, Start(s, Kept(ds)));
    PhasesTallied(env, net, s, Creates(ds), Patches(ds), Kept(ds));
  }

  // ---------------------------------------------------------------- what a patch and the de-duplication are

  predicate NoNull(fields: Fields) { forall k :: k in fields ==> fields[k] != Null }

  predicate MayPatch(env: Env, k: string) { env.patchable.Some? ==> k in env.patchable.value }

  /** Storing the patch makes every desired field that may be patched hold, clears every nullable one that is not
      desired and leaves the others alone; and the patch holds nothing that was already right. */
  lemma PatchIsExact(env: Env, desired: Fields, current: Fields)
    requires NoNull(desired) && NoNull(current)
    ensures var patch := PatchFor(env, desired, current);
      var after := DropNull(current + patch);
      && (forall k :: k in desired && MayPatch(env, k) ==> k in after && after[k] == desired[k])
      && (forall k :: k in env.nullable && k !in desired && MayPatch(env, k) ==> k !in after)
      && (forall k :: !MayPatch(env, k) || (k !in desired && k !in env.nullable) ==>
            (k in after <==> k in current) && (k in after ==> after[k] == current[k]))
      && (forall k :: k in patch ==> if k in current then patch[k] != current[k] else patch[k] != Null)
  {
  }

  /** De-duplication keeps, for every lookup key in use, the first payload under it. */
  lemma {:induction false} DedupKeepsFirst(env: Env, payloads: seq<Fields>, seen: set<Fields>, i: nat)
    requires i < |payloads|
    requires var lookup := LookupOf(env, DropNull(payloads[i]));
      && lookup != map[] && lookup !in seen
      && forall j :: 0 <= j < i ==> LookupOf(env, DropNull(payloads[j])) != lookup
    ensures var desired := DropNull(payloads[i]); Entry(desired, LookupOf(env, desired)) in Dedup(env, payloads, seen)
    decreases |payloads|
  {
    if i > 0 {
      var first := LookupOf(env, DropNull(payloads[0]));
      var skipped := first == map[] || first in seen;
      DedupKeepsFirst(env, payloads[1..], if skipped then seen else seen + {first}, i - 1);
    }
  }

  /** And nothing else: every entry is the first payload under its key, which is not blank. */
  lemma {:induction false} DedupOnlyFirst(env: Env, payloads: seq<Fields>, seen: set<Fields>, e: Entry) returns (i: nat)
    requires e in Dedup(env, payloads, seen)
    ensures i < |payloads| && e.desired == DropNull(payloads[i]) && e.lookup == LookupOf(env, e.desired)
    ensures e.lookup != map[] && e.lookup !in seen
    ensures forall j :: 0 <= j < i ==> LookupOf(env, DropNull(payloads[j])) != e.lookup
    decreases |payloads|
  {
    var first := DropNull(payloads[0]);
    var lookup := LookupOf(env, first);
    if lookup == map[] || lookup in seen {
      var i' := DedupOnlyFirst(env, payloads[1..], seen, e);
      i := i' + 1;
    } else if e == Entry(first, lookup) {
      i := 0;
    } else {
      var i' := DedupOnlyFirst(env, payloads[1..], seen + {lookup}, e);
      i := i' + 1;
    }
  }

  // ---------------------------------------------------------------- reconciling again changes nothing

  ghost predicate ShowsCreated(env: Env, p: Fields) {
    NoNull(p) ==>
      && Current(env, env.onCreate(p)).Some?
      && var c := Current(env, env.onCreate(p)).value;
      && (forall k :: k in p ==> k in c && c[k] == p[k])
      && (forall k :: k in env.nullable && k !in p ==> k !in c)
  }

  ghost predicate ShowsPatched(env: Env, data: Fields, patch: Fields) {
    Current(env, data).Some? ==>
      Current(env, env.onPatch(data, patch)) == Some(DropNull(Current(env, data).value + patch))
  }

  /** The normalized view of a stored record shows what was sent. */
  ghost predicate Mirrors(env: Env) {
    (forall p :: ShowsCreated(env, p)) && forall data, patch :: ShowsPatched(env, data, patch)
  }

  ghost predicate EntryOk(env: Env, e: Entry) {
    NoNull(e.desired) && CarriesLookup(env, e.desired) && e.lookup == LookupOf(env, e.desired)
  }

  /** Nothing is left to do for the entry. */
  predicate Settled(env: Env, recs: seq<Rec>, e: Entry) { Decide(env, recs, e).DoNothing? }

  lemma PatchLeavesNothing(env: Env, desired: Fields, current: Fields)
    requires NoNull(desired) && NoNull(current)
    ensures PatchFor(env, desired, DropNull(current + PatchFor(env, desired, current))) == map[]
  {
    PatchIsExact(env, desired, current);
  }

  lemma {:induction false} FirstPatchedSelf(env: Env, recs: seq<Rec>, r: Rec, patch: Fields, key: Fields)
    requires Faithful(env) && forall k :: k in patch ==> k !in env.lookupFields
    requires FirstWithKey(env, recs, key) == Some(r) && Own(r).Some?
    ensures FirstWithKey(env, PatchRecs(env, recs, Own(r).value, patch), key) == Some(Changed(env, r, patch))
  {
    var after := PatchRecs(env, recs, Own(r).value, patch);
    assert after[1..] == PatchRecs(env, recs[1..], Own(r).value, patch);
    assert KeepsKeyOnPatch(env, recs[0].data, patch);
    if KeyOf(env, recs[0].data) != Some(key) { FirstPatchedSelf(env, recs[1..], r, patch, key); }
  }

  /** After its own reconcile an entry is settled. */
  lemma OneSettles(env: Env, s: Store, e: Entry)
    requires Faithful(env) && Mirrors(env) && IdsOk(s) && EntryOk(env, e)
    ensures Settled(env, ReconcileOne(env, s, e).store.recs, e)
  {
    OneIsAct(env, s, e);
    match Decide(env, s.recs, e)
    case DoNothing(_) =>
    case DoCreate(_) =>
      var r := NewRec(env, s, e.desired);
      assert KeepsKeyOnCreate(env, e.desired) && ShowsCreated(env, e.desired);
      FirstAppendSame(env, s.recs, r, e.lookup);
      assert PatchFor(env, e.desired, Current(env, r.data).value) == map[];
    case DoPatch(c) =>
      FirstWithKeyFound(env, s.recs, e.lookup);
      PatchKeepsKey(env, e, c.rec.data);
      FirstPatchedSelf(env, s.recs, c.rec, c.patch, e.lookup);
      assert ShowsPatched(env, c.rec.data, c.patch);
      PatchLeavesNothing(env, e.desired, Current(env, c.rec.data).value);
  }

  /** The record a reconcile returns is the one now stored under the entry's key. */
  lemma {:induction false} OneReturnsStored(env: Env, s: Store, e: Entry)
    requires Faithful(env) && IdsOk(s) && CarriesLookup(env, e.desired) && e.lookup == LookupOf(env, e.desired)
    ensures var one := ReconcileOne(env, s, e); FirstWithKey(env, one.store.recs, e.lookup) == Some(one.rec)
  {
    FirstAgree(env, s.recs, e);
    FirstWithKeyFound(env, s.recs, e.lookup);
    match Decide(env, s.recs, e)
    case DoNothing(_) =>
    case DoCreate(_) =>
      assert KeepsKeyOnCreate(env, e.desired);
      FirstAppendSame(env, s.recs, NewRec(env, s, e.desired), e.lookup);
    case DoPatch(c) =>
      PatchKeepsKey(env, e, c.rec.data);
      FirstPatchedSelf(env, s.recs, c.rec, c.patch, e.lookup);
  }

  lemma {:induction false} EachKeepsOthers(env: Env, s: Store, entries: seq<Entry>, key: Fields)
    requires Faithful(env) && IdsOk(s) && EntriesOk(env, entries)
    requires forall i :: 0 <= i < |entries| ==> entries[i].lookup != key
    ensures FirstWithKey(env, ReconcileEach(env, s, entries).recs, key) == FirstWithKey(env, s.recs, key)
    decreases |entries|
  {
    if entries != [] {
      FirstOfEach(env, s, entries);
      OneIsAct(env, s, entries[0]);
      ActKeepsOthers(env, s, entries[0], key);
      EachKeepsOthers(env, ReconcileOne(env, s, entries[0]).store, entries[1..], key);
    }
  }

  /** The first of the entries, and the store after it. */
  lemma FirstOfEach(env: Env, s: Store, entries: seq<Entry>)
    requires Faithful(env) && IdsOk(s) && EntriesOk(env, entries) && entries != []
    ensures CarriesLookup(env, entries[0].desired) && entries[0].lookup == LookupOf(env, entries[0].desired)
    ensures EntriesOk(env, entries[1..]) && IdsOk(ReconcileOne(env, s, entries[0]).store)
    ensures forall i :: 0 <= i < |entries[1..]| ==> entries[1..][i].lookup != entries[0].lookup
  {
    OneIsAct(env, s, entries[0]);
    ActKeepsIds(env, s, Decide(env, s.recs, entries[0]));
  }

  lemma {:induction false} EachSettles(env: Env, s: Store, entries: seq<Entry>, i: nat)
    requires Faithful(env) && Mirrors(env) && IdsOk(s) && EntriesOk(env, entries) && i < |entries|
    requires NoNull(entries[i].desired)
    ensures Settled(env, ReconcileEach(env, s, entries).recs, entries[i])
    decreases |entries|
  {
    FirstOfEach(env, s, entries);
    if i == 0 {
      FirstSettles(env, s, entries);
    } else {
      EachSettles(env, ReconcileOne(env, s, entries[0]).store, entries[1..], i - 1);
      SettledBack(env, s, entries, i);
    }
  }

  lemma {:induction false} SettledBack(env: Env, s: Store, entries: seq<Entry>, i: nat)
    requires 0 < i < |entries|
    requires var rest := ReconcileEach(env, ReconcileOne(env, s, entries[0]).store, entries[1..]);
      Settled(env, rest.recs, entries[1..][i - 1])
    ensures Settled(env, ReconcileEach(env, s, entries).recs, entries[i])
  {
    assert entries[1..][i - 1] == entries[i];
  }

  lemma {:induction false} FirstSettles(env: Env, s: Store, entries: seq<Entry>)
    requires Faithful(env) && Mirrors(env) && IdsOk(s) && EntriesOk(env, entries) && entries != []
    requires NoNull(entries[0].desired)
    ensures Settled(env, ReconcileEach(env, s, entries).recs, entries[0])
  {
    FirstOfEach(env, s, entries);
    OneSettles(env, s, entries[0]);
    EachKeepsOthers(env, ReconcileOne(env, s, entries[0]).store, entries[1..], entries[0].lookup);
  }

  lemma {:induction false} AllKept(ds: seq<Decision>)
    requires forall i :: 0 <= i < |ds| ==> ds[i].DoNothing?
    ensures Creates(ds) == [] && Patches(ds) == [] && |Kept(ds)| == |ds|
  {
    if ds != [] { AllKept(ds[1..]); }
  }

  lemma {:induction false} DedupNoNull(env: Env, payloads: seq<Fields>, seen: set<Fields>)
    ensures forall i :: 0 <= i < |Dedup(env, payloads, seen)| ==> NoNull(Dedup(env, payloads, seen)[i].desired)
    decreases |payloads|
  {
    if payloads != [] {
      DedupNoNull(env, payloads[1..], seen);
      DedupNoNull(env, payloads[1..], seen + {LookupOf(env, DropNull(payloads[0]))});
    }
  }

  /** A call that plans nothing sends nothing, over any network: it changes nothing and reports every entry
      unchanged. */
  ghost predicate IsQuiet(env: Env, again: Network, s: Store, listed: seq<Rec>, payloads: seq<Fields>) {
    var second := BulkFrom(env, again, s, listed, payloads);
    second.store == s && Tally(second) == (0, 0, |Dedup(env, payloads, {})|, 0)
  }

  lemma {:induction false} EmptyPlanIsQuiet(
    env: Env, again: Network, s: Store, listed: seq<Rec>, payloads: seq<Fields>)
    requires Planned(env, listed, payloads) == ([], [])
    ensures IsQuiet(env, again, s, listed, payloads)
  {
    PhasesPartition(Decisions(env, listed, Dedup(env, payloads, {})));
  }

  lemma {:induction false} AcceptedCreatesAreNotSame(env: Env, net: Network, cs: seq<Entry>, k: nat, b: Bulk)
    requires forall m :: net.createOk(m)
    ensures RunCreates(env, net, cs, k, b).same == b.same
    decreases |cs|
  {
    if cs != [] {
      AcceptedCreatesAreNotSame(env, net, Rest(env, cs), k + 1, CreateBatch(env, net, k, Head(env, cs), b));
    }
  }

  lemma {:induction false} AcceptedPatchesAreNotSame(env: Env, net: Network, ps: seq<Change>, k: nat, b: Bulk)
    requires forall m :: net.patchOk(m)
    ensures RunPatches(env, net, ps, k, b).same == b.same
    decreases |ps|
  {
    if ps != [] {
      AcceptedPatchesAreNotSame(env, net, Rest(env, ps), k + 1, PatchBatch(env, net, k, Head(env, ps), b));
    }
  }

  /** A call that plans anything is not quiet where its requests are accepted. */
  lemma {:induction false} PlanIsNotQuiet(env: Env, s: Store, listed: seq<Rec>, payloads: seq<Fields>)
    requires Planned(env, listed, payloads) != ([], [])
    ensures !IsQuiet(env, Answering([]), s, listed, payloads)
  {
    var ds, net := Decisions(env, listed, Dedup(env, payloads, {})), Answering([]);
    PhasesPartition(ds);
    AcceptedCreatesAreNotSame(env, net, Creates(ds), 0, Start(s, Kept(ds)));
    AcceptedPatchesAreNotSame(env, net, Patches(ds), 0, RunCreates(env, net, Creates(ds), 0, Start(s, Kept(ds))));
  }

  /** After a bulk call, a call served the fresh list finds everything in place. */
  lemma {:induction false} FreshPlanIsEmpty(env: Env, net: Network, s: Store, payloads: seq<Fields>)
    requires Faithful(env) && Mirrors(env) && IdsOk(s) && SinglesSucceed(net)
    requires forall i :: 0 <= i < |payloads| ==> CarriesLookup(env, DropNull(payloads[i]))
    ensures Planned(env, BulkReconcile(env, net, s, payloads).store.recs, payloads) == ([], [])
  {
    BulkRefinesSingles(env, net, s, payloads);
    var entries := Dedup(env, payloads, {});
    DedupIsOk(env, payloads, {});
    DedupNoNull(env, payloads, {});
    var ds := Decisions(env, ReconcileEach(env, s, entries).recs, entries);
    forall i | 0 <= i < |ds| ensures ds[i].DoNothing? { EachSettles(env, s, entries, i); }
    AllKept(ds);
  }

  /** Every batch is accepted, and none answers an object. */
  ghost predicate SilentCreates(env: Env, net: Network, cs: seq<Entry>, k: nat)
    decreases |cs|
  {
    cs != [] ==> net.createOk(k) && net.createReply(k) == [] && SilentCreates(env, net, Rest(env, cs), k + 1)
  }

  ghost predicate SilentPatches(env: Env, net: Network, ps: seq<Change>, k: nat)
    decreases |ps|
  {
    ps != [] ==>
      && PatchAccepted(net, k, Head(env, ps)) && PatchAnswer(net, k, Head(env, ps)) == []
      && SilentPatches(env, net, Rest(env, ps), k + 1)
  }

  ghost predicate Silent(env: Env, net: Network, s: Store, payloads: seq<Fields>) {
    var (cs, ps) := Planned(env, s.recs, payloads);
    SilentCreates(env, net, cs, 0) && SilentPatches(env, net, ps, 0)
  }

  lemma {:induction false} SingleCreatesNoticed(
    env: Env, net: Network, k: nat, batch: seq<Entry>, j: nat, b: Bulk, left: seq<Entry>)
    requires j <= |batch| && left == batch[j..] && AllNew(env, b.store, left)
    requires forall n :: net.createItemOk(k, n)
    ensures SingleCreates(env, net, k, batch, j, b).noticed <==> b.noticed || left != []
    decreases |batch| - j
  {
    if j < |batch| {
      assert left[0] == batch[j] && left[1..] == batch[j + 1..];
      assert IsNew(env, b.store, batch[j]);
      SingleCreatesNoticed(env, net, k, batch, j + 1, SingleCreate(env, net, k, j, b, batch[j]), left[1..]);
    }
  }

  lemma {:induction false} CreatesNoticed(env: Env, net: Network, cs: seq<Entry>, k: nat, b: Bulk)
    requires AllNew(env, b.store, cs) && forall m, n :: net.createItemOk(m, n)
    ensures RunCreates(env, net, cs, k, b).noticed <==> b.noticed || !SilentCreates(env, net, cs, k)
    decreases |cs|
  {
    if cs != [] {
      var batch, rest := Head(env, cs), Rest(env, cs);
      AllNewSplit(env, b.store, batch, rest);
      CreateBatchActs(env, net, k, batch, b);
      assert batch[0..] == batch;
      if !net.createOk(k) { SingleCreatesNoticed(env, net, k, batch, 0, b, batch); }
      CreatesNoticed(env, net, rest, k + 1, CreateBatch(env, net, k, batch, b));
    }
  }

  lemma {:induction false} SinglePatchesNoticed(env: Env, net: Network, k: nat, batch: seq<Change>, j: nat, b: Bulk)
    requires j <= |batch| && Addressed(batch) && forall n :: net.patchItemOk(k, n)
    ensures SinglePatches(env, net, k, batch, j, b).noticed <==> b.noticed || j < |batch|
    decreases |batch| - j
  {
    if j < |batch| {
      SinglePatchesNoticed(env, net, k, batch, j + 1, SinglePatch(env, net, k, j, b, batch[j]));
    }
  }

  lemma {:induction false} PatchesNoticed(env: Env, net: Network, ps: seq<Change>, k: nat, b: Bulk)
    requires Addressed(ps) && forall m, n :: net.patchItemOk(m, n)
    ensures RunPatches(env, net, ps, k, b).noticed <==> b.noticed || !SilentPatches(env, net, ps, k)
    decreases |ps|
  {
    if ps != [] {
      var batch, rest := Head(env, ps), Rest(env, ps);
      AddressedSplit(batch, rest);
      if !PatchAccepted(net, k, batch) { SinglePatchesNoticed(env, net, k, batch, 0, b); }
      PatchesNoticed(env, net, rest, k + 1, PatchBatch(env, net, k, batch, b));
    }
  }

  /** The code forgets the cached list exactly when some batch fails, so that its items are written one by one, or
      answers an object. */
  lemma {:induction false} NoticedIff(env: Env, net: Network, s: Store, payloads: seq<Fields>)
    requires Faithful(env) && IdsOk(s) && SinglesSucceed(net)
    requires forall i :: 0 <= i < |payloads| ==> CarriesLookup(env, DropNull(payloads[i]))
    ensures BulkReconcile(env, net, s, payloads).noticed <==> !Silent(env, net, s, payloads)
  {
    var entries := Dedup(env, payloads, {});
    var ds := Decisions(env, s.recs, entries);
    DedupIsOk(env, payloads, {});
    DecisionIds(env, s, entries);
    CreatesAreOk(env, s.recs, entries);
    CreatesAreNew(env, s, Creates(ds));
    PatchesHaveIds(ds, s.nextId);
    CreatesNoticed(env, net, Creates(ds), 0, Start(s, Kept(ds)));
    PatchesNoticed(env, net, Patches(ds), 0, RunCreates(env, net, Creates(ds), 0, Start(s, Kept(ds))));
  }

  /** The cached list of the first call: when it was stored, if it was, and how long it lives. */
  datatype CachedList = CachedList(ttl: real, storedAt: Option<real>)

  predicate Alive(c: CachedList, now: real) { c.ttl > 0.0 && c.storedAt.Some? && now - c.storedAt.value < c.ttl }

  /** The list a second call is served: the first call's while it is alive and was not forgotten. */
  function Served(c: CachedList, s: Store, first: Bulk, now: real): seq<Rec> {
    if Alive(c, now) && !first.noticed then s.recs else first.store.recs
  }

  /** Convergence: the same bulk call made again sends nothing, changes nothing and reports every entry unchanged, over
      any network, exactly when the cached list has expired or was never stored, or the first call had nothing to
      write, or some batch of it failed or answered an object. */
  lemma {:induction false} SecondRunIsQuietIff(
    env: Env, net: Network, s: Store, payloads: seq<Fields>, c: CachedList, now: real)
    requires Faithful(env) && Mirrors(env) && IdsOk(s) && SinglesSucceed(net)
    requires forall i :: 0 <= i < |payloads| ==> CarriesLookup(env, DropNull(payloads[i]))
    ensures var first := BulkReconcile(env, net, s, payloads);
      (forall again: Network :: IsQuiet(env, again, first.store, Served(c, s, first, now), payloads)) <==>
        || c.ttl <= 0.0 || c.storedAt.None? || now - c.storedAt.value >= c.ttl
        || Planned(env, s.recs, payloads) == ([], [])
        || !Silent(env, net, s, payloads)
  {
    var first := BulkReconcile(env, net, s, payloads);
    var served := Served(c, s, first, now);
    NoticedIff(env, net, s, payloads);
    FreshPlanIsEmpty(env, net, s, payloads);
    if Planned(env, served, payloads) == ([], []) {
      forall again: Network ensures IsQuiet(env, again, first.store, served, payloads) {
        EmptyPlanIsQuiet(env, again, first.store, served, payloads);
      }
    } else {
      PlanIsNotQuiet(env, first.store, served, payloads);
    }
  }

  /** A call that creates one record, whose POST is accepted and answers an empty list, made again within the time to
      live: the second call is served the old list and creates the record a second time. */
  lemma {:induction false} SilentAnswerDuplicates()
    ensures var a := map["name" := Text("a")];
      var env, net, s, c := PlainEnv(), Answering([]), Store([], 1), CachedList(60.0, Some(0.0));
      var first := BulkReconcile(env, net, s, [a]);
      var second := BulkFrom(env, net, first.store, Served(c, s, first, 1.0), [a]);
      second.store.recs == [Rec(Some(1), Some(1), a), Rec(Some(2), Some(2), a)]
  {
    var a := map["name" := Text("a")];
    var env, net, s, e := PlainEnv(), Answering([]), Store([], 1), Entry(a, a);
    PlainLookup(a);
    OneCreate(env, s.recs, a, e);
    OneCreateStores(env, s, e);
    OneCreateStores(env, Created(env, s, a), e);
    var first := BulkReconcile(env, net, s, [a]);
    assert first == RunCreates(env, net, [e], 0, Start(s, []));
    var listed: seq<Rec> := [];
    assert BulkFrom(env, net, first.store, listed, [a]) == RunCreates(env, net, [e], 0, Start(first.store, []));
  }

  // ---------------------------------------------------------------- the records stored and reported

  /** The record that will be stored for an entry, from the decision about it and the number of creates before it. */
  function StoredRec(env: Env, s: Store, d: Decision, creates: nat): Rec {
    match d
    case DoNothing(r) => r
    case DoPatch(c) => Changed(env, c.rec, c.patch)
    case DoCreate(e) => Rec(Some(s.nextId + creates), Some(s.nextId + creates), env.onCreate(e.desired))
  }

  function CreatesBefore(ds: seq<Decision>, i: nat): nat
    requires i <= |ds|
  {
    |Creates(ds[..i])|
  }

  lemma {:induction false} CreatesBeforeCons(ds: seq<Decision>, i: nat)
    requires 0 < i <= |ds|
    ensures CreatesBefore(ds, i) == (if ds[0].DoCreate? then 1 else 0) + CreatesBefore(ds[1..], i - 1)
  {
    assert ds[..i][1..] == ds[1..][..i - 1];
    PhasesCons(ds[..i]);
  }

  /** The decisions about the entries after the first, and the number of the next create, after the first. */
  lemma {:induction false} AfterFirst(env: Env, s: Store, entries: seq<Entry>)
    requires Faithful(env) && IdsOk(s) && EntriesOk(env, entries) && entries != []
    ensures var ds, s' := Decisions(env, s.recs, entries), ReconcileOne(env, s, entries[0]).store;
      && Decisions(env, s'.recs, entries[1..]) == ds[1..]
      && s'.nextId == s.nextId + if ds[0].DoCreate? then 1 else 0
  {
    FirstOfEach(env, s, entries);
    OneIsAct(env, s, entries[0]);
    DecisionsCons(env, s.recs, entries);
    DecisionsStay(env, s, entries[0], entries[1..]);
  }

  lemma {:induction false} StoredRecShifts(env: Env, s: Store, s': Store, ds: seq<Decision>, i: nat)
    requires 0 < i < |ds| && s'.nextId == s.nextId + if ds[0].DoCreate? then 1 else 0
    ensures StoredRec(env, s', ds[1..][i - 1], CreatesBefore(ds[1..], i - 1)) ==
      StoredRec(env, s, ds[i], CreatesBefore(ds, i))
  {
    CreatesBeforeCons(ds, i);
  }

  /** After reconciling the entries one after the other, the record stored under each one's key is the one its decision
      promised. */
  lemma {:induction false} EntryIsStored(env: Env, s: Store, entries: seq<Entry>, i: nat)
    requires Faithful(env) && IdsOk(s) && EntriesOk(env, entries) && i < |entries|
    ensures var ds := Decisions(env, s.recs, entries);
      FirstWithKey(env, ReconcileEach(env, s, entries).recs, entries[i].lookup)
        == Some(StoredRec(env, s, ds[i], CreatesBefore(ds, i)))
    decreases |entries|
  {
    FirstOfEach(env, s, entries);
    if i == 0 {
      FirstStays(env, s, entries);
    } else {
      var s' := ReconcileOne(env, s, entries[0]).store;
      AfterFirst(env, s, entries);
      EntryIsStored(env, s', entries[1..], i - 1);
      StoredRecShifts(env, s, s', Decisions(env, s.recs, entries), i);
    }
  }

  lemma {:induction false} FirstStays(env: Env, s: Store, entries: seq<Entry>)
    requires Faithful(env) && IdsOk(s) && EntriesOk(env, entries) && entries != []
    ensures var ds := Decisions(env, s.recs, entries);
      FirstWithKey(env, ReconcileEach(env, s, entries).recs, entries[0].lookup)
        == Some(StoredRec(env, s, ds[0], CreatesBefore(ds, 0)))
  {
    FirstOfEach(env, s, entries);
    FirstIsStored(env, s, entries[0]);
    EachKeepsOthers(env, ReconcileOne(env, s, entries[0]).store, entries[1..], entries[0].lookup);
    assert Decisions(env, s.recs, entries)[..0] == [];
  }

  lemma {:induction false} FirstIsStored(env: Env, s: Store, e: Entry)
    requires Faithful(env) && IdsOk(s) && CarriesLookup(env, e.desired) && e.lookup == LookupOf(env, e.desired)
    ensures FirstWithKey(env, ReconcileOne(env, s, e).store.recs, e.lookup) ==
      Some(StoredRec(env, s, Decide(env, s.recs, e), 0))
  {
    OneReturnsStored(env, s, e);
    FirstAgree(env, s.recs, e);
    FirstWithKeyFound(env, s.recs, e.lookup);
  }

  /** The record a bulk call creates for the j-th of its creates. */
  function MadeRec(env: Env, s: Store, cs: seq<Entry>, j: nat): Rec
    requires j < |cs|
  {
    Rec(Some(s.nextId + j), Some(s.nextId + j), env.onCreate(cs[j].desired))
  }

  ghost predicate IsMade(env: Env, s: Store, cs: seq<Entry>, r: Rec) {
    exists j :: 0 <= j < |cs| && r == MadeRec(env, s, cs, j)
  }

  ghost predicate IsCreateAnswer(net: Network, r: Rec) { exists k :: r in net.createReply(k) }

  ghost predicate IsPatchAnswer(net: Network, r: Rec) { exists k :: r in net.patchReply(k) }

  lemma {:induction false} MadeLater(env: Env, s: Store, s': Store, batch: seq<Entry>, rest: seq<Entry>, r: Rec)
    requires s'.nextId == s.nextId + |batch| && IsMade(env, s', rest, r)
    ensures IsMade(env, s, batch + rest, r)
  {
    var j :| 0 <= j < |rest| && r == MadeRec(env, s', rest, j);
    assert r == MadeRec(env, s, batch + rest, |batch| + j);
  }

  lemma {:induction false} MadeEarlier(env: Env, s: Store, batch: seq<Entry>, rest: seq<Entry>, r: Rec)
    requires IsMade(env, s, batch, r)
    ensures IsMade(env, s, batch + rest, r)
  {
    var j :| 0 <= j < |batch| && r == MadeRec(env, s, batch, j);
    assert r == MadeRec(env, s, batch + rest, j);
  }

  lemma {:induction false} CreatesNumber(env: Env, s: Store, cs: seq<Entry>)
    ensures ActCreates(env, s, cs).nextId == s.nextId + |cs|
    decreases |cs|
  {
    if cs != [] { CreatesNumber(env, Created(env, s, cs[0].desired), cs[1..]); }
  }

  lemma {:induction false} SingleCreatesReport(
    env: Env, net: Network, k: nat, batch: seq<Entry>, j: nat, b: Bulk, left: seq<Entry>, r: Rec)
    requires j <= |batch| && left == batch[j..] && AllNew(env, b.store, left)
    requires forall n :: net.createItemOk(k, n)
    requires r in SingleCreates(env, net, k, batch, j, b).records
    ensures r in b.records || IsMade(env, b.store, left, r)
    decreases |batch| - j
  {
    if j < |batch| {
      var b' := SingleCreate(env, net, k, j, b, batch[j]);
      assert left[0] == batch[j] && left[1..] == batch[j + 1..] && left == [left[0]] + left[1..];
      assert IsNew(env, b.store, batch[j]);
      SingleCreatesReport(env, net, k, batch, j + 1, b', left[1..], r);
      if IsMade(env, b'.store, left[1..], r) { MadeLater(env, b.store, b'.store, [left[0]], left[1..], r); }
      assert NewRec(env, b.store, left[0].desired) == MadeRec(env, b.store, left, 0);
    }
  }

  lemma {:induction false} CreatesReport(env: Env, net: Network, cs: seq<Entry>, k: nat, b: Bulk, r: Rec)
    requires AllNew(env, b.store, cs) && forall m, n :: net.createItemOk(m, n)
    requires r in RunCreates(env, net, cs, k, b).records
    ensures r in b.records || IsCreateAnswer(net, r) || IsMade(env, b.store, cs, r)
    decreases |cs|
  {
    if cs != [] {
      var batch, rest := Head(env, cs), Rest(env, cs);
      var b' := CreateBatch(env, net, k, batch, b);
      AllNewSplit(env, b.store, batch, rest);
      CreateBatchActs(env, net, k, batch, b);
      CreatesNumber(env, b.store, batch);
      CreatesReport(env, net, rest, k + 1, b', r);
      if IsMade(env, b'.store, rest, r) { MadeLater(env, b.store, b'.store, batch, rest, r); }
      if r in b'.records && !net.createOk(k) {
        assert batch[0..] == batch;
        SingleCreatesReport(env, net, k, batch, 0, b, batch, r);
        if IsMade(env, b.store, batch, r) { MadeEarlier(env, b.store, batch, rest, r); }
      }
    }
  }

  ghost predicate IsPatched(env: Env, ps: seq<Change>, r: Rec) {
    exists c :: c in ps && r == Changed(env, c.rec, c.patch)
  }

  lemma {:induction false} SinglePatchesReport(
    env: Env, net: Network, k: nat, batch: seq<Change>, j: nat, b: Bulk, r: Rec)
    requires j <= |batch| && r in SinglePatches(env, net, k, batch, j, b).records
    ensures r in b.records || IsPatched(env, batch, r)
    decreases |batch| - j
  {
    if j < |batch| {
      assert batch[j] in batch;
      SinglePatchesReport(env, net, k, batch, j + 1, SinglePatch(env, net, k, j, b, batch[j]), r);
    }
  }

  lemma {:induction false} PatchesReport(env: Env, net: Network, ps: seq<Change>, k: nat, b: Bulk, r: Rec)
    requires r in RunPatches(env, net, ps, k, b).records
    ensures r in b.records || IsPatchAnswer(net, r) || IsPatched(env, ps, r)
    decreases |ps|
  {
    if ps != [] {
      var batch, rest := Head(env, ps), Rest(env, ps);
      var b' := PatchBatch(env, net, k, batch, b);
      assert forall c :: c in batch || c in rest ==> c in batch + rest;
      PatchesReport(env, net, rest, k + 1, b', r);
      if r in b'.records && !PatchAccepted(net, k, batch) { SinglePatchesReport(env, net, k, batch, 0, b, r); }
    }
  }

  lemma {:induction false} NthCreate(ds: seq<Decision>, j: nat) returns (i: nat)
    requires j < |Creates(ds)|
    ensures i < |ds| && ds[i] == DoCreate(Creates(ds)[j]) && CreatesBefore(ds, i) == j
  {
    PhasesCons(ds);
    if ds[0].DoCreate? && j == 0 {
      i := 0;
      assert ds[..0] == [];
    } else {
      var i' := NthCreate(ds[1..], if ds[0].DoCreate? then j - 1 else j);
      i := i' + 1;
      CreatesBeforeCons(ds, i);
    }
  }

  lemma {:induction false} PatchIndex(ds: seq<Decision>, c: Change) returns (i: nat)
    requires c in Patches(ds)
    ensures i < |ds| && ds[i] == DoPatch(c)
  {
    PhasesCons(ds);
    if ds[0] == DoPatch(c) {
      i := 0;
    } else {
      var i' := PatchIndex(ds[1..], c);
      i := i' + 1;
    }
  }

  lemma {:induction false} KeptIndex(ds: seq<Decision>, r: Rec) returns (i: nat)
    requires r in Kept(ds)
    ensures i < |ds| && ds[i] == DoNothing(r)
  {
    PhasesCons(ds);
    if ds[0] == DoNothing(r) {
      i := 0;
    } else {
      var i' := KeptIndex(ds[1..], r);
      i := i' + 1;
    }
  }

  /** The record stored, at the end of a bulk call, under the key of one of its entries. */
  ghost predicate IsEntrysRecord(env: Env, s: Store, entries: seq<Entry>, r: Rec) {
    exists i :: 0 <= i < |entries| && FirstWithKey(env, s.recs, entries[i].lookup) == Some(r)
  }

  lemma {:induction false} PlanReports(env: Env, net: Network, s: Store, entries: seq<Entry>, r: Rec)
    requires Faithful(env) && IdsOk(s) && EntriesOk(env, entries) && SinglesSucceed(net)
    requires var ds := Decisions(env, s.recs, entries);
      r in RunPhases(env, net, s, Creates(ds), Patches(ds), Kept(ds)).records
    ensures var ds := Decisions(env, s.recs, entries);
      || IsCreateAnswer(net, r) || IsPatchAnswer(net, r)
      || exists i :: 0 <= i < |ds| && r == StoredRec(env, s, ds[i], CreatesBefore(ds, i))
  {
    var ds := Decisions(env, s.recs, entries);
    var b := RunCreates(env, net, Creates(ds), 0, Start(s, Kept(ds)));
    CreatesAreOk(env, s.recs, entries);
    CreatesAreNew(env, s, Creates(ds));
    PatchesReport(env, net, Patches(ds), 0, b, r);
    if IsPatched(env, Patches(ds), r) {
      var c :| c in Patches(ds) && r == Changed(env, c.rec, c.patch);
      var i := PatchIndex(ds, c);
      assert r == StoredRec(env, s, ds[i], CreatesBefore(ds, i));
    } else if r in b.records {
      CreatesReport(env, net, Creates(ds), 0, Start(s, Kept(ds)), r);
      if r in Kept(ds) {
        var i := KeptIndex(ds, r);
        assert r == StoredRec(env, s, ds[i], CreatesBefore(ds, i));
      } else if IsMade(env, s, Creates(ds), r) {
        var j :| 0 <= j < |Creates(ds)| && r == MadeRec(env, s, Creates(ds), j);
        var i := NthCreate(ds, j);
        assert r == StoredRec(env, s, ds[i], CreatesBefore(ds, i));
      }
    }
  }

  /** Every record a bulk call reports was answered by a bulk request, or is the record now stored under the key of one
      of its entries: unchanged, created or saved. */
  lemma {:induction false} ReportedAreStored(env: Env, net: Network, s: Store, payloads: seq<Fields>, r: Rec)
    requires Faithful(env) && IdsOk(s) && SinglesSucceed(net)
    requires forall i :: 0 <= i < |payloads| ==> CarriesLookup(env, DropNull(payloads[i]))
    requires r in BulkReconcile(env, net, s, payloads).records
    ensures
      || IsCreateAnswer(net, r) || IsPatchAnswer(net, r)
      || IsEntrysRecord(env, BulkReconcile(env, net, s, payloads).store, Dedup(env, payloads, {}), r)
  {
    var entries := Dedup(env, payloads, {});
    var ds := Decisions(env, s.recs, entries);
    DedupIsOk(env, payloads, {});
    BulkRefinesSingles(env, net, s, payloads);
    PlanReports(env, net, s, entries, r);
    if !IsCreateAnswer(net, r) && !IsPatchAnswer(net, r) {
      var i :| 0 <= i < |ds| && r == StoredRec(env, s, ds[i], CreatesBefore(ds, i));
      EntryIsStored(env, s, entries, i);
    }
  }

  // ---------------------------------------------------------------- the loops

  /** The de-duplication loop. */
  method CollectEntries(env: Env, payloads: seq<Fields>) returns (entries: seq<Entry>)
    ensures entries == Dedup(env, payloads, {})
  {
    entries := [];
    var seen: set<Fields>, i := {}, 0;
    while i < |payloads|
      invariant 0 <= i <= |payloads|
      invariant entries + Dedup(env, payloads[i..], seen) == Dedup(env, payloads, {})
    {
      assert payloads[i..][1..] == payloads[i + 1..];
      var desired := DropNull(payloads[i]);
      var lookup := LookupOf(env, desired);
      if lookup != map[] && lookup !in seen {
        entries := entries + [Entry(desired, lookup)];
        seen := seen + {lookup};
      }
      i := i + 1;
    }
  }

  /** The groups agree with a search of the records read so far. */
  ghost predicate Grouped(env: Env, recs: seq<Rec>, groups: map<Fields, seq<Rec>>) {
    forall key :: if key in groups then groups[key] != [] && FirstWithKey(env, recs, key) == Some(groups[key][0])
                  else FirstWithKey(env, recs, key).None?
  }

  lemma {:induction false} FirstAppendSame(env: Env, recs: seq<Rec>, r: Rec, key: Fields)
    requires KeyOf(env, r.data) == Some(key)
    ensures FirstWithKey(env, recs + [r], key) ==
      if FirstWithKey(env, recs, key).Some? then FirstWithKey(env, recs, key) else Some(r)
  {
    if recs != [] {
      assert (recs + [r])[1..] == recs[1..] + [r];
      FirstAppendSame(env, recs[1..], r, key);
    }
  }

  lemma GroupedStep(env: Env, recs: seq<Rec>, r: Rec, groups: map<Fields, seq<Rec>>)
    requires Grouped(env, recs, groups)
    ensures KeyOf(env, r.data).None? ==> Grouped(env, recs + [r], groups)
    ensures KeyOf(env, r.data).Some? ==>
      var key := KeyOf(env, r.data).value;
      Grouped(env, recs + [r], groups[key := (if key in groups then groups[key] else []) + [r]])
  {
    forall k
      ensures FirstWithKey(env, recs + [r], k) ==
        if FirstWithKey(env, recs, k).None? && KeyOf(env, r.data) == Some(k) then Some(r)
        else FirstWithKey(env, recs, k)
    {
      if KeyOf(env, r.data) == Some(k) {
        FirstAppendSame(env, recs, r, k);
      } else {
        FirstAppend(env, recs, r, k);
      }
    }
  }

  /** The grouping loop over the existing records. */
  method GroupExisting(env: Env, recs: seq<Rec>) returns (groups: map<Fields, seq<Rec>>)
    ensures Grouped(env, recs, groups)
  {
    groups := map[];
    var i := 0;
    while i < |recs|
      invariant 0 <= i <= |recs| && Grouped(env, recs[..i], groups)
    {
      GroupedStep(env, recs[..i], recs[i], groups);
      assert recs[..i] + [recs[i]] == recs[..i + 1];
      var key := KeyOf(env, recs[i].data);
      if key.Some? {
        groups := groups[key.value := (if key.value in groups then groups[key.value] else []) + [recs[i]]];
      }
      i := i + 1;
    }
    assert recs[..|recs|] == recs;
  }

  /** One create batch: one request, or the loop over its items. */
  method SendCreates(env: Env, net: Network, k: nat, batch: seq<Entry>, b0: Bulk) returns (b: Bulk)
    ensures b == CreateBatch(env, net, k, batch, b0)
  {
    b := b0;
    if net.createOk(k) {
      var reply := net.createReply(k);
      b := b.(store := ActCreates(env, b.store, batch), records := b.records + reply, created := b.created + |reply|,
              noticed := b.noticed || reply != []);
      return;
    }
    var j := 0;
    while j < |batch|
      invariant 0 <= j <= |batch|
      invariant SingleCreates(env, net, k, batch, j, b) == SingleCreates(env, net, k, batch, 0, b0)
    {
      b := SingleCreate(env, net, k, j, b, batch[j]);
      j := j + 1;
    }
  }

  ghost predicate AllCreatesOk(env: Env, net: Network, cs: seq<Entry>, k: nat)
    decreases |cs|
  {
    cs != [] ==> net.createOk(k) && AllCreatesOk(env, net, Rest(env, cs), k + 1)
  }

  /** The create phase; it stops with nothing at the first failing batch when it may not fall back. */
  method CreateBatches(env: Env, net: Network, cs: seq<Entry>, b0: Bulk, fallback: bool)
    returns (r: Option<Bulk>)
    ensures r.None? <==> !fallback && !AllCreatesOk(env, net, cs, 0)
    ensures r.Some? ==> r.value == RunCreates(env, net, cs, 0, b0)
  {
    var b, k, left := b0, 0, cs;
    while left != []
      invariant AllCreatesOk(env, net, cs, 0) ==> AllCreatesOk(env, net, left, k)
      invariant !fallback && AllCreatesOk(env, net, left, k) ==> AllCreatesOk(env, net, cs, 0)
      invariant RunCreates(env, net, left, k, b) == RunCreates(env, net, cs, 0, b0)
      decreases |left|
    {
      if !net.createOk(k) && !fallback { return None; }
      b := SendCreates(env, net, k, Head(env, left), b);
      left, k := Rest(env, left), k + 1;
    }
    return Some(b);
  }

  /** One patch batch: one request, or the loop over its items. */
  method SendPatches(env: Env, net: Network, k: nat, batch: seq<Change>, b0: Bulk) returns (b: Bulk)
    ensures b == PatchBatch(env, net, k, batch, b0)
  {
    b := b0;
    if PatchAccepted(net, k, batch) {
      var reply := PatchAnswer(net, k, batch);
      b := b.(store := ActPatches(env, b.store, batch), records := b.records + reply, updated := b.updated + |reply|,
              noticed := b.noticed || reply != []);
      return;
    }
    var j := 0;
    while j < |batch|
      invariant 0 <= j <= |batch|
      invariant SinglePatches(env, net, k, batch, j, b) == SinglePatches(env, net, k, batch, 0, b0)
    {
      b := SinglePatch(env, net, k, j, b, batch[j]);
      j := j + 1;
    }
  }

  ghost predicate AllPatchesOk(env: Env, net: Network, ps: seq<Change>, k: nat)
    decreases |ps|
  {
    ps != [] ==> PatchAccepted(net, k, Head(env, ps)) && AllPatchesOk(env, net, Rest(env, ps), k + 1)
  }

  /** The patch phase; it stops with nothing at the first failing batch when it may not fall back. */
  method PatchBatches(env: Env, net: Network, ps: seq<Change>, b0: Bulk, fallback: bool)
    returns (r: Option<Bulk>)
    ensures r.None? <==> !fallback && !AllPatchesOk(env, net, ps, 0)
    ensures r.Some? ==> r.value == RunPatches(env, net, ps, 0, b0)
  {
    var b, k, left := b0, 0, ps;
    while left != []
      invariant AllPatchesOk(env, net, ps, 0) ==> AllPatchesOk(env, net, left, k)
      invariant !fallback && AllPatchesOk(env, net, left, k) ==> AllPatchesOk(env, net, ps, 0)
      invariant RunPatches(env, net, left, k, b) == RunPatches(env, net, ps, 0, b0)
      decreases |left|
    {
      if !PatchAccepted(net, k, Head(env, left)) && !fallback { return None; }
      b := SendPatches(env, net, k, Head(env, left), b);
      left, k := Rest(env, left), k + 1;
    }
    return Some(b);
  }

  /** The plan of the decisions before `i`, completed by the decisions from `i` on, is the whole plan. */
  ghost predicate PlanSoFar(
    ds: seq<Decision>, i: nat, creates: seq<Entry>, patches: seq<Change>, kept: seq<Rec>)
  {
    && i <= |ds|
    && creates + Creates(ds[i..]) == Creates(ds)
    && patches + Patches(ds[i..]) == Patches(ds)
    && kept + Kept(ds[i..]) == Kept(ds)
  }

  lemma PlanStep(ds: seq<Decision>, i: nat, creates: seq<Entry>, patches: seq<Change>, kept: seq<Rec>)
    requires i < |ds| && PlanSoFar(ds, i, creates, patches, kept)
    ensures ds[i].DoCreate? ==> PlanSoFar(ds, i + 1, creates + [ds[i].entry], patches, kept)
    ensures ds[i].DoPatch? ==> PlanSoFar(ds, i + 1, creates, patches + [ds[i].change], kept)
    ensures ds[i].DoNothing? ==> PlanSoFar(ds, i + 1, creates, patches, kept + [ds[i].rec])
  {
    assert ds[i..][0] == ds[i] && ds[i..][1..] == ds[i + 1..];
    PhasesCons(ds[i..]);
  }

  /** The plan loop over the entries, each looked up in the groups. */
  method PlanAll(env: Env, recs: seq<Rec>, entries: seq<Entry>, groups: map<Fields, seq<Rec>>)
    returns (creates: seq<Entry>, patches: seq<Change>, kept: seq<Rec>)
    requires Grouped(env, recs, groups)
    ensures var ds := Decisions(env, recs, entries);
      creates == Creates(ds) && patches == Patches(ds) && kept == Kept(ds)
  {
    ghost var ds := Decisions(env, recs, entries);
    creates, patches, kept := [], [], [];
    var i := 0;
    assert ds[0..] == ds;
    while i < |entries|
      invariant PlanSoFar(ds, i, creates, patches, kept)
    {
      var d := DecideFromGroups(env, groups, entries[i]);
      assert ds[i] == d;
      PlanStep(ds, i, creates, patches, kept);
      if d.DoCreate? {
        creates := creates + [d.entry];
      } else if d.DoPatch? {
        patches := patches + [d.change];
      } else {
        kept := kept + [d.rec];
      }
      i := i + 1;
    }
  }

  function DecideFromGroups(env: Env, groups: map<Fields, seq<Rec>>, e: Entry): Decision
    requires forall key :: key in groups ==> groups[key] != []
  {
    if e.lookup !in groups then DoCreate(e) else
    var rec := groups[e.lookup][0];
    var current := Current(env, rec.data);
    var patch := if current.Some? then PatchFor(env, e.desired, current.value) else map[];
    if patch == map[] then DoNothing(rec) else DoPatch(Change(rec, patch))
  }

  ghost predicate AllAccepted(env: Env, net: Network, listed: seq<Rec>, payloads: seq<Fields>) {
    var (cs, ps) := Planned(env, listed, payloads);
    AllCreatesOk(env, net, cs, 0) && AllPatchesOk(env, net, ps, 0)
  }

  /** The whole bulk call; nothing is returned when a batch fails and the fallback is disabled. */
  method RunBulkReconcile(
    env: Env, net: Network, s: Store, listed: seq<Rec>, payloads: seq<Fields>, fallback: bool)
    returns (r: Option<Bulk>)
    ensures r.Some? ==> r.value == BulkFrom(env, net, s, listed, payloads)
    ensures r.None? <==> !fallback && !AllAccepted(env, net, listed, payloads)
  {
    var entries := CollectEntries(env, payloads);
    var groups := GroupExisting(env, listed);
    var creates, patches, kept := PlanAll(env, listed, entries, groups);
    var created := CreateBatches(env, net, creates, Start(s, kept), fallback);
    if created.None? { return None; }
    r := PatchBatches(env, net, patches, created.value, fallback);
  }
}
