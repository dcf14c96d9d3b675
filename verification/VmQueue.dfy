/** Convergence of a whole VM queue: what a second run finds once all patches of the first have been stored. */
module VmQueue {
  import opened Wrappers
  import opened Text
  import opened Json
  import opened VmNormalize
  import opened VmDiff
  import opened VmEngine

  // ---------------------------------------------------------------- storing the patches of a run

  datatype Write = Write(place: nat, patch: Fields)

  /** What an operation stores: the patch of an UPDATE. */
  function WriteOf(snapshot: seq<Json>, p: Prepared, flags: Flags): (r: Option<Write>)
    ensures r.Some? ==> r.value.place < |snapshot|
  {
    var place, op := Find(snapshot, p), OperationFor(snapshot, p, flags);
    if place.None? || op.action != UPDATE then None else Some(Write(place.value, op.patch))
  }

  function Writes(snapshot: seq<Json>, prepared: seq<Prepared>, flags: Flags): (r: seq<Option<Write>>)
    ensures |r| == |prepared|
    ensures forall m :: 0 <= m < |r| ==> r[m] == WriteOf(snapshot, prepared[m], flags)
  {
    seq(|prepared|, m requires 0 <= m < |prepared| => WriteOf(snapshot, prepared[m], flags))
  }

  ghost predicate Fit(writes: seq<Option<Write>>, size: nat) {
    forall m :: 0 <= m < |writes| && writes[m].Some? ==> writes[m].value.place < size
  }

  /** The snapshot once the first `n` writes have been stored, in order. */
  function StoreWrites(snapshot: seq<Json>, writes: seq<Option<Write>>, n: nat): (r: seq<Json>)
    requires n <= |writes| && Fit(writes, |snapshot|)
    ensures |r| == |snapshot|
  {
    if n == 0 then snapshot else
    var before, write := StoreWrites(snapshot, writes, n - 1), writes[n - 1];
    if write.None? then before
    else before[write.value.place := Obj(FieldsOf(before[write.value.place]) + write.value.patch)]
  }

  /** No two writes go to the same place. */
  ghost predicate WritesApart(writes: seq<Option<Write>>) {
    forall m, n :: 0 <= m < n < |writes| && writes[m].Some? && writes[n].Some? ==>
      writes[m].value.place != writes[n].value.place
  }

  lemma {:induction false} StoreWritesAt(snapshot: seq<Json>, writes: seq<Option<Write>>, n: nat, i: nat)
    requires n <= |writes| && Fit(writes, |snapshot|) && WritesApart(writes) && i < |snapshot|
    ensures (forall m :: 0 <= m < n && writes[m].Some? ==> writes[m].value.place != i) ==>
      StoreWrites(snapshot, writes, n)[i] == snapshot[i]
    ensures forall m :: 0 <= m < n && writes[m].Some? && writes[m].value.place == i ==>
      StoreWrites(snapshot, writes, n)[i] == Obj(FieldsOf(snapshot[i]) + writes[m].value.patch)
  {
    if n > 0 { StoreWritesAt(snapshot, writes, n - 1, i); }
  }

  // ---------------------------------------------------------------- finding the records again

  lemma {:induction false} SameCandidates(snapshot: seq<Json>, after: seq<Json>, n: nat, scope: Scope, key: Key)
    requires |after| == |snapshot| && n <= |snapshot| && SameKeys(snapshot, after, scope)
    ensures Candidates(after, n, scope, key) == Candidates(snapshot, n, scope, key)
  {
    if n > 0 { SameCandidates(snapshot, after, n - 1, scope, key); }
  }

  ghost predicate SameKeys(snapshot: seq<Json>, after: seq<Json>, scope: Scope) {
    |after| == |snapshot| && forall i :: 0 <= i < |after| ==> KeyIn(scope, after[i]) == KeyIn(scope, snapshot[i])
  }

  /** A record that would be taken by this key and type. */
  predicate Fits(record: Json, scope: Scope, key: Key, vmType: Option<string>) {
    KeyIn(scope, record) == Some(key) && vmType.Some? && RecordType(record) == vmType
  }

  /** Where all keys stay, a VM finds again a record that stays its own, unless an earlier one fits it too. */
  lemma OwnIsFound(snapshot: seq<Json>, after: seq<Json>, scope: Scope, key: Key, vmType: Option<string>, i: nat)
    requires SameKeys(snapshot, after, scope) && SelectIndex(snapshot, scope, key, vmType) == Some(i)
    requires StaysOwn(snapshot, scope, key, vmType, after[i])
    requires forall j :: 0 <= j < i ==> !Fits(after[j], scope, key, vmType)
    ensures SelectIndex(after, scope, key, vmType) == Some(i)
  {
    SameCandidates(snapshot, after, |snapshot|, scope, key);
    SelectedKey(snapshot, scope, key, vmType);
    OneCandidate(snapshot, scope, key, i);
    if vmType.Some? {
      FirstTypedIs(after, |after|, scope, key, vmType.value);
      var found := FirstTyped(after, |after|, scope, key, vmType.value);
      if RecordType(after[i]) == vmType {
        assert found.Some? && Fits(after[found.value], scope, key, vmType);
      } else {
        SoleUntyped(after, scope, key, vmType.value, i);
      }
    }
  }

  /** Where all keys stay, a record that is found again has stayed the VM's own. */
  lemma FoundIsOwn(snapshot: seq<Json>, after: seq<Json>, scope: Scope, key: Key, vmType: Option<string>, i: nat)
    requires SameKeys(snapshot, after, scope) && SelectIndex(after, scope, key, vmType) == Some(i)
    ensures StaysOwn(snapshot, scope, key, vmType, after[i])
  {
    SameCandidates(snapshot, after, |snapshot|, scope, key);
    SelectedType(after, scope, key, vmType, i);
  }

  /** Before the run, no earlier record fits a VM better than the one it selects. */
  lemma NothingEarlier(snapshot: seq<Json>, scope: Scope, key: Key, vmType: Option<string>, i: nat, j: nat)
    requires SelectIndex(snapshot, scope, key, vmType) == Some(i) && j < i
    ensures !Fits(snapshot[j], scope, key, vmType)
  {
    if vmType.Some? { FirstTypedIs(snapshot, |snapshot|, scope, key, vmType.value); }
  }

  /** Of two VMs with records of their own, the record that stays one's own does not fit the other. */
  lemma OwnFitsNoOther(
    snapshot: seq<Json>, scope: Scope, key: Key, vmType: Option<string>, i: nat, key': Key, vmType': Option<string>,
    j: nat, v: Json)
    requires SelectIndex(snapshot, scope, key, vmType) == Some(i)
    requires SelectIndex(snapshot, scope, key', vmType') == Some(j) && i != j
    requires StaysOwn(snapshot, scope, key', vmType', v)
    ensures !Fits(v, scope, key, vmType)
  {
    if key == key' {
      SelectedKey(snapshot, scope, key, vmType);
      SelectedKey(snapshot, scope, key, vmType');
      OneCandidate(snapshot, scope, key, i);
      OneCandidate(snapshot, scope, key, j);
      CandidatesAre(snapshot, |snapshot|, scope, key);
    }
  }

  // ---------------------------------------------------------------- the whole queue

  /** No two VMs of the queue have the same record. */
  ghost predicate PlacesApart(snapshot: seq<Json>, prepared: seq<Prepared>) {
    forall m, n :: 0 <= m < n < |prepared| && Find(snapshot, prepared[m]).Some? ==>
      Find(snapshot, prepared[m]) != Find(snapshot, prepared[n])
  }

  /** Besides, the VMs are looked up in one kind of scope. */
  ghost predicate Apart(snapshot: seq<Json>, prepared: seq<Prepared>, scope: Scope) {
    && PlacesApart(snapshot, prepared)
    && forall m :: 0 <= m < |prepared| && WantedScope(prepared[m]).Some? ==> WantedScope(prepared[m]).value.0 == scope
  }

  function AfterRun(snapshot: seq<Json>, prepared: seq<Prepared>, flags: Flags): (r: seq<Json>)
    ensures |r| == |snapshot|
  {
    StoreWrites(snapshot, Writes(snapshot, prepared, flags), |prepared|)
  }

  /** Every record after the run is as it was, or the patched record of the VM it belongs to. */
  lemma AfterRunAt(snapshot: seq<Json>, prepared: seq<Prepared>, flags: Flags, i: nat)
    requires PlacesApart(snapshot, prepared) && i < |snapshot|
    ensures forall m :: 0 <= m < |prepared| && Find(snapshot, prepared[m]) == Some(i) ==>
      AfterRun(snapshot, prepared, flags)[i] == RecordAfter(snapshot, prepared[m], flags)
    ensures (forall m :: 0 <= m < |prepared| ==> Find(snapshot, prepared[m]) != Some(i)) ==>
      AfterRun(snapshot, prepared, flags)[i] == snapshot[i]
  {
    var writes := Writes(snapshot, prepared, flags);
    assert forall m :: 0 <= m < |writes| && writes[m].Some? ==>
      Find(snapshot, prepared[m]) == Some(writes[m].value.place);
    StoreWritesAt(snapshot, writes, |prepared|, i);
    forall m | 0 <= m < |prepared| && Find(snapshot, prepared[m]) == Some(i)
      ensures AfterRun(snapshot, prepared, flags)[i] == RecordAfter(snapshot, prepared[m], flags)
    {
      if writes[m].None? {
        assert forall n :: 0 <= n < |prepared| && n != m ==> Find(snapshot, prepared[n]) != Some(i);
      }
    }
  }

  /** The record of a VM, once its patch has been stored, is the VM's own under its key and type. */
  ghost predicate OwnAfter(snapshot: seq<Json>, p: Prepared, scope: Scope, flags: Flags)
    requires Find(snapshot, p).Some?
  {
    StaysOwn(snapshot, scope, KeyOf(p), WantedType(p), RecordAfter(snapshot, p, flags))
  }

  ghost predicate AllOwnAfter(snapshot: seq<Json>, prepared: seq<Prepared>, scope: Scope, flags: Flags) {
    forall m :: 0 <= m < |prepared| && Find(snapshot, prepared[m]).Some? ==>
      OwnAfter(snapshot, prepared[m], scope, flags)
  }

  /** When every VM's record keeps the VM's key, all records keep their keys. */
  lemma KeysStay(snapshot: seq<Json>, prepared: seq<Prepared>, scope: Scope, flags: Flags)
    requires Apart(snapshot, prepared, scope)
    requires forall m :: 0 <= m < |prepared| && Find(snapshot, prepared[m]).Some? ==>
      KeyIn(scope, RecordAfter(snapshot, prepared[m], flags)) == Some(KeyOf(prepared[m]))
    ensures SameKeys(snapshot, AfterRun(snapshot, prepared, flags), scope)
  {
    var after := AfterRun(snapshot, prepared, flags);
    forall i | 0 <= i < |after|
      ensures KeyIn(scope, after[i]) == KeyIn(scope, snapshot[i])
    {
      AfterRunAt(snapshot, prepared, flags, i);
      if m :| 0 <= m < |prepared| && Find(snapshot, prepared[m]) == Some(i) {
        SelectedKey(snapshot, scope, KeyOf(prepared[m]), WantedType(prepared[m]));
      }
    }
  }

  /** After the run, no record before its own fits a VM. */
  lemma NothingEarlierAfter(snapshot: seq<Json>, prepared: seq<Prepared>, scope: Scope, flags: Flags, m: nat, j: nat)
    requires Apart(snapshot, prepared, scope) && AllOwnAfter(snapshot, prepared, scope, flags)
    requires m < |prepared| && Find(snapshot, prepared[m]).Some? && j < Find(snapshot, prepared[m]).value
    ensures !Fits(AfterRun(snapshot, prepared, flags)[j], scope, KeyOf(prepared[m]), WantedType(prepared[m]))
  {
    var p := prepared[m];
    var i := Find(snapshot, p).value;
    AfterRunAt(snapshot, prepared, flags, j);
    if n :| 0 <= n < |prepared| && Find(snapshot, prepared[n]) == Some(j) {
      var q := prepared[n];
      assert OwnAfter(snapshot, q, scope, flags);
      OwnFitsNoOther(snapshot, scope, KeyOf(p), WantedType(p), i, KeyOf(q), WantedType(q), j,
                     RecordAfter(snapshot, q, flags));
    } else {
      NothingEarlier(snapshot, scope, KeyOf(p), WantedType(p), i, j);
    }
  }

  /** There is nothing to patch in a record whose patch has been stored, or was empty. */
  lemma NothingLeft(snapshot: seq<Json>, p: Prepared, flags: Flags)
    requires Find(snapshot, p).Some?
    ensures PatchOf(FieldsOf(RecordAfter(snapshot, p, flags)), p.desired, flags) == map[]
  {
    PatchConverges(p.desired, FieldsOf(snapshot[Find(snapshot, p).value]), flags);
  }

  /** The second run finds the VM's record where the first did, and has nothing to do. */
  ghost predicate Quiet(snapshot: seq<Json>, after: seq<Json>, p: Prepared, flags: Flags) {
    Find(after, p) == Find(snapshot, p) && OperationFor(after, p, flags).action == GET
  }

  lemma OwnIsQuiet(snapshot: seq<Json>, prepared: seq<Prepared>, scope: Scope, flags: Flags, m: nat)
    requires Apart(snapshot, prepared, scope) && AllOwnAfter(snapshot, prepared, scope, flags)
    requires SameKeys(snapshot, AfterRun(snapshot, prepared, flags), scope)
    requires m < |prepared| && Find(snapshot, prepared[m]).Some?
    ensures Quiet(snapshot, AfterRun(snapshot, prepared, flags), prepared[m], flags)
  {
    var after, p := AfterRun(snapshot, prepared, flags), prepared[m];
    var i := Find(snapshot, p).value;
    AfterRunAt(snapshot, prepared, flags, i);
    assert OwnAfter(snapshot, p, scope, flags) && after[i] == RecordAfter(snapshot, p, flags);
    forall j | 0 <= j < i ensures !Fits(after[j], scope, KeyOf(p), WantedType(p)) {
      NothingEarlierAfter(snapshot, prepared, scope, flags, m, j);
    }
    OwnIsFound(snapshot, after, scope, KeyOf(p), WantedType(p), i);
    NothingLeft(snapshot, p, flags);
  }

  ghost predicate AllKeepIdentity(snapshot: seq<Json>, prepared: seq<Prepared>, flags: Flags) {
    forall m :: 0 <= m < |prepared| && Find(snapshot, prepared[m]).Some? ==> KeepsIdentity(snapshot, prepared[m], flags)
  }

  ghost predicate AllQuiet(snapshot: seq<Json>, prepared: seq<Prepared>, flags: Flags) {
    forall m :: 0 <= m < |prepared| && Find(snapshot, prepared[m]).Some? ==>
      Quiet(snapshot, AfterRun(snapshot, prepared, flags), prepared[m], flags)
  }

  lemma IdentityIsOwn(snapshot: seq<Json>, prepared: seq<Prepared>, scope: Scope, flags: Flags)
    requires Apart(snapshot, prepared, scope)
    ensures AllKeepIdentity(snapshot, prepared, flags) <==> AllOwnAfter(snapshot, prepared, scope, flags)
  {
    forall m | 0 <= m < |prepared| && Find(snapshot, prepared[m]).Some?
      ensures KeepsIdentity(snapshot, prepared[m], flags) <==> OwnAfter(snapshot, prepared[m], scope, flags)
    {
      StaysOwnIff(snapshot, prepared[m], flags);
    }
  }

  lemma QuietIsOwn(snapshot: seq<Json>, prepared: seq<Prepared>, scope: Scope, flags: Flags)
    requires Apart(snapshot, prepared, scope) && AllQuiet(snapshot, prepared, flags)
    ensures AllOwnAfter(snapshot, prepared, scope, flags)
  {
    var after := AfterRun(snapshot, prepared, flags);
    forall m | 0 <= m < |prepared| && Find(snapshot, prepared[m]).Some?
      ensures KeyIn(scope, RecordAfter(snapshot, prepared[m], flags)) == Some(KeyOf(prepared[m]))
    {
      var p := prepared[m];
      assert Quiet(snapshot, after, p, flags);
      AfterRunAt(snapshot, prepared, flags, Find(snapshot, p).value);
      SelectedKey(after, scope, KeyOf(p), WantedType(p));
    }
    KeysStay(snapshot, prepared, scope, flags);
    forall m | 0 <= m < |prepared| && Find(snapshot, prepared[m]).Some?
      ensures OwnAfter(snapshot, prepared[m], scope, flags)
    {
      var p := prepared[m];
      assert Quiet(snapshot, after, p, flags);
      AfterRunAt(snapshot, prepared, flags, Find(snapshot, p).value);
      FoundIsOwn(snapshot, after, scope, KeyOf(p), WantedType(p), Find(snapshot, p).value);
    }
  }

  /** Convergence of a whole run: for VMs looked up in one kind of scope, no two with the same record, storing all
      UPDATE patches makes the next run answer GET for every VM that had a record, and find that very record,
      exactly when every patch keeps its VM's identity. */
  lemma RunConvergesIff(snapshot: seq<Json>, prepared: seq<Prepared>, scope: Scope, flags: Flags)
    requires Apart(snapshot, prepared, scope)
    ensures AllQuiet(snapshot, prepared, flags) <==> AllKeepIdentity(snapshot, prepared, flags)
  {
    IdentityIsOwn(snapshot, prepared, scope, flags);
    if AllOwnAfter(snapshot, prepared, scope, flags) {
      forall m | 0 <= m < |prepared| && Find(snapshot, prepared[m]).Some?
        ensures KeyIn(scope, RecordAfter(snapshot, prepared[m], flags)) == Some(KeyOf(prepared[m]))
      {
        assert OwnAfter(snapshot, prepared[m], scope, flags);
      }
      KeysStay(snapshot, prepared, scope, flags);
      forall m | 0 <= m < |prepared| && Find(snapshot, prepared[m]).Some?
        ensures Quiet(snapshot, AfterRun(snapshot, prepared, flags), prepared[m], flags)
      {
        OwnIsQuiet(snapshot, prepared, scope, flags, m);
      }
    }
    if AllQuiet(snapshot, prepared, flags) { QuietIsOwn(snapshot, prepared, scope, flags); }
  }

  /** Two VMs of different types that share a record share it as the only, untyped candidate. Whatever is stored in
      its place, both find it again exactly when it keeps the key and is still untyped. */
  lemma SharedAgainIff(
    snapshot: seq<Json>, scope: Scope, key: Key, type1: string, type2: string, i: nat, v: Json)
    requires type1 != type2
    requires SelectIndex(snapshot, scope, key, Some(type1)) == Some(i)
    requires SelectIndex(snapshot, scope, key, Some(type2)) == Some(i)
    ensures (&& SelectIndex(snapshot[i := v], scope, key, Some(type1)) == Some(i)
             && SelectIndex(snapshot[i := v], scope, key, Some(type2)) == Some(i))
      <==> KeyIn(scope, v) == Some(key) && RecordType(v).None?
  {
    SelectionSeparates(snapshot, scope, key, key, Some(type1), Some(type2));
    SelectsAgainIff(snapshot, scope, key, Some(type1), i, v);
    SelectsAgainIff(snapshot, scope, key, Some(type2), i, v);
  }

  // ---------------------------------------------------------------- queues of mixed scope

  function KeysIn(records: seq<Json>, scope: Scope): (r: seq<Option<Key>>)
    ensures |r| == |records| && forall j :: 0 <= j < |r| ==> r[j] == KeyIn(scope, records[j])
  {
    seq(|records|, j requires 0 <= j < |records| => KeyIn(scope, records[j]))
  }

  function TypesIn(records: seq<Json>): (r: seq<Option<string>>)
    ensures |r| == |records| && forall j :: 0 <= j < |r| ==> r[j] == RecordType(records[j])
  {
    seq(|records|, j requires 0 <= j < |records| => RecordType(records[j]))
  }

  /** What it takes to be selected among records with these keys and types: the key, and either the wanted type with
      no earlier record that fits, or no other record with the key and no type that forbids it. */
  ghost predicate Owns(
    keys: seq<Option<Key>>, types: seq<Option<string>>, key: Key, vmType: Option<string>, i: nat)
    requires i < |keys| == |types|
  {
    && keys[i] == Some(key)
    && if vmType.Some? && types[i] == vmType
       then forall j :: 0 <= j < i && keys[j] == Some(key) ==> types[j] != vmType
       else (vmType.None? || types[i].None?) && forall j :: 0 <= j < |keys| && j != i ==> keys[j] != Some(key)
  }

  ghost predicate Alone(after: seq<Json>, scope: Scope, key: Key, i: nat) {
    forall j :: 0 <= j < |after| && j != i ==> KeyIn(scope, after[j]) != Some(key)
  }

  lemma {:induction false} AloneIsOnly(after: seq<Json>, n: nat, scope: Scope, key: Key, i: nat)
    requires n <= |after| && i < |after| && Alone(after, scope, key, i) && KeyIn(scope, after[i]) == Some(key)
    ensures Candidates(after, n, scope, key) == if i < n then [i] else []
  {
    if n > 0 {
      AloneIsOnly(after, n - 1, scope, key, i);
      var has := KeyIn(scope, after[n - 1]) == Some(key);
      assert has <==> n - 1 == i;
      assert Candidates(after, n, scope, key) ==
        Candidates(after, n - 1, scope, key) + if has then [n - 1] else [];
    }
  }

  lemma {:induction false} OnlyIsAlone(after: seq<Json>, scope: Scope, key: Key, i: nat)
    requires i < |after| && KeyIn(scope, after[i]) == Some(key)
    ensures |Candidates(after, |after|, scope, key)| == 1 <==> Alone(after, scope, key, i)
  {
    CandidatesAre(after, |after|, scope, key);
    OneCandidate(after, scope, key, i);
    if Alone(after, scope, key, i) { AloneIsOnly(after, |after|, scope, key, i); }
  }

  /** Selection, said without the scan. */
  lemma {:induction false} SelectIff(after: seq<Json>, scope: Scope, key: Key, vmType: Option<string>, i: nat)
    requires i < |after|
    ensures SelectIndex(after, scope, key, vmType) == Some(i) <==>
      Owns(KeysIn(after, scope), TypesIn(after), key, vmType, i)
  {
    if KeyIn(scope, after[i]) == Some(key) {
      OnlyIsAlone(after, scope, key, i);
      OneCandidate(after, scope, key, i);
    } else {
      SelectedKey(after, scope, key, vmType);
    }
    if vmType.Some? { TypedIff(after, scope, key, vmType.value, i); }
  }

  lemma {:induction false} TypedIff(after: seq<Json>, scope: Scope, key: Key, vmType: string, i: nat)
    requires i < |after|
    ensures FirstTyped(after, |after|, scope, key, vmType) == Some(i) <==>
      && Fits(after[i], scope, key, Some(vmType))
      && forall j :: 0 <= j < i ==> !Fits(after[j], scope, key, Some(vmType))
    ensures FirstTyped(after, |after|, scope, key, vmType).None? <==>
      forall j :: 0 <= j < |after| ==> !Fits(after[j], scope, key, Some(vmType))
  {
    FirstTypedIs(after, |after|, scope, key, vmType);
    var found := FirstTyped(after, |after|, scope, key, vmType);
    assert found.Some? ==> Fits(after[found.value], scope, key, Some(vmType));
    assert forall j :: 0 <= j < |after| && (found.Some? ==> j < found.value) ==>
      !Fits(after[j], scope, key, Some(vmType));
  }

  /** The record a VM is matched with, told on the inputs alone: it owns the resource's VM id on the payload's endpoint,
      whatever the clusters; if the payload names no endpoint, in the payload's cluster; with neither, or without a VM
      id, there is none. */
  ghost predicate Belongs(snapshot: seq<Json>, p: Prepared, i: nat)
    requires i < |snapshot|
  {
    var endpoint, cluster := EndpointOf(p.desired), RelationOf(Get(p.desired, "cluster"));
    var vmid := if p.resource.Obj? then RelationOf(Get(p.resource.fields, "vmid")) else None;
    var vmType := if |Trim(p.vmType)| == 0 then None else Some(Lower(Trim(p.vmType)));
    && vmid.Some?
    && if endpoint.Some? then
         Owns(KeysIn(snapshot, Endpoint), TypesIn(snapshot), (endpoint.value, vmid.value), vmType, i)
       else
         && cluster.Some?
         && Owns(KeysIn(snapshot, Cluster), TypesIn(snapshot), (cluster.value, vmid.value), vmType, i)
  }

  lemma {:induction false} FindIff(snapshot: seq<Json>, p: Prepared, i: nat)
    requires i < |snapshot|
    ensures Find(snapshot, p) == Some(i) <==> Belongs(snapshot, p, i)
  {
    var scope, vmid := WantedScope(p), ResourceVmid(p);
    TypeMeans(Str(p.vmType));
    if scope.Some? && vmid.Some? {
      SelectIff(snapshot, scope.value.0, (scope.value.1, vmid.value), WantedType(p), i);
    }
  }

  /** In particular a selected record carries the payload's endpoint if there is one, else its cluster, and the
      resource's VM id. */
  lemma {:induction false} FoundIsIts(snapshot: seq<Json>, p: Prepared)
    requires Find(snapshot, p).Some?
    ensures var fields := FieldsOf(snapshot[Find(snapshot, p).value]);
      && VmidOf(fields) == ResourceVmid(p)
      && (EndpointOf(p.desired).Some? ==> EndpointOf(fields) == EndpointOf(p.desired))
      && (EndpointOf(p.desired).None? ==>
            RelationOf(Get(fields, "cluster")) == RelationOf(Get(p.desired, "cluster"))
            && RelationOf(Get(fields, "cluster")).Some?)
  {
    FindIff(snapshot, p, Find(snapshot, p).value);
  }

  /** The patch moves the record to another cluster: one is desired, and is not, loosely, the one it is in. */
  predicate ClusterPatched(before: Fields, p: Prepared) {
    var wanted, held := RelationOf(Get(p.desired, "cluster")), RelationOf(Get(before, "cluster"));
    && wanted.Some? && wanted.value > 0
    && !(held.Some? && held.value > 0 && EqLoose(NumberValue(wanted.value), NumberValue(held.value)))
  }

  lemma {:induction false} ClusterPatchedIff(before: Fields, p: Prepared, flags: Flags)
    ensures var patch := PatchOf(before, p.desired, flags);
      && ("cluster" in patch <==> ClusterPatched(before, p))
      && ("cluster" in patch ==> RelationOf(Get(patch, "cluster")) == RelationOf(Get(p.desired, "cluster")))
  {
    PatchField(before, p.desired, flags, "cluster");
    NormalCluster(p.desired, flags.supportsType);
    NormalCluster(before, flags.supportsType);
    if RelationOf(Get(p.desired, "cluster")).Some? { RelationReadsBack(p.desired["cluster"]); }
  }

  lemma {:induction false} NormalCluster(fields: Fields, supportsType: bool)
    ensures var normal, id := Normalize(fields, supportsType), RelationOf(Get(fields, "cluster"));
      && ("cluster" in normal <==> id.Some? && id.value > 0)
      && ("cluster" in normal ==> normal["cluster"] == NumberValue(id.value))
  {
    assert KindOf("cluster", supportsType) == Some(Relation);
  }

  function CustomAfter(before: Fields, p: Prepared, flags: Flags): Fields {
    CustomFieldsOf(if CustomPatched(before, p, flags) then p.desired else before)
  }

  /** The key and the type a record will have once the VM's patch is stored, from the inputs alone. */
  function KeyAfter(scope: Scope, before: Fields, p: Prepared, flags: Flags): Option<Key> {
    var custom := CustomAfter(before, p, flags);
    var top := FirstRelation(before, "cf_proxmox_endpoint_id", "proxmox_endpoint_id");
    var endpoint := if top.Some? then top else FirstRelation(custom, "proxmox_endpoint_id", "cf_proxmox_endpoint_id");
    var cluster := RelationOf(Get(if ClusterPatched(before, p) then p.desired else before, "cluster"));
    var id, vmid := if scope.Endpoint? then endpoint else cluster, RelationOf(Get(custom, "proxmox_vm_id"));
    if id.Some? && vmid.Some? then Some((id.value, vmid.value)) else None
  }

  function TypeAfter(before: Fields, p: Prepared, flags: Flags): Option<string> {
    NormalizeVmType(Get(CustomAfter(before, p, flags), "proxmox_vm_type"))
  }

  lemma {:induction false} KeyAfterIs(scope: Scope, before: Fields, p: Prepared, flags: Flags)
    ensures var record := Obj(before + PatchOf(before, p.desired, flags));
      && KeyIn(scope, record) == KeyAfter(scope, before, p, flags)
      && RecordType(record) == TypeAfter(before, p, flags)
  {
    PatchKeys(before, p.desired, flags);
    CustomPatchedIff(before, p, flags);
    ClusterPatchedIff(before, p, flags);
    IdentityAfter(before, PatchOf(before, p.desired, flags), CustomFieldsOf(p.desired));
  }

  /** The VM a record belongs to, among the first `n`. */
  function OwnerOf(snapshot: seq<Json>, prepared: seq<Prepared>, n: nat, j: nat): (r: Option<nat>)
    requires n <= |prepared|
    ensures r.Some? ==> r.value < n && Find(snapshot, prepared[r.value]) == Some(j)
    ensures r.None? ==> forall m :: 0 <= m < n ==> Find(snapshot, prepared[m]) != Some(j)
  {
    if n == 0 then None
    else if Find(snapshot, prepared[n - 1]) == Some(j) then Some(n - 1)
    else OwnerOf(snapshot, prepared, n - 1, j)
  }

  /** The keys and the types of all records after the run, from the inputs alone. */
  function FinalKeys(snapshot: seq<Json>, prepared: seq<Prepared>, flags: Flags, scope: Scope): seq<Option<Key>> {
    seq(|snapshot|, j requires 0 <= j < |snapshot| =>
      var owner := OwnerOf(snapshot, prepared, |prepared|, j);
      if owner.None? then KeyIn(scope, snapshot[j])
      else KeyAfter(scope, FieldsOf(snapshot[j]), prepared[owner.value], flags))
  }

  function FinalTypes(snapshot: seq<Json>, prepared: seq<Prepared>, flags: Flags): seq<Option<string>> {
    seq(|snapshot|, j requires 0 <= j < |snapshot| =>
      var owner := OwnerOf(snapshot, prepared, |prepared|, j);
      if owner.None? then RecordType(snapshot[j])
      else TypeAfter(FieldsOf(snapshot[j]), prepared[owner.value], flags))
  }

  lemma {:induction false} RecordAfterIs(snapshot: seq<Json>, p: Prepared, flags: Flags)
    requires Find(snapshot, p).Some?
    ensures var before := FieldsOf(snapshot[Find(snapshot, p).value]);
      RecordAfter(snapshot, p, flags) == Obj(before + PatchOf(before, p.desired, flags))
  {
    var before := FieldsOf(snapshot[Find(snapshot, p).value]);
    SelectedKey(snapshot, WantedScope(p).value.0, KeyOf(p), WantedType(p));
    assert before + map[] == before;
  }

  lemma {:induction false} FinalIs(
    snapshot: seq<Json>, prepared: seq<Prepared>, flags: Flags, scope: Scope, j: nat)
    requires PlacesApart(snapshot, prepared) && j < |snapshot|
    ensures var record := AfterRun(snapshot, prepared, flags)[j];
      && KeyIn(scope, record) == FinalKeys(snapshot, prepared, flags, scope)[j]
      && RecordType(record) == FinalTypes(snapshot, prepared, flags)[j]
  {
    AfterRunAt(snapshot, prepared, flags, j);
    var owner := OwnerOf(snapshot, prepared, |prepared|, j);
    if owner.Some? {
      RecordAfterIs(snapshot, prepared[owner.value], flags);
      KeyAfterIs(scope, FieldsOf(snapshot[j]), prepared[owner.value], flags);
    }
  }

  lemma {:induction false} FinalsAre(snapshot: seq<Json>, prepared: seq<Prepared>, flags: Flags, scope: Scope)
    requires PlacesApart(snapshot, prepared)
    ensures KeysIn(AfterRun(snapshot, prepared, flags), scope) == FinalKeys(snapshot, prepared, flags, scope)
    ensures TypesIn(AfterRun(snapshot, prepared, flags)) == FinalTypes(snapshot, prepared, flags)
  {
    forall j | 0 <= j < |snapshot|
      ensures KeysIn(AfterRun(snapshot, prepared, flags), scope)[j] == FinalKeys(snapshot, prepared, flags, scope)[j]
      ensures TypesIn(AfterRun(snapshot, prepared, flags))[j] == FinalTypes(snapshot, prepared, flags)[j]
    {
      FinalIs(snapshot, prepared, flags, scope, j);
    }
  }

  /** A VM finds its record again, read off the inputs: its own patch leaves the key and a type it finds; and no other
      VM's patch, and no record that is left alone, competes: by fitting the VM at an earlier place, or, where the
      record is not found by its type, by having the key at all, as when a patch moves it into the VM's cluster. */
  ghost predicate OwnsFinally(snapshot: seq<Json>, prepared: seq<Prepared>, flags: Flags, p: Prepared)
    requires Find(snapshot, p).Some?
  {
    Owns(FinalKeys(snapshot, prepared, flags, WantedScope(p).value.0), FinalTypes(snapshot, prepared, flags),
         KeyOf(p), WantedType(p), Find(snapshot, p).value)
  }

  /** A VM whose record is its alone is quiet exactly when it finds the record again. */
  lemma {:induction false} QuietIffOwned(snapshot: seq<Json>, prepared: seq<Prepared>, flags: Flags, m: nat)
    requires PlacesApart(snapshot, prepared) && m < |prepared| && Find(snapshot, prepared[m]).Some?
    ensures Quiet(snapshot, AfterRun(snapshot, prepared, flags), prepared[m], flags) <==>
      OwnsFinally(snapshot, prepared, flags, prepared[m])
  {
    var p, after := prepared[m], AfterRun(snapshot, prepared, flags);
    var i := Find(snapshot, p).value;
    FinalsAre(snapshot, prepared, flags, WantedScope(p).value.0);
    SelectIff(after, WantedScope(p).value.0, KeyOf(p), WantedType(p), i);
    AfterRunAt(snapshot, prepared, flags, i);
    NothingLeft(snapshot, p, flags);
  }

  /** Convergence of any run in which no two VMs have the same record, whatever scopes they are looked up in: storing
      all UPDATE patches makes the next run answer GET for every VM that had a record, and find that very record,
      exactly when every VM finally owns its record. */
  lemma {:induction false} MixedRunConvergesIff(snapshot: seq<Json>, prepared: seq<Prepared>, flags: Flags)
    requires PlacesApart(snapshot, prepared)
    ensures AllQuiet(snapshot, prepared, flags) <==>
      forall m :: 0 <= m < |prepared| && Find(snapshot, prepared[m]).Some? ==>
        OwnsFinally(snapshot, prepared, flags, prepared[m])
  {
    forall m | 0 <= m < |prepared| && Find(snapshot, prepared[m]).Some?
      ensures Quiet(snapshot, AfterRun(snapshot, prepared, flags), prepared[m], flags) <==>
        OwnsFinally(snapshot, prepared, flags, prepared[m])
    {
      QuietIffOwned(snapshot, prepared, flags, m);
    }
  }

  // ---------------------------------------------------------------- two VMs with one record

  /** The record two VMs share, once both patches have been stored. */
  function SharedAfter(before: Fields, p: Prepared, q: Prepared, flags: Flags): Json {
    Obj(before + PatchOf(before, p.desired, flags) + PatchOf(before, q.desired, flags))
  }

  /** An operation with an empty patch stores nothing, which is to store that patch. */
  lemma {:induction false} WriteStores(snapshot: seq<Json>, p: Prepared, flags: Flags, i: nat)
    requires Find(snapshot, p) == Some(i)
    ensures var write, patch := WriteOf(snapshot, p, flags), PatchOf(FieldsOf(snapshot[i]), p.desired, flags);
      if patch == map[] then write == None else write == Some(Write(i, patch))
  {
  }

  lemma {:induction false} StoreTwo(
    snapshot: seq<Json>, writes: seq<Option<Write>>, i: nat, before: Fields, first: Fields, second: Fields)
    requires i < |snapshot| && snapshot[i] == Obj(before) && |writes| == 2
    requires if first == map[] then writes[0] == None else writes[0] == Some(Write(i, first))
    requires if second == map[] then writes[1] == None else writes[1] == Some(Write(i, second))
    ensures StoreWrites(snapshot, writes, 2) == snapshot[i := Obj(before + first + second)]
  {
    assert before + map[] == before && before + first + map[] == before + first;
    assert StoreWrites(snapshot, writes, 0) == snapshot;
    assert StoreWrites(snapshot, writes, 1) == snapshot[i := Obj(before + first)];
  }

  lemma {:induction false} SharedRun(snapshot: seq<Json>, p: Prepared, q: Prepared, flags: Flags, i: nat)
    requires Find(snapshot, p) == Some(i) && Find(snapshot, q) == Some(i)
    ensures AfterRun(snapshot, [p, q], flags) == snapshot[i := SharedAfter(FieldsOf(snapshot[i]), p, q, flags)]
  {
    var before := FieldsOf(snapshot[i]);
    SelectedKey(snapshot, WantedScope(p).value.0, KeyOf(p), WantedType(p));
    WriteStores(snapshot, p, flags, i);
    WriteStores(snapshot, q, flags, i);
    StoreTwo(snapshot, Writes(snapshot, [p, q], flags), i, before, PatchOf(before, p.desired, flags),
             PatchOf(before, q.desired, flags));
  }

  /** A VM of the shared record is quiet exactly when the record stays its own and its payload is in sync. */
  lemma {:induction false} SharedQuietIff(snapshot: seq<Json>, p: Prepared, flags: Flags, i: nat, v: Json)
    requires Find(snapshot, p) == Some(i)
    ensures Quiet(snapshot, snapshot[i := v], p, flags) <==>
      && StaysOwn(snapshot, WantedScope(p).value.0, KeyOf(p), WantedType(p), v)
      && PatchOf(FieldsOf(v), p.desired, flags) == map[]
  {
    SelectsAgainIff(snapshot, WantedScope(p).value.0, KeyOf(p), WantedType(p), i, v);
    QuietMeans(snapshot, snapshot[i := v], p, flags, i);
  }

  lemma {:induction false} BothQuiet(snapshot: seq<Json>, p: Prepared, q: Prepared, flags: Flags)
    requires Find(snapshot, p).Some? && Find(snapshot, q).Some?
    ensures var after := AfterRun(snapshot, [p, q], flags);
      AllQuiet(snapshot, [p, q], flags) <==> Quiet(snapshot, after, p, flags) && Quiet(snapshot, after, q, flags)
  {
    assert [p, q][0] == p && [p, q][1] == q;
  }

  /** Two VMs that share a record, with all flags on: after both patches the next run answers GET for both exactly when
      the record stays each one's own, their payloads agree on every field but the tags, and the tags that are left,
      which are the last writer's, settle both. */
  lemma {:induction false} SharedRunConvergesIff(
    snapshot: seq<Json>, p: Prepared, q: Prepared, supportsType: bool, i: nat)
    requires Find(snapshot, p) == Some(i) && Find(snapshot, q) == Some(i)
    ensures var flags, before := AllOn(supportsType), FieldsOf(snapshot[i]);
      var v := SharedAfter(before, p, q, flags);
      var c := NormalizeTags(Get(before, "tags"));
      var a, b := NormalizeTags(Get(p.desired, "tags")), NormalizeTags(Get(q.desired, "tags"));
      AllQuiet(snapshot, [p, q], flags) <==>
        && StaysOwn(snapshot, WantedScope(p).value.0, KeyOf(p), WantedType(p), v)
        && StaysOwn(snapshot, WantedScope(q).value.0, KeyOf(q), WantedType(q), v)
        && FieldsAgree(Normalize(p.desired, supportsType), Normalize(q.desired, supportsType))
        && TagsSettled(a, TagsAfterBoth(c, a, b)) && TagsSettled(b, TagsAfterBoth(c, a, b))
  {
    var flags, before := AllOn(supportsType), FieldsOf(snapshot[i]);
    var v := SharedAfter(before, p, q, flags);
    SharedRun(snapshot, p, q, flags, i);
    BothQuiet(snapshot, p, q, flags);
    SharedQuietIff(snapshot, p, flags, i, v);
    SharedQuietIff(snapshot, q, flags, i, v);
    BothInSyncIff(before, p.desired, q.desired, supportsType);
  }

  lemma {:induction false} QuietMeans(snapshot: seq<Json>, after: seq<Json>, p: Prepared, flags: Flags, i: nat)
    requires Find(snapshot, p) == Some(i) && i < |after|
    ensures Quiet(snapshot, after, p, flags) <==>
      && SelectIndex(after, WantedScope(p).value.0, KeyOf(p), WantedType(p)) == Some(i)
      && PatchOf(FieldsOf(after[i]), p.desired, flags) == map[]
  {
  }
}
