/** The VM operation queue: find the NetBox record of each prepared VM through four indexes, diff it, and
    decide between CREATE, UPDATE and GET. */
module VmEngine {
  import opened Wrappers
  import opened Json
  import opened VmNormalize
  import opened VmDiff

  // ---------------------------------------------------------------- identity

  function FirstRelation(fields: Fields, first: string, second: string): Option<int> {
    if RelationOf(Get(fields, first)).Some? then RelationOf(Get(fields, first)) else RelationOf(Get(fields, second))
  }

  function CustomFieldsOf(fields: Fields): Fields {
    var custom := AsObject(Get(fields, "custom_fields"));
    if custom.Some? then custom.value else map[]
  }

  /** The endpoint id of a record or a payload: a top-level field before a custom field. */
  function EndpointOf(fields: Fields): Option<int> {
    var top := FirstRelation(fields, "cf_proxmox_endpoint_id", "proxmox_endpoint_id");
    if top.Some? then top
    else FirstRelation(CustomFieldsOf(fields), "proxmox_endpoint_id", "cf_proxmox_endpoint_id")
  }

  function VmidOf(fields: Fields): Option<int> { RelationOf(Get(CustomFieldsOf(fields), "proxmox_vm_id")) }

  function TypeOf(fields: Fields): Option<string> { NormalizeVmType(Get(CustomFieldsOf(fields), "proxmox_vm_type")) }

  datatype Scope = Endpoint | Cluster

  type Key = (int, int)

  function ScopeId(scope: Scope, fields: Fields): Option<int> {
    if scope.Endpoint? then EndpointOf(fields) else RelationOf(Get(fields, "cluster"))
  }

  /** Under which scope id and VM id a snapshot record is indexed. */
  function KeyIn(scope: Scope, record: Json): Option<Key> {
    if !record.Obj? then None else
    var id, vmid := ScopeId(scope, record.fields), VmidOf(record.fields);
    if id.Some? && vmid.Some? then Some((id.value, vmid.value)) else None
  }

  function RecordType(record: Json): Option<string> { if record.Obj? then TypeOf(record.fields) else None }

  /** The endpoint id: of the top-level fields the prefixed one first, then of the custom fields the plain one first. */
  lemma {:induction false} EndpointIs(fields: Fields)
    ensures var prefixed, plain := "cf_proxmox_endpoint_id", "proxmox_endpoint_id";
      var custom := if "custom_fields" in fields && fields["custom_fields"].Obj? then fields["custom_fields"].fields
                    else map[];
      var a, b := RelationOf(Get(fields, prefixed)), RelationOf(Get(fields, plain));
      var c, d := RelationOf(Get(custom, plain)), RelationOf(Get(custom, prefixed));
      EndpointOf(fields) == if a.Some? then a else if b.Some? then b else if c.Some? then c else d
  {
  }

  /** The VM id and the type are custom fields. */
  lemma {:induction false} IdentityIs(fields: Fields)
    requires "custom_fields" in fields && fields["custom_fields"].Obj?
    ensures var custom := fields["custom_fields"].fields;
      && VmidOf(fields) == RelationOf(Get(custom, "proxmox_vm_id"))
      && TypeOf(fields) == NormalizeVmType(Get(custom, "proxmox_vm_type"))
  {
  }

  /** Without custom fields there is neither. */
  lemma {:induction false} NoIdentity(fields: Fields)
    requires "custom_fields" in fields ==> !fields["custom_fields"].Obj?
    ensures VmidOf(fields) == None && TypeOf(fields) == None
  {
  }

  // ---------------------------------------------------------------- the linear scan

  /** The first of the first `n` records with this key and type. */
  function FirstTyped(snapshot: seq<Json>, n: nat, scope: Scope, key: Key, vmType: string): (r: Option<nat>)
    requires n <= |snapshot|
    ensures r.Some? ==> r.value < n
  {
    if n == 0 then None else
    var earlier := FirstTyped(snapshot, n - 1, scope, key, vmType);
    if earlier.Some? then earlier
    else if KeyIn(scope, snapshot[n - 1]) == Some(key) && RecordType(snapshot[n - 1]) == Some(vmType) then Some(n - 1)
    else None
  }

  /** The places of the records with this key among the first `n`. */
  function Candidates(snapshot: seq<Json>, n: nat, scope: Scope, key: Key): (r: seq<nat>)
    requires n <= |snapshot|
    ensures forall i :: 0 <= i < |r| ==> r[i] < n
  {
    if n == 0 then [] else
    Candidates(snapshot, n - 1, scope, key) + if KeyIn(scope, snapshot[n - 1]) == Some(key) then [n - 1] else []
  }

  /** The record a VM is matched with: the first of its own type, else the only candidate if untyped. */
  function SelectIndex(snapshot: seq<Json>, scope: Scope, key: Key, vmType: Option<string>): (r: Option<nat>)
    ensures r.Some? ==> r.value < |snapshot|
  {
    var candidates := Candidates(snapshot, |snapshot|, scope, key);
    var typed := if vmType.Some? then FirstTyped(snapshot, |snapshot|, scope, key, vmType.value) else None;
    if typed.Some? then typed
    else if |candidates| == 1 && (vmType.None? || RecordType(snapshot[candidates[0]]).None?) then Some(candidates[0])
    else None
  }

  lemma {:induction false} FirstTypedIs(snapshot: seq<Json>, n: nat, scope: Scope, key: Key, vmType: string)
    requires n <= |snapshot|
    ensures var r := FirstTyped(snapshot, n, scope, key, vmType);
      && (r.Some? ==> KeyIn(scope, snapshot[r.value]) == Some(key) && RecordType(snapshot[r.value]) == Some(vmType))
      && (forall i :: 0 <= i < n && (r.Some? ==> i < r.value) ==>
            !(KeyIn(scope, snapshot[i]) == Some(key) && RecordType(snapshot[i]) == Some(vmType)))
  {
    if n > 0 { FirstTypedIs(snapshot, n - 1, scope, key, vmType); }
  }

  lemma {:induction false} CandidatesAre(snapshot: seq<Json>, n: nat, scope: Scope, key: Key)
    requires n <= |snapshot|
    ensures forall i :: 0 <= i < n ==>
      (i in Candidates(snapshot, n, scope, key) <==> KeyIn(scope, snapshot[i]) == Some(key))
    ensures forall i :: i in Candidates(snapshot, n, scope, key) ==> i < n
  {
    if n > 0 {
      CandidatesAre(snapshot, n - 1, scope, key);
      var before, now := Candidates(snapshot, n - 1, scope, key), Candidates(snapshot, n, scope, key);
      assert forall i :: i in now <==> i in before || (i == n - 1 && KeyIn(scope, snapshot[n - 1]) == Some(key));
    }
  }

  // ---------------------------------------------------------------- the indexes

  datatype Index = Index(typed: map<(Key, string), Json>, untyped: map<Key, seq<Json>>)

  function AtAll(snapshot: seq<Json>, places: seq<nat>): seq<Json>
    requires forall i :: 0 <= i < |places| ==> places[i] < |snapshot|
  {
    seq(|places|, i requires 0 <= i < |places| => snapshot[places[i]])
  }

  function AddTo(index: Index, key: Option<Key>, vmType: Option<string>, record: Json): Index {
    if key.None? then index else
    var bucket := if key.value in index.untyped then index.untyped[key.value] else [];
    Index(if vmType.Some? && (key.value, vmType.value) !in index.typed
          then index.typed[(key.value, vmType.value) := record] else index.typed,
          index.untyped[key.value := bucket + [record]])
  }

  ghost predicate TypedAgrees(snapshot: seq<Json>, n: nat, scope: Scope, index: Index, key: Key, vmType: string)
    requires n <= |snapshot|
  {
    var found := FirstTyped(snapshot, n, scope, key, vmType);
    if found.Some? then (key, vmType) in index.typed && index.typed[(key, vmType)] == snapshot[found.value]
    else (key, vmType) !in index.typed
  }

  ghost predicate BucketAgrees(snapshot: seq<Json>, n: nat, scope: Scope, index: Index, key: Key)
    requires n <= |snapshot|
  {
    var found := Candidates(snapshot, n, scope, key);
    if found != [] then key in index.untyped && index.untyped[key] == AtAll(snapshot, found)
    else key !in index.untyped
  }

  /** The index holds what a scan of the first `n` records finds. */
  ghost predicate Indexed(snapshot: seq<Json>, n: nat, scope: Scope, index: Index)
    requires n <= |snapshot|
  {
    && (forall key, t :: TypedAgrees(snapshot, n, scope, index, key, t))
    && (forall key :: BucketAgrees(snapshot, n, scope, index, key))
  }

  function AddRecord(index: Index, scope: Scope, record: Json): Index {
    AddTo(index, KeyIn(scope, record), RecordType(record), record)
  }

  lemma TypedStep(snapshot: seq<Json>, n: nat, scope: Scope, index: Index, key: Key, vmType: string)
    requires n < |snapshot| && TypedAgrees(snapshot, n, scope, index, key, vmType)
    ensures TypedAgrees(snapshot, n + 1, scope, AddRecord(index, scope, snapshot[n]), key, vmType)
  {
  }

  lemma BucketStep(snapshot: seq<Json>, n: nat, scope: Scope, index: Index, key: Key)
    requires n < |snapshot| && BucketAgrees(snapshot, n, scope, index, key)
    ensures BucketAgrees(snapshot, n + 1, scope, AddRecord(index, scope, snapshot[n]), key)
  {
    var earlier := Candidates(snapshot, n, scope, key);
    if KeyIn(scope, snapshot[n]) == Some(key) {
      assert Candidates(snapshot, n + 1, scope, key) == earlier + [n];
      assert AtAll(snapshot, earlier + [n]) == AtAll(snapshot, earlier) + [snapshot[n]];
    } else {
      assert Candidates(snapshot, n + 1, scope, key) == earlier;
    }
  }

  lemma IndexedStep(snapshot: seq<Json>, n: nat, scope: Scope, index: Index)
    requires n < |snapshot| && Indexed(snapshot, n, scope, index)
    ensures Indexed(snapshot, n + 1, scope, AddRecord(index, scope, snapshot[n]))
  {
    var index', m := AddRecord(index, scope, snapshot[n]), n + 1;
    forall key, t ensures TypedAgrees(snapshot, m, scope, index', key, t) {
      TypedStep(snapshot, n, scope, index, key, t);
    }
    forall key ensures BucketAgrees(snapshot, m, scope, index', key) {
      BucketStep(snapshot, n, scope, index, key);
    }
  }

  /** The loop that fills the four maps. */
  method BuildIndexes(snapshot: seq<Json>) returns (endpoints: Index, clusters: Index)
    ensures Indexed(snapshot, |snapshot|, Endpoint, endpoints)
    ensures Indexed(snapshot, |snapshot|, Cluster, clusters)
  {
    endpoints, clusters := Index(map[], map[]), Index(map[], map[]);
    var n := 0;
    while n < |snapshot|
      invariant 0 <= n <= |snapshot|
      invariant Indexed(snapshot, n, Endpoint, endpoints) && Indexed(snapshot, n, Cluster, clusters)
    {
      IndexedStep(snapshot, n, Endpoint, endpoints);
      IndexedStep(snapshot, n, Cluster, clusters);
      var record := snapshot[n];
      endpoints := AddRecord(endpoints, Endpoint, record);
      clusters := AddRecord(clusters, Cluster, record);
      n := n + 1;
    }
  }

  /** Selection through an index. */
  function SelectRecord(index: Index, key: Key, vmType: Option<string>): Option<Json> {
    if vmType.Some? && (key, vmType.value) in index.typed then Some(index.typed[(key, vmType.value)])
    else if key !in index.untyped then None
    else
      var candidates := index.untyped[key];
      if |candidates| == 1 && (vmType.None? || RecordType(candidates[0]).None?) then Some(candidates[0]) else None
  }

  function RecordAt(snapshot: seq<Json>, place: Option<nat>): Option<Json>
    requires place.Some? ==> place.value < |snapshot|
  {
    if place.Some? then Some(snapshot[place.value]) else None
  }

  /** Selection through the indexes is the linear scan. */
  lemma SelectIsScan(snapshot: seq<Json>, scope: Scope, index: Index, key: Key, vmType: Option<string>)
    requires Indexed(snapshot, |snapshot|, scope, index)
    ensures SelectRecord(index, key, vmType) == RecordAt(snapshot, SelectIndex(snapshot, scope, key, vmType))
  {
    var candidates := Candidates(snapshot, |snapshot|, scope, key);
    assert BucketAgrees(snapshot, |snapshot|, scope, index, key);
    if vmType.Some? { assert TypedAgrees(snapshot, |snapshot|, scope, index, key, vmType.value); }
  }

  // ---------------------------------------------------------------- no two VMs share a record

  /** A selected record carries the key it was selected by. */
  lemma SelectedKey(snapshot: seq<Json>, scope: Scope, key: Key, vmType: Option<string>)
    ensures var i := SelectIndex(snapshot, scope, key, vmType);
      i.Some? ==> KeyIn(scope, snapshot[i.value]) == Some(key)
  {
    CandidatesAre(snapshot, |snapshot|, scope, key);
    if vmType.Some? { FirstTypedIs(snapshot, |snapshot|, scope, key, vmType.value); }
    var candidates := Candidates(snapshot, |snapshot|, scope, key);
    assert candidates != [] ==> candidates[0] in candidates;
  }

  /** Different scope ids or VM ids never select equal records; with the same key, two different types share a
      record exactly when it is the only candidate and has no type. */
  lemma {:induction false} SelectionSeparates(
    snapshot: seq<Json>, scope: Scope, key1: Key, key2: Key, type1: Option<string>, type2: Option<string>)
    ensures var i, j := SelectIndex(snapshot, scope, key1, type1), SelectIndex(snapshot, scope, key2, type2);
      key1 != key2 && i.Some? && j.Some? ==> snapshot[i.value] != snapshot[j.value]
    ensures var i, j := SelectIndex(snapshot, scope, key1, type1), SelectIndex(snapshot, scope, key2, type2);
      var candidates := Candidates(snapshot, |snapshot|, scope, key1);
      key1 == key2 && type1.Some? && type2.Some? && type1 != type2 && i.Some? ==>
        (i == j <==> |candidates| == 1 && RecordType(snapshot[candidates[0]]).None?)
  {
    SelectedKey(snapshot, scope, key1, type1);
    SelectedKey(snapshot, scope, key2, type2);
    if key1 == key2 && type1.Some? && type2.Some? && type1 != type2 {
      TypesSeparate(snapshot, scope, key1, type1.value, type2.value);
    }
  }

  lemma {:induction false} TypesSeparate(snapshot: seq<Json>, scope: Scope, key: Key, type1: string, type2: string)
    requires type1 != type2
    ensures var i, j := SelectIndex(snapshot, scope, key, Some(type1)), SelectIndex(snapshot, scope, key, Some(type2));
      var candidates := Candidates(snapshot, |snapshot|, scope, key);
      i.Some? ==> (i == j <==> |candidates| == 1 && RecordType(snapshot[candidates[0]]).None?)
  {
    SelectedMeans(snapshot, scope, key, type1);
    SelectedMeans(snapshot, scope, key, type2);
  }

  /** A record selected for a type has that type, or is the only candidate and has none; and an only, untyped
      candidate is selected for every type. */
  lemma {:induction false} SelectedMeans(snapshot: seq<Json>, scope: Scope, key: Key, vmType: string)
    ensures var i := SelectIndex(snapshot, scope, key, Some(vmType));
      var candidates := Candidates(snapshot, |snapshot|, scope, key);
      && (i.Some? && RecordType(snapshot[i.value]).Some? ==> RecordType(snapshot[i.value]) == Some(vmType))
      && (i.Some? && RecordType(snapshot[i.value]).None? ==> candidates == [i.value])
      && (|candidates| == 1 && RecordType(snapshot[candidates[0]]).None? ==> i == Some(candidates[0]))
  {
    FirstTypedIs(snapshot, |snapshot|, scope, key, vmType);
    var candidates := Candidates(snapshot, |snapshot|, scope, key);
    if |candidates| == 1 && RecordType(snapshot[candidates[0]]).None? {
      SoleUntyped(snapshot, scope, key, vmType, candidates[0]);
    }
  }

  // ---------------------------------------------------------------- the queue

  datatype Prepared = Prepared(clusterName: string, resource: Json, desired: Fields, vmType: string)

  datatype Method = CREATE | UPDATE | GET

  datatype Operation = Operation(
    action: Method, clusterName: string, vmid: int, vmType: string,
    desired: Fields, existing: Option<Json>, patch: Fields)

  function OutputPayload(desired: Fields, flags: Flags): Fields {
    if flags.supportsType then desired else desired - {"virtual_machine_type"}
  }

  function CreateOperation(p: Prepared, vmid: int, flags: Flags): Operation {
    Operation(CREATE, p.clusterName, vmid, p.vmType, OutputPayload(p.desired, flags), None, map[])
  }

  function ResourceVmid(p: Prepared): Option<int> {
    if p.resource.Obj? then RelationOf(Get(p.resource.fields, "vmid")) else None
  }

  function WantedType(p: Prepared): Option<string> { NormalizeVmType(Some(Str(p.vmType))) }

  /** The scope a VM is looked up in: its endpoint, or else its cluster. */
  function WantedScope(p: Prepared): Option<(Scope, int)> {
    var endpoint, cluster := EndpointOf(p.desired), RelationOf(Get(p.desired, "cluster"));
    if endpoint.Some? then Some((Endpoint, endpoint.value))
    else if cluster.Some? then Some((Cluster, cluster.value))
    else None
  }

  /** The record of a prepared VM by linear scan. */
  function Find(snapshot: seq<Json>, p: Prepared): (r: Option<nat>)
    ensures r.Some? ==> r.value < |snapshot|
  {
    var scope, vmid := WantedScope(p), ResourceVmid(p);
    if scope.None? || vmid.None? then None
    else SelectIndex(snapshot, scope.value.0, (scope.value.1, vmid.value), WantedType(p))
  }

  function FieldsOf(record: Json): Fields { if record.Obj? then record.fields else map[] }

  function SyncOperation(p: Prepared, vmid: int, record: Json, flags: Flags): Operation {
    var patch := PatchOf(FieldsOf(record), p.desired, flags);
    Operation(if patch == map[] then GET else UPDATE, p.clusterName, vmid, p.vmType,
              OutputPayload(p.desired, flags), Some(record), patch)
  }

  /** What the queue holds for one VM. */
  function OperationFor(snapshot: seq<Json>, p: Prepared, flags: Flags): Operation {
    if ResourceVmid(p).None? then CreateOperation(p, 0, flags) else
    var vmid, place := ResourceVmid(p).value, Find(snapshot, p);
    if place.None? then CreateOperation(p, vmid, flags) else SyncOperation(p, vmid, snapshot[place.value], flags)
  }

  /** What every operation carries: the VM's cluster name and type, its VM id or 0 if it has none, and its payload,
      without the VM type where that is not supported; a CREATE neither record nor patch, any other the record that
      was found and the patch for it, which is empty exactly for a GET. */
  lemma {:induction false} OperationIs(snapshot: seq<Json>, p: Prepared, flags: Flags)
    ensures var op, place := OperationFor(snapshot, p, flags), Find(snapshot, p);
      && op.clusterName == p.clusterName && op.vmType == p.vmType
      && op.vmid == (if p.resource.Obj? && RelationOf(Get(p.resource.fields, "vmid")).Some?
                     then RelationOf(Get(p.resource.fields, "vmid")).value else 0)
      && (flags.supportsType ==> op.desired == p.desired)
      && (!flags.supportsType ==> op.desired == p.desired - {"virtual_machine_type"})
      && (place.None? ==> op.action == CREATE && op.existing == None && op.patch == map[])
      && (place.Some? ==>
           && op.existing == Some(snapshot[place.value])
           && op.patch == PatchOf(FieldsOf(snapshot[place.value]), p.desired, flags)
           && op.action == if op.patch == map[] then GET else UPDATE)
  {
  }

  /** The same, looking the record up in the indexes. */
  function OperationVia(endpoints: Index, clusters: Index, p: Prepared, flags: Flags): Operation {
    var vmid, scope := ResourceVmid(p), WantedScope(p);
    if vmid.None? then CreateOperation(p, 0, flags) else
    var found := if scope.None? then None else
      SelectRecord(if scope.value.0.Endpoint? then endpoints else clusters, (scope.value.1, vmid.value), WantedType(p));
    if found.None? then CreateOperation(p, vmid.value, flags) else SyncOperation(p, vmid.value, found.value, flags)
  }

  lemma ViaIndexes(snapshot: seq<Json>, endpoints: Index, clusters: Index, p: Prepared, flags: Flags)
    requires Indexed(snapshot, |snapshot|, Endpoint, endpoints) && Indexed(snapshot, |snapshot|, Cluster, clusters)
    ensures OperationVia(endpoints, clusters, p, flags) == OperationFor(snapshot, p, flags)
  {
    var vmid, scope := ResourceVmid(p), WantedScope(p);
    if vmid.Some? && scope.Some? {
      var index := if scope.value.0.Endpoint? then endpoints else clusters;
      SelectIsScan(snapshot, scope.value.0, index, (scope.value.1, vmid.value), WantedType(p));
    }
  }

  /** The queue loop: one operation per VM, looked up in the indexes. */
  method QueueVia(prepared: seq<Prepared>, endpoints: Index, clusters: Index, flags: Flags)
    returns (queue: seq<Operation>)
    ensures |queue| == |prepared|
    ensures forall i :: 0 <= i < |queue| ==> queue[i] == OperationVia(endpoints, clusters, prepared[i], flags)
  {
    queue := [];
    while |queue| < |prepared|
      invariant |queue| <= |prepared|
      invariant forall i :: 0 <= i < |queue| ==> queue[i] == OperationVia(endpoints, clusters, prepared[i], flags)
    {
      queue := queue + [OperationVia(endpoints, clusters, prepared[|queue|], flags)];
    }
  }

  /** The whole queue: each operation is the one the linear scan gives. */
  method BuildQueue(prepared: seq<Prepared>, snapshot: seq<Json>, flags: Flags) returns (queue: seq<Operation>)
    ensures |queue| == |prepared|
    ensures forall i :: 0 <= i < |queue| ==> queue[i] == OperationFor(snapshot, prepared[i], flags)
  {
    var endpoints, clusters := BuildIndexes(snapshot);
    queue := QueueVia(prepared, endpoints, clusters, flags);
    forall i | 0 <= i < |queue|
      ensures queue[i] == OperationFor(snapshot, prepared[i], flags)
    {
      ViaIndexes(snapshot, endpoints, clusters, prepared[i], flags);
    }
  }

  /** With every overwrite flag on, a VM is answered GET exactly when it has a record in which every desired field
      but the tags already holds, loosely, and no desired tag is missing. */
  lemma GetIff(snapshot: seq<Json>, p: Prepared, supportsType: bool)
    ensures var op, place := OperationFor(snapshot, p, ALL_ON.(supportsType := supportsType)), Find(snapshot, p);
      && (op.action == CREATE <==> place.None?)
      && (op.action == GET <==>
            (place.Some?
             && InSync(Normalize(p.desired, supportsType), Normalize(FieldsOf(snapshot[place.value]), supportsType))))
  {
    var place := Find(snapshot, p);
    if place.Some? { InSyncIff(p.desired, FieldsOf(snapshot[place.value]), supportsType); }
  }

  // ---------------------------------------------------------------- convergence of the queue

  /** Storing a patch into the record at a place of the snapshot. */
  function Stored(snapshot: seq<Json>, i: nat, patch: Fields): seq<Json>
    requires i < |snapshot| && snapshot[i].Obj?
  {
    snapshot[i := Obj(snapshot[i].fields + patch)]
  }

  lemma {:induction false} FirstTypedStored(
    snapshot: seq<Json>, n: nat, i: nat, v: Json, scope: Scope, key: Key, t: string)
    requires n <= |snapshot| && i < |snapshot|
    requires KeyIn(scope, v) == Some(key) && RecordType(v) == Some(t)
    requires var found := FirstTyped(snapshot, |snapshot|, scope, key, t); found == Some(i) || found.None?
    ensures i < n ==> FirstTyped(snapshot[i := v], n, scope, key, t) == Some(i)
    ensures n <= i ==> FirstTyped(snapshot[i := v], n, scope, key, t).None?
  {
    FirstTypedIs(snapshot, |snapshot|, scope, key, t);
    if n > 0 { FirstTypedStored(snapshot, n - 1, i, v, scope, key, t); }
  }

  lemma {:induction false} CandidatesStored(snapshot: seq<Json>, n: nat, i: nat, v: Json, scope: Scope, key: Key)
    requires n <= |snapshot| && i < |snapshot|
    requires KeyIn(scope, v) == KeyIn(scope, snapshot[i])
    ensures Candidates(snapshot[i := v], n, scope, key) == Candidates(snapshot, n, scope, key)
  {
    if n > 0 { CandidatesStored(snapshot, n - 1, i, v, scope, key); }
  }

  lemma {:induction false} OneCandidate(snapshot: seq<Json>, scope: Scope, key: Key, i: nat)
    requires i < |snapshot| && KeyIn(scope, snapshot[i]) == Some(key)
    ensures |Candidates(snapshot, |snapshot|, scope, key)| == 1 ==> Candidates(snapshot, |snapshot|, scope, key) == [i]
  {
    CandidatesAre(snapshot, |snapshot|, scope, key);
  }

  /** The record keeps its key, and a type under which this VM still finds it. */
  predicate StaysOwn(snapshot: seq<Json>, scope: Scope, key: Key, vmType: Option<string>, v: Json) {
    && KeyIn(scope, v) == Some(key)
    && (|| vmType.None?
        || RecordType(v) == vmType
        || (RecordType(v).None? && |Candidates(snapshot, |snapshot|, scope, key)| == 1))
  }

  lemma OwnIsSelected(snapshot: seq<Json>, scope: Scope, key: Key, vmType: Option<string>, i: nat, v: Json)
    requires SelectIndex(snapshot, scope, key, vmType) == Some(i) && StaysOwn(snapshot, scope, key, vmType, v)
    ensures SelectIndex(snapshot[i := v], scope, key, vmType) == Some(i)
  {
    SelectedKey(snapshot, scope, key, vmType);
    CandidatesStored(snapshot, |snapshot|, i, v, scope, key);
    if vmType.Some? && RecordType(v) == vmType {
      FirstTypedStored(snapshot, |snapshot|, i, v, scope, key, vmType.value);
    } else {
      OneCandidate(snapshot, scope, key, i);
      if vmType.Some? { SoleUntyped(snapshot[i := v], scope, key, vmType.value, i); }
    }
  }

  /** When the only candidate is untyped, no typed record is found. */
  lemma {:induction false} SoleUntyped(snapshot: seq<Json>, scope: Scope, key: Key, vmType: string, i: nat)
    requires i < |snapshot| && Candidates(snapshot, |snapshot|, scope, key) == [i] && RecordType(snapshot[i]).None?
    ensures FirstTyped(snapshot, |snapshot|, scope, key, vmType).None?
  {
    CandidatesAre(snapshot, |snapshot|, scope, key);
    FirstTypedIs(snapshot, |snapshot|, scope, key, vmType);
  }

  lemma SelectedIsOwn(snapshot: seq<Json>, scope: Scope, key: Key, vmType: Option<string>, i: nat, v: Json)
    requires SelectIndex(snapshot, scope, key, vmType) == Some(i)
    requires SelectIndex(snapshot[i := v], scope, key, vmType) == Some(i)
    ensures StaysOwn(snapshot, scope, key, vmType, v)
  {
    SelectedKey(snapshot, scope, key, vmType);
    SelectedKey(snapshot[i := v], scope, key, vmType);
    CandidatesStored(snapshot, |snapshot|, i, v, scope, key);
    if vmType.Some? { FirstTypedIs(snapshot[i := v], |snapshot|, scope, key, vmType.value); }
  }

  /** Replacing the selected record, the VM selects the replacement exactly when it stays its own. */
  lemma SelectsAgainIff(snapshot: seq<Json>, scope: Scope, key: Key, vmType: Option<string>, i: nat, v: Json)
    requires SelectIndex(snapshot, scope, key, vmType) == Some(i)
    ensures SelectIndex(snapshot[i := v], scope, key, vmType) == Some(i) <==> StaysOwn(snapshot, scope, key, vmType, v)
  {
    if StaysOwn(snapshot, scope, key, vmType, v) { OwnIsSelected(snapshot, scope, key, vmType, i, v); }
    if SelectIndex(snapshot[i := v], scope, key, vmType) == Some(i) {
      SelectedIsOwn(snapshot, scope, key, vmType, i, v);
    }
  }

  /** The patch holds custom fields: they may be overwritten, and the desired ones loosely differ. */
  predicate CustomPatched(before: Fields, p: Prepared, flags: Flags) {
    && !Protected(before, "custom_fields", flags)
    && !EqLoose(Obj(CustomFieldsOf(p.desired)), Obj(CustomFieldsOf(before)))
  }

  lemma CustomPatchedIff(before: Fields, p: Prepared, flags: Flags)
    ensures "custom_fields" in PatchOf(before, p.desired, flags) <==> CustomPatched(before, p, flags)
  {
    PatchField(before, p.desired, flags, "custom_fields");
    DesiredCustomFields(p.desired, flags.supportsType);
    DesiredCustomFields(before, flags.supportsType);
  }

  /** Desired custom fields under which the record, once they are stored, is still found by this VM: they give its VM
      id, its endpoint (unless the record has one of its own beside the custom fields, or the VM is looked up by its
      cluster) and its type, or no type if the record is the only candidate. */
  predicate NamesItself(snapshot: seq<Json>, p: Prepared, before: Fields)
    requires WantedScope(p).Some? && ResourceVmid(p).Some?
  {
    var (scope, id) := WantedScope(p).value;
    var custom, vmType := CustomFieldsOf(p.desired), TypeOf(p.desired);
    && RelationOf(Get(custom, "proxmox_vm_id")) == ResourceVmid(p)
    && (|| scope.Cluster?
        || FirstRelation(before, "cf_proxmox_endpoint_id", "proxmox_endpoint_id").Some?
        || FirstRelation(custom, "proxmox_endpoint_id", "cf_proxmox_endpoint_id") == Some(id))
    && (|| WantedType(p).None?
        || vmType == WantedType(p)
        || (vmType.None? && |Candidates(snapshot, |snapshot|, scope, (id, ResourceVmid(p).value))| == 1))
  }

  /** What a caller can check before the call: the custom fields are not patched, or name the VM itself. */
  predicate KeepsIdentity(snapshot: seq<Json>, p: Prepared, flags: Flags)
    requires Find(snapshot, p).Some?
  {
    var before := FieldsOf(snapshot[Find(snapshot, p).value]);
    CustomPatched(before, p, flags) ==> NamesItself(snapshot, p, before)
  }

  function KeyOf(p: Prepared): Key
    requires WantedScope(p).Some? && ResourceVmid(p).Some?
  {
    (WantedScope(p).value.1, ResourceVmid(p).value)
  }

  /** The record a VM is matched with, once its patch has been stored. */
  function RecordAfter(snapshot: seq<Json>, p: Prepared, flags: Flags): Json
    requires Find(snapshot, p).Some?
  {
    var record, op := snapshot[Find(snapshot, p).value], OperationFor(snapshot, p, flags);
    if op.action == UPDATE then Obj(FieldsOf(record) + op.patch) else record
  }

  /** The record stays the VM's own exactly when the patch keeps its identity. */
  lemma StaysOwnIff(snapshot: seq<Json>, p: Prepared, flags: Flags)
    requires Find(snapshot, p).Some?
    ensures StaysOwn(snapshot, WantedScope(p).value.0, KeyOf(p), WantedType(p), RecordAfter(snapshot, p, flags)) <==>
      KeepsIdentity(snapshot, p, flags)
  {
    var i := Find(snapshot, p).value;
    var scope, key, before := WantedScope(p).value.0, KeyOf(p), FieldsOf(snapshot[i]);
    SelectedKey(snapshot, scope, key, WantedType(p));
    SelectedType(snapshot, scope, key, WantedType(p), i);
    CustomPatchedIff(before, p, flags);
    if CustomPatched(before, p, flags) {
      PatchedOwnIff(snapshot, p, flags, before);
    } else {
      KeyStays(p, flags, scope, key, before);
      PatchKeys(before, p.desired, flags);
      IdentityAfter(before, PatchOf(before, p.desired, flags), CustomFieldsOf(p.desired));
    }
  }

  lemma PatchedOwnIff(snapshot: seq<Json>, p: Prepared, flags: Flags, before: Fields)
    requires WantedScope(p).Some? && ResourceVmid(p).Some?
    requires KeyIn(WantedScope(p).value.0, Obj(before)) == Some(KeyOf(p))
    requires "custom_fields" in PatchOf(before, p.desired, flags)
    ensures StaysOwn(snapshot, WantedScope(p).value.0, KeyOf(p), WantedType(p),
                     Obj(before + PatchOf(before, p.desired, flags)))
      <==> NamesItself(snapshot, p, before)
  {
    PatchKeys(before, p.desired, flags);
    IdentityAfter(before, PatchOf(before, p.desired, flags), CustomFieldsOf(p.desired));
    if WantedScope(p).value.0.Cluster? { ClusterStays(before, p.desired, flags); }
  }

  /** Convergence: after the patch of an UPDATE has been stored, the next run answers GET for this very record
      exactly when the patch keeps the VM's identity. */
  lemma QueueConvergesIff(snapshot: seq<Json>, p: Prepared, flags: Flags)
    requires OperationFor(snapshot, p, flags).action == UPDATE
    ensures var i, op := Find(snapshot, p).value, OperationFor(snapshot, p, flags);
      && snapshot[i].Obj?
      && var after := Stored(snapshot, i, op.patch);
         (Find(after, p) == Some(i) && OperationFor(after, p, flags) ==
            SyncOperation(p, ResourceVmid(p).value, after[i], flags).(action := GET, patch := map[]))
         <==> KeepsIdentity(snapshot, p, flags)
  {
    var i, op := Find(snapshot, p).value, OperationFor(snapshot, p, flags);
    var scope, key := WantedScope(p).value.0, KeyOf(p);
    SelectedKey(snapshot, scope, key, WantedType(p));
    var after := Stored(snapshot, i, op.patch);
    StaysOwnIff(snapshot, p, flags);
    SelectsAgainIff(snapshot, scope, key, WantedType(p), i, after[i]);
    PatchConverges(p.desired, snapshot[i].fields, flags);
  }

  /** The desired custom fields name the VM's own endpoint (when that is its scope), VM id and type. */
  predicate CarriesIdentity(p: Prepared) {
    var custom := CustomFieldsOf(p.desired);
    && RelationOf(Get(custom, "proxmox_vm_id")) == ResourceVmid(p)
    && (EndpointOf(p.desired).Some? ==>
          FirstRelation(custom, "proxmox_endpoint_id", "cf_proxmox_endpoint_id") == EndpointOf(p.desired))
    && NormalizeVmType(Get(custom, "proxmox_vm_type")) == WantedType(p)
  }

  lemma PatchKeys(existing: Fields, payload: Fields, flags: Flags)
    ensures var patch := PatchOf(existing, payload, flags);
      && patch.Keys <= FIELD_NAMES
      && ("custom_fields" in patch ==> patch["custom_fields"] == Obj(CustomFieldsOf(payload)))
  {
    var desired, current := Normalize(payload, flags.supportsType), Normalize(existing, flags.supportsType);
    RuledKeys(Diff(desired, current), existing, current, desired, flags);
    PatchField(existing, payload, flags, "custom_fields");
    DesiredCustomFields(payload, flags.supportsType);
  }

  lemma RuledKeys(diff: Fields, existing: Fields, current: Fields, desired: Fields, flags: Flags)
    ensures Ruled(diff, existing, current, desired, flags).Keys <= diff.Keys
  {
  }

  lemma DesiredCustomFields(payload: Fields, supportsType: bool)
    ensures var desired := Normalize(payload, supportsType);
      "custom_fields" in desired && desired["custom_fields"] == Obj(CustomFieldsOf(payload))
  {
    assert KindOf("custom_fields", supportsType) == Some(CustomFields);
  }

  /** In cluster scope the patch never moves the record to another cluster. */
  lemma ClusterStays(existing: Fields, payload: Fields, flags: Flags)
    requires RelationOf(Get(existing, "cluster")) == RelationOf(Get(payload, "cluster"))
    ensures "cluster" !in PatchOf(existing, payload, flags)
  {
    var v := NormalField(payload, "cluster", flags.supportsType);
    if v.Some? { EqReflexive(v.value); }
  }

  /** What storing a patch of payload fields does to the fields identity is read from. */
  lemma IdentityAfter(before: Fields, patch: Fields, custom: Fields)
    requires patch.Keys <= FIELD_NAMES && ("custom_fields" in patch ==> patch["custom_fields"] == Obj(custom))
    ensures FirstRelation(before + patch, "cf_proxmox_endpoint_id", "proxmox_endpoint_id")
         == FirstRelation(before, "cf_proxmox_endpoint_id", "proxmox_endpoint_id")
    ensures CustomFieldsOf(before + patch) == (if "custom_fields" in patch then custom else CustomFieldsOf(before))
    ensures "cluster" !in patch ==> Get(before + patch, "cluster") == Get(before, "cluster")
  {
    assert "cf_proxmox_endpoint_id" !in patch && "proxmox_endpoint_id" !in patch;
  }

  lemma KeyStays(p: Prepared, flags: Flags, scope: Scope, key: Key, before: Fields)
    requires WantedScope(p) == Some((scope, key.0)) && ResourceVmid(p) == Some(key.1)
    requires KeyIn(scope, Obj(before)) == Some(key)
    requires "custom_fields" !in PatchOf(before, p.desired, flags) || CarriesIdentity(p)
    ensures KeyIn(scope, Obj(before + PatchOf(before, p.desired, flags))) == Some(key)
  {
    PatchKeys(before, p.desired, flags);
    IdentityAfter(before, PatchOf(before, p.desired, flags), CustomFieldsOf(p.desired));
    if scope.Cluster? { ClusterStays(before, p.desired, flags); }
  }

  /** The type of a selected record: the wanted one, or none on the only candidate. */
  lemma SelectedType(snapshot: seq<Json>, scope: Scope, key: Key, vmType: Option<string>, i: nat)
    requires SelectIndex(snapshot, scope, key, vmType) == Some(i)
    ensures StaysOwn(snapshot, scope, key, vmType, snapshot[i])
  {
    SelectedKey(snapshot, scope, key, vmType);
    if vmType.Some? { FirstTypedIs(snapshot, |snapshot|, scope, key, vmType.value); }
  }

  /** In particular: custom fields that carry the VM's whole identity keep the record the VM's own. */
  lemma OwnIdentityStays(snapshot: seq<Json>, p: Prepared, flags: Flags)
    requires Find(snapshot, p).Some? && CarriesIdentity(p)
    ensures KeepsIdentity(snapshot, p, flags)
  {
    var (scope, id) := WantedScope(p).value;
    assert scope.Endpoint? ==> EndpointOf(p.desired) == Some(id);
  }

  /** In a snapshot of one record, a VM that does not find it again finds nothing. */
  lemma {:induction false} LostIsNotFound(
    snapshot: seq<Json>, scope: Scope, key: Key, vmType: Option<string>, v: Json)
    requires |snapshot| == 1 && SelectIndex(snapshot, scope, key, vmType) == Some(0)
    requires !StaysOwn(snapshot, scope, key, vmType, v)
    ensures SelectIndex(snapshot[0 := v], scope, key, vmType) == None
  {
    SelectsAgainIff(snapshot, scope, key, vmType, 0, v);
  }

  lemma {:induction false} NotFoundIsCreated(snapshot: seq<Json>, p: Prepared, flags: Flags)
    requires Find(snapshot, p) == None
    ensures OperationFor(snapshot, p, flags).action == CREATE
  {
  }

  /** There, a patch that does not keep the identity makes the next run create the VM. */
  lemma {:induction false} LostIsCreated(snapshot: seq<Json>, p: Prepared, flags: Flags)
    requires |snapshot| == 1 && Find(snapshot, p) == Some(0) && !KeepsIdentity(snapshot, p, flags)
    ensures OperationFor(snapshot[0 := RecordAfter(snapshot, p, flags)], p, flags).action == CREATE
  {
    StaysOwnIff(snapshot, p, flags);
    LostIsNotFound(snapshot, WantedScope(p).value.0, KeyOf(p), WantedType(p), RecordAfter(snapshot, p, flags));
    NotFoundIsCreated(snapshot[0 := RecordAfter(snapshot, p, flags)], p, flags);
  }

  /** A record known by its custom VM id, and a VM whose desired payload has no custom fields. */
  function KnownRecord(): Json {
    Obj(map["proxmox_endpoint_id" := Num(PosInt(1)), "custom_fields" := Obj(map["proxmox_vm_id" := Num(PosInt(5))])])
  }

  function BareVm(): Prepared {
    Prepared("", Obj(map["vmid" := Num(PosInt(5))]), map["proxmox_endpoint_id" := Num(PosInt(1))], "")
  }

  lemma BareVmFinds()
    ensures WantedScope(BareVm()) == Some((Endpoint, 1)) && ResourceVmid(BareVm()) == Some(5)
    ensures Find([KnownRecord()], BareVm()) == Some(0)
  {
    var before, wanted := KnownRecord().fields, BareVm().desired;
    assert "cf_proxmox_endpoint_id" !in before && "cf_proxmox_endpoint_id" !in wanted;
    assert KeyIn(Endpoint, KnownRecord()) == Some((1, 5));
    assert WantedType(BareVm()) == None;
    assert Candidates([KnownRecord()], 0, Endpoint, (1, 5)) == [];
    assert Candidates([KnownRecord()], 1, Endpoint, (1, 5)) == [0];
  }

  /** The UPDATE of that VM takes the VM id away from the record, and the next run creates the VM anew. */
  lemma IdentityIsLost()
    ensures var op := OperationFor([KnownRecord()], BareVm(), ALL_ON);
      && op.action == UPDATE
      && OperationFor(Stored([KnownRecord()], 0, op.patch), BareVm(), ALL_ON).action == CREATE
  {
    var before, p := KnownRecord().fields, BareVm();
    BareVmFinds();
    assert |map["proxmox_vm_id" := Num(PosInt(5))]| == 1;
    assert CustomPatched(before, p, ALL_ON) && !NamesItself([KnownRecord()], p, before);
    CustomPatchedIff(before, p, ALL_ON);
    LostIsCreated([KnownRecord()], p, ALL_ON);
  }
}
