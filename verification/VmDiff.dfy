/** The VM diff and the overwrite rules applied to it. */
module VmDiff {
  import opened Wrappers
  import opened Json
  import opened VmNormalize

  datatype Flags = Flags(
    role: bool, vmType: bool, tags: bool, description: bool, customFields: bool, supportsType: bool)

  /** The desired fields that are missing from the current payload or loosely differ from it. */
  function Diff(desired: Fields, current: Fields): Fields {
    desired - set k | k in desired && k in current && EqLoose(desired[k], current[k])
  }

  function MergeTags(a: seq<int>, b: seq<int>): (r: seq<int>)
    requires StrictlySorted(a)
    ensures StrictlySorted(r)
    ensures forall x :: x in r <==> x in a || x in b
    decreases |b|
  {
    if b == [] then a else
    var r := MergeTags(InsertTag(a, b[0]), b[1..]);
    assert forall x :: x in b <==> x == b[0] || x in b[1..];
    r
  }

  /** The existing record holds a value the flags forbid to overwrite. */
  predicate Protected(existing: Fields, key: string, flags: Flags) {
    || (key == "role" && !flags.role && RelationOf(Get(existing, "role")).Some?)
    || (key == "virtual_machine_type" && !flags.vmType && RelationOf(Get(existing, "virtual_machine_type")).Some?)
    || (key == "description" && !flags.description
        && "description" in existing && existing["description"].Str? && existing["description"].s != "")
    || (key == "custom_fields" && !flags.customFields
        && "custom_fields" in existing && existing["custom_fields"].Obj? && existing["custom_fields"].fields != map[])
    || (key == "tags" && !flags.tags && "tags" in existing && existing["tags"].Arr? && existing["tags"].items != [])
  }

  function TagsOf(payload: Fields): seq<int> { NormalizeTags(Get(payload, "tags")) }

  predicate AddsNoTag(current: Fields, desired: Fields) {
    MergeTags(TagsOf(current), TagsOf(desired)) == TagsOf(current)
  }

  /** The patch the rules leave: nothing protected, and with tag overwriting on, tags only ever added. */
  function Ruled(patch: Fields, existing: Fields, current: Fields, desired: Fields, flags: Flags): Fields {
    var allowed := patch - set k | k in patch && Protected(existing, k, flags);
    if !flags.tags || "tags" !in allowed then allowed
    else if AddsNoTag(current, desired) then allowed - {"tags"}
    else allowed["tags" := TagArray(MergeTags(TagsOf(current), TagsOf(desired)))]
  }

  /** The patch once the rules for the keys of `done` have been applied. */
  ghost function Cleared(patch: Fields, existing: Fields, done: set<string>, flags: Flags): Fields {
    patch - set k | k in patch && k in done && Protected(existing, k, flags)
  }

  lemma ClearOne(patch: Fields, existing: Fields, done: set<string>, key: string, flags: Flags)
    ensures Cleared(patch, existing, done + {key}, flags) ==
      if Protected(existing, key, flags) then Cleared(patch, existing, done, flags) - {key}
      else Cleared(patch, existing, done, flags)
  {
  }

  lemma ClearTags(diff: Fields, existing: Fields, current: Fields, desired: Fields, flags: Flags)
    ensures var done := {"role", "virtual_machine_type", "description", "custom_fields"};
      var cleared := Cleared(diff, existing, done, flags);
      Ruled(diff, existing, current, desired, flags) == (
        if !flags.tags then if Protected(existing, "tags", flags) then cleared - {"tags"} else cleared
        else if "tags" !in cleared then cleared
        else if AddsNoTag(current, desired) then cleared - {"tags"}
        else cleared["tags" := TagArray(MergeTags(TagsOf(current), TagsOf(desired)))])
  {
  }

  /** The rules, removing from and inserting into the patch one after the other. */
  method ApplyOverwriteRules(diff: Fields, existing: Fields, current: Fields, desired: Fields, flags: Flags)
    returns (patch: Fields)
    ensures patch == Ruled(diff, existing, current, desired, flags)
  {
    patch := diff;
    assert patch == Cleared(diff, existing, {}, flags);
    ClearOne(diff, existing, {}, "role", flags);
    if Protected(existing, "role", flags) { patch := patch - {"role"}; }
    ClearOne(diff, existing, {} + {"role"}, "virtual_machine_type", flags);
    if Protected(existing, "virtual_machine_type", flags) { patch := patch - {"virtual_machine_type"}; }
    ClearOne(diff, existing, {} + {"role"} + {"virtual_machine_type"}, "description", flags);
    if Protected(existing, "description", flags) { patch := patch - {"description"}; }
    ghost var done := {} + {"role"} + {"virtual_machine_type"} + {"description"};
    ClearOne(diff, existing, done, "custom_fields", flags);
    if Protected(existing, "custom_fields", flags) { patch := patch - {"custom_fields"}; }
    assert done + {"custom_fields"} == {"role", "virtual_machine_type", "description", "custom_fields"};
    ClearTags(diff, existing, current, desired, flags);
    if !flags.tags {
      if Protected(existing, "tags", flags) { patch := patch - {"tags"}; }
    } else if "tags" in patch {
      var merged := MergeTags(TagsOf(current), TagsOf(desired));
      if merged == TagsOf(current) {
        patch := patch - {"tags"};
      } else {
        patch := patch["tags" := TagArray(merged)];
      }
    }
  }

  /** The patch of one VM: both sides normalized, compared, and put through the rules. */
  function PatchOf(existing: Fields, payload: Fields, flags: Flags): Fields {
    var desired, current := Normalize(payload, flags.supportsType), Normalize(existing, flags.supportsType);
    Ruled(Diff(desired, current), existing, current, desired, flags)
  }

  /** The flag that lets a field be overwritten; other fields always may. */
  function MayOverwrite(flags: Flags, k: string): bool {
    match k
    case "role" => flags.role
    case "virtual_machine_type" => flags.vmType
    case "description" => flags.description
    case "custom_fields" => flags.customFields
    case "tags" => flags.tags
    case _ => true
  }

  /** The record has something of its own in the field: a role or a type that can be read as an id, a description, a
      custom field, a tag. */
  predicate HasOwn(existing: Fields, k: string) {
    k in existing &&
    match k
    case "role" => RelationId(existing[k]).Some?
    case "virtual_machine_type" => RelationId(existing[k]).Some?
    case "description" => existing[k].Str? && |existing[k].s| > 0
    case "custom_fields" => existing[k].Obj? && |existing[k].fields| > 0
    case "tags" => existing[k].Arr? && |existing[k].items| > 0
    case _ => false
  }

  /** A field is kept from being overwritten exactly when its own flag is off and the record has something there. */
  lemma {:induction false} ProtectedIff(existing: Fields, k: string, flags: Flags)
    ensures Protected(existing, k, flags) <==> !MayOverwrite(flags, k) && HasOwn(existing, k)
  {
    if k == "custom_fields" && k in existing && existing[k].Obj? {
      assert |existing[k].fields| == 0 <==> existing[k].fields == map[];
    }
  }

  /** So a field whose flag is off, and which the record has, is never in the patch. */
  lemma {:induction false} OwnValueStays(existing: Fields, payload: Fields, flags: Flags, k: string)
    requires !MayOverwrite(flags, k) && HasOwn(existing, k)
    ensures k !in PatchOf(existing, payload, flags)
  {
    ProtectedIff(existing, k, flags);
    if k == "tags" {
      TagsKept(existing, payload, flags);
    } else {
      PatchField(existing, payload, flags, k);
    }
  }

  lemma {:induction false} TagsKept(existing: Fields, payload: Fields, flags: Flags)
    requires Protected(existing, "tags", flags)
    ensures "tags" !in PatchOf(existing, payload, flags)
  {
  }

  // ---------------------------------------------------------------- convergence

  /** Normalization reads each field on its own, so storing a patch changes just the patched fields. */
  lemma NormalizeAfterPatch(existing: Fields, patch: Fields, k: string, supportsType: bool)
    ensures NormalField(existing + patch, k, supportsType) ==
      if k in patch then NormalField(patch, k, supportsType) else NormalField(existing, k, supportsType)
  {
  }

  /** A desired field that has been stored is found unchanged. */
  lemma StoredFieldAgrees(payload: Fields, existing: Fields, patch: Fields, k: string, supportsType: bool)
    requires k in Normalize(payload, supportsType)
    requires k in patch && patch[k] == Normalize(payload, supportsType)[k]
    ensures var after := Normalize(existing + patch, supportsType);
      k in after && EqLoose(Normalize(payload, supportsType)[k], after[k])
  {
    var kind := KindOf(k, supportsType).value;
    NormalValueIdempotent(kind, Get(payload, k));
    NormalizeAfterPatch(existing, patch, k, supportsType);
    EqReflexive(patch[k]);
  }

  /** The diff alone: stored and taken again it is empty. */
  lemma DiffConverges(payload: Fields, existing: Fields, supportsType: bool)
    ensures var desired := Normalize(payload, supportsType);
      var diff := Diff(desired, Normalize(existing, supportsType));
      Diff(desired, Normalize(existing + diff, supportsType)) == map[]
  {
    var desired, current := Normalize(payload, supportsType), Normalize(existing, supportsType);
    var diff := Diff(desired, current);
    var after := Normalize(existing + diff, supportsType);
    forall k | k in desired
      ensures k in after && EqLoose(desired[k], after[k])
    {
      if k in diff {
        StoredFieldAgrees(payload, existing, diff, k, supportsType);
      } else {
        NormalizeAfterPatch(existing, diff, k, supportsType);
      }
    }
  }

  lemma TagsReadFromNormal(fields: Fields, supportsType: bool)
    ensures TagsOf(Normalize(fields, supportsType)) == NormalizeTags(Get(fields, "tags"))
    ensures "tags" in Normalize(fields, supportsType)
    ensures Normalize(fields, supportsType)["tags"] == TagArray(NormalizeTags(Get(fields, "tags")))
  {
    TagsAreInRange(Get(fields, "tags"));
    TagsReadBack(NormalizeTags(Get(fields, "tags")));
  }

  lemma {:induction false} MergeAbsorbs(a: seq<int>, b: seq<int>)
    requires StrictlySorted(a)
    ensures MergeTags(a, b) == a <==> forall x :: x in b ==> x in a
    ensures MergeTags(MergeTags(a, b), b) == MergeTags(a, b)
  {
    if forall x :: x in b ==> x in a { SortedUnique(MergeTags(a, b), a); }
    SortedUnique(MergeTags(MergeTags(a, b), b), MergeTags(a, b));
  }

  lemma {:induction false} MergeInRange(a: seq<int>, b: seq<int>)
    requires StrictlySorted(a) && TagsInRange(a) && TagsInRange(b)
    ensures TagsInRange(MergeTags(a, b))
  {
    var r := MergeTags(a, b);
    forall i | 0 <= i < |r| ensures r[i] <= I64_MAX { assert r[i] in r; }
  }

  /** After storing the patch, the rules again drop or find nothing to do for the tags. */
  lemma TagsConverge(payload: Fields, existing: Fields, flags: Flags)
    ensures var patch := PatchOf(existing, payload, flags);
      "tags" !in PatchOf(existing + patch, payload, flags)
  {
    var patch := PatchOf(existing, payload, flags);
    var stored := existing + patch;
    var a, b := NormalizeTags(Get(existing, "tags")), NormalizeTags(Get(payload, "tags"));
    TagsReadFromNormal(existing, flags.supportsType);
    TagsReadFromNormal(payload, flags.supportsType);
    TagsReadFromNormal(stored, flags.supportsType);
    if "tags" in patch {
      if flags.tags {
        TagsAreInRange(Get(existing, "tags"));
        TagsAreInRange(Get(payload, "tags"));
        MergeInRange(a, b);
        TagsReadBack(MergeTags(a, b));
        MergeAbsorbs(a, b);
      } else {
        StoredFieldAgrees(payload, existing, patch, "tags", flags.supportsType);
      }
    } else {
      NormalizeAfterPatch(existing, patch, "tags", flags.supportsType);
    }
  }

  /** Storing a patch never takes a tag away from a record, whatever the flags. */
  lemma NoTagIsLost(payload: Fields, existing: Fields, flags: Flags, t: int)
    requires t in NormalizeTags(Get(existing, "tags"))
    ensures t in NormalizeTags(Get(existing + PatchOf(existing, payload, flags), "tags"))
  {
    var a, b := NormalizeTags(Get(existing, "tags")), NormalizeTags(Get(payload, "tags"));
    TagsReadFromNormal(existing, flags.supportsType);
    TagsReadFromNormal(payload, flags.supportsType);
    if flags.tags {
      TagsAreInRange(Get(existing, "tags"));
      TagsAreInRange(Get(payload, "tags"));
      MergeInRange(a, b);
      TagsReadBack(MergeTags(a, b));
    } else {
      assert existing["tags"].items != [];
    }
  }

  /** Any field but the tags is patched exactly when it is desired, differs and is not protected. */
  lemma PatchField(existing: Fields, payload: Fields, flags: Flags, k: string)
    requires k != "tags"
    ensures var desired, current := Normalize(payload, flags.supportsType), Normalize(existing, flags.supportsType);
      var patch := PatchOf(existing, payload, flags);
      && (k in patch <==>
            k in desired && !(k in current && EqLoose(desired[k], current[k])) && !Protected(existing, k, flags))
      && (k in patch ==> patch[k] == desired[k])
  {
    var desired, current := Normalize(payload, flags.supportsType), Normalize(existing, flags.supportsType);
    DiffField(desired, current, k);
    RuledField(Diff(desired, current), existing, current, desired, flags, k);
  }

  lemma DiffField(desired: Fields, current: Fields, k: string)
    ensures var diff := Diff(desired, current);
      && (k in diff <==> k in desired && !(k in current && EqLoose(desired[k], current[k])))
      && (k in diff ==> diff[k] == desired[k])
  {
  }

  lemma RuledField(diff: Fields, existing: Fields, current: Fields, desired: Fields, flags: Flags, k: string)
    requires k != "tags"
    ensures var patch := Ruled(diff, existing, current, desired, flags);
      && (k in patch <==> k in diff && !Protected(existing, k, flags))
      && (k in patch ==> patch[k] == diff[k])
  {
  }

  lemma RuledTags(diff: Fields, existing: Fields, current: Fields, desired: Fields, flags: Flags)
    requires flags.tags
    ensures var patch := Ruled(diff, existing, current, desired, flags);
      && ("tags" in patch <==> "tags" in diff && !AddsNoTag(current, desired))
      && ("tags" in patch ==> patch["tags"] == TagArray(MergeTags(TagsOf(current), TagsOf(desired))))
  {
    assert !Protected(existing, "tags", flags);
  }

  lemma OtherFieldConverges(payload: Fields, existing: Fields, flags: Flags, k: string)
    requires k != "tags"
    ensures k !in PatchOf(existing + PatchOf(existing, payload, flags), payload, flags)
  {
    var patch := PatchOf(existing, payload, flags);
    var stored := existing + patch;
    PatchField(existing, payload, flags, k);
    PatchField(stored, payload, flags, k);
    if k in patch {
      StoredFieldAgrees(payload, existing, patch, k, flags.supportsType);
    } else {
      assert Get(stored, k) == Get(existing, k);
    }
  }

  /** For any flags: storing the patch and comparing again leaves an empty patch. */
  lemma PatchConverges(payload: Fields, existing: Fields, flags: Flags)
    ensures PatchOf(existing + PatchOf(existing, payload, flags), payload, flags) == map[]
  {
    var again := PatchOf(existing + PatchOf(existing, payload, flags), payload, flags);
    forall k
      ensures k !in again
    {
      if k == "tags" {
        TagsConverge(payload, existing, flags);
      } else {
        OtherFieldConverges(payload, existing, flags, k);
      }
    }
  }

  // ---------------------------------------------------------------- when there is nothing to do

  const ALL_ON := Flags(true, true, true, true, true, true)

  /** Every desired field but the tags loosely equals the current one, and the desired tags loosely equal or are
      among the current tags. */
  ghost predicate InSync(desired: Fields, current: Fields) {
    && (forall k :: k in desired && k != "tags" ==> k in current && EqLoose(desired[k], current[k]))
    && (|| ("tags" in desired && "tags" in current && EqLoose(desired["tags"], current["tags"]))
        || forall t :: t in TagsOf(desired) ==> t in TagsOf(current))
  }

  /** With every overwrite flag on, there is nothing to patch exactly when the two sides are in sync. */
  lemma InSyncIff(payload: Fields, existing: Fields, supportsType: bool)
    ensures PatchOf(existing, payload, ALL_ON.(supportsType := supportsType)) == map[] <==>
      InSync(Normalize(payload, supportsType), Normalize(existing, supportsType))
  {
    var desired, current := Normalize(payload, supportsType), Normalize(existing, supportsType);
    var flags := ALL_ON.(supportsType := supportsType);
    var patch := PatchOf(existing, payload, flags);
    TagsReadFromNormal(payload, supportsType);
    TagsReadFromNormal(existing, supportsType);
    MergeAbsorbs(TagsOf(current), TagsOf(desired));
    forall k | k in desired && k != "tags"
      ensures k in patch <==> !(k in current && EqLoose(desired[k], current[k]))
    {
      PatchField(existing, payload, flags, k);
    }
    assert patch == map[] <==> forall k :: k in desired ==> k !in patch;
  }

  // ---------------------------------------------------------------- two payloads for one record

  /** The tags loosely equal, or are among, the tags of the record. */
  ghost predicate TagsSettled(tags: seq<int>, held: seq<int>) {
    EqLoose(TagArray(tags), TagArray(held)) || forall t :: t in tags ==> t in held
  }

  /** The tags a record holds after two patches, both computed from it, have been stored one after the other: the
      second one's union, if it adds tags, else the first one's. */
  ghost function TagsAfterBoth(current: seq<int>, first: seq<int>, second: seq<int>): seq<int>
    requires StrictlySorted(current)
  {
    if !TagsSettled(second, current) then MergeTags(current, second)
    else if !TagsSettled(first, current) then MergeTags(current, first)
    else current
  }

  /** Every field both payloads ask for, but the tags, is loosely the same in both. */
  ghost predicate FieldsAgree(a: Fields, b: Fields) {
    forall k :: k in a && k in b && k != "tags" ==> EqLoose(a[k], b[k])
  }

  /** One field of a record after both patches: the second payload's if it was patched, else the first's, else as it
      was. */
  lemma {:induction false} FieldAfterBoth(existing: Fields, first: Fields, second: Fields, flags: Flags, k: string)
    requires k != "tags"
    ensures var p, q := PatchOf(existing, first, flags), PatchOf(existing, second, flags);
      NormalField(existing + p + q, k, flags.supportsType) ==
        if k in q then NormalField(second, k, flags.supportsType)
        else if k in p then NormalField(first, k, flags.supportsType)
        else NormalField(existing, k, flags.supportsType)
  {
    var p, q := PatchOf(existing, first, flags), PatchOf(existing, second, flags);
    PatchField(existing, first, flags, k);
    PatchField(existing, second, flags, k);
    NormalizeAfterPatch(existing + p, q, k, flags.supportsType);
    NormalizeAfterPatch(existing, p, k, flags.supportsType);
    if k in q { PatchedIsNormal(existing, second, flags, k); }
    if k in p { PatchedIsNormal(existing, first, flags, k); }
  }

  /** A patched field reads back as the desired one. */
  lemma {:induction false} PatchedIsNormal(existing: Fields, payload: Fields, flags: Flags, k: string)
    requires k != "tags" && k in PatchOf(existing, payload, flags)
    ensures NormalField(PatchOf(existing, payload, flags), k, flags.supportsType) ==
      NormalField(payload, k, flags.supportsType)
  {
    PatchField(existing, payload, flags, k);
    NormalValueIdempotent(KindOf(k, flags.supportsType).value, Get(payload, k));
  }

  function AllOn(supportsType: bool): Flags { ALL_ON.(supportsType := supportsType) }

  /** A desired field holds, loosely. */
  ghost predicate Holds(desired: Fields, current: Fields, k: string) {
    k in desired ==> k in current && EqLoose(desired[k], current[k])
  }

  /** A field other than the tags holds for both payloads after both patches exactly when they agree on it. */
  lemma {:induction false} SharedField(existing: Fields, first: Fields, second: Fields, supportsType: bool, k: string)
    requires k != "tags"
    ensures var a, b := Normalize(first, supportsType), Normalize(second, supportsType);
      var p, q := PatchOf(existing, first, AllOn(supportsType)), PatchOf(existing, second, AllOn(supportsType));
      var after := Normalize(existing + p + q, supportsType);
      Holds(a, after, k) && Holds(b, after, k) <==> (k in a && k in b ==> EqLoose(a[k], b[k]))
  {
    var flags := AllOn(supportsType);
    var a, b := Normalize(first, supportsType), Normalize(second, supportsType);
    var p, q := PatchOf(existing, first, flags), PatchOf(existing, second, flags);
    var current, after := Normalize(existing, supportsType), Normalize(existing + p + q, supportsType);
    PatchField(existing, first, flags, k);
    PatchField(existing, second, flags, k);
    FieldAfterBoth(existing, first, second, flags, k);
    SharedValue(if k in a then Some(a[k]) else None, if k in b then Some(b[k]) else None,
                if k in current then Some(current[k]) else None, if k in after then Some(after[k]) else None);
  }

  /** The same about the bare values. */
  lemma {:induction false} SharedValue(a: Option<Json>, b: Option<Json>, current: Option<Json>, after: Option<Json>)
    requires after ==
      if b.Some? && !(current.Some? && EqLoose(b.value, current.value)) then b
      else if a.Some? && !(current.Some? && EqLoose(a.value, current.value)) then a else current
    ensures (&& (a.Some? ==> after.Some? && EqLoose(a.value, after.value))
             && (b.Some? ==> after.Some? && EqLoose(b.value, after.value)))
      <==> (a.Some? && b.Some? ==> EqLoose(a.value, b.value))
  {
    if a.Some? { EqReflexive(a.value); }
    if b.Some? { EqReflexive(b.value); }
    if a.Some? && b.Some? && after.Some? {
      if EqLoose(a.value, after.value) && EqLoose(b.value, after.value) {
        EqSymmetric(b.value, after.value);
        EqTransitive(a.value, after.value, b.value);
      }
      if EqLoose(a.value, b.value) { EqSymmetric(a.value, b.value); }
    }
  }

  /** With all flags on, tags are patched exactly when they are not settled, and then with the union. */
  lemma {:induction false} TagsPatched(existing: Fields, payload: Fields, supportsType: bool)
    ensures var patch := PatchOf(existing, payload, AllOn(supportsType));
      var held, tags := NormalizeTags(Get(existing, "tags")), NormalizeTags(Get(payload, "tags"));
      && ("tags" in patch <==> !TagsSettled(tags, held))
      && ("tags" in patch ==> patch["tags"] == TagArray(MergeTags(held, tags)))
  {
    var desired, current := Normalize(payload, supportsType), Normalize(existing, supportsType);
    TagsReadFromNormal(existing, supportsType);
    TagsReadFromNormal(payload, supportsType);
    MergeAbsorbs(NormalizeTags(Get(existing, "tags")), NormalizeTags(Get(payload, "tags")));
    DiffField(desired, current, "tags");
    RuledTags(Diff(desired, current), existing, current, desired, AllOn(supportsType));
  }

  lemma {:induction false} MergedReadBack(a: Option<Json>, b: Option<Json>)
    ensures NormalizeTags(Some(TagArray(MergeTags(NormalizeTags(a), NormalizeTags(b))))) ==
      MergeTags(NormalizeTags(a), NormalizeTags(b))
  {
    TagsAreInRange(a);
    TagsAreInRange(b);
    MergeInRange(NormalizeTags(a), NormalizeTags(b));
    TagsReadBack(MergeTags(NormalizeTags(a), NormalizeTags(b)));
  }

  lemma {:induction false} SharedTags(existing: Fields, first: Fields, second: Fields, supportsType: bool)
    ensures var p, q := PatchOf(existing, first, AllOn(supportsType)), PatchOf(existing, second, AllOn(supportsType));
      NormalizeTags(Get(existing + p + q, "tags")) ==
        TagsAfterBoth(NormalizeTags(Get(existing, "tags")), NormalizeTags(Get(first, "tags")),
                      NormalizeTags(Get(second, "tags")))
  {
    TagsPatched(existing, first, supportsType);
    TagsPatched(existing, second, supportsType);
    MergedReadBack(Get(existing, "tags"), Get(first, "tags"));
    MergedReadBack(Get(existing, "tags"), Get(second, "tags"));
  }

  lemma {:induction false} InSyncMeans(payload: Fields, existing: Fields, supportsType: bool)
    ensures var desired, current := Normalize(payload, supportsType), Normalize(existing, supportsType);
      PatchOf(existing, payload, AllOn(supportsType)) == map[] <==>
        && (forall k :: k != "tags" ==> Holds(desired, current, k))
        && TagsSettled(NormalizeTags(Get(payload, "tags")), NormalizeTags(Get(existing, "tags")))
  {
    InSyncIff(payload, existing, supportsType);
    TagsReadFromNormal(payload, supportsType);
    TagsReadFromNormal(existing, supportsType);
    var desired, current := Normalize(payload, supportsType), Normalize(existing, supportsType);
    assert forall k :: k in desired && k != "tags" ==> (Holds(desired, current, k) <==>
      k in current && EqLoose(desired[k], current[k]));
  }

  /** Two payloads patched into one record, with all flags on: both are in sync with what is stored exactly when they
      agree on every field but the tags, and the tags that are left settle both. */
  lemma {:induction false} BothInSyncIff(existing: Fields, first: Fields, second: Fields, supportsType: bool)
    ensures var flags := AllOn(supportsType);
      var after := existing + PatchOf(existing, first, flags) + PatchOf(existing, second, flags);
      var c := NormalizeTags(Get(existing, "tags"));
      var a, b := NormalizeTags(Get(first, "tags")), NormalizeTags(Get(second, "tags"));
      PatchOf(after, first, flags) == map[] && PatchOf(after, second, flags) == map[] <==>
        && FieldsAgree(Normalize(first, supportsType), Normalize(second, supportsType))
        && TagsSettled(a, TagsAfterBoth(c, a, b)) && TagsSettled(b, TagsAfterBoth(c, a, b))
  {
    var flags := AllOn(supportsType);
    var after := existing + PatchOf(existing, first, flags) + PatchOf(existing, second, flags);
    var a, b, x := Normalize(first, supportsType), Normalize(second, supportsType), Normalize(after, supportsType);
    InSyncMeans(first, after, supportsType);
    InSyncMeans(second, after, supportsType);
    SharedTags(existing, first, second, supportsType);
    forall k | k != "tags"
      ensures Holds(a, x, k) && Holds(b, x, k) <==> (k in a && k in b ==> EqLoose(a[k], b[k]))
    {
      SharedField(existing, first, second, supportsType, k);
    }
  }
}
