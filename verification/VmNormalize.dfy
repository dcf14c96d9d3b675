/** Normalization of VM payloads before they are compared: relations become ids, amounts integers, tags a
    sorted set, status one of three words. */
module VmNormalize {
  import opened Wrappers
  import opened Text
  import opened Json

  type Fields = map<string, Json>

  const I64_MAX := 9223372036854775807
  const I64_MIN := -9223372036854775808

  function Get(fields: Fields, key: string): Option<Json> { if key in fields then Some(fields[key]) else None }

  function AsObject(v: Option<Json>): Option<Fields> {
    if v.Some? && v.value.Obj? then Some(v.value.fields) else None
  }

  // ---------------------------------------------------------------- integers

  function Clamp(i: int): int { if i > I64_MAX then I64_MAX else if i < I64_MIN then I64_MIN else i }

  /** A float cast to i64: towards zero, saturating. */
  function TruncateToI64(f: real): int { Clamp(if f >= 0.0 then f.Floor else -((-f).Floor)) }

  function NumberToI64(n: Number): int {
    match n
    case PosInt(n) => if n <= I64_MAX then n else TruncateToI64(AsF64(PosInt(n)))
    case NegInt(k) => -1 - k
    case Float(f, _) => TruncateToI64(f)
  }

  function ParseI64(text: string): Option<int> {
    var t := Trim(text);
    if t == "" then None else
    var digits := if t[0] == '-' || t[0] == '+' then t[1..] else t;
    if !IsDigits(digits) then None else
    var v: int := if t[0] == '-' then 0 - ParseNat(digits) else ParseNat(digits);
    if I64_MIN <= v <= I64_MAX then Some(v) else None
  }

  function NumberValue(i: int): Json { Num(if i >= 0 then PosInt(i) else NegInt(-1 - i)) }

  function ValueToI64(v: Json): Option<int> {
    match v
    case Num(n) => Some(NumberToI64(n))
    case Str(s) => ParseI64(s)
    case _ => None
  }

  /** A foreign key given as a number, a numeric string or an object with an `id` or a `value`. */
  function RelationId(v: Json): Option<int> {
    match v
    case Num(n) => Some(NumberToI64(n))
    case Str(s) => ParseI64(s)
    case Obj(fields) =>
      var byId := if "id" in fields then RelationId(fields["id"]) else None;
      if byId.Some? then byId else if "value" in fields then RelationId(fields["value"]) else None
    case _ => None
  }

  function RelationOf(v: Option<Json>): Option<int> { if v.Some? then RelationId(v.value) else None }

  /** What is read as a number is never above i64::MAX, so it reads back when written out. */
  lemma {:induction false} RelationInRange(v: Json)
    ensures RelationId(v).Some? ==> RelationId(v).value <= I64_MAX
  {
    if v.Obj? {
      if "id" in v.fields { RelationInRange(v.fields["id"]); }
      if "value" in v.fields { RelationInRange(v.fields["value"]); }
    }
  }

  /** A foreign key, written out as a number, reads back as the same key. */
  lemma {:induction false} RelationReadsBack(v: Json)
    requires RelationId(v).Some?
    ensures RelationId(NumberValue(RelationId(v).value)) == RelationId(v)
  {
    RelationInRange(v);
    WrittenReads(RelationId(v).value);
  }

  lemma ValueInRange(v: Json)
    ensures ValueToI64(v).Some? ==> ValueToI64(v).value <= I64_MAX
  {
  }

  lemma WrittenReads(i: int)
    requires i <= I64_MAX
    ensures NumberToI64(NumberValue(i).num) == i
  {
  }

  /** Integers that fit are read as they are; larger ones are cut at the largest. */
  lemma {:induction false} IntegerReads(n: Number)
    requires !n.Float?
    ensures n.PosInt? && n.n <= 9223372036854775807 ==> NumberToI64(n) == n.n
    ensures n.PosInt? && 9223372036854775807 < n.n < 18446744073709551616 ==> NumberToI64(n) == 9223372036854775807
    ensures n.NegInt? ==> NumberToI64(n) == -1 - n.k
  {
    if n.PosInt? && I64_MAX < n.n < 18446744073709551616 { LargeIsCut(n.n); }
  }

  lemma {:induction false} LargeIsCut(n: nat)
    requires I64_MAX < n < 18446744073709551616
    ensures NumberToI64(PosInt(n)) == I64_MAX
  {
    PowersAre();
    BitsOf(n, 64);
    PowerIsKept(n, 63);
    assert AsF64(PosInt(n)) == RoundToF64(n) as real;
    assert AsF64(PosInt(n)).Floor == RoundToF64(n);
  }

  /** A number of so many bits has at most that many less 53 too many. */
  lemma {:induction false} BitsOf(n: nat, bits: nat)
    requires bits >= 53 && n < Power2(bits)
    ensures ExtraBits(n) <= bits - 53
    decreases bits
  {
    PowersAre();
    if bits > 53 && n >= TWO_53 { BitsOf(n / 2, bits - 1); }
  }

  /** A float is cut towards zero, and at the ends of the range. */
  lemma {:induction false} FloatIsCut(f: real, text: string)
    ensures var i := NumberToI64(Float(f, text));
      && (0.0 <= f < 9223372036854775808.0 ==> i as real <= f < i as real + 1.0)
      && (-9223372036854775809.0 < f <= 0.0 ==> i as real - 1.0 < f <= i as real)
      && (f >= 9223372036854775808.0 ==> i == 9223372036854775807)
      && (f <= -9223372036854775809.0 ==> i == -9223372036854775808)
  {
  }

  /** Every integer of the range, written in digits with a sign where it needs or wants one, and with any white space
      around it, is read as itself. */
  lemma {:induction false} PrintedIsRead(text: string, i: int)
    requires I64_MIN <= i <= I64_MAX
    requires Trim(text) == IntText(i) || (i >= 0 && Trim(text) == "+" + IntText(i))
    ensures ParseI64(text) == Some(i)
  {
    IntTextIs(i);
    assert ("+" + IntText(i))[1..] == IntText(i);
    if i >= 0 { assert IsDigit(IntText(i)[0]); }
  }

  /** And nothing else is read: a text that gives a number is an optional sign and digits, within the range. */
  lemma {:induction false} ReadIsPrinted(text: string)
    requires ParseI64(text).Some?
    ensures var t, i := Trim(text), ParseI64(text).value;
      && t != "" && I64_MIN <= i <= I64_MAX
      && if t[0] == '-' then IsDigits(t[1..]) && i == 0 - ParseNat(t[1..])
         else if t[0] == '+' then IsDigits(t[1..]) && i == ParseNat(t[1..])
         else IsDigits(t) && i == ParseNat(t)
  {
  }

  /** A relation is a number, a numeric text, or an object's `id` or, where that gives none, its `value`. */
  lemma {:induction false} RelationIs(v: Json)
    ensures v.Num? ==> RelationId(v) == Some(NumberToI64(v.num))
    ensures v.Str? ==> RelationId(v) == ParseI64(v.s)
    ensures v.Obj? && RelationOf(Get(v.fields, "id")).Some? ==> RelationId(v) == RelationOf(Get(v.fields, "id"))
    ensures v.Obj? && RelationOf(Get(v.fields, "id")).None? ==> RelationId(v) == RelationOf(Get(v.fields, "value"))
    ensures v.Null? || v.Bool? || v.Arr? ==> RelationId(v) == None
  {
  }

  // ---------------------------------------------------------------- tags

  predicate StrictlySorted(s: seq<int>) { forall i, j :: 0 <= i < j < |s| ==> s[i] < s[j] }

  lemma ConsSorted(x: int, s: seq<int>)
    requires StrictlySorted(s) && (s != [] ==> x < s[0])
    ensures StrictlySorted([x] + s)
  {
  }

  function InsertTag(s: seq<int>, x: int): (r: seq<int>)
    requires StrictlySorted(s)
    ensures StrictlySorted(r)
    ensures forall y :: y in r <==> y == x || y in s
    ensures r != []
  {
    if s == [] || x < s[0] then [x] + s
    else if x == s[0] then s
    else
      var rest := InsertTag(s[1..], x);
      assert s == [s[0]] + s[1..];
      assert rest[0] in rest && s[0] < rest[0];
      ConsSorted(s[0], rest);
      [s[0]] + rest
  }

  /** The id a tag item stands for: a tag object's `id`, or the item itself. */
  function TagId(item: Json): Option<int> {
    match item
    case Obj(fields) => if "id" in fields then ValueToI64(fields["id"]) else None
    case other => ValueToI64(other)
  }

  /** A tag is a number or a numeric text, or an object whose `id` is one. */
  lemma {:induction false} TagIdIs(item: Json)
    ensures item.Obj? ==> TagId(item) == if "id" in item.fields then ValueToI64(item.fields["id"]) else None
    ensures !item.Obj? ==> TagId(item) == ValueToI64(item)
    ensures item.Num? ==> ValueToI64(item) == Some(NumberToI64(item.num))
    ensures item.Str? ==> ValueToI64(item) == ParseI64(item.s)
    ensures !item.Num? && !item.Str? ==> ValueToI64(item) == None
  {
  }

  /** The sorted set of the ids in the first `n` items. */
  function TagIds(items: seq<Json>, n: nat): (r: seq<int>)
    requires n <= |items|
    ensures StrictlySorted(r)
  {
    if n == 0 then [] else
    var before := TagIds(items, n - 1);
    if TagId(items[n - 1]).Some? then InsertTag(before, TagId(items[n - 1]).value) else before
  }

  /** The list holds exactly the ids of the items. */
  lemma {:induction false} TagIdsHold(items: seq<Json>, n: nat)
    requires n <= |items|
    ensures forall t :: t in TagIds(items, n) <==> exists i :: 0 <= i < n && TagId(items[i]) == Some(t)
  {
    if n > 0 { TagIdsHold(items, n - 1); }
  }

  function NormalizeTags(v: Option<Json>): (r: seq<int>)
    ensures StrictlySorted(r)
  {
    if v.Some? && v.value.Arr? then TagIds(v.value.items, |v.value.items|) else []
  }

  /** The loop that fills the set. */
  method CollectTags(v: Option<Json>) returns (r: seq<int>)
    ensures r == NormalizeTags(v)
  {
    r := [];
    if v.None? || !v.value.Arr? { return; }
    var items, i := v.value.items, 0;
    while i < |items|
      invariant 0 <= i <= |items| && r == TagIds(items, i)
    {
      var tag := TagId(items[i]);
      if tag.Some? { r := InsertTag(r, tag.value); }
      i := i + 1;
    }
  }

  function TagArray(tags: seq<int>): Json {
    Arr(seq(|tags|, i requires 0 <= i < |tags| => NumberValue(tags[i])))
  }

  /** A sorted set of integers has one sorted form. */
  lemma {:induction false} SortedUnique(a: seq<int>, b: seq<int>)
    requires StrictlySorted(a) && StrictlySorted(b) && forall x :: x in a <==> x in b
    ensures a == b
  {
    assert a != [] ==> a[0] in a;
    assert b != [] ==> b[0] in b;
    if a != [] {
      assert a[0] == b[0];
      forall x ensures x in a[1..] <==> x in b[1..] {
        assert x in a <==> x == a[0] || x in a[1..];
        assert x in b <==> x == b[0] || x in b[1..];
      }
      SortedUnique(a[1..], b[1..]);
    }
  }

  /** The tags a normalized list was made from are all below i64::MAX. */
  predicate TagsInRange(tags: seq<int>) { forall i :: 0 <= i < |tags| ==> tags[i] <= I64_MAX }

  lemma {:induction false} InsertLargest(s: seq<int>, x: int)
    requires StrictlySorted(s) && forall i :: 0 <= i < |s| ==> s[i] < x
    ensures InsertTag(s, x) == s + [x]
  {
    if s != [] { InsertLargest(s[1..], x); }
  }

  lemma {:induction false} TagsReadBackTo(tags: seq<int>, n: nat)
    requires StrictlySorted(tags) && TagsInRange(tags) && n <= |tags|
    ensures TagIds(TagArray(tags).items, n) == tags[..n]
  {
    if n > 0 {
      TagsReadBackTo(tags, n - 1);
      WrittenReads(tags[n - 1]);
      InsertLargest(tags[..n - 1], tags[n - 1]);
      assert tags[..n] == tags[..n - 1] + [tags[n - 1]];
    }
  }

  /** Normalized tags, written out and read again, are the same tags. */
  lemma TagsReadBack(tags: seq<int>)
    requires StrictlySorted(tags) && TagsInRange(tags)
    ensures NormalizeTags(Some(TagArray(tags))) == tags
  {
    TagsReadBackTo(tags, |tags|);
  }

  lemma {:induction false} TagIdsInRange(items: seq<Json>, n: nat)
    requires n <= |items|
    ensures TagsInRange(TagIds(items, n))
  {
    if n > 0 {
      TagIdsInRange(items, n - 1);
      var before, tags := TagIds(items, n - 1), TagIds(items, n);
      forall i | 0 <= i < |tags| ensures tags[i] <= I64_MAX {
        assert tags[i] in tags;
        assert tags[i] in before || TagId(items[n - 1]) == Some(tags[i]);
      }
    }
  }

  lemma TagsAreInRange(v: Option<Json>)
    ensures TagsInRange(NormalizeTags(v))
  {
    if v.Some? && v.value.Arr? { TagIdsInRange(v.value.items, |v.value.items|); }
  }

  // ---------------------------------------------------------------- words

  /** The value a VM type is read from. */
  function TypeCandidate(v: Option<Json>): Option<Json> {
    var fields := AsObject(v);
    if fields.None? then v
    else if "value" in fields.value then Get(fields.value, "value")
    else if "slug" in fields.value then Get(fields.value, "slug")
    else if "name" in fields.value then Get(fields.value, "name")
    else Get(fields.value, "label")
  }

  /** The Proxmox VM type of a custom field: a word, or the first of an object's `value`, `slug`, `name` and
      `label`. */
  function NormalizeVmType(v: Option<Json>): Option<string> {
    var candidate := TypeCandidate(v);
    if candidate.None? then None else
    match candidate.value
    case Str(s) => if Lower(Trim(s)) == "" then None else Some(Lower(Trim(s)))
    case Num(n) => Some(Lower(NumberText(n)))
    case Bool(b) => Some(if b then "true" else "false")
    case _ => None
  }

  function NumberText(n: Number): string {
    match n
    case PosInt(n) => NatText(n)
    case NegInt(k) => "-" + NatText(k + 1)
    case Float(_, text) => text
  }

  /** One of three words. The text of any JSON value but a string is none of the words listed, so it reads as
      active. */
  function NormalizeStatus(v: Option<Json>): string {
    if v.None? || !v.value.Str? then "active" else
    var word := Lower(Trim(v.value.s));
    if word == "stopped" || word == "paused" || word == "offline" then "offline"
    else if word == "planned" then "planned" else "active"
  }

  /** A type is read from an object's `value`, or else its `slug`, its `name` or its `label`, whichever is there first;
      anything else is read as it is. */
  lemma {:induction false} TypeIsReadFrom(v: Json)
    ensures !v.Obj? ==> TypeCandidate(Some(v)) == Some(v)
    ensures v.Obj? && "value" in v.fields ==> TypeCandidate(Some(v)) == Some(v.fields["value"])
    ensures v.Obj? && "value" !in v.fields && "slug" in v.fields ==> TypeCandidate(Some(v)) == Some(v.fields["slug"])
    ensures v.Obj? && "value" !in v.fields && "slug" !in v.fields && "name" in v.fields ==>
      TypeCandidate(Some(v)) == Some(v.fields["name"])
    ensures v.Obj? && "value" !in v.fields && "slug" !in v.fields && "name" !in v.fields ==>
      TypeCandidate(Some(v)) == if "label" in v.fields then Some(v.fields["label"]) else None
  {
  }

  /** The type a value stands for: a text without the white space around it, a number or a truth value in words, all in
      lower case; nothing for a blank text, a null or a nested value. */
  lemma {:induction false} TypeMeans(v: Json)
    ensures var r := NormalizeVmType(Some(v));
      && (v.Str? ==> r == if |Trim(v.s)| == 0 then None else Some(Lower(Trim(v.s))))
      && (v.Num? && v.num.PosInt? ==> r == Some(Lower(IntText(v.num.n))))
      && (v.Num? && v.num.NegInt? ==> r == Some(Lower(IntText(-1 - v.num.k))))
      && (v.Num? && v.num.Float? ==> r == Some(Lower(v.num.text)))
      && (v == Bool(true) ==> r == Some("true")) && (v == Bool(false) ==> r == Some("false"))
      && (v.Null? || v.Arr? ==> r == None)
  {
  }

  /** The text of a float, as serde_json prints it, is not blank at either end. */
  predicate PrintedFloats(v: Option<Json>) {
    match TypeCandidate(v)
    case Some(Num(Float(_, text))) => text != "" && Trimmed(text)
    case _ => true
  }

  /** A normalized type, whatever it was read from, reads back as itself once it is stored as a string. */
  lemma VmTypeReadsBack(v: Option<Json>)
    requires NormalizeVmType(v).Some? && PrintedFloats(v)
    ensures NormalizeVmType(Some(Str(NormalizeVmType(v).value))) == NormalizeVmType(v)
  {
    match TypeCandidate(v).value
    case Str(s) =>
      TrimIsTrimmed(s);
      WordReadsBack(Trim(s));
    case Num(n) =>
      NumberTextIsTrimmed(n);
      WordReadsBack(NumberText(n));
    case Bool(b) => PlainWord(if b then "true" else "false");
    case _ =>
  }

  lemma WordReadsBack(word: string)
    requires word != "" && Trimmed(word)
    ensures NormalizeVmType(Some(Str(Lower(word)))) == Some(Lower(word))
  {
    LowerKeepsTrimmed(word);
    TrimIsTrimmed(Lower(word));
  }

  lemma NumberTextIsTrimmed(n: Number)
    requires n.Float? ==> n.text != "" && Trimmed(n.text)
    ensures NumberText(n) != "" && Trimmed(NumberText(n))
  {
    match n
    case PosInt(k) => ParsePrinted(k);
    case NegInt(k) => ParsePrinted(k + 1);
    case Float(_, _) =>
  }

  lemma LowerKeepsTrimmed(s: string)
    requires Trimmed(s)
    ensures Trimmed(Lower(s)) && Lower(Lower(s)) == Lower(s)
  {
  }

  // ---------------------------------------------------------------- payloads

  datatype Kind = Raw | Status | Relation | Amount | Tags | CustomFields

  /** The fields of a normalized payload and how each is read. */
  function KindOf(key: string, supportsType: bool): Option<Kind> {
    if key == "name" || key == "description" then Some(Raw)
    else if key == "status" then Some(Status)
    else if key == "cluster" || key == "device" || key == "site" || key == "role" then Some(Relation)
    else if key == "virtual_machine_type" then if supportsType then Some(Relation) else None
    else if key == "vcpus" || key == "memory" || key == "disk" then Some(Amount)
    else if key == "tags" then Some(Tags)
    else if key == "custom_fields" then Some(CustomFields)
    else None
  }

  const FIELD_NAMES: set<string> :=
    {"name", "status", "cluster", "device", "site", "virtual_machine_type", "role",
     "vcpus", "memory", "disk", "tags", "custom_fields", "description"}

  /** One normalized field, if the raw value gives one. */
  function NormalValue(kind: Kind, raw: Option<Json>): Option<Json> {
    match kind
    case Raw => if raw.Some? && raw.value != Null then raw else None
    case Status => Some(Str(NormalizeStatus(raw)))
    case Relation =>
      var id := RelationOf(raw);
      if id.Some? && id.value > 0 then Some(NumberValue(id.value)) else None
    case Amount =>
      var v := if raw.Some? then ValueToI64(raw.value) else None;
      Some(NumberValue(if v.Some? then v.value else 0))
    case Tags => Some(TagArray(NormalizeTags(raw)))
    case CustomFields => Some(Obj(if AsObject(raw).Some? then AsObject(raw).value else map[]))
  }

  function NormalField(fields: Fields, key: string, supportsType: bool): Option<Json> {
    var kind := KindOf(key, supportsType);
    if kind.None? then None else NormalValue(kind.value, Get(fields, key))
  }

  /** The normalized payload, field by field. */
  function Normalize(fields: Fields, supportsType: bool): Fields {
    map k | k in FIELD_NAMES && NormalField(fields, k, supportsType).Some? :: NormalField(fields, k, supportsType).value
  }

  /** A normalized payload holds each of its fields as that field is normalized on its own. */
  lemma {:induction false} NormalizeHolds(fields: Fields, supportsType: bool, k: string)
    ensures Get(Normalize(fields, supportsType), k) == NormalField(fields, k, supportsType)
  {
  }

  /** Name and description are kept as they are, unless null; a relation where there is a positive id, the VM type only
      where it is supported; and no other field than those named here and below. */
  lemma {:induction false} OptionalFieldIs(fields: Fields, supportsType: bool, k: string)
    ensures var raw, value := Get(fields, k), NormalField(fields, k, supportsType);
      var id := RelationOf(raw);
      && (k in {"name", "description"} ==> value == if raw == Some(Null) then None else raw)
      && (k in {"cluster", "device", "site", "role"} || (k == "virtual_machine_type" && supportsType) ==>
            value == if id.Some? && id.value > 0 then Some(NumberValue(id.value)) else None)
      && (k !in FIELD_NAMES || (k == "virtual_machine_type" && !supportsType) ==> value == None)
  {
  }

  /** The status, the amounts, the tags and the custom fields are always there: amounts as 0 where there is none, custom
      fields as none where they are no object. */
  lemma {:induction false} StandingFieldIs(fields: Fields, supportsType: bool, k: string)
    ensures var raw, value := Get(fields, k), NormalField(fields, k, supportsType);
      && (k == "status" ==> value == Some(Str(NormalizeStatus(raw))))
      && (k in {"vcpus", "memory", "disk"} && raw.Some? && ValueToI64(raw.value).Some? ==>
            value == Some(NumberValue(ValueToI64(raw.value).value)))
      && (k in {"vcpus", "memory", "disk"} && (raw.None? || ValueToI64(raw.value).None?) ==>
            value == Some(NumberValue(0)))
      && (k == "tags" ==> value == Some(TagArray(NormalizeTags(raw))))
      && (k == "custom_fields" ==> value == Some(if raw.Some? && raw.value.Obj? then raw.value else Obj(map[])))
  {
  }

  /** Every raw value a normalized field can hold normalizes to itself. */
  lemma NormalValueIdempotent(kind: Kind, raw: Option<Json>)
    requires NormalValue(kind, raw).Some?
    ensures NormalValue(kind, NormalValue(kind, raw)) == NormalValue(kind, raw)
  {
    match kind
    case Relation =>
      RelationInRange(raw.value);
      WrittenReads(RelationOf(raw).value);
    case Amount =>
      var v := if raw.Some? then ValueToI64(raw.value) else None;
      if v.Some? { ValueInRange(raw.value); }
      WrittenReads(if v.Some? then v.value else 0);
    case Tags =>
      TagsAreInRange(raw);
      TagsReadBack(NormalizeTags(raw));
    case Status => StatusIdempotent(raw);
    case _ =>
  }

  /** What every status gives, in any case and with any white space around it. */
  lemma {:induction false} StatusMeans(text: string)
    ensures var word, status := Lower(Trim(text)), NormalizeStatus(Some(Str(text)));
      && (status == "offline" <==> word in {"stopped", "paused", "offline"})
      && (status == "planned" <==> word == "planned")
      && (status == "active" <==> word !in {"stopped", "paused", "offline", "planned"})
  {
  }

  /** Anything but a string, and no status at all, counts as active. */
  lemma {:induction false} OtherStatusIsActive(v: Option<Json>)
    requires v.None? || !v.value.Str?
    ensures NormalizeStatus(v) == "active"
  {
  }

  lemma PlainWord(word: string)
    requires Trimmed(word) && forall i :: 0 <= i < |word| ==> 'a' <= word[i] <= 'z'
    ensures Lower(Trim(word)) == word
  {
    TrimIsTrimmed(word);
  }

  lemma StatusIdempotent(raw: Option<Json>)
    ensures NormalizeStatus(Some(Str(NormalizeStatus(raw)))) == NormalizeStatus(raw)
  {
    PlainWord("active");
    PlainWord("offline");
    PlainWord("planned");
  }

  /** Normalization is idempotent. */
  lemma NormalizeIdempotent(fields: Fields, supportsType: bool)
    ensures Normalize(Normalize(fields, supportsType), supportsType) == Normalize(fields, supportsType)
  {
    var once := Normalize(fields, supportsType);
    forall k | k in FIELD_NAMES
      ensures NormalField(once, k, supportsType) == NormalField(fields, k, supportsType)
    {
      var kind := KindOf(k, supportsType);
      if kind.Some? {
        var v := NormalValue(kind.value, Get(fields, k));
        if v.Some? {
          assert Get(once, k) == v;
          NormalValueIdempotent(kind.value, Get(fields, k));
        } else {
          assert k !in once;
        }
      }
    }
  }
}
