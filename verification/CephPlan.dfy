/** Ceph v2 plans: provider operations are normalized, gated against the provider's capabilities and sorted so
    that deletions come last. */
module CephPlan {
  import opened Text

  datatype Operation = Operation(
    provider: string, kind: string, action: string, target: string, id: string,
    destructive: bool, supported: bool, blockedReason: string)

  datatype Capabilities = Capabilities(provider: string, supported: bool, apply: bool, kinds: map<string, bool>)

  const DELETE_ACTIONS: set<string> := {"delete", "destroy", "purge", "remove", "zap"}

  const GUARDED_KINDS: set<string> :=
    {"osd", "pool", "rbd", "rbd_image", "rgw_bucket", "crush", "crush_rule", "key", "user"}

  predicate DeleteLike(op: Operation) { op.action in DELETE_ACTIONS }

  function Underscored(s: string): (r: string)
    ensures |r| == |s|
  {
    seq(|s|, i requires 0 <= i < |s| => if s[i] == '-' then '_' else s[i])
  }

  function CleanKind(kind: string): string { Underscored(Lower(Trim(kind))) }

  function CleanAction(action: string): string {
    var word := Lower(Trim(action));
    if word == "" then "ensure" else word
  }

  /** Destructive by its action, or by its action on a guarded kind. */
  predicate IsDestructive(op: Operation) {
    var action := Lower(Trim(op.action));
    action in DELETE_ACTIONS || (CleanKind(op.kind) in GUARDED_KINDS && action in DELETE_ACTIONS)
  }

  /** The most specific capability that is declared decides; without one the provider's general answer. */
  function SupportsOperation(caps: Capabilities, op: Operation): bool {
    if op.action == "noop" then true
    else if op.kind + ":" + op.action in caps.kinds then caps.kinds[op.kind + ":" + op.action]
    else if op.kind + ":*" in caps.kinds then caps.kinds[op.kind + ":*"]
    else if op.action in caps.kinds then caps.kinds[op.action]
    else if op.kind in caps.kinds then caps.kinds[op.kind]
    else caps.apply
  }

  /** The cleaned operation, marked if it destroys anything, with an id; `stableId` derives one from the content. */
  function Cleaned(raw: Operation, caps: Capabilities, stableId: Operation -> string): Operation {
    var cleaned := raw.(provider := caps.provider, kind := CleanKind(raw.kind), action := CleanAction(raw.action));
    var marked := cleaned.(destructive := raw.destructive || IsDestructive(cleaned));
    marked.(id := if raw.id == "" then stableId(marked) else raw.id)
  }

  /** The gate: whether the operation may be sent, and why not. */
  function Gated(op: Operation, caps: Capabilities): Operation {
    if op.target == "" then op.(supported := false, blockedReason := "target_ref is required")
    else if !caps.supported then op.(supported := false, blockedReason := "provider is not implemented")
    else if op.supported && !SupportsOperation(caps, op) then
      op.(supported := false, blockedReason := "operation is not supported by the provider")
    else if !op.supported && op.blockedReason == "" then op.(blockedReason := "operation is marked unsupported")
    else op
  }

  /** Normalization and gating of one operation. */
  function NormalizeOperation(raw: Operation, caps: Capabilities, stableId: Operation -> string): Operation {
    Gated(Cleaned(raw, caps, stableId), caps)
  }

  /** The gate changes nothing but the verdict. */
  lemma {:induction false} GateKeeps(op: Operation, caps: Capabilities)
    ensures Gated(op, caps).(supported := op.supported, blockedReason := op.blockedReason) == op
    ensures Gated(op, caps).supported <==>
      op.supported && op.target != "" && caps.supported && SupportsOperation(caps, op)
    ensures !Gated(op, caps).supported ==> |Gated(op, caps).blockedReason| > 0
    ensures Gated(op, caps).supported ==> Gated(op, caps).blockedReason == op.blockedReason
    ensures !op.supported && op.blockedReason != "" && op.target != "" && caps.supported ==>
      Gated(op, caps).blockedReason == op.blockedReason
  {
  }

  lemma {:induction false} SupportsSame(caps: Capabilities, a: Operation, b: Operation)
    requires a.kind == b.kind && a.action == b.action
    ensures SupportsOperation(caps, a) == SupportsOperation(caps, b)
  {
  }

  lemma CleanActionStays(action: string)
    ensures CleanAction(action) != "" && Lower(Trim(CleanAction(action))) == CleanAction(action)
  {
    TrimIsTrimmed(action);
    TrimIsTrimmed(Lower(Trim(action)));
    TrimIsTrimmed("ensure");
    assert Lower("ensure") == "ensure";
  }

  /** A clean kind is the trimmed one in lower case, with underscores for dashes. */
  lemma {:induction false} CleanKindIs(kind: string)
    ensures |CleanKind(kind)| == |Trim(kind)|
    ensures forall i :: 0 <= i < |CleanKind(kind)| ==>
      CleanKind(kind)[i] == if Trim(kind)[i] == '-' then '_' else Lower(Trim(kind))[i]
  {
  }

  /** A clean action is the trimmed one in lower case, and "ensure" where none is given. */
  lemma {:induction false} CleanActionIs(action: string)
    ensures CleanAction(action) == if |Trim(action)| == 0 then "ensure" else Lower(Trim(action))
  {
  }

  /** Normalization gives the provider's name and the clean kind and action; the target is kept. */
  lemma {:induction false} NormalizedIs(raw: Operation, caps: Capabilities, stableId: Operation -> string)
    ensures var op := NormalizeOperation(raw, caps, stableId);
      && op.provider == caps.provider && op.target == raw.target
      && op.kind == CleanKind(raw.kind) && op.action == CleanAction(raw.action)
  {
    GateKeeps(Cleaned(raw, caps, stableId), caps);
  }

  /** An id is kept, or made from the content where none is given. */
  lemma {:induction false} NormalizedId(raw: Operation, caps: Capabilities, stableId: Operation -> string)
    ensures var op := NormalizeOperation(raw, caps, stableId);
      && (raw.id != "" ==> op.id == raw.id)
      && (raw.id == "" ==>
            var of := raw.(provider := op.provider, kind := op.kind, action := op.action);
            op.id == stableId(of.(destructive := op.destructive)))
  {
    GateKeeps(Cleaned(raw, caps, stableId), caps);
  }

  /** The reason of an operation that is let through, or came blocked with one, is kept. */
  lemma {:induction false} ReasonIsKept(raw: Operation, caps: Capabilities, stableId: Operation -> string)
    ensures var op := NormalizeOperation(raw, caps, stableId);
      && (op.supported ==> op.blockedReason == raw.blockedReason)
      && (!raw.supported && raw.blockedReason != "" && raw.target != "" && caps.supported ==>
            op.blockedReason == raw.blockedReason)
  {
    GateKeeps(Cleaned(raw, caps, stableId), caps);
  }

  /** Capabilities: an operation that does nothing is always supported; otherwise the entry for the kind and the action
      decides, then the one for the kind, then for the action, then for the bare kind, then the general answer. */
  lemma {:induction false} MostSpecificDecides(caps: Capabilities, op: Operation)
    requires op.action != "noop"
    ensures var exact, any := op.kind + ":" + op.action, op.kind + ":*";
      && (exact in caps.kinds ==> SupportsOperation(caps, op) == caps.kinds[exact])
      && (exact !in caps.kinds && any in caps.kinds ==> SupportsOperation(caps, op) == caps.kinds[any])
      && (exact !in caps.kinds && any !in caps.kinds && op.action in caps.kinds ==>
            SupportsOperation(caps, op) == caps.kinds[op.action])
      && (exact !in caps.kinds && any !in caps.kinds && op.action !in caps.kinds && op.kind in caps.kinds ==>
            SupportsOperation(caps, op) == caps.kinds[op.kind])
      && (exact !in caps.kinds && any !in caps.kinds && op.action !in caps.kinds && op.kind !in caps.kinds ==>
            SupportsOperation(caps, op) == caps.apply)
  {
  }

  lemma {:induction false} NoopIsSupported(caps: Capabilities, op: Operation)
    requires op.action == "noop"
    ensures SupportsOperation(caps, op)
  {
  }

  /** Every deletion is flagged destructive, whatever its kind: the table of kinds adds nothing. */
  lemma DestructiveIff(raw: Operation, caps: Capabilities, stableId: Operation -> string)
    ensures var op := NormalizeOperation(raw, caps, stableId);
      op.destructive <==> raw.destructive || op.action in {"delete", "destroy", "purge", "remove", "zap"}
  {
    CleanActionStays(raw.action);
    GateKeeps(Cleaned(raw, caps, stableId), caps);
  }

  /** An operation is let through only with a target, from an implemented provider that supports it; a blocked
      one says why. */
  lemma SupportedIff(raw: Operation, caps: Capabilities, stableId: Operation -> string)
    ensures var op := NormalizeOperation(raw, caps, stableId);
      && (op.supported <==> raw.supported && raw.target != "" && caps.supported && SupportsOperation(caps, op))
      && (!op.supported ==> |op.blockedReason| > 0)
      && op.target == raw.target && op.provider == caps.provider
  {
    var cleaned := Cleaned(raw, caps, stableId);
    GateKeeps(cleaned, caps);
    SupportsSame(caps, cleaned, Gated(cleaned, caps));
  }

  // ---------------------------------------------------------------- the order of a plan

  function Priority(action: string): nat {
    if action == "noop" then 0
    else if action == "create" then 10
    else if action == "ensure" then 20
    else if action == "update" || action == "set" then 30
    else if action in DELETE_ACTIONS then 90
    else 50
  }

  /** Strings in code point order. */
  predicate StrLeq(a: string, b: string) {
    a == "" || (b != "" && (a[0] < b[0] || (a[0] == b[0] && StrLeq(a[1..], b[1..]))))
  }

  lemma {:induction false} StrOrdered(a: string, b: string)
    ensures StrLeq(a, b) || StrLeq(b, a)
    ensures StrLeq(a, b) && StrLeq(b, a) ==> a == b
  {
    if a != "" && b != "" && a[0] == b[0] {
      StrOrdered(a[1..], b[1..]);
      assert a == [a[0]] + a[1..] && b == [b[0]] + b[1..];
    }
  }

  predicate KeyLeq(a: Operation, b: Operation) {
    if Priority(a.action) != Priority(b.action) then Priority(a.action) < Priority(b.action)
    else if a.kind != b.kind then StrLeq(a.kind, b.kind)
    else if a.target != b.target then StrLeq(a.target, b.target)
    else StrLeq(a.id, b.id)
  }

  lemma KeysOrdered(a: Operation, b: Operation)
    ensures KeyLeq(a, b) || KeyLeq(b, a)
    ensures KeyLeq(a, b) ==> Priority(a.action) <= Priority(b.action)
  {
    StrOrdered(a.kind, b.kind);
    StrOrdered(a.target, b.target);
    StrOrdered(a.id, b.id);
  }

  function InsertOperation(op: Operation, sorted: seq<Operation>): (r: seq<Operation>)
    ensures |r| == |sorted| + 1
  {
    if sorted == [] || KeyLeq(op, sorted[0]) then [op] + sorted else [sorted[0]] + InsertOperation(op, sorted[1..])
  }

  function Sort(ops: seq<Operation>): (r: seq<Operation>)
    ensures |r| == |ops|
  {
    if ops == [] then [] else InsertOperation(ops[0], Sort(ops[1..]))
  }

  ghost predicate Sorted(ops: seq<Operation>) {
    forall i :: 0 < i < |ops| ==> KeyLeq(ops[i - 1], ops[i])
  }

  lemma {:induction false} InsertSorts(op: Operation, sorted: seq<Operation>)
    requires Sorted(sorted)
    ensures Sorted(InsertOperation(op, sorted))
    ensures InsertOperation(op, sorted)[0] == op || (sorted != [] && InsertOperation(op, sorted)[0] == sorted[0])
    ensures multiset(InsertOperation(op, sorted)) == multiset(sorted) + multiset{op}
  {
    if sorted != [] && !KeyLeq(op, sorted[0]) {
      InsertSorts(op, sorted[1..]);
      KeysOrdered(op, sorted[0]);
      var r := InsertOperation(op, sorted);
      assert r[1..] == InsertOperation(op, sorted[1..]);
      assert sorted == [sorted[0]] + sorted[1..];
      forall i | 0 < i < |r| ensures KeyLeq(r[i - 1], r[i]) {
        if i > 1 { assert KeyLeq(r[1..][i - 2], r[1..][i - 1]); }
      }
    }
  }

  /** Sorting rearranges the operations into priority order. */
  lemma {:induction false} SortSorts(ops: seq<Operation>)
    ensures Sorted(Sort(ops)) && multiset(Sort(ops)) == multiset(ops)
  {
    if ops != [] {
      SortSorts(ops[1..]);
      InsertSorts(ops[0], Sort(ops[1..]));
      assert ops == [ops[0]] + ops[1..];
    }
  }

  lemma {:induction false} PrioritiesRise(ops: seq<Operation>, i: nat, j: nat)
    requires Sorted(ops) && i <= j < |ops|
    ensures Priority(ops[i].action) <= Priority(ops[j].action)
  {
    if i < j {
      PrioritiesRise(ops, i, j - 1);
      KeysOrdered(ops[j - 1], ops[j]);
    }
  }

  /** In a sorted plan everything that is not a deletion stands before every deletion. */
  lemma DeletionsLast(ops: seq<Operation>, i: nat, j: nat)
    requires Sorted(ops) && i < |ops| && j < |ops| && DeleteLike(ops[j]) && !DeleteLike(ops[i])
    ensures i < j
  {
    if j <= i { PrioritiesRise(ops, j, i); }
  }

  /** The order in which kinds of actions are sent: nothing to do, creates, ensures, updates, whatever is not listed,
      deletions. */
  function Phase(action: string): nat {
    if action in {"noop"} then 0
    else if action in {"create"} then 1
    else if action in {"ensure"} then 2
    else if action in {"update", "set"} then 3
    else if action in {"delete", "destroy", "purge", "remove", "zap"} then 5
    else 4
  }

  /** A sorted plan goes through the phases in order: creates before updates, updates before deletions. */
  lemma {:induction false} PhasesInOrder(ops: seq<Operation>, i: nat, j: nat)
    requires Sorted(ops) && i < |ops| && j < |ops| && Phase(ops[i].action) < Phase(ops[j].action)
    ensures i < j
  {
    if j <= i { PrioritiesRise(ops, j, i); }
  }

  // ---------------------------------------------------------------- plans

  datatype Plan = Plan(id: string, operations: seq<Operation>, errors: seq<string>)

  function NormalizeAll(ops: seq<Operation>, caps: Capabilities, stableId: Operation -> string): (r: seq<Operation>)
    ensures |r| == |ops|
    ensures forall i :: 0 <= i < |r| ==> r[i] == NormalizeOperation(ops[i], caps, stableId)
  {
    seq(|ops|, i requires 0 <= i < |ops| => NormalizeOperation(ops[i], caps, stableId))
  }

  /** A plan from the raw operations; a request with validation errors gives a plan without operations. */
  function BuildPlan(
    id: string, raw: seq<Operation>, errors: seq<string>, caps: Capabilities, stableId: Operation -> string): Plan
  {
    Plan(id, Sort(NormalizeAll(if errors != [] then [] else raw, caps, stableId)), errors)
  }

  /** Within a phase, operations are ordered by kind, then by target, then by id. */
  lemma {:induction false} TiesAreOrdered(ops: seq<Operation>, i: nat)
    requires Sorted(ops) && i + 1 < |ops| && Priority(ops[i].action) == Priority(ops[i + 1].action)
    ensures var a, b := ops[i], ops[i + 1];
      && StrLeq(a.kind, b.kind)
      && (a.kind == b.kind ==> StrLeq(a.target, b.target))
      && (a.kind == b.kind && a.target == b.target ==> StrLeq(a.id, b.id))
  {
    assert KeyLeq(ops[i], ops[i + 1]);
    StrOrdered(ops[i].kind, ops[i].kind);
    StrOrdered(ops[i].target, ops[i].target);
  }

  /** The order of strings: a beginning comes first, and otherwise the first place where two strings differ decides. */
  lemma {:induction false} StrLeqIs(a: string, b: string, n: nat)
    requires n <= |a| && n <= |b| && a[..n] == b[..n]
    ensures n == |a| ==> StrLeq(a, b)
    ensures n < |a| && n == |b| ==> !StrLeq(a, b)
    ensures n < |a| && n < |b| && a[n] != b[n] ==> (StrLeq(a, b) <==> a[n] < b[n])
  {
    if n > 0 {
      assert a[..n][0] == b[..n][0];
      assert a[1..][..n - 1] == a[..n][1..] && b[1..][..n - 1] == b[..n][1..];
      StrLeqIs(a[1..], b[1..], n - 1);
    }
  }

  /** The operations of a built plan: sorted, each the normal form of a raw one, with every deletion flagged. */
  ghost predicate WellBuilt(plan: Plan) {
    && Sorted(plan.operations)
    && forall i :: 0 <= i < |plan.operations| ==> Flagged(plan.operations[i])
  }

  lemma BuiltPlanIsWellBuilt(
    id: string, raw: seq<Operation>, errors: seq<string>, caps: Capabilities, stableId: Operation -> string)
    ensures var plan := BuildPlan(id, raw, errors, caps, stableId);
      && WellBuilt(plan)
      && (errors == [] ==> multiset(plan.operations) == multiset(NormalizeAll(raw, caps, stableId)))
      && (errors != [] ==> plan.operations == [])
  {
    var used := if errors != [] then [] else raw;
    var normal := NormalizeAll(used, caps, stableId);
    SortSorts(normal);
    DeletionsAreFlagged(used, caps, stableId, normal);
    FlaggedSorted(normal);
  }

  /** A deletion is flagged as destructive. */
  predicate Flagged(op: Operation) { DeleteLike(op) ==> op.destructive }

  lemma {:induction false} NormalIsFlagged(raw: Operation, caps: Capabilities, stableId: Operation -> string)
    ensures Flagged(NormalizeOperation(raw, caps, stableId))
  {
    DestructiveIff(raw, caps, stableId);
  }

  lemma {:induction false} DeletionsAreFlagged(
    raw: seq<Operation>, caps: Capabilities, stableId: Operation -> string, ops: seq<Operation>)
    requires |ops| == |raw| && forall i :: 0 <= i < |ops| ==> ops[i] == NormalizeOperation(raw[i], caps, stableId)
    ensures forall op :: op in ops ==> Flagged(op)
  {
    forall i | 0 <= i < |ops| ensures Flagged(ops[i]) { NormalIsFlagged(raw[i], caps, stableId); }
  }

  lemma {:induction false} FlaggedSorted(ops: seq<Operation>)
    requires forall op :: op in ops ==> Flagged(op)
    ensures forall i :: 0 <= i < |Sort(ops)| ==> Flagged(Sort(ops)[i])
  {
    SortSorts(ops);
    forall i | 0 <= i < |Sort(ops)| ensures Flagged(Sort(ops)[i]) { assert Sort(ops)[i] in multiset(Sort(ops)); }
  }
}
