/** The defensive traversal of a paginated NetBox list. The server is a parameter: it may answer the
    n-th request in any way at all, so every theorem here holds against every server. */
module Pagination {
  import opened Wrappers
  import opened Text

  const HARD_MAX_PAGES := 10_000
  const HARD_MAX_RECORDS := 1_000_000

  // ---------------------------------------------------------------- queries and records

  datatype Scalar = Str(text: string) | Int(number: int) | Bool(flag: bool) | Nil

  datatype QueryValue = One(scalar: Scalar) | Many(scalars: seq<Scalar>)

  type Query = map<string, QueryValue>

  type Filters = set<(string, multiset<string>)>

  function ScalarText(s: Scalar): string {
    match s
    case Str(text) => text
    case Int(number) => IntText(number)
    case Bool(flag) => if flag then "True" else "False"
    case Nil => "None"
  }

  function Texts(scalars: seq<Scalar>): (r: seq<string>)
    ensures |r| == |scalars|
  {
    seq(|scalars|, i requires 0 <= i < |scalars| => ScalarText(scalars[i]))
  }

  function ValueTexts(v: QueryValue): multiset<string> {
    match v
    case One(scalar) => multiset{ScalarText(scalar)}
    case Many(scalars) => multiset(Texts(scalars))
  }

  /** The filters of a query: everything but the page window, values kept with multiplicity. */
  function FilterMultimap(query: Query): Filters {
    set k | k in query && k != "limit" && k != "offset" :: (k, ValueTexts(query[k]))
  }

  /** What each kind of value is sent as. */
  lemma {:induction false} ScalarTextIs(s: Scalar)
    ensures s == Bool(true) ==> ScalarText(s) == "True"
    ensures s == Bool(false) ==> ScalarText(s) == "False"
    ensures s == Nil ==> ScalarText(s) == "None"
    ensures s.Str? ==> ScalarText(s) == s.text
    ensures s.Int? && s.number >= 0 ==> IsDigits(ScalarText(s)) && ParseNat(ScalarText(s)) == s.number
    ensures s.Int? && s.number < 0 ==> ScalarText(s) == "-" + ScalarText(Int(-s.number))
  {
    if s.Int? { IntTextIs(s.number); }
  }

  /** The value of a key after one more pair of a query string: a second value makes it a list. */
  function AddPair(query: Query, key: string, value: string): Query {
    if key !in query then query[key := One(Str(value))]
    else match query[key]
      case One(scalar) => query[key := Many([scalar, Str(value)])]
      case Many(scalars) => query[key := Many(scalars + [Str(value)])]
  }

  /** The query of a next link, from the first `n` pairs of its query string. */
  function QueryOfPairs(pairs: seq<(string, string)>, n: nat): Query
    requires n <= |pairs|
  {
    if n == 0 then map[] else AddPair(QueryOfPairs(pairs, n - 1), pairs[n - 1].0, pairs[n - 1].1)
  }

  /** The loop that collects the pairs. */
  method ParseQuery(pairs: seq<(string, string)>) returns (query: Query)
    ensures query == QueryOfPairs(pairs, |pairs|)
  {
    query := map[];
    var i := 0;
    while i < |pairs|
      invariant 0 <= i <= |pairs| && query == QueryOfPairs(pairs, i)
    {
      query := AddPair(query, pairs[i].0, pairs[i].1);
      i := i + 1;
    }
  }

  /** The values the pairs give a key, with multiplicity. */
  function PairValues(pairs: seq<(string, string)>, n: nat, key: string): multiset<string>
    requires n <= |pairs|
  {
    if n == 0 then multiset{}
    else PairValues(pairs, n - 1, key) + if pairs[n - 1].0 == key then multiset{pairs[n - 1].1} else multiset{}
  }

  lemma AddPairTexts(query: Query, key: string, value: string)
    ensures var query' := AddPair(query, key, value);
      && key in query'
      && ValueTexts(query'[key]) == (if key in query then ValueTexts(query[key]) else multiset{}) + multiset{value}
      && forall k :: k != key ==> (k in query' <==> k in query) && (k in query ==> query'[k] == query[k])
  {
    if key in query {
      match query[key]
      case One(scalar) => assert Texts([scalar, Str(value)]) == [ScalarText(scalar)] + [value];
      case Many(scalars) => assert Texts(scalars + [Str(value)]) == Texts(scalars) + [value];
    }
  }

  /** A parsed next link loses no value and no repetition: two links whose query strings hold the same pairs, in
      any order, have the same filters. */
  lemma {:induction false} ParsedFilters(pairs: seq<(string, string)>, n: nat, key: string)
    requires n <= |pairs|
    ensures var query := QueryOfPairs(pairs, n);
      && (key in query <==> |PairValues(pairs, n, key)| > 0)
      && (key in query ==> ValueTexts(query[key]) == PairValues(pairs, n, key))
  {
    if n > 0 {
      ParsedFilters(pairs, n - 1, key);
      AddPairTexts(QueryOfPairs(pairs, n - 1), pairs[n - 1].0, pairs[n - 1].1);
    }
  }

  function ScalarOffset(s: Scalar): Option<nat> {
    match s
    case Int(number) => if number >= 0 then Some(number) else None
    case Str(text) => if IsDigits(text) then Some(ParseNat(text)) else None
    case Bool(_) => None
    case Nil => None
  }

  /** Exactly one non-negative integer offset, if there is one. */
  function PaginationOffset(query: Query): Option<nat> {
    if "offset" !in query then None else
    match query["offset"]
    case One(scalar) => ScalarOffset(scalar)
    case Many(scalars) => if |scalars| == 1 then ScalarOffset(scalars[0]) else None
  }

  function ValidatedOffset(query: Query, required: bool): Option<nat> {
    if "offset" !in query && !required then Some(0) else PaginationOffset(query)
  }

  /** A multiset of exactly one text, which reads as this number. */
  ghost predicate OneNumber(texts: multiset<string>, n: nat) {
    exists t :: texts == multiset{t} && IsDigits(t) && ParseNat(t) == n
  }

  /** The offset of a query, told by the texts it is sent as: exactly one, all digits. */
  lemma {:induction false} OffsetIff(query: Query, n: nat)
    ensures PaginationOffset(query) == Some(n) <==>
      "offset" in query && OneNumber(ValueTexts(query["offset"]), n)
  {
    if "offset" in query {
      match query["offset"]
      case One(scalar) => SingleOffset(scalar, n);
      case Many(scalars) =>
        if |scalars| == 1 {
          assert Texts(scalars) == [ScalarText(scalars[0])];
          SingleOffset(scalars[0], n);
        } else {
          assert |ValueTexts(query["offset"])| == |scalars|;
        }
    }
  }

  lemma {:induction false} SingleOffset(scalar: Scalar, n: nat)
    ensures ScalarOffset(scalar) == Some(n) <==> OneNumber(multiset{ScalarText(scalar)}, n)
  {
    var text := ScalarText(scalar);
    assert forall t :: multiset{text} == multiset{t} ==> t in multiset{text};
    match scalar
    case Str(_) =>
    case Int(number) =>
      if number >= 0 { ParsePrinted(number); } else { assert text[0] == '-' && !IsDigit(text[0]); }
    case Bool(flag) => assert !IsDigit(text[0]);
    case Nil => assert !IsDigit(text[0]);
  }

  /** The offset of a link over the wire: that of the one pair that has the key, if its value is all digits; two such
      pairs, or another value, give none. */
  lemma {:induction false} LinkOffsetIff(pairs: seq<(string, string)>, n: nat)
    ensures PaginationOffset(QueryOfPairs(pairs, |pairs|)) == Some(n) <==>
      OneNumber(PairValues(pairs, |pairs|, "offset"), n)
  {
    ParsedFilters(pairs, |pairs|, "offset");
    OffsetIff(QueryOfPairs(pairs, |pairs|), n);
  }

  /** A link that names its offset in digits is read as that offset. */
  lemma {:induction false} PrintedLinkOffset(pairs: seq<(string, string)>, n: nat)
    requires PairValues(pairs, |pairs|, "offset") == multiset{NatText(n)}
    ensures PaginationOffset(QueryOfPairs(pairs, |pairs|)) == Some(n)
  {
    ParsePrinted(n);
    LinkOffsetIff(pairs, n);
  }

  predicate IsFilter(key: string) { key != "limit" && key != "offset" }

  /** Two queries have the same filters exactly when they give every key but the page window the same values, with
      multiplicity. */
  lemma {:induction false} FiltersIff(a: Query, b: Query)
    ensures FilterMultimap(a) == FilterMultimap(b) <==>
      forall k :: IsFilter(k) ==> (k in a <==> k in b) && (k in a && k in b ==> ValueTexts(a[k]) == ValueTexts(b[k]))
  {
    if FilterMultimap(a) == FilterMultimap(b) {
      forall k | IsFilter(k)
        ensures (k in a <==> k in b) && (k in a && k in b ==> ValueTexts(a[k]) == ValueTexts(b[k]))
      {
        if k in a { assert (k, ValueTexts(a[k])) in FilterMultimap(b); }
        if k in b { assert (k, ValueTexts(b[k])) in FilterMultimap(a); }
      }
    }
  }

  /** The pairs of a link carry exactly these filters. */
  ghost predicate CarriesFilters(filters: Filters, pairs: seq<(string, string)>) {
    forall k, ts: multiset<string> ::
      (k, ts) in filters <==> IsFilter(k) && |ts| > 0 && PairValues(pairs, |pairs|, k) == ts
  }

  lemma {:induction false} CarriedFilters(filters: Filters, pairs: seq<(string, string)>)
    requires CarriesFilters(filters, pairs)
    ensures FilterMultimap(QueryOfPairs(pairs, |pairs|)) == filters
  {
    var query := QueryOfPairs(pairs, |pairs|);
    forall k, ts: multiset<string>
      ensures (k, ts) in FilterMultimap(query) <==> (k, ts) in filters
    {
      ParsedFilters(pairs, |pairs|, k);
    }
    forall x ensures x in FilterMultimap(query) <==> x in filters { assert x == (x.0, x.1); }
  }

  /** A list item: its `id` field and the canonical text of the whole object. */
  datatype Record = Record(id: Scalar, text: string)

  datatype Signature = ById(id: string) | ByText(text: string)

  function RecordSignature(record: Record): Signature {
    if record.id == Nil || record.id == Str("") then ByText(record.text) else ById(ScalarText(record.id))
  }

  function SignatureSet(records: seq<Record>): set<Signature> {
    set i | 0 <= i < |records| :: RecordSignature(records[i])
  }

  /** No two records of the list are the same record. */
  predicate Distinct(records: seq<Record>) {
    forall i, j :: 0 <= i < j < |records| ==> RecordSignature(records[i]) != RecordSignature(records[j])
  }

  predicate HasId(record: Record) { record.id != Nil && record.id != Str("") }

  /** Two records are the same exactly when both have an id and the ids print alike, or neither has one and they are
      written alike. */
  lemma {:induction false} SameRecordIff(a: Record, b: Record)
    ensures RecordSignature(a) == RecordSignature(b) <==>
      if HasId(a) then HasId(b) && ScalarText(a.id) == ScalarText(b.id) else !HasId(b) && a.text == b.text
  {
  }

  // ---------------------------------------------------------------- replies

  datatype Item = ObjectItem(record: Record) | OtherItem

  datatype ResultsField = NoResults | NotAList | ResultsList(items: seq<Item>)

  datatype CountField = IntCount(count: int) | OtherCount

  /** A next link, as its URL is split: the path and the pairs of the query string. */
  datatype NextField = NullNext | InvalidNext | Link(path: string, pairs: seq<(string, string)>)

  datatype Payload =
    | ObjectPayload(results: ResultsField, next: NextField, count: CountField)
    | ArrayPayload(items: seq<Item>)
    | OtherPayload

  datatype Reply = Answer(payload: Payload) | RequestError

  type Server = (nat, string, Query) -> Reply

  datatype Page = Page(results: seq<Record>, next: Option<(string, Query)>, count: Option<nat>)

  datatype ListError =
    | RequestFailed | MissingResults | BadCount | NotAnArrayOrObject | ResultsNotAList | BadNextLink | BadItem
    | BadInitialOffset | InitialOffsetTooLarge | CachedTooLong
    | TooManyPages | ShapeChanged | CountChanged | BeyondCount | Overlapping | TooManyRecords | RecordLimit
    | WrongLength | EmptyPageWithNext | PathChanged | FiltersChanged | BadNextOffset | OffsetGap | OffsetLimit
    | RecordLimitReached | HardRecordsReached | HardPagesReached | RepeatedNextLink

  predicate AllObjects(items: seq<Item>) { forall i :: 0 <= i < |items| ==> items[i].ObjectItem? }

  function Records(items: seq<Item>): (r: seq<Record>)
    requires AllObjects(items)
    ensures |r| == |items|
  {
    seq(|items|, i requires 0 <= i < |items| => items[i].record)
  }

  function LinkOf(next: NextField): Option<(string, Query)> {
    if next.Link? then Some((next.path, QueryOfPairs(next.pairs, |next.pairs|))) else None
  }

  function PageOf(items: seq<Item>, next: NextField, count: Option<nat>): Result<Page, ListError> {
    if next.InvalidNext? then Err(BadNextLink)
    else if !AllObjects(items) then Err(BadItem)
    else Ok(Page(Records(items), LinkOf(next), count))
  }

  function ReadReply(reply: Reply): Result<Page, ListError> {
    match reply
    case RequestError => Err(RequestFailed)
    case Answer(OtherPayload) => Err(NotAnArrayOrObject)
    case Answer(ArrayPayload(items)) => PageOf(items, NullNext, None)
    case Answer(ObjectPayload(results, next, count)) =>
      if results.NoResults? then Err(MissingResults)
      else if count.OtherCount? || count.count < 0 then Err(BadCount)
      else if results.NotAList? then Err(ResultsNotAList)
      else PageOf(results.items, next, Some(count.count))
  }

  /** The replies that are read as a page: an array of objects, or an object with a list of objects, a count that is
      not negative and no next link or a valid one. */
  predicate IsReadable(reply: Reply) {
    reply.Answer? &&
    match reply.payload
    case ArrayPayload(items) => AllObjects(items)
    case ObjectPayload(results, next, count) =>
      && results.ResultsList? && AllObjects(results.items)
      && count.IntCount? && count.count >= 0
      && !next.InvalidNext?
    case OtherPayload => false
  }

  /** Exactly those are read, with their records in order, their link and their count. */
  lemma {:induction false} ReadIff(reply: Reply)
    ensures ReadReply(reply).Ok? <==> IsReadable(reply)
    ensures IsReadable(reply) && reply.payload.ArrayPayload? ==>
      ReadReply(reply).value == Page(Records(reply.payload.items), None, None)
    ensures IsReadable(reply) && reply.payload.ObjectPayload? ==>
      ReadReply(reply).value ==
        Page(Records(reply.payload.results.items), LinkOf(reply.payload.next), Some(reply.payload.count.count))
  {
  }

  // ---------------------------------------------------------------- retries of one page

  /** One GET of a page: what comes back, and whether its failure counts as transient. */
  datatype Attempt = Attempt(reply: Reply, transient: bool)

  type Wire = (nat, string, Query, nat) -> Attempt

  predicate GivesUp(a: Attempt, retries: nat, attempt: nat) {
    ReadReply(a.reply).Ok? || !a.transient || attempt == retries
  }

  /** What the fetch of a page ends with: the first readable or finally failing reply. */
  function Delivered(wire: Wire, retries: nat, n: nat, path: string, query: Query, attempt: nat): Reply
    requires attempt <= retries
    decreases retries - attempt
  {
    var a := wire(n, path, query, attempt);
    if GivesUp(a, retries, attempt) then a.reply else Delivered(wire, retries, n, path, query, attempt + 1)
  }

  /** The number of GETs it sends. */
  function Gets(wire: Wire, retries: nat, n: nat, path: string, query: Query, attempt: nat): (r: nat)
    requires attempt <= retries
    ensures r <= retries - attempt + 1
    decreases retries - attempt
  {
    if GivesUp(wire(n, path, query, attempt), retries, attempt) then 1
    else 1 + Gets(wire, retries, n, path, query, attempt + 1)
  }

  /** The server as the walk sees it, behind the retries. */
  function Retrying(wire: Wire, retries: nat): Server {
    (n: nat, path: string, query: Query) => Delivered(wire, retries, n, path, query, 0)
  }

  /** The retry loop of one page. */
  method FetchPage(wire: Wire, retries: nat, n: nat, path: string, query: Query)
    returns (r: Result<Page, ListError>, sent: nat)
    ensures r == ReadReply(Retrying(wire, retries)(n, path, query))
    ensures sent == Gets(wire, retries, n, path, query, 0)
  {
    var attempt := 0;
    while true
      invariant attempt <= retries
      invariant Delivered(wire, retries, n, path, query, attempt) == Delivered(wire, retries, n, path, query, 0)
      invariant attempt + Gets(wire, retries, n, path, query, attempt) == Gets(wire, retries, n, path, query, 0)
      decreases retries - attempt
    {
      var a := wire(n, path, query, attempt);
      if GivesUp(a, retries, attempt) { return ReadReply(a.reply), attempt + 1; }
      attempt := attempt + 1;
    }
  }

  // ---------------------------------------------------------------- one step of the walk

  datatype Limits = Limits(maxRecords: Option<int>, maxOffset: Option<int>)

  const UNLIMITED := Limits(None, None)

  datatype Context = Context(path: string, filters: Filters, start: nat, limits: Limits)

  /** The loop state. `shape` is unset before the first page; then it holds that page's count, or
      nothing when the reply was a bare array. */
  datatype Walk = Walk(
    aggregated: seq<Record>, query: Query, seenPages: set<Query>, seenRecords: set<Signature>,
    pageCount: nat, shape: Option<Option<nat>>, offset: nat)

  function Exceeds(n: int, limit: Option<int>): bool { limit.Some? && n > limit.value }

  function Excess(count: nat, start: nat): nat { if count > start then count - start else 0 }

  /** The checks on a fetched page, in the order the code makes them. */
  function CheckPage(c: Context, w: Walk, page: Page): Option<ListError> {
    var total := |w.aggregated| + |page.results|;
    if w.shape.Some? && w.shape.value.Some? != page.count.Some? then Some(ShapeChanged)
    else if w.shape.Some? && w.shape.value != page.count then Some(CountChanged)
    else if page.count.Some? && page.results != [] && w.offset + |page.results| > page.count.value then
      Some(BeyondCount)
    else if !Distinct(page.results) || SignatureSet(page.results) * w.seenRecords != {} then Some(Overlapping)
    else if total > HARD_MAX_RECORDS then Some(TooManyRecords)
    else if Exceeds(total, c.limits.maxRecords) then Some(RecordLimit)
    else if page.next.None? && page.count.Some? && total != Excess(page.count.value, c.start) then Some(WrongLength)
    else None
  }

  /** The checks on a next link, in the order the code makes them. */
  function CheckNext(c: Context, w: Walk, page: Page): Option<ListError>
    requires page.next.Some?
  {
    var (nextPath, nextQuery) := page.next.value;
    var nextOffset := ValidatedOffset(nextQuery, true);
    var total := |w.aggregated| + |page.results|;
    if page.results == [] then Some(EmptyPageWithNext)
    else if NormalizePath(nextPath) != c.path then Some(PathChanged)
    else if FilterMultimap(nextQuery) != c.filters then Some(FiltersChanged)
    else if nextOffset.None? then Some(BadNextOffset)
    else if nextOffset.value != w.offset + |page.results| then Some(OffsetGap)
    else if Exceeds(nextOffset.value, c.limits.maxOffset) then Some(OffsetLimit)
    else if c.limits.maxRecords.Some? && total >= c.limits.maxRecords.value then Some(RecordLimitReached)
    else if total >= HARD_MAX_RECORDS then Some(HardRecordsReached)
    else if w.pageCount + 1 >= HARD_MAX_PAGES then Some(HardPagesReached)
    else if nextQuery in w.seenPages then Some(RepeatedNextLink)
    else None
  }

  function NextWalk(w: Walk, page: Page): Walk
    requires page.next.Some?
  {
    var nextQuery := page.next.value.1;
    Walk(w.aggregated + page.results, nextQuery, w.seenPages + {nextQuery},
         w.seenRecords + SignatureSet(page.results), w.pageCount + 1, Some(page.count), w.offset + |page.results|)
  }

  /** The whole walk from a loop state on. */
  function WalkFrom(c: Context, serve: Server, w: Walk): Result<seq<Record>, ListError>
    decreases HARD_MAX_PAGES - w.pageCount
  {
    if w.pageCount >= HARD_MAX_PAGES then Err(TooManyPages) else
    match ReadReply(serve(w.pageCount, c.path, w.query))
    case Err(e) => Err(e)
    case Ok(page) =>
      if CheckPage(c, w, page).Some? then Err(CheckPage(c, w, page).value)
      else if page.next.None? then Ok(w.aggregated + page.results)
      else if CheckNext(c, w, page).Some? then Err(CheckNext(c, w, page).value)
      else WalkFrom(c, serve, NextWalk(w, page))
  }

  function FirstWalk(c: Context, query: Query): Walk { Walk([], query, {}, {}, 0, None, c.start) }

  function Begin(path: string, query: Query, limits: Limits): Result<Context, ListError> {
    var offset := ValidatedOffset(query, false);
    if offset.None? then Err(BadInitialOffset)
    else if Exceeds(offset.value, limits.maxOffset) then Err(InitialOffsetTooLarge)
    else Ok(Context(NormalizePath(path), FilterMultimap(query), offset.value, limits))
  }

  /** A whole list call: a cached collection is served as it is, anything else is walked. */
  function ListAll(path: string, query: Query, limits: Limits, cached: Option<seq<Record>>, serve: Server)
    : Result<seq<Record>, ListError>
  {
    match Begin(path, query, limits)
    case Err(e) => Err(e)
    case Ok(c) =>
      if cached.Some? then
        if Exceeds(|cached.value|, limits.maxRecords) then Err(CachedTooLong) else Ok(cached.value)
      else WalkFrom(c, serve, FirstWalk(c, query))
  }

  /** An accepted page with a next link: the walk goes on from the next state. */
  lemma {:induction false} WalkGoesOn(c: Context, serve: Server, w: Walk, page: Page)
    requires w.pageCount < HARD_MAX_PAGES && ReadReply(serve(w.pageCount, c.path, w.query)) == Ok(page)
    requires CheckPage(c, w, page).None? && page.next.Some? && CheckNext(c, w, page).None?
    ensures WalkFrom(c, serve, w) == WalkFrom(c, serve, NextWalk(w, page))
  {
  }

  /** The traversal loop: it always ends, computes the walk and sends that many GETs. */
  method WalkPages(c: Context, query: Query, wire: Wire, retries: nat)
    returns (r: Result<seq<Record>, ListError>, sent: nat)
    ensures r == WalkFrom(c, Retrying(wire, retries), FirstWalk(c, query))
    ensures sent == Requests(c, wire, retries, FirstWalk(c, query))
  {
    var w := FirstWalk(c, query);
    sent := 0;
    ghost var result, total := WalkFrom(c, Retrying(wire, retries), w), Requests(c, wire, retries, w);
    while w.pageCount < HARD_MAX_PAGES
      invariant WalkFrom(c, Retrying(wire, retries), w) == result
      invariant sent + Requests(c, wire, retries, w) == total
    {
      var fetched, gets := FetchPage(wire, retries, w.pageCount, c.path, w.query);
      sent := sent + gets;
      if fetched.Err? { return Err(fetched.error), sent; }
      var page := fetched.value;
      var bad := CheckPage(c, w, page);
      if bad.Some? { return Err(bad.value), sent; }
      if page.next.None? { return Ok(w.aggregated + page.results), sent; }
      bad := CheckNext(c, w, page);
      if bad.Some? { return Err(bad.value), sent; }
      WalkGoesOn(c, Retrying(wire, retries), w, page);
      w := NextWalk(w, page);
    }
    return Err(TooManyPages), sent;
  }

  /** A list call: a cached collection is served as it is, anything else is walked. */
  method Traverse(path: string, query: Query, limits: Limits, cached: Option<seq<Record>>, wire: Wire, retries: nat)
    returns (r: Result<seq<Record>, ListError>)
    ensures r == ListAll(path, query, limits, cached, Retrying(wire, retries))
  {
    var begun := Begin(path, query, limits);
    if begun.Err? { return Err(begun.error); }
    if cached.Some? {
      if Exceeds(|cached.value|, limits.maxRecords) { return Err(CachedTooLong); }
      return Ok(cached.value);
    }
    var sent;
    r, sent := WalkPages(begun.value, query, wire, retries);
  }

  // ---------------------------------------------------------------- against every server

  /** What the loop keeps: the records so far are distinct and exactly fill the offsets walked over,
      the cursor is valid, and every link followed before pointed no further than the cursor. */
  ghost predicate WalkOk(c: Context, w: Walk) {
    && w.offset == c.start + |w.aggregated|
    && Distinct(w.aggregated)
    && w.seenRecords == SignatureSet(w.aggregated)
    && ValidatedOffset(w.query, false) == Some(w.offset)
    && FilterMultimap(w.query) == c.filters
    && !Exceeds(w.offset, c.limits.maxOffset)
    && forall q :: q in w.seenPages ==> PaginationOffset(q).Some? && PaginationOffset(q).value <= w.offset
  }

  lemma BeginOk(path: string, query: Query, limits: Limits)
    requires Begin(path, query, limits).Ok?
    ensures var c := Begin(path, query, limits).value; WalkOk(c, FirstWalk(c, query))
  {
  }

  lemma JoinDistinct(a: seq<Record>, b: seq<Record>)
    requires Distinct(a) && Distinct(b) && SignatureSet(b) * SignatureSet(a) == {}
    ensures Distinct(a + b) && SignatureSet(a + b) == SignatureSet(a) + SignatureSet(b)
  {
    forall i, j | 0 <= i < j < |a + b|
      ensures RecordSignature((a + b)[i]) != RecordSignature((a + b)[j])
    {
      if j < |a| {
        assert (a + b)[i] == a[i] && (a + b)[j] == a[j];
      } else if |a| <= i {
        assert (a + b)[i] == b[i - |a|] && (a + b)[j] == b[j - |a|];
      } else {
        assert RecordSignature(a[i]) in SignatureSet(a) && RecordSignature(b[j - |a|]) in SignatureSet(b);
        assert RecordSignature(a[i]) !in SignatureSet(b) * SignatureSet(a);
      }
    }
    forall s | s in SignatureSet(a) + SignatureSet(b)
      ensures s in SignatureSet(a + b)
    {
      if s in SignatureSet(a) {
        var i :| 0 <= i < |a| && RecordSignature(a[i]) == s;
        assert (a + b)[i] == a[i];
      } else {
        var i :| 0 <= i < |b| && RecordSignature(b[i]) == s;
        assert (a + b)[|a| + i] == b[i];
      }
    }
  }

  lemma StepKeeps(c: Context, w: Walk, page: Page)
    requires WalkOk(c, w) && CheckPage(c, w, page).None?
    ensures Distinct(w.aggregated + page.results)
    ensures page.next.Some? && CheckNext(c, w, page).None? ==> WalkOk(c, NextWalk(w, page))
  {
    JoinDistinct(w.aggregated, page.results);
  }

  /** The repeated-link check is dead code: a followed link moves the offset strictly forward. */
  lemma NextLinkNeverRepeats(c: Context, w: Walk, page: Page)
    requires WalkOk(c, w) && CheckPage(c, w, page).None? && page.next.Some?
    ensures CheckNext(c, w, page) != Some(RepeatedNextLink)
  {
  }

  datatype Visit = Visit(request: nat, query: Query, offset: nat, page: Page)

  function VisitOf(w: Walk, page: Page): Visit { Visit(w.pageCount, w.query, w.offset, page) }

  /** The pages a walk accepts, with the request each answers. */
  function Visits(c: Context, serve: Server, w: Walk): seq<Visit>
    decreases HARD_MAX_PAGES - w.pageCount
  {
    if w.pageCount >= HARD_MAX_PAGES then [] else
    match ReadReply(serve(w.pageCount, c.path, w.query))
    case Err(_) => []
    case Ok(page) =>
      if CheckPage(c, w, page).Some? then []
      else if page.next.None? || CheckNext(c, w, page).Some? then [VisitOf(w, page)]
      else [VisitOf(w, page)] + Visits(c, serve, NextWalk(w, page))
  }

  /** The number of GETs a walk sends, whatever its outcome. */
  function Requests(c: Context, wire: Wire, retries: nat, w: Walk): nat
    decreases HARD_MAX_PAGES - w.pageCount
  {
    if w.pageCount >= HARD_MAX_PAGES then 0 else
    Gets(wire, retries, w.pageCount, c.path, w.query, 0) +
    match ReadReply(Retrying(wire, retries)(w.pageCount, c.path, w.query))
    case Err(_) => 0
    case Ok(page) =>
      if CheckPage(c, w, page).Some? || page.next.None? || CheckNext(c, w, page).Some? then 0
      else Requests(c, wire, retries, NextWalk(w, page))
  }

  function Concat(visits: seq<Visit>): seq<Record> {
    if visits == [] then [] else visits[0].page.results + Concat(visits[1..])
  }

  /** The page is what the server answered to that request, for the walk's path and filters and this offset. */
  ghost predicate Fetched(c: Context, serve: Server, v: Visit) {
    && ReadReply(serve(v.request, c.path, v.query)) == Ok(v.page)
    && FilterMultimap(v.query) == c.filters
    && ValidatedOffset(v.query, false) == Some(v.offset)
    && (c.limits.maxOffset.Some? ==> v.offset <= c.limits.maxOffset.value)
  }

  /** A page with records and a link, on the walk's path, to the next page, which starts where this one ends. */
  ghost predicate Linked(c: Context, v: Visit, next: Visit) {
    && v.page.results != []
    && v.page.next.Some?
    && NormalizePath(v.page.next.value.0) == c.path
    && next.query == v.page.next.value.1
    && next.offset == v.offset + |v.page.results|
    && next.request == v.request + 1
  }

  /** Pages fetched one after the other, each starting where the one before ended, up to a page without a link. */
  ghost predicate GapFree(c: Context, serve: Server, visits: seq<Visit>) {
    && visits != []
    && (forall i :: 0 <= i < |visits| ==> Fetched(c, serve, visits[i]))
    && (forall i :: 0 < i < |visits| ==> Linked(c, visits[i - 1], visits[i]))
    && visits[|visits| - 1].page.next.None?
  }

  /** Where a list of visits begins. */
  ghost predicate BeginsAt(visits: seq<Visit>, request: nat, query: Query, offset: nat) {
    visits != [] && visits[0].request == request && visits[0].query == query && visits[0].offset == offset
  }

  /** Every page declares the count `count`, or, without a count, every page is a bare array. */
  ghost predicate SameCount(visits: seq<Visit>, count: Option<nat>) {
    forall i :: 0 <= i < |visits| ==> visits[i].page.count == count
  }

  /** The list holds the records so far and those of the pages visited, none twice, within the limits and as
      many as the one count that every page declared. */
  ghost predicate ListOk(c: Context, w: Walk, list: seq<Record>, visits: seq<Visit>) {
    && visits != []
    && list == w.aggregated + Concat(visits)
    && Distinct(list)
    && |list| <= HARD_MAX_RECORDS && (c.limits.maxRecords.Some? ==> |list| <= c.limits.maxRecords.value)
    && var count := visits[0].page.count;
    && SameCount(visits, count)
    && (w.shape.Some? ==> w.shape.value == count)
    && (count.Some? ==> |list| == Excess(count.value, c.start))
  }

  /** What an accepted page with a next link tells about the walk from there. */
  lemma {:induction false} AcceptedStep(c: Context, serve: Server, w: Walk, page: Page)
    requires WalkOk(c, w) && WalkFrom(c, serve, w).Ok?
    requires ReadReply(serve(w.pageCount, c.path, w.query)) == Ok(page) && page.next.Some?
    ensures WalkFrom(c, serve, w) == WalkFrom(c, serve, NextWalk(w, page))
    ensures Visits(c, serve, w) == [VisitOf(w, page)] + Visits(c, serve, NextWalk(w, page))
    ensures WalkOk(c, NextWalk(w, page)) && page.results != [] && NormalizePath(page.next.value.0) == c.path
    ensures w.shape.Some? ==> w.shape.value == page.count
    ensures w.pageCount < HARD_MAX_PAGES
  {
    StepKeeps(c, w, page);
  }

  /** What an accepted page without a next link tells about the list returned. */
  lemma {:induction false} AcceptedEnd(c: Context, serve: Server, w: Walk, page: Page)
    requires WalkOk(c, w) && WalkFrom(c, serve, w).Ok?
    requires ReadReply(serve(w.pageCount, c.path, w.query)) == Ok(page) && page.next.None?
    ensures WalkFrom(c, serve, w).value == w.aggregated + page.results
    ensures Visits(c, serve, w) == [VisitOf(w, page)]
    ensures Distinct(w.aggregated + page.results)
    ensures |w.aggregated + page.results| <= HARD_MAX_RECORDS
    ensures !Exceeds(|w.aggregated + page.results|, c.limits.maxRecords)
    ensures w.shape.Some? ==> w.shape.value == page.count
    ensures page.count.Some? ==> |w.aggregated + page.results| == Excess(page.count.value, c.start)
  {
    StepKeeps(c, w, page);
  }

  lemma {:induction false} WalkIsGapFree(c: Context, serve: Server, w: Walk)
    requires WalkOk(c, w) && WalkFrom(c, serve, w).Ok?
    ensures GapFree(c, serve, Visits(c, serve, w)) && BeginsAt(Visits(c, serve, w), w.pageCount, w.query, w.offset)
    decreases HARD_MAX_PAGES - w.pageCount
  {
    var page := ReadReply(serve(w.pageCount, c.path, w.query)).value;
    if page.next.None? {
      AcceptedEnd(c, serve, w, page);
      assert Fetched(c, serve, VisitOf(w, page));
    } else {
      AcceptedStep(c, serve, w, page);
      WalkIsGapFree(c, serve, NextWalk(w, page));
      var tail := Visits(c, serve, NextWalk(w, page));
      assert Fetched(c, serve, VisitOf(w, page)) && Linked(c, VisitOf(w, page), tail[0]);
      GapFreeCons(c, serve, VisitOf(w, page), tail);
    }
  }

  lemma {:induction false} WalkListIsOk(c: Context, serve: Server, w: Walk)
    requires WalkOk(c, w) && WalkFrom(c, serve, w).Ok?
    ensures ListOk(c, w, WalkFrom(c, serve, w).value, Visits(c, serve, w))
    decreases HARD_MAX_PAGES - w.pageCount
  {
    var page := ReadReply(serve(w.pageCount, c.path, w.query)).value;
    if page.next.None? {
      AcceptedEnd(c, serve, w, page);
      ConcatCons(VisitOf(w, page), []);
      assert [VisitOf(w, page)] + [] == [VisitOf(w, page)];
    } else {
      AcceptedStep(c, serve, w, page);
      WalkListIsOk(c, serve, NextWalk(w, page));
      ListCons(c, w, page, WalkFrom(c, serve, w).value, Visits(c, serve, NextWalk(w, page)));
    }
  }

  lemma ListCons(c: Context, w: Walk, page: Page, list: seq<Record>, tail: seq<Visit>)
    requires page.next.Some? && (w.shape.Some? ==> w.shape.value == page.count)
    requires ListOk(c, NextWalk(w, page), list, tail)
    ensures ListOk(c, w, list, [VisitOf(w, page)] + tail)
  {
    ConcatCons(VisitOf(w, page), tail);
  }

  lemma GapFreeCons(c: Context, serve: Server, v: Visit, tail: seq<Visit>)
    requires GapFree(c, serve, tail) && Fetched(c, serve, v) && Linked(c, v, tail[0])
    ensures GapFree(c, serve, [v] + tail)
  {
    var visits := [v] + tail;
    forall i | 0 < i < |visits|
      ensures Linked(c, visits[i - 1], visits[i])
    {
      if i > 1 { assert Linked(c, tail[i - 2], tail[i - 1]); }
    }
  }

  lemma {:induction false} ConcatCons(visit: Visit, tail: seq<Visit>)
    ensures Concat([visit] + tail) == visit.page.results + Concat(tail)
  {
    assert ([visit] + tail)[1..] == tail;
  }

  /** Whatever comes back over the wire: the repeated-link error never appears, and a list that is returned is
      the gap-free concatenation of the pages from the initial offset, holds no record twice, respects the limits
      and has the length the server declared; with the retries of each page counted, at most
      HARD_MAX_PAGES * (retries + 1) GETs are sent. */
  lemma {:induction false} TraversalSound(path: string, query: Query, limits: Limits, wire: Wire, retries: nat)
    ensures var serve := Retrying(wire, retries);
      var r := ListAll(path, query, limits, None, serve);
      && r != Err(RepeatedNextLink)
      && (r.Ok? ==>
           var c := Begin(path, query, limits).value;
           var visits := Visits(c, serve, FirstWalk(c, query));
           && GapFree(c, serve, visits) && BeginsAt(visits, 0, query, c.start)
           && r.value == Concat(visits)
           && Distinct(r.value)
           && |r.value| <= 1_000_000 && (limits.maxRecords.Some? ==> |r.value| <= limits.maxRecords.value)
           && SameCount(visits, visits[0].page.count)
           && (visits[0].page.count.Some? ==> |r.value| == Excess(visits[0].page.count.value, c.start)))
    ensures var b := Begin(path, query, limits);
      b.Ok? ==> Requests(b.value, wire, retries, FirstWalk(b.value, query)) <= 10_000 * (retries + 1)
  {
    var b, serve := Begin(path, query, limits), Retrying(wire, retries);
    if b.Ok? {
      var w := FirstWalk(b.value, query);
      RequestsBounded(b.value, wire, retries, w);
      ErrorNeverRepeated(b.value, serve, w);
      if WalkFrom(b.value, serve, w).Ok? {
        WalkIsGapFree(b.value, serve, w);
        WalkListIsOk(b.value, serve, w);
      }
    }
  }

  lemma Distribute(pages: nat, each: nat)
    ensures (pages + 1) * each == each + pages * each
  {
  }

  /** Every page costs at most `retries + 1` GETs, and there are at most HARD_MAX_PAGES pages. */
  lemma {:induction false} RequestsBounded(c: Context, wire: Wire, retries: nat, w: Walk)
    requires w.pageCount <= HARD_MAX_PAGES
    ensures Requests(c, wire, retries, w) <= (HARD_MAX_PAGES - w.pageCount) * (retries + 1)
    decreases HARD_MAX_PAGES - w.pageCount
  {
    if w.pageCount < HARD_MAX_PAGES {
      Distribute(HARD_MAX_PAGES - w.pageCount - 1, retries + 1);
      var reply := ReadReply(Retrying(wire, retries)(w.pageCount, c.path, w.query));
      if reply.Ok? && reply.value.next.Some? { RequestsBounded(c, wire, retries, NextWalk(w, reply.value)); }
    }
  }

  lemma {:induction false} ErrorNeverRepeated(c: Context, serve: Server, w: Walk)
    requires WalkOk(c, w)
    ensures WalkFrom(c, serve, w) != Err(RepeatedNextLink)
    decreases HARD_MAX_PAGES - w.pageCount
  {
    if w.pageCount < HARD_MAX_PAGES {
      match ReadReply(serve(w.pageCount, c.path, w.query))
      case Err(_) =>
      case Ok(page) =>
        if CheckPage(c, w, page).None? && page.next.Some? {
          StepKeeps(c, w, page);
          NextLinkNeverRepeats(c, w, page);
          if CheckNext(c, w, page).None? { ErrorNeverRepeated(c, serve, NextWalk(w, page)); }
        }
    }
  }

  // ---------------------------------------------------------------- explicit ceilings

  /** The limits `rest_list_paginated` derives from a page size and a largest offset. */
  function PaginatedLimits(pageSize: int, maxOffset: Option<int>, start: nat): Limits {
    if maxOffset.None? then UNLIMITED else
    var size := if pageSize < 1 then 1 else pageSize;
    var top := if maxOffset.value < 0 then 0 else maxOffset.value;
    Limits(Some(top - start + size), Some(top))
  }

  ghost predicate PagesAtMost(c: Context, serve: Server, size: int) {
    forall n: nat, q: Query :: ReadReply(serve(n, c.path, q)).Ok? ==>
      |ReadReply(serve(n, c.path, q)).value.results| <= size
  }

  /** When no page is longer than the page size, the offset ceiling always acts before the record ceiling:
      neither record-limit error can be raised on fetched pages, whatever the server answers. */
  lemma {:induction false} RecordLimitNeverFires(c: Context, serve: Server, w: Walk, size: int, top: int)
    requires WalkOk(c, w) && w.offset <= top && size >= 1
    requires c.limits == Limits(Some(top - c.start + size), Some(top))
    requires PagesAtMost(c, serve, size)
    ensures WalkFrom(c, serve, w) != Err(RecordLimit)
    ensures WalkFrom(c, serve, w) != Err(RecordLimitReached)
    decreases HARD_MAX_PAGES - w.pageCount
  {
    if w.pageCount < HARD_MAX_PAGES {
      var reply := ReadReply(serve(w.pageCount, c.path, w.query));
      if reply.Ok? && CheckPage(c, w, reply.value).None? && reply.value.next.Some? {
        StepKeeps(c, w, reply.value);
        if CheckNext(c, w, reply.value).None? {
          RecordLimitNeverFires(c, serve, NextWalk(w, reply.value), size, top);
        }
      }
    }
  }

  /** The same for a whole `rest_list_paginated` call. */
  lemma PaginatedCeilings(path: string, query: Query, pageSize: int, maxOffset: Option<int>, serve: Server)
    requires ValidatedOffset(query, false).Some?
    requires var limits := PaginatedLimits(pageSize, maxOffset, ValidatedOffset(query, false).value);
      Begin(path, query, limits).Ok? ==>
        PagesAtMost(Begin(path, query, limits).value, serve, if pageSize < 1 then 1 else pageSize)
    ensures var limits := PaginatedLimits(pageSize, maxOffset, ValidatedOffset(query, false).value);
      var r := ListAll(path, query, limits, None, serve);
      r != Err(RecordLimit) && r != Err(RecordLimitReached)
  {
    var limits := PaginatedLimits(pageSize, maxOffset, ValidatedOffset(query, false).value);
    var b := Begin(path, query, limits);
    if b.Ok? {
      if maxOffset.Some? {
        RecordLimitNeverFires(b.value, serve, FirstWalk(b.value, query),
          if pageSize < 1 then 1 else pageSize, limits.maxOffset.value);
      } else {
        UnlimitedNeverFires(b.value, serve, FirstWalk(b.value, query));
      }
    }
  }

  lemma {:induction false} UnlimitedNeverFires(c: Context, serve: Server, w: Walk)
    requires c.limits == UNLIMITED
    ensures WalkFrom(c, serve, w) != Err(RecordLimit)
    ensures WalkFrom(c, serve, w) != Err(RecordLimitReached)
    decreases HARD_MAX_PAGES - w.pageCount
  {
    if w.pageCount < HARD_MAX_PAGES {
      var reply := ReadReply(serve(w.pageCount, c.path, w.query));
      if reply.Ok? && CheckPage(c, w, reply.value).None? && reply.value.next.Some? {
        if CheckNext(c, w, reply.value).None? { UnlimitedNeverFires(c, serve, NextWalk(w, reply.value)); }
      }
    }
  }

  // ---------------------------------------------------------------- against an honest server

  function Objects(records: seq<Record>): (r: seq<Item>)
    ensures |r| == |records|
  {
    seq(|records|, i requires 0 <= i < |records| => ObjectItem(records[i]))
  }

  /** An honest link to an offset: the walk's path and filters, and the offset in digits. */
  ghost predicate HonestLink(c: Context, offset: nat, next: NextField) {
    && next.Link?
    && NormalizePath(next.path) == c.path
    && PairValues(next.pairs, |next.pairs|, "offset") == multiset{NatText(offset)}
    && CarriesFilters(c.filters, next.pairs)
  }

  /** An honest answer about `coll` from `offset` on: any positive number of the next records, the true count, and a
      link to the next offset exactly when records remain. */
  ghost predicate HonestAnswer(c: Context, coll: seq<Record>, offset: nat, reply: Reply) {
    && reply.Answer? && reply.payload.ObjectPayload? && reply.payload.results.ResultsList?
    && reply.payload.count == IntCount(|coll|)
    && var items, next := reply.payload.results.items, reply.payload.next;
    && var end := offset + |items|;
    && if offset >= |coll| then items == [] && next == NullNext else
       && items != [] && end <= |coll| && items == Objects(coll[offset..end])
       && if end < |coll| then HonestLink(c, end, next) else next == NullNext
  }

  /** What an honest answer is read as. */
  ghost predicate HonestPage(c: Context, coll: seq<Record>, offset: nat, page: Page) {
    && page.count == Some(|coll|)
    && (if offset >= |coll| then page.results == [] && page.next.None? else
        && page.results != []
        && offset + |page.results| <= |coll|
        && page.results == coll[offset..offset + |page.results|]
        && page.next.Some? == (offset + |page.results| < |coll|))
    && (page.next.Some? ==>
        && NormalizePath(page.next.value.0) == c.path
        && FilterMultimap(page.next.value.1) == c.filters
        && PaginationOffset(page.next.value.1) == Some(offset + |page.results|))
  }

  lemma {:induction false} HonestRead(c: Context, coll: seq<Record>, offset: nat, reply: Reply)
    requires HonestAnswer(c, coll, offset, reply)
    ensures ReadReply(reply).Ok? && HonestPage(c, coll, offset, ReadReply(reply).value)
  {
    var items, next := reply.payload.results.items, reply.payload.next;
    assert AllObjects(items);
    if offset < |coll| { assert Records(items) == coll[offset..offset + |items|]; }
    if next.Link? {
      PrintedLinkOffset(next.pairs, offset + |items|);
      CarriedFilters(c.filters, next.pairs);
    }
  }

  /** The offset a server reads in a query: none given is 0. */
  ghost predicate SendsOffset(query: Query, n: nat) {
    if "offset" in query then OneNumber(ValueTexts(query["offset"]), n) else n == 0
  }

  /** A list call gets started exactly when its query names no offset or one in digits, and not beyond the ceiling; it
      then starts there. */
  lemma {:induction false} BeginIff(path: string, query: Query, limits: Limits)
    ensures Begin(path, query, limits).Ok? <==>
      exists n: nat :: SendsOffset(query, n) && (limits.maxOffset.Some? ==> n <= limits.maxOffset.value)
    ensures Begin(path, query, limits).Ok? ==>
      var c := Begin(path, query, limits).value;
      && c.path == NormalizePath(path) && c.filters == FilterMultimap(query) && c.limits == limits
      && SendsOffset(query, c.start)
    ensures Begin(path, query, limits) == Err(BadInitialOffset) <==> forall n: nat :: !SendsOffset(query, n)
  {
    forall n: nat ensures SendsOffset(query, n) <==> ValidatedOffset(query, false) == Some(n) { OffsetIff(query, n); }
  }

  /** A cached list is served without a request, unless it is longer than the record limit. */
  lemma {:induction false} CachedIsServed(
    path: string, query: Query, limits: Limits, cached: seq<Record>, serve: Server)
    requires Begin(path, query, limits).Ok?
    ensures ListAll(path, query, limits, Some(cached), serve) ==
      if limits.maxRecords.Some? && |cached| > limits.maxRecords.value then Err(CachedTooLong) else Ok(cached)
  {
  }

  /** The query asks for a page of the collection the walk is about. */
  predicate Asks(c: Context, query: Query) {
    FilterMultimap(query) == c.filters && ValidatedOffset(query, false).Some?
  }

  ghost predicate HonestAt(c: Context, serve: Server, coll: seq<Record>, n: nat, query: Query, offset: nat) {
    FilterMultimap(query) == c.filters && SendsOffset(query, offset) ==>
      HonestAnswer(c, coll, offset, serve(n, c.path, query))
  }

  ghost predicate Honest(c: Context, serve: Server, coll: seq<Record>) {
    Distinct(coll) && forall n: nat, q: Query, offset: nat :: HonestAt(c, serve, coll, n, q, offset)
  }

  lemma {:induction false} HonestFetch(c: Context, serve: Server, coll: seq<Record>, n: nat, query: Query)
    requires Honest(c, serve, coll) && Asks(c, query)
    ensures var reply := ReadReply(serve(n, c.path, query));
      reply.Ok? && HonestPage(c, coll, ValidatedOffset(query, false).value, reply.value)
  {
    var offset := ValidatedOffset(query, false).value;
    OffsetIff(query, offset);
    assert HonestAt(c, serve, coll, n, query, offset);
    HonestRead(c, coll, offset, serve(n, c.path, query));
  }

  /** The number of pages the server cuts the rest of the collection into. */
  ghost function PagesNeeded(c: Context, serve: Server, coll: seq<Record>, n: nat, query: Query): nat
    requires Honest(c, serve, coll) && Asks(c, query)
    decreases Excess(|coll|, ValidatedOffset(query, false).value)
  {
    HonestFetch(c, serve, coll, n, query);
    var page := ReadReply(serve(n, c.path, query)).value;
    if page.next.None? then 1 else 1 + PagesNeeded(c, serve, coll, n + 1, page.next.value.1)
  }

  function Drop(coll: seq<Record>, offset: nat): seq<Record> {
    if offset <= |coll| then coll[offset..] else []
  }

  lemma SliceSignatures(coll: seq<Record>, lo: nat, mid: nat, hi: nat)
    requires Distinct(coll) && lo <= mid <= hi <= |coll|
    ensures Distinct(coll[mid..hi])
    ensures SignatureSet(coll[mid..hi]) * SignatureSet(coll[lo..mid]) == {}
  {
    assert forall i :: 0 <= i < hi - mid ==> coll[mid..hi][i] == coll[mid + i];
    assert forall j :: 0 <= j < mid - lo ==> coll[lo..mid][j] == coll[lo + j];
  }

  /** The records so far are the collection's own, from the start up to the cursor. */
  ghost predicate Follows(c: Context, coll: seq<Record>, w: Walk) {
    && (w.shape.None? || w.shape.value == Some(|coll|))
    && w.aggregated == (if c.start <= w.offset <= |coll| then coll[c.start..w.offset] else [])
  }

  /** The record ceiling leaves room for a whole page beyond the offset ceiling. */
  ghost predicate Roomy(c: Context, page: Page) {
    c.limits.maxRecords.Some? ==>
      && c.limits.maxOffset.Some?
      && |page.results| <= c.limits.maxRecords.value - c.limits.maxOffset.value + c.start
  }

  ghost predicate AlwaysRoomy(c: Context, serve: Server) {
    forall n: nat, q: Query :: ReadReply(serve(n, c.path, q)).Ok? ==> Roomy(c, ReadReply(serve(n, c.path, q)).value)
  }

  /** A walk with a next link stops at this page, at a hard limit or the offset ceiling. */
  predicate Stops(c: Context, w: Walk, page: Page) {
    || |w.aggregated| + |page.results| >= HARD_MAX_RECORDS
    || w.pageCount + 1 >= HARD_MAX_PAGES
    || Exceeds(w.offset + |page.results|, c.limits.maxOffset)
  }

  /** One step of a walk against an honest server: only the hard limits and the offset ceiling can stop it. */
  lemma {:induction false} HonestStep(c: Context, serve: Server, coll: seq<Record>, w: Walk, page: Page)
    requires Distinct(coll) && Roomy(c, page) && WalkOk(c, w) && Follows(c, coll, w)
    requires w.pageCount < HARD_MAX_PAGES && ReadReply(serve(w.pageCount, c.path, w.query)) == Ok(page)
    requires HonestPage(c, coll, w.offset, page)
    ensures var total := |w.aggregated| + |page.results|;
      && (total > HARD_MAX_RECORDS ==> WalkFrom(c, serve, w).Err?)
      && (total <= HARD_MAX_RECORDS && page.next.None? ==> WalkFrom(c, serve, w) == Ok(w.aggregated + page.results))
      && (page.next.Some? && Stops(c, w, page) ==> WalkFrom(c, serve, w).Err?)
      && (page.next.Some? && !Stops(c, w, page) ==>
            WalkFrom(c, serve, w) == WalkFrom(c, serve, NextWalk(w, page)) && WalkOk(c, NextWalk(w, page)))
  {
    HonestPassesPage(c, coll, w, page);
    if page.next.Some? { HonestPassesNext(c, coll, w, page); }
    if CheckPage(c, w, page).None? { StepKeeps(c, w, page); }
  }

  lemma FollowsOn(c: Context, coll: seq<Record>, w: Walk, page: Page)
    requires w.offset == c.start + |w.aggregated| && Follows(c, coll, w) && HonestPage(c, coll, w.offset, page)
    ensures page.next.Some? ==> Follows(c, coll, NextWalk(w, page))
    ensures page.next.None? ==> w.aggregated + page.results == Drop(coll, c.start)
  {
    if w.offset <= |coll| {
      var end := w.offset + |page.results|;
      assert coll[c.start..w.offset] + page.results == coll[c.start..end];
    }
  }

  /** The walk succeeds exactly when the rest of the collection fits the hard limits and no page starts beyond the
      offset ceiling, and returns that rest. */
  ghost predicate ExactlyFits(r: Result<seq<Record>, ListError>, rest: seq<Record>, pages: nat, within: bool) {
    && (r.Ok? <==> |rest| <= HARD_MAX_RECORDS && pages <= HARD_MAX_PAGES && within)
    && (r.Ok? ==> r.value == rest)
  }

  /** No page after this one starts beyond the offset ceiling. */
  ghost predicate OffsetsWithin(c: Context, serve: Server, coll: seq<Record>, n: nat, query: Query)
    requires Honest(c, serve, coll) && Asks(c, query)
    decreases Excess(|coll|, ValidatedOffset(query, false).value)
  {
    HonestFetch(c, serve, coll, n, query);
    var page := ReadReply(serve(n, c.path, query)).value;
    page.next.Some? ==>
      && (c.limits.maxOffset.Some? ==>
            ValidatedOffset(query, false).value + |page.results| <= c.limits.maxOffset.value)
      && OffsetsWithin(c, serve, coll, n + 1, page.next.value.1)
  }

  /** What a walk against an honest server comes to. */
  ghost predicate HonestResult(c: Context, serve: Server, coll: seq<Record>, w: Walk)
    requires Honest(c, serve, coll) && Asks(c, w.query)
  {
    ExactlyFits(WalkFrom(c, serve, w), Drop(coll, c.start),
                w.pageCount + PagesNeeded(c, serve, coll, w.pageCount, w.query),
                OffsetsWithin(c, serve, coll, w.pageCount, w.query))
  }

  lemma PagesNeededStep(c: Context, serve: Server, coll: seq<Record>, n: nat, query: Query, page: Page)
    requires Honest(c, serve, coll) && Asks(c, query) && ReadReply(serve(n, c.path, query)) == Ok(page)
    ensures page.next.None? ==> PagesNeeded(c, serve, coll, n, query) == 1
    ensures page.next.Some? ==>
      && Asks(c, page.next.value.1)
      && PagesNeeded(c, serve, coll, n, query) == 1 + PagesNeeded(c, serve, coll, n + 1, page.next.value.1) >= 2
  {
    HonestFetch(c, serve, coll, n, query);
  }

  lemma OffsetsWithinStep(c: Context, serve: Server, coll: seq<Record>, n: nat, query: Query, page: Page)
    requires Honest(c, serve, coll) && Asks(c, query) && ReadReply(serve(n, c.path, query)) == Ok(page)
    ensures page.next.None? ==> OffsetsWithin(c, serve, coll, n, query)
    ensures page.next.Some? ==>
      && Asks(c, page.next.value.1)
      && (OffsetsWithin(c, serve, coll, n, query) <==>
            && !Exceeds(ValidatedOffset(query, false).value + |page.results|, c.limits.maxOffset)
            && OffsetsWithin(c, serve, coll, n + 1, page.next.value.1))
  {
    HonestFetch(c, serve, coll, n, query);
  }

  lemma HonestReply(c: Context, serve: Server, coll: seq<Record>, w: Walk) returns (page: Page)
    requires Honest(c, serve, coll) && WalkOk(c, w)
    ensures Asks(c, w.query) && ReadReply(serve(w.pageCount, c.path, w.query)) == Ok(page)
    ensures HonestPage(c, coll, w.offset, page)
  {
    HonestFetch(c, serve, coll, w.pageCount, w.query);
    page := ReadReply(serve(w.pageCount, c.path, w.query)).value;
  }

  /** The result of a walk from the result of its next state. */
  lemma {:induction false} HonestResultBack(c: Context, serve: Server, coll: seq<Record>, w: Walk, next: Walk)
    requires Honest(c, serve, coll) && Asks(c, w.query) && Asks(c, next.query) && next.pageCount == w.pageCount + 1
    requires WalkFrom(c, serve, w) == WalkFrom(c, serve, next)
    requires PagesNeeded(c, serve, coll, w.pageCount, w.query) ==
      1 + PagesNeeded(c, serve, coll, next.pageCount, next.query)
    requires OffsetsWithin(c, serve, coll, w.pageCount, w.query) <==>
      OffsetsWithin(c, serve, coll, next.pageCount, next.query)
    requires HonestResult(c, serve, coll, next)
    ensures HonestResult(c, serve, coll, w)
  {
  }

  /** A next link means that records remain. */
  lemma RestIsLonger(c: Context, coll: seq<Record>, w: Walk, page: Page)
    requires w.offset == c.start + |w.aggregated| && HonestPage(c, coll, w.offset, page) && page.next.Some?
    ensures |Drop(coll, c.start)| > |w.aggregated| + |page.results|
  {
  }

  /** A walk that ends at this page. */
  lemma {:induction false} HonestEnd(c: Context, serve: Server, coll: seq<Record>, w: Walk, page: Page)
    requires Honest(c, serve, coll) && Roomy(c, page)
    requires WalkOk(c, w) && Follows(c, coll, w) && w.pageCount < HARD_MAX_PAGES && page.next.None?
    requires ReadReply(serve(w.pageCount, c.path, w.query)) == Ok(page) && HonestPage(c, coll, w.offset, page)
    ensures ExactlyFits(WalkFrom(c, serve, w), Drop(coll, c.start), w.pageCount + 1, true)
  {
    HonestStep(c, serve, coll, w, page);
    FollowsOn(c, coll, w, page);
  }

  /** A walk that a limit cuts off at this page. */
  lemma {:induction false} HonestCut(
    c: Context, serve: Server, coll: seq<Record>, w: Walk, page: Page, pages: nat, within: bool)
    requires Honest(c, serve, coll) && Roomy(c, page)
    requires WalkOk(c, w) && Follows(c, coll, w) && w.pageCount < HARD_MAX_PAGES && page.next.Some?
    requires ReadReply(serve(w.pageCount, c.path, w.query)) == Ok(page) && HonestPage(c, coll, w.offset, page)
    requires Stops(c, w, page) && pages >= w.pageCount + 2
    requires Exceeds(w.offset + |page.results|, c.limits.maxOffset) ==> !within
    ensures ExactlyFits(WalkFrom(c, serve, w), Drop(coll, c.start), pages, within)
  {
    HonestStep(c, serve, coll, w, page);
    RestIsLonger(c, coll, w, page);
  }

  /** A walk that ends or is cut off at this page. */
  lemma HonestStop(c: Context, serve: Server, coll: seq<Record>, w: Walk, page: Page)
    requires Honest(c, serve, coll) && Roomy(c, page)
    requires WalkOk(c, w) && Follows(c, coll, w) && w.pageCount < HARD_MAX_PAGES && Asks(c, w.query)
    requires ReadReply(serve(w.pageCount, c.path, w.query)) == Ok(page) && HonestPage(c, coll, w.offset, page)
    requires page.next.None? || Stops(c, w, page)
    ensures HonestResult(c, serve, coll, w)
  {
    PagesNeededStep(c, serve, coll, w.pageCount, w.query, page);
    OffsetsWithinStep(c, serve, coll, w.pageCount, w.query, page);
    if page.next.None? {
      HonestEnd(c, serve, coll, w, page);
    } else {
      HonestCut(c, serve, coll, w, page, w.pageCount + PagesNeeded(c, serve, coll, w.pageCount, w.query),
                OffsetsWithin(c, serve, coll, w.pageCount, w.query));
    }
  }

  /** A walk that goes on after this page comes to what it comes to from there. */
  lemma HonestGoesOn(c: Context, serve: Server, coll: seq<Record>, w: Walk, page: Page)
    requires Honest(c, serve, coll) && Roomy(c, page)
    requires WalkOk(c, w) && Follows(c, coll, w) && w.pageCount < HARD_MAX_PAGES && Asks(c, w.query)
    requires ReadReply(serve(w.pageCount, c.path, w.query)) == Ok(page) && HonestPage(c, coll, w.offset, page)
    requires page.next.Some? && !Stops(c, w, page)
    ensures WalkOk(c, NextWalk(w, page)) && Follows(c, coll, NextWalk(w, page)) && Asks(c, NextWalk(w, page).query)
    ensures HonestResult(c, serve, coll, NextWalk(w, page)) ==> HonestResult(c, serve, coll, w)
  {
    var next := NextWalk(w, page);
    HonestStep(c, serve, coll, w, page);
    FollowsOn(c, coll, w, page);
    PagesNeededStep(c, serve, coll, w.pageCount, w.query, page);
    OffsetsWithinStep(c, serve, coll, w.pageCount, w.query, page);
    if HonestResult(c, serve, coll, next) { HonestResultBack(c, serve, coll, w, next); }
  }

  lemma {:induction false} HonestWalk(c: Context, serve: Server, coll: seq<Record>, w: Walk)
    requires Honest(c, serve, coll) && AlwaysRoomy(c, serve)
    requires WalkOk(c, w) && Follows(c, coll, w) && w.pageCount < HARD_MAX_PAGES
    ensures Asks(c, w.query) && HonestResult(c, serve, coll, w)
    decreases HARD_MAX_PAGES - w.pageCount
  {
    var page := HonestReply(c, serve, coll, w);
    if page.next.Some? && !Stops(c, w, page) {
      HonestGoesOn(c, serve, coll, w, page);
      HonestWalk(c, serve, coll, NextWalk(w, page));
    } else {
      HonestStop(c, serve, coll, w, page);
    }
  }

  /** Whatever the limits, a list returned by an honest server's walk is the rest of the collection. */
  lemma {:induction false} HonestListIsExact(c: Context, serve: Server, coll: seq<Record>, w: Walk)
    requires Honest(c, serve, coll) && WalkOk(c, w) && Follows(c, coll, w) && WalkFrom(c, serve, w).Ok?
    ensures WalkFrom(c, serve, w).value == Drop(coll, c.start)
    decreases HARD_MAX_PAGES - w.pageCount
  {
    var page := HonestReply(c, serve, coll, w);
    FollowsOn(c, coll, w, page);
    if page.next.None? {
      AcceptedEnd(c, serve, w, page);
    } else {
      AcceptedStep(c, serve, w, page);
      HonestListIsExact(c, serve, coll, NextWalk(w, page));
    }
  }

  lemma HonestPassesPage(c: Context, coll: seq<Record>, w: Walk, page: Page)
    requires Distinct(coll) && Roomy(c, page) && WalkOk(c, w) && HonestPage(c, coll, w.offset, page)
    requires Follows(c, coll, w)
    ensures CheckPage(c, w, page) ==
      if |w.aggregated| + |page.results| > HARD_MAX_RECORDS then Some(TooManyRecords) else None
  {
    if w.offset <= |coll| { SliceSignatures(coll, c.start, w.offset, w.offset + |page.results|); }
  }

  lemma HonestPassesNext(c: Context, coll: seq<Record>, w: Walk, page: Page)
    requires Roomy(c, page) && WalkOk(c, w) && HonestPage(c, coll, w.offset, page) && page.next.Some?
    ensures CheckNext(c, w, page).Some? <==> Stops(c, w, page)
  {
  }

  /** Against an honest server over a fixed collection, under any ceilings that leave room for a page: the traversal
      returns exactly the records from the initial offset on; it raises exactly when the collection needs more pages
      or holds more records than the hard limits allow, or a later page starts beyond the offset ceiling. */
  lemma {:induction false} TraversalComplete(
    path: string, query: Query, limits: Limits, serve: Server, coll: seq<Record>)
    requires Begin(path, query, limits).Ok? && Honest(Begin(path, query, limits).value, serve, coll)
    requires AlwaysRoomy(Begin(path, query, limits).value, serve)
    ensures var c, r := Begin(path, query, limits).value, ListAll(path, query, limits, None, serve);
      && (r.Ok? <==>
            && PagesNeeded(c, serve, coll, 0, query) <= 10_000
            && |Drop(coll, c.start)| <= 1_000_000
            && OffsetsWithin(c, serve, coll, 0, query))
      && (r.Ok? ==> r.value == Drop(coll, c.start))
  {
    var c := Begin(path, query, limits).value;
    BeginOk(path, query, limits);
    HonestWalk(c, serve, coll, FirstWalk(c, query));
  }

  lemma {:induction false} NoCeilingNoBound(c: Context, serve: Server, coll: seq<Record>, n: nat, query: Query)
    requires Honest(c, serve, coll) && Asks(c, query) && c.limits.maxOffset.None?
    ensures OffsetsWithin(c, serve, coll, n, query)
    decreases Excess(|coll|, ValidatedOffset(query, false).value)
  {
    HonestFetch(c, serve, coll, n, query);
    var page := ReadReply(serve(n, c.path, query)).value;
    if page.next.Some? { NoCeilingNoBound(c, serve, coll, n + 1, page.next.value.1); }
  }

  /** A plain list call, and a `rest_list_paginated` call whose pages are no longer than its page size: the first
      succeeds exactly within the hard limits, the second exactly when besides no later page starts beyond the
      largest offset. */
  lemma {:induction false} PaginatedComplete(
    path: string, query: Query, pageSize: int, maxOffset: Option<int>, serve: Server, coll: seq<Record>)
    requires ValidatedOffset(query, false).Some?
    requires var limits := PaginatedLimits(pageSize, maxOffset, ValidatedOffset(query, false).value);
      && Begin(path, query, limits).Ok?
      && var c := Begin(path, query, limits).value;
      && Honest(c, serve, coll)
      && (maxOffset.Some? ==> PagesAtMost(c, serve, if pageSize < 1 then 1 else pageSize))
    ensures var limits := PaginatedLimits(pageSize, maxOffset, ValidatedOffset(query, false).value);
      var c, r := Begin(path, query, limits).value, ListAll(path, query, limits, None, serve);
      && (r.Ok? <==>
            && PagesNeeded(c, serve, coll, 0, query) <= 10_000
            && |Drop(coll, c.start)| <= 1_000_000
            && (maxOffset.None? || OffsetsWithin(c, serve, coll, 0, query)))
      && (r.Ok? ==> r.value == Drop(coll, c.start))
  {
    var limits := PaginatedLimits(pageSize, maxOffset, ValidatedOffset(query, false).value);
    var c := Begin(path, query, limits).value;
    TraversalComplete(path, query, limits, serve, coll);
    if maxOffset.None? { NoCeilingNoBound(c, serve, coll, 0, query); }
  }
}
