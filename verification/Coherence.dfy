/** One client, its GET cache and the server: over whole runs of calls made one at a time, every list served
    from the cache is the list a fresh traversal would return. */
module Coherence {
  import opened Wrappers
  import opened Text
  import opened Pagination
  import opened GetCache

  /** What the server holds: for each list path and filter, the matching records in order. */
  type Db = (string, Filters) -> seq<Record>

  datatype World = World(entries: seq<Entry>, db: Db)

  function StartOf(query: Query): nat {
    var offset := ValidatedOffset(query, false);
    if offset.Some? then offset.value else 0
  }

  /** What a fresh traversal of the list returns. */
  function Fresh(db: Db, path: string, query: Query): seq<Record> {
    Drop(db(NormalizePath(path), FilterMultimap(query)), StartOf(query))
  }

  ghost predicate Coherent(api: int, w: World) {
    && DistinctKeys(w.entries)
    && forall e :: e in w.entries && e.key.api == api ==>
         e.key.path == NormalizePath(e.key.path) && e.records == Fresh(w.db, e.key.path, e.key.query)
  }

  /** A write under a list path changes nothing outside that list and its details. */
  ghost predicate OnlyTouches(db: Db, db': Db, path: string) {
    forall p, f :: !Touches(NormalizePath(path), p) ==> db'(p, f) == db(p, f)
  }

  /** The calls a client makes. A successful write carries the server's state after it. */
  datatype Call =
    | List(path: string, query: Query, limits: Limits, readAt: real, writeAt: real, serve: Server)
    | Create(path: string, body: Body, db: Db)
    | Patch(path: string, id: Scalar, reply: Option<Body>, db: Db)
    | Save(path: string, body: Body, db: Db)
    | Delete(path: string, detail: string, db: Db)
    | BulkWrite(path: string, bodies: seq<Body>, db: Db)
    | BulkDelete(path: string, db: Db)
    | FailedWrite
    | ClearPath(path: string)

  function InvalidateAll(entries: seq<Entry>, api: int, path: string, bodies: seq<Body>): seq<Entry>
    decreases |bodies|
  {
    if bodies == [] then entries
    else InvalidateAll(InvalidateRecord(entries, api, path, bodies[0]), api, path, bodies[1..])
  }

  function ListKey(api: int, c: Call): Key
    requires c.List?
  {
    Key(api, NormalizePath(c.path), c.query)
  }

  /** What a list call answers in a world. */
  function ListAnswer(api: int, cfg: Config, w: World, c: Call): Result<seq<Record>, ListError>
    requires c.List?
  {
    ListAll(c.path, c.query, c.limits, Lookup(w.entries, ListKey(api, c), c.readAt, cfg), c.serve)
  }

  function ListCache(api: int, cfg: Config, w: World, c: Call): seq<Entry>
    requires c.List?
  {
    if Begin(c.path, c.query, c.limits).Err? then w.entries else
    var pruned := Prune(w.entries, c.readAt, cfg);
    var answer := ListAnswer(api, cfg, w, c);
    if Lookup(w.entries, ListKey(api, c), c.readAt, cfg).None? && answer.Ok?
    then Write(pruned, ListKey(api, c), answer.value, c.writeAt, cfg) else pruned
  }

  /** The effect of one call on the cache and the server. */
  function After(api: int, cfg: Config, w: World, c: Call): World {
    match c
    case List(_, _, _, _, _, _) => World(ListCache(api, cfg, w, c), w.db)
    case Create(path, body, db) => World(InvalidateRecord(w.entries, api, path, body), db)
    case Patch(path, id, reply, db) =>
      if reply.Some? then World(InvalidateRecord(w.entries, api, path, reply.value), db)
      else World(Invalidate(Invalidate(w.entries, api, path), api, DetailPath(path, id)), db)
    case Save(path, body, db) => World(InvalidateRecord(w.entries, api, path, body), db)
    case Delete(path, detail, db) => World(Invalidate(Invalidate(w.entries, api, path), api, detail), db)
    case BulkWrite(path, bodies, db) => World(InvalidateAll(w.entries, api, path, bodies), db)
    case BulkDelete(path, db) => World(Invalidate(w.entries, api, path), db)
    case FailedWrite => w
    case ClearPath(path) => World(Invalidate(w.entries, api, path), w.db)
  }

  ghost predicate WriteIsLocal(w: World, path: string, db: Db) {
    !IsDetailPath(NormalizePath(path)) && OnlyTouches(w.db, db, path)
  }

  /** The conditions the theorem needs of a call: lists are answered honestly; a write is made under a list
      path and stays local; a bulk write answers at least one object. */
  ghost predicate Legal(w: World, c: Call) {
    match c
    case List(path, query, limits, _, _, serve) =>
      Begin(path, query, limits).Ok? ==>
        Honest(Begin(path, query, limits).value, serve, w.db(NormalizePath(path), FilterMultimap(query)))
    case Create(path, _, db) => WriteIsLocal(w, path, db)
    case Patch(path, _, _, db) => WriteIsLocal(w, path, db)
    case Save(path, _, db) => WriteIsLocal(w, path, db)
    case Delete(path, _, db) => WriteIsLocal(w, path, db)
    case BulkWrite(path, bodies, db) => WriteIsLocal(w, path, db) && bodies != []
    case BulkDelete(path, db) => WriteIsLocal(w, path, db)
    case FailedWrite => true
    case ClearPath(_) => true
  }

  // ---------------------------------------------------------------- one call

  lemma InvalidateShrinks(entries: seq<Entry>, api: int, path: string)
    requires DistinctKeys(entries)
    ensures DistinctKeys(Invalidate(entries, api, path))
    ensures forall e :: e in Invalidate(entries, api, path) ==> e in entries
  {
    FilterDistinct((e: Entry) => !Drops(NormalizePath(path), api, e.key), entries);
  }

  /** Invalidation for a record forgets everything invalidation of its list forgets. */
  lemma InvalidateRecordShrinks(entries: seq<Entry>, api: int, path: string, body: Body)
    requires DistinctKeys(entries)
    ensures DistinctKeys(InvalidateRecord(entries, api, path, body))
    ensures forall e :: e in InvalidateRecord(entries, api, path, body) ==> e in Invalidate(entries, api, path)
    ensures forall e :: e in InvalidateRecord(entries, api, path, body) ==> e in entries
  {
    InvalidateShrinks(entries, api, path);
    var listGone := Invalidate(entries, api, path);
    var urlGone := listGone;
    if body.urlPath.Some? && body.urlPath.value != "" {
      urlGone := Invalidate(listGone, api, body.urlPath.value);
      InvalidateShrinks(listGone, api, body.urlPath.value);
    }
    if body.id.Some? { InvalidateShrinks(urlGone, api, DetailPath(path, body.id.value)); }
  }

  lemma {:induction false} InvalidateAllShrinks(entries: seq<Entry>, api: int, path: string, bodies: seq<Body>)
    requires DistinctKeys(entries)
    ensures DistinctKeys(InvalidateAll(entries, api, path, bodies))
    ensures forall e :: e in InvalidateAll(entries, api, path, bodies) ==> e in entries
    ensures bodies != [] ==>
      forall e :: e in InvalidateAll(entries, api, path, bodies) ==> e in Invalidate(entries, api, path)
    decreases |bodies|
  {
    if bodies != [] {
      InvalidateRecordShrinks(entries, api, path, bodies[0]);
      InvalidateAllShrinks(InvalidateRecord(entries, api, path, bodies[0]), api, path, bodies[1..]);
    }
  }

  /** A local write followed by forgetting at least what invalidation of its list forgets keeps coherence. */
  lemma LocalWriteKeeps(api: int, w: World, path: string, db: Db, left: seq<Entry>)
    requires Coherent(api, w) && WriteIsLocal(w, path, db) && DistinctKeys(left)
    requires forall e :: e in left ==> e in Invalidate(w.entries, api, path)
    ensures Coherent(api, World(left, db))
  {
    InvalidateCovers(w.entries, api, path);
    forall e | e in left && e.key.api == api
      ensures e.key.path == NormalizePath(e.key.path) && e.records == Fresh(db, e.key.path, e.key.query)
    {
      assert e in Invalidate(w.entries, api, path);
      assert db(e.key.path, FilterMultimap(e.key.query)) == w.db(e.key.path, FilterMultimap(e.key.query));
    }
  }

  lemma WriteKeeps(api: int, cfg: Config, w: World, c: Call)
    requires Coherent(api, w) && Legal(w, c) && !c.List?
    ensures Coherent(api, After(api, cfg, w, c))
  {
    match c
    case Create(path, body, db) =>
      InvalidateRecordShrinks(w.entries, api, path, body);
      LocalWriteKeeps(api, w, path, db, After(api, cfg, w, c).entries);
    case Patch(path, id, reply, db) =>
      if reply.Some? {
        InvalidateRecordShrinks(w.entries, api, path, reply.value);
      } else {
        InvalidateShrinks(w.entries, api, path);
        InvalidateShrinks(Invalidate(w.entries, api, path), api, DetailPath(path, id));
      }
      LocalWriteKeeps(api, w, path, db, After(api, cfg, w, c).entries);
    case Save(path, body, db) =>
      InvalidateRecordShrinks(w.entries, api, path, body);
      LocalWriteKeeps(api, w, path, db, After(api, cfg, w, c).entries);
    case Delete(path, detail, db) =>
      InvalidateShrinks(w.entries, api, path);
      InvalidateShrinks(Invalidate(w.entries, api, path), api, detail);
      LocalWriteKeeps(api, w, path, db, After(api, cfg, w, c).entries);
    case BulkWrite(path, bodies, db) =>
      InvalidateAllShrinks(w.entries, api, path, bodies);
      LocalWriteKeeps(api, w, path, db, After(api, cfg, w, c).entries);
    case BulkDelete(path, db) =>
      InvalidateShrinks(w.entries, api, path);
      LocalWriteKeeps(api, w, path, db, After(api, cfg, w, c).entries);
    case FailedWrite =>
    case ClearPath(path) => InvalidateShrinks(w.entries, api, path);
  }

  /** What the cache serves is what is there to serve. */
  lemma HitIsFresh(api: int, cfg: Config, w: World, path: string, query: Query, readAt: real)
    requires Coherent(api, w)
    ensures var hit := Lookup(w.entries, Key(api, NormalizePath(path), query), readAt, cfg);
      hit.Some? ==> hit.value == Fresh(w.db, path, query)
  {
    if cfg.ttl > 0.0 {
      var pruned := Prune(w.entries, readAt, cfg);
      NormalizePathIdempotent(path);
      var _ := PruneBounds(w.entries, readAt, cfg);
      FindIsMember(pruned, Key(api, NormalizePath(path), query));
    }
  }

  /** A list call answers the fresh list, from the cache or not. */
  lemma ListIsFresh(api: int, cfg: Config, w: World, c: Call)
    requires Coherent(api, w) && c.List? && Legal(w, c)
    ensures ListAnswer(api, cfg, w, c).Ok? ==> ListAnswer(api, cfg, w, c).value == Fresh(w.db, c.path, c.query)
  {
    var b := Begin(c.path, c.query, c.limits);
    if b.Ok? {
      HitIsFresh(api, cfg, w, c.path, c.query, c.readAt);
      if WalkFrom(b.value, c.serve, FirstWalk(b.value, c.query)).Ok? {
        HonestListIsExact(b.value, c.serve, w.db(NormalizePath(c.path), FilterMultimap(c.query)),
                          FirstWalk(b.value, c.query));
      }
    }
  }

  lemma ListKeeps(api: int, cfg: Config, w: World, c: Call)
    requires Coherent(api, w) && c.List? && Legal(w, c) && cfg.Valid()
    ensures Coherent(api, After(api, cfg, w, c))
  {
    ListIsFresh(api, cfg, w, c);
    var _ := PruneBounds(w.entries, c.readAt, cfg);
    var pruned, answer := Prune(w.entries, c.readAt, cfg), ListAnswer(api, cfg, w, c);
    NormalizePathIdempotent(c.path);
    if cfg.ttl > 0.0 && answer.Ok? {
      WriteBounds(pruned, ListKey(api, c), answer.value, c.writeAt, cfg);
    }
  }

  /** A list that was fetched is cached: the same call, while the time to live lasts, is answered without the server. */
  lemma {:induction false} FetchedIsCached(api: int, cfg: Config, w: World, c: Call, again: Call)
    requires c.List? && again.List? && cfg.Valid() && DistinctKeys(w.entries)
    requires Lookup(w.entries, ListKey(api, c), c.readAt, cfg).None? && ListAnswer(api, cfg, w, c).Ok?
    requires again.path == c.path && again.query == c.query && again.limits == c.limits
    requires cfg.ttl > 0.0 && again.readAt - c.writeAt < cfg.ttl
    requires cfg.sizeOf(ListAnswer(api, cfg, w, c).value) <= cfg.maxBytes
    ensures Lookup(After(api, cfg, w, c).entries, ListKey(api, again), again.readAt, cfg)
         == Some(ListAnswer(api, cfg, w, c).value)
  {
    var _ := PruneBounds(w.entries, c.readAt, cfg);
    ReadAfterWrite(Prune(w.entries, c.readAt, cfg), ListKey(api, c), ListAnswer(api, cfg, w, c).value, c.writeAt,
                   again.readAt, cfg);
  }

  /** A list that was served from the cache leaves the cache as the prune left it. */
  lemma {:induction false} HitOnlyPrunes(api: int, cfg: Config, w: World, c: Call)
    requires c.List? && Begin(c.path, c.query, c.limits).Ok?
    requires Lookup(w.entries, ListKey(api, c), c.readAt, cfg).Some?
    ensures After(api, cfg, w, c).entries == Prune(w.entries, c.readAt, cfg)
  {
  }

  // ---------------------------------------------------------------- whole runs

  ghost predicate LegalRun(api: int, cfg: Config, w: World, calls: seq<Call>)
    decreases |calls|
  {
    calls != [] ==> Legal(w, calls[0]) && LegalRun(api, cfg, After(api, cfg, w, calls[0]), calls[1..])
  }

  /** Every list call of the run that returns a list returns the fresh one. */
  ghost predicate AlwaysFresh(api: int, cfg: Config, w: World, calls: seq<Call>)
    decreases |calls|
  {
    calls != [] ==>
      && (calls[0].List? && ListAnswer(api, cfg, w, calls[0]).Ok? ==>
            ListAnswer(api, cfg, w, calls[0]).value == Fresh(w.db, calls[0].path, calls[0].query))
      && AlwaysFresh(api, cfg, After(api, cfg, w, calls[0]), calls[1..])
  }

  function AfterAll(api: int, cfg: Config, w: World, calls: seq<Call>): World
    decreases |calls|
  {
    if calls == [] then w else AfterAll(api, cfg, After(api, cfg, w, calls[0]), calls[1..])
  }

  /** The theorem: along any run of list, create, patch, save, delete and bulk calls, made one at a time, the
      cache stays coherent and no call ever returns a stale list. */
  lemma {:induction false} RunsStayCoherent(api: int, cfg: Config, w: World, calls: seq<Call>)
    requires Coherent(api, w) && cfg.Valid() && LegalRun(api, cfg, w, calls)
    ensures AlwaysFresh(api, cfg, w, calls)
    ensures Coherent(api, AfterAll(api, cfg, w, calls))
    decreases |calls|
  {
    if calls != [] {
      if calls[0].List? {
        ListIsFresh(api, cfg, w, calls[0]);
        ListKeeps(api, cfg, w, calls[0]);
      } else {
        WriteKeeps(api, cfg, w, calls[0]);
      }
      RunsStayCoherent(api, cfg, After(api, cfg, w, calls[0]), calls[1..]);
    }
  }

  /** A local bulk write with these answered objects keeps the cache coherent. */
  ghost predicate BulkKeeps(api: int, cfg: Config, path: string, bodies: seq<Body>, w: World, db: Db) {
    Coherent(api, w) && OnlyTouches(w.db, db, path) ==> Coherent(api, After(api, cfg, w, BulkWrite(path, bodies, db)))
  }

  /** A list cached as empty is stale once a first record has appeared. */
  lemma StaleAfter(api: int, path: string) returns (w: World, db: Db)
    ensures Coherent(api, w) && OnlyTouches(w.db, db, path) && !Coherent(api, World(w.entries, db))
  {
    var normalized := NormalizePath(path);
    NormalizePathIdempotent(path);
    var stale := Entry(Key(api, normalized, map[]), 0.0, 0, []);
    var before: Db := (_, _) => [];
    db := (p, _) => if p == normalized then [Record(Int(1), "")] else [];
    w := World([stale], before);
    assert stale in w.entries && stale.records != Fresh(db, normalized, map[]);
  }

  /** A bulk write that succeeds but answers no object invalidates nothing, so a local write keeps the cache
      coherent exactly when the answer holds at least one object. */
  lemma BulkWriteCoherentIff(api: int, cfg: Config, path: string, bodies: seq<Body>)
    requires !IsDetailPath(NormalizePath(path))
    ensures bodies != [] <==> forall w: World, db: Db :: BulkKeeps(api, cfg, path, bodies, w, db)
  {
    if bodies != [] {
      forall w: World, db: Db
        ensures BulkKeeps(api, cfg, path, bodies, w, db)
      {
        if Coherent(api, w) && OnlyTouches(w.db, db, path) { WriteKeeps(api, cfg, w, BulkWrite(path, bodies, db)); }
      }
    } else {
      var w, db := StaleAfter(api, path);
      assert After(api, cfg, w, BulkWrite(path, bodies, db)) == World(w.entries, db);
      assert !BulkKeeps(api, cfg, path, bodies, w, db);
    }
  }
}
