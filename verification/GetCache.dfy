/** The in-memory cache of GET lists: time to live, entry and byte limits, invalidation by path. The
    dictionary is a sequence in insertion order; assigning to a present key keeps its place. */
module GetCache {
  import opened Wrappers
  import opened Text
  import opened Pagination

  datatype Key = Key(api: int, path: string, query: Query)

  datatype Entry = Entry(key: Key, cachedAt: real, size: nat, records: seq<Record>)

  /** Resolved settings; both limits have the minimum the settings layer enforces. */
  datatype Config = Config(ttl: real, maxEntries: nat, maxBytes: nat, sizeOf: seq<Record> -> nat) {
    predicate Valid() { maxEntries >= 1 && maxBytes >= 1024 }
  }

  ghost predicate DistinctKeys(entries: seq<Entry>) {
    forall i, j :: 0 <= i < j < |entries| ==> entries[i].key != entries[j].key
  }

  function Bytes(entries: seq<Entry>): nat {
    if entries == [] then 0 else entries[0].size + Bytes(entries[1..])
  }

  predicate Expired(e: Entry, now: real, ttl: real) { now - e.cachedAt >= ttl }

  function Filter(keep: Entry -> bool, entries: seq<Entry>): (r: seq<Entry>)
    ensures |r| <= |entries|
    ensures forall e :: e in r <==> e in entries && keep(e)
  {
    if entries == [] then [] else
    var rest := Filter(keep, entries[1..]);
    if keep(entries[0]) then [entries[0]] + rest else rest
  }

  lemma {:induction false} FilterDistinct(keep: Entry -> bool, entries: seq<Entry>)
    requires DistinctKeys(entries)
    ensures DistinctKeys(Filter(keep, entries))
  {
    if entries != [] {
      FilterDistinct(keep, entries[1..]);
      var rest := Filter(keep, entries[1..]);
      assert forall j :: 0 <= j < |rest| ==> rest[j] in entries[1..];
    }
  }

  lemma UnexpiredDistinct(entries: seq<Entry>, now: real, ttl: real)
    requires DistinctKeys(entries)
    ensures DistinctKeys(Unexpired(entries, now, ttl))
  {
    FilterDistinct(e => !Expired(e, now, ttl), entries);
  }

  function Unexpired(entries: seq<Entry>, now: real, ttl: real): seq<Entry> {
    Filter(e => !Expired(e, now, ttl), entries)
  }

  function WithoutKey(entries: seq<Entry>, key: Key): seq<Entry> {
    Filter((e: Entry) => e.key != key, entries)
  }

  function Find(entries: seq<Entry>, key: Key): Option<Entry> {
    if entries == [] then None else if entries[0].key == key then Some(entries[0]) else Find(entries[1..], key)
  }

  function Put(entries: seq<Entry>, e: Entry): seq<Entry> {
    if entries == [] then [e]
    else if entries[0].key == e.key then [e] + entries[1..]
    else [entries[0]] + Put(entries[1..], e)
  }

  lemma {:induction false} FindIsMember(entries: seq<Entry>, key: Key)
    ensures Find(entries, key).Some? ==> Find(entries, key).value in entries && Find(entries, key).value.key == key
    ensures Find(entries, key).None? <==> forall e :: e in entries ==> e.key != key
  {
    if entries != [] { FindIsMember(entries[1..], key); }
  }

  /** Putting adds the new entry, drops at most the old one under the same key, and nothing else. */
  lemma {:induction false} PutEffect(entries: seq<Entry>, e: Entry)
    requires DistinctKeys(entries)
    ensures DistinctKeys(Put(entries, e))
    ensures forall x :: x in Put(entries, e) <==> x == e || (x in entries && x.key != e.key)
    ensures |entries| <= |Put(entries, e)| <= |entries| + 1
    ensures Bytes(Put(entries, e)) <= Bytes(entries) + e.size
  {
    if entries != [] {
      var rest := entries[1..];
      if entries[0].key == e.key {
        assert forall x :: x in rest ==> x.key != e.key;
        assert ([e] + rest)[1..] == rest;
      } else {
        PutEffect(rest, e);
        assert ([entries[0]] + Put(rest, e))[1..] == Put(rest, e);
        assert forall x :: x in Put(rest, e) ==> x.key != entries[0].key;
      }
    }
  }

  // ---------------------------------------------------------------- age order

  function InsertByAge(e: Entry, sorted: seq<Entry>): (r: seq<Entry>)
    ensures |r| == |sorted| + 1
  {
    if sorted == [] || e.cachedAt <= sorted[0].cachedAt then [e] + sorted
    else [sorted[0]] + InsertByAge(e, sorted[1..])
  }

  /** A stable sort: oldest first, insertion order among equals. */
  function ByAge(entries: seq<Entry>): (r: seq<Entry>)
    ensures |r| == |entries|
  {
    if entries == [] then [] else InsertByAge(entries[0], ByAge(entries[1..]))
  }

  ghost predicate AgeSorted(entries: seq<Entry>) {
    forall i :: 0 < i < |entries| ==> entries[i - 1].cachedAt <= entries[i].cachedAt
  }

  lemma {:induction false} InsertSorted(e: Entry, sorted: seq<Entry>)
    requires AgeSorted(sorted)
    ensures AgeSorted(InsertByAge(e, sorted))
    ensures InsertByAge(e, sorted)[0] == e || (sorted != [] && InsertByAge(e, sorted)[0] == sorted[0])
  {
    if !(sorted == [] || e.cachedAt <= sorted[0].cachedAt) {
      InsertSorted(e, sorted[1..]);
      var r := InsertByAge(e, sorted);
      assert r[1..] == InsertByAge(e, sorted[1..]);
      forall i | 0 < i < |r| ensures r[i - 1].cachedAt <= r[i].cachedAt {
        if i > 1 { assert r[1..][i - 2].cachedAt <= r[1..][i - 1].cachedAt; }
      }
    }
  }

  lemma {:induction false} InsertMembers(e: Entry, sorted: seq<Entry>)
    ensures multiset(InsertByAge(e, sorted)) == multiset(sorted) + multiset{e}
  {
    if !(sorted == [] || e.cachedAt <= sorted[0].cachedAt) {
      InsertMembers(e, sorted[1..]);
      assert sorted == [sorted[0]] + sorted[1..];
    }
  }

  lemma {:induction false} InsertBytes(e: Entry, sorted: seq<Entry>)
    ensures Bytes(InsertByAge(e, sorted)) == e.size + Bytes(sorted)
  {
    var r := InsertByAge(e, sorted);
    if sorted == [] || e.cachedAt <= sorted[0].cachedAt {
      assert r[1..] == sorted;
    } else {
      InsertBytes(e, sorted[1..]);
      assert r[1..] == InsertByAge(e, sorted[1..]);
    }
  }

  lemma {:induction false} ByAgeSorted(entries: seq<Entry>)
    ensures AgeSorted(ByAge(entries))
  {
    if entries != [] {
      ByAgeSorted(entries[1..]);
      InsertSorted(entries[0], ByAge(entries[1..]));
    }
  }

  lemma {:induction false} ByAgeMembers(entries: seq<Entry>)
    ensures multiset(ByAge(entries)) == multiset(entries)
  {
    if entries != [] {
      ByAgeMembers(entries[1..]);
      InsertMembers(entries[0], ByAge(entries[1..]));
      assert entries == [entries[0]] + entries[1..];
    }
  }

  lemma {:induction false} ByAgeBytes(entries: seq<Entry>)
    ensures Bytes(ByAge(entries)) == Bytes(entries)
  {
    if entries != [] {
      ByAgeBytes(entries[1..]);
      InsertBytes(entries[0], ByAge(entries[1..]));
    }
  }

  /** Age order rearranges the entries and orders them by age. */
  lemma {:induction false} ByAgeEffect(entries: seq<Entry>)
    ensures AgeSorted(ByAge(entries))
    ensures multiset(ByAge(entries)) == multiset(entries)
    ensures Bytes(ByAge(entries)) == Bytes(entries)
  {
    ByAgeSorted(entries);
    ByAgeMembers(entries);
    ByAgeBytes(entries);
  }

  /** The place of the oldest entry, the first one among equals. */
  function OldestIndex(entries: seq<Entry>): (k: nat)
    requires entries != []
    ensures k < |entries|
    ensures forall i :: 0 <= i < |entries| ==> entries[k].cachedAt <= entries[i].cachedAt
    ensures forall i :: 0 <= i < k ==> entries[k].cachedAt < entries[i].cachedAt
  {
    if |entries| == 1 then 0 else
    var rest := entries[1..];
    var k := OldestIndex(rest);
    assert forall i :: 1 <= i < |entries| ==> entries[i] == rest[i - 1];
    if entries[0].cachedAt <= rest[k].cachedAt then 0 else k + 1
  }

  function RemoveAt(entries: seq<Entry>, k: nat): seq<Entry>
    requires k < |entries|
  {
    entries[..k] + entries[k + 1..]
  }

  lemma RemoveLater(entries: seq<Entry>, k: nat)
    requires 0 < k < |entries|
    ensures RemoveAt(entries, k) != [] && RemoveAt(entries, k)[0] == entries[0]
    ensures RemoveAt(entries, k)[1..] == RemoveAt(entries[1..], k - 1)
  {
    assert RemoveAt(entries, k) == [entries[0]] + RemoveAt(entries[1..], k - 1);
  }

  /** Taking out the oldest entry takes the head off the age order. */
  lemma {:induction false} RemoveOldest(entries: seq<Entry>)
    requires entries != []
    ensures ByAge(RemoveAt(entries, OldestIndex(entries))) == ByAge(entries)[1..]
    ensures ByAge(entries)[0] == entries[OldestIndex(entries)]
  {
    var rest := entries[1..];
    if |entries| == 1 {
      assert RemoveAt(entries, 0) == [];
    } else {
      RemoveOldest(rest);
      var k := OldestIndex(entries);
      if k == 0 {
        assert RemoveAt(entries, 0) == rest;
      } else {
        RemoveLater(entries, k);
      }
    }
  }

  lemma {:induction false} BytesSplit(a: seq<Entry>, b: seq<Entry>)
    ensures Bytes(a + b) == Bytes(a) + Bytes(b)
  {
    if a == [] {
      assert a + b == b;
    } else {
      BytesSplit(a[1..], b);
      assert (a + b)[1..] == a[1..] + b;
    }
  }

  /** The cache without its oldest entry. */
  function DropOldest(entries: seq<Entry>): (r: seq<Entry>)
    requires entries != []
    ensures |r| == |entries| - 1
  {
    RemoveAt(entries, OldestIndex(entries))
  }

  lemma {:induction false} DropOldestEffect(entries: seq<Entry>)
    requires entries != [] && DistinctKeys(entries)
    ensures DistinctKeys(DropOldest(entries))
    ensures forall e :: e in DropOldest(entries) ==> e in entries
    ensures Bytes(DropOldest(entries)) == Bytes(entries) - entries[OldestIndex(entries)].size
    ensures ByAge(DropOldest(entries)) == ByAge(entries)[1..]
  {
    RemoveAtBytes(entries, OldestIndex(entries));
    RemoveOldest(entries);
  }

  lemma {:induction false} RemoveAtBytes(entries: seq<Entry>, k: nat)
    requires k < |entries|
    ensures Bytes(RemoveAt(entries, k)) == Bytes(entries) - entries[k].size
  {
    BytesSplit(entries[..k], entries[k + 1..]);
    BytesSplit(entries[..k], entries[k..]);
    assert entries == entries[..k] + entries[k..];
    assert entries[k..][1..] == entries[k + 1..];
  }

  // ---------------------------------------------------------------- writing

  predicate MustEvict(entries: seq<Entry>, size: nat, cfg: Config) {
    |entries| >= cfg.maxEntries || Bytes(entries) + size > cfg.maxBytes
  }

  /** Evicts the oldest entry while there is no room, and stops at an empty cache. */
  function MakeRoom(entries: seq<Entry>, size: nat, cfg: Config): seq<Entry> {
    if entries == [] || !MustEvict(entries, size, cfg) then entries
    else MakeRoom(DropOldest(entries), size, cfg)
  }

  function Write(entries: seq<Entry>, key: Key, records: seq<Record>, now: real, cfg: Config): seq<Entry> {
    if cfg.ttl <= 0.0 then entries else
    var size := cfg.sizeOf(records);
    Put(MakeRoom(Unexpired(entries, now, cfg.ttl), size, cfg), Entry(key, now, size, records))
  }

  lemma {:induction false} MakeRoomFits(entries: seq<Entry>, size: nat, cfg: Config)
    requires DistinctKeys(entries)
    ensures var r := MakeRoom(entries, size, cfg);
      && DistinctKeys(r)
      && (forall e :: e in r ==> e in entries)
      && (r == [] || !MustEvict(r, size, cfg))
    decreases |entries|
  {
    if entries != [] && MustEvict(entries, size, cfg) {
      DropOldestEffect(entries);
      MakeRoomFits(DropOldest(entries), size, cfg);
    }
  }

  /** There is no room yet after evicting `m` entries. */
  ghost predicate StillFull(sorted: seq<Entry>, m: nat, size: nat, cfg: Config) {
    m <= |sorted| && (|sorted| - m >= cfg.maxEntries || Bytes(sorted[m..]) + size > cfg.maxBytes)
  }

  /** Eviction removes the shortest oldest-first prefix that makes room. */
  lemma {:induction false} MakeRoomOldestFirst(entries: seq<Entry>, size: nat, cfg: Config) returns (n: nat)
    requires DistinctKeys(entries)
    ensures n <= |entries| && ByAge(MakeRoom(entries, size, cfg)) == ByAge(entries)[n..]
    ensures forall m :: 0 <= m < n ==> StillFull(ByAge(entries), m, size, cfg)
    decreases |entries|
  {
    n := 0;
    var sorted := ByAge(entries);
    assert sorted[0..] == sorted;
    if entries != [] && MustEvict(entries, size, cfg) {
      ByAgeEffect(entries);
      DropOldestEffect(entries);
      n := MakeRoomOldestFirst(DropOldest(entries), size, cfg);
      assert sorted[1..][n..] == sorted[n + 1..];
      forall m | 0 <= m < n + 1
        ensures StillFull(sorted, m, size, cfg)
      {
        if m > 0 {
          assert StillFull(sorted[1..], m - 1, size, cfg);
          assert sorted[1..][m - 1..] == sorted[m..];
        }
      }
      n := n + 1;
    }
  }

  /** After a write with a positive time to live the limits hold, except that a single entry larger than
      the byte limit is kept alone; the entry written is there and the others were there before. */
  lemma WriteBounds(entries: seq<Entry>, key: Key, records: seq<Record>, now: real, cfg: Config)
    requires cfg.Valid() && cfg.ttl > 0.0 && DistinctKeys(entries)
    ensures var r, e := Write(entries, key, records, now, cfg), Entry(key, now, cfg.sizeOf(records), records);
      && DistinctKeys(r)
      && |r| <= cfg.maxEntries
      && (Bytes(r) <= cfg.maxBytes || (r == [e] && e.size > cfg.maxBytes))
      && e in r
      && (forall x :: x in r && x != e ==> x in entries && x.key != key && !Expired(x, now, cfg.ttl))
  {
    var size := cfg.sizeOf(records);
    var live := Unexpired(entries, now, cfg.ttl);
    UnexpiredDistinct(entries, now, cfg.ttl);
    MakeRoomFits(live, size, cfg);
    var room := MakeRoom(live, size, cfg);
    PutEffect(room, Entry(key, now, size, records));
  }

  /** And a write keeps everything there is room for: all entries under other keys that the eviction left. */
  lemma {:induction false} WriteKeepsRest(
    entries: seq<Entry>, key: Key, records: seq<Record>, now: real, cfg: Config, x: Entry)
    requires cfg.ttl > 0.0 && DistinctKeys(entries)
    requires x in MakeRoom(Unexpired(entries, now, cfg.ttl), cfg.sizeOf(records), cfg) && x.key != key
    ensures x in Write(entries, key, records, now, cfg)
  {
    var size, live := cfg.sizeOf(records), Unexpired(entries, now, cfg.ttl);
    UnexpiredDistinct(entries, now, cfg.ttl);
    MakeRoomFits(live, size, cfg);
    PutEffect(MakeRoom(live, size, cfg), Entry(key, now, size, records));
  }

  // ---------------------------------------------------------------- pruning

  function Over(n: int, limit: int): nat { if n > limit then n - limit else 0 }

  function NextCount(byCount: nat): nat { if byCount > 0 then byCount - 1 else 0 }

  function NextBytes(byCount: nat, byBytes: int, popped: Entry): int {
    if byCount > 0 then byBytes else byBytes - popped.size
  }

  /** The pruning loop: it pops the oldest entries, `byCount` of them for the entry limit and then more until
      `byBytes` bytes are gone. */
  function PopOldest(entries: seq<Entry>, byCount: nat, byBytes: int): seq<Entry> {
    if entries == [] || (byCount == 0 && byBytes <= 0) then entries
    else PopOldest(DropOldest(entries), NextCount(byCount), NextBytes(byCount, byBytes, entries[OldestIndex(entries)]))
  }

  function Prune(entries: seq<Entry>, now: real, cfg: Config): seq<Entry> {
    if cfg.ttl <= 0.0 then [] else
    var live := Unexpired(entries, now, cfg.ttl);
    PopOldest(live, Over(|live|, cfg.maxEntries), Over(Bytes(live), cfg.maxBytes))
  }

  /** How many entries the pruning loop takes: those for the entry limit first, and after them just as many as bring
      the bytes it still has to free. */
  ghost predicate JustEnough(sorted: seq<Entry>, n: nat, byCount: nat, byBytes: int) {
    && n <= |sorted|
    && (n < |sorted| ==> byCount <= n && byBytes <= Bytes(sorted[byCount..n]))
    && (n > byCount ==> Bytes(sorted[byCount..n - 1]) < byBytes)
  }

  /** The bytes of the first `n` entries are those of the first and of the next ones. */
  lemma {:induction false} FirstBytes(sorted: seq<Entry>, n: nat)
    requires 0 < n <= |sorted|
    ensures Bytes(sorted[0..n]) == sorted[0].size + Bytes(sorted[1..][0..n - 1])
  {
    var head := sorted[0..n];
    assert head[0] == sorted[0];
    assert head[1..] == sorted[1..][0..n - 1];
  }

  lemma {:induction false} JustEnoughLater(sorted: seq<Entry>, m: nat, byCount: nat, byBytes: int)
    requires sorted != [] && (byCount > 0 || byBytes > 0)
    requires JustEnough(sorted[1..], m, NextCount(byCount), NextBytes(byCount, byBytes, sorted[0]))
    ensures JustEnough(sorted, m + 1, byCount, byBytes)
  {
    var n, rest := m + 1, sorted[1..];
    if byCount > 0 {
      if byCount <= n { assert sorted[byCount..n] == rest[byCount - 1..m]; }
      if byCount < n { assert sorted[byCount..n - 1] == rest[byCount - 1..m - 1]; }
    } else {
      FirstBytes(sorted, n);
      if m > 0 { FirstBytes(sorted, m); }
    }
  }

  lemma {:induction false} PopOldestPrefix(entries: seq<Entry>, byCount: nat, byBytes: int) returns (n: nat)
    requires DistinctKeys(entries)
    ensures n <= |entries| && ByAge(PopOldest(entries, byCount, byBytes)) == ByAge(entries)[n..]
    ensures JustEnough(ByAge(entries), n, byCount, byBytes)
    decreases |entries|
  {
    var sorted := ByAge(entries);
    if entries == [] || (byCount == 0 && byBytes <= 0) {
      n := 0;
      assert sorted[0..] == sorted;
    } else {
      var rest, oldest := DropOldest(entries), entries[OldestIndex(entries)];
      DropOldestEffect(entries);
      RemoveOldest(entries);
      var m := PopOldestPrefix(rest, NextCount(byCount), NextBytes(byCount, byBytes, oldest));
      n := m + 1;
      assert sorted[1..][m..] == sorted[n..];
      JustEnoughLater(sorted, m, byCount, byBytes);
    }
  }

  lemma {:induction false} PopOldestSizes(entries: seq<Entry>, byCount: nat, byBytes: int)
    ensures |PopOldest(entries, byCount, byBytes)| <= Over(|entries|, byCount)
    ensures Bytes(PopOldest(entries, byCount, byBytes)) <= Over(Bytes(entries), Over(byBytes, 0))
    decreases |entries|
  {
    if !(entries == [] || (byCount == 0 && byBytes <= 0)) {
      var oldest := entries[OldestIndex(entries)];
      RemoveAtBytes(entries, OldestIndex(entries));
      PopOldestSizes(DropOldest(entries), NextCount(byCount), NextBytes(byCount, byBytes, oldest));
    }
  }

  lemma {:induction false} PopOldestMembers(entries: seq<Entry>, byCount: nat, byBytes: int)
    requires DistinctKeys(entries)
    ensures DistinctKeys(PopOldest(entries, byCount, byBytes))
    ensures forall e :: e in PopOldest(entries, byCount, byBytes) ==> e in entries
    decreases |entries|
  {
    if !(entries == [] || (byCount == 0 && byBytes <= 0)) {
      var rest, oldest := DropOldest(entries), entries[OldestIndex(entries)];
      DropOldestEffect(entries);
      PopOldestMembers(rest, NextCount(byCount), NextBytes(byCount, byBytes, oldest));
    }
  }

  /** After a prune nothing is expired, both limits hold outright, and what the limits removed is an
      oldest-first prefix of the unexpired entries. */
  lemma PruneBounds(entries: seq<Entry>, now: real, cfg: Config) returns (n: nat)
    requires DistinctKeys(entries)
    ensures var r := Prune(entries, now, cfg);
      && DistinctKeys(r)
      && (forall e :: e in r ==> e in entries && !Expired(e, now, cfg.ttl))
      && |r| <= cfg.maxEntries && Bytes(r) <= cfg.maxBytes
      && (cfg.ttl > 0.0 ==> var live := Unexpired(entries, now, cfg.ttl);
            && n <= |live| && ByAge(r) == ByAge(live)[n..]
            && JustEnough(ByAge(live), n, Over(|live|, cfg.maxEntries), Over(Bytes(live), cfg.maxBytes)))
  {
    var live := Unexpired(entries, now, cfg.ttl);
    UnexpiredDistinct(entries, now, cfg.ttl);
    PopOldestSizes(live, Over(|live|, cfg.maxEntries), Over(Bytes(live), cfg.maxBytes));
    PopOldestMembers(live, Over(|live|, cfg.maxEntries), Over(Bytes(live), cfg.maxBytes));
    n := PopOldestPrefix(live, Over(|live|, cfg.maxEntries), Over(Bytes(live), cfg.maxBytes));
  }

  // ---------------------------------------------------------------- invalidation

  predicate IsDetailPath(path: string) { IsDigits(LastSegment(StripSlash(path))) }

  function ListPathOf(path: string): string {
    var stripped := StripSlash(NormalizePath(path));
    if IsDigits(LastSegment(stripped)) then "/" + BeforeLastSegment(stripped) + "/" else NormalizePath(path)
  }

  predicate Drops(normalized: string, api: int, key: Key) {
    && key.api == api
    && (|| key.path == normalized
        || (IsDetailPath(normalized) && key.path == ListPathOf(normalized))
        || (!IsDetailPath(normalized) && normalized <= key.path && IsDigits(StripSlash(key.path[|normalized|..]))))
  }

  function Invalidate(entries: seq<Entry>, api: int, path: string): seq<Entry> {
    Filter((e: Entry) => !Drops(NormalizePath(path), api, e.key), entries)
  }

  /** A response body, as far as invalidation reads it: the path of its URL and its id. */
  datatype Body = Body(urlPath: Option<string>, id: Option<Scalar>)

  function DetailPath(listPath: string, id: Scalar): string { NormalizePath(listPath) + ScalarText(id) + "/" }

  function InvalidateRecord(entries: seq<Entry>, api: int, listPath: string, body: Body): seq<Entry> {
    var listGone := Invalidate(entries, api, listPath);
    var urlGone := if body.urlPath.Some? && body.urlPath.value != "" then Invalidate(listGone, api, body.urlPath.value)
                   else listGone;
    if body.id.Some? && body.id.value != Nil then Invalidate(urlGone, api, DetailPath(listPath, body.id.value))
    else urlGone
  }

  /** Forgetting a path forgets what is cached under that very path. */
  lemma {:induction false} InvalidateForgets(entries: seq<Entry>, api: int, path: string, e: Entry)
    requires e in Invalidate(entries, api, path) && e.key.api == api
    ensures e.key.path != NormalizePath(path) && e in entries
  {
  }

  /** Forgetting a record forgets its list, the path of its URL and the detail path its id gives, and no other client's
      entries. */
  lemma {:induction false} InvalidateRecordCovers(
    entries: seq<Entry>, api: int, listPath: string, body: Body, e: Entry)
    ensures e in InvalidateRecord(entries, api, listPath, body) && e.key.api == api ==>
      && e in entries
      && e.key.path != NormalizePath(listPath)
      && (body.urlPath.Some? && body.urlPath.value != "" ==> e.key.path != NormalizePath(body.urlPath.value))
      && (body.id.Some? && body.id.value != Nil ==>
            e.key.path != NormalizePath(NormalizePath(listPath) + ScalarText(body.id.value) + "/"))
    ensures e in entries && e.key.api != api ==> e in InvalidateRecord(entries, api, listPath, body)
  {
  }

  /** The paths a write under a list path can change: the list itself and the detail of one of its records. */
  ghost predicate Touches(listPath: string, path: string) {
    || path == listPath
    || exists digits :: IsDigits(digits) && path == listPath + digits + "/"
  }

  lemma StripOuter(body: string)
    requires body != "" && body[0] != '/' && body[|body| - 1] != '/'
    ensures StripSlash(body + "/") == body && StripSlash("/" + body + "/") == body
  {
    var s, t := body + "/", "/" + body + "/";
    assert s[|s| - 1] == '/' && s[..|s| - 1] == body;
    assert t[0] == '/' && t[1..] == s && s[0] == body[0];
    assert StripSlashLeft(s) == s && StripSlashLeft(t) == StripSlashLeft(s);
    assert StripSlashRight(body) == body && StripSlashRight(s) == StripSlashRight(body);
  }

  /** Invalidating a list path removes every entry a write under it can make stale. */
  lemma InvalidateCovers(entries: seq<Entry>, api: int, path: string)
    requires !IsDetailPath(NormalizePath(path))
    ensures forall e :: e in Invalidate(entries, api, path) && e.key.api == api ==>
      !Touches(NormalizePath(path), e.key.path)
  {
    var normalized := NormalizePath(path);
    forall e | e in Invalidate(entries, api, path) && e.key.api == api
      ensures !Touches(normalized, e.key.path)
    {
      forall digits | IsDigits(digits)
        ensures e.key.path != normalized + digits + "/"
      {
        assert IsDigit(digits[0]) && IsDigit(digits[|digits| - 1]);
        StripOuter(digits);
        assert (normalized + digits + "/")[|normalized|..] == digits + "/";
      }
    }
  }

  ghost predicate NoDoubleSlash(s: string) { forall i :: 0 < i < |s| ==> s[i - 1] != '/' || s[i] != '/' }

  /** For a list path and well-formed cached paths it removes nothing else either. */
  lemma InvalidateExactly(entries: seq<Entry>, api: int, path: string, e: Entry)
    requires !IsDetailPath(NormalizePath(path)) && e in entries
    requires e.key.path == NormalizePath(e.key.path) && NoDoubleSlash(e.key.path)
    ensures e in Invalidate(entries, api, path) <==> !(e.key.api == api && Touches(NormalizePath(path), e.key.path))
  {
    InvalidateCovers(entries, api, path);
    if Drops(NormalizePath(path), api, e.key) && e.key.path != NormalizePath(path) {
      ChildTouched(NormalizePath(path), e.key.path);
    }
  }

  /** A well-formed path below a list path, with nothing but digits and slashes after it, is a detail path. */
  lemma ChildTouched(list: string, cached: string)
    requires list != "" && list[|list| - 1] == '/' && list <= cached && IsDigits(StripSlash(cached[|list|..]))
    requires cached[|cached| - 1] == '/' && NoDoubleSlash(cached)
    ensures Touches(list, cached)
  {
    var rest := cached[|list|..];
    assert rest != "" by { assert !IsDigits(StripSlash("")); }
    assert cached[|list| - 1] == '/' && rest[0] == cached[|list|] != '/';
    var body := rest[..|rest| - 1];
    assert rest[|rest| - 1] == cached[|cached| - 1] == '/';
    assert body[|body| - 1] == cached[|cached| - 2] != '/';
    assert rest == body + "/" && body[0] == rest[0];
    StripOuter(body);
    assert cached == list + body + "/";
  }

  lemma {:induction false} SegmentsSplit(list: string, digits: string)
    requires forall i :: 0 <= i < |digits| ==> IsDigit(digits[i])
    ensures LastSegment(list + "/" + digits) == digits
    ensures BeforeLastSegment(list + "/" + digits) == list
  {
    var s := list + "/" + digits;
    if digits == "" {
      assert s[..|s| - 1] == list;
    } else {
      assert s[..|s| - 1] == list + "/" + digits[..|digits| - 1];
      assert IsDigit(digits[|digits| - 1]) && s[|s| - 1] == digits[|digits| - 1];
      SegmentsSplit(list, digits[..|digits| - 1]);
    }
  }

  /** Invalidating the detail path of a record forgets that detail and the list it belongs to. */
  lemma InvalidateDetailCovers(entries: seq<Entry>, api: int, list: string, digits: string)
    requires list != "" && list[0] != '/' && list[|list| - 1] != '/' && IsDigits(digits)
    ensures var detail := "/" + list + "/" + digits + "/";
      forall e :: e in Invalidate(entries, api, detail) && e.key.api == api ==>
        e.key.path != detail && e.key.path != "/" + list + "/"
  {
    var detail, inner := "/" + list + "/" + digits + "/", list + "/" + digits;
    TrimIsTrimmed(detail);
    assert NormalizePath(detail) == detail;
    assert inner[0] == list[0] && IsDigit(digits[|digits| - 1]) && inner[|inner| - 1] == digits[|digits| - 1];
    StripOuter(inner);
    assert detail == "/" + inner + "/";
    SegmentsSplit(list, digits);
  }

  /** Without the condition it fails: under a list path that ends in digits the code takes the path for a
      detail path, and a cached detail below it survives. So covering holds exactly for the other paths. */
  lemma InvalidateCoversIff(api: int, path: string)
    ensures !IsDetailPath(NormalizePath(path)) <==>
      forall entries: seq<Entry> :: forall e :: e in Invalidate(entries, api, path) && e.key.api == api ==>
        !Touches(NormalizePath(path), e.key.path)
  {
    var normalized := NormalizePath(path);
    if IsDetailPath(normalized) {
      var stale := Entry(Key(api, normalized + "7" + "/", map[]), 0.0, 0, []);
      assert IsDigits("7") && Touches(normalized, stale.key.path);
      ParentIsShorter(normalized);
      NormalizePathIdempotent(path);
      assert !Drops(normalized, api, stale.key);
      assert stale in Invalidate([stale], api, path);
    } else {
      forall entries: seq<Entry>
        ensures forall e :: e in Invalidate(entries, api, path) && e.key.api == api ==>
          !Touches(normalized, e.key.path)
      {
        InvalidateCovers(entries, api, path);
      }
    }
  }

  lemma {:induction false} ParentIsShorter(path: string)
    requires path != "" && path[0] == '/'
    ensures |BeforeLastSegment(StripSlash(path))| <= |StripSlash(path)| < |path|
  {
    LeftShorter(path[1..]);
    RightShorter(StripSlashLeft(path));
    BeforeShorter(StripSlash(path));
  }

  lemma {:induction false} LeftShorter(s: string)
    ensures |StripSlashLeft(s)| <= |s|
    decreases |s|
  {
    if s != "" && s[0] == '/' { LeftShorter(s[1..]); }
  }

  lemma {:induction false} RightShorter(s: string)
    ensures |StripSlashRight(s)| <= |s|
    decreases |s|
  {
    if s != "" && s[|s| - 1] == '/' { RightShorter(s[..|s| - 1]); }
  }

  lemma {:induction false} BeforeShorter(s: string)
    ensures |BeforeLastSegment(s)| <= |s|
    decreases |s|
  {
    if s != "" && s[|s| - 1] != '/' { BeforeShorter(s[..|s| - 1]); }
  }

  // ---------------------------------------------------------------- the cache object

  /** The module-level cache and its counters, updated in place. */
  class Cache {
    var entries: seq<Entry>
    var hits: nat
    var misses: nat
    var invalidations: nat
    var evictionsTtl: nat
    var evictionsSize: nat
    var evictionsBytes: nat

    ghost predicate Valid()
      reads this
    {
      DistinctKeys(entries)
    }

    constructor ()
      ensures Valid() && entries == []
      ensures hits == misses == invalidations == evictionsTtl == evictionsSize == evictionsBytes == 0
    {
      entries := [];
      hits, misses, invalidations, evictionsTtl, evictionsSize, evictionsBytes := 0, 0, 0, 0, 0, 0;
    }

    /** The pruning loop: it walks the age order and pops until both limits are met. */
    method EvictDown(countToEvict: nat, bytesToEvict: nat)
      requires Valid()
      modifies this`entries
      ensures Valid() && entries == PopOldest(old(entries), countToEvict, bytesToEvict)
    {
      var sorted := ByAge(entries);
      var held, byCount: nat, byBytes: int, i := entries, countToEvict, bytesToEvict, 0;
      ghost var target := PopOldest(held, byCount, byBytes);
      while i < |sorted| && (byCount > 0 || byBytes > 0)
        invariant Popping(held, sorted, i, byCount, byBytes, target)
      {
        PopStep(held, sorted, i, byCount, byBytes, target);
        held := WithoutKey(held, sorted[i].key);
        byCount, byBytes := NextCount(byCount), NextBytes(byCount, byBytes, sorted[i]);
        i := i + 1;
      }
      PopDone(held, sorted, i, byCount, byBytes, target);
      entries := held;
    }

    /** Pruning as a read does it, without counting. */
    method PruneNow(now: real, cfg: Config)
      requires Valid()
      modifies this`entries
      ensures Valid() && entries == Prune(old(entries), now, cfg)
    {
      if cfg.ttl <= 0.0 {
        entries := [];
      } else {
        UnexpiredDistinct(entries, now, cfg.ttl);
        entries := Unexpired(entries, now, cfg.ttl);
        EvictDown(Over(|entries|, cfg.maxEntries), Over(Bytes(entries), cfg.maxBytes));
      }
    }

    /** Serves an unexpired entry, and counts the hit or the miss. */
    method Read(key: Key, now: real, cfg: Config) returns (r: Option<seq<Record>>)
      requires Valid()
      modifies this`entries, this`hits, this`misses
      ensures Valid() && entries == Prune(old(entries), now, cfg)
      ensures r == Lookup(old(entries), key, now, cfg)
      ensures cfg.ttl > 0.0 ==> hits + misses == old(hits + misses) + 1 && (hits > old(hits) <==> r.Some?)
    {
      PruneNow(now, cfg);
      if cfg.ttl <= 0.0 { return None; }
      var entry := Find(entries, key);
      if entry.None? {
        misses := misses + 1;
        return None;
      }
      hits := hits + 1;
      return Some(entry.value.records);
    }

    /** Stores a list; the loop evicts the oldest entries, keeping a running total of the bytes held. */
    method Store(key: Key, records: seq<Record>, now: real, cfg: Config)
      requires Valid() && cfg.Valid()
      modifies this`entries, this`evictionsTtl, this`evictionsSize, this`evictionsBytes
      ensures Valid() && entries == Write(old(entries), key, records, now, cfg)
      ensures cfg.ttl > 0.0 ==> var live := Unexpired(old(entries), now, cfg.ttl);
        && evictionsTtl == old(evictionsTtl) + |old(entries)| - |live|
        && evictionsSize + |MakeRoom(live, cfg.sizeOf(records), cfg)| == old(evictionsSize) + |live|
        && evictionsBytes + Bytes(MakeRoom(live, cfg.sizeOf(records), cfg)) == old(evictionsBytes) + Bytes(live)
      ensures cfg.ttl <= 0.0 ==>
        (evictionsTtl, evictionsSize, evictionsBytes) == old((evictionsTtl, evictionsSize, evictionsBytes))
    {
      if cfg.ttl <= 0.0 { return; }
      var size := cfg.sizeOf(records);
      ghost var before := entries;
      var live := Unexpired(entries, now, cfg.ttl);
      UnexpiredDistinct(entries, now, cfg.ttl);
      evictionsTtl := evictionsTtl + (|entries| - |live|);
      entries := live;
      var currentBytes: int := Bytes(entries);
      while entries != [] && (|entries| >= cfg.maxEntries || currentBytes + size > cfg.maxBytes)
        invariant DistinctKeys(entries)
        invariant currentBytes == Bytes(entries)
        invariant MakeRoom(entries, size, cfg) == MakeRoom(live, size, cfg)
        invariant evictionsTtl == old(evictionsTtl) + |before| - |live|
        invariant evictionsSize + |entries| == old(evictionsSize) + |live|
        invariant evictionsBytes + Bytes(entries) == old(evictionsBytes) + Bytes(live)
        decreases |entries|
      {
        var oldest := entries[OldestIndex(entries)];
        DropOldestEffect(entries);
        PopByKey(entries, OldestIndex(entries));
        entries := WithoutKey(entries, oldest.key);
        currentBytes := currentBytes - oldest.size;
        evictionsSize := evictionsSize + 1;
        evictionsBytes := evictionsBytes + oldest.size;
      }
      PutEffect(entries, Entry(key, now, size, records));
      entries := Put(entries, Entry(key, now, size, records));
    }

    /** Forgets every entry the path may have made stale. */
    method InvalidatePath(api: int, path: string)
      requires Valid()
      modifies this`entries, this`invalidations
      ensures Valid() && entries == Invalidate(old(entries), api, path)
      ensures invalidations == old(invalidations) + |old(entries)| - |entries|
    {
      var normalized := NormalizePath(path);
      var kept: seq<Entry>, i := [], 0;
      while i < |entries|
        invariant 0 <= i <= |entries|
        invariant kept + Invalidate(entries[i..], api, path) == Invalidate(entries, api, path)
      {
        assert entries[i..][1..] == entries[i + 1..];
        if !Drops(normalized, api, entries[i].key) { kept := kept + [entries[i]]; }
        i := i + 1;
      }
      assert kept == Invalidate(entries, api, path);
      FilterDistinct((e: Entry) => !Drops(normalized, api, e.key), entries);
      invalidations := invalidations + (|entries| - |kept|);
      entries := kept;
    }
  }

  /** What a read answers: the entry under the key, if the prune keeps it. */
  function Lookup(entries: seq<Entry>, key: Key, now: real, cfg: Config): Option<seq<Record>> {
    if cfg.ttl <= 0.0 then None else
    match Find(Prune(entries, now, cfg), key)
    case None => None
    case Some(e) => Some(e.records)
  }

  lemma {:induction false} FilterBytes(keep: Entry -> bool, entries: seq<Entry>)
    ensures Bytes(Filter(keep, entries)) <= Bytes(entries)
  {
    if entries != [] {
      FilterBytes(keep, entries[1..]);
      var rest := Filter(keep, entries[1..]);
      assert ([entries[0]] + rest)[1..] == rest;
    }
  }

  lemma {:induction false} MemberBytes(entries: seq<Entry>, e: Entry)
    requires e in entries
    ensures e.size <= Bytes(entries)
  {
    if e != entries[0] { MemberBytes(entries[1..], e); }
  }

  /** Within its limits a cache loses nothing but expired entries to a prune. */
  lemma {:induction false} PruneWithinLimits(entries: seq<Entry>, now: real, cfg: Config)
    requires cfg.ttl > 0.0 && |entries| <= cfg.maxEntries && Bytes(entries) <= cfg.maxBytes
    ensures Prune(entries, now, cfg) == Unexpired(entries, now, cfg.ttl)
  {
    FilterBytes(e => !Expired(e, now, cfg.ttl), entries);
  }

  /** A single entry larger than the byte limit does not survive a prune. */
  lemma PruneOversized(e: Entry, now: real, cfg: Config)
    requires cfg.ttl > 0.0 && e.size > cfg.maxBytes
    ensures Prune([e], now, cfg) == []
  {
    var _ := PruneBounds([e], now, cfg);
    var pruned := Prune([e], now, cfg);
    assert pruned != [] ==> pruned[0] in pruned;
    forall x | x in pruned ensures x.size <= Bytes(pruned) { MemberBytes(pruned, x); }
  }

  lemma {:induction false} FindTheOne(entries: seq<Entry>, e: Entry)
    requires forall x :: x in entries && x != e ==> x.key != e.key
    ensures Find(entries, e.key) == if e in entries then Some(e) else None
  {
    FindIsMember(entries, e.key);
  }

  /** Reading after writing: a list just stored, empty or not, is served exactly while its time to live lasts and
      if it fits the byte limit. */
  lemma ReadAfterWrite(entries: seq<Entry>, key: Key, records: seq<Record>, wrote: real, now: real, cfg: Config)
    requires cfg.Valid() && DistinctKeys(entries)
    ensures Lookup(Write(entries, key, records, wrote, cfg), key, now, cfg) ==
      if cfg.ttl > 0.0 && now - wrote < cfg.ttl && cfg.sizeOf(records) <= cfg.maxBytes then Some(records) else None
  {
    if cfg.ttl > 0.0 {
      var written, e := Write(entries, key, records, wrote, cfg), Entry(key, wrote, cfg.sizeOf(records), records);
      WriteBounds(entries, key, records, wrote, cfg);
      if e.size <= cfg.maxBytes {
        PruneWithinLimits(written, now, cfg);
        FindTheOne(Unexpired(written, now, cfg.ttl), e);
      } else {
        MemberBytes(written, e);
        PruneOversized(e, now, cfg);
      }
    }
  }

  /** The pruning loop's invariant: the entries held are those of the age order from `i` on, and popping the
      rest of the way from here gives what popping from the start would. */
  ghost predicate Popping(
    held: seq<Entry>, sorted: seq<Entry>, i: nat, byCount: nat, byBytes: int, target: seq<Entry>)
  {
    && i <= |sorted|
    && DistinctKeys(held)
    && ByAge(held) == sorted[i..]
    && PopOldest(held, byCount, byBytes) == target
  }

  lemma PopDone(held: seq<Entry>, sorted: seq<Entry>, i: nat, byCount: nat, byBytes: int, target: seq<Entry>)
    requires Popping(held, sorted, i, byCount, byBytes, target)
    requires i == |sorted| || (byCount == 0 && byBytes <= 0)
    ensures held == target && DistinctKeys(held)
  {
  }

  /** One turn of the pruning loop: the head of the age order is the oldest entry held. */
  lemma PopStep(held: seq<Entry>, sorted: seq<Entry>, i: nat, byCount: nat, byBytes: int, target: seq<Entry>)
    requires i < |sorted| && Popping(held, sorted, i, byCount, byBytes, target)
    requires byCount > 0 || byBytes > 0
    ensures Popping(WithoutKey(held, sorted[i].key), sorted, i + 1,
                    NextCount(byCount), NextBytes(byCount, byBytes, sorted[i]), target)
  {
    DropOldestEffect(held);
    RemoveOldest(held);
    PopByKey(held, OldestIndex(held));
    assert sorted[i..][1..] == sorted[i + 1..];
  }

  lemma {:induction false} FilterAll(keep: Entry -> bool, entries: seq<Entry>)
    requires forall e :: e in entries ==> keep(e)
    ensures Filter(keep, entries) == entries
  {
    if entries != [] { FilterAll(keep, entries[1..]); }
  }

  /** Popping a key removes the one entry that has it. */
  lemma {:induction false} PopByKey(entries: seq<Entry>, k: nat)
    requires DistinctKeys(entries) && k < |entries|
    ensures WithoutKey(entries, entries[k].key) == RemoveAt(entries, k)
  {
    var rest, key := entries[1..], entries[k].key;
    if k == 0 {
      FilterAll((e: Entry) => e.key != key, rest);
      assert RemoveAt(entries, 0) == rest;
    } else {
      PopByKey(rest, k - 1);
      assert RemoveAt(entries, k) == [entries[0]] + RemoveAt(rest, k - 1);
    }
  }
}
