# A verified model of the Proxbox API core

This project models, in Dafny, the parts of the Proxbox API backend that hold state or make decisions that are
hard to get right, and proves what they are for:

- **The NetBox REST layer.** `Pagination` is the defensive traversal of a paginated list: against *every* server it
  ends, and a list it returns is gap free; against an honest server it returns exactly the collection. `GetCache` is
  the cache of GET lists with its time to live, its two limits and its invalidation by path. `Coherence` puts the
  two together: over whole runs of calls no stale list is ever served. `CreateRetry` is POST with retries after lost
  answers, with lookups that go through the cache. `Reconcile` is the one-record reconciler and the bulk reconciler, which is shown to refine it.
- **The Rust VM engine.** `Json` is serde_json's value type with the engine's loose equality, `VmNormalize` the
  normalization of payloads, `VmDiff` the diff and the overwrite rules, `VmEngine` the four indexes, the selection
  of a record and the operation queue, and `VmQueue` what a second run finds once all patches have been stored.
- **The settings cache.** `SettingsFlight` is a transition system over any number of threads: leaders, waiters,
  deadlines, overrides and calls a leader makes back into `get_settings`.
- **API keys and throttling.** `ApiKeys` is the key table under any number of workers. `Throttling` holds the
  lockout after failed keys and the per-minute request limit.
- **The Ceph v2 engine.** `CephPlan` normalizes, gates and sorts operations; `CephApply` applies plans and keeps
  the bounded plan store.
- **The API documentation scanner.** `ApidocScanner` is the bracket scanner, shown to invert the printing of JSON
  arrays (sections 5 and 7 of RFC 8259).

`Text` and `Wrappers` hold the string operations and the option and result types the modules share.

Code that the source writes as a loop or as an object it updates is a method or a class here, and its contract ties
it to a function on values; the theorems are about those functions. Servers, networks, providers, clocks and
schedulers are parameters, so a theorem that does not restrict them holds for all of them.

Beside the theorems, small lemmas whose names end in `Is` or `Means` say case by case, with literal words and numbers,
what the functions they are about give, so that the definitions the theorems rest on are pinned on their own.

`dafny verify dfyconfig.toml` checks the whole project.

## Where the code falls short

Seven properties one would expect are false of the code. Each is stated as an exact condition; inputs on which it fails
are in the lemmas named here or built in the proof:

- `CreateRetry.CreateAtMostOnceIff`: the lookup before a retry reads through the GET cache, which keeps empty answers
  for its time to live and is not invalidated by a failed POST. So a create can store the record twice even with a
  good lookup and default settings (`CreateRetry.CachedAnswerDuplicates`), as it can with an empty lookup, a lookup
  that does not name the payload or one that fails. `CreateRetry.GuardedTimes` spells the condition out in times.
- `Reconcile.BulkConservesIff`: the counters add up the objects an accepted batch answers, so they fall short when an
  answer does (`Reconcile.ShortAnswerFallsShort`), and for a record to patch that has no id, which is not sent
  (`Reconcile.MissingIdFallsShort`).
- `Reconcile.SecondRunIsQuietIff`: the same bulk call made again is served the first call's cached list while it is
  alive, unless a write of the first call was answered with an object. So after a call whose accepted batches answer
  nothing, it sends everything again and can create every record twice (`Reconcile.SilentAnswerDuplicates`).
- `GetCache.InvalidateCoversIff`: under a list path that ends in digits, invalidation takes the path for a detail
  path and leaves the details below it in the cache.
- `Coherence.BulkWriteCoherentIff`: a bulk write that succeeds with an answer holding no objects invalidates nothing.
- `VmEngine.QueueConvergesIff`: a patch whose custom fields do not name the VM itself makes the next run miss the
  record (`VmEngine.IdentityIsLost`).
- `CephApply.RememberedIsFoundIff`: remembering a plan again that stands at the front of a full list forgets it, as
  after any 512 plans remembered once each (`CephApply.RememberedAgainIsLost`). The routes remember every fresh plan
  twice in a row and never get there: `CephApply.LatestAreRetrievable`.

One branch is shown to be dead: the repeated-link check of the traversal (`Pagination.NextLinkNeverRepeats`). The
table of guarded kinds in the Ceph engine decides nothing (`CephPlan.DestructiveIff`).

## Model

| member | source | states |
|---|---|---|
| `Text.ParsePrinted` | proxbox_api/netbox_rest.py:922-938 | a printed offset is all digits and reads back as the number printed |
| `Text.TrimIs` | proxbox-reconcile-rs/src/normalize.rs:258-262 | trimming takes away white space at the two ends and nothing else |
| `Text.NormalizePathIdempotent` | proxbox_api/netbox_rest.py:607-613 | a normalized path is left alone by normalization, so cache keys and comparisons are stable |
| `Text.NormalizePathIs` | proxbox_api/netbox_rest.py:607-613 | a normalized path is the trimmed one with a slash before and after it where there was none |
| `Pagination.ParseQuery` | proxbox_api/netbox_rest.py:876-898 | the loop over the pairs of a next link's query string, proved to be the fold whose filters `ParsedFilters` describes |
| `Pagination.ParsedFilters` | proxbox_api/netbox_rest.py:876-898 | a parsed link holds, for each key, exactly the multiset of values its query string gives the key, so order does not matter and no repetition is lost |
| `Pagination.OffsetIff` | proxbox_api/netbox_rest.py:922-963 | a query has the offset n if and only if it is sent with exactly one offset text, all digits, that reads n |
| `Pagination.LinkOffsetIff` | proxbox_api/netbox_rest.py:876-963 | a link as it comes over the wire has the offset n if and only if exactly one of its pairs has that key and its value is digits that read n; two such pairs, or another value, give none |
| `Pagination.PrintedLinkOffset` | proxbox_api/netbox_rest.py:876-963 | a link that names its offset in digits is read as that offset |
| `Pagination.FiltersIff` | proxbox_api/netbox_rest.py:966-978 | two queries have the same filters if and only if they give every key but the page window the same values with multiplicity |
| `Pagination.SameRecordIff` | proxbox_api/netbox_rest.py:901-911 | two records count as the same if and only if their ids print alike, or neither has one and they are written alike |
| `Pagination.ReadIff` | proxbox_api/netbox_rest.py:1037-1096 | exactly the well-formed replies are read, with their records in order, their link and their count |
| `Pagination.BeginIff` | proxbox_api/netbox_rest.py:1003-1018 | a list call gets started if and only if its query names no offset or one in digits, not beyond the ceiling; it then starts there |
| `Pagination.FetchPage` | proxbox_api/netbox_rest.py:1032-1119 | the retry loop of one page returns the first readable or finally failing reply, and counts its GETs |
| `Pagination.WalkPages` | proxbox_api/netbox_rest.py:1132-1278 | the page loop ends whatever the server answers, computes the walk all theorems below are about, and sends as many GETs as `Requests` counts |
| `Pagination.Traverse` | proxbox_api/netbox_rest.py:993-1278 | a whole list call: bad or too large initial offsets refused, a cached list served within the record limit, anything else walked |
| `Pagination.StepKeeps` | proxbox_api/netbox_rest.py:1132-1278 | an accepted page keeps the loop invariant: distinct records that exactly fill the offsets walked over, a valid cursor, and every earlier link pointing no further than the cursor |
| `Pagination.NextLinkNeverRepeats` | proxbox_api/netbox_rest.py:1262-1271 | the repeated-link check never fires, since a followed link moves the offset forward |
| `Pagination.ErrorNeverRepeated` | proxbox_api/netbox_rest.py:1132-1278 | no walk from a reachable loop state ends with the repeated-link error |
| `Pagination.RequestsBounded` | proxbox_api/netbox_rest.py:1032-1278 | a walk sends at most (retries + 1) GETs for each of the pages left under the hard limit, whatever comes back |
| `Pagination.WalkIsGapFree` | proxbox_api/netbox_rest.py:1132-1278 | behind a returned list stand the server's own replies on one path with one filter multimap, each page starting where the one before ended |
| `Pagination.TraversalSound` | proxbox_api/netbox_rest.py:993-1278 | whatever comes back over the wire: a returned list is the gap-free concatenation of pages from the initial offset, with pairwise distinct records, within all limits, and as long as the one declared count demands; at most 10,000 * (retries + 1) GETs are sent |
| `Pagination.RecordLimitNeverFires` | proxbox_api/netbox_rest.py:1188-1249 | with pages no longer than the page size, neither record-limit error is raised before the offset ceiling acts |
| `Pagination.PaginatedCeilings` | proxbox_api/netbox_rest.py:2090-2132 | the same for the limits `rest_list_paginated_async` derives from a page size and a largest offset |
| `Pagination.HonestWalk` | proxbox_api/netbox_rest.py:1132-1278 | from any reachable state, a walk against an honest server succeeds if and only if the rest of the collection fits the hard limits and no later page starts beyond the offset ceiling, and returns that rest |
| `Pagination.HonestRead` | proxbox_api/netbox_rest.py:1037-1096 | an honest answer, with its link in pairs and its offset in digits, is read as the page it stands for |
| `Pagination.TraversalComplete` | proxbox_api/netbox_rest.py:1132-1278 | a server that answers honestly over the wire, items, count and links with the offset in digits, with any positive page sizes and under any ceilings that leave room for a page: the traversal returns exactly the collection from the initial offset on, and raises if and only if a hard limit is exceeded or a later page starts beyond the offset ceiling |
| `Pagination.PaginatedComplete` | proxbox_api/netbox_rest.py:2090-2132 | `rest_list_paginated_async` with pages no longer than its page size succeeds if and only if the hard limits hold and no page after the first starts beyond `max_offset`; a call without one, if and only if the hard limits hold |
| `Pagination.HonestListIsExact` | proxbox_api/netbox_rest.py:1132-1278 | under any limits, a list returned from an honest server is the rest of the collection |
| `GetCache.PutEffect` | proxbox_api/netbox_rest.py:508-512 | storing under a key replaces the entry of that key, keeps every other entry and keeps keys distinct |
| `GetCache.ByAgeEffect` | proxbox_api/netbox_rest.py:411-412 | the age order is a sorted permutation with the same bytes |
| `GetCache.RemoveOldest` | proxbox_api/netbox_rest.py:502-503 | popping the minimum takes exactly the head off the age order |
| `GetCache.MakeRoomFits` | proxbox_api/netbox_rest.py:499-506 | the eviction loop ends with room for the new entry or an empty cache |
| `GetCache.MakeRoomOldestFirst` | proxbox_api/netbox_rest.py:499-506 | it removes the shortest oldest-first prefix that makes room |
| `GetCache.WriteBounds` | proxbox_api/netbox_rest.py:470-512 | after a write both limits hold, unless the cache is the one new oversized entry; the entry is there, and all others were there before, unexpired |
| `GetCache.WriteKeepsRest` | proxbox_api/netbox_rest.py:495-512 | a write keeps every entry under another key that the eviction left |
| `GetCache.PopOldestPrefix` | proxbox_api/netbox_rest.py:411-429 | pruning for the limits removes an oldest-first prefix: the entries over the entry limit, and after them just as many as free the bytes over the byte limit |
| `GetCache.PopOldestSizes` | proxbox_api/netbox_rest.py:411-429 | it removes at least the entries and the bytes asked for |
| `GetCache.PruneBounds` | proxbox_api/netbox_rest.py:388-432 | after a prune nothing is expired, both limits hold outright and only old entries are gone |
| `GetCache.ReadAfterWrite` | proxbox_api/netbox_rest.py:435-512 | a list just stored, empty or not, is served exactly while its time to live lasts and if it fits the byte limit |
| `GetCache.InvalidateCovers` | proxbox_api/netbox_rest.py:530-562 | invalidating a list path forgets the list and every detail below it |
| `GetCache.InvalidateExactly` | proxbox_api/netbox_rest.py:530-562 | for well-formed cached paths it forgets nothing else |
| `GetCache.InvalidateDetailCovers` | proxbox_api/netbox_rest.py:515-562 | invalidating a detail path forgets that detail and its list |
| `GetCache.InvalidateRecordCovers` | proxbox_api/netbox_rest.py:565-577 | forgetting a record forgets its list, the path of its URL and the detail path its id gives, and no other client's entries |
| `GetCache.InvalidateCoversIff` | proxbox_api/netbox_rest.py:515-562 | covering holds exactly for list paths that do not end in digits; otherwise a concrete cached detail survives |
| `GetCache.Cache.constructor` | proxbox_api/netbox_rest.py:372-385 | a reset cache is empty and all its counters are zero |
| `GetCache.Cache.EvictDown` | proxbox_api/netbox_rest.py:411-429 | the loop over the sorted items pops what repeatedly dropping the oldest entry would |
| `GetCache.Cache.PruneNow` | proxbox_api/netbox_rest.py:388-432 | the new cache is the pruned old one |
| `GetCache.Cache.Read` | proxbox_api/netbox_rest.py:435-467 | the cache is pruned, the unexpired entry under the key served, and exactly one of hit and miss counted |
| `GetCache.Cache.Store` | proxbox_api/netbox_rest.py:470-512 | the new cache is the written one, the running byte total is the true sum at every eviction, and expired entries, evicted entries and evicted bytes are counted exactly |
| `GetCache.Cache.InvalidatePath` | proxbox_api/netbox_rest.py:530-562 | exactly the stale entries go, and the counter grows by their number |
| `Coherence.LocalWriteKeeps` | proxbox_api/netbox_rest.py:530-577 | a write under a list path followed by at least its invalidation keeps every cached list equal to the fresh one |
| `Coherence.WriteKeeps` | proxbox_api/netbox_rest.py:1685-2013 | each of create, patch, save, delete, bulk write and bulk delete keeps the cache coherent |
| `Coherence.HitIsFresh` | proxbox_api/netbox_rest.py:435-467 | a cache hit equals what a fresh traversal would return |
| `Coherence.ListIsFresh` | proxbox_api/netbox_rest.py:993-1278 | a list call returns the fresh list, from the cache or not |
| `Coherence.ListKeeps` | proxbox_api/netbox_rest.py:435-512 | filling the cache after a miss keeps it coherent |
| `Coherence.FetchedIsCached` | proxbox_api/netbox_rest.py:1276-1277 | a list that was fetched is served again, without the server, while the time to live lasts |
| `Coherence.RunsStayCoherent` | proxbox_api/netbox_rest.py:435-577 | along any run of list, create, patch, save, delete and bulk calls made one at a time, no call ever returns a stale list |
| `Coherence.BulkWriteCoherentIff` | proxbox_api/netbox_rest.py:1739-1862 | a successful bulk write keeps the cache coherent exactly when its answer holds at least one object |
| `CreateRetry.Create` | proxbox_api/netbox_rest.py:1304-1392 | the retry loop, with lookups through the GET cache, proved to compute the outcome and the store the lemmas below are about |
| `CreateRetry.FirstMatchFinds` | proxbox_api/netbox_rest.py:1350-1356 | the lookup finds a matching record exactly when there is one |
| `CreateRetry.RetriesAddAtMostOne` | proxbox_api/netbox_rest.py:1304-1392 | from any attempt on, when no retry is blind, the call adds at most one copy of the payload, and returns a record only if it is stored |
| `CreateRetry.UnguardedDuplicates` | proxbox_api/netbox_rest.py:1304-1392 | for every call with a blind retry and no misleading cached answer there is a network that makes it store the record twice |
| `CreateRetry.CreateAtMostOnceIff` | proxbox_api/netbox_rest.py:1304-1392 | at most one record whatever happens to the POSTs, exactly when no lookup is passed or, before every retry, the lookup is not empty, names the payload, succeeds and is not answered by a live cached answer |
| `CreateRetry.GuardedTimes` | proxbox_api/netbox_rest.py:435-467 | for good lookups that succeed, that means: caching is off, or nothing cached is alive at the first retry and every later retry comes a time to live after the answer before it was stored |
| `CreateRetry.CachedAnswerDuplicates` | proxbox_api/netbox_rest.py:1350-1392 | a call with a good lookup and the default time to live that stores two copies |
| `CreateRetry.NoLookupLandsOnce` | proxbox_api/netbox_rest.py:1304-1392 | without a lookup at most one POST takes effect |
| `CreateRetry.RefusedIsTriedAgain` | proxbox_api/netbox_rest.py:1361-1390 | without a lookup, a call whose POSTs are refused until one within the retries is answered creates the record, once |
| `CreateRetry.LostIsTriedAgain` | proxbox_api/netbox_rest.py:1361-1390 | with a lookup that finds nothing, POSTs lost transiently are tried again too |
| `Reconcile.BulkCounts` | proxbox_api/netbox_rest.py:2135-2384 | counters and records each add up to the de-duplicated entries plus the drift: the objects answered by accepted batches less their entries |
| `Reconcile.BulkConservesIff` | proxbox_api/netbox_rest.py:2135-2384 | created + updated + unchanged + failed and records + failed both equal the number of entries for every pattern of failing requests, exactly when every batch, once accepted, answers as many objects as it has entries |
| `Reconcile.FullPatchesIff` | proxbox_api/netbox_rest.py:2320-2340 | if no more objects are ever answered than sent, the patch batches are fully answered exactly when every record to patch has an id and every PATCH is answered with as many objects as it was sent |
| `Reconcile.ShortAnswerFallsShort` | proxbox_api/netbox_rest.py:2262-2271 | one new record and an accepted POST that answers an empty list: nothing is counted |
| `Reconcile.MissingIdFallsShort` | proxbox_api/netbox_rest.py:2320-2340 | one record to patch without an id: it is neither sent nor counted |
| `Reconcile.PatchKeepsKey` | proxbox_api/netbox_rest.py:2241-2252 | a patch never holds a lookup field |
| `Reconcile.MatchesIffKey` | proxbox_api/netbox_rest.py:2068-2087 | with all lookup fields given, the server's filter and the lookup key select the same records |
| `Reconcile.LookupIs` | proxbox_api/netbox_rest.py:2068-2077 | the lookup of a payload is its lookup fields, but for null and empty ones |
| `Reconcile.OneIsAct` | proxbox_api/netbox_rest.py:1425-1590 | reconciling one record does what the bulk planner decides for it, and reports it |
| `Reconcile.OneReturnsStored` | proxbox_api/netbox_rest.py:1524-1590 | the record a reconcile returns is the one now stored under the entry's key |
| `Reconcile.EachIsActs` | proxbox_api/netbox_rest.py:1425-1590 | one at a time, decisions made against the first store stay right to the end |
| `Reconcile.PhasesReorder` | proxbox_api/netbox_rest.py:2262-2376 | doing all creates before all patches ends in the same store |
| `Reconcile.CreatesAct` | proxbox_api/netbox_rest.py:2262-2318 | the create phase performs the creates, whichever batches fail and whatever is answered |
| `Reconcile.CreatesTallied` | proxbox_api/netbox_rest.py:2262-2318 | and counts them if the answers are full |
| `Reconcile.PatchesAct` | proxbox_api/netbox_rest.py:2320-2376 | the patch phase performs the patches, whichever batches fail and whatever is answered |
| `Reconcile.PatchesTallied` | proxbox_api/netbox_rest.py:2320-2376 | and counts them if the answers are full |
| `Reconcile.BulkRefinesSingles` | proxbox_api/netbox_rest.py:2135-2384 | for any pattern of failing batches whose single fallbacks succeed, and whatever is answered, the bulk call leaves the store that folding the single reconcile over the de-duplicated payloads leaves; with full answers it counts what was decided |
| `Reconcile.EntryIsStored` | proxbox_api/netbox_rest.py:2135-2384 | what is stored under each entry's key at the end: the record left alone, the patched one, or the new one with the next id |
| `Reconcile.ReportedAreStored` | proxbox_api/netbox_rest.py:2256-2384 | every record a bulk call reports was answered by a bulk request, or is the record now stored under the key of one of its entries |
| `Reconcile.BatchIs` | proxbox_api/netbox_rest.py:2262-2263 | batches are cut in order, each of the size asked for, at least 1, but for a shorter last one |
| `Reconcile.PatchIsExact` | proxbox_api/netbox_rest.py:1536-1553 | storing the patch makes every desired patchable field hold, clears stale nullable ones, leaves the rest alone and sends nothing that was right |
| `Reconcile.DedupKeepsFirst` | proxbox_api/netbox_rest.py:2160-2180 | for every lookup key in use, the first payload under it is the one synced |
| `Reconcile.DedupOnlyFirst` | proxbox_api/netbox_rest.py:2160-2180 | every entry is the first payload under its key, which is not blank |
| `Reconcile.OneSettles` | proxbox_api/netbox_rest.py:1425-1590 | after its reconcile an entry needs nothing more |
| `Reconcile.EachSettles` | proxbox_api/netbox_rest.py:1425-1590 | and the entries reconciled after it do not unsettle it |
| `Reconcile.FreshPlanIsEmpty` | proxbox_api/netbox_rest.py:2182-2257 | after a bulk call, a call that is served the fresh list plans nothing |
| `Reconcile.NoticedIff` | proxbox_api/netbox_rest.py:1751-1840 | the code forgets the cached list exactly when some batch fails, so that its items are written one by one, or answers an object |
| `Reconcile.SecondRunIsQuietIff` | proxbox_api/netbox_rest.py:2135-2384 | the same bulk call made again sends nothing, changes nothing and reports every entry unchanged over any network, if and only if the cached list is off or expired, the first call had nothing to write, or some batch of it failed or answered an object |
| `Reconcile.SilentAnswerDuplicates` | proxbox_api/netbox_rest.py:1020-1027 | a call whose accepted POST answers an empty list, made again within the time to live, creates the record a second time |
| `Reconcile.CollectEntries` | proxbox_api/netbox_rest.py:2160-2180 | the de-duplication loop |
| `Reconcile.GroupExisting` | proxbox_api/netbox_rest.py:2183-2216 | the grouping loop: every group is headed by the first record under its key, and no key is missing |
| `Reconcile.PlanAll` | proxbox_api/netbox_rest.py:2218-2257 | the planning loop sorts the entries into creates, patches and unchanged records as a search of the whole list would |
| `Reconcile.CreateBatches` | proxbox_api/netbox_rest.py:2262-2318 | the create phase, counting the objects answered, and that it raises exactly when a batch fails with the fallback disabled |
| `Reconcile.PatchBatches` | proxbox_api/netbox_rest.py:2320-2376 | the patch phase, counting the objects answered, and that it raises exactly when a batch that sends anything fails with the fallback disabled |
| `Reconcile.RunBulkReconcile` | proxbox_api/netbox_rest.py:2135-2384 | the whole call computes the bulk result the theorems are about, and raises exactly when some batch fails with the fallback disabled |
| `Json.EqReflexive` | proxbox-reconcile-rs/src/diff.rs:88-116 | loose equality is reflexive |
| `Json.EqSameKeys` | proxbox-reconcile-rs/src/diff.rs:98-105 | loosely equal objects have the same keys, although only one side's keys are visited |
| `Json.EqSymmetric` | proxbox-reconcile-rs/src/diff.rs:88-116 | loose equality is symmetric on all JSON values |
| `Json.EqTransitive` | proxbox-reconcile-rs/src/diff.rs:88-116 | loose equality is transitive on all JSON values |
| `Json.UnitFits` | proxbox-reconcile-rs/src/diff.rs:111-116 | the unit a large number is rounded to leaves it 53 bits, and no smaller one would |
| `Json.RoundsToNearest` | proxbox-reconcile-rs/src/diff.rs:111-116 | rounding goes to the nearest whole number of units, and of two equally near ones to the even one |
| `Json.SmallAsF64` | proxbox-reconcile-rs/src/diff.rs:111-116 | integers of up to 53 bits, of either sign, and floats are compared as they are |
| `VmNormalize.RelationReadsBack` | proxbox-reconcile-rs/src/normalize.rs:5-19 | whatever is read as a foreign key, written out as a number, reads back as the same key |
| `VmNormalize.IntegerReads` | proxbox-reconcile-rs/src/normalize.rs:251-256 | integers that fit are read as they are, larger ones are cut at the largest |
| `VmNormalize.FloatIsCut` | proxbox-reconcile-rs/src/normalize.rs:251-256 | a float is cut towards zero and at the ends of the range |
| `VmNormalize.PrintedIsRead` | proxbox-reconcile-rs/src/normalize.rs:258-262 | every integer of the range, printed with or without a plus sign and any white space around it, is read as itself |
| `VmNormalize.ReadIsPrinted` | proxbox-reconcile-rs/src/normalize.rs:258-262 | and a text that is read is an optional sign and digits, within the range |
| `VmNormalize.TagIdsHold` | proxbox-reconcile-rs/src/normalize.rs:142-159 | the normalized tags are exactly the ids of the items |
| `VmNormalize.CollectTags` | proxbox-reconcile-rs/src/normalize.rs:142-159 | the loop that fills the ordered set gives the sorted list of ids |
| `VmNormalize.TagsReadBack` | proxbox-reconcile-rs/src/normalize.rs:142-159 | normalized tags, written out and read again, are the same tags |
| `VmNormalize.VmTypeReadsBack` | proxbox-reconcile-rs/src/normalize.rs:161-180 | a normalized VM type, read from a string, a number, a boolean or an object, normalizes to itself once stored as a string |
| `VmNormalize.StatusIdempotent` | proxbox-reconcile-rs/src/normalize.rs:224-241 | a normalized status normalizes to itself |
| `VmNormalize.StatusMeans` | proxbox-reconcile-rs/src/normalize.rs:224-241 | what every status word gives, in any case and with any white space around it |
| `VmNormalize.NormalValueIdempotent` | proxbox-reconcile-rs/src/normalize.rs:186-262 | every kind of field, once normalized, normalizes to itself |
| `VmNormalize.NormalizeIdempotent` | proxbox-reconcile-rs/src/normalize.rs:21-140 | normalizing a payload twice is normalizing it once |
| `VmDiff.MergeTags` | proxbox-reconcile-rs/src/diff.rs:68-76 | the merged tags are sorted, without repetition, and hold exactly the tags of both sides |
| `VmDiff.ApplyOverwriteRules` | proxbox-reconcile-rs/src/diff.rs:24-86 | the five in-place rules together drop exactly the protected fields and replace tags by their union |
| `VmDiff.ProtectedIff` | proxbox-reconcile-rs/src/diff.rs:31-66 | a field is kept from being overwritten if and only if its own flag is off and the record has something there |
| `VmDiff.OwnValueStays` | proxbox-reconcile-rs/src/diff.rs:24-86 | such a field is never in the patch |
| `VmDiff.DiffConverges` | proxbox-reconcile-rs/src/diff.rs:8-22 | a diff, stored and taken again, is empty |
| `VmDiff.PatchField` | proxbox-reconcile-rs/src/diff.rs:24-57 | a field other than tags is patched exactly when it is desired, differs and is not protected, and then with the desired value |
| `VmDiff.TagsConverge` | proxbox-reconcile-rs/src/diff.rs:58-86 | after storing the patch there is nothing left to do for the tags, whatever the flags |
| `VmDiff.NoTagIsLost` | proxbox-reconcile-rs/src/diff.rs:58-86 | storing a patch never takes a tag away, whatever the flags |
| `VmDiff.PatchConverges` | proxbox-reconcile-rs/src/diff.rs:24-86 | for any flags, the patch of the patched record is empty |
| `VmDiff.InSyncIff` | proxbox-reconcile-rs/src/diff.rs:8-86 | with all overwrite flags on, nothing is patched if and only if every desired field but tags loosely equals the current one and the desired tags equal or are among the current ones |
| `VmDiff.BothInSyncIff` | proxbox-reconcile-rs/src/diff.rs:8-86 | two payloads patched into one record one after the other, all flags on: both are in sync with what is stored if and only if they agree on every field but the tags and the last writer's tags settle both |
| `VmEngine.BuildIndexes` | proxbox-reconcile-rs/src/vm.rs:157-202 | the four maps hold, for every key and type, what a scan of the whole snapshot finds, and nothing else |
| `VmEngine.IndexedStep` | proxbox-reconcile-rs/src/vm.rs:157-202 | adding a record to the maps keeps their agreement with the scan |
| `VmEngine.FirstTypedIs` | proxbox-reconcile-rs/src/vm.rs:204-242 | the scan's typed match is the first record with the key and type, if there is one |
| `VmEngine.CandidatesAre` | proxbox-reconcile-rs/src/vm.rs:204-242 | the scan's candidates are all and only the records with the key |
| `VmEngine.SelectIsScan` | proxbox-reconcile-rs/src/vm.rs:204-242 | selection through the indexes is the linear scan: the first typed match, else the only candidate if it is untyped |
| `VmEngine.SelectedKey` | proxbox-reconcile-rs/src/vm.rs:204-242 | a selected record carries the key it was selected by |
| `VmEngine.SelectionSeparates` | proxbox-reconcile-rs/src/vm.rs:204-242 | VMs with different scope ids or VM ids never select equal records; two types under one key share a record exactly when it is the only candidate and untyped |
| `VmEngine.BuildQueue` | proxbox-reconcile-rs/src/vm.rs:66-133 | the queue holds, for each VM in order, the operation the linear scan gives |
| `VmEngine.GetIff` | proxbox-reconcile-rs/src/vm.rs:66-133 | CREATE exactly without a record; with all overwrite flags on, GET if and only if the record is in sync: every desired field but tags loosely holds and no desired tag is missing |
| `VmEngine.SelectsAgainIff` | proxbox-reconcile-rs/src/vm.rs:204-242 | replacing the selected record, the VM selects the replacement if and only if it keeps the key and a type under which this VM finds it |
| `VmEngine.StaysOwnIff` | proxbox-reconcile-rs/src/vm.rs:204-295 | the stored record keeps the key and a type this VM finds exactly under that condition on the inputs |
| `VmEngine.QueueConvergesIff` | proxbox-reconcile-rs/src/vm.rs:66-133 | after storing the patch of an UPDATE, the next run answers GET with an empty patch for the same record if and only if the custom fields are not patched, or name the VM itself by endpoint, VM id and type |
| `VmEngine.OwnIdentityStays` | proxbox-reconcile-rs/src/vm.rs:66-133 | which holds whenever the desired custom fields carry the VM's endpoint, id and type |
| `VmEngine.IdentityIsLost` | proxbox-reconcile-rs/src/vm.rs:66-133 | a VM without desired custom fields whose UPDATE takes the VM id away from its record, so that the next run creates it anew |
| `VmQueue.RunConvergesIff` | proxbox-reconcile-rs/src/vm.rs:66-133 | for VMs looked up in one kind of scope, no two with the same record: after storing all UPDATE patches of a run, the next run finds every record again and answers GET, if and only if every patch keeps its VM's identity |
| `VmQueue.SelectIff` | proxbox-reconcile-rs/src/vm.rs:204-242 | a record is selected if and only if it has the key and either the wanted type, with no earlier record of that key and type, or is the only one with the key and untyped |
| `VmQueue.FindIff` | proxbox-reconcile-rs/src/vm.rs:204-242 | a VM is matched with a record if and only if that record owns the resource's VM id on the payload's endpoint, whatever the clusters, or, where the payload names no endpoint, in its cluster; with neither there is none |
| `VmQueue.FoundIsIts` | proxbox-reconcile-rs/src/vm.rs:204-242 | a matched record carries the payload's endpoint if there is one, else its cluster, and the resource's VM id |
| `VmQueue.KeyAfterIs` | proxbox-reconcile-rs/src/vm.rs:244-295 | the key, in either scope, and the type a record has once a patch is stored, from the inputs alone: when the custom fields and the cluster are replaced |
| `VmQueue.MixedRunConvergesIff` | proxbox-reconcile-rs/src/vm.rs:66-133 | for any queue in which no two VMs have the same record, whatever their scopes: the next run finds every record again and answers GET, if and only if every VM finally owns its record: no patch takes its key or type away, and none moves a competing record into its scope |
| `VmQueue.SharedRunConvergesIff` | proxbox-reconcile-rs/src/vm.rs:66-133 | for two VMs with one record, all flags on: the next run answers GET for both if and only if the stored record stays each one's own, the payloads agree on every field but the tags, and the last writer's tags settle both |
| `VmQueue.OwnFitsNoOther` | proxbox-reconcile-rs/src/vm.rs:204-242 | the record that stays one VM's own is never taken for another VM's |
| `VmQueue.SharedAgainIff` | proxbox-reconcile-rs/src/vm.rs:204-242 | two VMs of different types that share a record both find it again exactly when what is stored there keeps the key and is still untyped |
| `SettingsFlight.InitInv` | proxbox_api/settings_client.py:368-461 | the invariant holds before any call |
| `SettingsFlight.StepKeeps` | proxbox_api/settings_client.py:368-470 | every step of every thread keeps it: one leader while the flag is up, nobody asleep while it is down, fetch depth exactly on the leader |
| `SettingsFlight.RunInv` | proxbox_api/settings_client.py:368-470 | it holds in every state of every interleaving |
| `SettingsFlight.SingleFlight` | proxbox_api/settings_client.py:368-461 | at most one fetch is in flight, the flag is up exactly while some thread leads, and a leader's own call is answered at once |
| `SettingsFlight.ReentryAnswersAtOnce` | proxbox_api/settings_client.py:383-392 | a call the leader makes back neither waits nor fetches nor changes anything |
| `SettingsFlight.SomeThreadGoesOn` | proxbox_api/settings_client.py:399-457 | while a thread is inside a call, some thread inside a call can take its next step: no deadlock and no lost wake-up |
| `SettingsFlight.PublishEffect` | proxbox_api/settings_client.py:444-457 | leaving the lead clears the flag, wakes every waiter, and caches the result unless the fetch failed for a caller that refuses the fallback |
| `SettingsFlight.LeaderGetsItsResult` | proxbox_api/settings_client.py:417-461 | whatever the other threads do in between, a leader returns what it fetched; the defaults after a failed fetch, a passed deadline or without a session; nothing after an exception |
| `SettingsFlight.CallAnswers` | proxbox_api/settings_client.py:383-398 | a call with an override returns it, a call inside a fetch of its own thread the defaults, any other starts to look with its deadline |
| `SettingsFlight.LookAnswers` | proxbox_api/settings_client.py:399-415 | a look returns a fresh cached value if it may, else leads if nobody does, else gives a late caller the defaults and lets any other wait |
| `SettingsFlight.PastDeadline` | proxbox_api/settings_client.py:410-442 | over any stretch of any run, for the rest of its call a caller past its deadline never waits again and never fetches |
| `SettingsFlight.WaitersShareTheFetch` | proxbox_api/settings_client.py:399-457 | whatever happens between the leader's publishing and a cache-using waiter's next look, short of another publishing, an invalidation or the end of the time to live, the waiter returns what the leader fetched |
| `SettingsFlight.StepSourced` | proxbox_api/settings_client.py:368-470 | every step keeps the cache and all results traceable to the defaults, a fetch or the thread's own override |
| `SettingsFlight.ResultsHaveASource` | proxbox_api/settings_client.py:368-461 | in every run the cache holds only the defaults or something fetched, so an override reaches no thread but its own |
| `ApiKeys.RetireKeepsActive` | proxbox_api/routes/auth.py:115-147 | an allowed retirement leaves an active key |
| `ApiKeys.StepKeeps` | proxbox_api/routes/auth.py:69-221 | every step of every worker keeps the invariant, the claim and the presence of an active key |
| `ApiKeys.RunKeeps` | proxbox_api/routes/auth.py:69-221 | so does every run, between any two of its states |
| `ApiKeys.KeysAreSafe` | proxbox_api/routes/auth.py:69-147 | in every interleaving, from any legacy table: at most one bootstrap succeeds, none on a table that held a key, the claim stays, and once a key is active some key always is |
| `ApiKeys.LosingBootstrapLeavesNothing` | proxbox_api/database.py:550-580 | a bootstrap commit fails exactly when the claim is there, and then leaves the table as it was |
| `ApiKeys.RetirementEffect` | proxbox_api/routes/auth.py:115-147 | a retirement takes away exactly the key asked for |
| `ApiKeys.MayRetireIff` | proxbox_api/routes/auth.py:115-147 | a key may be retired if and only if it is stored and inactive or not the only active one |
| `ApiKeys.RetirementHappens` | proxbox_api/routes/auth.py:115-147 | and then it is: deleted, or inactive |
| `ApiKeys.CreationEffect` | proxbox_api/routes/auth.py:150-166 | a created key is new and active, and every other key is left alone |
| `ApiKeys.ActivationEffect` | proxbox_api/routes/auth.py:206-214 | activating a stored inactive key makes it active and leaves every other key alone |
| `ApiKeys.BootstrapGate` | proxbox_api/routes/auth.py:69-81 | a bootstrap is let through if and only if its key has at least 32 characters and the table is unclaimed |
| `Throttling.RateLimiter.constructor` | proxbox_api/app/factory.py:147-151 | no timestamps are held at first |
| `Throttling.KeepRecent` | proxbox_api/app/factory.py:153-155 | the filter over a client's timestamps |
| `Throttling.RateLimiter.CleanOld` | proxbox_api/app/factory.py:153-158 | old timestamps of one client go, an empty entry is dropped and no other client is touched |
| `Throttling.RateLimiter.Dispatch` | proxbox_api/app/factory.py:163-180 | a request is accepted if exempt or below the limit, and only its own client's list changes |
| `Throttling.SpacingBoundsWindow` | proxbox_api/app/factory.py:141-180 | if times n places apart are always a window apart, a half-open window holds at most n |
| `Throttling.ClientRunOk` | proxbox_api/app/factory.py:141-180 | along any run what is kept is the end of what was accepted, and accepted requests `limit` places apart are a minute apart |
| `Throttling.RateIsLimited` | proxbox_api/app/factory.py:141-180 | every half-open minute contains at most the limit of accepted requests per client, although old timestamps are forgotten |
| `Throttling.DecidesLikeIdeal` | proxbox_api/app/factory.py:153-179 | the timestamps kept decide as the log of everything ever accepted would |
| `Throttling.MiddlewareIsIdeal` | proxbox_api/app/factory.py:141-180 | over any run, the middleware that forgets accepts exactly the requests a limiter that never forgets would accept |
| `Throttling.AuthLockout.IsLockedOut` | proxbox_api/database.py:403-415 | the answer, and that an expired lock is deleted and nothing else |
| `Throttling.AuthLockout.RecordFailedAttempt` | proxbox_api/database.py:417-430 | the attempt is counted in its window or starts one |
| `Throttling.AuthLockout.CheckHeader` | proxbox_api/auth.py:111-142 | each verdict if and only if its conditions hold, the attempts announced as remaining, and the effect on this client's row only |
| `Throttling.HistoryTracksTable` | proxbox_api/auth.py:111-142 | the history used in the proofs has the table's row, and logs a failure exactly when one is recorded |
| `Throttling.HistoryOk` | proxbox_api/database.py:403-430 | along any run of failing checks, windows start 300 seconds apart and hold at most five failures each |
| `Throttling.FarMarksApart` | proxbox_api/database.py:403-430 | failures 5 * (d / 300 + 2) places apart in the log are more than d seconds apart |
| `Throttling.FailuresAreBounded` | proxbox_api/database.py:403-430 | stored attempts never exceed five, window starts are at least 300 seconds apart, and an interval of length d holds at most 5 * (d / 300 + 2) recorded failures |
| `Throttling.LockedMeansFive` | proxbox_api/database.py:403-430 | a client is locked out only when five failures of its own were recorded in the last 300 seconds |
| `Throttling.FiveFailuresLock` | proxbox_api/database.py:403-430 | five wrong keys within 300 seconds of the first lock the client out until exactly 300 seconds after it |
| `Throttling.SuccessForgets` | proxbox_api/auth.py:111-142 | after a success, whatever follows, every later lock is what it would be for a client that had never failed |
| `CephPlan.DestructiveIff` | proxbox_api/ceph/v2_engine.py:227-278 | a normalized operation is flagged destructive exactly when it came so or deletes, whatever its kind |
| `CephPlan.SupportedIff` | proxbox_api/ceph/v2_engine.py:227-269 | it is let through exactly when it has a target and an implemented provider that supports it; a blocked one says why |
| `CephPlan.StrOrdered` | proxbox_api/ceph/v2_engine.py:280-294 | the string order used by the sort key is total and antisymmetric |
| `CephPlan.SortSorts` | proxbox_api/ceph/v2_engine.py:371-374 | the plan is a sorted permutation of its operations |
| `CephPlan.DeletionsLast` | proxbox_api/ceph/v2_engine.py:280-294 | in a sorted plan everything else stands before every deletion |
| `CephPlan.PhasesInOrder` | proxbox_api/ceph/v2_engine.py:280-294 | a sorted plan goes through creates, ensures, updates, other actions and deletions in that order |
| `CephPlan.TiesAreOrdered` | proxbox_api/ceph/v2_engine.py:280-294 | within a phase operations are ordered by kind, then target, then id |
| `CephPlan.StrLeqIs` | proxbox_api/ceph/v2_engine.py:280-294 | strings are ordered by the first place where they differ, a beginning first |
| `CephPlan.BuiltPlanIsWellBuilt` | proxbox_api/ceph/v2_engine.py:348-393 | a built plan is sorted, holds exactly the normalized operations and flags every deletion |
| `CephApply.Engine.Send` | proxbox_api/ceph/v2_engine.py:608-621 | the provider loop sends operations in order up to the first failure |
| `CephApply.Engine.ApplyPlan` | proxbox_api/ceph/v2_engine.py:543-654 | the outcome, the runs stored and what is sent to the provider, on every path |
| `CephApply.NothingUnsafeIsSent` | proxbox_api/ceph/v2_engine.py:549-593 | no provider call for a plan with a validation error, a blocked operation, an unconfirmed destruction or a completed run |
| `CephApply.RunsIffSafe` | proxbox_api/ceph/v2_engine.py:543-606 | a plan runs if and only if it has no validation error, every operation is supported, a confirmation covers any destructive one, and it has not completed before; a refusal sends nothing, and its status, HTTP answer and reason tell what stood in the way first |
| `CephApply.ForeignTokenSendsNothing` | proxbox_api/ceph/v2_engine.py:480-487 | without the flag, nothing is sent for a destructive plan unless the token is one of the plan's own three |
| `CephApply.OwnTokenRuns` | proxbox_api/ceph/v2_engine.py:480-487 | the flag, or any of the three tokens, lets a safe plan run |
| `CephApply.TokenDestroysOnce` | proxbox_api/ceph/v2_engine.py:480-487 | a token under which one plan's destruction was sent sends nothing for a plan with another id of the same length |
| `CephApply.SentInOrder` | proxbox_api/ceph/v2_engine.py:608-654 | what is sent is a prefix of the plan, all but its last operation succeeded, and the run is completed if and only if all succeeded |
| `CephApply.DeletionsWait` | proxbox_api/ceph/v2_engine.py:543-654 | a deletion is sent only confirmed and after every operation that is no deletion has succeeded |
| `CephApply.CompletedIsReplayed` | proxbox_api/ceph/v2_engine.py:460-477 | over any sequence of calls, once a plan has completed it is only replayed and nothing more is sent for it |
| `CephApply.CompletedRunIs` | proxbox_api/ceph/v2_engine.py:460-477 | the run that is replayed is the latest completed one of that very plan, if there is one |
| `CephApply.PlanStore.constructor` | proxbox_api/ceph/v2_engine.py:32-34 | the store starts empty |
| `CephApply.PlanStore.Remember` | proxbox_api/ceph/v2_engine.py:112-117 | the plan is stored and the order list trimmed from its front |
| `CephApply.RememberKeepsOk` | proxbox_api/ceph/v2_engine.py:112-117 | the order list never exceeds 512 and lists every stored plan |
| `CephApply.RememberedIsFoundIff` | proxbox_api/ceph/v2_engine.py:112-124 | a plan just remembered is retrieved, exactly unless the list is full and the plan's own id stands at its front |
| `CephApply.RememberedAgainIsLost` | proxbox_api/ceph/v2_engine.py:112-124 | any 512 plans remembered once each and the first of them again: the first can no longer be retrieved |
| `CephApply.OthersStayRemembered` | proxbox_api/ceph/v2_engine.py:112-124 | what is retrieved under any other id stays, but for the one at the front of a full list |
| `CephApply.RememberedAre` | proxbox_api/ceph/v2_engine.py:112-117 | after any plans, each remembered twice in a row, the store is exactly the last 256 with each id listed twice |
| `CephApply.LatestAreRetrievable` | proxbox_api/ceph/v2_routes.py:243-253 | exactly the min(n, 256) most recent plans can be retrieved |
| `ApidocScanner.FindFrom` | proxbox_api/proxmox_codegen/apidoc_parser.py:63-70 | the first place of a text at or after a position, if there is one |
| `ApidocScanner.ExtractSchemaText` | proxbox_api/proxmox_codegen/apidoc_parser.py:60-103 | the scanner loop, with its three errors |
| `ApidocScanner.PieceStays` | proxbox_api/proxmox_codegen/apidoc_parser.py:79-90 | an escaped quote or backslash leaves the scanner inside the string |
| `ApidocScanner.ValueRestores` | proxbox_api/proxmox_codegen/apidoc_parser.py:77-98 | across any printed JSON value, at any depth, the scanner is where it was |
| `ApidocScanner.EndOfArray` | proxbox_api/proxmox_codegen/apidoc_parser.py:77-103 | wherever a printed array stands, the scanner ends at its closing bracket |
| `ApidocScanner.ExtractInvertsPrint` | proxbox_api/proxmox_codegen/apidoc_parser.py:60-103 | for every JSON array, every way of writing it and any text after it, the extractor returns exactly the array's text |
| `ApidocScanner.ExtractedIsBalanced` | proxbox_api/proxmox_codegen/apidoc_parser.py:60-103 | whatever the source, an extracted text starts with a bracket, ends with the one that closes it and closes nowhere earlier |
| `ApidocScanner.ExtractFails` | proxbox_api/proxmox_codegen/apidoc_parser.py:60-70 | there is no marker, or no bracket after the first one, if and only if the extractor says so |

## Left out

- HTTP, server-sent events, websockets, the user interface, route modules and background schedulers: plumbing around services that are not part of this model.
- Retry delays, jitter, sleeping, semaphores, metrics text and log lines; which errors count as transient is a parameter.
- JSON and query serialization, hashing, bcrypt, uuid5 and Fernet: a cache key holds the query itself, and a record carries its canonical text.
- Splitting a next URL into path and pairs, and turning list items into dictionaries: the model starts from their result.
- `CreateRetry.Create`: the cache is the slot under the lookup's own query; that another list call evicts or refreshes that slot in the middle of the create is not modelled.
- Aliasing of cached records: the cache copies records one level deep, and the model's records are values.
- List traversals running beside writers of the same process: coherence is proved for calls made one at a time.
- `Reconcile.OneIsAct`: the single reconcile is modelled with strict lookup; the recovery from a duplicate error by refetching or scanning, and the looser candidate lookups, are not.
- `Pagination.Traverse`: of an error only whether it is transient is modelled, attempt by attempt.
- `VmQueue.MixedRunConvergesIff`: says nothing about VMs that had no record in the first run.
- `VmQueue.SharedRunConvergesIff`: covers two VMs on one record with all overwrite flags on, not three or more.
- `Reconcile.BulkRefinesSingles`: the call plans against the server's own list, and its single fallbacks look up the server; that cached lists are fresh is the matter of `Coherence`, and when a second call is not served a fresh one that of `Reconcile.SecondRunIsQuietIff`.
- `Reconcile.RunBulkReconcile`: selector callbacks, a base query, pydantic schemas, lookup field renaming and payloads that carry an `id` field are not modelled; validation is "drop None".
- Python's equality across types (`1 == True`) and Unicode digits, case and white space: texts are compared in ASCII.
- `VmNormalize.StatusIdempotent`: any status that is not a string reads as active, as the Rust code has it; the Python mapping, which unwraps objects, is not modelled.
- JSON floats carry the text serde_json prints for them; printing floats is not modelled, rounding of integers to f64 is.
- The process-wide bootstrap lock: workers are modelled without it, which only adds interleavings.
- `ApiKeys.KeysAreSafe`: authentication is the presence of an active key at the time of the check.
- `CephApply.CompletedIsReplayed`: calls follow one another; a crash in mid-apply, which leaves a running run behind, and two applies of one plan at once are not modelled.
- Desired-state expansion, provider reconciliation, redaction and metric warnings of the Ceph engine: easy per-field work.
- Parsing and flattening the API schema after its text has been extracted, and the crawler and generators behind it.
- Settings payload coercion, column migrations, client address resolution, SSRF checks, the log buffer and the sync state: they would only add easy members.
