/** POST with retries. The network is a parameter: on each attempt it decides whether the POST takes effect
    and whether the answer comes back. The lookup before a retry goes through the GET cache, which also keeps
    empty answers and which a failed POST does not invalidate. */
module CreateRetry {
  import opened Wrappers

  type Fields = map<string, string>

  /** One POST: the answer arrives (so it took effect), it is refused (so it did not), or it fails in a way
      that leaves its effect open, transiently or for good. A failed POST lands before its error or never. */
  datatype Delivery = Answered | Refused | Lost(landed: bool, transient: bool)

  /** The lookup before each attempt: the time to live of cached answers, whether a request succeeds, when the
      cache is read, and when an answer is put there. */
  datatype Lookups = Lookups(ttl: real, ok: nat -> bool, at: nat -> real, storedAt: nat -> real)

  datatype Network = Network(post: nat -> Delivery, lookups: Lookups)

  /** What the cache holds under the lookup's query: the first record of the list answered, and when it was put
      there. */
  datatype Cached = Cached(answer: Option<Fields>, at: real)

  datatype Outcome = Created(record: Fields) | FoundEarlier(record: Fields) | Raised

  /** The result of a call and the server's records after it. */
  datatype Final = Final(outcome: Outcome, store: seq<Fields>)

  predicate Landed(d: Delivery) { d.Answered? || (d.Lost? && d.landed) }

  function Posted(store: seq<Fields>, payload: Fields, d: Delivery): seq<Fields> {
    if Landed(d) then store + [payload] else store
  }

  predicate Matches(lookup: Fields, record: Fields) {
    forall k :: k in lookup ==> k in record && record[k] == lookup[k]
  }

  function FirstMatch(lookup: Fields, store: seq<Fields>): Option<Fields> {
    if store == [] then None
    else if Matches(lookup, store[0]) then Some(store[0]) else FirstMatch(lookup, store[1..])
  }

  /** The cached answer, while its time to live lasts. */
  function Live(l: Lookups, cached: Option<Cached>, now: real): Option<Cached> {
    if l.ttl > 0.0 && cached.Some? && now - cached.value.at < l.ttl then cached else None
  }

  datatype Looked = Looked(found: Option<Fields>, cached: Option<Cached>)

  /** The check before a retry: without lookup fields nothing is looked up; a live cached answer is taken as it
      is; a lookup that fails counts as having found nothing, and one that succeeds is cached. */
  function LookUp(l: Lookups, attempt: nat, lookup: Option<Fields>, cached: Option<Cached>, store: seq<Fields>)
    : Looked
  {
    if lookup.None? || lookup.value == map[] then Looked(None, cached) else
    var live := Live(l, cached, l.at(attempt));
    if live.Some? then Looked(live.value.answer, live)
    else if !l.ok(attempt) then Looked(None, None)
    else
      var found := FirstMatch(lookup.value, store);
      Looked(found, Some(Cached(found, l.storedAt(attempt))))
  }

  /** A failed attempt may be retried when it was refused, or was transient and a lookup was passed. */
  predicate SafeToRetry(lookup: Option<Fields>, d: Delivery) {
    d.Refused? || (d.Lost? && d.transient && lookup.Some?)
  }

  /** The retry loop from attempt number `attempt` on. */
  function CreateFrom(net: Network, payload: Fields, lookup: Option<Fields>, maxRetries: nat, attempt: nat,
                      cached: Option<Cached>, store: seq<Fields>): Final
    requires attempt <= maxRetries
    decreases maxRetries - attempt
  {
    var looked := if attempt > 0 then LookUp(net.lookups, attempt, lookup, cached, store) else Looked(None, cached);
    if looked.found.Some? then Final(FoundEarlier(looked.found.value), store) else
    var d := net.post(attempt);
    var store' := Posted(store, payload, d);
    if d.Answered? then Final(Created(payload), store')
    else if attempt == maxRetries || !SafeToRetry(lookup, d) then Final(Raised, store')
    else CreateFrom(net, payload, lookup, maxRetries, attempt + 1, looked.cached, store')
  }

  /** The loop itself. */
  method Create(net: Network, payload: Fields, lookup: Option<Fields>, maxRetries: nat, cached: Option<Cached>,
                store: seq<Fields>)
    returns (r: Final)
    ensures r == CreateFrom(net, payload, lookup, maxRetries, 0, cached, store)
  {
    var attempt, slot, now := 0, cached, store;
    while true
      invariant attempt <= maxRetries
      invariant CreateFrom(net, payload, lookup, maxRetries, attempt, slot, now)
             == CreateFrom(net, payload, lookup, maxRetries, 0, cached, store)
      decreases maxRetries - attempt
    {
      if attempt > 0 {
        var looked := LookUp(net.lookups, attempt, lookup, slot, now);
        if looked.found.Some? { return Final(FoundEarlier(looked.found.value), now); }
        slot := looked.cached;
      }
      var d := net.post(attempt);
      now := Posted(now, payload, d);
      if d.Answered? { return Final(Created(payload), now); }
      if attempt == maxRetries || !SafeToRetry(lookup, d) { return Final(Raised, now); }
      attempt := attempt + 1;
    }
  }

  // ---------------------------------------------------------------- at most once

  lemma {:induction false} FirstMatchFinds(lookup: Fields, store: seq<Fields>)
    ensures FirstMatch(lookup, store).None? <==> forall i :: 0 <= i < |store| ==> !Matches(lookup, store[i])
    ensures FirstMatch(lookup, store).Some? ==>
      FirstMatch(lookup, store).value in store && Matches(lookup, FirstMatch(lookup, store).value)
  {
    if store != [] {
      FirstMatchFinds(lookup, store[1..]);
      assert forall i :: 1 <= i < |store| ==> store[i] == store[1..][i - 1];
    }
  }

  /** What is cached before retry `n` when every lookup before it asked the server and found nothing. */
  function CachedBefore(l: Lookups, cached: Option<Cached>, n: nat): Option<Cached> {
    if n <= 1 then cached else Some(Cached(None, l.storedAt(n - 1)))
  }

  /** The lookup before retry `n` is answered by the server: the request succeeds and no cached answer is alive. */
  predicate AsksServer(l: Lookups, cached: Option<Cached>, n: nat) {
    l.ok(n) && Live(l, CachedBefore(l, cached, n), l.at(n)).None?
  }

  /** Retry `n` would not learn of a POST that landed just before it: the lookup is empty, does not name the
      payload, or is not answered by the server. */
  predicate Blind(l: Lookups, payload: Fields, lookup: Fields, cached: Option<Cached>, n: nat) {
    lookup == map[] || !Matches(lookup, payload) || !AsksServer(l, cached, n)
  }

  /** No lookup is passed, or no retry is blind. */
  ghost predicate Guarded(l: Lookups, payload: Fields, lookup: Option<Fields>, maxRetries: nat, cached: Option<Cached>)
  {
    lookup.None? || forall n :: 1 <= n <= maxRetries ==> !Blind(l, payload, lookup.value, cached, n)
  }

  /** Nothing in the store matches the lookup. */
  ghost predicate NothingYet(lookup: Option<Fields>, store: seq<Fields>) {
    lookup.Some? && lookup.value != map[] ==> FirstMatch(lookup.value, store).None?
  }

  /** The first retry would be told, from the cache, of a record that is not there. */
  predicate Misled(l: Lookups, lookup: Fields, cached: Option<Cached>) {
    lookup != map[] && Live(l, cached, l.at(1)).Some? && cached.value.answer.Some?
  }

  /** The call added nothing, or one copy of the payload; and a returned record is in the store. */
  predicate AtMostOnce(payload: Fields, store: seq<Fields>, r: Final) {
    && (r.store == store || r.store == store + [payload])
    && (!r.outcome.Raised? ==> r.outcome.record == payload && r.store == store + [payload])
  }

  /** Asking the server finds the payload exactly when it has landed. */
  lemma {:induction false} AskedServer(
    l: Lookups, attempt: nat, lookup: Fields, payload: Fields, cached: Option<Cached>, before: seq<Fields>,
    store: seq<Fields>)
    requires lookup != map[] && Matches(lookup, payload) && FirstMatch(lookup, before).None?
    requires l.ok(attempt) && Live(l, cached, l.at(attempt)).None?
    requires store == before || store == before + [payload]
    ensures LookUp(l, attempt, Some(lookup), cached, store).found == (if store == before then None else Some(payload))
    ensures LookUp(l, attempt, Some(lookup), cached, before).cached == Some(Cached(None, l.storedAt(attempt)))
  {
    FirstMatchFinds(lookup, before);
    FirstMatchFinds(lookup, store);
    if store != before { assert store[|before|] == payload; }
  }

  lemma {:induction false} RetriesAddAtMostOne(
    net: Network, payload: Fields, lookup: Option<Fields>, maxRetries: nat, attempt: nat, first: Option<Cached>,
    before: seq<Fields>, cached: Option<Cached>, store: seq<Fields>)
    requires attempt <= maxRetries && Guarded(net.lookups, payload, lookup, maxRetries, first)
    requires NothingYet(lookup, before)
    requires lookup.Some? ==> cached == CachedBefore(net.lookups, first, attempt)
    requires store == before || (store == before + [payload] && attempt > 0 && lookup.Some?)
    ensures AtMostOnce(payload, before, CreateFrom(net, payload, lookup, maxRetries, attempt, cached, store))
    decreases maxRetries - attempt
  {
    var l := net.lookups;
    if attempt > 0 && lookup.Some? {
      assert !Blind(l, payload, lookup.value, first, attempt);
      AskedServer(l, attempt, lookup.value, payload, cached, before, store);
    }
    if store != before { return; }
    var d := net.post(attempt);
    var looked := if attempt > 0 then LookUp(l, attempt, lookup, cached, store) else Looked(None, cached);
    if !d.Answered? && attempt < maxRetries && SafeToRetry(lookup, d) {
      RetriesAddAtMostOne(net, payload, lookup, maxRetries, attempt + 1, first, before, looked.cached,
                          Posted(store, payload, d));
    }
  }

  /** A network that refuses every POST before attempt `n - 1`, loses the answer of that one after it landed,
      and answers from then on. */
  function LosesOne(l: Lookups, n: nat): Network
    requires n >= 1
  {
    Network(m => if m < n - 1 then Refused else if m == n - 1 then Lost(true, true) else Answered, l)
  }

  lemma BlindFindsNothing(
    l: Lookups, payload: Fields, lookup: Fields, first: Option<Cached>, n: nat, before: seq<Fields>)
    requires n >= 1 && Blind(l, payload, lookup, first, n) && NothingYet(Some(lookup), before)
    requires !Misled(l, lookup, first)
    ensures LookUp(l, n, Some(lookup), CachedBefore(l, first, n), before + [payload]).found.None?
  {
    var store := before + [payload];
    if lookup != map[] && AsksServer(l, first, n) {
      FirstMatchFinds(lookup, before);
      FirstMatchFinds(lookup, store);
    }
  }

  /** While POSTs are refused, the lookups before a blind retry find nothing and leave the cache as expected. */
  lemma {:induction false} UnguardedDuplicates(
    l: Lookups, n: nat, payload: Fields, lookup: Fields, maxRetries: nat, attempt: nat, first: Option<Cached>,
    store: seq<Fields>)
    requires 1 <= n <= maxRetries && attempt < n
    requires Blind(l, payload, lookup, first, n) && forall m :: 1 <= m < n ==> !Blind(l, payload, lookup, first, m)
    requires NothingYet(Some(lookup), store) && !Misled(l, lookup, first)
    ensures CreateFrom(LosesOne(l, n), payload, Some(lookup), maxRetries, attempt, CachedBefore(l, first, attempt),
                       store).store
         == store + [payload] + [payload]
    decreases n - attempt
  {
    var net, cached := LosesOne(l, n), CachedBefore(l, first, attempt);
    if attempt > 0 {
      assert !Blind(l, payload, lookup, first, attempt);
      AskedServer(l, attempt, lookup, payload, cached, store, store);
    }
    if attempt < n - 1 {
      UnguardedDuplicates(l, n, payload, lookup, maxRetries, attempt + 1, first, store);
    } else {
      BlindFindsNothing(l, payload, lookup, first, n, store);
      assert CreateFrom(net, payload, Some(lookup), maxRetries, attempt, cached, store)
          == CreateFrom(net, payload, Some(lookup), maxRetries, n, CachedBefore(l, first, n), store + [payload]);
    }
  }

  lemma {:induction false} FirstBlind(
    l: Lookups, payload: Fields, lookup: Fields, cached: Option<Cached>, n: nat) returns (m: nat)
    requires n >= 1 && Blind(l, payload, lookup, cached, n)
    ensures 1 <= m <= n && Blind(l, payload, lookup, cached, m)
    ensures forall k :: 1 <= k < m ==> !Blind(l, payload, lookup, cached, k)
  {
    if k :| 1 <= k < n && Blind(l, payload, lookup, cached, k) {
      m := FirstBlind(l, payload, lookup, cached, k);
    } else {
      m := n;
    }
  }

  lemma {:induction false} MisledReturnsNothing(
    net: Network, payload: Fields, lookup: Fields, maxRetries: nat, cached: Option<Cached>, store: seq<Fields>)
    requires maxRetries >= 1 && Misled(net.lookups, lookup, cached) && net.post(0) == Lost(false, true)
    ensures var r := CreateFrom(net, payload, Some(lookup), maxRetries, 0, cached, store);
      r.outcome.FoundEarlier? && r.store == store
  {
    assert CreateFrom(net, payload, Some(lookup), maxRetries, 0, cached, store)
        == CreateFrom(net, payload, Some(lookup), maxRetries, 1, cached, store);
  }

  /** At most one record, whatever happens to the POSTs: for a call whose lookup matches nothing yet, this holds
      exactly when no lookup is passed, or before every retry the lookup is not empty, names the payload, succeeds
      and is not answered from the cache. */
  lemma {:induction false} CreateAtMostOnceIff(
    l: Lookups, payload: Fields, lookup: Option<Fields>, maxRetries: nat, cached: Option<Cached>, store: seq<Fields>)
    requires NothingYet(lookup, store)
    ensures Guarded(l, payload, lookup, maxRetries, cached) <==>
      forall post: nat -> Delivery ::
        AtMostOnce(payload, store, CreateFrom(Network(post, l), payload, lookup, maxRetries, 0, cached, store))
  {
    if Guarded(l, payload, lookup, maxRetries, cached) {
      forall post: nat -> Delivery
        ensures AtMostOnce(payload, store, CreateFrom(Network(post, l), payload, lookup, maxRetries, 0, cached, store))
      {
        RetriesAddAtMostOne(Network(post, l), payload, lookup, maxRetries, 0, cached, store, cached, store);
      }
    } else {
      var k :| 1 <= k <= maxRetries && Blind(l, payload, lookup.value, cached, k);
      var n := FirstBlind(l, payload, lookup.value, cached, k);
      var net := if Misled(l, lookup.value, cached) then Network(_ => Lost(false, true), l) else LosesOne(l, n);
      var r := CreateFrom(net, payload, lookup, maxRetries, 0, cached, store);
      if Misled(l, lookup.value, cached) {
        MisledReturnsNothing(net, payload, lookup.value, maxRetries, cached, store);
      } else {
        UnguardedDuplicates(l, n, payload, lookup.value, maxRetries, 0, cached, store);
        assert |r.store| == |store| + 2;
      }
      assert net == Network(net.post, l) && !AtMostOnce(payload, store, r);
    }
  }

  /** What the guard asks of the times: caching is off, or nothing cached is alive at the first retry and every
      later retry comes a time to live after the answer before it was stored. */
  lemma GuardedTimes(l: Lookups, payload: Fields, lookup: Fields, maxRetries: nat, cached: Option<Cached>)
    requires lookup != map[] && Matches(lookup, payload) && maxRetries >= 1
    requires forall n :: 1 <= n <= maxRetries ==> l.ok(n)
    ensures Guarded(l, payload, Some(lookup), maxRetries, cached) <==>
      || l.ttl <= 0.0
      || (&& Live(l, cached, l.at(1)).None?
          && forall n :: 2 <= n <= maxRetries ==> l.at(n) - l.storedAt(n - 1) >= l.ttl)
  {
    if Guarded(l, payload, Some(lookup), maxRetries, cached) && l.ttl > 0.0 {
      assert !Blind(l, payload, lookup, cached, 1);
      forall n | 2 <= n <= maxRetries ensures l.at(n) - l.storedAt(n - 1) >= l.ttl {
        assert !Blind(l, payload, lookup, cached, n);
      }
    }
  }

  /** A call at the default time to live of 60 seconds, with a good lookup that always succeeds: the empty answer
      before the first retry is cached, the POST of that retry lands unnoticed, and the next retry, a second later,
      reads the cached answer and stores a second copy. */
  lemma CachedAnswerDuplicates()
    ensures var l := Lookups(60.0, _ => true, n => n as real, n => n as real);
      var net := Network(n => if n == 2 then Answered else Lost(n == 1, true), l);
      var vm := map["name" := "vm"];
      && NothingYet(Some(vm), [])
      && CreateFrom(net, vm, Some(vm), 2, 0, None, []) == Final(Created(vm), [vm, vm])
  {
    var l := Lookups(60.0, _ => true, n => n as real, n => n as real);
    var net := Network(n => if n == 2 then Answered else Lost(n == 1, true), l);
    var vm := map["name" := "vm"];
    var empty := Some(Cached(None, 1.0));
    assert "name" in vm;
    assert CreateFrom(net, vm, Some(vm), 2, 2, empty, [vm]) == Final(Created(vm), [vm] + [vm]);
    assert CreateFrom(net, vm, Some(vm), 2, 1, None, []) == CreateFrom(net, vm, Some(vm), 2, 2, empty, [] + [vm]);
    assert CreateFrom(net, vm, Some(vm), 2, 0, None, []) == CreateFrom(net, vm, Some(vm), 2, 1, None, []);
  }

  /** Without a lookup, at most one POST takes effect over all attempts. */
  function LandedPosts(net: Network, lookup: Option<Fields>, maxRetries: nat, attempt: nat): nat
    requires attempt <= maxRetries && lookup.None?
    decreases maxRetries - attempt
  {
    var d := net.post(attempt);
    (if Landed(d) then 1 else 0) +
    if d.Answered? || attempt == maxRetries || !SafeToRetry(lookup, d) then 0
    else LandedPosts(net, lookup, maxRetries, attempt + 1)
  }

  lemma {:induction false} NoLookupLandsOnce(net: Network, lookup: Option<Fields>, maxRetries: nat, attempt: nat)
    requires attempt <= maxRetries && lookup.None?
    ensures LandedPosts(net, lookup, maxRetries, attempt) <= 1
    decreases maxRetries - attempt
  {
    if net.post(attempt).Refused? && attempt < maxRetries { NoLookupLandsOnce(net, lookup, maxRetries, attempt + 1); }
  }

  /** Without a lookup, a POST that is refused is tried again: a call whose POSTs are refused until one within the
      retries is answered creates the record, once. */
  lemma {:induction false} RefusedIsTriedAgain(
    net: Network, payload: Fields, maxRetries: nat, n: nat, attempt: nat, cached: Option<Cached>, store: seq<Fields>)
    requires attempt <= n <= maxRetries && net.post(n) == Answered
    requires forall m :: attempt <= m < n ==> net.post(m) == Refused
    ensures CreateFrom(net, payload, None, maxRetries, attempt, cached, store)
         == Final(Created(payload), store + [payload])
    decreases n - attempt
  {
    if attempt < n {
      assert net.post(attempt) == Refused;
      RefusedIsTriedAgain(net, payload, maxRetries, n, attempt + 1, cached, store);
    }
  }

  /** With a lookup that finds nothing, a POST that is lost transiently is tried again too. */
  lemma {:induction false} LostIsTriedAgain(
    net: Network, payload: Fields, lookup: Fields, maxRetries: nat, n: nat, attempt: nat, cached: Option<Cached>,
    store: seq<Fields>)
    requires attempt <= n <= maxRetries && net.post(n) == Answered
    requires forall m :: attempt <= m < n ==> net.post(m) == Refused || net.post(m) == Lost(false, true)
    requires FirstMatch(lookup, store).None? && (cached.Some? ==> cached.value.answer.None?)
    ensures CreateFrom(net, payload, Some(lookup), maxRetries, attempt, cached, store)
         == Final(Created(payload), store + [payload])
    decreases n - attempt
  {
    if attempt < n {
      var looked := if attempt > 0 then LookUp(net.lookups, attempt, Some(lookup), cached, store)
                    else Looked(None, cached);
      assert net.post(attempt) == Refused || net.post(attempt) == Lost(false, true);
      LostIsTriedAgain(net, payload, lookup, maxRetries, n, attempt + 1, looked.cached, store);
    }
  }

  /** Without a lookup, a POST whose fate is open is never repeated; with one, never if it failed for good. */
  lemma {:induction false} OpenFateIsFinal(
    net: Network, payload: Fields, lookup: Option<Fields>, maxRetries: nat, cached: Option<Cached>, store: seq<Fields>)
    requires net.post(0).Lost? && (lookup.None? || !net.post(0).transient)
    ensures CreateFrom(net, payload, lookup, maxRetries, 0, cached, store)
         == Final(Raised, Posted(store, payload, net.post(0)))
  {
  }
}
