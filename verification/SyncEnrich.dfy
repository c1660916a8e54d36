/** One synchronous enrichment over the cache: look up, mark, call the API,
    store what is worth caching. No other thread runs meanwhile; every reading
    of the clock is given. */
module SyncEnrich {
  import opened Wrappers
  import opened CacheEntry
  import opened Resolving
  import opened CacheLayers
  import opened IdentityCacheModule
  import opened CacheContents
  import CacheStability

  datatype Answer = Served(c: CacheResult) | Called(response: Response)

  // What happens after a miss: the markers, the call, then the store. `marked`
  // and `stored` are the clock readings, `m` and `g` the failed writes.
  function CalledLayers(s: Layers, keys: seq<CacheKey>, timeout: int, x: Response, p: Policy,
                        marked: nat -> nat, stored: nat -> nat, m: Faults, g: Faults): Layers {
    var t := PutInProgressTo(s, keys, |keys|, timeout, marked, m);
    match x
    case Uncacheable => t
    case NoIdentifiers(r) => PutNegativeTo(t, keys, |keys|, r, p, stored, g)
    case Identifiers(r) => PutResolvedTo(t, keys, |keys|, r, p, stored, g)
  }

  /** What Enrich answers and leaves in the cache. Anything but a miss is
      served without a call. */
  ghost predicate EnrichOutcome(s: Layers, keys: seq<CacheKey>, timeout: int, x: Response, p: Policy,
                                c: Clock, marked: nat -> nat, stored: nat -> nat, f: Faults, m: Faults, g: Faults,
                                s': Layers, a: Answer) {
    match a
    case Served(r) => !r.Miss? && GetOutcome(s, keys, p, c, f, s', r)
    case Called(y) => y == x && CalledAfterMiss(s, keys, timeout, x, p, c, marked, stored, f, m, g, s')
  }

  ghost predicate CalledAfterMiss(s: Layers, keys: seq<CacheKey>, timeout: int, x: Response, p: Policy,
                                  c: Clock, marked: nat -> nat, stored: nat -> nat, f: Faults, m: Faults, g: Faults, s': Layers) {
    exists t :: GetOutcome(s, keys, p, c, f, t, Miss) && s' == CalledLayers(t, keys, timeout, x, p, marked, stored, m, g)
  }

  /** What a call leaves, read off the API's answer: the markers in the store; and
      over them, if the answer succeeded with a body that is not empty, under every
      key and in each layer whose write did not fail, what the body says, for the
      lifetime that it gives. */
  ghost predicate AfterCall(s: Layers, keys: seq<CacheKey>, timeout: int, api: Api, p: Policy, c: Clock,
                            marked: nat -> nat, stored: nat -> nat, f: Faults, m: Faults, g: Faults, s': Layers) {
    exists t, u ::
      && Looked(s, keys, p, c, f, t, Miss) && MarkOutcome(t, keys, |keys|, timeout, marked, m, u)
      && (if Successful(api) then
            PutOutcome(u, keys, |keys|, Resolution(api.eids, api.abTestUuid, api.cause, OwnLife(api)), api.eids == [], p, stored, g, s')
          else s' == u)
  }

  lemma CalledExactly(s: Layers, t: Layers, keys: seq<CacheKey>, timeout: int, api: Api, p: Policy, c: Clock,
                      marked: nat -> nat, stored: nat -> nat, f: Faults, m: Faults, g: Faults)
    requires GetOutcome(s, keys, p, c, f, t, Miss)
    ensures Reads(Classify(api), api)
    ensures AfterCall(s, keys, timeout, api, p, c, marked, stored, f, m, g,
                      CalledLayers(t, keys, timeout, Classify(api), p, marked, stored, m, g))
  {
    ClassifyReads(api);
    LookupExactly(s, keys, p, c, f, t, Miss);
    PutInProgressExactly(t, keys, |keys|, timeout, marked, m);
    var u := PutInProgressTo(t, keys, |keys|, timeout, marked, m);
    if Successful(api) {
      var r := Resolution(api.eids, api.abTestUuid, api.cause, OwnLife(api));
      assert Classify(api).r == r;
      if api.eids == [] { PutNegativeExactly(u, keys, |keys|, r, p, stored, g); }
      else { PutResolvedExactly(u, keys, |keys|, r, p, stored, g); }
    }
  }

  class SyncEnricher {
    const cache: IdentityCache

    constructor (policy: Policy)
      ensures fresh(cache) && cache.policy == policy && cache.View() == Layers(map[], map[], 0)
    {
      cache := new IdentityCache(policy);
    }

    method Enrich(keys: seq<CacheKey>, timeout: int, api: Api, c: Clock, marked: nat -> nat, stored: nat -> nat,
                  f: Faults, m: Faults, g: Faults) returns (a: Answer)
      modifies cache
      ensures EnrichOutcome(old(cache.View()), keys, timeout, Classify(api), cache.policy, c, marked, stored, f, m, g, cache.View(), a)
      ensures a.Served? ==> !a.c.Miss? && Looked(old(cache.View()), keys, cache.policy, c, f, cache.View(), a.c)
      ensures a.Called? ==>
        && Reads(a.response, api)
        && AfterCall(old(cache.View()), keys, timeout, api, cache.policy, c, marked, stored, f, m, g, cache.View())
    {
      var found := cache.Get(keys, c, f);
      if !found.Miss? { return Served(found); }
      ghost var t := cache.View();
      // a marker that cannot be written is only logged
      var _ := cache.PutInProgress(keys, timeout, marked, m);
      var x := Classify(api);
      StoreResult(keys, x, stored, g);
      assert GetOutcome(old(cache.View()), keys, cache.policy, c, f, t, Miss);
      CalledExactly(old(cache.View()), t, keys, timeout, api, cache.policy, c, marked, stored, f, m, g);
      return Called(x);
    }

    // Only a result with or without identifiers is cached: not a failed call,
    // and not an empty body.
    method StoreResult(keys: seq<CacheKey>, x: Response, at: nat -> nat, g: Faults)
      modifies cache
      ensures cache.View() == match x {
        case Uncacheable => old(cache.View())
        case NoIdentifiers(r) => PutNegativeTo(old(cache.View()), keys, |keys|, r, cache.policy, at, g)
        case Identifiers(r) => PutResolvedTo(old(cache.View()), keys, |keys|, r, cache.policy, at, g) }
    {
      match x
      case Uncacheable =>
      case NoIdentifiers(r) => cache.PutNegative(keys, r, at, g);
      case Identifiers(r) => cache.PutResolved(keys, r, at, g);
    }
  }

  // Each key holds the marker written at its own instant.
  ghost predicate AllMarked(s: Layers, keys: seq<CacheKey>, timeout: int, at: nat -> nat) {
    forall i: nat :: i < |keys| ==> keys[i].value in s.l2 && s.l2[keys[i].value].entry == Marker(timeout, at(i))
  }

  lemma {:induction false} MarksAll(s: Layers, keys: seq<CacheKey>, n: nat, timeout: int, at: nat -> nat)
    requires n <= |keys| && CacheStability.Distinct(keys)
    ensures var t := PutInProgressTo(s, keys, n, timeout, at, NoFaults);
      t.l1 == s.l1 && forall i: nat :: i < n ==> keys[i].value in t.l2 && t.l2[keys[i].value].entry == Marker(timeout, at(i))
    decreases n
  {
    if n > 0 { MarksAll(s, keys, n - 1, timeout, at); }
  }

  // The first marker that a lookup still finds alive, if any.
  ghost predicate Awaited(keys: seq<CacheKey>, timeout: int, marked: nat -> nat, c: Clock, i: nat) {
    i < |keys| && Live(Marker(timeout, marked(i)), c.store(i))
  }

  /** After a call that is not worth caching, in a fault-free run with no other
      write to its keys, the same call is answered in-progress without a call to
      the API as long as a marker lives when its key is read, and from the
      instant on at which none does it misses and calls again. */
  lemma RetryAfterUncacheable(s: Layers, keys: seq<CacheKey>, timeout: int, x: Response, p: Policy,
                              c: Clock, marked: nat -> nat, stored: nat -> nat, s': Layers,
                              timeout': int, x': Response, c': Clock, marked': nat -> nat, stored': nat -> nat,
                              s'': Layers, a: Answer)
    requires CacheStability.Distinct(keys) && x.Uncacheable?
    requires forall i: nat :: i < |keys| ==> c.local(i) <= c'.local(i)
    requires EnrichOutcome(s, keys, timeout, x, p, c, marked, stored, NoFaults, NoFaults, NoFaults, s', Called(x))
    requires EnrichOutcome(s', keys, timeout', x', p, c', marked', stored', NoFaults, NoFaults, NoFaults, s'', a)
    ensures a.Called? <==> forall i: nat :: i < |keys| ==> Millis(c'.store(i)) >= Millis(marked(i)) + DurationMillis(timeout)
    ensures a.Served? ==> a.c.InProgress? && a.c.layer == L2 && s''.l1 == s'.l1 && s''.l2 == s'.l2
    ensures a.Served? ==> exists i: nat :: Awaited(keys, timeout, marked, c', i) && a.c.kind == keys[i].kind
                            && forall j: nat :: j < i ==> !Awaited(keys, timeout, marked, c', j)
  {
    var t :| GetOutcome(s, keys, p, c, NoFaults, t, Miss) && s' == CalledLayers(t, keys, timeout, x, p, marked, stored, NoFaults, NoFaults);
    MissLeaves(s, keys, p, c, t);
    MarksAll(t, keys, |keys|, timeout, marked);
    forall j: nat | j < |keys| ensures !LocalHit(s', keys, c', NoFaults, j) {
      assert !LocalHit(s, keys, c, NoFaults, j);
      MillisMonotone(c.local(j), c'.local(j));
    }
    NothingElse(s', keys, timeout, marked, p, c');
    if a.Served? {
      StillAwaited(s', keys, timeout, marked, c', s'', a.c);
    } else {
      var u :| GetOutcome(s', keys, p, c', NoFaults, u, Miss);
      NoneAwaited(s', keys, timeout, marked, c', u);
    }
  }

  // No answer but a marker that lives.
  lemma StillAwaited(s: Layers, keys: seq<CacheKey>, timeout: int, marked: nat -> nat, c: Clock, s': Layers, r: CacheResult)
    requires NoAnswer(s, keys, c, NoFaults, s', r) && !r.Miss?
    requires forall i: nat :: i < |keys| ==> (StoreMarker(s, keys, c, NoFaults, i) <==> Awaited(keys, timeout, marked, c, i))
    ensures r.InProgress? && r.layer == L2 && s'.l1 == s.l1 && s'.l2 == s.l2
    ensures exists i: nat :: Awaited(keys, timeout, marked, c, i) && r.kind == keys[i].kind
                          && forall j: nat :: j < i ==> !Awaited(keys, timeout, marked, c, j)
  {
    MarkerOrNone(s, keys, c, NoFaults, |keys|);
    var i: nat :| i < |keys| && FirstMarker(s, keys, c, NoFaults, i);
    assert Awaited(keys, timeout, marked, c, i);
  }

  lemma NoneAwaited(s: Layers, keys: seq<CacheKey>, timeout: int, marked: nat -> nat, c: Clock, s': Layers)
    requires NoAnswer(s, keys, c, NoFaults, s', Miss)
    requires forall i: nat :: i < |keys| ==> (StoreMarker(s, keys, c, NoFaults, i) <==> Awaited(keys, timeout, marked, c, i))
    ensures forall i: nat :: i < |keys| ==> !Awaited(keys, timeout, marked, c, i)
  {
    MarkerOrNone(s, keys, c, NoFaults, |keys|);
  }

  lemma MissLeaves(s: Layers, keys: seq<CacheKey>, p: Policy, c: Clock, t: Layers)
    requires GetOutcome(s, keys, p, c, NoFaults, t, Miss)
    ensures NoLocal(s, keys, c, NoFaults) && t.l1 == s.l1 && t.l2 == s.l2
  {
    if i: nat :| LocalAnswer(s, keys, p, c, NoFaults, t, Miss, i) { assert false; }
    if i: nat :| StoreAnswer(s, keys, p, c, NoFaults, t, Miss, i) { assert false; }
  }

  // A lookup over nothing but markers finds those that live, and no answer.
  lemma NothingElse(s: Layers, keys: seq<CacheKey>, timeout: int, at: nat -> nat, p: Policy, c: Clock)
    requires NoLocal(s, keys, c, NoFaults) && AllMarked(s, keys, timeout, at)
    ensures NoStore(s, keys, c, NoFaults)
    ensures forall i: nat :: i < |keys| ==> (StoreMarker(s, keys, c, NoFaults, i) <==> Awaited(keys, timeout, at, c, i))
    ensures forall t, r :: GetOutcome(s, keys, p, c, NoFaults, t, r) ==> NoAnswer(s, keys, c, NoFaults, t, r)
  {
  }
}
