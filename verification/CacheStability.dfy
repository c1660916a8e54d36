/** Lookup stability: what an answered lookup leaves in L1 answers the next
    lookup the same way, without asking the store, whatever happens to the
    store in between. */
module CacheStability {
  import opened Wrappers
  import opened CacheEntry
  import opened CacheLayers

  ghost predicate PositiveCeilings(p: Policy) {
    forall kind: KeyType :: DurationMillis(CeilingFor(p, kind)) >= 1
  }

  ghost predicate NoLocalMarkers(s: Layers) {
    forall k :: k in s.l1 ==> !s.l1[k].entry.inProgress
  }

  // The clock does not run back from the reads of the lookup to `later`, nor
  // to the reads of its backfill.
  ghost predicate Forward(c: Clock, n: nat, later: nat) {
    && (forall i: nat, j: nat :: i < n && j < n ==> c.local(i) <= c.probe(j))
    && (forall i: nat :: i < n ==> c.local(i) <= later)
  }

  // An L1 entry under the key has the payload of `hit`.
  predicate Holds(s: Layers, key: string, hit: Entry) {
    key in s.l1 && SamePayload(s.l1[key].entry, hit)
  }

  /** A backfill writes nothing but aliases of its hit to L1. */
  lemma {:induction false} BackfillHolds(s: Layers, keys: seq<CacheKey>, n: nat, skip: nat, hit: Entry, remaining: int,
                                        p: Policy, c: Clock, f: Faults)
    requires n <= |keys|
    ensures var t := BackfillTo(s, keys, n, skip, hit, remaining, p, c, f);
      && t.gets == s.gets
      && (forall k :: k in t.l1 ==> Holds(t, k, hit) || (k in s.l1 && t.l1[k] == s.l1[k]))
    decreases n
  {
    if n > 0 { BackfillHolds(s, keys, n - 1, skip, hit, remaining, p, c, f); }
  }

  lemma FilledHolds(s: Layers, keys: seq<CacheKey>, skip: nat, hit: Entry, p: Policy, c: Clock, f: Faults)
    ensures var t := Backfill(s, keys, skip, hit, p, c, f);
      && t.gets == s.gets
      && (forall k :: k in t.l1 ==> Holds(t, k, hit) || (k in s.l1 && t.l1[k] == s.l1[k]))
  {
    if hit.expiresAt > Millis(c.fill) {
      BackfillHolds(s, keys, |keys|, skip, hit, hit.expiresAt - Millis(c.fill), p, c, f);
    }
  }

  // The same answer, but for the key type and the layer it came from.
  predicate SameAnswer(a: CacheResult, b: CacheResult) {
    match a
    case Hit(eids, ab, cause, _, _) => b.Hit? && b.eids == eids && b.abTestUuid == ab && b.cause == cause
    case Negative(ab, cause, _, _) => b.Negative? && b.abTestUuid == ab && b.cause == cause
    case _ => false
  }

  // The L1 entry under the key answers as `r` does.
  predicate Gives(s: Layers, key: string, r: CacheResult) {
    key in s.l1 && !s.l1[key].entry.inProgress && SameAnswer(r, FromEntry(s.l1[key].entry, OtherKey, L1))
  }

  // What lives in L1 at `later` under the key answers as `r` does.
  predicate Leaves(s: Layers, key: string, r: CacheResult, later: nat) {
    key in s.l1 && Live(s.l1[key].entry, later) ==> Gives(s, key, r)
  }

  /** A lookup that finds live L1 entries which all give the same answer
      answers so from L1, whatever the store would have done. */
  lemma LocalServes(s: Layers, keys: seq<CacheKey>, p: Policy, c: Clock, f: Faults, s': Layers, r': CacheResult,
                    r: CacheResult, i: nat)
    requires GetOutcome(s, keys, p, c, f, s', r')
    requires i < |keys| && LocalHit(s, keys, c, f, i)
    requires forall j: nat :: j <= i && LocalHit(s, keys, c, f, j) ==> Gives(s, keys[j].value, r)
    ensures SameAnswer(r, r') && r'.layer == L1
    ensures i == 0 ==> r' == FromEntry(s.l1[keys[0].value].entry, keys[0].kind, L1)
    ensures s'.gets == s.gets
  {
    var k: nat :| LocalAnswer(s, keys, p, c, f, s', r', k);
    assert k <= i;
    FilledHolds(s, keys, k, s.l1[keys[k].value].entry, p, c, f);
  }

  // What then lives in L1 under the first key, or after a store hit under any
  // of the keys, gives the same answer.
  lemma Answered(s: Layers, keys: seq<CacheKey>, p: Policy, c: Clock, f: Faults, s': Layers, r: CacheResult, j: nat,
    later: nat)
    requires NoLocalMarkers(s) && f.localGets == {} && Forward(c, |keys|, later)
    requires GetOutcome(s, keys, p, c, f, s', r) && (r.Hit? || r.Negative?)
    requires j < |keys| && (j == 0 || r.layer == L2)
    ensures Leaves(s', keys[j].value, r, later)
  {
    MillisMonotone(c.local(j), later);
    if i: nat :| LocalAnswer(s, keys, p, c, f, s', r, i) {
      FilledHolds(s, keys, i, s.l1[keys[i].value].entry, p, c, f);
      assert i != 0 ==> !LocalHit(s, keys, c, f, 0);
    } else {
      MarkerOrNone(s, keys, c, f, |keys|);
      var i: nat :| StoreAnswer(s, keys, p, c, f, s', r, i);
      StoreAnswered(s, keys, p, c, f, s', r, j, later, i);
    }
  }

  lemma StoreAnswered(s: Layers, keys: seq<CacheKey>, p: Policy, c: Clock, f: Faults, s': Layers, r: CacheResult,
                      j: nat, later: nat, i: nat)
    requires NoLocalMarkers(s) && f.localGets == {} && c.local(j) <= later && j < |keys|
    requires StoreAnswer(s, keys, p, c, f, s', r, i)
    ensures Leaves(s', keys[j].value, r, later)
  {
    var hit := s.l2[keys[i].value].entry;
    FilledHolds(Promote(s.(gets := s.gets + i + 1), keys[i].value, hit, c.promote, f), keys, i, hit, p, c, f);
    MillisMonotone(c.local(j), later);
    assert !LocalHit(s, keys, c, f, j);
  }

  /** After a positive or negative hit, from either layer, the same lookup is
      answered the same way from L1 without a store read for as long as its
      first key lives there: `t` has L1 as the first lookup left it, and any
      store whatever. */
  lemma RepeatedLookup(s: Layers, keys: seq<CacheKey>, p: Policy, c: Clock, f: Faults, s': Layers, r: CacheResult,
                       t: Layers, c': Clock, f': Faults, t': Layers, r': CacheResult)
    requires NoLocalMarkers(s) && f.localGets == {} && Forward(c, |keys|, c'.local(0))
    requires GetOutcome(s, keys, p, c, f, s', r) && (r.Hit? || r.Negative?)
    requires t.l1 == s'.l1 && keys != [] && LocalGet(t, keys[0].value, c'.local(0)).Some? && 0 !in f'.localGets
    requires GetOutcome(t, keys, p, c', f', t', r')
    ensures SameAnswer(r, r') && r'.layer == L1 && r'.kind == keys[0].kind && t'.gets == t.gets
  {
    Answered(s, keys, p, c, f, s', r, 0, c'.local(0));
    assert Gives(t, keys[0].value, r);
    LocalServes(t, keys, p, c', f', t', r', r, 0);
  }

  /** After a hit from the store, every list of keys of that lookup, in any
      order, is answered the same way from L1 without a store read for as long
      as one of them lives there. */
  lemma RepeatedSubLookup(s: Layers, keys: seq<CacheKey>, p: Policy, c: Clock, f: Faults, s': Layers, r: CacheResult,
                          sub: seq<CacheKey>, t: Layers, c': Clock, f': Faults, t': Layers, r': CacheResult, live: nat)
    requires NoLocalMarkers(s) && f.localGets == {}
    requires forall j: nat :: j < |sub| ==> sub[j] in keys && Forward(c, |keys|, c'.local(j))
    requires GetOutcome(s, keys, p, c, f, s', r) && (r.Hit? || r.Negative?) && r.layer == L2
    requires t.l1 == s'.l1 && live < |sub| && LocalGet(t, sub[live].value, c'.local(live)).Some? && live !in f'.localGets
    requires GetOutcome(t, sub, p, c', f', t', r')
    ensures SameAnswer(r, r') && r'.layer == L1 && t'.gets == t.gets
  {
    forall j: nat | j < |sub| ensures Leaves(t, sub[j].value, r, c'.local(j)) {
      var i: nat :| i < |keys| && keys[i] == sub[j];
      Answered(s, keys, p, c, f, s', r, i, c'.local(j));
    }
    assert Gives(t, sub[live].value, r);
    LocalServes(t, sub, p, c', f', t', r', r, live);
  }

  /** With positive ceilings and no failed L1 access, an answered lookup does
      leave a live entry under its first key, and after a store hit under
      every key, if the clock stands still meanwhile. */
  lemma AnsweredLives(s: Layers, keys: seq<CacheKey>, p: Policy, now: nat, f: Faults, s': Layers, r: CacheResult)
    requires PositiveCeilings(p) && NoLocalMarkers(s) && f.localSets == f.localGets == {} && !f.promoteSet
    requires GetOutcome(s, keys, p, Still(now), f, s', r) && (r.Hit? || r.Negative?)
    ensures keys != [] && LocalGet(s', keys[0].value, now).Some?
    ensures r.layer == L2 ==> forall j: nat :: j < |keys| ==> LocalGet(s', keys[j].value, now).Some?
  {
    var c := Still(now);
    if i: nat :| LocalAnswer(s, keys, p, c, f, s', r, i) {
      var hit := s.l1[keys[i].value].entry;
      BackfillLives(s, keys, |keys|, i, hit, hit.expiresAt - Millis(now), p, now, f);
    } else {
      MarkerOrNone(s, keys, c, f, |keys|);
      var i: nat :| StoreAnswer(s, keys, p, c, f, s', r, i);
      StoreLives(s, keys, p, now, f, s', r, i);
    }
  }

  lemma StoreLives(s: Layers, keys: seq<CacheKey>, p: Policy, now: nat, f: Faults, s': Layers, r: CacheResult, i: nat)
    requires PositiveCeilings(p) && f.localSets == {} && !f.promoteSet && StoreAnswer(s, keys, p, Still(now), f, s', r, i)
    ensures forall j: nat :: j < |keys| ==> LocalGet(s', keys[j].value, now).Some?
  {
    var hit := s.l2[keys[i].value].entry;
    var t := Promote(s.(gets := s.gets + i + 1), keys[i].value, hit, now, f);
    assert LocalGet(t, keys[i].value, now).Some?;
    BackfillLives(t, keys, |keys|, i, hit, hit.expiresAt - Millis(now), p, now, f);
  }

  /** A backfill under a still clock keeps every live L1 entry and leaves a
      live one under every other key. */
  lemma {:induction false} BackfillLives(s: Layers, keys: seq<CacheKey>, n: nat, skip: nat, hit: Entry, remaining: int,
                                        p: Policy, now: nat, f: Faults)
    requires n <= |keys| && remaining >= 1 && PositiveCeilings(p) && f.localSets == {}
    ensures var t := BackfillTo(s, keys, n, skip, hit, remaining, p, Still(now), f);
      && (forall k :: LocalGet(s, k, now).Some? ==> LocalGet(t, k, now).Some?)
      && (forall j: nat :: j < n && j != skip ==> LocalGet(t, keys[j].value, now).Some?)
    decreases n
  {
    if n > 0 { BackfillLives(s, keys, n - 1, skip, hit, remaining, p, now, f); }
  }

  /* ---------- a lookup after a write ---------- */

  predicate Distinct(keys: seq<CacheKey>) {
    forall i, j :: 0 <= i < j < |keys| ==> keys[i].value != keys[j].value
  }

  lemma {:induction false} ResolvedStored(s: Layers, keys: seq<CacheKey>, n: nat, r: Resolution, p: Policy,
                                         at: nat -> nat, f: Faults, i: nat)
    requires i < n <= |keys| && Distinct(keys) && i !in f.localSets
    ensures var t := PutResolvedTo(s, keys, n, r, p, at, f);
      && keys[i].value in t.l1
      && t.l1[keys[i].value].entry == Resolved(r, EffectiveTTL(p, keys[i].kind, r.cacheTTL), at(i))
    decreases n
  {
    if i < n - 1 { ResolvedStored(s, keys, n - 1, r, p, at, f, i); }
  }

  lemma {:induction false} NegativeStored(s: Layers, keys: seq<CacheKey>, n: nat, r: Resolution, p: Policy,
                                         at: nat -> nat, f: Faults, i: nat)
    requires i < n <= |keys| && Distinct(keys) && i !in f.localSets
    ensures var t := PutNegativeTo(s, keys, n, r, p, at, f);
      && keys[i].value in t.l1
      && t.l1[keys[i].value].entry == NegativeEntry(r, NegativeTTLFor(p, r.cacheTTL), at(i))
    decreases n
  {
    if i < n - 1 { NegativeStored(s, keys, n - 1, r, p, at, f, i); }
  }

  /** A result just stored answers every lookup that starts with one of its
      keys, from L1 and without a store read, until that key's own lifetime is
      over: `t` has L1 as the put left it, and any store whatever. */
  lemma PutThenGet(s: Layers, keys: seq<CacheKey>, r: Resolution, p: Policy, at: nat -> nat, f: Faults,
                   asked: seq<CacheKey>, i: nat, t: Layers, c: Clock, f': Faults, t': Layers, r': CacheResult)
    requires Distinct(keys) && i < |keys| && i !in f.localSets && asked != [] && asked[0] == keys[i]
    requires Millis(c.local(0)) < Expiry(at(i), EffectiveTTL(p, keys[i].kind, r.cacheTTL)) && 0 !in f'.localGets
    requires t.l1 == PutResolvedTo(s, keys, |keys|, r, p, at, f).l1
    requires GetOutcome(t, asked, p, c, f', t', r')
    ensures r' == Hit(r.eids, r.abTestUuid, r.cause, keys[i].kind, L1) && t'.gets == t.gets
  {
    ResolvedStored(s, keys, |keys|, r, p, at, f, i);
    LocalServes(t, asked, p, c, f', t', r', Hit(r.eids, r.abTestUuid, r.cause, keys[i].kind, L1), 0);
  }

  lemma PutNegativeThenGet(s: Layers, keys: seq<CacheKey>, r: Resolution, p: Policy, at: nat -> nat, f: Faults,
                           asked: seq<CacheKey>, i: nat, t: Layers, c: Clock, f': Faults, t': Layers, r': CacheResult)
    requires Distinct(keys) && i < |keys| && i !in f.localSets && asked != [] && asked[0] == keys[i]
    requires Millis(c.local(0)) < Expiry(at(i), NegativeTTLFor(p, r.cacheTTL)) && 0 !in f'.localGets
    requires t.l1 == PutNegativeTo(s, keys, |keys|, r, p, at, f).l1
    requires GetOutcome(t, asked, p, c, f', t', r')
    ensures r' == Negative(r.abTestUuid, r.cause, keys[i].kind, L1) && t'.gets == t.gets
  {
    NegativeStored(s, keys, |keys|, r, p, at, f, i);
    LocalServes(t, asked, p, c, f', t', r', Negative(r.abTestUuid, r.cause, keys[i].kind, L1), 0);
  }
}
