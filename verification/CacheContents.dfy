/** What the writing operations leave in the two layers, key by key and field by
    field. */
module CacheContents {
  import opened Wrappers
  import opened CacheEntry
  import opened CacheLayers
  import CacheStability

  // The fields of a stored answer: those of the resolution, in the millisecond in
  // which its lifetime under this type of key ends.
  predicate Keeps(e: Entry, r: Resolution, negative: bool, p: Policy, kind: KeyType, at: nat, life: int) {
    && !e.inProgress && e.negative == negative && e.eids == (if negative then [] else r.eids)
    && e.abTestUuid == r.abTestUuid && e.cause == r.cause
    && Lasts(p, kind, negative, r.cacheTTL, life) && e.expiresAt == Expiry(at, life)
  }

  // The whole seconds that L1 is given: the fewest that cover the lifetime.
  predicate WholeSeconds(ttl: int, life: int) {
    ttl % 1_000_000_000 == 0 && ttl > 0 && ttl >= life && (ttl == 1_000_000_000 || ttl - 1_000_000_000 < life)
  }

  // Each layer has the answer under the key, unless its write failed.
  ghost predicate StoredUnder(s: Layers, key: CacheKey, r: Resolution, negative: bool, p: Policy, at: nat, i: nat,
    f: Faults) {
    exists life ::
      && Lasts(p, key.kind, negative, r.cacheTTL, life)
      && (i !in f.localSets ==>
            && key.value in s.l1 && WholeSeconds(s.l1[key.value].ttl, life)
            && Keeps(s.l1[key.value].entry, r, negative, p, key.kind, at, life))
      && (i !in f.storePuts ==>
            && key.value in s.l2 && s.l2[key.value].ttl == life
            && Keeps(s.l2[key.value].entry, r, negative, p, key.kind, at, life))
  }

  predicate SameUnder(s: Layers, t: Layers, key: string) {
    && (key in s.l1 <==> key in t.l1) && (key in s.l1 ==> t.l1[key] == s.l1[key])
    && (key in s.l2 <==> key in t.l2) && (key in s.l2 ==> t.l2[key] == s.l2[key])
  }

  predicate Listed(keys: seq<CacheKey>, n: nat, key: string) { exists i :: 0 <= i < n && i < |keys| && keys[i].value == key }

  /** Every key of a put, each different, has the answer in each layer that was
      written, and no other key has changed; no store read is made. */
  ghost predicate PutOutcome(s: Layers, keys: seq<CacheKey>, n: nat, r: Resolution, negative: bool, p: Policy,
                             at: nat -> nat, f: Faults, t: Layers) {
    && t.gets == s.gets
    && (forall key :: !Listed(keys, n, key) ==> SameUnder(s, t, key))
    && (CacheStability.Distinct(keys) ==>
          forall i: nat :: i < n && i < |keys| ==> StoredUnder(t, keys[i], r, negative, p, at(i), i, f))
  }

  lemma Seconds(life: int)
    ensures WholeSeconds(FreeCacheSeconds(life) * SECOND, life)
  {
    LeastSeconds(life, FreeCacheSeconds(life) - 1);
  }

  lemma WriteKeeps(s: Layers, key: CacheKey, e: Entry, r: Resolution, negative: bool, p: Policy, at: nat, life: int,
    i: nat, f: Faults)
    requires Keeps(e, r, negative, p, key.kind, at, life)
    ensures StoredUnder(WriteBoth(s, key.value, e, life, i, f), key, r, negative, p, at, i, f)
  {
    Seconds(life);
  }

  lemma WriteElsewhere(s: Layers, key: string, e: Entry, life: int, i: nat, f: Faults, other: string)
    requires other != key
    ensures SameUnder(s, WriteBoth(s, key, e, life, i, f), other)
  {
  }

  lemma StoredStays(s: Layers, t: Layers, key: CacheKey, r: Resolution, negative: bool, p: Policy, at: nat, i: nat,
    f: Faults)
    requires StoredUnder(s, key, r, negative, p, at, i, f) && SameUnder(s, t, key.value)
    ensures StoredUnder(t, key, r, negative, p, at, i, f)
  {
  }

  // One more key is written.
  lemma PutMore(s: Layers, t: Layers, keys: seq<CacheKey>, n: nat, e: Entry, life: int, r: Resolution, negative: bool,
                p: Policy, at: nat -> nat, f: Faults)
    requires n < |keys| && PutOutcome(s, keys, n, r, negative, p, at, f, t)
    requires Keeps(e, r, negative, p, keys[n].kind, at(n), life)
    ensures PutOutcome(s, keys, n + 1, r, negative, p, at, f, WriteBoth(t, keys[n].value, e, life, n, f))
  {
    var u := WriteBoth(t, keys[n].value, e, life, n, f);
    WriteKeeps(t, keys[n], e, r, negative, p, at(n), life, n, f);
    forall key | !Listed(keys, n + 1, key) ensures SameUnder(s, u, key) {
      assert !Listed(keys, n, key) && key != keys[n].value;
      WriteElsewhere(t, keys[n].value, e, life, n, f, key);
    }
    if CacheStability.Distinct(keys) {
      forall i: nat | i < n + 1 && i < |keys| ensures StoredUnder(u, keys[i], r, negative, p, at(i), i, f) {
        if i < n {
          WriteElsewhere(t, keys[n].value, e, life, n, f, keys[i].value);
          StoredStays(t, u, keys[i], r, negative, p, at(i), i, f);
        }
      }
    }
  }

  lemma {:induction false} PutResolvedExactly(s: Layers, keys: seq<CacheKey>, n: nat, r: Resolution, p: Policy,
    at: nat -> nat, f: Faults)
    requires n <= |keys|
    ensures PutOutcome(s, keys, n, r, false, p, at, f, PutResolvedTo(s, keys, n, r, p, at, f))
    decreases n
  {
    if n > 0 {
      PutResolvedExactly(s, keys, n - 1, r, p, at, f);
      var life := EffectiveTTL(p, keys[n - 1].kind, r.cacheTTL);
      LastsExactly(p, keys[n - 1].kind, r.cacheTTL, life);
      PutMore(s, PutResolvedTo(s, keys, n - 1, r, p, at, f), keys, n - 1, Resolved(r, life, at(n - 1)), life, r, false, p, at, f);
    }
  }

  lemma {:induction false} PutNegativeExactly(s: Layers, keys: seq<CacheKey>, n: nat, r: Resolution, p: Policy,
    at: nat -> nat, f: Faults)
    requires n <= |keys|
    ensures PutOutcome(s, keys, n, r, true, p, at, f, PutNegativeTo(s, keys, n, r, p, at, f))
    decreases n
  {
    if n > 0 {
      PutNegativeExactly(s, keys, n - 1, r, p, at, f);
      var life := NegativeTTLFor(p, r.cacheTTL);
      LastsExactly(p, keys[n - 1].kind, r.cacheTTL, life);
      PutMore(s, PutNegativeTo(s, keys, n - 1, r, p, at, f), keys, n - 1, NegativeEntry(r, life, at(n - 1)), life, r, true, p, at, f);
    }
  }

  /** Every key of a marking, each different, has its marker in the store unless
      that write failed: no identifiers, in progress, with the caller's lifetime
      from its own instant. L1 is as it was, and so is every other key. */
  ghost predicate MarkOutcome(s: Layers, keys: seq<CacheKey>, n: nat, ttl: int, at: nat -> nat, f: Faults, t: Layers) {
    && t.gets == s.gets && t.l1 == s.l1
    && (forall key :: !Listed(keys, n, key) ==> SameUnder(s, t, key))
    && (CacheStability.Distinct(keys) ==> forall i: nat :: i < n && i < |keys| && i !in f.storePuts ==>
          MarkedUnder(t, keys[i].value, ttl, at(i)))
  }

  predicate MarkedUnder(s: Layers, key: string, ttl: int, at: nat) {
    && key in s.l2 && s.l2[key].ttl == ttl && s.l2[key].entry.inProgress && !s.l2[key].entry.negative
    && s.l2[key].entry.eids == [] && s.l2[key].entry.abTestUuid == "" && s.l2[key].entry.cause.None?
    && s.l2[key].entry.expiresAt == Expiry(at, ttl)
  }

  lemma {:induction false} PutInProgressExactly(s: Layers, keys: seq<CacheKey>, n: nat, ttl: int, at: nat -> nat, f: Faults)
    requires n <= |keys|
    ensures MarkOutcome(s, keys, n, ttl, at, f, PutInProgressTo(s, keys, n, ttl, at, f))
    decreases n
  {
    if n > 0 {
      PutInProgressExactly(s, keys, n - 1, ttl, at, f);
      var t, u := PutInProgressTo(s, keys, n - 1, ttl, at, f), PutInProgressTo(s, keys, n, ttl, at, f);
      forall key | !Listed(keys, n, key) ensures SameUnder(s, u, key) {
        assert !Listed(keys, n - 1, key) && key != keys[n - 1].value;
      }
    }
  }

  /* ---------- a backfill ---------- */

  // The alias of a hit: what the hit says, until its remaining lifetime is over or
  // the ceiling of this type of key is reached.
  predicate AliasOf(e: Entry, hit: Entry, p: Policy, kind: KeyType, remaining: int, at: nat) {
    && e.eids == hit.eids && e.abTestUuid == hit.abTestUuid && e.cause == hit.cause
    && e.negative == hit.negative && e.inProgress == hit.inProgress
    && (kind.FirstParty? ==> LeastOf(e.expiresAt - Millis(at), remaining, DurationMillis(p.firstParty)))
    && (kind.ThirdParty? ==> LeastOf(e.expiresAt - Millis(at), remaining, DurationMillis(p.thirdParty)))
    && (kind.DeviceKey? ==> LeastOf(e.expiresAt - Millis(at), remaining, DurationMillis(p.device)))
    && (kind.OtherKey? ==> LeastOf(e.expiresAt - Millis(at), remaining, DurationMillis(p.standard)))
  }

  // The hit's own key, or one whose live entry L1 gives.
  predicate Left(s: Layers, key: CacheKey, i: nat, skip: nat, c: Clock, f: Faults) {
    i == skip || (i !in f.localProbes && key.value in s.l1 && c.probe(i) < s.l1[key.value].entry.expiresAt * 1_000_000)
  }

  // A key that is left is as it was in `s`; every other has the alias in each
  // layer whose write did not fail.
  predicate FilledUnder(s: Layers, t: Layers, key: CacheKey, i: nat, skip: nat, hit: Entry, remaining: int,
                        p: Policy, c: Clock, f: Faults) {
    if Left(s, key, i, skip, c, f) then SameUnder(s, t, key.value)
    else
      && (i !in f.localSets ==>
            key.value in t.l1 && AliasOf(t.l1[key.value].entry, hit, p, key.kind, remaining, c.stamp(i)))
      && (i !in f.storePuts ==>
            key.value in t.l2 && AliasOf(t.l2[key.value].entry, hit, p, key.kind, remaining, c.stamp(i)))
  }

  lemma BackfillOneExactly(s: Layers, key: CacheKey, i: nat, skip: nat, hit: Entry, remaining: int, p: Policy,
    c: Clock, f: Faults)
    ensures var t := BackfillOne(s, key, i, skip, hit, remaining, p, c, f);
      t.gets == s.gets && FilledUnder(s, t, key, i, skip, hit, remaining, p, c, f)
  {
    if key.value in s.l1 { LiveExactly(s.l1[key.value].entry, c.probe(i)); }
    if !Left(s, key, i, skip, c, f) { AliasExactly(hit, p, key.kind, remaining, c.stamp(i)); }
  }

  lemma AliasExactly(hit: Entry, p: Policy, kind: KeyType, remaining: int, at: nat)
    ensures AliasOf(Alias(hit, AliasTTL(p, kind, remaining), at), hit, p, kind, remaining, at)
  {
  }

  lemma BackfillElsewhere(s: Layers, key: CacheKey, i: nat, skip: nat, hit: Entry, remaining: int, p: Policy,
    c: Clock, f: Faults,
                          other: string)
    requires other != key.value
    ensures SameUnder(s, BackfillOne(s, key, i, skip, hit, remaining, p, c, f), other)
  {
  }

  /** After a backfill of different keys each of them is left as it was or has the
      alias, by what L1 held before, and no other key has changed. */
  ghost predicate FillOutcome(s: Layers, keys: seq<CacheKey>, n: nat, skip: nat, hit: Entry, remaining: int,
                              p: Policy, c: Clock, f: Faults, t: Layers) {
    && t.gets == s.gets
    && (forall key :: !Listed(keys, n, key) ==> SameUnder(s, t, key))
    && (CacheStability.Distinct(keys) ==> forall i: nat :: i < n && i < |keys| ==>
          FilledUnder(s, t, keys[i], i, skip, hit, remaining, p, c, f))
  }

  lemma {:induction false} BackfillExactly(s: Layers, keys: seq<CacheKey>, n: nat, skip: nat, hit: Entry, remaining: int,
                                           p: Policy, c: Clock, f: Faults)
    requires n <= |keys|
    ensures FillOutcome(s, keys, n, skip, hit, remaining, p, c, f, BackfillTo(s, keys, n, skip, hit, remaining, p, c, f))
    decreases n
  {
    if n > 0 {
      var t, u := BackfillTo(s, keys, n - 1, skip, hit, remaining, p, c, f), BackfillTo(s, keys, n, skip, hit, remaining, p, c, f);
      BackfillExactly(s, keys, n - 1, skip, hit, remaining, p, c, f);
      BackfillOneExactly(t, keys[n - 1], n - 1, skip, hit, remaining, p, c, f);
      forall key | key != keys[n - 1].value ensures SameUnder(t, u, key) {
        BackfillElsewhere(t, keys[n - 1], n - 1, skip, hit, remaining, p, c, f, key);
      }
      forall key | !Listed(keys, n, key) ensures SameUnder(s, u, key) {
        assert !Listed(keys, n - 1, key) && key != keys[n - 1].value;
      }
      if CacheStability.Distinct(keys) {
        assert !Listed(keys, n - 1, keys[n - 1].value);
        forall i: nat | i < n && i < |keys| ensures FilledUnder(s, u, keys[i], i, skip, hit, remaining, p, c, f) {
          if i < n - 1 { assert SameUnder(t, u, keys[i].value); }
        }
      }
    }
  }

  /* ---------- a lookup ---------- */

  // What L1 and the store give for a key, unless the read fails.
  predicate Gives(m: map<string, Slot>, key: string, now: nat, fails: bool, marker: bool) {
    !fails && key in m && now < m[key].entry.expiresAt * 1_000_000 && m[key].entry.inProgress == marker
  }

  // The result says what the entry says, with the key's type and the layer.
  predicate Says(r: CacheResult, e: Entry, kind: KeyType, layer: Layer) {
    && (if e.negative then r.Negative? else r.Hit? && r.eids == e.eids)
    && r.abTestUuid == e.abTestUuid && r.cause == e.cause && r.kind == kind && r.layer == layer
  }

  ghost predicate NoneGives(m: map<string, Slot>, keys: seq<CacheKey>, n: nat, at: nat -> nat, fails: set<nat>,
    marker: bool) {
    forall j: nat :: j < n && j < |keys| ==> !Gives(m, keys[j].value, at(j), j in fails, marker)
  }

  // A hit of the store goes to L1 for the rest of its lifetime, unless that is
  // over or the write fails.
  ghost predicate PromoteOutcome(s: Layers, key: string, hit: Entry, now: nat, f: Faults, t: Layers) {
    && t.l2 == s.l2 && t.gets == s.gets && (forall k :: k != key ==> SameUnder(s, t, k))
    && (if hit.expiresAt <= Millis(now) || f.promoteSet then t.l1 == s.l1
        else
          && key in t.l1 && t.l1[key].entry == hit
          && WholeSeconds(t.l1[key].ttl, (hit.expiresAt - Millis(now)) * 1_000_000))
  }

  // The hit under key `i` is given to the other keys, if it has any lifetime left.
  ghost predicate Spread(s: Layers, keys: seq<CacheKey>, i: nat, hit: Entry, p: Policy, c: Clock, f: Faults, t: Layers) {
    if hit.expiresAt <= Millis(c.fill) then t == s
    else FillOutcome(s, keys, |keys|, i, hit, hit.expiresAt - Millis(c.fill), p, c, f, t)
  }

  ghost predicate FromLocal(s: Layers, keys: seq<CacheKey>, p: Policy, c: Clock, f: Faults, t: Layers,
    r: CacheResult, i: nat) {
    && i < |keys| && Gives(s.l1, keys[i].value, c.local(i), i in f.localGets, false)
    && NoneGives(s.l1, keys, i, c.local, f.localGets, false)
    && Says(r, s.l1[keys[i].value].entry, keys[i].kind, L1)
    && Spread(s, keys, i, s.l1[keys[i].value].entry, p, c, f, t)
  }

  ghost predicate FromStore(s: Layers, keys: seq<CacheKey>, p: Policy, c: Clock, f: Faults, t: Layers,
    r: CacheResult, i: nat) {
    && NoneGives(s.l1, keys, |keys|, c.local, f.localGets, false)
    && i < |keys| && Gives(s.l2, keys[i].value, c.store(i), i in f.storeGets, false)
    && NoneGives(s.l2, keys, i, c.store, f.storeGets, false)
    && Says(r, s.l2[keys[i].value].entry, keys[i].kind, L2)
    && exists u :: PromoteOutcome(s.(gets := s.gets + i + 1), keys[i].value, s.l2[keys[i].value].entry, c.promote, f, u)
                && Spread(u, keys, i, s.l2[keys[i].value].entry, p, c, f, t)
  }

  ghost predicate FromNone(s: Layers, keys: seq<CacheKey>, c: Clock, f: Faults, t: Layers, r: CacheResult) {
    && NoneGives(s.l1, keys, |keys|, c.local, f.localGets, false)
    && NoneGives(s.l2, keys, |keys|, c.store, f.storeGets, false)
    && t == s.(gets := s.gets + |keys|)
    && ((r == Miss && NoneGives(s.l2, keys, |keys|, c.store, f.storeGets, true))
        || exists i: nat :: FirstMark(s, keys, c, f, i) && r == InProgress(keys[i].kind, L2))
  }

  ghost predicate FirstMark(s: Layers, keys: seq<CacheKey>, c: Clock, f: Faults, i: nat) {
    && i < |keys| && Gives(s.l2, keys[i].value, c.store(i), i in f.storeGets, true)
    && NoneGives(s.l2, keys, i, c.store, f.storeGets, true)
  }

  /** A lookup answers with the first live answer of L1 in key order; if L1 has
      none, with the first that the store gives, which goes to L1; if that has none
      either, with the type of the first live marker it gives; and otherwise it is
      a miss. Only answers change the layers: they are given to the other keys. */
  ghost predicate Looked(s: Layers, keys: seq<CacheKey>, p: Policy, c: Clock, f: Faults, t: Layers, r: CacheResult) {
    || (exists i: nat :: FromLocal(s, keys, p, c, f, t, r, i))
    || (exists i: nat :: FromStore(s, keys, p, c, f, t, r, i))
    || FromNone(s, keys, c, f, t, r)
  }

  lemma HitsGive(s: Layers, keys: seq<CacheKey>, c: Clock, f: Faults, i: nat)
    requires i < |keys|
    ensures LocalHit(s, keys, c, f, i) <==> Gives(s.l1, keys[i].value, c.local(i), i in f.localGets, false)
    ensures StoreHit(s, keys, c, f, i) <==> Gives(s.l2, keys[i].value, c.store(i), i in f.storeGets, false)
    ensures StoreMarker(s, keys, c, f, i) <==> Gives(s.l2, keys[i].value, c.store(i), i in f.storeGets, true)
  {
    if keys[i].value in s.l1 { LiveExactly(s.l1[keys[i].value].entry, c.local(i)); }
    if keys[i].value in s.l2 { LiveExactly(s.l2[keys[i].value].entry, c.store(i)); }
  }

  lemma AllGive(s: Layers, keys: seq<CacheKey>, c: Clock, f: Faults)
    ensures forall i: nat :: i < |keys| ==>
      && (LocalHit(s, keys, c, f, i) <==> Gives(s.l1, keys[i].value, c.local(i), i in f.localGets, false))
      && (StoreHit(s, keys, c, f, i) <==> Gives(s.l2, keys[i].value, c.store(i), i in f.storeGets, false))
      && (StoreMarker(s, keys, c, f, i) <==> Gives(s.l2, keys[i].value, c.store(i), i in f.storeGets, true))
  {
    forall i: nat | i < |keys|
      ensures LocalHit(s, keys, c, f, i) <==> Gives(s.l1, keys[i].value, c.local(i), i in f.localGets, false)
      ensures StoreHit(s, keys, c, f, i) <==> Gives(s.l2, keys[i].value, c.store(i), i in f.storeGets, false)
      ensures StoreMarker(s, keys, c, f, i) <==> Gives(s.l2, keys[i].value, c.store(i), i in f.storeGets, true)
    {
      HitsGive(s, keys, c, f, i);
    }
  }

  lemma PromoteExactly(s: Layers, key: string, hit: Entry, now: nat, f: Faults)
    ensures PromoteOutcome(s, key, hit, now, f, Promote(s, key, hit, now, f))
  {
    Seconds((hit.expiresAt - Millis(now)) * 1_000_000);
  }

  lemma SpreadExactly(s: Layers, keys: seq<CacheKey>, i: nat, hit: Entry, p: Policy, c: Clock, f: Faults)
    ensures Spread(s, keys, i, hit, p, c, f, Backfill(s, keys, i, hit, p, c, f))
  {
    if hit.expiresAt > Millis(c.fill) { BackfillExactly(s, keys, |keys|, i, hit, hit.expiresAt - Millis(c.fill), p, c, f); }
  }

  lemma NoneExactly(s: Layers, keys: seq<CacheKey>, c: Clock, f: Faults, t: Layers, r: CacheResult)
    requires NoAnswer(s, keys, c, f, t, r)
    ensures FromNone(s, keys, c, f, t, r)
  {
    AllGive(s, keys, c, f);
    MarkerOrNone(s, keys, c, f, |keys|);
    if i: nat :| i < |keys| && FirstMarker(s, keys, c, f, i) { assert FirstMark(s, keys, c, f, i); }
  }

  lemma LocalExactly(s: Layers, keys: seq<CacheKey>, p: Policy, c: Clock, f: Faults, t: Layers, r: CacheResult, i: nat)
    requires LocalAnswer(s, keys, p, c, f, t, r, i)
    ensures FromLocal(s, keys, p, c, f, t, r, i)
  {
    AllGive(s, keys, c, f);
    SpreadExactly(s, keys, i, s.l1[keys[i].value].entry, p, c, f);
  }

  lemma StoreExactly(s: Layers, keys: seq<CacheKey>, p: Policy, c: Clock, f: Faults, t: Layers, r: CacheResult, i: nat)
    requires StoreAnswer(s, keys, p, c, f, t, r, i)
    ensures FromStore(s, keys, p, c, f, t, r, i)
  {
    AllGive(s, keys, c, f);
    var hit := s.l2[keys[i].value].entry;
    var u := Promote(s.(gets := s.gets + i + 1), keys[i].value, hit, c.promote, f);
    PromoteExactly(s.(gets := s.gets + i + 1), keys[i].value, hit, c.promote, f);
    SpreadExactly(u, keys, i, hit, p, c, f);
  }

  lemma LookupExactly(s: Layers, keys: seq<CacheKey>, p: Policy, c: Clock, f: Faults, t: Layers, r: CacheResult)
    requires GetOutcome(s, keys, p, c, f, t, r)
    ensures Looked(s, keys, p, c, f, t, r)
  {
    if i: nat :| LocalAnswer(s, keys, p, c, f, t, r, i) {
      LocalExactly(s, keys, p, c, f, t, r, i);
    } else if i: nat :| StoreAnswer(s, keys, p, c, f, t, r, i) {
      StoreExactly(s, keys, p, c, f, t, r, i);
    } else {
      NoneExactly(s, keys, c, f, t, r);
    }
  }
}
