/** The identity cache in the form of its source: loops over the keys that read
    and write the two layers in place. Each reading of the clock is given. */
module IdentityCacheModule {
  import opened Wrappers
  import opened CacheEntry
  import opened CacheLayers
  import CacheContents

  class IdentityCache {
    var l1: map<string, Slot>
    var l2: map<string, Slot>
    var gets: nat
    const policy: Policy

    ghost function View(): Layers
      reads this
    {
      Layers(l1, l2, gets)
    }

    constructor (policy: Policy)
      ensures View() == Layers(map[], map[], 0) && this.policy == policy
    {
      this.policy := policy;
      l1, l2, gets := map[], map[], 0;
    }

    method GetLocal(key: string, now: nat, fails: bool) returns (e: Option<Entry>)
      ensures e == if fails then None else LocalGet(View(), key, now)
    {
      e := None;
      if !fails && key in l1 && Live(l1[key].entry, now) { e := Some(l1[key].entry); }
    }

    // A failed read and an entry that does not decode are both "not found".
    method GetFromStore(key: string, now: nat, fails: bool) returns (e: Option<Entry>)
      modifies this`gets
      ensures gets == old(gets) + 1
      ensures e == if fails then None else StoreGet(View(), key, now)
    {
      gets := gets + 1;
      e := None;
      if !fails && key in l2 && Live(l2[key].entry, now) { e := Some(l2[key].entry); }
    }

    method Set(key: string, e: Entry, ttl: int, fails: bool)
      modifies this`l1
      ensures View() == SetLocal(old(View()), key, e, ttl, fails)
    {
      if !fails { l1 := l1[key := Slot(e, FreeCacheSeconds(ttl) * SECOND)]; }
    }

    method WriteL2(key: string, e: Entry, ttl: int, fails: bool) returns (ok: bool)
      modifies this`l2
      ensures View() == PutStore(old(View()), key, e, ttl, fails) && ok == !fails
    {
      ok := !fails;
      if ok { l2 := l2[key := Slot(e, ttl)]; }
    }

    method WriteBothLayers(key: string, e: Entry, ttl: int, i: nat, f: Faults)
      modifies this
      ensures View() == WriteBoth(old(View()), key, e, ttl, i, f)
    {
      Set(key, e, ttl, i in f.localSets);
      var _ := WriteL2(key, e, ttl, i in f.storePuts);
    }

    method PromoteEntry(key: string, e: Entry, now: nat, f: Faults)
      modifies this
      ensures View() == Promote(old(View()), key, e, now, f)
    {
      var remaining := e.expiresAt - Millis(now);
      if remaining <= 0 { return; }
      Set(key, e, remaining * MILLISECOND, f.promoteSet);
    }

    method BackfillAliases(keys: seq<CacheKey>, hitIndex: nat, hit: Entry, c: Clock, f: Faults)
      modifies this
      ensures View() == Backfill(old(View()), keys, hitIndex, hit, policy, c, f)
    {
      var remaining := hit.expiresAt - Millis(c.fill);
      if remaining <= 0 { return; }
      for index := 0 to |keys|
        invariant View() == BackfillTo(old(View()), keys, index, hitIndex, hit, remaining, policy, c, f)
      {
        if index == hitIndex { continue; }
        var found := GetLocal(keys[index].value, c.probe(index), index in f.localProbes);
        if found.Some? { continue; }
        var ttl := remaining;
        var ceiling := DurationMillis(CeilingFor(policy, keys[index].kind));
        if ceiling < ttl { ttl := ceiling; }
        WriteBothLayers(keys[index].value, Alias(hit, ttl, c.stamp(index)), ttl * MILLISECOND, index, f);
      }
    }

    /** A lookup answers what the reference reads off the layers before it: the
        first live answer in key order, L1 before the store. */
    method Get(keys: seq<CacheKey>, c: Clock, f: Faults) returns (r: CacheResult)
      modifies this
      ensures GetOutcome(old(View()), keys, policy, c, f, View(), r)
      ensures CacheContents.Looked(old(View()), keys, policy, c, f, View(), r)
    {
      r := GetBoth(keys, c, f);
      CacheContents.LookupExactly(old(View()), keys, policy, c, f, View(), r);
    }

    // L1, and only without an answer there the store.
    method GetBoth(keys: seq<CacheKey>, c: Clock, f: Faults) returns (r: CacheResult)
      modifies this
      ensures GetOutcome(old(View()), keys, policy, c, f, View(), r)
    {
      if |keys| == 0 { return Miss; }
      ghost var s := View();
      for index := 0 to |keys|
        invariant View() == s
        invariant forall j: nat :: j < index ==> !LocalHit(s, keys, c, f, j)
      {
        var value := GetLocal(keys[index].value, c.local(index), index in f.localGets);
        if value.None? || value.value.inProgress { continue; }
        assert FirstLocal(s, keys, c, f, index);
        BackfillAliases(keys, index, value.value, c, f);
        r := FromEntry(value.value, keys[index].kind, L1);
        assert LocalAnswer(s, keys, policy, c, f, View(), r, index);
        return;
      }
      r := GetL2(keys, c, f);
    }

    method GetL2(keys: seq<CacheKey>, c: Clock, f: Faults) returns (r: CacheResult)
      requires NoLocal(View(), keys, c, f)
      modifies this
      ensures GetOutcome(old(View()), keys, policy, c, f, View(), r)
    {
      ghost var s := View();
      var marker: Option<KeyType> := None;
      for index := 0 to |keys|
        invariant View() == s.(gets := s.gets + index)
        invariant forall j: nat :: j < index ==> !StoreHit(s, keys, c, f, j)
        invariant marker.None? ==> forall j: nat :: j < index ==> !StoreMarker(s, keys, c, f, j)
        invariant marker.Some? ==> exists i: nat :: i < index && FirstMarker(s, keys, c, f, i) && marker.value == keys[i].kind
      {
        var value := GetFromStore(keys[index].value, c.store(index), index in f.storeGets);
        if value.None? { continue; }
        if value.value.inProgress {
          if marker.None? {
            marker := Some(keys[index].kind);
            assert FirstMarker(s, keys, c, f, index);
          }
          continue;
        }
        assert FirstStore(s, keys, c, f, index);
        PromoteEntry(keys[index].value, value.value, c.promote, f);
        BackfillAliases(keys, index, value.value, c, f);
        r := FromEntry(value.value, keys[index].kind, L2);
        assert StoreAnswer(s, keys, policy, c, f, View(), r, index);
        return;
      }
      if marker.Some? { return InProgress(marker.value, L2); }
      return Miss;
    }

    method PutResolved(keys: seq<CacheKey>, r: Resolution, at: nat -> nat, f: Faults)
      modifies this
      ensures View() == PutResolvedTo(old(View()), keys, |keys|, r, policy, at, f)
      ensures CacheContents.PutOutcome(old(View()), keys, |keys|, r, false, policy, at, f, View())
    {
      CacheContents.PutResolvedExactly(View(), keys, |keys|, r, policy, at, f);
      for index := 0 to |keys|
        invariant View() == PutResolvedTo(old(View()), keys, index, r, policy, at, f)
      {
        var ttl := EffectiveTTL(policy, keys[index].kind, r.cacheTTL);
        WriteBothLayers(keys[index].value, Resolved(r, ttl, at(index)), ttl, index, f);
      }
    }

    method PutNegative(keys: seq<CacheKey>, r: Resolution, at: nat -> nat, f: Faults)
      modifies this
      ensures View() == PutNegativeTo(old(View()), keys, |keys|, r, policy, at, f)
      ensures CacheContents.PutOutcome(old(View()), keys, |keys|, r, true, policy, at, f, View())
    {
      CacheContents.PutNegativeExactly(View(), keys, |keys|, r, policy, at, f);
      var ttl := NegativeTTLFor(policy, r.cacheTTL);
      for index := 0 to |keys|
        invariant View() == PutNegativeTo(old(View()), keys, index, r, policy, at, f)
      {
        WriteBothLayers(keys[index].value, NegativeEntry(r, ttl, at(index)), ttl, index, f);
      }
    }

    // Markers are written to the store alone; the first failure is reported.
    method PutInProgress(keys: seq<CacheKey>, ttl: int, at: nat -> nat, f: Faults) returns (ok: bool)
      modifies this
      ensures View() == PutInProgressTo(old(View()), keys, |keys|, ttl, at, f)
      ensures CacheContents.MarkOutcome(old(View()), keys, |keys|, ttl, at, f, View())
      ensures ok <==> forall i: nat :: i < |keys| ==> i !in f.storePuts
    {
      CacheContents.PutInProgressExactly(View(), keys, |keys|, ttl, at, f);
      ok := true;
      for index := 0 to |keys|
        invariant View() == PutInProgressTo(old(View()), keys, index, ttl, at, f)
        invariant ok <==> forall i: nat :: i < index ==> i !in f.storePuts
      {
        var written := WriteL2(keys[index].value, Marker(ttl, at(index)), ttl, index in f.storePuts);
        ok := ok && written;
      }
    }
  }
}
