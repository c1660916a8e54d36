/** The two layers of the identity cache as values, what each cache operation
    makes of them, and the simple reference that a lookup must agree with. No
    other thread runs during an operation here, but the clock may: every
    reading of it is given. `CacheThreads` lets other threads in as well. */
module CacheLayers {
  import opened Wrappers
  import opened CacheEntry

  // An entry as a layer holds it, with the lifetime it was handed over with.
  datatype Slot = Slot(entry: Entry, ttl: int)

  // `gets` counts the store reads.
  datatype Layers = Layers(l1: map<string, Slot>, l2: map<string, Slot>, gets: nat)

  // The positions in the key list at which an access of a layer fails: the
  // reads of L1 by the lookup and by the backfill, the reads and writes of the
  // store, the writes to L1; and whether the write that promotes a hit fails.
  datatype Faults = Faults(
    localGets: set<nat>, localProbes: set<nat>, storeGets: set<nat>, storePuts: set<nat>, localSets: set<nat>, promoteSet: bool)

  const NoFaults := Faults({}, {}, {}, {}, {}, false)

  // The readings of the clock in a lookup: one for each entry decoded, one
  // each for the remaining lifetime of a promoted and of a backfilled hit, and
  // one for each alias stamped.
  datatype Clock = Clock(
    local: nat -> nat, store: nat -> nat, promote: nat, fill: nat, probe: nat -> nat, stamp: nat -> nat)

  function Still(now: nat): Clock { Clock(_ => now, _ => now, now, now, _ => now, _ => now) }

  function LocalGet(s: Layers, key: string, now: nat): Option<Entry> {
    if key in s.l1 && Live(s.l1[key].entry, now) then Some(s.l1[key].entry) else None
  }

  function StoreGet(s: Layers, key: string, now: nat): Option<Entry> {
    if key in s.l2 && Live(s.l2[key].entry, now) then Some(s.l2[key].entry) else None
  }

  function SetLocal(s: Layers, key: string, e: Entry, ttl: int, fails: bool): Layers {
    if fails then s else s.(l1 := s.l1[key := Slot(e, FreeCacheSeconds(ttl) * SECOND)])
  }

  function PutStore(s: Layers, key: string, e: Entry, ttl: int, fails: bool): Layers {
    if fails then s else s.(l2 := s.l2[key := Slot(e, ttl)])
  }

  function WriteBoth(s: Layers, key: string, e: Entry, ttl: int, i: nat, f: Faults): Layers {
    PutStore(SetLocal(s, key, e, ttl, i in f.localSets), key, e, ttl, i in f.storePuts)
  }

  function Promote(s: Layers, key: string, e: Entry, now: nat, f: Faults): Layers {
    var remaining := e.expiresAt - Millis(now);
    if remaining <= 0 then s else SetLocal(s, key, e, remaining * MILLISECOND, f.promoteSet)
  }

  function AliasTTL(p: Policy, kind: KeyType, remaining: int): int {
    Min(remaining, DurationMillis(CeilingFor(p, kind)))
  }

  // One round of the backfill loop.
  function BackfillOne(s: Layers, key: CacheKey, i: nat, skip: nat, hit: Entry, remaining: int,
                       p: Policy, c: Clock, f: Faults): Layers {
    if i == skip || (i !in f.localProbes && LocalGet(s, key.value, c.probe(i)).Some?) then s
    else
      var ttl := AliasTTL(p, key.kind, remaining);
      WriteBoth(s, key.value, Alias(hit, ttl, c.stamp(i)), ttl * MILLISECOND, i, f)
  }

  function BackfillTo(s: Layers, keys: seq<CacheKey>, n: nat, skip: nat, hit: Entry, remaining: int,
                      p: Policy, c: Clock, f: Faults): Layers
    requires n <= |keys|
  {
    if n == 0 then s
    else
      var rest := BackfillTo(s, keys, n - 1, skip, hit, remaining, p, c, f);
      BackfillOne(rest, keys[n - 1], n - 1, skip, hit, remaining, p, c, f)
  }

  function Backfill(s: Layers, keys: seq<CacheKey>, skip: nat, hit: Entry, p: Policy, c: Clock, f: Faults): Layers {
    var remaining := hit.expiresAt - Millis(c.fill);
    if remaining <= 0 then s else BackfillTo(s, keys, |keys|, skip, hit, remaining, p, c, f)
  }

  /* ---------- the reference for Get ---------- */

  // A live answer in L1, a live answer that the store returns, a live marker
  // that it returns. A read that fails is as good as an absent entry.
  predicate LocalHit(s: Layers, keys: seq<CacheKey>, c: Clock, f: Faults, i: nat)
    requires i < |keys|
  {
    var e := LocalGet(s, keys[i].value, c.local(i));
    i !in f.localGets && e.Some? && !e.value.inProgress
  }

  predicate StoreHit(s: Layers, keys: seq<CacheKey>, c: Clock, f: Faults, i: nat)
    requires i < |keys|
  {
    var e := StoreGet(s, keys[i].value, c.store(i));
    i !in f.storeGets && e.Some? && !e.value.inProgress
  }

  predicate StoreMarker(s: Layers, keys: seq<CacheKey>, c: Clock, f: Faults, i: nat)
    requires i < |keys|
  {
    var e := StoreGet(s, keys[i].value, c.store(i));
    i !in f.storeGets && e.Some? && e.value.inProgress
  }

  ghost predicate FirstLocal(s: Layers, keys: seq<CacheKey>, c: Clock, f: Faults, i: nat) {
    i < |keys| && LocalHit(s, keys, c, f, i) && forall j: nat :: j < i ==> !LocalHit(s, keys, c, f, j)
  }

  ghost predicate NoLocal(s: Layers, keys: seq<CacheKey>, c: Clock, f: Faults) {
    forall j: nat :: j < |keys| ==> !LocalHit(s, keys, c, f, j)
  }

  ghost predicate FirstStore(s: Layers, keys: seq<CacheKey>, c: Clock, f: Faults, i: nat) {
    i < |keys| && StoreHit(s, keys, c, f, i) && forall j: nat :: j < i ==> !StoreHit(s, keys, c, f, j)
  }

  ghost predicate NoStore(s: Layers, keys: seq<CacheKey>, c: Clock, f: Faults) {
    forall j: nat :: j < |keys| ==> !StoreHit(s, keys, c, f, j)
  }

  ghost predicate FirstMarker(s: Layers, keys: seq<CacheKey>, c: Clock, f: Faults, i: nat) {
    i < |keys| && StoreMarker(s, keys, c, f, i) && forall j: nat :: j < i ==> !StoreMarker(s, keys, c, f, j)
  }

  ghost predicate NoMarker(s: Layers, keys: seq<CacheKey>, c: Clock, f: Faults) {
    forall j: nat :: j < |keys| ==> !StoreMarker(s, keys, c, f, j)
  }

  ghost predicate LocalAnswer(s: Layers, keys: seq<CacheKey>, p: Policy, c: Clock, f: Faults, s': Layers,
    r: CacheResult, i: nat) {
    && FirstLocal(s, keys, c, f, i)
    && r == FromEntry(s.l1[keys[i].value].entry, keys[i].kind, L1)
    && s' == Backfill(s, keys, i, s.l1[keys[i].value].entry, p, c, f)
  }

  ghost predicate StoreAnswer(s: Layers, keys: seq<CacheKey>, p: Policy, c: Clock, f: Faults, s': Layers,
    r: CacheResult, i: nat) {
    && NoLocal(s, keys, c, f) && FirstStore(s, keys, c, f, i)
    && r == FromEntry(s.l2[keys[i].value].entry, keys[i].kind, L2)
    && var e := s.l2[keys[i].value].entry;
       s' == Backfill(Promote(s.(gets := s.gets + i + 1), keys[i].value, e, c.promote, f), keys, i, e, p, c, f)
  }

  ghost predicate NoAnswer(s: Layers, keys: seq<CacheKey>, c: Clock, f: Faults, s': Layers, r: CacheResult) {
    && NoLocal(s, keys, c, f) && NoStore(s, keys, c, f) && s' == s.(gets := s.gets + |keys|)
    && (NoMarker(s, keys, c, f) ==> r == Miss)
    && (forall i: nat :: FirstMarker(s, keys, c, f, i) ==> r == InProgress(keys[i].kind, L2))
  }

  /** What a lookup may answer and leave behind, read off the layers before it:
      the first live answer of L1 in key order, else the first the store
      returns, else in-progress with the first marker's type, else a miss. Only
      an answer writes: the rest leaves both layers as they were. */
  ghost predicate GetOutcome(s: Layers, keys: seq<CacheKey>, p: Policy, c: Clock, f: Faults, s': Layers, r: CacheResult) {
    || (exists i: nat :: LocalAnswer(s, keys, p, c, f, s', r, i))
    || (exists i: nat :: StoreAnswer(s, keys, p, c, f, s', r, i))
    || NoAnswer(s, keys, c, f, s', r)
  }

  lemma {:induction false} MarkerOrNone(s: Layers, keys: seq<CacheKey>, c: Clock, f: Faults, n: nat)
    requires n <= |keys|
    ensures (exists i: nat :: i < n && FirstMarker(s, keys, c, f, i)) || (forall j: nat :: j < n ==> !StoreMarker(s, keys, c, f, j))
  {
    if n > 0 {
      MarkerOrNone(s, keys, c, f, n - 1);
      if !(exists i: nat :: i < n - 1 && FirstMarker(s, keys, c, f, i)) && StoreMarker(s, keys, c, f, n - 1) {
        assert FirstMarker(s, keys, c, f, n - 1);
      }
    }
  }

  lemma LocalDetermined(s: Layers, keys: seq<CacheKey>, c: Clock, f: Faults, i: nat, j: nat)
    requires FirstLocal(s, keys, c, f, i) && FirstLocal(s, keys, c, f, j)
    ensures i == j
  {
  }

  lemma StoreDetermined(s: Layers, keys: seq<CacheKey>, c: Clock, f: Faults, i: nat, j: nat)
    requires FirstStore(s, keys, c, f, i) && FirstStore(s, keys, c, f, j)
    ensures i == j
  {
  }

  /** The reference leaves no choice of answer or of layers. */
  lemma GetDetermined(s: Layers, keys: seq<CacheKey>, p: Policy, c: Clock, f: Faults,
                      s1: Layers, r1: CacheResult, s2: Layers, r2: CacheResult)
    requires GetOutcome(s, keys, p, c, f, s1, r1) && GetOutcome(s, keys, p, c, f, s2, r2)
    ensures s1 == s2 && r1 == r2
  {
    if i: nat :| LocalAnswer(s, keys, p, c, f, s1, r1, i) {
      LocalOnly(s, keys, p, c, f, s2, r2, i);
    } else if i: nat :| StoreAnswer(s, keys, p, c, f, s1, r1, i) {
      StoreOnly(s, keys, p, c, f, s2, r2, i);
    } else {
      NoneOnly(s, keys, p, c, f, s2, r2);
      NoAnswerDetermined(s, keys, c, f, s1, r1, s2, r2);
    }
  }

  lemma LocalOnly(s: Layers, keys: seq<CacheKey>, p: Policy, c: Clock, f: Faults, s': Layers, r: CacheResult, i: nat)
    requires GetOutcome(s, keys, p, c, f, s', r) && FirstLocal(s, keys, c, f, i)
    ensures LocalAnswer(s, keys, p, c, f, s', r, i)
  {
    assert LocalHit(s, keys, c, f, i);
    var j: nat :| LocalAnswer(s, keys, p, c, f, s', r, j);
    LocalDetermined(s, keys, c, f, i, j);
  }

  lemma StoreOnly(s: Layers, keys: seq<CacheKey>, p: Policy, c: Clock, f: Faults, s': Layers, r: CacheResult, i: nat)
    requires GetOutcome(s, keys, p, c, f, s', r) && NoLocal(s, keys, c, f) && FirstStore(s, keys, c, f, i)
    ensures StoreAnswer(s, keys, p, c, f, s', r, i)
  {
    assert StoreHit(s, keys, c, f, i);
    var j: nat :| StoreAnswer(s, keys, p, c, f, s', r, j);
    StoreDetermined(s, keys, c, f, i, j);
  }

  lemma NoneOnly(s: Layers, keys: seq<CacheKey>, p: Policy, c: Clock, f: Faults, s': Layers, r: CacheResult)
    requires GetOutcome(s, keys, p, c, f, s', r) && NoLocal(s, keys, c, f) && NoStore(s, keys, c, f)
    ensures NoAnswer(s, keys, c, f, s', r)
  {
  }

  lemma NoAnswerDetermined(s: Layers, keys: seq<CacheKey>, c: Clock, f: Faults, s1: Layers, r1: CacheResult,
    s2: Layers, r2: CacheResult)
    requires NoAnswer(s, keys, c, f, s1, r1)
    requires NoAnswer(s, keys, c, f, s2, r2)
    ensures s1 == s2 && r1 == r2
  {
    MarkerOrNone(s, keys, c, f, |keys|);
  }

  /* ---------- the writing operations; `at` are their clock readings, key by key ---------- */

  function PutResolvedTo(s: Layers, keys: seq<CacheKey>, n: nat, r: Resolution, p: Policy, at: nat -> nat,
    f: Faults): Layers
    requires n <= |keys|
  {
    if n == 0 then s
    else
      var k := keys[n - 1];
      var ttl := EffectiveTTL(p, k.kind, r.cacheTTL);
      WriteBoth(PutResolvedTo(s, keys, n - 1, r, p, at, f), k.value, Resolved(r, ttl, at(n - 1)), ttl, n - 1, f)
  }

  function PutNegativeTo(s: Layers, keys: seq<CacheKey>, n: nat, r: Resolution, p: Policy, at: nat -> nat,
    f: Faults): Layers
    requires n <= |keys|
  {
    if n == 0 then s
    else
      var ttl := NegativeTTLFor(p, r.cacheTTL);
      WriteBoth(PutNegativeTo(s, keys, n - 1, r, p, at, f), keys[n - 1].value, NegativeEntry(r, ttl, at(n - 1)), ttl, n - 1, f)
  }

  function PutInProgressTo(s: Layers, keys: seq<CacheKey>, n: nat, ttl: int, at: nat -> nat, f: Faults): Layers
    requires n <= |keys|
  {
    if n == 0 then s
    else PutStore(PutInProgressTo(s, keys, n - 1, ttl, at, f), keys[n - 1].value, Marker(ttl, at(n - 1)), ttl, n - 1 in f.storePuts)
  }
}
