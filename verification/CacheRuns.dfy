/** Runs of cache operations that do not overlap: each ends before the next
    begins. What L1 holds and what the store holds stay in step as long as no
    write fails. `CacheSteps` lets operations overlap. */
module CacheRuns {
  import opened Wrappers
  import opened Auction
  import opened CacheEntry
  import opened CacheLayers

  // Each with the accesses that fail and its readings of the clock.
  datatype Op =
    | Get(keys: seq<CacheKey>, f: Faults, c: Clock)
    | PutResolved(keys: seq<CacheKey>, r: Resolution, f: Faults, at: nat -> nat)
    | PutNegative(keys: seq<CacheKey>, r: Resolution, f: Faults, at: nat -> nat)
    | PutInProgress(keys: seq<CacheKey>, ttl: int, f: Faults, at: nat -> nat)
    | Evict(key: string)      // L1 drops an entry
    | Expire(key: string)     // the store drops an expired entry

  // No write of a new entry fails; a read of either layer may, and so may the
  // write that promotes a hit.
  predicate Clean(f: Faults) { f.localSets == f.storePuts == {} }

  predicate CleanOp(op: Op) { op.Evict? || op.Expire? || Clean(op.f) }

  // `lost` are the keys at which the store dropped an expired marker.
  datatype Cache = Cache(s: Layers, now: nat, lost: set<string>)

  const Empty := Cache(Layers(map[], map[], 0), 0, {})

  ghost predicate Next(p: Policy, c: Cache, op: Op, c': Cache) {
    && c.now <= c'.now
    && (!op.Expire? ==> c'.lost == c.lost)
    && match op
       case Get(keys, f, clock) => exists r :: GetOutcome(c.s, keys, p, clock, f, c'.s, r)
       case PutResolved(keys, r, f, at) => c'.s == PutResolvedTo(c.s, keys, |keys|, r, p, at, f)
       case PutNegative(keys, r, f, at) => c'.s == PutNegativeTo(c.s, keys, |keys|, r, p, at, f)
       case PutInProgress(keys, ttl, f, at) => c'.s == PutInProgressTo(c.s, keys, |keys|, ttl, at, f)
       case Evict(key) => c'.s == c.s.(l1 := c.s.l1 - {key})
       case Expire(key) =>
         && key in c.s.l2 && !Live(c.s.l2[key].entry, c'.now)
         && c'.s == c.s.(l2 := c.s.l2 - {key})
         && c'.lost == if c.s.l2[key].entry.inProgress then c.lost + {key} else c.lost - {key}
  }

  ghost predicate IsRun(p: Policy, run: seq<Cache>, ops: seq<Op>) {
    && |run| == |ops| + 1 && run[0] == Empty
    && forall i :: 0 <= i < |ops| ==> Next(p, run[i], ops[i], run[i + 1])
  }

  // The store holds the same entry under the key, or holds a marker there, or
  // held one and dropped it once it had expired.
  predicate InStep(s: Layers, lost: set<string>, key: string)
    requires key in s.l1
  {
    if key in s.l2 then s.l2[key].entry.inProgress || s.l2[key].entry == s.l1[key].entry else key in lost
  }

  /** L1 never holds a marker, and each live L1 entry is the store's. */
  ghost predicate Coherent(s: Layers, lost: set<string>, now: nat) {
    forall k :: k in s.l1 ==> !s.l1[k].entry.inProgress && (Live(s.l1[k].entry, now) ==> InStep(s, lost, k))
  }

  /** What one write leaves in step, exactly. A write that fails nowhere always
      does. If only its L1 half fails, an older live L1 entry must be equal to the
      new one; if only its store half fails, the new entry must be dead or equal
      to the store's, or the store's a marker. */
  lemma WriteCoherent(s: Layers, lost: set<string>, now: nat, key: string, e: Entry, ttl: int, i: nat, f: Faults)
    requires Coherent(s, lost, now) && !e.inProgress
    ensures Coherent(WriteBoth(s, key, e, ttl, i, f), lost, now) <==>
      || (i in f.localSets <==> i in f.storePuts)
      || (i in f.localSets && (key in s.l1 && Live(s.l1[key].entry, now) ==> s.l1[key].entry == e))
      || (i in f.storePuts && (Live(e, now) ==> StoreAgrees(s, lost, key, e)))
  {
    var t := WriteBoth(s, key, e, ttl, i, f);
    if Coherent(t, lost, now) && i in f.storePuts && i !in f.localSets && Live(e, now) {
      assert key in t.l1 && InStep(t, lost, key);
    }
    if Coherent(t, lost, now) && i in f.localSets && i !in f.storePuts && key in s.l1 && Live(s.l1[key].entry, now) {
      assert InStep(t, lost, key);
    }
  }

  // The store's side of InStep for an entry in L1.
  predicate StoreAgrees(s: Layers, lost: set<string>, key: string, e: Entry) {
    if key in s.l2 then s.l2[key].entry.inProgress || s.l2[key].entry == e else key in lost
  }

  lemma {:induction false} BackfillCoherent(s: Layers, lost: set<string>, keys: seq<CacheKey>, n: nat, skip: nat,
    hit: Entry,
                                            remaining: int, p: Policy, c: Clock, f: Faults, now: nat)
    requires n <= |keys| && Coherent(s, lost, now) && !hit.inProgress && Clean(f)
    ensures Coherent(BackfillTo(s, keys, n, skip, hit, remaining, p, c, f), lost, now)
    decreases n
  {
    if n > 0 {
      BackfillCoherent(s, lost, keys, n - 1, skip, hit, remaining, p, c, f, now);
      var t := BackfillTo(s, keys, n - 1, skip, hit, remaining, p, c, f);
      var ttl := AliasTTL(p, keys[n - 1].kind, remaining);
      WriteCoherent(t, lost, now, keys[n - 1].value, Alias(hit, ttl, c.stamp(n - 1)), ttl * MILLISECOND, n - 1, f);
    }
  }

  lemma FilledCoherent(s: Layers, lost: set<string>, keys: seq<CacheKey>, skip: nat, hit: Entry, p: Policy, c: Clock,
                       f: Faults, now: nat)
    requires Coherent(s, lost, now) && !hit.inProgress && Clean(f)
    ensures Coherent(Backfill(s, keys, skip, hit, p, c, f), lost, now)
  {
    if hit.expiresAt > Millis(c.fill) {
      BackfillCoherent(s, lost, keys, |keys|, skip, hit, hit.expiresAt - Millis(c.fill), p, c, f, now);
    }
  }

  lemma PromoteCoherent(s: Layers, lost: set<string>, keys: seq<CacheKey>, i: nat, c: Clock, f: Faults, now: nat)
    requires Coherent(s, lost, now) && i < |keys| && StoreHit(s, keys, c, f, i)
    ensures Coherent(Promote(s.(gets := s.gets + i + 1), keys[i].value, s.l2[keys[i].value].entry, c.promote, f), lost, now)
  {
  }

  lemma GetCoherent(s: Layers, lost: set<string>, keys: seq<CacheKey>, p: Policy, c: Clock, f: Faults, now: nat,
                    s': Layers, r: CacheResult)
    requires Coherent(s, lost, now) && GetOutcome(s, keys, p, c, f, s', r) && Clean(f)
    ensures Coherent(s', lost, now)
  {
    if i: nat :| LocalAnswer(s, keys, p, c, f, s', r, i) {
      FilledCoherent(s, lost, keys, i, s.l1[keys[i].value].entry, p, c, f, now);
    } else if i: nat :| StoreAnswer(s, keys, p, c, f, s', r, i) {
      PromoteCoherent(s, lost, keys, i, c, f, now);
      var hit := s.l2[keys[i].value].entry;
      var t := Promote(s.(gets := s.gets + i + 1), keys[i].value, hit, c.promote, f);
      FilledCoherent(t, lost, keys, i, hit, p, c, f, now);
    }
  }

  lemma {:induction false} PutResolvedCoherent(s: Layers, lost: set<string>, keys: seq<CacheKey>, n: nat, r: Resolution,
                                               p: Policy, at: nat -> nat, f: Faults, now: nat)
    requires n <= |keys| && Coherent(s, lost, now) && Clean(f)
    ensures Coherent(PutResolvedTo(s, keys, n, r, p, at, f), lost, now)
    decreases n
  {
    if n > 0 {
      PutResolvedCoherent(s, lost, keys, n - 1, r, p, at, f, now);
      var ttl := EffectiveTTL(p, keys[n - 1].kind, r.cacheTTL);
      var t := PutResolvedTo(s, keys, n - 1, r, p, at, f);
      WriteCoherent(t, lost, now, keys[n - 1].value, Resolved(r, ttl, at(n - 1)), ttl, n - 1, f);
    }
  }

  lemma {:induction false} PutNegativeCoherent(s: Layers, lost: set<string>, keys: seq<CacheKey>, n: nat, r: Resolution,
                                               p: Policy, at: nat -> nat, f: Faults, now: nat)
    requires n <= |keys| && Coherent(s, lost, now) && Clean(f)
    ensures Coherent(PutNegativeTo(s, keys, n, r, p, at, f), lost, now)
    decreases n
  {
    if n > 0 {
      PutNegativeCoherent(s, lost, keys, n - 1, r, p, at, f, now);
      var ttl := NegativeTTLFor(p, r.cacheTTL);
      var t := PutNegativeTo(s, keys, n - 1, r, p, at, f);
      WriteCoherent(t, lost, now, keys[n - 1].value, NegativeEntry(r, ttl, at(n - 1)), ttl, n - 1, f);
    }
  }

  lemma {:induction false} PutInProgressCoherent(s: Layers, lost: set<string>, keys: seq<CacheKey>, n: nat, ttl: int,
                                                 at: nat -> nat, f: Faults, now: nat)
    requires n <= |keys| && Coherent(s, lost, now)
    ensures Coherent(PutInProgressTo(s, keys, n, ttl, at, f), lost, now)
    decreases n
  {
    if n > 0 { PutInProgressCoherent(s, lost, keys, n - 1, ttl, at, f, now); }
  }

  lemma StepCoherent(p: Policy, c: Cache, op: Op, c': Cache)
    requires Coherent(c.s, c.lost, c.now) && Next(p, c, op, c') && CleanOp(op)
    ensures Coherent(c'.s, c'.lost, c'.now)
  {
    MillisMonotone(c.now, c'.now);
    assert Coherent(c.s, c.lost, c'.now);
    match op
    case Get(keys, f, clock) =>
      var r :| GetOutcome(c.s, keys, p, clock, f, c'.s, r);
      GetCoherent(c.s, c.lost, keys, p, clock, f, c'.now, c'.s, r);
    case PutResolved(keys, r, f, at) => PutResolvedCoherent(c.s, c.lost, keys, |keys|, r, p, at, f, c'.now);
    case PutNegative(keys, r, f, at) => PutNegativeCoherent(c.s, c.lost, keys, |keys|, r, p, at, f, c'.now);
    case PutInProgress(keys, ttl, f, at) => PutInProgressCoherent(c.s, c.lost, keys, |keys|, ttl, at, f, c'.now);
    case Evict(key) =>
    case Expire(key) =>
  }

  /** Layer coherence: in every run of operations that do not overlap, from an
      empty cache and without failed writes, L1 never holds a marker, and each
      live L1 entry equals the store's entry of that key unless the last thing
      the store was given there is a marker. */
  lemma {:induction false} LayersInStep(p: Policy, run: seq<Cache>, ops: seq<Op>, i: nat)
    requires IsRun(p, run, ops) && i < |run| && (forall j :: 0 <= j < |ops| ==> CleanOp(ops[j]))
    ensures Coherent(run[i].s, run[i].lost, run[i].now)
    decreases i
  {
    if i > 0 {
      LayersInStep(p, run, ops, i - 1);
      assert Next(p, run[i - 1], ops[i - 1], run[i]);
      StepCoherent(p, run[i - 1], ops[i - 1], run[i]);
    }
  }

  /* ---------- failed writes ---------- */

  const K := CacheKey("k", FirstParty)

  function Answer(name: string): Resolution { Resolution([EID("s", ["u"])], name, None, 0) }

  function StoreOne(name: string, f: Faults): Op { PutResolved([K], Answer(name), f, _ => 0) }

  function Entered(p: Policy, name: string): Entry { Resolved(Answer(name), EffectiveTTL(p, FirstParty, 0), 0) }

  lemma OneStored(p: Policy, c: Cache, name: string, f: Faults) returns (c': Cache)
    ensures Next(p, c, StoreOne(name, f), c') && c'.now == c.now && c'.lost == c.lost
    ensures c'.s == WriteBoth(c.s, "k", Entered(p, name), EffectiveTTL(p, FirstParty, 0), 0, f)
  {
    c' := c.(s := PutResolvedTo(c.s, [K], 1, Answer(name), p, _ => 0, f));
    assert PutResolvedTo(c.s, [K], 0, Answer(name), p, _ => 0, f) == c.s;
  }

  /** A failed L1 write breaks step: the second of two stores of the same key
      leaves L1 serving the answer that the store has replaced. */
  lemma FailedSetBreaksStep(p: Policy) returns (run: seq<Cache>, ops: seq<Op>)
    requires p.standard >= MILLISECOND && p.firstParty >= MILLISECOND
    ensures IsRun(p, run, ops) && ops == [StoreOne("old", NoFaults), StoreOne("new", NoFaults.(localSets := {0}))]
    ensures !Coherent(run[2].s, run[2].lost, run[2].now)
  {
    var bad := NoFaults.(localSets := {0});
    var c1 := OneStored(p, Empty, "old", NoFaults);
    var c2 := OneStored(p, c1, "new", bad);
    run, ops := [Empty, c1, c2], [StoreOne("old", NoFaults), StoreOne("new", bad)];
    assert Entered(p, "old").abTestUuid != Entered(p, "new").abTestUuid;
    assert c2.s.l1["k"].entry == Entered(p, "old") && !InStep(c2.s, c2.lost, "k");
  }

  /** So does a failed store write, from the empty cache on. */
  lemma FailedPutBreaksStep(p: Policy) returns (run: seq<Cache>, ops: seq<Op>)
    requires p.standard >= MILLISECOND && p.firstParty >= MILLISECOND
    ensures IsRun(p, run, ops) && ops == [StoreOne("new", NoFaults.(storePuts := {0}))]
    ensures !Coherent(run[1].s, run[1].lost, run[1].now)
  {
    var bad := NoFaults.(storePuts := {0});
    var c1 := OneStored(p, Empty, "new", bad);
    run, ops := [Empty, c1], [StoreOne("new", bad)];
    assert !InStep(c1.s, c1.lost, "k");
  }
}
