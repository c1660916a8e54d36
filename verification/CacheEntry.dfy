/** Cache entries, the TTL policy and the rounding of lifetimes. Instants and
    durations are whole nanoseconds, as in the source; expiry is kept in whole
    milliseconds. */
module CacheEntry {
  import opened Wrappers
  import opened Auction

  const MILLISECOND := 1_000_000
  const SECOND := 1_000_000_000

  datatype KeyType = FirstParty | ThirdParty | DeviceKey | OtherKey

  datatype CacheKey = CacheKey(value: string, kind: KeyType)

  // A successful resolution, as far as the cache keeps it.
  datatype Resolution = Resolution(eids: seq<EID>, abTestUuid: string, cause: Option<int>, cacheTTL: int)

  datatype Entry = Entry(
    eids: seq<EID>, abTestUuid: string, cause: Option<int>,
    negative: bool, inProgress: bool, expiresAt: int)

  datatype Policy = Policy(standard: int, firstParty: int, thirdParty: int, device: int, negativeTTL: int)

  datatype Layer = NoLayer | L1 | L2

  datatype CacheResult =
    | Miss
    | Hit(eids: seq<EID>, abTestUuid: string, cause: Option<int>, kind: KeyType, layer: Layer)
    | Negative(abTestUuid: string, cause: Option<int>, kind: KeyType, layer: Layer)
    | InProgress(kind: KeyType, layer: Layer)

  // UnixMilli: the millisecond an instant falls in.
  function Millis(now: nat): nat { now / MILLISECOND }

  // Duration.Milliseconds: Go's division truncates toward zero.
  function DurationMillis(d: int): int { if d >= 0 then d / MILLISECOND else -(-d / MILLISECOND) }

  function Expiry(now: nat, ttl: int): int { Millis(now) + DurationMillis(ttl) }

  function Resolved(r: Resolution, ttl: int, now: nat): Entry {
    Entry(r.eids, r.abTestUuid, r.cause, false, false, Expiry(now, ttl))
  }

  function NegativeEntry(r: Resolution, ttl: int, now: nat): Entry {
    Entry([], r.abTestUuid, r.cause, true, false, Expiry(now, ttl))
  }

  function Marker(ttl: int, now: nat): Entry { Entry([], "", None, false, true, Expiry(now, ttl)) }

  // What decode accepts: an entry that has not expired.
  predicate Live(e: Entry, now: nat) { Millis(now) < e.expiresAt }

  function FromEntry(e: Entry, kind: KeyType, layer: Layer): CacheResult {
    if e.inProgress then InProgress(kind, layer)
    else if e.negative then Negative(e.abTestUuid, e.cause, kind, layer)
    else Hit(e.eids, e.abTestUuid, e.cause, kind, layer)
  }

  // The entry that a hit leaves under another key of the same lookup.
  function Alias(hit: Entry, ttlMillis: int, now: nat): Entry { hit.(expiresAt := Millis(now) + ttlMillis) }

  predicate SamePayload(a: Entry, b: Entry) { a.(expiresAt := 0) == b.(expiresAt := 0) }

  function Min(a: int, b: int): int { if a <= b then a else b }

  function Max(a: int, b: int): int { if a <= b then b else a }

  function CeilingFor(p: Policy, kind: KeyType): int {
    match kind
    case FirstParty => p.firstParty
    case ThirdParty => p.thirdParty
    case DeviceKey => p.device
    case OtherKey => p.standard
  }

  function EffectiveTTL(p: Policy, kind: KeyType, cacheTTL: int): int {
    Min(if cacheTTL > 0 then cacheTTL else p.standard, CeilingFor(p, kind))
  }

  function NegativeTTLFor(p: Policy, cacheTTL: int): int {
    if cacheTTL > 0 then Min(cacheTTL, p.firstParty) else p.negativeTTL
  }

  /* ---------- what the lifetimes and instants mean ---------- */

  predicate LeastOf(life: int, a: int, b: int) { life <= a && life <= b && (life == a || life == b) }

  // How long an answer lasts under a key of this type: its own lifetime if it has
  // a positive one, or the default, but no longer than a ceiling. A negative
  // answer knows the first-party ceiling only, and none for its default.
  predicate Lasts(p: Policy, kind: KeyType, negative: bool, own: int, life: int) {
    && (!negative && kind.FirstParty? ==> LeastOf(life, if own > 0 then own else p.standard, p.firstParty))
    && (!negative && kind.ThirdParty? ==> LeastOf(life, if own > 0 then own else p.standard, p.thirdParty))
    && (!negative && kind.DeviceKey? ==> LeastOf(life, if own > 0 then own else p.standard, p.device))
    && (!negative && kind.OtherKey? ==> LeastOf(life, if own > 0 then own else p.standard, p.standard))
    && (negative && own > 0 ==> LeastOf(life, own, p.firstParty))
    && (negative && own <= 0 ==> life == p.negativeTTL)
  }

  /** The policy gives every answer exactly that lifetime. */
  lemma LastsExactly(p: Policy, kind: KeyType, own: int, life: int)
    ensures Lasts(p, kind, false, own, life) <==> life == EffectiveTTL(p, kind, own)
    ensures Lasts(p, kind, true, own, life) <==> life == NegativeTTLFor(p, own)
  {
  }

  /** An entry lives until the millisecond it expires in begins. */
  lemma LiveExactly(e: Entry, now: nat)
    ensures Live(e, now) <==> now < e.expiresAt * 1_000_000
  {
  }

  /** An entry with a lifetime in whole milliseconds expires in the millisecond
      in which the lifetime ends. */
  lemma ExpiryExactly(at: nat, life: int)
    requires life % 1_000_000 == 0 && at + life >= 0
    ensures Expiry(at, life) == (at + life) / 1_000_000
    ensures Expiry(at, life) * 1_000_000 <= at + life < (Expiry(at, life) + 1) * 1_000_000
  {
    var k := life / MILLISECOND;
    assert life == k * MILLISECOND;
    assert (at + k * MILLISECOND) / MILLISECOND == at / MILLISECOND + k;
  }

  // math.Ceil of the seconds, with a floor of one.
  function FreeCacheSeconds(ttl: int): int {
    var seconds := -(-ttl / SECOND);
    if seconds < 1 then 1 else seconds
  }

  /** The whole seconds given to L1 are the least positive number that covers
      the requested lifetime. */
  lemma LeastSeconds(ttl: int, n: int)
    ensures FreeCacheSeconds(ttl) >= 1 && FreeCacheSeconds(ttl) * SECOND >= ttl
    ensures n >= 1 && n * SECOND >= ttl ==> FreeCacheSeconds(ttl) <= n
  {
  }

  lemma MillisMonotone(a: nat, b: nat)
    requires a <= b
    ensures Millis(a) <= Millis(b) && DurationMillis(a) <= DurationMillis(b)
  {
  }

  lemma DurationMonotone(a: int, b: int)
    requires a <= b
    ensures DurationMillis(a) <= DurationMillis(b)
  {
  }

  /** L1's own timer never hides an entry before it expires, whatever the
      requested lifetime: `read` is the clock reading that stamped the entry and
      `handed` the later instant at which it was handed over. */
  lemma L1CoversExpiry(read: nat, handed: nat, ttl: int)
    requires read <= handed
    ensures Expiry(read, ttl) * MILLISECOND <= handed + FreeCacheSeconds(ttl) * SECOND
  {
    LeastSeconds(ttl, 1);
  }

  /** The store is given the lifetime unrounded: it covers the entry exactly
      when the lifetime is not negative, or the part of a millisecond by which it
      is has already passed of the current one. */
  lemma L2CoversExpiry(read: nat, ttl: int)
    ensures Expiry(read, ttl) * MILLISECOND <= read + ttl <==> ttl >= 0 || (-ttl) % MILLISECOND <= read % MILLISECOND
  {
    if ttl < 0 {
      var d, m := -ttl, Millis(read);
      assert d == d / MILLISECOND * MILLISECOND + d % MILLISECOND && read == m * MILLISECOND + read % MILLISECOND;
    }
  }

  // A lifetime in whole milliseconds.
  predicate Whole(ttl: int) { ttl % MILLISECOND == 0 }

  // Every lifetime of a configured policy is a number of seconds.
  predicate WholePolicy(p: Policy) {
    Whole(p.standard) && Whole(p.firstParty) && Whole(p.thirdParty) && Whole(p.device) && Whole(p.negativeTTL)
  }

  lemma WholeCovered(read: nat, ttl: int)
    requires Whole(ttl)
    ensures Expiry(read, ttl) * MILLISECOND <= read + ttl
  {
    L2CoversExpiry(read, ttl);
    if ttl < 0 { assert ttl == ttl / MILLISECOND * MILLISECOND; }
  }

  lemma LifetimesWhole(p: Policy, kind: KeyType, cacheTTL: int)
    requires WholePolicy(p) && Whole(cacheTTL)
    ensures Whole(EffectiveTTL(p, kind, cacheTTL)) && Whole(NegativeTTLFor(p, cacheTTL))
  {
  }

  /** So it covers every entry whose lifetime comes from a configured policy
      and an answer of the API, at any clock reading. */
  lemma StoredLifetimesCovered(p: Policy, kind: KeyType, cacheTTL: int, read: nat)
    requires WholePolicy(p) && Whole(cacheTTL)
    ensures Expiry(read, EffectiveTTL(p, kind, cacheTTL)) * MILLISECOND <= read + EffectiveTTL(p, kind, cacheTTL)
    ensures Expiry(read, NegativeTTLFor(p, cacheTTL)) * MILLISECOND <= read + NegativeTTLFor(p, cacheTTL)
  {
    LifetimesWhole(p, kind, cacheTTL);
    WholeCovered(read, EffectiveTTL(p, kind, cacheTTL));
    WholeCovered(read, NegativeTTLFor(p, cacheTTL));
  }

  /** A negative entry stays within the ceiling of its own key exactly when the
      lifetime that applies does: the API's lifetime if that or the first-party
      ceiling fits, else the default. */
  lemma NegativeWithinCeiling(p: Policy, kind: KeyType, r: Resolution, now: nat)
    ensures NegativeEntry(r, NegativeTTLFor(p, r.cacheTTL), now).expiresAt <= Millis(now) + DurationMillis(CeilingFor(p, kind)) <==>
      if r.cacheTTL <= 0 then DurationMillis(p.negativeTTL) <= DurationMillis(CeilingFor(p, kind))
      else || DurationMillis(r.cacheTTL) <= DurationMillis(CeilingFor(p, kind))
           || DurationMillis(p.firstParty) <= DurationMillis(CeilingFor(p, kind))
  {
    if r.cacheTTL > 0 {
      if r.cacheTTL <= p.firstParty {
        DurationMonotone(r.cacheTTL, p.firstParty);
      } else {
        DurationMonotone(p.firstParty, r.cacheTTL);
      }
    }
  }
}
