/** What the API answers, and what the resolver makes of it. */
module Resolving {
  import opened Wrappers
  import opened Auction
  import opened CacheEntry

  // A failed call, or a body; `cttl` is in milliseconds.
  datatype Api = Failure | Body(empty: bool, eids: seq<EID>, abTestUuid: string, cause: Option<int>, cttl: Option<int>)

  datatype Response = Uncacheable | NoIdentifiers(r: Resolution) | Identifiers(r: Resolution)

  function Classify(a: Api): Response {
    if a.Failure? || a.empty then Uncacheable
    else
      var r := Resolution(a.eids, a.abTestUuid, a.cause, if a.cttl.None? then 0 else a.cttl.value * MILLISECOND);
      if a.eids == [] then NoIdentifiers(r) else Identifiers(r)
  }

  /* ---------- what an answer is worth, read off the answer itself ---------- */

  // The call succeeded with a body that is not empty.
  predicate Successful(a: Api) { a.Body? && !a.empty }

  // The lifetime that the body gives, in nanoseconds; none is zero.
  function OwnLife(a: Api): int { if a.Body? && a.cttl.Some? then a.cttl.value * 1_000_000 else 0 }

  // The entry says exactly what the body said: identifiers or that there are none,
  // the test group and the cause.
  predicate Tells(e: Entry, a: Api) {
    && Successful(a) && !e.inProgress && e.negative == (a.eids == [])
    && e.eids == a.eids && e.abTestUuid == a.abTestUuid && e.cause == a.cause
  }

  // So does a lookup's result.
  predicate Repeats(r: CacheResult, a: Api) {
    && Successful(a) && (r.Hit? || r.Negative?) && (r.Negative? <==> a.eids == [])
    && (r.Hit? ==> r.eids == a.eids) && r.abTestUuid == a.abTestUuid && r.cause == a.cause
  }

  // And a call's own.
  predicate Reads(x: Response, a: Api) {
    && (x.Uncacheable? <==> !Successful(a)) && (x.NoIdentifiers? <==> Successful(a) && a.eids == [])
    && (!x.Uncacheable? ==> x.r.eids == a.eids && x.r.abTestUuid == a.abTestUuid && x.r.cause == a.cause)
  }

  // An answer stored at `at` under a key of this type expires in this millisecond.
  ghost predicate ExpiresAt(p: Policy, kind: KeyType, a: Api, at: nat, millisecond: int) {
    exists life :: Lasts(p, kind, a.Body? && a.eids == [], OwnLife(a), life) && millisecond == Expiry(at, life)
  }

  lemma ClassifyReads(a: Api)
    ensures Reads(Classify(a), a)
    ensures !Classify(a).Uncacheable? ==> Classify(a).r.cacheTTL == OwnLife(a)
  {
  }

  // What is stored of an answer tells it, and lasts as long as it should.
  lemma StoredTells(p: Policy, kind: KeyType, a: Api, at: nat)
    requires Successful(a)
    ensures var x := Classify(a);
      var e := if a.eids == [] then NegativeEntry(x.r, NegativeTTLFor(p, x.r.cacheTTL), at)
               else Resolved(x.r, EffectiveTTL(p, kind, x.r.cacheTTL), at);
      Tells(e, a) && ExpiresAt(p, kind, a, at, e.expiresAt)
  {
    ClassifyReads(a);
    LastsExactly(p, kind, OwnLife(a), EffectiveTTL(p, kind, OwnLife(a)));
    LastsExactly(p, kind, OwnLife(a), NegativeTTLFor(p, OwnLife(a)));
  }

  lemma TellsRepeats(e: Entry, a: Api, kind: KeyType, layer: Layer)
    requires Tells(e, a)
    ensures var r := FromEntry(e, kind, layer); Repeats(r, a) && r.kind == kind && r.layer == layer
  {
  }
}
