/** What the API reads in the URLs that are built. */
module ParamTheorems {
  import opened Wrappers
  import opened Auction
  import opened Strings
  import opened Percent
  import opened Query
  import opened Params
  import opened CacheEntry
  import CacheKeys
  import CacheKeyTheorems

  /* ---------- names ---------- */

  function Rank(n: Name): nat {
    match n
    case AT => 0
    case MI => 1
    case DPI => 2
    case PT => 3
    case DPN => 4
    case ServerReq => 5
    case Source => 6
    case IP => 7
    case IPv6 => 8
    case UA => 9
    case UAHints => 10
    case PCID => 11
    case IDType => 12
    case Ref => 13
    case IIQUID => 14
    case GDPR => 15
    case USPrivacy => 16
    case GPP => 17
    case GPPSID => 18
  }

  /** Different parameters have different names. */
  lemma NamesDiffer(m: Name, n: Name)
    requires TextOf(m) == TextOf(n)
    ensures m == n
  {
  }

  // Names with ranks from `lo` to below `hi`, each sent once and in order.
  ghost predicate Ranked(ps: seq<Param>, lo: nat, hi: nat) {
    && (forall k :: 0 <= k < |ps| ==> lo <= Rank(ps[k].name) < hi)
    && (forall j, k :: 0 <= j < k < |ps| ==> Rank(ps[j].name) < Rank(ps[k].name))
  }

  lemma RankedConcat(ps: seq<Param>, qs: seq<Param>, lo: nat, mid: nat, hi: nat)
    requires lo <= mid <= hi && Ranked(ps, lo, mid) && Ranked(qs, mid, hi)
    ensures Ranked(ps + qs, lo, hi)
  {
  }

  lemma BaseRanked(partner: Octets)
    ensures Ranked(BaseParams(partner), 1, 7)
  {
  }

  lemma DeviceRanked(tx: Text, device: Option<Device>)
    ensures Ranked(DeviceParams(tx, device), 7, 13)
  {
    if device.Some? {
      var d := device.value;
      var first := [Param(IP, d.ip), Param(IPv6, d.ipv6), Param(UA, d.ua), Param(UAHints, d.hints)];
      RankedConcat(first, DeviceIDParams(tx, d), 7, 11, 13);
    }
  }

  lemma PrivacyRanked(regs: Option<Regs>)
    ensures Ranked(PrivacyParams(regs), 15, 19)
  {
    if regs.Some? {
      var g, u := GDPRParams(regs.value), USPrivacyParams(regs.value);
      RankedConcat(g, u, 15, 16, 17);
      RankedConcat(g + u, [Param(GPP, regs.value.gpp), Param(GPPSID, SIDs(regs.value.gppSid))], 15, 17, 19);
    }
  }

  lemma AuctionRanked(tx: Text, r: BidRequest)
    ensures Ranked(AuctionParams(tx, r), 7, 19)
  {
    var d, mid, p := DeviceParams(tx, r.device), [Param(Ref, ResolveRef(r)), Param(IIQUID, PartnerUID(EIDsOf(r.user)))], PrivacyParams(r.regs);
    DeviceRanked(tx, r.device);
    PrivacyRanked(r.regs);
    MidRanked(ResolveRef(r), PartnerUID(EIDsOf(r.user)));
    RankedConcat(d, mid, 7, 13, 15);
    RankedConcat(d + mid, p, 7, 15, 19);
  }

  lemma MidRanked(a: Octets, b: Octets)
    ensures Ranked([Param(Ref, a), Param(IIQUID, b)], 13, 15)
  {
  }

  /** No parameter comes twice, and they come in one fixed order. */
  lemma AllRanked(tx: Text, partner: Octets, auction: Option<BidRequest>)
    ensures Ranked(AllParams(tx, partner, auction), 1, 19)
  {
    BaseRanked(partner);
    if auction.Some? {
      AuctionRanked(tx, auction.value);
      RankedConcat(BaseParams(partner), AuctionParams(tx, auction.value), 1, 7, 19);
    }
  }

  /* ---------- reading back ---------- */

  /** What follows the endpoint and one separator reads back as the fixed first
      parameter and then exactly the parameters that are not blank, in order and
      with the values they had. */
  lemma URLParses(tx: Text, endpoint: string, partner: Octets, auction: Option<BidRequest>)
    ensures var url := RequestURL(tx, endpoint, partner, auction);
      && |url| > |endpoint| && url[..|endpoint|] == endpoint
      && url[|endpoint|] == (if '?' in endpoint then '&' else '?')
      && Parse(url[|endpoint| + 1..]) == Some([("at", "39")] + Pairs(Kept(AllParams(tx, partner, auction))))
  {
    var ps := AllParams(tx, partner, auction);
    ParseRendered(First, ps);
    TailOf(endpoint, Separator(endpoint), Piece(First), Rendered(ps));
  }

  lemma TailOf(endpoint: string, separator: string, first: string, rest: string)
    requires |separator| == 1
    ensures var url := endpoint + separator + first + rest;
      && url[..|endpoint|] == endpoint && url[|endpoint|] == separator[0] && url[|endpoint| + 1..] == first + rest
  {
  }

  // What a server takes as the query: all that follows the first "?".
  function QueryOf(url: string): string {
    var n := Find(url, '?');
    if n < |url| then url[n + 1..] else ""
  }

  /** A query that the endpoint already has is kept, and its pieces come first. */
  lemma KeepsEndpointQuery(tx: Text, endpoint: string, partner: Octets, auction: Option<BidRequest>)
    ensures var ours := Split(Piece(First) + Rendered(AllParams(tx, partner, auction)), '&');
      Split(QueryOf(RequestURL(tx, endpoint, partner, auction)), '&') == (if '?' in endpoint then Split(QueryOf(endpoint), '&') + ours else ours)
  {
    var first, ours := Piece(First), Rendered(AllParams(tx, partner, auction));
    if '?' in endpoint { JoinsQuery(endpoint, first, ours); } else { StartsQuery(endpoint, first, ours); }
  }

  lemma JoinsQuery(endpoint: string, first: string, ours: string)
    requires '?' in endpoint
    ensures Split(QueryOf(endpoint + "&" + first + ours), '&') == Split(QueryOf(endpoint), '&') + Split(first + ours, '&')
  {
    var n := Find(endpoint, '?');
    assert endpoint[..|endpoint|] == endpoint;
    var head, rest := endpoint[..n], endpoint[n + 1..];
    assert endpoint == head + ['?'] + rest;
    WithQuery(head, rest, first, ours);
    QueryAfter(head, rest + ['&'] + (first + ours));
    SplitJoined(rest, first + ours, '&');
  }

  lemma StartsQuery(endpoint: string, first: string, ours: string)
    requires '?' !in endpoint
    ensures QueryOf(endpoint + "?" + first + ours) == first + ours
  {
    WithoutQuery(endpoint, first, ours);
    QueryAfter(endpoint, first + ours);
  }

  lemma QueryAfter(head: string, rest: string)
    requires '?' !in head
    ensures QueryOf(head + ['?'] + rest) == rest
  {
    FindFirst(head, rest, '?');
  }

  lemma WithQuery(head: string, rest: string, first: string, ours: string)
    ensures head + ['?'] + rest + "&" + first + ours == head + ['?'] + (rest + ['&'] + (first + ours))
  {
  }

  lemma WithoutQuery(head: string, first: string, ours: string)
    ensures head + "?" + first + ours == head + ['?'] + (first + ours)
  {
  }

  lemma {:induction false} KeptExact(ps: seq<Param>, p: Param)
    ensures p in Kept(ps) <==> p in ps && NotBlank(p.value)
    decreases |ps|
  {
    if ps != [] {
      KeptExact(ps[1..], p);
      assert ps == [ps[0]] + ps[1..];
    }
  }

  /* ---------- identifiers ---------- */

  /** The partner identifier that is sent is the one whose cache key comes first,
      and there is one exactly when the first key is a partner's. */
  lemma SentUIDIsFirstKey(tx: Text, r: BidRequest, cap: int)
    ensures var keys, id := CacheKeys.Extracted(tx, Some(r), cap), PartnerUID(EIDsOf(r.user));
      && (NotBlank(id) <==> keys != [] && keys[0].kind == ThirdParty)
      && (NotBlank(id) ==> keys[0] == CacheKey("iiq:" + id, ThirdParty))
  {
    FirstExtracted(tx, r, cap);
    FirstCandidate(tx, r);
  }

  lemma FirstExtracted(tx: Text, r: BidRequest, cap: int)
    ensures var keys, all := CacheKeys.Extracted(tx, Some(r), cap), CacheKeys.Candidates(tx, r);
      && (keys != [] <==> all != [])
      && (keys != [] ==> keys[0] == all[0])
  {
    FirstKept(CacheKeys.Candidates(tx, r));
  }

  lemma FirstCandidate(tx: Text, r: BidRequest)
    ensures var all, id := CacheKeys.Candidates(tx, r), PartnerUID(EIDsOf(r.user));
      && (NotBlank(id) <==> all != [] && all[0].kind == ThirdParty)
      && (NotBlank(id) ==> all[0] == CacheKey("iiq:" + id, ThirdParty))
  {
    var eids := EIDsOf(r.user);
    var us, pass := CacheKeys.Uids(eids, |eids|), CacheKeys.InPass(eids, CacheKeys.Partner);
    CacheKeyTheorems.UidsExact(eids, |eids|);
    CacheKeyTheorems.PickedStable(us, CacheKeys.InGroup(CacheKeys.Partner));
    if CacheKeys.Candidates(tx, r) != [] { CacheKeyTheorems.CandidateKinds(tx, r, 0); }
    if pass != [] {
      assert pass[0] in pass;
      PartnerKey(tx, pass[0]);
      assert CacheKeys.KeysOf(tx, pass)[0] == CacheKeys.Candidates(tx, r)[0];
    }
  }

  lemma PartnerKey(tx: Text, u: CacheKeys.Uid)
    requires u.source == CacheKeys.IIQ
    ensures CacheKeys.KeyOf(tx, u) == CacheKey("iiq:" + u.id, ThirdParty)
  {
    assert "iiq" + ":" == "iiq:";
  }

  lemma FirstKept(keys: seq<CacheKey>)
    ensures keys != [] ==> CacheKeys.Firsts(keys, |keys|) != [] && CacheKeys.Firsts(keys, |keys|)[0] == keys[0]
  {
    if keys != [] {
      CacheKeys.FirstsGrow(keys, 1, |keys|);
      assert CacheKeys.IsFirst(keys, 0);
    }
  }
}
