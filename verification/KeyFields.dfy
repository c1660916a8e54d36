/** Which keys an auction has, and what they are made of, read off its fields. */
module KeyFields {
  import opened Wrappers
  import opened Auction
  import opened Strings
  import opened CacheEntry
  import opened CacheKeys
  import opened CacheKeyTheorems

  // The key of the advertising identifier, unless it is blank or limited.
  predicate DeviceIDKeys(tx: Text, device: Option<Device>, ks: seq<CacheKey>) {
    if device.None? || Blank(device.value.ifa) || device.value.limited then ks == []
    else if device.value.deviceType == 3 || device.value.deviceType == 7 then
      ks == [CacheKey("maid:" + tx.upper(device.value.ifa), FirstParty)]
    else ks == [CacheKey("maid:" + device.value.ifa, FirstParty)]
  }

  function Or(s: string, t: string): string { if Blank(s) then t else s }

  // Two texts, with an underscore between them if neither is empty.
  function With(s: string, t: string): string { if s == "" then t else if t == "" then s else s + "_" + t }

  // The device's identifier, user agent and address, as far as they are not blank;
  // the IPv6 address counts only in place of the other.
  function FingerprintText(tx: Text, d: Device): string {
    With(With(Or(d.ifa, ""), Or(tx.userAgent(d.ua), "")), Or(d.ip, Or(d.ipv6, "")))
  }

  predicate FingerprintKeys(tx: Text, device: Option<Device>, ks: seq<CacheKey>) {
    if device.None? || FingerprintText(tx, device.value) == "" then ks == []
    else ks == [CacheKey("dev:" + FingerprintText(tx, device.value), DeviceKey)]
  }

  lemma MaidExactly(tx: Text, device: Option<Device>)
    ensures DeviceIDKeys(tx, device, MaidKeys(tx, device))
  {
  }

  lemma FingerprintExactly(tx: Text, device: Option<Device>)
    ensures FingerprintKeys(tx, device, DeviceKeys(tx, device))
  {
    if device.Some? {
      var d := device.value;
      var fields := [d.ifa, tx.userAgent(d.ua), if NotBlank(d.ip) then d.ip else d.ipv6];
      ThreeFields(fields);
    }
  }

  lemma ThreeFields(f: seq<string>)
    requires |f| == 3
    ensures var kept, text := NonBlank(f, 3), With(With(Or(f[0], ""), Or(f[1], "")), Or(f[2], ""));
      (kept == [] <==> text == "") && Join(kept, "_") == text
  {
    var one, two := NonBlank(f, 1), NonBlank(f, 2);
    assert NonBlank(f, 0) == [];
    assert one == if NotBlank(f[0]) then [f[0]] else [];
    assert two == if NotBlank(f[1]) then one + [f[1]] else one;
    JoinedTwo(one, two, f[0], f[1]);
    JoinedLast(two, f[2]);
  }

  lemma JoinedTwo(one: seq<string>, two: seq<string>, a: string, b: string)
    requires one == (if NotBlank(a) then [a] else []) && two == if NotBlank(b) then one + [b] else one
    ensures (two == [] <==> With(Or(a, ""), Or(b, "")) == "") && Join(two, "_") == With(Or(a, ""), Or(b, "")) && |two| <= 2
  {
    if |two| == 2 { assert two == [a, b] && two[1..] == [b]; }
  }

  lemma JoinedLast(two: seq<string>, c: string)
    requires |two| <= 2
    ensures NotBlank(c) && two != [] ==> Join(two + [c], "_") == Join(two, "_") + "_" + c
    ensures NotBlank(c) && two == [] ==> Join(two + [c], "_") == c
  {
    var all := two + [c];
    if |two| == 1 { assert all[1..] == [c]; }
    if |two| == 2 {
      assert all[1..] == [two[1], c] && all[1..][1..] == [c] && two[1..] == [two[1]];
      assert two[0] + "_" + (two[1] + "_" + c) == two[0] + "_" + two[1] + "_" + c;
    }
  }

  // The keys of a pass: one for each identifier, in order.
  predicate KeyedAs(ks: seq<CacheKey>, us: seq<Uid>, namespace: string, kind: KeyType) {
    |ks| == |us| && forall k :: 0 <= k < |us| ==> ks[k] == CacheKey(namespace + ":" + us[k].id, kind)
  }

  // The five passes of an auction.
  datatype Passes = Passes(
    partner: seq<CacheKey>, shared: seq<CacheKey>, maid: seq<CacheKey>, other: seq<CacheKey>, device: seq<CacheKey>)

  // The identifiers from sources that `from` names, in the auction's order.
  ghost predicate Takes(eids: seq<EID>, us: seq<Uid>, from: Octets -> bool) {
    Ordered(us) && forall u :: u in us <==> Counts(eids, u) && from(u.source)
  }

  predicate FromPartner(source: Octets) { source == "intentiq.com" }

  predicate FromShared(source: Octets) { source == "pubcid.org" || source == "sharedid.org" }

  predicate FromOther(source: Octets) { !FromPartner(source) && !FromShared(source) }

  ghost predicate PassesOf(tx: Text, r: BidRequest, ps: Passes, p: seq<Uid>, s: seq<Uid>, o: seq<Uid>) {
    && Takes(EIDsOf(r.user), p, FromPartner) && KeyedAs(ps.partner, p, "iiq", ThirdParty)
    && Takes(EIDsOf(r.user), s, FromShared) && KeyedAs(ps.shared, s, "pubcid", FirstParty)
    && Takes(EIDsOf(r.user), o, FromOther) && |ps.other| == |o|
    && (forall k :: 0 <= k < |o| ==> ps.other[k] == CacheKey(tx.lower(o[k].source) + ":" + o[k].id, FirstParty))
    && DeviceIDKeys(tx, r.device, ps.maid) && FingerprintKeys(tx, r.device, ps.device)
  }

  /** The candidates of an auction are its five passes, in order: the partner's
      identifiers, the shared ones, the advertising identifier, all others and the
      fingerprint, each identifier that counts under its own source's name. */
  lemma CandidatesExactly(tx: Text, r: BidRequest) returns (ps: Passes, p: seq<Uid>, s: seq<Uid>, o: seq<Uid>)
    ensures PassesOf(tx, r, ps, p, s, o)
    ensures Candidates(tx, r) == ps.partner + ps.shared + ps.maid + ps.other + ps.device
  {
    var eids := EIDsOf(r.user);
    p, s, o := InPass(eids, Partner), InPass(eids, Shared), InPass(eids, Other);
    ps := Passes(KeysOf(tx, p), KeysOf(tx, s), MaidKeys(tx, r.device), KeysOf(tx, o), DeviceKeys(tx, r.device));
    TakesPass(eids, Partner, FromPartner);
    TakesPass(eids, Shared, FromShared);
    TakesPass(eids, Other, FromOther);
    PartnerKeyed(tx, p);
    SharedKeyed(tx, s);
    OtherKeyed(tx, o);
    MaidExactly(tx, r.device);
    FingerprintExactly(tx, r.device);
  }

  lemma TakesPass(eids: seq<EID>, g: Group, from: Octets -> bool)
    requires forall s: Octets :: from(s) <==> GroupOf(s) == g
    ensures Takes(eids, InPass(eids, g), from)
  {
    var us := Uids(eids, |eids|);
    UidsExact(eids, |eids|);
    PickedStable(us, InGroup(g));
  }

  lemma PartnerKeyed(tx: Text, us: seq<Uid>)
    requires forall u :: u in us ==> FromPartner(u.source)
    ensures KeyedAs(KeysOf(tx, us), us, "iiq", ThirdParty)
  {
    forall k | 0 <= k < |us| ensures KeysOf(tx, us)[k] == CacheKey("iiq" + ":" + us[k].id, ThirdParty) { assert us[k] in us; }
  }

  lemma SharedKeyed(tx: Text, us: seq<Uid>)
    requires forall u :: u in us ==> FromShared(u.source)
    ensures KeyedAs(KeysOf(tx, us), us, "pubcid", FirstParty)
  {
    forall k | 0 <= k < |us| ensures KeysOf(tx, us)[k] == CacheKey("pubcid" + ":" + us[k].id, FirstParty) { assert us[k] in us; }
  }

  lemma OtherKeyed(tx: Text, us: seq<Uid>)
    requires forall u :: u in us ==> FromOther(u.source)
    ensures forall k :: 0 <= k < |us| ==> KeysOf(tx, us)[k] == CacheKey(tx.lower(us[k].source) + ":" + us[k].id, FirstParty)
  {
    forall k | 0 <= k < |us| ensures KeysOf(tx, us)[k] == CacheKey(tx.lower(us[k].source) + ":" + us[k].id, FirstParty) {
      assert us[k] in us;
    }
  }

  /* ---------- the keys that come out ---------- */

  // `at` are the positions, in order, at which a value comes for the first time.
  ghost predicate FirstsAt(all: seq<CacheKey>, at: seq<nat>) {
    && (forall a, b :: 0 <= a < b < |at| ==> at[a] < at[b])
    && (forall j: nat :: j in at <==> j < |all| && forall i :: 0 <= i < j ==> all[i].value != all[j].value)
  }

  /** The extracted keys are the first ones of their value among the five passes, in
      order, all of them without a positive cap and no more than the cap with one. */
  lemma ExtractedExactly(tx: Text, r: BidRequest, cap: int)
      returns (ps: Passes, p: seq<Uid>, s: seq<Uid>, o: seq<Uid>, at: seq<nat>)
    ensures PassesOf(tx, r, ps, p, s, o)
    ensures var all, keys := ps.partner + ps.shared + ps.maid + ps.other + ps.device, Extracted(tx, Some(r), cap);
      && FirstsAt(all, at)
      && |keys| == (if cap > 0 && cap < |at| then cap else |at|)
      && forall k :: 0 <= k < |keys| ==> at[k] < |all| && keys[k] == all[at[k]]
  {
    ps, p, s, o := CandidatesExactly(tx, r);
    var all := Candidates(tx, r);
    at := FirstsExact(all, |all|);
    CapIsPrefix(tx, Some(r), cap);
  }
}
