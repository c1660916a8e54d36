/** Which values a request carries: for every parameter exactly when it is sent,
    and with what, read off the fields of the auction. */
module ParamFields {
  import opened Wrappers
  import opened Auction
  import opened Strings
  import opened Percent
  import opened Query
  import opened Params
  import opened ParamTheorems
  import CacheKeys
  import CacheKeyTheorems

  /* ---------- what is due ---------- */

  // Of a device, if there is one.
  predicate DueOfDevice(tx: Text, d: Device, n: Name, v: Octets) {
    match n
    case IP => v == d.ip
    case IPv6 => v == d.ipv6
    case UA => v == d.ua
    case UAHints => v == d.hints
    case PCID => NotBlank(d.ifa) && !d.limited && v == (if d.deviceType == 3 || d.deviceType == 7 then tx.upper(d.ifa) else d.ifa)
    case IDType => NotBlank(d.ifa) && !d.limited && v == (if d.deviceType == 3 || d.deviceType == 7 then "8" else "4")
    case _ => false
  }

  // A field of the object goes before the same field of its extension.
  predicate DueOfRegs(regs: Regs, n: Name, v: Octets) {
    match n
    case GDPR =>
      || (regs.gdpr.Some? && v == Itoa(regs.gdpr.value))
      || (regs.gdpr.None? && regs.extension.Some? && regs.extension.value.gdpr.Some? && v == Itoa(regs.extension.value.gdpr.value))
    case USPrivacy =>
      || (NotBlank(regs.usPrivacy) && v == regs.usPrivacy)
      || (Blank(regs.usPrivacy) && regs.extension.Some? && v == regs.extension.value.usPrivacy)
    case GPP => v == regs.gpp
    case GPPSID => v == SIDs(regs.gppSid)
    case _ => false
  }

  // The site's domain or page; without a site the app's bundle or name.
  predicate DueRef(r: BidRequest, v: Octets) {
    || (r.site.Some? && NotBlank(r.site.value.domain) && v == r.site.value.domain)
    || (r.site.Some? && Blank(r.site.value.domain) && v == r.site.value.page)
    || (r.site.None? && r.app.Some? && NotBlank(r.app.value.bundle) && v == r.app.value.bundle)
    || (r.site.None? && r.app.Some? && Blank(r.app.value.bundle) && v == r.app.value.name)
  }

  // The identifier at `i`, `j` is the partner's and not blank.
  predicate PartnersOwn(eids: seq<EID>, i: nat, j: nat) {
    i < |eids| && eids[i].source == "intentiq.com" && j < |eids[i].uids| && NotBlank(eids[i].uids[j])
  }

  // The first such identifier, in the auction's order.
  ghost predicate DueUID(eids: seq<EID>, v: Octets) {
    exists i: nat, j: nat :: PartnersOwn(eids, i, j) && v == eids[i].uids[j]
      && forall k: nat, l: nat :: PartnersOwn(eids, k, l) ==> i < k || (i == k && j <= l)
  }

  ghost predicate DueOfAuction(tx: Text, r: BidRequest, n: Name, v: Octets) {
    || (r.device.Some? && DueOfDevice(tx, r.device.value, n, v))
    || (n.Ref? && DueRef(r, v))
    || (n.IIQUID? && r.user.Some? && DueUID(r.user.value.eids, v))
    || (r.regs.Some? && DueOfRegs(r.regs.value, n, v))
  }

  predicate DueAlways(partner: Octets, n: Name, v: Octets) {
    match n
    case MI => v == "10"
    case DPI => v == partner
    case PT => v == "17"
    case DPN => v == "1"
    case ServerReq => v == "true"
    case Source => v == "pbsgo"
    case _ => false
  }

  // The parameter has this value, and the value is not blank.
  ghost predicate Due(tx: Text, partner: Octets, auction: Option<BidRequest>, n: Name, v: Octets) {
    NotBlank(v) && (DueAlways(partner, n, v) || (auction.Some? && DueOfAuction(tx, auction.value, n, v)))
  }

  /* ---------- the partner's identifier ---------- */

  lemma PartnerExactly(eids: seq<EID>, v: Octets)
    requires NotBlank(v)
    ensures v == PartnerUID(eids) <==> DueUID(eids, v)
  {
    var us, pass := CacheKeys.Uids(eids, |eids|), CacheKeys.InPass(eids, CacheKeys.Partner);
    CacheKeyTheorems.UidsExact(eids, |eids|);
    CacheKeyTheorems.PickedStable(us, CacheKeys.InGroup(CacheKeys.Partner));
    forall i: nat, j: nat | PartnersOwn(eids, i, j) ensures CacheKeys.Uid(i, j, eids[i].source, eids[i].uids[j]) in pass {
      assert CacheKeyTheorems.Counts(eids, CacheKeys.Uid(i, j, eids[i].source, eids[i].uids[j]));
    }
    if pass != [] {
      FirstOwn(eids, pass);
      if DueUID(eids, v) { OneFirst(eids, v, pass[0]); }
    }
  }

  lemma FirstOwn(eids: seq<EID>, pass: seq<CacheKeys.Uid>)
    requires pass != [] && CacheKeyTheorems.Ordered(pass)
    requires forall u :: u in pass ==> CacheKeyTheorems.Counts(eids, u) && u.source == "intentiq.com"
    requires forall i: nat, j: nat :: PartnersOwn(eids, i, j) ==> CacheKeys.Uid(i, j, eids[i].source, eids[i].uids[j]) in pass
    ensures PartnersOwn(eids, pass[0].i, pass[0].j) && DueUID(eids, pass[0].id)
    ensures forall k: nat, l: nat :: PartnersOwn(eids, k, l) ==> pass[0].i < k || (pass[0].i == k && pass[0].j <= l)
  {
    assert pass[0] in pass;
    forall k: nat, l: nat | PartnersOwn(eids, k, l) ensures pass[0].i < k || (pass[0].i == k && pass[0].j <= l) {
      var u := CacheKeys.Uid(k, l, eids[k].source, eids[k].uids[l]);
      var a :| 0 <= a < |pass| && pass[a] == u;
      if a > 0 { assert CacheKeyTheorems.Before(pass[0], pass[a]); }
    }
  }

  lemma OneFirst(eids: seq<EID>, v: Octets, u: CacheKeys.Uid)
    requires DueUID(eids, v) && PartnersOwn(eids, u.i, u.j) && u.id == eids[u.i].uids[u.j]
    requires forall k: nat, l: nat :: PartnersOwn(eids, k, l) ==> u.i < k || (u.i == k && u.j <= l)
    ensures v == u.id
  {
    var i: nat, j: nat :| PartnersOwn(eids, i, j) && v == eids[i].uids[j]
      && forall k: nat, l: nat :: PartnersOwn(eids, k, l) ==> i < k || (i == k && j <= l);
    assert i == u.i && j == u.j;
  }

  /* ---------- what is sent ---------- */

  lemma BaseDue(partner: Octets, n: Name, v: Octets)
    ensures Param(n, v) in BaseParams(partner) <==> DueAlways(partner, n, v)
  {
  }

  lemma DeviceDue(tx: Text, device: Option<Device>, n: Name, v: Octets)
    ensures Param(n, v) in DeviceParams(tx, device) <==> device.Some? && DueOfDevice(tx, device.value, n, v)
  {
    if device.Some? {
      var d := device.value;
      var p, own, id := Param(n, v), [Param(IP, d.ip), Param(IPv6, d.ipv6), Param(UA, d.ua), Param(UAHints, d.hints)], DeviceIDParams(tx, d);
      assert p in own + id <==> p in own || p in id;
      assert p in own <==> p == own[0] || p == own[1] || p == own[2] || p == own[3];
      assert p in id <==> (|id| > 0 && p == id[0]) || (|id| > 1 && p == id[1]);
    }
  }

  lemma RegsDue(regs: Option<Regs>, n: Name, v: Octets)
    ensures Param(n, v) in PrivacyParams(regs) <==> regs.Some? && DueOfRegs(regs.value, n, v)
  {
    if regs.Some? {
      var p, g, u := Param(n, v), GDPRParams(regs.value), USPrivacyParams(regs.value);
      var rest := [Param(GPP, regs.value.gpp), Param(GPPSID, SIDs(regs.value.gppSid))];
      assert p in g + u + rest <==> p in g || p in u || p in rest;
      assert p in g <==> |g| > 0 && p == g[0];
      assert p in u <==> |u| > 0 && p == u[0];
      assert p in rest <==> p == rest[0] || p == rest[1];
    }
  }

  lemma RefDue(r: BidRequest, v: Octets)
    requires NotBlank(v)
    ensures v == ResolveRef(r) <==> DueRef(r, v)
  {
  }

  lemma UIDDue(user: Option<User>, v: Octets)
    requires NotBlank(v)
    ensures v == PartnerUID(EIDsOf(user)) <==> user.Some? && DueUID(user.value.eids, v)
  {
    PartnerExactly(EIDsOf(user), v);
  }

  lemma AuctionDue(tx: Text, r: BidRequest, n: Name, v: Octets)
    requires NotBlank(v)
    ensures Param(n, v) in AuctionParams(tx, r) <==> DueOfAuction(tx, r, n, v)
  {
    var p, d, g := Param(n, v), DeviceParams(tx, r.device), PrivacyParams(r.regs);
    var mid := [Param(Ref, ResolveRef(r)), Param(IIQUID, PartnerUID(EIDsOf(r.user)))];
    DeviceDue(tx, r.device, n, v);
    RegsDue(r.regs, n, v);
    RefDue(r, v);
    UIDDue(r.user, v);
    assert p in d + mid + g <==> p in d || p in mid || p in g;
    assert p in mid <==> p == mid[0] || p == mid[1];
  }

  lemma ParamsDue(tx: Text, partner: Octets, auction: Option<BidRequest>, n: Name, v: Octets)
    ensures Param(n, v) in Kept(AllParams(tx, partner, auction)) <==> Due(tx, partner, auction, n, v)
  {
    KeptExact(AllParams(tx, partner, auction), Param(n, v));
    BaseDue(partner, n, v);
    if auction.Some? && NotBlank(v) { AuctionDue(tx, auction.value, n, v); }
  }

  lemma {:induction false} PairsExact(ps: seq<Param>, name: string, v: Octets)
    ensures (name, v) in Pairs(ps) <==> exists p :: p in ps && TextOf(p.name) == name && p.value == v
    decreases |ps|
  {
    if ps != [] {
      PairsExact(ps[1..], name, v);
      assert ps == [ps[0]] + ps[1..];
    }
  }

  // What follows the endpoint reads as a query that has this parameter.
  predicate Sent(url: string, endpoint: string, name: string, v: string) {
    && |endpoint| < |url| && url[..|endpoint|] == endpoint
    && Parse(url[|endpoint| + 1..]).Some? && (name, v) in Parse(url[|endpoint| + 1..]).value
  }

  /** A request carries at=39 and exactly the parameters that are due, each with the
      value that is due. */
  lemma SentExactly(tx: Text, endpoint: string, partner: Octets, auction: Option<BidRequest>, name: string, v: Octets)
    ensures Sent(RequestURL(tx, endpoint, partner, auction), endpoint, name, v) <==>
      (name == "at" && v == "39") || exists n :: TextOf(n) == name && Due(tx, partner, auction, n, v)
  {
    var kept := Kept(AllParams(tx, partner, auction));
    URLParses(tx, endpoint, partner, auction);
    PairsExact(kept, name, v);
    assert (name, v) in [("at", "39")] + Pairs(kept) <==> (name == "at" && v == "39") || (name, v) in Pairs(kept);
    forall n ensures Param(n, v) in kept <==> Due(tx, partner, auction, n, v) { ParamsDue(tx, partner, auction, n, v); }
    if p :| p in kept && TextOf(p.name) == name && p.value == v { assert Param(p.name, v) in kept; }
    if n :| TextOf(n) == name && Due(tx, partner, auction, n, v) { assert Param(n, v) in kept; }
  }

  /** A device's identifier type is sent exactly when its identifier may be
      used, which needs it not to be limited: 8 for television, 4 otherwise. */
  lemma IDTypeSent(tx: Text, partner: Octets, r: BidRequest, v: Octets)
    ensures Param(IDType, v) in Kept(AllParams(tx, partner, Some(r))) <==>
      && r.device.Some? && NotBlank(r.device.value.ifa) && !r.device.value.limited
      && v == if r.device.value.deviceType == 3 || r.device.value.deviceType == 7 then "8" else "4"
  {
    var ps := AllParams(tx, partner, Some(r));
    TypeKept(tx, partner, r, v, ps);
    TypeRaw(tx, r, v, Param(IDType, v) in Kept(ps));
  }

  lemma TypeRaw(tx: Text, r: BidRequest, v: Octets, sent: bool)
    requires sent <==> r.device.Some? && DueOfDevice(tx, r.device.value, IDType, v)
    ensures sent <==>
      && r.device.Some? && NotBlank(r.device.value.ifa) && !r.device.value.limited
      && v == if r.device.value.deviceType == 3 || r.device.value.deviceType == 7 then "8" else "4"
  {
  }

  lemma TypeDue(tx: Text, partner: Octets, r: BidRequest, v: Octets)
    ensures Due(tx, partner, Some(r), IDType, v) <==> NotBlank(v) && r.device.Some? && DueOfDevice(tx, r.device.value, IDType, v)
  {
  }

  lemma TypeKept(tx: Text, partner: Octets, r: BidRequest, v: Octets, ps: seq<Param>)
    requires ps == AllParams(tx, partner, Some(r))
    ensures Param(IDType, v) in Kept(ps) <==>
      r.device.Some? && DueOfDevice(tx, r.device.value, IDType, v)
  {
    ParamsDue(tx, partner, Some(r), IDType, v);
    TypeDue(tx, partner, r, v);
    if r.device.Some? { TypeNotBlank(tx, r.device.value, v); }
  }

  lemma TypeNotBlank(tx: Text, d: Device, v: Octets)
    ensures DueOfDevice(tx, d, IDType, v) ==> NotBlank(v)
  {
    if DueOfDevice(tx, d, IDType, v) {
      TypesNotBlank();
      assert v == "8" || v == "4";
    }
  }

  lemma TypesNotBlank()
    ensures NotBlank("8") && NotBlank("4")
  {
  }

  /** The names by which the API knows the parameters. */
  lemma Names()
    ensures TextOf(AT) == "at" && TextOf(MI) == "mi" && TextOf(DPI) == "dpi" && TextOf(PT) == "pt" && TextOf(DPN) == "dpn"
    ensures TextOf(ServerReq) == "srvrReq" && TextOf(Source) == "source" && TextOf(IP) == "ip" && TextOf(IPv6) == "ipv6"
    ensures TextOf(UA) == "uas" && TextOf(UAHints) == "uh" && TextOf(PCID) == "pcid" && TextOf(IDType) == "idtype"
    ensures TextOf(Ref) == "ref" && TextOf(IIQUID) == "iiquid" && TextOf(GDPR) == "gdpr"
      && TextOf(USPrivacy) == "us_privacy"
    ensures TextOf(GPP) == "gpp" && TextOf(GPPSID) == "gpp_sid"
  {
  }

  /* ---------- numbers ---------- */

  predicate IsDigit(c: char) { '0' <= c <= '9' }

  // The number that a string of decimal digits stands for.
  function Value(s: string): nat
    requires forall k :: 0 <= k < |s| ==> IsDigit(s[k])
  {
    if s == "" then 0
    else
      assert IsDigit(s[|s| - 1]);
      Value(s[..|s| - 1]) * 10 + (s[|s| - 1] as int - '0' as int)
  }

  /** A number is written in decimal digits, without leading zeros. */
  lemma {:induction false} DigitsExactly(n: nat)
    ensures var s := Digits(n);
      && (forall k :: 0 <= k < |s| ==> IsDigit(s[k])) && Value(s) == n
      && s != "" && (s[0] == '0' ==> n == 0 && s == "0")
    decreases n
  {
    var s := Digits(n);
    if n < 10 {
      assert s[..0] == "";
    } else {
      DigitsExactly(n / 10);
      assert s[..|s| - 1] == Digits(n / 10);
    }
  }

  lemma ItoaExactly(n: int)
    ensures Itoa(n) == if n < 0 then "-" + Digits(-n) else Digits(n)
    ensures ',' !in Itoa(n)
  {
    DigitsExactly(if n < 0 then -n else n);
  }

  lemma {:induction false} SplitJoin(parts: seq<string>, c: char)
    requires parts != [] && forall k :: 0 <= k < |parts| ==> c !in parts[k]
    ensures Split(Join(parts, [c]), c) == parts
    decreases |parts|
  {
    if |parts| == 1 {
      SplitNone(parts[0], c);
    } else {
      SplitJoin(parts[1..], c);
      SplitAt(parts[0], Join(parts[1..], [c]), c);
      assert parts == [parts[0]] + parts[1..];
    }
  }

  /** Section numbers are sent in decimal, separated by commas, and none as nothing. */
  lemma SIDsExactly(ns: seq<int>)
    ensures ns == [] ==> SIDs(ns) == ""
    ensures ns != [] ==> Split(SIDs(ns), ',') == Itoas(ns)
  {
    if ns != [] {
      forall k | 0 <= k < |ns| ensures ',' !in Itoas(ns)[k] { ItoaExactly(ns[k]); }
      SplitJoin(Itoas(ns), ',');
    }
  }
}
