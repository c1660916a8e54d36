/** Building the URL of an API request: a fixed parameter and then every
    parameter of the request and its auction that is not blank. */
module Params {
  import opened Wrappers
  import opened Auction
  import opened Strings
  import opened Percent
  import opened Query
  import CacheKeys

  /* ---------- what should be sent ---------- */

  function BaseParams(partner: Octets): seq<Param> {
    [Param(MI, "10"), Param(DPI, partner), Param(PT, "17"), Param(DPN, "1"), Param(ServerReq, "true"), Param(Source, "pbsgo")]
  }

  // The advertising identifier may be used.
  predicate HasDeviceID(d: Device) { NotBlank(d.ifa) && !d.limited }

  function DeviceIDParams(tx: Text, d: Device): seq<Param> {
    if !HasDeviceID(d) then []
    else if IsTV(d) then [Param(PCID, tx.upper(d.ifa)), Param(IDType, "8")]
    else [Param(PCID, d.ifa), Param(IDType, "4")]
  }

  function DeviceParams(tx: Text, device: Option<Device>): seq<Param> {
    if device.None? then []
    else
      var d := device.value;
      [Param(IP, d.ip), Param(IPv6, d.ipv6), Param(UA, d.ua), Param(UAHints, d.hints)] + DeviceIDParams(tx, d)
  }

  function ResolveRef(r: BidRequest): Octets {
    if r.site.Some? then if NotBlank(r.site.value.domain) then r.site.value.domain else r.site.value.page
    else if r.app.Some? then if NotBlank(r.app.value.bundle) then r.app.value.bundle else r.app.value.name
    else ""
  }

  // The first identifier of the partner's that is not blank.
  function PartnerUID(eids: seq<EID>): Octets {
    var us := CacheKeys.InPass(eids, CacheKeys.Partner);
    if us == [] then "" else us[0].id
  }

  function Digits(n: nat): Octets {
    if n < 10 then [('0' + n as char)] else Digits(n / 10) + [('0' + (n % 10) as char)]
  }

  function Itoa(n: int): Octets { if n < 0 then "-" + Digits(-n) else Digits(n) }

  function Itoas(ns: seq<int>): seq<Octets> { seq(|ns|, k requires 0 <= k < |ns| => Itoa(ns[k])) }

  // A field of the object itself goes before the same field of its extension.
  function GDPRParams(regs: Regs): seq<Param> {
    if regs.gdpr.Some? then [Param(GDPR, Itoa(regs.gdpr.value))]
    else if regs.extension.Some? && regs.extension.value.gdpr.Some? then [Param(GDPR, Itoa(regs.extension.value.gdpr.value))]
    else []
  }

  function USPrivacyParams(regs: Regs): seq<Param> {
    if NotBlank(regs.usPrivacy) then [Param(USPrivacy, regs.usPrivacy)]
    else if regs.extension.Some? then [Param(USPrivacy, regs.extension.value.usPrivacy)]
    else []
  }

  lemma {:induction false} JoinedOctets(parts: seq<Octets>)
    ensures IsOctets(Join(parts, ","))
    decreases |parts|
  {
    if |parts| > 1 { JoinedOctets(parts[1..]); }
  }

  function SIDs(ns: seq<int>): Octets {
    JoinedOctets(Itoas(ns));
    Join(Itoas(ns), ",")
  }

  function PrivacyParams(regs: Option<Regs>): seq<Param> {
    if regs.None? then []
    else GDPRParams(regs.value) + USPrivacyParams(regs.value) + [Param(GPP, regs.value.gpp), Param(GPPSID, SIDs(regs.value.gppSid))]
  }

  function AuctionParams(tx: Text, r: BidRequest): seq<Param> {
    DeviceParams(tx, r.device) + [Param(Ref, ResolveRef(r)), Param(IIQUID, PartnerUID(EIDsOf(r.user)))] + PrivacyParams(r.regs)
  }

  function AllParams(tx: Text, partner: Octets, auction: Option<BidRequest>): seq<Param> {
    if auction.None? then BaseParams(partner) else BaseParams(partner) + AuctionParams(tx, auction.value)
  }

  function Separator(endpoint: string): string { if '?' in endpoint then "&" else "?" }

  const Origin := [Param(DPN, "1"), Param(ServerReq, "true"), Param(Source, "pbsgo")]

  const First := Param(AT, "39")

  function Head(endpoint: string): string { endpoint + Separator(endpoint) + Piece(First) }

  function RequestURL(tx: Text, endpoint: string, partner: Octets, auction: Option<BidRequest>): string {
    Head(endpoint) + Rendered(AllParams(tx, partner, auction))
  }

  /* ---------- the builder ---------- */

  class Builder {
    var text: string
    ghost var head: string
    ghost var params: seq<Param>   // everything appended, blank or not

    ghost predicate Valid() reads this { text == head + Rendered(params) }

    constructor (start: string)
      ensures Valid() && head == start && params == []
    {
      text, head, params := start, start, [];
    }

    method AppendParameter(name: Name, value: Octets)
      requires Valid()
      modifies this
      ensures Valid() && head == old(head) && params == old(params) + [Param(name, value)]
    {
      AppendedText(head, params, Param(name, value));
      params := params + [Param(name, value)];
      if !NotBlank(value) { return; }
      text := text + ("&" + (TextOf(name) + "=" + EncodeParameter(value)));
    }

    // The first parameters of BuildS2SRequest.
    method AppendBase(partner: Octets)
      requires Valid()
      modifies this
      ensures Valid() && head == old(head) && params == old(params) + BaseParams(partner)
    {
      AppendParameter(MI, "10");
      AppendParameter(DPI, partner);
      AppendParameter(PT, "17");
      AppendOrigin();
      ThreeOnEnd(old(params), Param(MI, "10"), Param(DPI, partner), Param(PT, "17"));
      assert BaseParams(partner) == [Param(MI, "10"), Param(DPI, partner), Param(PT, "17")] + Origin;
    }

    // What tells the API that a server calls it.
    method AppendOrigin()
      requires Valid()
      modifies this
      ensures Valid() && head == old(head) && params == old(params) + Origin
    {
      AppendParameter(DPN, "1");
      AppendParameter(ServerReq, "true");
      AppendParameter(Source, "pbsgo");
      ThreeOnEnd(old(params), Param(DPN, "1"), Param(ServerReq, "true"), Param(Source, "pbsgo"));
    }

    // Those of the device.
    method AppendDevice(tx: Text, device: Option<Device>)
      requires Valid()
      modifies this
      ensures Valid() && head == old(head) && params == old(params) + DeviceParams(tx, device)
    {
      if device.None? { return; }
      var d := device.value;
      AppendParameter(IP, d.ip);
      AppendParameter(IPv6, d.ipv6);
      AppendParameter(UA, d.ua);
      AppendParameter(UAHints, d.hints);
      AppendDeviceID(tx, d);
    }

    method AppendDeviceID(tx: Text, d: Device)
      requires Valid()
      modifies this
      ensures Valid() && head == old(head) && params == old(params) + DeviceIDParams(tx, d)
      ensures params == old(params) +
        if Blank(d.ifa) || d.limited then []
        else if d.deviceType == 3 || d.deviceType == 7 then [Param(PCID, tx.upper(d.ifa)), Param(IDType, "8")]
        else [Param(PCID, d.ifa), Param(IDType, "4")]
    {
      if !NotBlank(d.ifa) || d.limited { return; }
      var pcid, idType := d.ifa, "4";
      if IsTV(d) { pcid, idType := tx.upper(pcid), "8"; }
      AppendParameter(PCID, pcid);
      AppendParameter(IDType, idType);
    }

    method AppendAll(tx: Text, partner: Octets, auction: Option<BidRequest>)
      requires Valid() && params == []
      modifies this
      ensures Valid() && head == old(head) && params == AllParams(tx, partner, auction)
    {
      AppendBase(partner);
      if auction.None? { return; }
      AppendAuction(tx, auction.value);
    }

    // Those of the auction.
    method AppendAuction(tx: Text, r: BidRequest)
      requires Valid()
      modifies this
      ensures Valid() && head == old(head) && params == old(params) + AuctionParams(tx, r)
    {
      AppendDevice(tx, r.device);
      AppendParameter(Ref, ResolveRef(r));
      var iiquid := ResolveIIQUID(r.user);
      AppendParameter(IIQUID, iiquid);
      AppendPrivacyParameters(r.regs);
      GroupsOnEnd(old(params), DeviceParams(tx, r.device), Param(Ref, ResolveRef(r)), Param(IIQUID, iiquid), PrivacyParams(r.regs));
    }

    method AppendPrivacyParameters(regs: Option<Regs>)
      requires Valid()
      modifies this
      ensures Valid() && head == old(head) && params == old(params) + PrivacyParams(regs)
    {
      if regs.None? { return; }
      var r := regs.value;
      AppendGDPR(r);
      AppendUSPrivacy(r);
      AppendParameter(GPP, r.gpp);
      var sids := JoinGPPSID(r.gppSid);
      AppendParameter(GPPSID, sids);
    }

    method AppendGDPR(r: Regs)
      requires Valid()
      modifies this
      ensures Valid() && head == old(head) && params == old(params) + GDPRParams(r)
    {
      if r.gdpr.Some? {
        AppendParameter(GDPR, Itoa(r.gdpr.value));
      } else if r.extension.Some? && r.extension.value.gdpr.Some? {
        AppendParameter(GDPR, Itoa(r.extension.value.gdpr.value));
      }
    }

    method AppendUSPrivacy(r: Regs)
      requires Valid()
      modifies this
      ensures Valid() && head == old(head) && params == old(params) + USPrivacyParams(r)
    {
      if NotBlank(r.usPrivacy) {
        AppendParameter(USPrivacy, r.usPrivacy);
      } else if r.extension.Some? {
        AppendParameter(USPrivacy, r.extension.value.usPrivacy);
      }
    }
  }

  lemma ThreeOnEnd<T>(s: seq<T>, a: T, b: T, c: T)
    ensures s + [a] + [b] + [c] == s + [a, b, c]
  {
  }

  lemma GroupsOnEnd<T>(s: seq<T>, d: seq<T>, a: T, b: T, p: seq<T>)
    ensures s + d + [a] + [b] + p == s + (d + [a, b] + p)
  {
  }

  // What appending a parameter adds to the text.
  lemma AppendedText(head: string, ps: seq<Param>, p: Param)
    ensures head + Rendered(ps + [p]) == head + Rendered(ps) + LastPiece(p)
  {
    RenderedAppend(ps, p);
    Regrouped(head, Rendered(ps), LastPiece(p));
  }

  method JoinGPPSID(ns: seq<int>) returns (joined: Octets)
    ensures joined == SIDs(ns)
  {
    if |ns| == 0 { return ""; }
    var parts: seq<Octets> := [];
    for k := 0 to |ns|
      invariant parts == Itoas(ns)[..k]
    {
      parts := parts + [Itoa(ns[k])];
    }
    assert parts == Itoas(ns);
    JoinedOctets(parts);
    joined := Join(parts, ",");
  }

  function PartnerPass(eids: seq<EID>, n: nat): seq<CacheKeys.Uid>
    requires n <= |eids|
  {
    CacheKeys.Picked(CacheKeys.Uids(eids, n), CacheKeys.InGroup(CacheKeys.Partner))
  }

  lemma PassNext(eids: seq<EID>, n: nat)
    requires n < |eids|
    ensures PartnerPass(eids, n) <= PartnerPass(eids, n + 1)
    ensures PartnerPass(eids, n + 1) ==
      if eids[n].source == CacheKeys.IIQ then PartnerPass(eids, n) + CacheKeys.UidsOf(n, eids[n], |eids[n].uids|)
      else PartnerPass(eids, n)
  {
    var eid, matches := eids[n], CacheKeys.InGroup(CacheKeys.Partner);
    if eid.source != "" {
      CacheKeys.PickedAppend(CacheKeys.Uids(eids, n), CacheKeys.UidsOf(n, eid, |eid.uids|), matches);
      CacheKeys.PickedOne(n, eid, |eid.uids|, matches);
    }
  }

  lemma {:induction false} PassPrefix(eids: seq<EID>, n: nat)
    requires n <= |eids|
    ensures PartnerPass(eids, n) <= PartnerPass(eids, |eids|)
    decreases |eids| - n
  {
    if n < |eids| {
      PassLonger(eids, n);
      PassPrefix(eids, n + 1);
      PrefixOf(PartnerPass(eids, n), PartnerPass(eids, n + 1), PartnerPass(eids, |eids|));
    }
  }

  lemma PassLonger(eids: seq<EID>, n: nat)
    requires n < |eids|
    ensures PartnerPass(eids, n) <= PartnerPass(eids, n + 1)
  {
    PassNext(eids, n);
  }

  lemma PrefixOf<T>(a: seq<T>, b: seq<T>, c: seq<T>)
    requires a <= b <= c
    ensures a <= c
  {
  }

  lemma {:induction false} UidPrefix(i: nat, eid: EID, m: nat)
    requires m <= |eid.uids|
    ensures CacheKeys.UidsOf(i, eid, m) <= CacheKeys.UidsOf(i, eid, |eid.uids|)
    decreases |eid.uids| - m
  {
    if m < |eid.uids| { UidPrefix(i, eid, m + 1); }
  }

  // The first identifier found is the first of the whole pass.
  lemma FoundFirst(eids: seq<EID>, n: nat, m: nat)
    requires n < |eids| && m < |eids[n].uids| && eids[n].source == CacheKeys.IIQ && NotBlank(eids[n].uids[m])
    requires PartnerPass(eids, n) == [] && CacheKeys.UidsOf(n, eids[n], m) == []
    ensures PartnerUID(eids) == eids[n].uids[m]
  {
    PassNext(eids, n);
    PassPrefix(eids, n + 1);
    UidPrefix(n, eids[n], m + 1);
  }

  method ResolveIIQUID(user: Option<User>) returns (id: Octets)
    ensures id == PartnerUID(EIDsOf(user))
  {
    if user.None? { return ""; }
    var eids := user.value.eids;
    for n := 0 to |eids|
      invariant PartnerPass(eids, n) == []
    {
      var eid := eids[n];
      PassNext(eids, n);
      if eid.source != CacheKeys.IIQ { continue; }
      for m := 0 to |eid.uids|
        invariant CacheKeys.UidsOf(n, eid, m) == []
      {
        if NotBlank(eid.uids[m]) {
          FoundFirst(eids, n, m);
          return eid.uids[m];
        }
      }
    }
    id := "";
  }

  function ResolveConsent(user: Option<User>): Octets {
    if user.None? then ""
    else if NotBlank(user.value.consent) then user.value.consent
    else if user.value.extension.None? || user.value.extension.value.None? then ""
    else user.value.extension.value.value
  }

  method BuildS2SRequest(tx: Text, endpoint: string, partner: Octets, auction: Option<BidRequest>)
    returns (url: string, consent: Octets)
    ensures url == RequestURL(tx, endpoint, partner, auction)
    ensures auction.None? || auction.value.user.None? ==> consent == ""
    ensures auction.Some? && auction.value.user.Some? ==>
      var u := auction.value.user.value;
      && (NotBlank(u.consent) ==> consent == u.consent)
      && (Blank(u.consent) && u.extension.Some? && u.extension.value.Some? ==> consent == u.extension.value.value)
      && (Blank(u.consent) && (u.extension.None? || u.extension.value.None?) ==> consent == "")
  {
    var b := Start(endpoint);
    b.AppendAll(tx, partner, auction);
    url := b.text;
    consent := if auction.None? then "" else ResolveConsent(auction.value.user);
  }

  method Start(endpoint: string) returns (b: Builder)
    ensures fresh(b) && b.Valid() && b.head == Head(endpoint) && b.params == []
  {
    var at := TextOf(AT) + "=39";
    assert at == Piece(First);
    b := new Builder(endpoint + (if '?' in endpoint then "&" else "?") + at);
  }
}
