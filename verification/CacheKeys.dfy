/** The ordered cache keys of an auction: partner identifiers first, then shared
    ones, the device's advertising identifier, all other identifiers, and a
    device fingerprint; without repetition, up to a cap. */
module CacheKeys {
  import opened Wrappers
  import opened Auction
  import opened Strings
  import opened CacheEntry

  const IIQ := "intentiq.com"

  predicate SharedSource(source: string) { source == "pubcid.org" || source == "sharedid.org" }

  /* ---------- what should come out ---------- */

  // One identifier of the auction and where it stands.
  datatype Uid = Uid(i: nat, j: nat, source: Octets, id: Octets)

  datatype Group = Partner | Shared | Other

  function GroupOf(source: string): Group {
    if source == IIQ then Partner else if SharedSource(source) then Shared else Other
  }

  function NamespaceOf(tx: Text, source: Octets): string {
    match GroupOf(source)
    case Partner => "iiq"
    case Shared => "pubcid"
    case Other => tx.lower(source)
  }

  function KeyOf(tx: Text, u: Uid): CacheKey {
    CacheKey(NamespaceOf(tx, u.source) + ":" + u.id, if u.source == IIQ then ThirdParty else FirstParty)
  }

  // The identifiers that count, in the auction's order.
  function UidsOf(i: nat, eid: EID, m: nat): seq<Uid>
    requires m <= |eid.uids|
  {
    if m == 0 then []
    else
      var rest := UidsOf(i, eid, m - 1);
      if NotBlank(eid.uids[m - 1]) then rest + [Uid(i, m - 1, eid.source, eid.uids[m - 1])] else rest
  }

  function Uids(eids: seq<EID>, n: nat): seq<Uid>
    requires n <= |eids|
  {
    if n == 0 then []
    else
      var rest := Uids(eids, n - 1);
      if eids[n - 1].source == "" then rest else rest + UidsOf(n - 1, eids[n - 1], |eids[n - 1].uids|)
  }

  function Picked(us: seq<Uid>, matches: Octets -> bool): seq<Uid> {
    if us == [] then []
    else
      var rest := Picked(us[..|us| - 1], matches);
      if matches(us[|us| - 1].source) then rest + [us[|us| - 1]] else rest
  }

  function KeysOf(tx: Text, us: seq<Uid>): seq<CacheKey> { seq(|us|, k requires 0 <= k < |us| => KeyOf(tx, us[k])) }

  // The same under one namespace and type for all of them.
  function KeyedBy(us: seq<Uid>, namespace: string, kind: KeyType): seq<CacheKey> {
    seq(|us|, k requires 0 <= k < |us| => CacheKey(namespace + ":" + us[k].id, kind))
  }

  function InGroup(g: Group): Octets -> bool { source => GroupOf(source) == g }

  function MaidKeys(tx: Text, device: Option<Device>): seq<CacheKey> {
    if device.None? || !NotBlank(device.value.ifa) || device.value.limited then []
    else
      var d := device.value;
      [CacheKey("maid:" + if IsTV(d) then tx.upper(d.ifa) else d.ifa, FirstParty)]
  }

  function Fingerprint(tx: Text, d: Device): seq<string> {
    NonBlank([d.ifa, tx.userAgent(d.ua), if NotBlank(d.ip) then d.ip else d.ipv6], 3)
  }

  function NonBlank(fields: seq<string>, n: nat): seq<string>
    requires n <= |fields|
  {
    if n == 0 then []
    else
      var rest := NonBlank(fields, n - 1);
      if NotBlank(fields[n - 1]) then rest + [fields[n - 1]] else rest
  }

  function DeviceKeys(tx: Text, device: Option<Device>): seq<CacheKey> {
    if device.None? || Fingerprint(tx, device.value) == [] then []
    else [CacheKey("dev:" + Join(Fingerprint(tx, device.value), "_"), DeviceKey)]
  }

  function InPass(eids: seq<EID>, g: Group): seq<Uid> { Picked(Uids(eids, |eids|), InGroup(g)) }

  function Candidates(tx: Text, r: BidRequest): seq<CacheKey> {
    KeysOf(tx, InPass(EIDsOf(r.user), Partner)) + KeysOf(tx, InPass(EIDsOf(r.user), Shared)) + MaidKeys(tx, r.device)
    + KeysOf(tx, InPass(EIDsOf(r.user), Other)) + DeviceKeys(tx, r.device)
  }

  // `k` is the first key with its value.
  predicate IsFirst(keys: seq<CacheKey>, k: nat)
    requires k < |keys|
  {
    forall j :: 0 <= j < k ==> keys[j].value != keys[k].value
  }

  function Firsts(keys: seq<CacheKey>, n: nat): seq<CacheKey>
    requires n <= |keys|
  {
    if n == 0 then []
    else
      var rest := Firsts(keys, n - 1);
      if IsFirst(keys, n - 1) then rest + [keys[n - 1]] else rest
  }

  function UpTo(keys: seq<CacheKey>, cap: int): seq<CacheKey> {
    if cap > 0 && cap < |keys| then keys[..cap] else keys
  }

  function Extracted(tx: Text, request: Option<BidRequest>, cap: int): seq<CacheKey> {
    if request.None? then []
    else
      var all := Candidates(tx, request.value);
      UpTo(Firsts(all, |all|), cap)
  }

  /* ---------- extraction, step by step ---------- */

  lemma PickedSnoc(us: seq<Uid>, u: Uid, matches: Octets -> bool)
    ensures Picked(us + [u], matches) == if matches(u.source) then Picked(us, matches) + [u] else Picked(us, matches)
  {
    var all := us + [u];
    assert all[..|all| - 1] == us && all[|all| - 1] == u;
  }

  lemma {:induction false} PickedAppend(us: seq<Uid>, vs: seq<Uid>, matches: Octets -> bool)
    ensures Picked(us + vs, matches) == Picked(us, matches) + Picked(vs, matches)
    decreases |vs|
  {
    if vs == [] {
      assert us + vs == us;
    } else {
      var front, last := vs[..|vs| - 1], vs[|vs| - 1];
      PickedAppend(us, front, matches);
      PickedSnoc(us + front, last, matches);
      PickedSnoc(front, last, matches);
      assert front + [last] == vs;
      assert us + front + [last] == us + vs;
    }
  }

  // The identifiers of one EID share its source.
  lemma {:induction false} PickedOne(i: nat, eid: EID, m: nat, matches: Octets -> bool)
    requires m <= |eid.uids|
    ensures Picked(UidsOf(i, eid, m), matches) == if matches(eid.source) then UidsOf(i, eid, m) else []
    decreases m
  {
    if m > 0 {
      PickedOne(i, eid, m - 1, matches);
      var last := eid.uids[m - 1];
      if NotBlank(last) { PickedSnoc(UidsOf(i, eid, m - 1), Uid(i, m - 1, eid.source, last), matches); }
    }
  }

  lemma KeysAppend(tx: Text, us: seq<Uid>, vs: seq<Uid>)
    ensures KeysOf(tx, us + vs) == KeysOf(tx, us) + KeysOf(tx, vs)
  {
  }

  lemma KeyedAppend(us: seq<Uid>, vs: seq<Uid>, namespace: string, kind: KeyType)
    ensures KeyedBy(us + vs, namespace, kind) == KeyedBy(us, namespace, kind) + KeyedBy(vs, namespace, kind)
  {
  }

  // The two ways of naming agree on identifiers of one namespace and type.
  lemma KeyedAlike(tx: Text, us: seq<Uid>, namespace: string, kind: KeyType)
    requires forall u :: u in us ==> KeyOf(tx, u) == CacheKey(namespace + ":" + u.id, kind)
    ensures KeysOf(tx, us) == KeyedBy(us, namespace, kind)
  {
    forall k | 0 <= k < |us| ensures KeysOf(tx, us)[k] == KeyedBy(us, namespace, kind)[k] { assert us[k] in us; }
  }

  lemma {:induction false} PickedIn(us: seq<Uid>, matches: Octets -> bool)
    ensures forall u :: u in Picked(us, matches) ==> matches(u.source)
    decreases |us|
  {
    if us != [] { PickedIn(us[..|us| - 1], matches); }
  }

  lemma {:induction false} SourceOfUids(i: nat, eid: EID, m: nat)
    requires m <= |eid.uids|
    ensures forall u :: u in UidsOf(i, eid, m) ==> u.source == eid.source
    decreases m
  {
    if m > 0 { SourceOfUids(i, eid, m - 1); }
  }

  lemma PassSkips(eids: seq<EID>, n: nat, matches: Octets -> bool)
    requires n < |eids| && (eids[n].source == "" || !matches(eids[n].source))
    ensures Picked(Uids(eids, n + 1), matches) == Picked(Uids(eids, n), matches)
  {
    if eids[n].source != "" {
      PickedAppend(Uids(eids, n), UidsOf(n, eids[n], |eids[n].uids|), matches);
      PickedOne(n, eids[n], |eids[n].uids|, matches);
    }
  }

  lemma PassTakes(eids: seq<EID>, n: nat, matches: Octets -> bool)
    requires n < |eids| && eids[n].source != "" && matches(eids[n].source)
    ensures Picked(Uids(eids, n + 1), matches) == Picked(Uids(eids, n), matches) + UidsOf(n, eids[n], |eids[n].uids|)
  {
    PickedAppend(Uids(eids, n), UidsOf(n, eids[n], |eids[n].uids|), matches);
    PickedOne(n, eids[n], |eids[n].uids|, matches);
  }

  lemma Assoc<T>(a: seq<T>, b: seq<T>, c: seq<T>)
    ensures (a + b) + c == a + (b + c)
  {
  }

  // The inner loop of both EID passes.
  method AppendUIDKeys(keys: seq<CacheKey>, ghost n: nat, eid: EID, namespace: string, kind: KeyType)
    returns (out: seq<CacheKey>)
    ensures out == keys + KeyedBy(UidsOf(n, eid, |eid.uids|), namespace, kind)
  {
    out := keys;
    for m := 0 to |eid.uids|
      invariant out == keys + KeyedBy(UidsOf(n, eid, m), namespace, kind)
    {
      if !NotBlank(eid.uids[m]) { continue; }
      KeyedAppend(UidsOf(n, eid, m), [Uid(n, m, eid.source, eid.uids[m])], namespace, kind);
      out := out + [CacheKey(namespace + ":" + eid.uids[m], kind)];
    }
  }

  // What one EID adds to a pass.
  lemma MatchGrows(keys: seq<CacheKey>, eids: seq<EID>, n: nat, namespace: string, kind: KeyType, matches: Octets -> bool)
    requires n < |eids| && eids[n].source != "" && matches(eids[n].source)
    ensures keys + KeyedBy(Picked(Uids(eids, n + 1), matches), namespace, kind) ==
      keys + KeyedBy(Picked(Uids(eids, n), matches), namespace, kind)
      + KeyedBy(UidsOf(n, eids[n], |eids[n].uids|), namespace, kind)
  {
    var before, mine := Picked(Uids(eids, n), matches), UidsOf(n, eids[n], |eids[n].uids|);
    PassTakes(eids, n, matches);
    KeyedAppend(before, mine, namespace, kind);
    Assoc(keys, KeyedBy(before, namespace, kind), KeyedBy(mine, namespace, kind));
  }

  method AppendMatchingEIDKeys(keys: seq<CacheKey>, eids: seq<EID>, namespace: string, kind: KeyType,
    matches: Octets -> bool)
      returns (out: seq<CacheKey>)
    ensures out == keys + KeyedBy(Picked(Uids(eids, |eids|), matches), namespace, kind)
  {
    out := keys;
    for n := 0 to |eids|
      invariant out == keys + KeyedBy(Picked(Uids(eids, n), matches), namespace, kind)
    {
      var eid := eids[n];
      if eid.source == "" || !matches(eid.source) {
        PassSkips(eids, n, matches);
        continue;
      }
      MatchGrows(keys, eids, n, namespace, kind, matches);
      out := AppendUIDKeys(out, n, eid, namespace, kind);
    }
  }

  method AppendMAIDKey(tx: Text, keys: seq<CacheKey>, device: Option<Device>) returns (out: seq<CacheKey>)
    ensures out == keys + MaidKeys(tx, device)
    ensures out == keys +
      if device.None? || Blank(device.value.ifa) || device.value.limited then []
      else if device.value.deviceType == 3 || device.value.deviceType == 7 then
        [CacheKey("maid:" + tx.upper(device.value.ifa), FirstParty)]
      else [CacheKey("maid:" + device.value.ifa, FirstParty)]
  {
    if device.None? || !NotBlank(device.value.ifa) || device.value.limited { return keys; }
    var ifa := device.value.ifa;
    if IsTV(device.value) { ifa := tx.upper(ifa); }
    return keys + [CacheKey("maid:" + ifa, FirstParty)];
  }

  // What one EID adds to the last pass.
  lemma OtherGrows(tx: Text, eids: seq<EID>, n: nat)
    requires n < |eids| && eids[n].source != "" && GroupOf(eids[n].source) == Other
    ensures KeysOf(tx, Picked(Uids(eids, n + 1), InGroup(Other))) ==
      KeysOf(tx, Picked(Uids(eids, n), InGroup(Other))) +
      KeyedBy(UidsOf(n, eids[n], |eids[n].uids|), tx.lower(eids[n].source), FirstParty)
  {
    var mine := UidsOf(n, eids[n], |eids[n].uids|);
    PassTakes(eids, n, InGroup(Other));
    KeysAppend(tx, Picked(Uids(eids, n), InGroup(Other)), mine);
    SourceOfUids(n, eids[n], |eids[n].uids|);
    KeyedAlike(tx, mine, tx.lower(eids[n].source), FirstParty);
  }

  method AppendOtherEIDKeys(tx: Text, keys: seq<CacheKey>, eids: seq<EID>) returns (out: seq<CacheKey>)
    ensures out == keys + KeysOf(tx, InPass(eids, Other))
  {
    out := keys;
    for n := 0 to |eids|
      invariant out == keys + KeysOf(tx, Picked(Uids(eids, n), InGroup(Other)))
    {
      var eid := eids[n];
      if eid.source == "" || eid.source == IIQ {
        PassSkips(eids, n, InGroup(Other));
        continue;
      }
      if SharedSource(eid.source) {
        PassSkips(eids, n, InGroup(Other));
        continue;
      }
      OtherGrows(tx, eids, n);
      Assoc(keys, KeysOf(tx, Picked(Uids(eids, n), InGroup(Other))),
        KeyedBy(UidsOf(n, eid, |eid.uids|), tx.lower(eid.source), FirstParty));
      out := AppendUIDKeys(out, n, eid, tx.lower(eid.source), FirstParty);
    }
  }

  method AppendDeviceKey(tx: Text, keys: seq<CacheKey>, device: Option<Device>) returns (out: seq<CacheKey>)
    ensures out == keys + DeviceKeys(tx, device)
  {
    if device.None? { return keys; }
    var d := device.value;
    var ip := d.ip;
    if !NotBlank(ip) { ip := d.ipv6; }
    var all, fields := [d.ifa, tx.userAgent(d.ua), ip], [];
    for n := 0 to |all|
      invariant fields == NonBlank(all, n)
    {
      if NotBlank(all[n]) { fields := fields + [all[n]]; }
    }
    if |fields| == 0 { return keys; }
    return keys + [CacheKey("dev:" + Join(fields, "_"), DeviceKey)];
  }

  lemma {:induction false} FirstsGrow(keys: seq<CacheKey>, n: nat, m: nat)
    requires n <= m <= |keys|
    ensures Firsts(keys, n) <= Firsts(keys, m)
    decreases m
  {
    if n < m { FirstsGrow(keys, n, m - 1); }
  }

  method DeduplicateAndCapKeys(keys: seq<CacheKey>, maxKeys: int) returns (result: seq<CacheKey>)
    ensures result == UpTo(Firsts(keys, |keys|), maxKeys)
  {
    if |keys| == 0 { return []; }
    var seen: set<string> := {};
    result := [];
    for n := 0 to |keys|
      invariant result == Firsts(keys, n) && (maxKeys > 0 ==> |result| < maxKeys)
      invariant seen == set j | 0 <= j < n :: keys[j].value
    {
      var key := keys[n];
      assert IsFirst(keys, n) <==> key.value !in seen;
      if key.value in seen { continue; }
      seen := seen + {key.value};
      result := result + [key];
      if maxKeys > 0 && |result| >= maxKeys {
        FirstsGrow(keys, n + 1, |keys|);
        return;
      }
    }
  }

  lemma {:induction false} PickedSame(us: seq<Uid>, p: Octets -> bool, q: Octets -> bool)
    requires forall s :: p(s) == q(s)
    ensures Picked(us, p) == Picked(us, q)
    decreases |us|
  {
    if us != [] { PickedSame(us[..|us| - 1], p, q); }
  }

  // The first two passes give the partner's and the shared identifiers their keys.
  lemma FirstPasses(tx: Text, eids: seq<EID>, partner: Octets -> bool, shared: Octets -> bool)
    requires forall s: Octets :: partner(s) == (s == IIQ) && shared(s) == SharedSource(s)
    ensures KeyedBy(Picked(Uids(eids, |eids|), partner), "iiq", ThirdParty) == KeysOf(tx, InPass(eids, Partner))
    ensures KeyedBy(Picked(Uids(eids, |eids|), shared), "pubcid", FirstParty) == KeysOf(tx, InPass(eids, Shared))
  {
    var us := Uids(eids, |eids|);
    PickedSame(us, partner, InGroup(Partner));
    PickedSame(us, shared, InGroup(Shared));
    PickedIn(us, InGroup(Partner));
    PickedIn(us, InGroup(Shared));
    KeyedAlike(tx, InPass(eids, Partner), "iiq", ThirdParty);
    KeyedAlike(tx, InPass(eids, Shared), "pubcid", FirstParty);
  }

  /** The passes and the cap compute the extraction. */
  method ExtractCacheKeys(tx: Text, request: Option<BidRequest>, maxKeys: int) returns (result: seq<CacheKey>)
    ensures result == Extracted(tx, request, maxKeys)
  {
    if request.None? { return []; }
    var eids := EIDsOf(request.value.user);
    var isPartner: Octets -> bool := source => source == IIQ;
    var isShared: Octets -> bool := source => SharedSource(source);
    FirstPasses(tx, eids, isPartner, isShared);
    var keys := AppendMatchingEIDKeys([], eids, "iiq", ThirdParty, isPartner);
    assert keys == KeysOf(tx, InPass(eids, Partner));
    keys := AppendMatchingEIDKeys(keys, eids, "pubcid", FirstParty, isShared);
    keys := AppendMAIDKey(tx, keys, request.value.device);
    keys := AppendOtherEIDKeys(tx, keys, eids);
    keys := AppendDeviceKey(tx, keys, request.value.device);
    assert keys == Candidates(tx, request.value);
    result := DeduplicateAndCapKeys(keys, maxKeys);
  }
}
