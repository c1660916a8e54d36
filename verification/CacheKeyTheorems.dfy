/** What the extracted keys are: every identifier of the auction has one
    candidate, repetitions lose to the first, and a cap only cuts the tail. */
module CacheKeyTheorems {
  import opened Wrappers
  import opened Auction
  import opened Strings
  import opened CacheEntry
  import opened CacheKeys
  import CacheStability

  /* ---------- one candidate for each identifier ---------- */

  ghost predicate Counts(eids: seq<EID>, u: Uid) {
    && u.i < |eids| && u.source == eids[u.i].source != ""
    && u.j < |eids[u.i].uids| && u.id == eids[u.i].uids[u.j] && NotBlank(u.id)
  }

  predicate Before(u: Uid, v: Uid) { u.i < v.i || (u.i == v.i && u.j < v.j) }

  predicate Ordered(us: seq<Uid>) {
    forall a, b :: 0 <= a < b < |us| ==> Before(us[a], us[b])
  }

  lemma {:induction false} UidsOfExact(i: nat, eid: EID, m: nat)
    requires m <= |eid.uids|
    ensures Ordered(UidsOf(i, eid, m))
    ensures forall u :: u in UidsOf(i, eid, m) <==> u.i == i && u.j < m && u.source == eid.source && u.id == eid.uids[u.j] && NotBlank(u.id)
    decreases m
  {
    if m > 0 { UidsOfExact(i, eid, m - 1); }
  }

  lemma OrderedJoin(us: seq<Uid>, vs: seq<Uid>)
    requires Ordered(us) && Ordered(vs) && forall u, v :: u in us && v in vs ==> Before(u, v)
    ensures Ordered(us + vs)
  {
  }

  /** The identifiers that count are the non-blank ones of an EID with a source,
      each once and in the auction's order. */
  lemma {:induction false} UidsExact(eids: seq<EID>, n: nat)
    requires n <= |eids|
    ensures Ordered(Uids(eids, n))
    ensures forall u :: u in Uids(eids, n) <==> u.i < n && Counts(eids, u)
    decreases n
  {
    if n > 0 {
      UidsExact(eids, n - 1);
      var mine := UidsOf(n - 1, eids[n - 1], |eids[n - 1].uids|);
      UidsOfExact(n - 1, eids[n - 1], |eids[n - 1].uids|);
      if eids[n - 1].source != "" { OrderedJoin(Uids(eids, n - 1), mine); }
    }
  }

  lemma {:induction false} PickedStable(us: seq<Uid>, matches: Octets -> bool)
    requires Ordered(us)
    ensures Ordered(Picked(us, matches))
    ensures forall u :: u in Picked(us, matches) <==> u in us && matches(u.source)
    decreases |us|
  {
    if us != [] {
      var front, last := us[..|us| - 1], us[|us| - 1];
      FrontAndLast(us);
      PickedStable(front, matches);
      if matches(last.source) { OrderedJoin(Picked(front, matches), [last]); }
    }
  }

  lemma FrontAndLast(us: seq<Uid>)
    requires us != [] && Ordered(us)
    ensures var front, last := us[..|us| - 1], us[|us| - 1];
      && Ordered(front) && (forall u :: u in us <==> u in front || u == last)
      && forall u :: u in front ==> Before(u, last)
  {
    assert us == us[..|us| - 1] + [us[|us| - 1]];
  }

  // Each identifier is taken by one pass.
  lemma {:induction false} PassesShare(us: seq<Uid>, u: Uid)
    ensures multiset(Picked(us, InGroup(GroupOf(u.source))))[u] == multiset(us)[u]
    ensures forall g :: g != GroupOf(u.source) ==> multiset(Picked(us, InGroup(g)))[u] == 0
    decreases |us|
  {
    if us != [] {
      PassesShare(us[..|us| - 1], u);
      assert us == us[..|us| - 1] + [us[|us| - 1]];
    }
  }

  lemma OnceEach(us: seq<Uid>, u: Uid)
    requires Ordered(us)
    ensures multiset(us)[u] == if u in us then 1 else 0
  {
    if a :| 0 <= a < |us| && us[a] == u {
      assert us == us[..a] + [u] + us[a + 1..];
      assert u !in us[..a] && u !in us[a + 1..];
    }
  }

  /** The three passes over the EIDs give each identifier that counts exactly
      one candidate, and keep the auction's order within each pass. */
  lemma OneCandidateEach(eids: seq<EID>, u: Uid)
    ensures var p, s, o := InPass(eids, Partner), InPass(eids, Shared), InPass(eids, Other);
      && Ordered(p) && Ordered(s) && Ordered(o)
      && multiset(p + s + o)[u] == (if Counts(eids, u) then 1 else 0)
  {
    var us := Uids(eids, |eids|);
    UidsExact(eids, |eids|);
    PickedStable(us, InGroup(Partner));
    PickedStable(us, InGroup(Shared));
    PickedStable(us, InGroup(Other));
    PassesShare(us, u);
    OnceEach(us, u);
  }

  /* ---------- repetitions and the cap ---------- */

  predicate Increasing(at: seq<nat>) {
    forall a, b :: 0 <= a < b < |at| ==> at[a] < at[b]
  }

  ghost predicate FirstPositions(keys: seq<CacheKey>, n: nat, at: seq<nat>)
    requires n <= |keys|
  {
    && Increasing(at) && |at| == |Firsts(keys, n)|
    && (forall k :: 0 <= k < |at| ==> at[k] < n && IsFirst(keys, at[k]) && Firsts(keys, n)[k] == keys[at[k]])
    && (forall j: nat :: j < n && IsFirst(keys, j) ==> j in at)
  }

  /** What is kept is the first key of each value, in the order of the
      candidates: `at` are the positions kept. */
  lemma {:induction false} FirstsExact(keys: seq<CacheKey>, n: nat) returns (at: seq<nat>)
    requires n <= |keys|
    ensures FirstPositions(keys, n, at)
    decreases n
  {
    at := [];
    if n > 0 {
      at := FirstsExact(keys, n - 1);
      if IsFirst(keys, n - 1) { at := at + [n - 1]; }
    }
  }

  lemma {:induction false} FirstWith(keys: seq<CacheKey>, j: nat) returns (k: nat)
    requires j < |keys|
    ensures k <= j && IsFirst(keys, k) && keys[k].value == keys[j].value
    decreases j
  {
    k := j;
    if !IsFirst(keys, j) {
      var i :| 0 <= i < j && keys[i].value == keys[j].value;
      k := FirstWith(keys, i);
    }
  }

  /** The keys of one lookup differ in value, as lookup stability needs. */
  lemma KeysDiffer(tx: Text, request: Option<BidRequest>, cap: int)
    ensures CacheStability.Distinct(Extracted(tx, request, cap))
  {
    if request.Some? {
      var all := Candidates(tx, request.value);
      var at := FirstsExact(all, |all|);
      var kept := Firsts(all, |all|);
      forall a, b | 0 <= a < b < |kept| ensures kept[a].value != kept[b].value {
        assert IsFirst(all, at[b]) && at[a] < at[b];
      }
    }
  }

  /** A positive cap gives exactly a prefix of what no cap gives. */
  lemma CapIsPrefix(tx: Text, request: Option<BidRequest>, cap: int)
    ensures var all, cut := Extracted(tx, request, 0), Extracted(tx, request, cap);
      && cut <= all && |cut| == (if cap > 0 then Min(cap, |all|) else |all|)
  {
  }

  /** Without a cap every identifier that counts has a key with its value. */
  lemma NoUidLost(tx: Text, r: BidRequest, cap: int, u: Uid)
    requires cap <= 0 && Counts(EIDsOf(r.user), u)
    ensures exists k :: k in Extracted(tx, Some(r), cap) && k.value == KeyOf(tx, u).value
  {
    var all := Candidates(tx, r);
    var j := CandidateOf(tx, r, u);
    var k := FirstWith(all, j);
    var at := FirstsExact(all, |all|);
    assert k in at;
    assert all[k] in Firsts(all, |all|);
  }

  lemma CandidateOf(tx: Text, r: BidRequest, u: Uid) returns (j: nat)
    requires Counts(EIDsOf(r.user), u)
    ensures j < |Candidates(tx, r)| && Candidates(tx, r)[j] == KeyOf(tx, u)
  {
    var us := Uids(EIDsOf(r.user), |EIDsOf(r.user)|);
    UidsExact(EIDsOf(r.user), |EIDsOf(r.user)|);
    var g := GroupOf(u.source);
    PickedStable(us, InGroup(g));
    var pass := InPass(EIDsOf(r.user), g);
    var a :| 0 <= a < |pass| && pass[a] == u;
    assert KeysOf(tx, pass)[a] == KeyOf(tx, u);
    assert KeyOf(tx, u) in KeysOf(tx, pass);
    assert KeyOf(tx, u) in Candidates(tx, r);
    j :| 0 <= j < |Candidates(tx, r)| && Candidates(tx, r)[j] == KeyOf(tx, u);
  }

  /** Every key comes from the auction: an identifier that counts, or the device. */
  lemma KeysComeFromTheAuction(tx: Text, r: BidRequest, cap: int, k: CacheKey)
    requires k in Extracted(tx, Some(r), cap)
    ensures k in MaidKeys(tx, r.device) || k in DeviceKeys(tx, r.device) || exists u :: Counts(EIDsOf(r.user), u) && k == KeyOf(tx, u)
  {
    var all := Candidates(tx, r);
    var at := FirstsExact(all, |all|);
    assert k in Firsts(all, |all|);
    var b :| 0 <= b < |at| && Firsts(all, |all|)[b] == k;
    assert k in all;
    UidsExact(EIDsOf(r.user), |EIDsOf(r.user)|);
    forall g | k in KeysOf(tx, InPass(EIDsOf(r.user), g)) ensures exists u :: Counts(EIDsOf(r.user), u) && k == KeyOf(tx, u) {
      PickedStable(Uids(EIDsOf(r.user), |EIDsOf(r.user)|), InGroup(g));
      var pass := InPass(EIDsOf(r.user), g);
      var a :| 0 <= a < |pass| && KeysOf(tx, pass)[a] == k;
      assert pass[a] in pass;
    }
  }

  /** Keys of the partner come before all others, and the device's fingerprint
      after all others. */
  lemma Priority(tx: Text, r: BidRequest, cap: int, a: nat, b: nat)
    requires a < b < |Extracted(tx, Some(r), cap)|
    ensures Extracted(tx, Some(r), cap)[b].kind == ThirdParty ==> Extracted(tx, Some(r), cap)[a].kind == ThirdParty
    ensures Extracted(tx, Some(r), cap)[a].kind != DeviceKey
  {
    var all := Candidates(tx, r);
    var at := FirstsExact(all, |all|);
    UidsExact(EIDsOf(r.user), |EIDsOf(r.user)|);
    forall g { PickedStable(Uids(EIDsOf(r.user), |EIDsOf(r.user)|), InGroup(g)); }
    var n := |InPass(EIDsOf(r.user), Partner)|;
    forall k: nat | k < |all| ensures all[k].kind == (if k < n then ThirdParty else all[k].kind) && (k < |all| - 1 ==> all[k].kind != DeviceKey)
      && (k >= n ==> all[k].kind != ThirdParty) {
      CandidateKinds(tx, r, k);
    }
    assert at[a] < at[b];
  }

  lemma CandidateKinds(tx: Text, r: BidRequest, k: nat)
    requires k < |Candidates(tx, r)|
    ensures Candidates(tx, r)[k].kind == ThirdParty <==> k < |InPass(EIDsOf(r.user), Partner)|
    ensures Candidates(tx, r)[k].kind == DeviceKey ==> k == |Candidates(tx, r)| - 1
  {
    var us := Uids(EIDsOf(r.user), |EIDsOf(r.user)|);
    UidsExact(EIDsOf(r.user), |EIDsOf(r.user)|);
    forall g ensures forall u :: u in InPass(EIDsOf(r.user), g) ==> GroupOf(u.source) == g { PickedStable(us, InGroup(g)); }
    var p, s, o := InPass(EIDsOf(r.user), Partner), InPass(EIDsOf(r.user), Shared), InPass(EIDsOf(r.user), Other);
    var m := MaidKeys(tx, r.device);
    if k < |p| { assert p[k] in p; }
    else if k < |p| + |s| { assert s[k - |p|] in s; }
    else if k < |p| + |s| + |m| { }
    else if k < |p| + |s| + |m| + |o| { assert o[k - |p| - |s| - |m|] in o; }
  }

  /* ---------- namespaces ---------- */

  // `long` is `short`, a colon, and the start of what follows `short`'s own.
  predicate Shadows(short: string, long: string, shortId: string, longId: string) {
    |short| < |long| && short + ":" <= long && shortId == long[|short| + 1..] + ":" + longId
  }

  /** When two identifiers share a key value: the same namespace and identifier,
      or one namespace runs on, after a colon, into the other's identifier. */
  lemma SameValue(n: string, id: string, n': string, id': string)
    ensures n + ":" + id == n' + ":" + id' <==> (n == n' && id == id') || Shadows(n, n', id, id') || Shadows(n', n, id', id)
  {
    if n + ":" + id == n' + ":" + id' {
      if |n| == |n'| { Split(n, id, n', id'); }
      else if |n| < |n'| { Runs(n, id, n', id'); }
      else { Runs(n', id', n, id); }
    }
    if Shadows(n, n', id, id') { Joins(n, id, n', id'); }
    if Shadows(n', n, id', id) { Joins(n', id', n, id); }
  }

  lemma Split(n: string, id: string, n': string, id': string)
    requires n + ":" + id == n' + ":" + id' && |n| == |n'|
    ensures n == n' && id == id'
  {
    assert n == (n + ":" + id)[..|n|] == n';
    assert id == (n + ":" + id)[|n| + 1..] == id';
  }

  lemma Runs(n: string, id: string, n': string, id': string)
    requires n + ":" + id == n' + ":" + id' && |n| < |n'|
    ensures Shadows(n, n', id, id')
  {
    var all := n + ":" + id;
    assert n + ":" == all[..|n| + 1] == n'[..|n| + 1];
    assert id == all[|n| + 1..];
    assert n' == all[..|n'|];
    assert all == n' + (":" + id');
    assert all[|n| + 1..] == n'[|n| + 1..] + (":" + id');
  }

  lemma Joins(n: string, id: string, n': string, id': string)
    requires Shadows(n, n', id, id')
    ensures n + ":" + id == n' + ":" + id'
  {
    assert n' == n + ":" + n'[|n| + 1..];
  }

  lemma ShadowsColon(short: string, long: string, shortId: string, longId: string)
    ensures Shadows(short, long, shortId, longId) ==> ':' in long
  {
    if Shadows(short, long, shortId, longId) { assert long[|short|] == (short + ":")[|short|]; }
  }

  /** A source whose name reads as the partner's namespace takes the partner's
      keys: with an equal identifier, or when it runs on into it. */
  lemma PartnerCollision(tx: Text, u: Uid, v: Uid)
    requires u.source == IIQ && GroupOf(v.source) == Other
    ensures KeyOf(tx, u).value == KeyOf(tx, v).value <==>
      (tx.lower(v.source) == "iiq" && u.id == v.id) || Shadows("iiq", tx.lower(v.source), u.id, v.id)
  {
    SameValue("iiq", u.id, tx.lower(v.source), v.id);
    ShadowsColon(tx.lower(v.source), "iiq", v.id, u.id);
  }

  /** It does happen: an EID of the source "iiq" with the partner's identifier.
      Both identifiers count, and the one key they share is the partner's. */
  lemma CollidingAuction(tx: Text) returns (r: BidRequest, u: Uid, v: Uid)
    requires tx.lower("iiq") == "iiq"
    ensures u != v && Counts(EIDsOf(r.user), u) && Counts(EIDsOf(r.user), v)
    ensures KeyOf(tx, u) == CacheKey("iiq:x", ThirdParty) && KeyOf(tx, v) == CacheKey("iiq:x", FirstParty)
    ensures Extracted(tx, Some(r), 0) == [CacheKey("iiq:x", ThirdParty)]
  {
    var eids := [EID(IIQ, ["x"]), EID("iiq", ["x"])];
    r := BidRequest(Some(User(eids, "", None)), None, None, None, None);
    u, v := Uid(0, 0, IIQ, "x"), Uid(1, 0, "iiq", "x");
    assert "iiq" + ":" + "x" == "iiq:x";
    CollidingUids(eids);
    CollidingCandidates(tx, r, u, v);
    FirstOfTwo(KeyOf(tx, u), KeyOf(tx, v));
  }

  lemma CollidingCandidates(tx: Text, r: BidRequest, u: Uid, v: Uid)
    requires Uids(EIDsOf(r.user), |EIDsOf(r.user)|) == [u] + [v] && u.source == IIQ && GroupOf(v.source) == Other
    requires r.device.None?
    ensures Candidates(tx, r) == [KeyOf(tx, u), KeyOf(tx, v)]
  {
    TwoPicked(u, v, InGroup(Partner));
    TwoPicked(u, v, InGroup(Shared));
    TwoPicked(u, v, InGroup(Other));
  }

  lemma FirstOfTwo(a: CacheKey, b: CacheKey)
    requires a.value == b.value
    ensures Firsts([a, b], 2) == [a]
  {
    assert Firsts([a, b], 1) == [a];
    assert !IsFirst([a, b], 1);
  }

  lemma CollidingUids(eids: seq<EID>)
    requires eids == [EID(IIQ, ["x"]), EID("iiq", ["x"])]
    ensures Uids(eids, |eids|) == [Uid(0, 0, IIQ, "x")] + [Uid(1, 0, "iiq", "x")]
  {
    assert UidsOf(0, eids[0], 1) == [Uid(0, 0, IIQ, "x")];
    assert UidsOf(1, eids[1], 1) == [Uid(1, 0, "iiq", "x")];
    assert Uids(eids, 1) == [Uid(0, 0, IIQ, "x")];
  }

  lemma TwoPicked(u: Uid, v: Uid, matches: Octets -> bool)
    ensures Picked([u] + [v], matches) ==
      (if matches(u.source) then [u] else []) + (if matches(v.source) then [v] else [])
  {
    PickedSnoc([], u, matches);
    PickedSnoc([u], v, matches);
  }

  /** Namespaces without a colon keep identifiers apart. */
  lemma PlainNamespaces(n: string, id: string, n': string, id': string)
    requires ':' !in n && ':' !in n'
    ensures n + ":" + id == n' + ":" + id' <==> n == n' && id == id'
  {
    SameValue(n, id, n', id');
    ShadowsColon(n, n', id, id');
    ShadowsColon(n', n, id', id);
  }
}
