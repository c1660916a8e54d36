/** What holds of every cache that Enrich calls and background goroutines share,
    in every interleaving. */
module CacheThreadTheorems {
  import opened Wrappers
  import opened Auction
  import opened CacheEntry
  import opened Resolving
  import opened CacheThreads
  import opened CacheThreadProofs

  ghost predicate Reachable(cfg: Config, s: State) {
    exists run :: Legal(cfg, Init, run) && Run(cfg, Init, run) == s
  }

  lemma ReachableInv(cfg: Config, s: State)
    requires WholePolicy(cfg.policy) && Reachable(cfg, s)
    ensures Inv(cfg, s)
  {
    var run :| Legal(cfg, Init, run) && Run(cfg, Init, run) == s;
    RunInv(cfg, Init, run);
  }

  /* ---------- provenance ---------- */

  /** The entry under a key says exactly what the API answered to an earlier call,
      which succeeded with a body that was not empty; so does what a lookup makes
      of it. That call's key list is linked to the key by lookups; and the entry
      ends no later than the one then stored, whose lifetime is the answer's own,
      but for what the clock advanced inside the backfills on the way. */
  ghost predicate Descends(cfg: Config, s: State, key: string, e: Entry, tag: Tag) {
    var w := tag.origin;
    && w.j < |w.keys| && w.at <= s.now
    && (exists api :: (w.keys, api) in s.h.resolves && Tells(e, api)
          && (forall kind, layer :: Repeats(FromEntry(e, kind, layer), api))
          && ExpiresAt(cfg.policy, w.keys[w.j].kind, api, w.at, w.entry.expiresAt))
    && Linked(s.h, w.keys, tag.via, key)
    && e.expiresAt <= w.entry.expiresAt + tag.slack
    && (cfg.steady ==> tag.slack == 0)
  }

  lemma EntryDescends(cfg: Config, s: State, key: string, e: Entry, tag: Tag)
    requires HistoryOk(cfg, s) && EntryOk(cfg, s, key, e, tag)
    ensures Descends(cfg, s, key, e, tag)
  {
    var w := tag.origin;
    assert PutOk(cfg, s, w);
    var api :| (w.keys, api) in s.h.resolves && w.x == Classify(api);
    ClassifyReads(api);
    StoredTells(cfg.policy, w.keys[w.j].kind, api, w.at);
    forall kind, layer ensures Repeats(FromEntry(e, kind, layer), api) { TellsRepeats(e, api, kind, layer); }
  }

  /** Whatever a lookup serves was answered by an earlier successful call whose
      keys are linked to the request's. */
  lemma ServedIsAnEarlierAnswer(cfg: Config, s: State, t: Id)
    requires WholePolicy(cfg.policy) && Reachable(cfg, s)
    requires t in s.threads && s.threads[t].Served?
    ensures var pc := s.threads[t];
      pc.keys in s.h.lookups && pc.i < |pc.keys| && Descends(cfg, s, pc.keys[pc.i].value, pc.hit, pc.tag)
  {
    ReachableInv(cfg, s);
    var pc := s.threads[t];
    assert ThreadOk(cfg, s, pc);
    EntryDescends(cfg, s, pc.keys[pc.i].value, pc.hit, pc.tag);
  }

  /** So does every entry in either layer that is not a marker. */
  lemma StoredIsAnEarlierAnswer(cfg: Config, s: State, key: string, slot: Slot)
    requires WholePolicy(cfg.policy) && Reachable(cfg, s)
    requires (key in s.l1 && slot == s.l1[key]) || (key in s.l2 && slot == s.l2[key] && !slot.entry.inProgress)
    ensures slot.tag.Some? && Descends(cfg, s, key, slot.entry, slot.tag.value)
  {
    ReachableInv(cfg, s);
    assert SlotOk(cfg, s, key, slot);
    EntryDescends(cfg, s, key, slot.entry, slot.tag.value);
  }

  /** And a call that is answered by its own call to the API is told what that
      answered. */
  lemma OwnAnswer(cfg: Config, s: State, t: Id)
    requires WholePolicy(cfg.policy) && Reachable(cfg, s) && t in s.threads && s.threads[t].Done?
    ensures exists api :: (s.threads[t].keys, api) in s.h.resolves && Reads(s.threads[t].x, api)
  {
    ReachableInv(cfg, s);
    assert ThreadOk(cfg, s, s.threads[t]);
    var api :| (s.threads[t].keys, api) in s.h.resolves && s.threads[t].x == Classify(api);
    ClassifyReads(api);
  }

  /** Calls that failed or had an empty body leave nothing but markers: no hit
      and no negative answer can come from them. */
  lemma FailuresAreNotCached(cfg: Config, s: State)
    requires WholePolicy(cfg.policy) && Reachable(cfg, s)
    requires forall keys, api :: (keys, api) in s.h.resolves ==> api.Failure? || api.empty
    ensures s.l1 == map[] && (forall k :: k in s.l2 ==> s.l2[k].entry.inProgress)
    ensures forall t :: t in s.threads ==> !s.threads[t].Served?
  {
    forall k | k in s.l1 ensures false { StoredIsAnEarlierAnswer(cfg, s, k, s.l1[k]); }
    forall k | k in s.l2 ensures s.l2[k].entry.inProgress {
      if !s.l2[k].entry.inProgress { StoredIsAnEarlierAnswer(cfg, s, k, s.l2[k]); }
    }
    forall t | t in s.threads ensures !s.threads[t].Served? {
      if s.threads[t].Served? { ServedIsAnEarlierAnswer(cfg, s, t); }
    }
  }

  /* ---------- lifetimes ---------- */

  /** With each key always used under one type, a positive entry lasts no
      longer than the ceiling of its key's type, and a negative one no longer
      than the longer of the negative lifetime and the first-party ceiling. */
  lemma CeilingBound(cfg: Config, s: State, key: string, slot: Slot)
    requires WholePolicy(cfg.policy) && Reachable(cfg, s) && cfg.typed
    requires (key in s.l1 && slot == s.l1[key]) || (key in s.l2 && slot == s.l2[key])
    ensures slot.entry.inProgress || slot.entry.expiresAt <= Millis(s.now) + LongestLife(cfg, key, slot.entry.negative)
  {
    ReachableInv(cfg, s);
    assert SlotOk(cfg, s, key, slot);
  }

  function LongestLife(cfg: Config, key: string, negative: bool): int {
    if negative then Max(DurationMillis(cfg.policy.negativeTTL), DurationMillis(cfg.policy.firstParty))
    else DurationMillis(CeilingFor(cfg.policy, cfg.kindOf(key)))
  }

  /** Neither layer's timer can fire before the entry expires, and L1 holds no
      in-progress marker. */
  lemma TimersCover(cfg: Config, s: State)
    requires WholePolicy(cfg.policy) && Reachable(cfg, s)
    ensures forall k :: k in s.l1 ==> s.l1[k].entry.expiresAt * MILLISECOND <= s.l1[k].until && !s.l1[k].entry.inProgress
    ensures forall k :: k in s.l2 ==> s.l2[k].entry.expiresAt * MILLISECOND <= s.l2[k].until
  {
    ReachableInv(cfg, s);
    forall k | k in s.l1 ensures Covered(s.l1[k]) { assert SlotOk(cfg, s, k, s.l1[k]); }
    forall k | k in s.l2 ensures Covered(s.l2[k]) { assert SlotOk(cfg, s, k, s.l2[k]); }
  }

  /** An alias stamped `now`, with a remaining lifetime read at `read`, ends
      after the hit it copies exactly when the clock has moved since and the
      ceiling leaves room for it. */
  lemma AliasOutlives(hit: Entry, read: nat, now: nat, ceiling: int)
    requires read <= Millis(now)
    ensures Alias(hit, Min(hit.expiresAt - read, ceiling), now).expiresAt > hit.expiresAt
       <==> read < Millis(now) && ceiling > hit.expiresAt - Millis(now)
  {
  }

  /* ---------- runs that show what does not hold ---------- */

  lemma {:induction false} RunAppend(cfg: Config, s: State, run: seq<Step>, a: Step)
    requires Legal(cfg, s, run) && Enabled(cfg, Run(cfg, s, run), a)
    ensures Legal(cfg, s, run + [a]) && Run(cfg, s, run + [a]) == Apply(cfg, Run(cfg, s, run), a)
    decreases |run|
  {
    var all := run + [a];
    assert all[0] == if run == [] then a else run[0];
    if run == [] {
      assert all[1..] == [];
    } else {
      assert all[1..] == run[1..] + [a];
      RunAppend(cfg, Apply(cfg, s, run[0]), run[1..], a);
    }
  }

  lemma Extend(cfg: Config, s: State, a: Step)
    requires Reachable(cfg, s) && Enabled(cfg, s, a)
    ensures Reachable(cfg, Apply(cfg, s, a))
  {
    var run :| Legal(cfg, Init, run) && Run(cfg, Init, run) == s;
    RunAppend(cfg, Init, run, a);
  }

  // No access fails, nothing is dropped, and the clock stands still.
  predicate CalmStep(a: Step) { a.Begin? || (a.Move? && !a.c.fails) }

  predicate Calm(run: seq<Step>) { forall i :: 0 <= i < |run| ==> CalmStep(run[i]) }

  ghost predicate Calmly(cfg: Config, s: State) {
    exists run :: Legal(cfg, Init, run) && Run(cfg, Init, run) == s && Calm(run)
  }

  lemma CalmlyReachable(cfg: Config, s: State)
    requires Calmly(cfg, s)
    ensures Reachable(cfg, s)
  {
    var run :| Legal(cfg, Init, run) && Run(cfg, Init, run) == s && Calm(run);
  }

  lemma CalmExtend(cfg: Config, s: State, a: Step)
    requires Calmly(cfg, s) && Enabled(cfg, s, a) && CalmStep(a)
    ensures Calmly(cfg, Apply(cfg, s, a))
  {
    var run :| Legal(cfg, Init, run) && Run(cfg, Init, run) == s && Calm(run);
    RunAppend(cfg, Init, run, a);
    assert Calm(run + [a]);
  }

  // Thread `t` reads the clock or a layer and moves on to `pc`.
  lemma Pass(cfg: Config, s: State, t: Id, c: Choice, pc: Pc) returns (s': State)
    requires Calmly(cfg, s) && Enabled(cfg, s, Move(t, c)) && !c.fails
    requires Apply(cfg, s, Move(t, c)) == Goto(s, t, pc)
    ensures Calmly(cfg, s') && s' == Goto(s, t, pc)
  {
    CalmExtend(cfg, s, Move(t, c));
    s' := Goto(s, t, pc);
  }

  const TenSeconds := Policy(10 * SECOND, 10 * SECOND, 10 * SECOND, 10 * SECOND, 10 * SECOND)
  const A := CacheKey("a", ThirdParty)
  const B := CacheKey("b", ThirdParty)
  const Fine := Choice(false, Failure)
  const Five := Classify(Body(false, [EID("s", ["u"])], "", None, Some(5000)))

  ghost predicate Waiting(cfg: Config, s: State) {
    && Calmly(cfg, s) && s.now == 0 && s.l2 == map["a" := Slot(Marker(1, 0), 1, None)] && 2 !in s.threads
    && s.l1.Keys == {"a"} && s.l1["a"].tag.Some? && s.l1["a"].entry == Resolved(Five.r, 5 * SECOND, 0)
  }

  lemma Begins(cfg: Config, s: State, t: Id, keys: Keys) returns (s': State)
    requires Calmly(cfg, s) && !cfg.typed && keys != [] && t !in s.threads
    ensures Calmly(cfg, s') && s'.l1 == s.l1 && s'.l2 == s.l2 && s'.now == s.now
    ensures s'.threads == s.threads[t := Looking(keys, 1, L1Read(0))]
  {
    CalmExtend(cfg, s, Begin(t, keys, 1));
    s' := Apply(cfg, s, Begin(t, keys, 1));
  }

  // A call does not find "a" in L1.
  lemma MissesLocally(cfg: Config, s: State, t: Id) returns (s': State)
    requires Calmly(cfg, s) && !cfg.typed && s.l1 == map[] && t !in s.threads
    ensures Calmly(cfg, s') && s'.l1 == s.l1 && s'.l2 == s.l2 && s'.now == s.now
    ensures s'.threads == s.threads[t := Looking([A], 1, L2Read(0, None))]
  {
    s' := Begins(cfg, s, t, [A]);
    s' := PassesLocal(cfg, s', t);
  }

  lemma PassesLocal(cfg: Config, s: State, t: Id) returns (s': State)
    requires Calmly(cfg, s) && s.l1 == map[] && t in s.threads && s.threads[t] == Looking([A], 1, L1Read(0))
    ensures Calmly(cfg, s') && s'.l1 == s.l1 && s'.l2 == s.l2 && s'.now == s.now
    ensures s'.threads == s.threads[t := Looking([A], 1, L2Read(0, None))]
  {
    s' := Pass(cfg, s, t, Fine, Looking([A], 1, L1Read(1)));
    s' := Pass(cfg, s', t, Fine, Looking([A], 1, L2Read(0, None)));
  }

  lemma Misses(cfg: Config, s: State, t: Id) returns (s': State)
    requires Calmly(cfg, s) && !cfg.typed && s.l1 == map[] && s.l2 == map[] && t !in s.threads
    ensures Calmly(cfg, s') && s'.l1 == map[] && s'.l2 == map[] && s'.now == s.now
    ensures s'.threads == s.threads[t := Saving([A], 1, MarkRead(0))]
  {
    s' := MissesLocally(cfg, s, t);
    s' := Pass(cfg, s', t, Fine, Looking([A], 1, L2Read(1, None)));
    s' := Pass(cfg, s', t, Fine, Saving([A], 1, MarkRead(0)));
  }

  lemma StampsMarker(cfg: Config, s: State, t: Id) returns (s': State)
    requires Calmly(cfg, s) && t in s.threads && s.threads[t] == Saving([A], 1, MarkRead(0))
    ensures Calmly(cfg, s') && s'.l1 == s.l1 && s'.l2 == s.l2 && s'.now == s.now
    ensures s'.threads == s.threads[t := Saving([A], 1, MarkPut(0, Marker(1, s.now)))]
  {
    s' := Pass(cfg, s, t, Fine, Saving([A], 1, MarkPut(0, Marker(1, s.now))));
  }

  lemma MarksStore(cfg: Config, s: State, t: Id) returns (s': State)
    requires Calmly(cfg, s) && t in s.threads && s.threads[t] == Saving([A], 1, MarkPut(0, Marker(1, s.now)))
    ensures Calmly(cfg, s') && s'.l1 == s.l1 && s'.l2 == s.l2["a" := Slot(Marker(1, s.now), s.now + 1, None)]
      && s'.now == s.now
    ensures s'.threads == s.threads[t := Saving([A], 1, MarkRead(1))]
  {
    CalmExtend(cfg, s, Move(t, Fine));
    s' := Apply(cfg, s, Move(t, Fine));
  }

  // After the miss it marks "a" and is about to call the API.
  lemma Marks(cfg: Config, s: State, t: Id) returns (s': State)
    requires Calmly(cfg, s) && t in s.threads && s.threads[t] == Saving([A], 1, MarkRead(0))
    ensures Calmly(cfg, s') && s'.l1 == s.l1 && s'.l2 == s.l2["a" := Slot(Marker(1, s.now), s.now + 1, None)]
      && s'.now == s.now
    ensures s'.threads == s.threads[t := Saving([A], 1, Calling)]
  {
    s' := StampsMarker(cfg, s, t);
    s' := MarksStore(cfg, s', t);
    s' := Pass(cfg, s', t, Fine, Saving([A], 1, Calling));
  }

  lemma InitCalm(cfg: Config)
    ensures Calmly(cfg, Init)
  {
    assert Legal(cfg, Init, []) && Run(cfg, Init, []) == Init;
  }

  lemma BothMiss(cfg: Config) returns (s: State)
    requires !cfg.typed
    ensures Calmly(cfg, s) && s.now == 0 && s.l1 == map[] && s.l2 == map[]
    ensures s.threads == map[1 := Saving([A], 1, MarkRead(0)), 2 := Saving([A], 1, MarkRead(0))]
  {
    InitCalm(cfg);
    s := Misses(cfg, Init, 1);
    s := Misses(cfg, s, 2);
  }

  /** A lookup and the markers after it are not one step: two calls for the
      same key can both miss, mark it and call the API. */
  lemma BothCall(cfg: Config) returns (s: State)
    requires !cfg.typed
    ensures Calmly(cfg, s)
    ensures s.threads == map[1 := Saving([A], 1, Calling), 2 := Saving([A], 1, Calling)] && s.now == 0
    ensures s.l1 == map[] && "a" in s.l2 && s.l2["a"].entry.inProgress
  {
    s := BothMiss(cfg);
    s := Marks(cfg, s, 1);
    s := Marks(cfg, s, 2);
  }

  lemma Replies(cfg: Config, s: State, t: Id, api: Api) returns (s': State)
    requires Calmly(cfg, s) && t in s.threads && s.threads[t] == Saving([A], 1, Calling) && !Classify(api).Uncacheable?
    ensures Calmly(cfg, s') && s'.l1 == s.l1 && s'.l2 == s.l2 && s'.now == s.now
    ensures s'.threads == s.threads[t := Saving([A], 1, StoreRead(Classify(api), 0))]
  {
    CalmExtend(cfg, s, Move(t, Choice(false, api)));
    s' := Apply(cfg, s, Move(t, Choice(false, api)));
  }

  // The API answers the first call.
  lemma FirstReply(cfg: Config, api: Api) returns (s: State)
    requires !cfg.typed && !Classify(api).Uncacheable?
    ensures Calmly(cfg, s) && s.now == 0 && s.l1 == map[] && s.l2 == map["a" := Slot(Marker(1, 0), 1, None)]
    ensures s.threads == map[1 := Saving([A], 1, StoreRead(Classify(api), 0))]
  {
    InitCalm(cfg);
    s := Misses(cfg, Init, 1);
    s := Marks(cfg, s, 1);
    s := Replies(cfg, s, 1, api);
  }

  // It is stamped and written to L1.
  lemma Stores(cfg: Config, s: State, t: Id, x: Response, ttl: int) returns (s': State)
    requires Calmly(cfg, s) && t in s.threads && s.threads[t] == Saving([A], 1, StoreRead(x, 0)) && !x.Uncacheable?
    requires ttl == StoredTTL(cfg.policy, ThirdParty, x)
    ensures Calmly(cfg, s') && s'.l2 == s.l2 && s'.now == s.now && s'.threads.Keys == s.threads.Keys
    ensures s'.l1.Keys == s.l1.Keys + {"a"} && s'.l1["a"].tag.Some? && s'.l1["a"].entry == StoredEntry(x, ttl, s.now)
  {
    CalmExtend(cfg, s, Move(t, Fine));
    s' := Apply(cfg, s, Move(t, Fine));
    CalmExtend(cfg, s', Move(t, Fine));
    s' := Apply(cfg, s', Move(t, Fine));
  }

  // It has stored the answer for "a" in L1.
  lemma FirstCall(cfg: Config) returns (s: State)
    requires cfg.policy == TenSeconds && !cfg.typed
    ensures Waiting(cfg, s)
  {
    s := FirstReply(cfg, Body(false, [EID("s", ["u"])], "", None, Some(5000)));
    s := Stores(cfg, s, 1, Five, 5 * SECOND);
  }

  /** A negative answer can outlive the ceiling of its own key: its lifetime is
      cut to the first-party ceiling only, whatever the type of the key. */
  lemma NegativeOutlivesCeiling(cfg: Config) returns (s: State)
    requires cfg.policy == TenSeconds.(thirdParty := SECOND) && !cfg.typed
    ensures Calmly(cfg, s) && A.value in s.l1 && s.l1[A.value].entry.negative
    ensures s.l1[A.value].entry.expiresAt > Millis(s.now) + DurationMillis(CeilingFor(cfg.policy, A.kind))
  {
    var nobody := Body(false, [], "", None, Some(5000));
    s := FirstReply(cfg, nobody);
    s := Stores(cfg, s, 1, Classify(nobody), 5 * SECOND);
  }

  // A second call hits "a".
  lemma SecondHit(cfg: Config) returns (s: State, hit: Entry, tag: Tag)
    requires cfg.policy == TenSeconds && !cfg.typed
    ensures Calmly(cfg, s) && s.now == 0 && s.l1.Keys == {"a"} && s.l1["a"].entry == hit == Resolved(Five.r, 5 * SECOND, 0)
    ensures 2 in s.threads && s.threads[2] == Looking([A, B], 1, FillRead(0, hit, tag, L1))
  {
    s := FirstCall(cfg);
    hit, tag := s.l1["a"].entry, s.l1["a"].tag.value;
    s := Begins(cfg, s, 2, [A, B]);
    s := Pass(cfg, s, 2, Fine, Looking([A, B], 1, L1Decode(0, s.l1["a"])));
    s := Pass(cfg, s, 2, Fine, Looking([A, B], 1, FillRead(0, hit, tag, L1)));
  }

  // It is about to stamp the alias under "b".
  lemma SecondFill(cfg: Config) returns (s: State, f: Fill)
    requires cfg.policy == TenSeconds && !cfg.typed
    ensures Calmly(cfg, s) && s.now == 0 && "a" in s.l1 && s.l1["a"].entry == f.hit
    ensures f.hit == Resolved(Five.r, 5 * SECOND, 0) && f.keys == [A, B] && f.read == 0
    ensures 2 in s.threads && s.threads[2] == Filling(f, Stamp(1))
  {
    var hit: Entry, tag: Tag;
    s, hit, tag := SecondHit(cfg);
    f := Fill([A, B], 0, hit, tag, L1, 0);
    s := Pass(cfg, s, 2, Fine, Filling(f, Probe(0)));
    s := Pass(cfg, s, 2, Fine, Filling(f, Probe(1)));
    s := Pass(cfg, s, 2, Fine, Filling(f, Stamp(1)));
  }

  /** When the clock moves inside a backfill, an alias can outlive the entry
      that it copies. */
  lemma MovingClock(cfg: Config) returns (s: State)
    requires cfg.policy == TenSeconds && !cfg.typed && !cfg.steady
    ensures Reachable(cfg, s) && "a" in s.l1 && "b" in s.l1
    ensures SamePayload(s.l1["a"].entry, s.l1["b"].entry) && s.l1["b"].entry.expiresAt > s.l1["a"].entry.expiresAt
  {
    var f: Fill;
    s, f := SecondFill(cfg);
    CalmlyReachable(cfg, s);
    Extend(cfg, s, Tick(SECOND));
    s := Apply(cfg, s, Tick(SECOND));
    var late := Tag(f.tag.origin, f.tag.slack + 1000, f.tag.via + [f.keys]);
    Extend(cfg, s, Move(2, Fine));
    s := Apply(cfg, s, Move(2, Fine));
    assert s.threads[2] == Filling(f, FillSet(1, Alias(f.hit, 5000, SECOND), late, 5000 * MILLISECOND));
    Extend(cfg, s, Move(2, Fine));
    s := Apply(cfg, s, Move(2, Fine));
  }
}
