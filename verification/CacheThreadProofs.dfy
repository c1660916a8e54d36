/** Every step keeps the invariant of `CacheThreads`. */
module CacheThreadProofs {
  import opened Wrappers
  import opened CacheEntry
  import opened Resolving
  import opened CacheThreads

  /* ---------- what a growing history and clock keep ---------- */

  ghost predicate Grows(s: State, s': State) {
    && s.h.resolves <= s'.h.resolves && s.h.lookups <= s'.h.lookups && s.h.puts <= s'.h.puts
    && s.now <= s'.now
  }

  lemma {:induction false} LinkedGrows(h: History, h': History, from: Keys, via: seq<Keys>, key: string)
    requires h.lookups <= h'.lookups && Linked(h, from, via, key)
    ensures Linked(h', from, via, key)
    decreases |via|
  {
    if via != [] {
      var last := via[|via| - 1];
      var k :| Lists(last, k) && Linked(h, from, via[..|via| - 1], k);
      LinkedGrows(h, h', from, via[..|via| - 1], k);
    }
  }

  lemma EntryGrows(cfg: Config, s: State, s': State, key: string, e: Entry, tag: Tag)
    requires Grows(s, s') && EntryOk(cfg, s, key, e, tag)
    ensures EntryOk(cfg, s', key, e, tag)
  {
    LinkedGrows(s.h, s'.h, tag.origin.keys, tag.via, key);
    MillisMonotone(s.now, s'.now);
  }

  lemma SlotGrows(cfg: Config, s: State, s': State, key: string, slot: Slot)
    requires Grows(s, s') && SlotOk(cfg, s, key, slot)
    ensures SlotOk(cfg, s', key, slot)
  {
    if !slot.entry.inProgress { EntryGrows(cfg, s, s', key, slot.entry, slot.tag.value); }
  }

  lemma LookerGrows(cfg: Config, s: State, s': State, keys: Keys, l: Looker)
    requires Grows(s, s') && LookerOk(cfg, s, keys, l)
    ensures LookerOk(cfg, s', keys, l)
  {
    match l
    case L1Decode(i, slot) => SlotGrows(cfg, s, s', keys[i].value, slot);
    case L2Decode(i, _, slot) => SlotGrows(cfg, s, s', keys[i].value, slot);
    case PromoteRead(i, hit, tag) => EntryGrows(cfg, s, s', keys[i].value, hit, tag);
    case PromoteSet(i, hit, tag, _) => EntryGrows(cfg, s, s', keys[i].value, hit, tag);
    case FillRead(i, hit, tag, _) => EntryGrows(cfg, s, s', keys[i].value, hit, tag);
    case _ =>
  }

  lemma FillerGrows(cfg: Config, s: State, s': State, f: Fill, g: Filler)
    requires Grows(s, s') && FillOk(cfg, s, f) && FillerOk(cfg, s, f, g)
    requires cfg.steady ==> s.now == s'.now
    ensures FillOk(cfg, s', f) && FillerOk(cfg, s', f, g)
  {
    EntryGrows(cfg, s, s', f.keys[f.skip].value, f.hit, f.tag);
    MillisMonotone(s.now, s'.now);
    match g
    case FillSet(j, e, tag, _) => EntryGrows(cfg, s, s', f.keys[j].value, e, tag);
    case FillPut(j, e, tag, _) => EntryGrows(cfg, s, s', f.keys[j].value, e, tag);
    case _ =>
  }

  lemma ThreadGrows(cfg: Config, s: State, s': State, pc: Pc)
    requires Grows(s, s') && ThreadOk(cfg, s, pc)
    requires cfg.steady && pc.Filling? ==> s.now == s'.now
    ensures ThreadOk(cfg, s', pc)
  {
    match pc
    case Looking(keys, _, l) => LookerGrows(cfg, s, s', keys, l);
    case Filling(f, g) => FillerGrows(cfg, s, s', f, g);
    case Saving(keys, _, StoreRead(x, _)) => AnsweredGrows(s.h, s'.h, keys, x);
    case Saving(keys, _, StoreSet(w, _)) =>
      AnsweredGrows(s.h, s'.h, w.keys, w.x);
      EntryGrows(cfg, s, s', keys[w.j].value, w.entry, Tag(w, 0, []));
    case Saving(keys, _, StorePut(w, _)) =>
      AnsweredGrows(s.h, s'.h, w.keys, w.x);
      EntryGrows(cfg, s, s', keys[w.j].value, w.entry, Tag(w, 0, []));
    case Done(keys, x) => AnsweredGrows(s.h, s'.h, keys, x);
    case Served(keys, i, hit, tag, _) => EntryGrows(cfg, s, s', keys[i].value, hit, tag);
    case _ =>
  }

  lemma Grown(cfg: Config, s: State, s': State)
    requires Grows(s, s') && s'.l1 == s.l1 && s'.l2 == s.l2 && s'.threads == s.threads
    requires Inv(cfg, s) && HistoryOk(cfg, s')
    requires cfg.steady && (exists t :: t in s.threads && s.threads[t].Filling?) ==> s.now == s'.now
    ensures Inv(cfg, s')
  {
    forall k | k in s.l1 ensures SlotOk(cfg, s', k, s.l1[k]) { SlotGrows(cfg, s, s', k, s.l1[k]); }
    forall k | k in s.l2 ensures SlotOk(cfg, s', k, s.l2[k]) { SlotGrows(cfg, s, s', k, s.l2[k]); }
    forall t | t in s.threads ensures ThreadOk(cfg, s', s.threads[t]) { ThreadGrows(cfg, s, s', s.threads[t]); }
  }

  /* ---------- the writes ---------- */

  // What the predicates read of a state.
  predicate SameView(s: State, s': State) { s'.h == s.h && s'.now == s.now }

  lemma SlotSame(cfg: Config, s: State, s': State, key: string, slot: Slot)
    requires SameView(s, s')
    ensures SlotOk(cfg, s, key, slot) == SlotOk(cfg, s', key, slot)
  {
  }

  lemma ThreadSame(cfg: Config, s: State, s': State, pc: Pc)
    requires SameView(s, s')
    ensures ThreadOk(cfg, s, pc) == ThreadOk(cfg, s', pc)
  {
  }

  lemma GotoInv(cfg: Config, s: State, t: Id, pc: Pc)
    requires Inv(cfg, s) && ThreadOk(cfg, s, pc)
    ensures Inv(cfg, Goto(s, t, pc))
  {
    var s' := Goto(s, t, pc);
    forall k | k in s.l1 ensures SlotOk(cfg, s', k, s.l1[k]) { SlotSame(cfg, s, s', k, s.l1[k]); }
    forall k | k in s.l2 ensures SlotOk(cfg, s', k, s.l2[k]) { SlotSame(cfg, s, s', k, s.l2[k]); }
    forall u | u in s'.threads ensures ThreadOk(cfg, s', s'.threads[u]) { ThreadSame(cfg, s, s', s'.threads[u]); }
  }

  lemma SetL1Inv(cfg: Config, s: State, key: string, e: Entry, ttl: int, tag: Tag, fails: bool)
    requires Inv(cfg, s) && EntryOk(cfg, s, key, e, tag) && Handed(s, e, ttl)
    ensures Inv(cfg, SetL1(s, key, e, ttl, tag, fails))
  {
    var s' := SetL1(s, key, e, ttl, tag, fails);
    LeastSeconds(ttl, 1);
    forall k | k in s'.l1 ensures SlotOk(cfg, s', k, s'.l1[k]) { SlotSame(cfg, s, s', k, s'.l1[k]); }
    forall k | k in s.l2 ensures SlotOk(cfg, s', k, s.l2[k]) { SlotSame(cfg, s, s', k, s.l2[k]); }
    forall u | u in s.threads ensures ThreadOk(cfg, s', s.threads[u]) { ThreadSame(cfg, s, s', s.threads[u]); }
  }

  lemma PutL2Inv(cfg: Config, s: State, key: string, e: Entry, ttl: int, tag: Option<Tag>, fails: bool)
    requires Inv(cfg, s) && Handed(s, e, ttl)
    requires if e.inProgress then tag.None? else tag.Some? && EntryOk(cfg, s, key, e, tag.value)
    ensures Inv(cfg, PutL2(s, key, e, ttl, tag, fails))
  {
    var s' := PutL2(s, key, e, ttl, tag, fails);
    forall k | k in s.l1 ensures SlotOk(cfg, s', k, s.l1[k]) { SlotSame(cfg, s, s', k, s.l1[k]); }
    forall k | k in s'.l2 ensures SlotOk(cfg, s', k, s'.l2[k]) { SlotSame(cfg, s, s', k, s'.l2[k]); }
    forall u | u in s.threads ensures ThreadOk(cfg, s', s.threads[u]) { ThreadSame(cfg, s, s', s.threads[u]); }
  }

  /* ---------- a lookup ---------- */

  lemma Remaining(now: nat, expiresAt: int)
    ensures expiresAt * MILLISECOND <= now + (expiresAt - Millis(now)) * MILLISECOND
  {
    assert Millis(now) * MILLISECOND <= now;
  }

  lemma LookReadOk(cfg: Config, s: State, keys: Keys, timeout: int, l: Looker, c: Choice)
    requires LayersOk(cfg, s) && ThreadOk(cfg, s, Looking(keys, timeout, l)) && (l.L1Read? || l.L2Read?)
    ensures ThreadOk(cfg, s, LookNext(s, keys, timeout, l, c))
  {
  }

  lemma LookDecodeOk(cfg: Config, s: State, keys: Keys, timeout: int, l: Looker, c: Choice)
    requires ThreadOk(cfg, s, Looking(keys, timeout, l)) && (l.L1Decode? || l.L2Decode?)
    ensures ThreadOk(cfg, s, LookNext(s, keys, timeout, l, c))
  {
  }

  lemma LookHitOk(cfg: Config, s: State, keys: Keys, timeout: int, l: Looker, c: Choice)
    requires ThreadOk(cfg, s, Looking(keys, timeout, l)) && (l.PromoteRead? || l.PromoteSet? || l.FillRead?)
    ensures ThreadOk(cfg, s, LookNext(s, keys, timeout, l, c))
  {
    if l.PromoteRead? { Remaining(s.now, l.hit.expiresAt); }
  }

  lemma LookInv(cfg: Config, s: State, t: Id, keys: Keys, timeout: int, l: Looker, c: Choice)
    requires Inv(cfg, s) && ThreadOk(cfg, s, Looking(keys, timeout, l))
    ensures Inv(cfg, LookStep(s, t, keys, timeout, l, c))
  {
    var pc := LookNext(s, keys, timeout, l, c);
    if l.L1Read? || l.L2Read? { LookReadOk(cfg, s, keys, timeout, l, c); }
    else if l.L1Decode? || l.L2Decode? { LookDecodeOk(cfg, s, keys, timeout, l, c); }
    else { LookHitOk(cfg, s, keys, timeout, l, c); }
    if l.PromoteSet? {
      SetL1Inv(cfg, s, keys[l.i].value, l.hit, l.ttl, l.tag, c.fails);
      var s1 := SetL1(s, keys[l.i].value, l.hit, l.ttl, l.tag, c.fails);
      ThreadSame(cfg, s, s1, pc);
      GotoInv(cfg, s1, t, pc);
    } else {
      GotoInv(cfg, s, t, pc);
    }
  }

  /* ---------- a backfill ---------- */

  /** The alias a backfill makes: linked one lookup further, within its own
      ceiling, and later than the hit by no more than the clock moved since the
      remaining lifetime was read. */
  lemma StampOk(cfg: Config, s: State, f: Fill, j: nat, ttl: int, tag: Tag)
    requires FillOk(cfg, s, f) && j < |f.keys|
    requires ttl == Min(f.hit.expiresAt - f.read, DurationMillis(CeilingFor(cfg.policy, f.keys[j].kind)))
    requires tag == Tag(f.tag.origin, f.tag.slack + (Millis(s.now) - f.read), f.tag.via + [f.keys])
    ensures EntryOk(cfg, s, f.keys[j].value, Alias(f.hit, ttl, s.now), tag)
    ensures Handed(s, Alias(f.hit, ttl, s.now), ttl * MILLISECOND)
  {
    LinkOn(s.h, f.tag.origin.keys, f.tag.via, f.keys, f.skip, j);
    Remaining(s.now, Millis(s.now) + ttl);
  }

  lemma LinkOn(h: History, from: Keys, via: seq<Keys>, keys: Keys, i: nat, j: nat)
    requires keys in h.lookups && i < |keys| && j < |keys| && Linked(h, from, via, keys[i].value)
    ensures Linked(h, from, via + [keys], keys[j].value)
  {
    var all := via + [keys];
    assert all[..|all| - 1] == via;
    assert Lists(keys, keys[i].value) && Lists(keys, keys[j].value);
  }

  lemma FillNextOk(cfg: Config, s: State, f: Fill, g: Filler, c: Choice)
    requires ThreadOk(cfg, s, Filling(f, g))
    ensures ThreadOk(cfg, s, FillNext(cfg, s, f, g, c))
  {
    if g.Stamp? {
      var ttl := Min(f.hit.expiresAt - f.read, DurationMillis(CeilingFor(cfg.policy, f.keys[g.j].kind)));
      StampOk(cfg, s, f, g.j, ttl, Tag(f.tag.origin, f.tag.slack + (Millis(s.now) - f.read), f.tag.via + [f.keys]));
    }
  }

  lemma FillInv(cfg: Config, s: State, t: Id, f: Fill, g: Filler, c: Choice)
    requires Inv(cfg, s) && ThreadOk(cfg, s, Filling(f, g))
    ensures Inv(cfg, FillStep(cfg, s, t, f, g, c))
  {
    var pc := FillNext(cfg, s, f, g, c);
    FillNextOk(cfg, s, f, g, c);
    match g
    case FillSet(j, e, tag, ttl) =>
      SetL1Inv(cfg, s, f.keys[j].value, e, ttl, tag, c.fails);
      var s1 := SetL1(s, f.keys[j].value, e, ttl, tag, c.fails);
      ThreadSame(cfg, s, s1, pc);
      GotoInv(cfg, s1, t, pc);
    case FillPut(j, e, tag, ttl) =>
      PutL2Inv(cfg, s, f.keys[j].value, e, ttl, Some(tag), c.fails);
      var s1 := PutL2(s, f.keys[j].value, e, ttl, Some(tag), c.fails);
      ThreadSame(cfg, s, s1, pc);
      GotoInv(cfg, s1, t, pc);
    case _ => GotoInv(cfg, s, t, pc);
  }

  /* ---------- marking, calling and storing ---------- */

  lemma StoredWhole(p: Policy, kind: KeyType, x: Response)
    requires WholePolicy(p) && !x.Uncacheable? && Whole(x.r.cacheTTL)
    ensures Whole(StoredTTL(p, kind, x))
  {
  }

  lemma AnsweredWhole(h: History, keys: Keys, x: Response)
    requires Answered(h, keys, x) && !x.Uncacheable?
    ensures Whole(x.r.cacheTTL)
  {
  }

  lemma AnsweredGrows(h: History, h': History, keys: Keys, x: Response)
    requires h.resolves <= h'.resolves && Answered(h, keys, x)
    ensures Answered(h', keys, x)
  {
    var api :| (keys, api) in h.resolves && x == Classify(api);
    assert (keys, api) in h'.resolves;
  }

  lemma WholeCovers(now: nat, ttl: int)
    requires Whole(ttl) || ttl >= 0
    ensures Expiry(now, ttl) * MILLISECOND <= now + ttl
  {
    L2CoversExpiry(now, ttl);
  }

  lemma StoredCapped(cfg: Config, key: CacheKey, x: Response, now: nat)
    requires !x.Uncacheable? && (cfg.typed ==> key.kind == cfg.kindOf(key.value))
    ensures Capped(cfg, key.value, StoredEntry(x, StoredTTL(cfg.policy, key.kind, x), now), Millis(now))
  {
    var p := cfg.policy;
    if x.Identifiers? {
      DurationMonotone(EffectiveTTL(p, key.kind, x.r.cacheTTL), CeilingFor(p, key.kind));
    } else {
      if x.r.cacheTTL > 0 { DurationMonotone(NegativeTTLFor(p, x.r.cacheTTL), p.firstParty); }
    }
  }

  lemma SaveInv(cfg: Config, s: State, t: Id, keys: Keys, timeout: int, v: Saver, c: Choice)
    requires WholePolicy(cfg.policy) && Inv(cfg, s) && ThreadOk(cfg, s, Saving(keys, timeout, v))
    ensures Inv(cfg, SaveStep(cfg, s, t, keys, timeout, v, c))
  {
    var s' := SaveStep(cfg, s, t, keys, timeout, v, c);
    match v
    case MarkRead(_) =>
      WholeCovers(s.now, timeout);
      GotoInv(cfg, s, t, s'.threads[t]);
    case MarkPut(j, e) =>
      var s1 := if j < |keys| then PutL2(s, keys[j].value, e, timeout, None, c.fails) else s;
      if j < |keys| { PutL2Inv(cfg, s, keys[j].value, e, timeout, None, c.fails); }
      GotoInv(cfg, s1, t, s'.threads[t]);
    case Calling => CallInv(cfg, s, t, keys, timeout, c);
    case StoreRead(x, j) =>
      if j < |keys| { StoreReadInv(cfg, s, t, keys, timeout, x, j, c); } else { GotoInv(cfg, s, t, s'.threads[t]); }
    case StoreSet(w, ttl) =>
      SetL1Inv(cfg, s, keys[w.j].value, w.entry, ttl, Tag(w, 0, []), c.fails);
      var s1 := SetL1(s, keys[w.j].value, w.entry, ttl, Tag(w, 0, []), c.fails);
      ThreadSame(cfg, s, s1, s'.threads[t]);
      GotoInv(cfg, s1, t, s'.threads[t]);
    case StorePut(w, ttl) =>
      PutL2Inv(cfg, s, keys[w.j].value, w.entry, ttl, Some(Tag(w, 0, [])), c.fails);
      var s1 := PutL2(s, keys[w.j].value, w.entry, ttl, Some(Tag(w, 0, [])), c.fails);
      ThreadSame(cfg, s, s1, s'.threads[t]);
      GotoInv(cfg, s1, t, s'.threads[t]);
  }

  lemma CallInv(cfg: Config, s: State, t: Id, keys: Keys, timeout: int, c: Choice)
    requires Inv(cfg, s) && ThreadOk(cfg, s, Saving(keys, timeout, Calling))
    ensures Inv(cfg, SaveStep(cfg, s, t, keys, timeout, Calling, c))
  {
    var s' := SaveStep(cfg, s, t, keys, timeout, Calling, c);
    var x := Classify(c.api);
    var s1 := s.(h := s.h.(resolves := s.h.resolves + {(keys, c.api)}));
    assert (keys, c.api) in s1.h.resolves;
    forall w | w in s1.h.puts ensures PutOk(cfg, s1, w) { AnsweredGrows(s.h, s1.h, w.keys, w.x); }
    Grown(cfg, s, s1);
    GotoInv(cfg, s1, t, s'.threads[t]);
    assert s' == Goto(s1, t, s'.threads[t]);
  }

  lemma StoreReadInv(cfg: Config, s: State, t: Id, keys: Keys, timeout: int, x: Response, j: nat, c: Choice)
    requires WholePolicy(cfg.policy) && Inv(cfg, s) && ThreadOk(cfg, s, Saving(keys, timeout, StoreRead(x, j)))
      && j < |keys|
    ensures Inv(cfg, SaveStep(cfg, s, t, keys, timeout, StoreRead(x, j), c))
  {
    var s' := SaveStep(cfg, s, t, keys, timeout, StoreRead(x, j), c);
    var ttl := StoredTTL(cfg.policy, keys[j].kind, x);
    var w := Put(keys, x, j, s.now, StoredEntry(x, ttl, s.now));
    var s1 := s.(h := s.h.(puts := s.h.puts + {w}));
    AnsweredWhole(s.h, keys, x);
    StoredWhole(cfg.policy, keys[j].kind, x);
    WholeCovers(s.now, ttl);
    StoredCapped(cfg, keys[j], x, s.now);
    assert Lists(keys, keys[j].value);
    Grown(cfg, s, s1);
    GotoInv(cfg, s1, t, s'.threads[t]);
    assert s' == Goto(s1, t, s'.threads[t]);
  }

  /* ---------- every step, every run ---------- */

  lemma DropInv(cfg: Config, s: State, a: Step)
    requires Inv(cfg, s) && (a.DropL1? || a.DropL2?)
    ensures Inv(cfg, Apply(cfg, s, a))
  {
    var s' := Apply(cfg, s, a);
    forall k | k in s'.l1 ensures SlotOk(cfg, s', k, s'.l1[k]) { SlotSame(cfg, s, s', k, s'.l1[k]); }
    forall k | k in s'.l2 ensures SlotOk(cfg, s', k, s'.l2[k]) { SlotSame(cfg, s, s', k, s'.l2[k]); }
    forall u | u in s.threads ensures ThreadOk(cfg, s', s.threads[u]) { ThreadSame(cfg, s, s', s.threads[u]); }
  }

  lemma MoveInv(cfg: Config, s: State, t: Id, c: Choice)
    requires WholePolicy(cfg.policy) && Inv(cfg, s) && Enabled(cfg, s, Move(t, c))
    ensures Inv(cfg, Apply(cfg, s, Move(t, c)))
  {
    match s.threads[t]
    case Looking(keys, timeout, l) => LookInv(cfg, s, t, keys, timeout, l, c);
    case Filling(f, g) => FillInv(cfg, s, t, f, g, c);
    case Saving(keys, timeout, v) => SaveInv(cfg, s, t, keys, timeout, v, c);
  }

  lemma StepInv(cfg: Config, s: State, a: Step)
    requires WholePolicy(cfg.policy) && Inv(cfg, s) && Enabled(cfg, s, a)
    ensures Inv(cfg, Apply(cfg, s, a))
  {
    match a
    case Begin(t, keys, timeout) =>
      var s1 := s.(h := s.h.(lookups := s.h.lookups + {keys}));
      Grown(cfg, s, s1);
      GotoInv(cfg, s1, t, Looking(keys, timeout, L1Read(0)));
      assert Apply(cfg, s, a) == Goto(s1, t, Looking(keys, timeout, L1Read(0)));
    case Move(t, c) => MoveInv(cfg, s, t, c);
    case Tick(d) => Grown(cfg, s, Apply(cfg, s, a));
    case _ => DropInv(cfg, s, a);
  }

  lemma {:induction false} RunInv(cfg: Config, s: State, run: seq<Step>)
    requires WholePolicy(cfg.policy) && Inv(cfg, s) && Legal(cfg, s, run)
    ensures Inv(cfg, Run(cfg, s, run))
    decreases |run|
  {
    if run != [] {
      StepInv(cfg, s, run[0]);
      RunInv(cfg, Apply(cfg, s, run[0]), run[1..]);
    }
  }
}
