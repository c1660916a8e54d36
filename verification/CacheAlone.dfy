/** The two models of the cache agree: what a call of `CacheThreads` can do when
    no other thread interrupts it is exactly what the operations of
    `CacheLayers` say. Every run of such a call has the outcome that they give
    for the accesses that failed in it and its readings of the clock, and for
    every choice of failing accesses there is such a run. */
module CacheAlone {
  import opened Wrappers
  import opened CacheEntry
  import opened Resolving
  import opened T = CacheThreads
  import opened CacheThreadProofs
  import L = CacheLayers

  // Everything a call meets: the accesses that fail in its lookup, in its
  // marking and in its storing, its readings of the clock, the API's answer.
  datatype Oracle = Oracle(
    f: L.Faults, m: L.Faults, g: L.Faults, c: L.Clock, marked: nat -> nat, stored: nat -> nat, api: Api)

  // The step that a thread at `pc` takes with choice `c` is as the oracle has it.
  predicate Obeys(o: Oracle, s: State, pc: Pc, c: Choice) {
    match pc
    case Looking(keys, _, L1Read(i)) => i < |keys| ==> c.fails == (i in o.f.localGets)
    case Looking(_, _, L1Decode(i, _)) => s.now == o.c.local(i)
    case Looking(keys, _, L2Read(i, _)) => i < |keys| ==> c.fails == (i in o.f.storeGets)
    case Looking(_, _, L2Decode(i, _, _)) => s.now == o.c.store(i)
    case Looking(_, _, PromoteRead(_, _, _)) => s.now == o.c.promote
    case Looking(_, _, PromoteSet(_, _, _, _)) => c.fails == o.f.promoteSet
    case Looking(_, _, FillRead(_, _, _, _)) => s.now == o.c.fill
    case Filling(f, Probe(j)) => j < |f.keys| ==> c.fails == (j in o.f.localProbes)
    case Filling(_, ProbeDecode(j, _)) => s.now == o.c.probe(j)
    case Filling(_, Stamp(j)) => s.now == o.c.stamp(j)
    case Filling(_, FillSet(j, _, _, _)) => c.fails == (j in o.f.localSets)
    case Filling(_, FillPut(j, _, _, _)) => c.fails == (j in o.f.storePuts)
    case Saving(keys, _, MarkRead(j)) => j < |keys| ==> s.now == o.marked(j)
    case Saving(_, _, MarkPut(j, _)) => c.fails == (j in o.m.storePuts)
    case Saving(_, _, Calling) => c.api == o.api
    case Saving(keys, _, StoreRead(_, j)) => j < |keys| ==> s.now == o.stored(j)
    case Saving(_, _, StoreSet(w, _)) => c.fails == (w.j in o.g.localSets)
    case Saving(_, _, StorePut(w, _)) => c.fails == (w.j in o.g.storePuts)
    case _ => true
  }

  /* ---------- what the call has done so far ---------- */

  datatype Held = Held(l1: map<string, Slot>, l2: map<string, Slot>)

  function HeldBy(s: State): Held { Held(s.l1, s.l2) }

  // Both models hold the same entries.
  ghost predicate Same(h: Held, x: L.Layers) {
    && (forall k :: k in h.l1 <==> k in x.l1) && (forall k :: k in h.l1 ==> h.l1[k].entry == x.l1[k].entry)
    && (forall k :: k in h.l2 <==> k in x.l2) && (forall k :: k in h.l2 ==> h.l2[k].entry == x.l2[k].entry)
  }

  // The call as the coarser model sees it: its keys, and the layers it began with.
  datatype Call = Call(p: Policy, keys: Keys, timeout: int, x: L.Layers, o: Oracle)

  ghost predicate NoLocalYet(k: Call, n: nat)
    requires n <= |k.keys|
  {
    forall j: nat :: j < n ==> !L.LocalHit(k.x, k.keys, k.o.c, k.o.f, j)
  }

  ghost predicate NoStoreYet(k: Call, n: nat)
    requires n <= |k.keys|
  {
    forall j: nat :: j < n ==> !L.StoreHit(k.x, k.keys, k.o.c, k.o.f, j)
  }

  // The first marker among the first `n` keys.
  ghost predicate MarkerYet(k: Call, n: nat, marker: Option<KeyType>)
    requires n <= |k.keys|
  {
    match marker
    case None => forall j: nat :: j < n ==> !L.StoreMarker(k.x, k.keys, k.o.c, k.o.f, j)
    case Some(kind) => exists j: nat :: j < n && L.FirstMarker(k.x, k.keys, k.o.c, k.o.f, j) && kind == k.keys[j].kind
  }

  ghost predicate HitAt(k: Call, i: nat, hit: Entry, layer: Layer) {
    && i < |k.keys| && !hit.inProgress
    && match layer
       case L1 => L.FirstLocal(k.x, k.keys, k.o.c, k.o.f, i) && hit == k.x.l1[k.keys[i].value].entry
       case L2 => && NoLocalYet(k, |k.keys|) && L.FirstStore(k.x, k.keys, k.o.c, k.o.f, i)
                  && hit == k.x.l2[k.keys[i].value].entry
       case NoLayer => false
  }

  // The layers when the backfill of a hit begins, and after `n` of its rounds.
  function Base(k: Call, i: nat, hit: Entry, layer: Layer): L.Layers
    requires i < |k.keys|
  {
    if layer == L1 then k.x
    else L.Promote(k.x.(gets := k.x.gets + i + 1), k.keys[i].value, hit, k.o.c.promote, k.o.f)
  }

  function Remaining(k: Call, hit: Entry): int { hit.expiresAt - Millis(k.o.c.fill) }

  function Filled(k: Call, i: nat, hit: Entry, layer: Layer, n: nat): L.Layers
    requires i < |k.keys| && n <= |k.keys|
  {
    L.BackfillTo(Base(k, i, hit, layer), k.keys, n, i, hit, Remaining(k, hit), k.p, k.o.c, k.o.f)
  }

  // After a miss: the layers with `n` markers, and with `n` keys of the result.
  function Marked(k: Call, n: nat): L.Layers
    requires n <= |k.keys|
  {
    L.PutInProgressTo(k.x.(gets := k.x.gets + |k.keys|), k.keys, n, k.timeout, k.o.marked, k.o.m)
  }

  function Stored(k: Call, z: Response, n: nat): L.Layers
    requires n <= |k.keys| && !z.Uncacheable?
  {
    if z.Identifiers? then L.PutResolvedTo(Marked(k, |k.keys|), k.keys, n, z.r, k.p, k.o.stored, k.o.g)
    else L.PutNegativeTo(Marked(k, |k.keys|), k.keys, n, z.r, k.p, k.o.stored, k.o.g)
  }

  ghost predicate LookTracks(k: Call, h: Held, l: Looker) {
    match l
    case L1Read(i) => i <= |k.keys| && Same(h, k.x) && NoLocalYet(k, i)
    case L1Decode(i, slot) =>
      && i < |k.keys| && Same(h, k.x) && NoLocalYet(k, i) && i !in k.o.f.localGets
      && k.keys[i].value in k.x.l1 && slot.entry == k.x.l1[k.keys[i].value].entry && slot.tag.Some?
    case L2Read(i, marker) =>
      && i <= |k.keys| && Same(h, k.x) && NoLocalYet(k, |k.keys|) && NoStoreYet(k, i) && MarkerYet(k, i, marker)
    case L2Decode(i, marker, slot) =>
      && i < |k.keys| && Same(h, k.x) && NoLocalYet(k, |k.keys|) && NoStoreYet(k, i) && MarkerYet(k, i, marker)
      && i !in k.o.f.storeGets && k.keys[i].value in k.x.l2 && slot.entry == k.x.l2[k.keys[i].value].entry
      && (slot.tag.Some? <==> !slot.entry.inProgress)
    case PromoteRead(i, hit, _) => HitAt(k, i, hit, L2) && Same(h, k.x)
    case PromoteSet(i, hit, _, ttl) =>
      && HitAt(k, i, hit, L2) && Same(h, k.x)
      && hit.expiresAt > Millis(k.o.c.promote) && ttl == (hit.expiresAt - Millis(k.o.c.promote)) * MILLISECOND
    case FillRead(i, hit, _, layer) => HitAt(k, i, hit, layer) && Same(h, Base(k, i, hit, layer))
  }

  // The probe of a key found nothing that lives.
  ghost predicate Unserved(k: Call, y: L.Layers, j: nat)
    requires j < |k.keys|
  {
    j in k.o.f.localProbes || L.LocalGet(y, k.keys[j].value, k.o.c.probe(j)).None?
  }

  function AliasLife(k: Call, hit: Entry, j: nat): int
    requires j < |k.keys|
  {
    L.AliasTTL(k.p, k.keys[j].kind, Remaining(k, hit))
  }

  ghost predicate FillTracks(k: Call, h: Held, f: Fill, g: Filler) {
    && f.keys == k.keys && HitAt(k, f.skip, f.hit, f.layer) && Remaining(k, f.hit) > 0 && f.read == Millis(k.o.c.fill)
    && match g
       case Probe(j) => j <= |k.keys| && Same(h, Filled(k, f.skip, f.hit, f.layer, j))
       case ProbeDecode(j, slot) =>
         && j < |k.keys| && j != f.skip && j !in k.o.f.localProbes
         && var y := Filled(k, f.skip, f.hit, f.layer, j);
            Same(h, y) && k.keys[j].value in y.l1 && slot.entry == y.l1[k.keys[j].value].entry
       case Stamp(j) =>
         && j < |k.keys| && j != f.skip
         && var y := Filled(k, f.skip, f.hit, f.layer, j); Same(h, y) && Unserved(k, y, j)
       case FillSet(j, e, _, ttl) =>
         && j < |k.keys| && j != f.skip && StampedAs(k, f, j, e, ttl)
         && var y := Filled(k, f.skip, f.hit, f.layer, j); Same(h, y) && Unserved(k, y, j)
       case FillPut(j, e, _, ttl) =>
         && j < |k.keys| && j != f.skip && StampedAs(k, f, j, e, ttl)
         && var y := Filled(k, f.skip, f.hit, f.layer, j);
            Unserved(k, y, j) && Same(h, L.SetLocal(y, k.keys[j].value, e, ttl, j in k.o.f.localSets))
  }

  predicate StampedAs(k: Call, f: Fill, j: nat, e: Entry, ttl: int)
    requires j < |k.keys|
  {
    ttl == AliasLife(k, f.hit, j) * MILLISECOND && e == Alias(f.hit, AliasLife(k, f.hit, j), k.o.c.stamp(j))
  }

  ghost predicate SaveTracks(k: Call, h: Held, v: Saver) {
    && NoLocalYet(k, |k.keys|) && NoStoreYet(k, |k.keys|) && MarkerYet(k, |k.keys|, None)
    && match v
       case MarkRead(j) => j <= |k.keys| && Same(h, Marked(k, j))
       case MarkPut(j, e) => j < |k.keys| && Same(h, Marked(k, j)) && e == Marker(k.timeout, k.o.marked(j))
       case Calling => Same(h, Marked(k, |k.keys|))
       case StoreRead(z, j) => z == Classify(k.o.api) && !z.Uncacheable? && j <= |k.keys| && Same(h, Stored(k, z, j))
       case StoreSet(w, ttl) => PutTracks(k, w, ttl) && Same(h, Stored(k, w.x, w.j))
       case StorePut(w, ttl) =>
         && PutTracks(k, w, ttl)
         && Same(h, L.SetLocal(Stored(k, w.x, w.j), k.keys[w.j].value, w.entry, ttl, w.j in k.o.g.localSets))
  }

  predicate PutTracks(k: Call, w: Put, ttl: int) {
    && w.x == Classify(k.o.api) && !w.x.Uncacheable? && w.j < |k.keys|
    && ttl == StoredTTL(k.p, k.keys[w.j].kind, w.x) && w.entry == StoredEntry(w.x, ttl, k.o.stored(w.j))
  }

  // Where the call stands, seen from both models.
  ghost predicate Tracks(k: Call, h: Held, pc: Pc) {
    match pc
    case Looking(keys, timeout, l) => keys == k.keys && timeout == k.timeout && LookTracks(k, h, l)
    case Filling(f, g) => FillTracks(k, h, f, g)
    case Saving(keys, timeout, v) => keys == k.keys && timeout == k.timeout && SaveTracks(k, h, v)
    case Served(keys, i, hit, _, layer) =>
      && keys == k.keys && HitAt(k, i, hit, layer)
      && Same(h, L.Backfill(Base(k, i, hit, layer), k.keys, i, hit, k.p, k.o.c, k.o.f))
    case Waits(keys, kind) =>
      && keys == k.keys && NoLocalYet(k, |k.keys|) && NoStoreYet(k, |k.keys|) && MarkerYet(k, |k.keys|, Some(kind))
      && Same(h, k.x)
    case Done(keys, z) =>
      && keys == k.keys && z == Classify(k.o.api)
      && NoLocalYet(k, |k.keys|) && NoStoreYet(k, |k.keys|) && MarkerYet(k, |k.keys|, None)
      && Same(h, if z.Uncacheable? then Marked(k, |k.keys|) else Stored(k, z, |k.keys|))
  }

  /* ---------- one step ---------- */

  lemma LookReadTracks(k: Call, s: State, l: Looker, c: Choice)
    requires LookTracks(k, HeldBy(s), l) && Obeys(k.o, s, Looking(k.keys, k.timeout, l), c) && (l.L1Read? || l.L2Read?)
    requires LayersTagged(s)
    ensures Tracks(k, HeldBy(s), LookNext(s, k.keys, k.timeout, l, c))
  {
    if l.L2Read? && l.i == |k.keys| && l.marker.None? {
      assert Marked(k, 0) == k.x.(gets := k.x.gets + |k.keys|);
    }
  }

  // What is not a marker has a history, and L1 holds no marker.
  ghost predicate LayersTagged(s: State) {
    && (forall key :: key in s.l1 ==> s.l1[key].tag.Some?)
    && (forall key :: key in s.l2 ==> (s.l2[key].tag.Some? <==> !s.l2[key].entry.inProgress))
  }

  lemma InvTagged(cfg: Config, s: State)
    requires Inv(cfg, s)
    ensures LayersTagged(s)
  {
    forall key | key in s.l1 ensures s.l1[key].tag.Some? { assert SlotOk(cfg, s, key, s.l1[key]); }
    forall key | key in s.l2 ensures s.l2[key].tag.Some? <==> !s.l2[key].entry.inProgress {
      assert SlotOk(cfg, s, key, s.l2[key]);
    }
  }

  lemma LocalDecodeTracks(k: Call, s: State, i: nat, slot: Slot, c: Choice)
    requires LookTracks(k, HeldBy(s), L1Decode(i, slot)) && s.now == k.o.c.local(i)
    ensures Tracks(k, HeldBy(s), LookNext(s, k.keys, k.timeout, L1Decode(i, slot), c))
  {
    assert L.LocalHit(k.x, k.keys, k.o.c, k.o.f, i) <==> Live(slot.entry, s.now) && !slot.entry.inProgress;
  }

  lemma StoreDecodeTracks(k: Call, s: State, i: nat, marker: Option<KeyType>, slot: Slot, c: Choice)
    requires LookTracks(k, HeldBy(s), L2Decode(i, marker, slot)) && s.now == k.o.c.store(i)
    ensures Tracks(k, HeldBy(s), LookNext(s, k.keys, k.timeout, L2Decode(i, marker, slot), c))
  {
    assert L.StoreHit(k.x, k.keys, k.o.c, k.o.f, i) <==> Live(slot.entry, s.now) && !slot.entry.inProgress;
    assert L.StoreMarker(k.x, k.keys, k.o.c, k.o.f, i) <==> Live(slot.entry, s.now) && slot.entry.inProgress;
    if marker.None? && Live(slot.entry, s.now) && slot.entry.inProgress {
      assert L.FirstMarker(k.x, k.keys, k.o.c, k.o.f, i);
    }
  }

  lemma PromoteTracks(k: Call, s: State, t: Id, i: nat, hit: Entry, tag: Tag, ttl: int, c: Choice)
    requires LookTracks(k, HeldBy(s), PromoteSet(i, hit, tag, ttl)) && c.fails == k.o.f.promoteSet
    ensures var l := PromoteSet(i, hit, tag, ttl);
      Tracks(k, HeldBy(LookStep(s, t, k.keys, k.timeout, l, c)), LookNext(s, k.keys, k.timeout, l, c))
  {
  }

  lemma LookHitTracks(k: Call, s: State, l: Looker, c: Choice)
    requires LookTracks(k, HeldBy(s), l) && Obeys(k.o, s, Looking(k.keys, k.timeout, l), c)
      && (l.PromoteRead? || l.FillRead?)
    ensures Tracks(k, HeldBy(s), LookNext(s, k.keys, k.timeout, l, c))
  {
    if l.FillRead? { assert Filled(k, l.i, l.hit, l.layer, 0) == Base(k, l.i, l.hit, l.layer); }
  }

  lemma FillReadTracks(k: Call, s: State, f: Fill, g: Filler, c: Choice, cfg: Config)
    requires FillTracks(k, HeldBy(s), f, g) && Obeys(k.o, s, Filling(f, g), c) && !g.FillSet? && !g.FillPut?
    requires cfg.policy == k.p && f.read <= Millis(s.now)
    ensures Tracks(k, HeldBy(s), FillNext(cfg, s, f, g, c))
  {
    if g.Probe? && g.j < |k.keys| { FilledNext(k, f.skip, f.hit, f.layer, g.j); }
    if g.ProbeDecode? { FilledNext(k, f.skip, f.hit, f.layer, g.j); }
  }

  lemma FilledNext(k: Call, i: nat, hit: Entry, layer: Layer, n: nat)
    requires i < |k.keys| && n < |k.keys|
    ensures Filled(k, i, hit, layer, n + 1) ==
      L.BackfillOne(Filled(k, i, hit, layer, n), k.keys[n], n, i, hit, Remaining(k, hit), k.p, k.o.c, k.o.f)
  {
  }

  lemma FillWriteTracks(k: Call, s: State, t: Id, f: Fill, g: Filler, c: Choice, cfg: Config)
    requires FillTracks(k, HeldBy(s), f, g) && Obeys(k.o, s, Filling(f, g), c) && (g.FillSet? || g.FillPut?)
    ensures Tracks(k, HeldBy(FillStep(cfg, s, t, f, g, c)), FillNext(cfg, s, f, g, c))
  {
    if g.FillPut? { FillPutTracks(k, s, t, f, g, c, cfg); }
  }

  lemma FillPutTracks(k: Call, s: State, t: Id, f: Fill, g: Filler, c: Choice, cfg: Config)
    requires FillTracks(k, HeldBy(s), f, g) && Obeys(k.o, s, Filling(f, g), c) && g.FillPut?
    ensures Tracks(k, HeldBy(FillStep(cfg, s, t, f, g, c)), FillNext(cfg, s, f, g, c))
  {
    FilledNext(k, f.skip, f.hit, f.layer, g.j);
  }

  lemma SaveReadTracks(k: Call, s: State, t: Id, v: Saver, c: Choice, cfg: Config)
    requires SaveTracks(k, HeldBy(s), v) && Obeys(k.o, s, Saving(k.keys, k.timeout, v), c) && cfg.policy == k.p
    requires v.MarkRead? || v.Calling? || v.StoreRead?
    ensures var s' := SaveStep(cfg, s, t, k.keys, k.timeout, v, c); Tracks(k, HeldBy(s'), s'.threads[t])
  {
    if v.Calling? && !Classify(c.api).Uncacheable? { assert Stored(k, Classify(c.api), 0) == Marked(k, |k.keys|); }
  }

  lemma MarkPutTracks(cfg: Config, k: Call, s: State, t: Id, j: nat, e: Entry, c: Choice)
    requires SaveTracks(k, HeldBy(s), MarkPut(j, e)) && c.fails == (j in k.o.m.storePuts)
    ensures var s' := SaveStep(cfg, s, t, k.keys, k.timeout, MarkPut(j, e), c); Tracks(k, HeldBy(s'), s'.threads[t])
  {
  }

  lemma StoreSetTracks(cfg: Config, k: Call, s: State, t: Id, w: Put, ttl: int, c: Choice)
    requires SaveTracks(k, HeldBy(s), StoreSet(w, ttl)) && c.fails == (w.j in k.o.g.localSets)
    ensures var s' := SaveStep(cfg, s, t, k.keys, k.timeout, StoreSet(w, ttl), c); Tracks(k, HeldBy(s'), s'.threads[t])
  {
  }

  lemma StorePutTracks(cfg: Config, k: Call, s: State, t: Id, w: Put, ttl: int, c: Choice)
    requires SaveTracks(k, HeldBy(s), StorePut(w, ttl)) && c.fails == (w.j in k.o.g.storePuts)
    ensures var s' := SaveStep(cfg, s, t, k.keys, k.timeout, StorePut(w, ttl), c); Tracks(k, HeldBy(s'), s'.threads[t])
  {
    StoredNext(k, w.x, w.j);
  }

  lemma StoredNext(k: Call, z: Response, n: nat)
    requires n < |k.keys| && !z.Uncacheable?
    ensures var ttl := StoredTTL(k.p, k.keys[n].kind, z);
      Stored(k, z, n + 1) == L.WriteBoth(Stored(k, z, n), k.keys[n].value, StoredEntry(z, ttl, k.o.stored(n)), ttl, n, k.o.g)
  {
  }

  lemma LookTracksStep(cfg: Config, k: Call, s: State, t: Id, l: Looker, c: Choice)
    requires LayersTagged(s) && LookTracks(k, HeldBy(s), l) && Obeys(k.o, s, Looking(k.keys, k.timeout, l), c)
    ensures Tracks(k, HeldBy(LookStep(s, t, k.keys, k.timeout, l, c)), LookNext(s, k.keys, k.timeout, l, c))
  {
    match l
    case L1Read(_) => LookReadTracks(k, s, l, c);
    case L2Read(_, _) => LookReadTracks(k, s, l, c);
    case L1Decode(i, slot) => LocalDecodeTracks(k, s, i, slot, c);
    case L2Decode(i, marker, slot) => StoreDecodeTracks(k, s, i, marker, slot, c);
    case PromoteSet(i, hit, tag, ttl) => PromoteTracks(k, s, t, i, hit, tag, ttl, c);
    case _ => LookHitTracks(k, s, l, c);
  }

  lemma FillTracksStep(cfg: Config, k: Call, s: State, t: Id, f: Fill, g: Filler, c: Choice)
    requires FillTracks(k, HeldBy(s), f, g) && Obeys(k.o, s, Filling(f, g), c) && cfg.policy == k.p
      && f.read <= Millis(s.now)
    ensures Tracks(k, HeldBy(FillStep(cfg, s, t, f, g, c)), FillNext(cfg, s, f, g, c))
  {
    if g.FillSet? || g.FillPut? {
      FillWriteTracks(k, s, t, f, g, c, cfg);
    } else {
      FillReadTracks(k, s, f, g, c, cfg);
    }
  }

  lemma SaveTracksStep(cfg: Config, k: Call, s: State, t: Id, v: Saver, c: Choice)
    requires SaveTracks(k, HeldBy(s), v) && Obeys(k.o, s, Saving(k.keys, k.timeout, v), c) && cfg.policy == k.p
    ensures var s' := SaveStep(cfg, s, t, k.keys, k.timeout, v, c); Tracks(k, HeldBy(s'), s'.threads[t])
  {
    match v
    case MarkPut(j, e) => MarkPutTracks(cfg, k, s, t, j, e, c);
    case StoreSet(w, ttl) => StoreSetTracks(cfg, k, s, t, w, ttl, c);
    case StorePut(w, ttl) => StorePutTracks(cfg, k, s, t, w, ttl, c);
    case _ => SaveReadTracks(k, s, t, v, c, cfg);
  }

  /** A step of the call that the oracle foretells keeps both models together. */
  lemma TracksStep(cfg: Config, k: Call, s: State, t: Id, c: Choice)
    requires Inv(cfg, s) && cfg.policy == k.p && Enabled(cfg, s, Move(t, c))
    requires Tracks(k, HeldBy(s), s.threads[t]) && Obeys(k.o, s, s.threads[t], c)
    ensures var s' := Apply(cfg, s, Move(t, c)); Tracks(k, HeldBy(s'), s'.threads[t])
  {
    InvTagged(cfg, s);
    assert ThreadOk(cfg, s, s.threads[t]);
    match s.threads[t]
    case Looking(keys, timeout, l) => LookTracksStep(cfg, k, s, t, l, c);
    case Filling(f, g) => FillTracksStep(cfg, k, s, t, f, g, c);
    case Saving(keys, timeout, v) => SaveTracksStep(cfg, k, s, t, v, c);
  }
}
