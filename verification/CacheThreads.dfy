/** Enrich calls and background goroutines over the shared cache, one clock
    reading or one layer access at a time. Any thread may take the next step,
    the clock may advance between any two steps, L1 may drop entries, and any
    access of a layer may fail. Entries carry, as history, where they come from. */
module CacheThreads {
  import opened Wrappers
  import opened CacheEntry
  import opened Resolving

  type Id = nat
  type Keys = seq<CacheKey>

  /* ---------- history ---------- */

  // One stored result: the key list and answer of its call, the key it was
  // stored under, the clock reading of the write, and its entry.
  datatype Put = Put(keys: Keys, x: Response, j: nat, at: nat, entry: Entry)

  // Where an entry comes from: the stored result, the clock advance inside
  // the backfills on the way, and the key lists of the lookups on the way.
  datatype Tag = Tag(origin: Put, slack: nat, via: seq<Keys>)

  // `until` is the earliest instant at which the layer's own timer may fire.
  datatype Slot = Slot(entry: Entry, until: int, tag: Option<Tag>)

  datatype History = History(resolves: set<(Keys, Api)>, lookups: set<Keys>, puts: set<Put>)

  /* ---------- threads ---------- */

  // A backfill under way: the hit, and the millisecond its remaining lifetime was read.
  datatype Fill = Fill(keys: Keys, skip: nat, hit: Entry, tag: Tag, layer: Layer, read: nat)

  datatype Looker =
    | L1Read(i: nat) | L1Decode(i: nat, slot: Slot)
    | L2Read(i: nat, marker: Option<KeyType>) | L2Decode(i: nat, marker: Option<KeyType>, slot: Slot)
    | PromoteRead(i: nat, hit: Entry, tag: Tag)
    | PromoteSet(i: nat, hit: Entry, tag: Tag, ttl: int)
    | FillRead(i: nat, hit: Entry, tag: Tag, layer: Layer)

  datatype Filler =
    | Probe(j: nat) | ProbeDecode(j: nat, slot: Slot) | Stamp(j: nat)
    | FillSet(j: nat, e: Entry, tag: Tag, ttl: int) | FillPut(j: nat, e: Entry, tag: Tag, ttl: int)

  datatype Saver =
    | MarkRead(j: nat) | MarkPut(j: nat, e: Entry)
    | Calling
    | StoreRead(x: Response, j: nat)
    | StoreSet(w: Put, ttl: int) | StorePut(w: Put, ttl: int)

  datatype Pc =
    | Looking(keys: Keys, timeout: int, l: Looker)
    | Filling(f: Fill, g: Filler)
    | Saving(keys: Keys, timeout: int, v: Saver)
    | Served(keys: Keys, i: nat, hit: Entry, tag: Tag, layer: Layer)
    | Waits(keys: Keys, kind: KeyType)   // answered in-progress
    | Done(keys: Keys, x: Response)      // answered by its own call

  // `typed` restricts the calls to key lists in which every key has the one
  // type that `kindOf` gives it; `steady` lets no clock advance fall inside a
  // backfill.
  datatype Config = Config(policy: Policy, typed: bool, kindOf: string -> KeyType, steady: bool)

  datatype State = State(l1: map<string, Slot>, l2: map<string, Slot>, now: nat, threads: map<Id, Pc>, h: History)

  datatype Choice = Choice(fails: bool, api: Api)

  datatype Step =
    | Begin(t: Id, keys: Keys, timeout: int)
    | Move(t: Id, c: Choice)
    | Tick(d: nat)
    | DropL1(key: string)
    | DropL2(key: string)

  const Init := State(map[], map[], 0, map[], History({}, {}, {}))

  predicate Typed(cfg: Config, keys: Keys) {
    cfg.typed ==> forall i :: 0 <= i < |keys| ==> keys[i].kind == cfg.kindOf(keys[i].value)
  }

  predicate Enabled(cfg: Config, s: State, a: Step) {
    match a
    case Begin(t, keys, timeout) => t !in s.threads && keys != [] && timeout > 0 && Typed(cfg, keys)
    case Move(t, c) => t in s.threads && !s.threads[t].Served? && !s.threads[t].Waits? && !s.threads[t].Done?
    case Tick(d) => cfg.steady ==> forall t :: t in s.threads ==> !s.threads[t].Filling?
    case _ => true
  }

  function Goto(s: State, t: Id, pc: Pc): State { s.(threads := s.threads[t := pc]) }

  function SetL1(s: State, key: string, e: Entry, ttl: int, tag: Tag, fails: bool): State {
    if fails then s else s.(l1 := s.l1[key := Slot(e, s.now + FreeCacheSeconds(ttl) * SECOND, Some(tag))])
  }

  function PutL2(s: State, key: string, e: Entry, ttl: int, tag: Option<Tag>, fails: bool): State {
    if fails then s else s.(l2 := s.l2[key := Slot(e, s.now + ttl, tag)])
  }

  // The type of the first marker found, the key at `i` being the latest.
  function FirstOf(marker: Option<KeyType>, keys: Keys, i: nat): Option<KeyType> {
    if marker.Some? || i >= |keys| then marker else Some(keys[i].kind)
  }

  // A stored slot is taken as an answer, or passed over.
  function LookNext(s: State, keys: Keys, timeout: int, l: Looker, c: Choice): Pc {
    match l
    case L1Read(i) =>
      if i >= |keys| then Looking(keys, timeout, L2Read(0, None))
      else if !c.fails && keys[i].value in s.l1 then Looking(keys, timeout, L1Decode(i, s.l1[keys[i].value]))
      else Looking(keys, timeout, L1Read(i + 1))
    case L1Decode(i, slot) =>
      if Live(slot.entry, s.now) && !slot.entry.inProgress && slot.tag.Some?
      then Looking(keys, timeout, FillRead(i, slot.entry, slot.tag.value, L1))
      else Looking(keys, timeout, L1Read(i + 1))
    case L2Read(i, marker) =>
      if i >= |keys| then if marker.Some? then Waits(keys, marker.value) else Saving(keys, timeout, MarkRead(0))
      else if !c.fails && keys[i].value in s.l2 then Looking(keys, timeout, L2Decode(i, marker, s.l2[keys[i].value]))
      else Looking(keys, timeout, L2Read(i + 1, marker))
    case L2Decode(i, marker, slot) =>
      if !Live(slot.entry, s.now) then Looking(keys, timeout, L2Read(i + 1, marker))
      else if slot.entry.inProgress || slot.tag.None? then Looking(keys, timeout, L2Read(i + 1, FirstOf(marker, keys, i)))
      else Looking(keys, timeout, PromoteRead(i, slot.entry, slot.tag.value))
    case PromoteRead(i, hit, tag) =>
      var remaining := hit.expiresAt - Millis(s.now);
      if remaining <= 0 then Looking(keys, timeout, FillRead(i, hit, tag, L2))
      else Looking(keys, timeout, PromoteSet(i, hit, tag, remaining * MILLISECOND))
    case PromoteSet(i, hit, tag, _) => Looking(keys, timeout, FillRead(i, hit, tag, L2))
    case FillRead(i, hit, tag, layer) =>
      if hit.expiresAt - Millis(s.now) <= 0 then Served(keys, i, hit, tag, layer)
      else Filling(Fill(keys, i, hit, tag, layer, Millis(s.now)), Probe(0))
  }

  function LookStep(s: State, t: Id, keys: Keys, timeout: int, l: Looker, c: Choice): State {
    var s1 := if l.PromoteSet? && l.i < |keys| then SetL1(s, keys[l.i].value, l.hit, l.ttl, l.tag, c.fails) else s;
    Goto(s1, t, LookNext(s, keys, timeout, l, c))
  }

  function FillNext(cfg: Config, s: State, f: Fill, g: Filler, c: Choice): Pc {
    match g
    case Probe(j) =>
      if j >= |f.keys| then Served(f.keys, f.skip, f.hit, f.tag, f.layer)
      else if j == f.skip then Filling(f, Probe(j + 1))
      else if !c.fails && f.keys[j].value in s.l1 then Filling(f, ProbeDecode(j, s.l1[f.keys[j].value]))
      else Filling(f, Stamp(j))
    case ProbeDecode(j, slot) => Filling(f, if Live(slot.entry, s.now) then Probe(j + 1) else Stamp(j))
    case Stamp(j) =>
      if j >= |f.keys| || Millis(s.now) < f.read then Filling(f, g)
      else
        var ttl := Min(f.hit.expiresAt - f.read, DurationMillis(CeilingFor(cfg.policy, f.keys[j].kind)));
        var tag := Tag(f.tag.origin, f.tag.slack + (Millis(s.now) - f.read), f.tag.via + [f.keys]);
        Filling(f, FillSet(j, Alias(f.hit, ttl, s.now), tag, ttl * MILLISECOND))
    case FillSet(j, e, tag, ttl) => Filling(f, FillPut(j, e, tag, ttl))
    case FillPut(j, _, _, _) => Filling(f, Probe(j + 1))
  }

  function FillStep(cfg: Config, s: State, t: Id, f: Fill, g: Filler, c: Choice): State {
    var s1 :=
      if g.FillSet? && g.j < |f.keys| then SetL1(s, f.keys[g.j].value, g.e, g.ttl, g.tag, c.fails)
      else if g.FillPut? && g.j < |f.keys| then PutL2(s, f.keys[g.j].value, g.e, g.ttl, Some(g.tag), c.fails)
      else s;
    Goto(s1, t, FillNext(cfg, s, f, g, c))
  }

  function StoredTTL(p: Policy, kind: KeyType, x: Response): int
    requires !x.Uncacheable?
  {
    if x.Identifiers? then EffectiveTTL(p, kind, x.r.cacheTTL) else NegativeTTLFor(p, x.r.cacheTTL)
  }

  function StoredEntry(x: Response, ttl: int, now: nat): Entry
    requires !x.Uncacheable?
  {
    if x.Identifiers? then Resolved(x.r, ttl, now) else NegativeEntry(x.r, ttl, now)
  }

  function SaveStep(cfg: Config, s: State, t: Id, keys: Keys, timeout: int, v: Saver, c: Choice): State {
    match v
    case MarkRead(j) =>
      Goto(s, t, Saving(keys, timeout, if j >= |keys| then Calling else MarkPut(j, Marker(timeout, s.now))))
    case MarkPut(j, e) =>
      Goto(if j < |keys| then PutL2(s, keys[j].value, e, timeout, None, c.fails) else s, t, Saving(keys, timeout, MarkRead(j + 1)))
    case Calling =>
      var x := Classify(c.api);
      Goto(s, t, if x.Uncacheable? then Done(keys, x) else Saving(keys, timeout, StoreRead(x, 0)))
        .(h := s.h.(resolves := s.h.resolves + {(keys, c.api)}))
    case StoreRead(x, j) =>
      if j >= |keys| || x.Uncacheable? then Goto(s, t, Done(keys, x))
      else
        var ttl := StoredTTL(cfg.policy, keys[j].kind, x);
        var w := Put(keys, x, j, s.now, StoredEntry(x, ttl, s.now));
        Goto(s, t, Saving(keys, timeout, StoreSet(w, ttl))).(h := s.h.(puts := s.h.puts + {w}))
    case StoreSet(w, ttl) =>
      Goto(if w.j < |keys| then SetL1(s, keys[w.j].value, w.entry, ttl, Tag(w, 0, []), c.fails) else s, t,
           Saving(keys, timeout, StorePut(w, ttl)))
    case StorePut(w, ttl) =>
      Goto(if w.j < |keys| then PutL2(s, keys[w.j].value, w.entry, ttl, Some(Tag(w, 0, [])), c.fails) else s, t,
           Saving(keys, timeout, StoreRead(w.x, w.j + 1)))
  }

  function Apply(cfg: Config, s: State, a: Step): State
    requires Enabled(cfg, s, a)
  {
    match a
    case Begin(t, keys, timeout) =>
      Goto(s, t, Looking(keys, timeout, L1Read(0))).(h := s.h.(lookups := s.h.lookups + {keys}))
    case Move(t, c) =>
      (match s.threads[t] {
        case Looking(keys, timeout, l) => LookStep(s, t, keys, timeout, l, c)
        case Filling(f, g) => FillStep(cfg, s, t, f, g, c)
        case Saving(keys, timeout, v) => SaveStep(cfg, s, t, keys, timeout, v, c)
        case _ => s
      })
    case Tick(d) => s.(now := s.now + d)
    case DropL1(key) => s.(l1 := s.l1 - {key})
    case DropL2(key) => s.(l2 := s.l2 - {key})
  }

  ghost predicate Legal(cfg: Config, s: State, run: seq<Step>)
    decreases |run|
  {
    run == [] || (Enabled(cfg, s, run[0]) && Legal(cfg, Apply(cfg, s, run[0]), run[1..]))
  }

  ghost function Run(cfg: Config, s: State, run: seq<Step>): State
    requires Legal(cfg, s, run)
    decreases |run|
  {
    if run == [] then s else Run(cfg, Apply(cfg, s, run[0]), run[1..])
  }

  /* ---------- provenance ---------- */

  predicate Lists(keys: Keys, key: string) { exists i :: 0 <= i < |keys| && keys[i].value == key }

  /** `key` is linked to the key list `from` by a chain of lookups, each sharing
      a key with the one before. */
  ghost predicate Linked(h: History, from: Keys, via: seq<Keys>, key: string)
    decreases |via|
  {
    if via == [] then Lists(from, key)
    else
      var last := via[|via| - 1];
      last in h.lookups && Lists(last, key) && exists k :: Lists(last, k) && Linked(h, from, via[..|via| - 1], k)
  }

  // The API answered this to a call for these keys.
  ghost predicate Answered(h: History, keys: Keys, x: Response) {
    exists api :: (keys, api) in h.resolves && x == Classify(api)
  }

  // A stored result is an earlier answer of the API, timed when it was written.
  ghost predicate PutOk(cfg: Config, s: State, w: Put) {
    && Answered(s.h, w.keys, w.x) && !w.x.Uncacheable? && w.j < |w.keys| && w.at <= s.now
    && w.entry == StoredEntry(w.x, StoredTTL(cfg.policy, w.keys[w.j].kind, w.x), w.at)
  }

  ghost predicate HistoryOk(cfg: Config, s: State) {
    forall w :: w in s.h.puts ==> PutOk(cfg, s, w)
  }

  ghost predicate TagOk(cfg: Config, h: History, key: string, e: Entry, tag: Tag) {
    && tag.origin in h.puts
    && SamePayload(e, tag.origin.entry)
    && e.expiresAt <= tag.origin.entry.expiresAt + tag.slack
    && (cfg.steady ==> tag.slack == 0)
    && Linked(h, tag.origin.keys, tag.via, key)
  }

  /* ---------- lifetimes ---------- */

  function NegativeBound(p: Policy): int { Max(DurationMillis(p.negativeTTL), DurationMillis(p.firstParty)) }

  // How far after `at` an entry under the key may expire.
  predicate Capped(cfg: Config, key: string, e: Entry, at: int) {
    cfg.typed ==>
      e.expiresAt <= at + (if e.negative then NegativeBound(cfg.policy) else DurationMillis(CeilingFor(cfg.policy, cfg.kindOf(key))))
  }

  predicate Covered(slot: Slot) { slot.entry.expiresAt * MILLISECOND <= slot.until }

  /* ---------- the inductive invariant ---------- */

  // An answer under the key at hand.
  ghost predicate EntryOk(cfg: Config, s: State, key: string, e: Entry, tag: Tag) {
    !e.inProgress && TagOk(cfg, s.h, key, e, tag) && Capped(cfg, key, e, Millis(s.now))
  }

  ghost predicate Answer(cfg: Config, s: State, keys: Keys, i: nat, hit: Entry, tag: Tag) {
    && keys in s.h.lookups && Typed(cfg, keys) && i < |keys| && EntryOk(cfg, s, keys[i].value, hit, tag)
  }

  ghost predicate SlotOk(cfg: Config, s: State, key: string, slot: Slot) {
    && Covered(slot)
    && if slot.entry.inProgress then slot.tag.None?
       else slot.tag.Some? && EntryOk(cfg, s, key, slot.entry, slot.tag.value)
  }

  // An entry about to be handed to a layer still has its lifetime covered.
  predicate Handed(s: State, e: Entry, ttl: int) { e.expiresAt * MILLISECOND <= s.now + ttl }

  ghost predicate LookerOk(cfg: Config, s: State, keys: Keys, l: Looker) {
    && keys in s.h.lookups && Typed(cfg, keys)
    && match l
       case L1Decode(i, slot) => i < |keys| && SlotOk(cfg, s, keys[i].value, slot)
       case L2Decode(i, _, slot) => i < |keys| && SlotOk(cfg, s, keys[i].value, slot)
       case PromoteRead(i, hit, tag) => Answer(cfg, s, keys, i, hit, tag)
       case PromoteSet(i, hit, tag, ttl) => Answer(cfg, s, keys, i, hit, tag) && Handed(s, hit, ttl)
       case FillRead(i, hit, tag, _) => Answer(cfg, s, keys, i, hit, tag)
       case _ => true
  }

  ghost predicate FillOk(cfg: Config, s: State, f: Fill) {
    && Answer(cfg, s, f.keys, f.skip, f.hit, f.tag)
    && f.read <= Millis(s.now) && Capped(cfg, f.keys[f.skip].value, f.hit, f.read)
    && (cfg.steady ==> f.read == Millis(s.now))
  }

  ghost predicate FillerOk(cfg: Config, s: State, f: Fill, g: Filler) {
    match g
    case Probe(_) => true
    case ProbeDecode(j, _) => j < |f.keys|
    case Stamp(j) => j < |f.keys|
    case FillSet(j, e, tag, ttl) => j < |f.keys| && EntryOk(cfg, s, f.keys[j].value, e, tag) && Handed(s, e, ttl)
    case FillPut(j, e, tag, ttl) => j < |f.keys| && EntryOk(cfg, s, f.keys[j].value, e, tag) && Handed(s, e, ttl)
  }

  ghost predicate StoreOk(cfg: Config, s: State, keys: Keys, w: Put, ttl: int) {
    && w.keys == keys && PutOk(cfg, s, w) && Handed(s, w.entry, ttl)
    && EntryOk(cfg, s, keys[w.j].value, w.entry, Tag(w, 0, []))
  }

  ghost predicate SaverOk(cfg: Config, s: State, keys: Keys, timeout: int, v: Saver) {
    && Typed(cfg, keys)
    && match v
       case MarkPut(_, e) => e.inProgress && Handed(s, e, timeout)
       case StoreRead(x, j) => Answered(s.h, keys, x) && !x.Uncacheable?
       case StoreSet(w, ttl) => StoreOk(cfg, s, keys, w, ttl)
       case StorePut(w, ttl) => StoreOk(cfg, s, keys, w, ttl)
       case _ => true
  }

  ghost predicate ThreadOk(cfg: Config, s: State, pc: Pc) {
    match pc
    case Looking(keys, timeout, l) => timeout > 0 && LookerOk(cfg, s, keys, l)
    case Filling(f, g) => FillOk(cfg, s, f) && FillerOk(cfg, s, f, g)
    case Saving(keys, timeout, v) => timeout > 0 && SaverOk(cfg, s, keys, timeout, v)
    case Served(keys, i, hit, tag, _) => Answer(cfg, s, keys, i, hit, tag)
    case Waits(_, _) => true
    case Done(keys, x) => Answered(s.h, keys, x)
  }

  ghost predicate LayersOk(cfg: Config, s: State) {
    && (forall k :: k in s.l1 ==> SlotOk(cfg, s, k, s.l1[k]) && !s.l1[k].entry.inProgress)
    && (forall k :: k in s.l2 ==> SlotOk(cfg, s, k, s.l2[k]))
  }

  ghost predicate ThreadsOk(cfg: Config, s: State) {
    forall t :: t in s.threads ==> ThreadOk(cfg, s, s.threads[t])
  }

  ghost predicate Inv(cfg: Config, s: State) {
    HistoryOk(cfg, s) && LayersOk(cfg, s) && ThreadsOk(cfg, s)
  }
}
