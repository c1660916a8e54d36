/** When the layers are in step although operations overlap: a key's live L1
    entry is the store's answer, unless two threads work on the key at once
    between a write of L1, or a read of the store, and the write that completes
    it. */
module CacheSteps {
  import opened Wrappers
  import opened Auction
  import opened CacheEntry
  import opened Resolving
  import opened CacheThreads
  import opened CacheThreadProofs
  import opened CacheThreadTheorems
  import F = CacheFlights

  // The store holds no answer but the one that lives in L1.
  predicate InStep(s: State, key: string) {
    key in s.l1 && Live(s.l1[key].entry, s.now) && key in s.l2 ==>
      s.l2[key].entry.inProgress || s.l2[key].entry == s.l1[key].entry
  }

  /* ---------- what a thread is doing to a key ---------- */

  // The entry written to L1 that has still to be written to the store.
  function Pending(pc: Pc, key: string): Option<Entry> {
    match pc
    case Filling(f, FillPut(j, e, _, _)) => if j < |f.keys| && f.keys[j].value == key then Some(e) else None
    case Saving(keys, _, StorePut(w, _)) => if w.j < |keys| && keys[w.j].value == key then Some(w.entry) else None
    case _ => None
  }

  // The answer read from the store that has still to be written to L1.
  function Promoting(pc: Pc, key: string): Option<Entry> {
    match pc
    case Looking(keys, _, L2Decode(i, _, slot)) =>
      if i < |keys| && keys[i].value == key && !slot.entry.inProgress then Some(slot.entry) else None
    case Looking(keys, _, PromoteRead(i, hit, _)) => if i < |keys| && keys[i].value == key then Some(hit) else None
    case Looking(keys, _, PromoteSet(i, hit, _, _)) => if i < |keys| && keys[i].value == key then Some(hit) else None
    case _ => None
  }

  // About to write an answer under the key: to L1, and to the store.
  predicate SetsAt(pc: Pc, key: string) {
    match pc
    case Filling(f, FillSet(j, _, _, _)) => j < |f.keys| && f.keys[j].value == key
    case Saving(keys, _, StoreSet(w, _)) => w.j < |keys| && keys[w.j].value == key
    case _ => false
  }

  // About to read an answer under the key from the store.
  predicate ReadsAt(s: State, pc: Pc, key: string) {
    match pc
    case Looking(keys, _, L2Read(i, _)) => i < |keys| && keys[i].value == key && key in s.l2 && !s.l2[key].entry.inProgress
    case _ => false
  }

  ghost predicate OtherPending(s: State, t: Id, key: string) {
    exists u :: u in s.threads && u != t && Pending(s.threads[u], key).Some?
  }

  ghost predicate OtherPromoting(s: State, t: Id, key: string) {
    exists u :: u in s.threads && u != t && Promoting(s.threads[u], key).Some?
  }

  /** The discipline: no answer under the key fails to be written, none begins
      to be written while another thread is between its own two writes of the
      key or promotes it, and none is read to be promoted while another thread is
      between its two writes. Markers, drops and the clock are free. */
  ghost predicate InTurn(s: State, a: Step, key: string) {
    a.Move? && a.t in s.threads ==>
      var pc := s.threads[a.t];
      && (SetsAt(pc, key) ==> !a.c.fails && !OtherPending(s, a.t, key) && !OtherPromoting(s, a.t, key))
      && (Pending(pc, key).Some? ==> !a.c.fails)
      && (ReadsAt(s, pc, key) && !a.c.fails ==> !OtherPending(s, a.t, key))
  }

  ghost predicate TakesTurns(cfg: Config, s: State, run: seq<Step>, key: string)
    requires Legal(cfg, s, run)
    decreases |run|
  {
    if run == [] then true else InTurn(s, run[0], key) && TakesTurns(cfg, Apply(cfg, s, run[0]), run[1..], key)
  }

  /* ---------- the invariant ---------- */

  ghost predicate Sound(s: State, key: string, u: Id)
    requires u in s.threads
  {
    var p, q := Pending(s.threads[u], key), Promoting(s.threads[u], key);
    && (p.Some? && key in s.l1 && Live(s.l1[key].entry, s.now) ==> s.l1[key].entry == p.value)
    && (p.Some? ==> !OtherPending(s, u, key) && !OtherPromoting(s, u, key))
    && (q.Some? && key in s.l2 ==> s.l2[key].entry.inProgress || s.l2[key].entry == q.value)
  }

  ghost predicate AnyPending(s: State, key: string) { exists u :: u in s.threads && Pending(s.threads[u], key).Some? }

  ghost predicate Steady(s: State, key: string) {
    && (forall u :: u in s.threads ==> Sound(s, key, u))
    && (!AnyPending(s, key) ==> InStep(s, key))
  }

  // Thread `t` has moved to `pc`; what the layers hold under other keys is not said.
  predicate MovedTo(s: State, s': State, t: Id, pc: Pc) {
    t in s.threads && s'.threads == s.threads[t := pc] && s'.now == s.now
  }

  predicate SameLocal(s: State, s': State, key: string) {
    (key in s'.l1 <==> key in s.l1) && (key in s.l1 ==> s'.l1[key].entry == s.l1[key].entry)
  }

  predicate SameStore(s: State, s': State, key: string) {
    (key in s'.l2 <==> key in s.l2) && (key in s.l2 ==> s'.l2[key].entry == s.l2[key].entry)
  }

  // The store is left alone, or has been given a marker.
  predicate StoreMarked(s: State, s': State, key: string) {
    SameStore(s, s', key) || (key in s'.l2 && s'.l2[key].entry.inProgress)
  }

  lemma QuietStep(s: State, s': State, t: Id, pc: Pc, key: string)
    requires Steady(s, key) && MovedTo(s, s', t, pc) && SameLocal(s, s', key) && StoreMarked(s, s', key)
    requires Pending(s.threads[t], key).None? && Pending(pc, key).None?
    requires Promoting(pc, key).Some? ==> Promoting(pc, key) == Promoting(s.threads[t], key)
    ensures Steady(s', key)
  {
    forall u | u in s'.threads ensures Sound(s', key, u) { assert Sound(s, key, u); }
    if AnyPending(s, key) {
      var u :| u in s.threads && Pending(s.threads[u], key).Some?;
      assert u in s'.threads && s'.threads[u] == s.threads[u];
    }
  }

  // A read of the store's answer.
  lemma ReadStep(s: State, s': State, t: Id, pc: Pc, key: string)
    requires Steady(s, key) && MovedTo(s, s', t, pc) && SameLocal(s, s', key) && SameStore(s, s', key)
    requires Pending(s.threads[t], key).None? && Pending(pc, key).None? && !OtherPending(s, t, key)
    requires key in s.l2 && Promoting(pc, key) == Some(s.l2[key].entry)
    ensures Steady(s', key)
  {
    forall u | u in s'.threads ensures Sound(s', key, u) { assert u in s.threads && Sound(s, key, u); }
  }

  // The promoted answer is written to L1, or is not.
  lemma PromoteStep(s: State, s': State, t: Id, pc: Pc, key: string, e: Entry)
    requires Steady(s, key) && MovedTo(s, s', t, pc) && SameStore(s, s', key)
    requires SameLocal(s, s', key) || (key in s'.l1 && s'.l1[key].entry == e)
    requires Promoting(s.threads[t], key) == Some(e) && Pending(s.threads[t], key).None?
    requires Pending(pc, key).None? && Promoting(pc, key).None?
    ensures Steady(s', key)
  {
    assert Sound(s, key, t);
    forall u | u in s'.threads ensures Sound(s', key, u) {
      assert u in s.threads && Sound(s, key, u);
      assert u != t && Pending(s.threads[u], key).Some? ==> OtherPromoting(s, u, key);
    }
  }

  // The first of two writes.
  lemma SetStep(s: State, s': State, t: Id, pc: Pc, key: string, e: Entry)
    requires Steady(s, key) && MovedTo(s, s', t, pc) && SameStore(s, s', key)
    requires key in s'.l1 && s'.l1[key].entry == e && Pending(pc, key) == Some(e) && Promoting(pc, key).None?
    requires !OtherPending(s, t, key) && !OtherPromoting(s, t, key)
    ensures Steady(s', key)
  {
    forall u | u in s'.threads ensures Sound(s', key, u) {
      if u != t { assert u in s.threads && Pending(s.threads[u], key).None? && Promoting(s.threads[u], key).None?; }
    }
    assert Pending(s'.threads[t], key).Some?;
  }

  // The second of two writes.
  lemma PutStep(s: State, s': State, t: Id, pc: Pc, key: string, e: Entry)
    requires Steady(s, key) && MovedTo(s, s', t, pc) && SameLocal(s, s', key)
    requires key in s'.l2 && s'.l2[key].entry == e && Pending(s.threads[t], key) == Some(e)
    requires Pending(pc, key).None? && Promoting(pc, key).None?
    ensures Steady(s', key)
  {
    assert Sound(s, key, t);
    forall u | u in s'.threads ensures Sound(s', key, u) {
      if u != t { assert u in s.threads && Pending(s.threads[u], key).None? && Promoting(s.threads[u], key).None?; }
    }
  }

  // The clock, a new call, an entry that a layer drops.
  lemma PassiveStep(cfg: Config, s: State, a: Step, key: string)
    requires Steady(s, key) && Enabled(cfg, s, a) && !a.Move?
    ensures Steady(Apply(cfg, s, a), key)
  {
    var s' := Apply(cfg, s, a);
    MillisMonotone(s.now, s'.now);
    forall u | u in s'.threads ensures Sound(s', key, u) {
      if u in s.threads { assert Sound(s, key, u); }
    }
    if AnyPending(s, key) {
      var u :| u in s.threads && Pending(s.threads[u], key).Some?;
      assert u in s'.threads && s'.threads[u] == s.threads[u];
    }
  }

  /* ---------- every step, every run ---------- */

  lemma LookSteady(cfg: Config, s: State, t: Id, keys: Keys, timeout: int, l: Looker, c: Choice, key: string)
    requires Steady(s, key) && t in s.threads && s.threads[t] == Looking(keys, timeout, l) && InTurn(s, Move(t, c), key)
    ensures Steady(LookStep(s, t, keys, timeout, l, c), key)
  {
    var s', pc := LookStep(s, t, keys, timeout, l, c), LookNext(s, keys, timeout, l, c);
    if l.L2Read? && Promoting(pc, key).Some? {
      ReadStep(s, s', t, pc, key);
    } else if l.PromoteSet? && l.i < |keys| && keys[l.i].value == key {
      PromoteStep(s, s', t, pc, key, l.hit);
    } else {
      QuietStep(s, s', t, pc, key);
    }
  }

  lemma FillSteady(cfg: Config, s: State, t: Id, f: Fill, g: Filler, c: Choice, key: string)
    requires Steady(s, key) && t in s.threads && s.threads[t] == Filling(f, g) && InTurn(s, Move(t, c), key)
    ensures Steady(FillStep(cfg, s, t, f, g, c), key)
  {
    var s', pc := FillStep(cfg, s, t, f, g, c), FillNext(cfg, s, f, g, c);
    if g.FillSet? && g.j < |f.keys| && f.keys[g.j].value == key {
      SetStep(s, s', t, pc, key, g.e);
    } else if g.FillPut? && g.j < |f.keys| && f.keys[g.j].value == key {
      PutStep(s, s', t, pc, key, g.e);
    } else {
      QuietStep(s, s', t, pc, key);
    }
  }

  lemma SaveSteady(cfg: Config, s: State, t: Id, keys: Keys, timeout: int, v: Saver, c: Choice, key: string)
    requires Steady(s, key) && t in s.threads && s.threads[t] == Saving(keys, timeout, v) && InTurn(s, Move(t, c), key)
    requires v.MarkPut? ==> v.e.inProgress
    ensures Steady(SaveStep(cfg, s, t, keys, timeout, v, c), key)
  {
    var s' := SaveStep(cfg, s, t, keys, timeout, v, c);
    if v.StoreSet? && v.w.j < |keys| && keys[v.w.j].value == key {
      SetStep(s, s', t, s'.threads[t], key, v.w.entry);
    } else if v.StorePut? && v.w.j < |keys| && keys[v.w.j].value == key {
      PutStep(s, s', t, s'.threads[t], key, v.w.entry);
    } else {
      SaveElsewhere(cfg, s, t, keys, timeout, v, c, key);
    }
  }

  // A marker, a step on another key, or none on the layers.
  lemma SaveElsewhere(cfg: Config, s: State, t: Id, keys: Keys, timeout: int, v: Saver, c: Choice, key: string)
    requires Steady(s, key) && t in s.threads && s.threads[t] == Saving(keys, timeout, v) && InTurn(s, Move(t, c), key)
    requires v.MarkPut? ==> v.e.inProgress
    requires v.StoreSet? || v.StorePut? ==> v.w.j >= |keys| || keys[v.w.j].value != key
    ensures Steady(SaveStep(cfg, s, t, keys, timeout, v, c), key)
  {
    var s' := SaveStep(cfg, s, t, keys, timeout, v, c);
    QuietStep(s, s', t, s'.threads[t], key);
  }

  lemma StepSteady(cfg: Config, s: State, a: Step, key: string)
    requires Inv(cfg, s) && Steady(s, key) && Enabled(cfg, s, a) && InTurn(s, a, key)
    ensures Steady(Apply(cfg, s, a), key)
  {
    if a.Move? {
      assert ThreadOk(cfg, s, s.threads[a.t]);
      match s.threads[a.t]
      case Looking(keys, timeout, l) => LookSteady(cfg, s, a.t, keys, timeout, l, a.c, key);
      case Filling(f, g) => FillSteady(cfg, s, a.t, f, g, a.c, key);
      case Saving(keys, timeout, v) => SaveSteady(cfg, s, a.t, keys, timeout, v, a.c, key);
    } else {
      PassiveStep(cfg, s, a, key);
    }
  }

  lemma {:induction false} RunSteady(cfg: Config, s: State, run: seq<Step>, key: string)
    requires WholePolicy(cfg.policy) && Inv(cfg, s) && Steady(s, key) && Legal(cfg, s, run) && TakesTurns(cfg, s, run, key)
    ensures Steady(Run(cfg, s, run), key)
    decreases |run|
  {
    if run != [] {
      StepInv(cfg, s, run[0]);
      StepSteady(cfg, s, run[0], key);
      RunSteady(cfg, Apply(cfg, s, run[0]), run[1..], key);
    }
  }

  /** In every run in which the threads take turns on a key, its live L1 entry is
      the only answer under it: the store holds the same, or a marker, or nothing;
      while one thread is between its two writes, L1 holds what it is writing. */
  lemma TurnsKeepStep(cfg: Config, run: seq<Step>, key: string)
    requires WholePolicy(cfg.policy) && Legal(cfg, Init, run) && TakesTurns(cfg, Init, run, key)
    ensures var s := Run(cfg, Init, run);
      || InStep(s, key)
      || exists u :: u in s.threads && Pending(s.threads[u], key).Some?
           && (key in s.l1 && Live(s.l1[key].entry, s.now) ==> Pending(s.threads[u], key) == Some(s.l1[key].entry))
  {
    RunSteady(cfg, Init, run, key);
    var s := Run(cfg, Init, run);
    if AnyPending(s, key) {
      var u :| u in s.threads && Pending(s.threads[u], key).Some?;
      assert Sound(s, key, u);
    }
  }

  /* ---------- one section, exactly ---------- */

  // What a run last did to a key of a layer.
  datatype Last = Nothing | Dropped | Wrote(e: Entry)

  function Over(earlier: Last, later: Last): Last { if later.Nothing? then earlier else later }

  // What one step does to the key in L1, and in the store.
  function LocalEffect(s: State, a: Step, key: string): Last {
    match a
    case DropL1(k) => if k == key then Dropped else Nothing
    case Move(t, c) =>
      if t !in s.threads || c.fails then Nothing
      else (match s.threads[t] {
        case Looking(keys, _, PromoteSet(i, hit, _, _)) => if i < |keys| && keys[i].value == key then Wrote(hit) else Nothing
        case Filling(f, FillSet(j, e, _, _)) => if j < |f.keys| && f.keys[j].value == key then Wrote(e) else Nothing
        case Saving(keys, _, StoreSet(w, _)) => if w.j < |keys| && keys[w.j].value == key then Wrote(w.entry) else Nothing
        case _ => Nothing
      })
    case _ => Nothing
  }

  function StoreEffect(s: State, a: Step, key: string): Last {
    match a
    case DropL2(k) => if k == key then Dropped else Nothing
    case Move(t, c) =>
      if t !in s.threads || c.fails then Nothing
      else (match s.threads[t] {
        case Filling(f, FillPut(j, e, _, _)) => if j < |f.keys| && f.keys[j].value == key then Wrote(e) else Nothing
        case Saving(keys, _, MarkPut(j, e)) => if j < |keys| && keys[j].value == key then Wrote(e) else Nothing
        case Saving(keys, _, StorePut(w, _)) => if w.j < |keys| && keys[w.j].value == key then Wrote(w.entry) else Nothing
        case _ => Nothing
      })
    case _ => Nothing
  }

  ghost function LastLocal(cfg: Config, s: State, run: seq<Step>, key: string): Last
    requires Legal(cfg, s, run)
    decreases |run|
  {
    if run == [] then Nothing else Over(LocalEffect(s, run[0], key), LastLocal(cfg, Apply(cfg, s, run[0]), run[1..], key))
  }

  ghost function LastStore(cfg: Config, s: State, run: seq<Step>, key: string): Last
    requires Legal(cfg, s, run)
    decreases |run|
  {
    if run == [] then Nothing else Over(StoreEffect(s, run[0], key), LastStore(cfg, Apply(cfg, s, run[0]), run[1..], key))
  }

  // The layer holds what was last written.
  predicate Reads(m: map<string, Slot>, m': map<string, Slot>, key: string, last: Last) {
    match last
    case Nothing => (key in m' <==> key in m) && (key in m ==> m'[key] == m[key])
    case Dropped => key !in m'
    case Wrote(e) => key in m' && m'[key].entry == e
  }

  lemma StepEffects(cfg: Config, s: State, a: Step, key: string)
    requires Enabled(cfg, s, a)
    ensures Reads(s.l1, Apply(cfg, s, a).l1, key, LocalEffect(s, a, key))
    ensures Reads(s.l2, Apply(cfg, s, a).l2, key, StoreEffect(s, a, key))
  {
    if a.Move? {
      match s.threads[a.t]
      case Looking(_, _, _) =>
      case Filling(_, _) =>
      case Saving(keys, timeout, v) => SaveEffects(cfg, s, a.t, keys, timeout, v, a.c, key);
    }
  }

  lemma SaveEffects(cfg: Config, s: State, t: Id, keys: Keys, timeout: int, v: Saver, c: Choice, key: string)
    requires t in s.threads && s.threads[t] == Saving(keys, timeout, v)
    ensures var s' := SaveStep(cfg, s, t, keys, timeout, v, c);
      && Reads(s.l1, s'.l1, key, LocalEffect(s, Move(t, c), key))
      && Reads(s.l2, s'.l2, key, StoreEffect(s, Move(t, c), key))
  {
  }

  lemma {:induction false} RunEffects(cfg: Config, s: State, run: seq<Step>, key: string)
    requires Legal(cfg, s, run)
    ensures Reads(s.l1, Run(cfg, s, run).l1, key, LastLocal(cfg, s, run, key))
    ensures Reads(s.l2, Run(cfg, s, run).l2, key, LastStore(cfg, s, run, key))
    decreases |run|
  {
    if run != [] {
      StepEffects(cfg, s, run[0], key);
      RunEffects(cfg, Apply(cfg, s, run[0]), run[1..], key);
    }
  }

  // Nothing was written since that could contradict the answer.
  predicate Harmless(last: Last, e: Entry, now: nat) { last.Wrote? ==> last.e == e || last.e.inProgress || !Live(last.e, now) }

  /** A thread that has written L1 and then the store leaves the key in step
      exactly when what others last wrote to L1 in between, if anything, is the
      same entry, or dead, or dropped again. */
  lemma WriteExactly(cfg: Config, s: State, t: Id, c: Choice, between: seq<Step>, c': Choice, key: string)
    requires Inv(cfg, s) && WholePolicy(cfg.policy) && t in s.threads && SetsAt(s.threads[t], key) && !c.fails && !c'.fails
    requires var s1 := Apply(cfg, s, Move(t, c)); Legal(cfg, s1, between) && F.NotBy(between, t)
    ensures var s1 := Apply(cfg, s, Move(t, c));
      var s2 := Run(cfg, s1, between);
      && t in s1.threads && Pending(s1.threads[t], key).Some? && Enabled(cfg, s2, Move(t, c'))
      && (InStep(Apply(cfg, s2, Move(t, c')), key) <==>
          Harmless(LastLocal(cfg, s1, between, key), Pending(s1.threads[t], key).value, s2.now))
  {
    var s1 := Apply(cfg, s, Move(t, c));
    SetThenPending(cfg, s, t, c, key);
    F.Meanwhile(cfg, s1, between, t);
    RunEffects(cfg, s1, between, key);
    var s2 := Run(cfg, s1, between);
    StepInv(cfg, s, Move(t, c));
    RunInv(cfg, s1, between);
    PutThenBoth(cfg, s2, t, c', key);
    LocalNoMarker(cfg, s2, key);
  }

  lemma LocalNoMarker(cfg: Config, s: State, key: string)
    requires Inv(cfg, s)
    ensures key in s.l1 ==> !s.l1[key].entry.inProgress
  {
  }

  lemma SetThenPending(cfg: Config, s: State, t: Id, c: Choice, key: string)
    requires t in s.threads && SetsAt(s.threads[t], key) && !c.fails
    ensures var s1 := Apply(cfg, s, Move(t, c));
      && t in s1.threads && Pending(s1.threads[t], key).Some?
      && key in s1.l1 && s1.l1[key].entry == Pending(s1.threads[t], key).value
  {
    match s.threads[t]
    case Filling(_, _) =>
    case Saving(_, _, _) =>
  }

  lemma PutThenBoth(cfg: Config, s: State, t: Id, c: Choice, key: string)
    requires Inv(cfg, s) && t in s.threads && Pending(s.threads[t], key).Some? && !c.fails
    ensures Enabled(cfg, s, Move(t, c))
    ensures var s' := Apply(cfg, s, Move(t, c));
      && s'.l1 == s.l1 && s'.now == s.now && key in s'.l2 && s'.l2[key].entry == Pending(s.threads[t], key).value
      && !s'.l2[key].entry.inProgress
  {
    assert ThreadOk(cfg, s, s.threads[t]);
    match s.threads[t]
    case Filling(_, _) =>
    case Saving(_, _, _) =>
  }

  // What became of the entry that the thread read from the store under key `i`:
  // it is still on its way to L1, or the thread is past that key.
  predicate Carries(pc: Pc, i: nat, e: Entry) {
    pc.Looking? ==> match pc.l
      case L1Read(_) => false
      case L1Decode(_, _) => false
      case L2Read(n, _) => n > i
      case L2Decode(n, _, slot) => n > i || (n == i && slot.entry == e)
      case PromoteRead(n, hit, _) => n > i || (n == i && hit == e)
      case PromoteSet(n, hit, _, _) => n > i || (n == i && hit == e)
      case FillRead(_, _, _, _) => true
  }

  lemma {:induction false} CarriesOn(cfg: Config, s: State, run: seq<Step>, t: Id, i: nat, e: Entry)
    requires Legal(cfg, s, run) && t in s.threads && Carries(s.threads[t], i, e)
    ensures var s' := Run(cfg, s, run); t in s'.threads && Carries(s'.threads[t], i, e)
    decreases |run|
  {
    if run != [] {
      CarriesStep(cfg, s, run[0], t, i, e);
      CarriesOn(cfg, Apply(cfg, s, run[0]), run[1..], t, i, e);
    }
  }

  lemma CarriesStep(cfg: Config, s: State, a: Step, t: Id, i: nat, e: Entry)
    requires Enabled(cfg, s, a) && t in s.threads && Carries(s.threads[t], i, e)
    ensures var s' := Apply(cfg, s, a); t in s'.threads && Carries(s'.threads[t], i, e)
  {
    if a.Move? && a.t == t {
      match s.threads[t]
      case Looking(_, _, _) =>
      case Filling(_, _) =>
      case Saving(_, _, _) =>
    } else {
      F.OtherStep(cfg, s, a, t);
    }
  }

  // The run begins with the thread's read of an answer under its key `i`, and
  // brings it to where it promotes that key.
  ghost predicate Promotes(cfg: Config, s: State, t: Id, run: seq<Step>, i: nat, key: string) {
    && Legal(cfg, s, run) && run != [] && run[0].Move? && run[0].t == t && !run[0].c.fails
    && t in s.threads && ReadsAt(s, s.threads[t], key) && s.threads[t].l.i == i
    && var s2 := Run(cfg, s, run);
       t in s2.threads && s2.threads[t].Looking? && s2.threads[t].l.PromoteSet? && s2.threads[t].l.i == i
  }

  lemma Promoted(cfg: Config, s: State, t: Id, run: seq<Step>, i: nat, key: string)
    requires Promotes(cfg, s, t, run, i, key)
    ensures var pc := Run(cfg, s, run).threads[t];
      i < |pc.keys| && pc.keys[i].value == key && pc.l.hit == s.l2[key].entry
  {
    CarriesOn(cfg, Apply(cfg, s, run[0]), run[1..], t, i, s.l2[key].entry);
    KeepsKeys(cfg, Apply(cfg, s, run[0]), run[1..], t, s.threads[t].keys);
  }

  // A thread that looks up keeps to its key list.
  lemma {:induction false} KeepsKeys(cfg: Config, s: State, run: seq<Step>, t: Id, keys: Keys)
    requires Legal(cfg, s, run) && t in s.threads && (s.threads[t].Looking? ==> s.threads[t].keys == keys)
    ensures var s' := Run(cfg, s, run); t in s'.threads && (s'.threads[t].Looking? ==> s'.threads[t].keys == keys)
    decreases |run|
  {
    if run != [] {
      if run[0].Move? && run[0].t == t { KeepsKeysStep(cfg, s, t, run[0].c); } else { F.OtherStep(cfg, s, run[0], t); }
      KeepsKeys(cfg, Apply(cfg, s, run[0]), run[1..], t, keys);
    }
  }

  lemma KeepsKeysStep(cfg: Config, s: State, t: Id, c: Choice)
    requires Enabled(cfg, s, Move(t, c))
    ensures var pc, s' := s.threads[t], Apply(cfg, s, Move(t, c));
      t in s'.threads && (s'.threads[t].Looking? ==> pc.Looking? && s'.threads[t].keys == pc.keys)
  {
    match s.threads[t]
    case Looking(_, _, _) =>
    case Filling(_, _) =>
    case Saving(_, _, _) =>
  }

  /** A thread that reads an answer from the store and later writes it to L1
      leaves the key in step exactly when the answer is dead by then, or what was
      last written to the store since the read, if anything, is the same entry,
      or a marker, or dropped again. */
  lemma PromoteExactly(cfg: Config, s: State, t: Id, run: seq<Step>, i: nat, key: string, c: Choice)
    requires Promotes(cfg, s, t, run, i, key) && !c.fails
    ensures var s2, e, last := Run(cfg, s, run), s.l2[key].entry, LastStore(cfg, s, run, key);
      && Enabled(cfg, s2, Move(t, c))
      && (InStep(Apply(cfg, s2, Move(t, c)), key) <==>
          (Live(e, s2.now) && last.Wrote? ==> last.e == e || last.e.inProgress))
  {
    Promoted(cfg, s, t, run, i, key);
    RunEffects(cfg, s, run, key);
  }

  /* ---------- a race ---------- */

  function Reply(name: string): Api { Body(false, [EID("s", ["u"])], name, None, Some(5000)) }

  function Reported(name: string): Response { Classify(Reply(name)) }

  function PutOf(name: string): Put { Put([A], Reported(name), 0, 0, StoredEntry(Reported(name), 5 * SECOND, 0)) }

  // The thread has its answer and is about to write it to L1.
  lemma Replied(cfg: Config, s: State, t: Id, name: string) returns (s': State)
    requires cfg.policy == TenSeconds && Calmly(cfg, s) && s.now == 0
    requires t in s.threads && s.threads[t] == Saving([A], 1, Calling)
    ensures Calmly(cfg, s') && s'.now == 0 && s'.l1 == s.l1 && s'.l2 == s.l2
    ensures s'.threads == s.threads[t := Saving([A], 1, StoreSet(PutOf(name), 5 * SECOND))]
  {
    var c := Choice(false, Reply(name));
    CalmExtend(cfg, s, Move(t, c));
    s' := Apply(cfg, s, Move(t, c));
    assert s'.threads[t] == Saving([A], 1, StoreRead(Reported(name), 0));
    CalmExtend(cfg, s', Move(t, Fine));
    s' := Apply(cfg, s', Move(t, Fine));
  }

  lemma Sets(cfg: Config, s: State, t: Id, name: string) returns (s': State)
    requires Calmly(cfg, s) && s.now == 0
    requires t in s.threads && s.threads[t] == Saving([A], 1, StoreSet(PutOf(name), 5 * SECOND))
    ensures Calmly(cfg, s') && s'.now == 0 && s'.l2 == s.l2
    ensures "a" in s'.l1 && s'.l1["a"].entry == PutOf(name).entry
    ensures s'.threads == s.threads[t := Saving([A], 1, StorePut(PutOf(name), 5 * SECOND))]
  {
    CalmExtend(cfg, s, Move(t, Fine));
    s' := Apply(cfg, s, Move(t, Fine));
  }

  lemma Puts(cfg: Config, s: State, t: Id, name: string) returns (s': State)
    requires Calmly(cfg, s) && s.now == 0
    requires t in s.threads && s.threads[t] == Saving([A], 1, StorePut(PutOf(name), 5 * SECOND))
    ensures Calmly(cfg, s') && s'.now == 0 && s'.l1 == s.l1
    ensures "a" in s'.l2 && s'.l2["a"].entry == PutOf(name).entry && s'.l2["a"].tag.Some?
    ensures s'.threads == s.threads[t := Done([A], Reported(name))]
  {
    CalmExtend(cfg, s, Move(t, Fine));
    s' := Apply(cfg, s, Move(t, Fine));
    CalmExtend(cfg, s', Move(t, Fine));
    s' := Apply(cfg, s', Move(t, Fine));
  }

  /** Two calls that write the same key at once can leave it out of step for
      good, with no access failing, nothing dropped and the clock still: both are
      done, and the layers hold different live answers. */
  lemma RaceBreaksStep(cfg: Config) returns (s: State)
    requires cfg.policy == TenSeconds && !cfg.typed
    ensures Calmly(cfg, s) && s.threads.Keys == {1, 2} && s.threads[1].Done? && s.threads[2].Done?
    ensures "a" in s.l1 && "a" in s.l2 && Live(s.l1["a"].entry, s.now) && Live(s.l2["a"].entry, s.now)
    ensures !s.l2["a"].entry.inProgress && s.l1["a"].entry != s.l2["a"].entry && !InStep(s, "a")
  {
    s := BothCall(cfg);
    s := Replied(cfg, s, 1, "one");
    s := Replied(cfg, s, 2, "two");
    s := Sets(cfg, s, 1, "one");
    s := Sets(cfg, s, 2, "two");
    s := Puts(cfg, s, 2, "two");
    s := Puts(cfg, s, 1, "one");
    assert PutOf("one").entry.abTestUuid != PutOf("two").entry.abTestUuid;
  }

  // It reads "a" from the store and is about to write it to L1.
  lemma ReadsAnswer(cfg: Config, s: State, t: Id, name: string) returns (s': State, tag: Tag)
    requires Calmly(cfg, s) && s.now == 0 && t in s.threads && s.threads[t] == Looking([A], 1, L2Read(0, None))
    requires "a" in s.l2 && s.l2["a"].entry == PutOf(name).entry && s.l2["a"].tag.Some?
    ensures Calmly(cfg, s') && s'.now == 0 && s'.l1 == s.l1 && s'.l2 == s.l2
    ensures s'.threads == s.threads[t := Looking([A], 1, PromoteSet(0, PutOf(name).entry, tag, 5 * SECOND))]
  {
    tag := s.l2["a"].tag.value;
    s' := Pass(cfg, s, t, Fine, Looking([A], 1, L2Decode(0, None, s.l2["a"])));
    s' := Pass(cfg, s', t, Fine, Looking([A], 1, PromoteRead(0, PutOf(name).entry, tag)));
    s' := Pass(cfg, s', t, Fine, Looking([A], 1, PromoteSet(0, PutOf(name).entry, tag, 5 * SECOND)));
  }

  // Two calls are about to store different answers, and a third has not found
  // "a" in L1.
  lemma ThreeCalls(cfg: Config) returns (s: State)
    requires cfg.policy == TenSeconds && !cfg.typed
    ensures Calmly(cfg, s) && s.now == 0 && s.threads.Keys == {1, 2, 3}
    ensures s.threads[1] == Saving([A], 1, StoreSet(PutOf("one"), 5 * SECOND))
    ensures s.threads[2] == Saving([A], 1, StoreSet(PutOf("two"), 5 * SECOND))
    ensures s.threads[3] == Looking([A], 1, L2Read(0, None))
  {
    s := ThirdCall(cfg);
    s := Replied(cfg, s, 1, "one");
    s := SecondReply(cfg, s);
  }

  lemma SecondReply(cfg: Config, s: State) returns (s': State)
    requires cfg.policy == TenSeconds && Calmly(cfg, s) && s.now == 0
    requires 2 in s.threads && s.threads[2] == Saving([A], 1, Calling)
    ensures Calmly(cfg, s') && s'.now == 0
    ensures s'.threads == s.threads[2 := Saving([A], 1, StoreSet(PutOf("two"), 5 * SECOND))]
  {
    s' := Replied(cfg, s, 2, "two");
  }

  lemma ThirdCall(cfg: Config) returns (s: State)
    requires !cfg.typed
    ensures Calmly(cfg, s) && s.now == 0
    ensures s.threads == map[1 := Saving([A], 1, Calling), 2 := Saving([A], 1, Calling), 3 := Looking([A], 1, L2Read(0, None))]
  {
    s := BothCall(cfg);
    s := MissesLocally(cfg, s, 3);
  }

  /** A promotion that a write overtakes does the same, though no thread acts
      between another's two writes: the third call promotes the answer of the
      first after the second has stored its own in both layers. */
  lemma PromotionBreaksStep(cfg: Config) returns (s: State)
    requires cfg.policy == TenSeconds && !cfg.typed
    ensures Calmly(cfg, s) && s.threads.Keys == {1, 2, 3} && s.threads[1].Done? && s.threads[2].Done?
    ensures "a" in s.l1 && "a" in s.l2 && Live(s.l1["a"].entry, s.now) && Live(s.l2["a"].entry, s.now)
    ensures !s.l2["a"].entry.inProgress && s.l1["a"].entry != s.l2["a"].entry && !InStep(s, "a")
  {
    s := ThreeCalls(cfg);
    s := Sets(cfg, s, 1, "one");
    s := Puts(cfg, s, 1, "one");
    var tag: Tag;
    s, tag := ReadsAnswer(cfg, s, 3, "one");
    s := Sets(cfg, s, 2, "two");
    s := Puts(cfg, s, 2, "two");
    s := PromotesLate(cfg, s, 3, tag);
    assert PutOf("one").entry.abTestUuid != PutOf("two").entry.abTestUuid;
  }

  lemma PromotesLate(cfg: Config, s: State, t: Id, tag: Tag) returns (s': State)
    requires Calmly(cfg, s) && s.now == 0
    requires t in s.threads && s.threads[t] == Looking([A], 1, PromoteSet(0, PutOf("one").entry, tag, 5 * SECOND))
    ensures Calmly(cfg, s') && s'.now == 0 && s'.l2 == s.l2
    ensures "a" in s'.l1 && s'.l1["a"].entry == PutOf("one").entry
    ensures s'.threads == s.threads[t := Looking([A], 1, FillRead(0, PutOf("one").entry, tag, L2))]
  {
    CalmExtend(cfg, s, Move(t, Fine));
    s' := Apply(cfg, s, Move(t, Fine));
  }
}
