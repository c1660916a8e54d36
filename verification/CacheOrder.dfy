/** Two calls at once: when both of them reach the API, read off the order of
    their steps. Between a call's read of a key in the store and its marker for
    that key the other call can read it too; later than that it cannot. */
module CacheOrder {
  import opened CacheEntry
  import opened CacheThreads
  import opened CacheThreadProofs
  import opened CacheThreadTheorems
  import opened CacheFlights
  import CacheStability

  // The two calls and their keys.
  datatype Two = Two(t: Id, kt: Keys, u: Id, ku: Keys)

  function Flip(d: Two): Two { Two(d.u, d.ku, d.t, d.kt) }

  predicate Ours(d: Two, key: string) { Lists(d.kt, key) || Lists(d.ku, key) }

  /* ---------- how far a call has come ---------- */

  function KeysOf(pc: Pc): Keys {
    match pc
    case Looking(keys, _, _) => keys
    case Filling(f, _) => f.keys
    case Saving(keys, _, _) => keys
    case Served(keys, _, _, _, _) => keys
    case Waits(keys, _) => keys
    case Done(keys, _) => keys
  }

  function UpTo(n: nat, keys: Keys): nat { if n <= |keys| then n else |keys| }

  // How many of its keys it has read in the store.
  function ReadUpTo(pc: Pc): nat {
    match pc
    case Looking(keys, _, l) =>
      (match l {
        case L2Read(i, _) => UpTo(i, keys)
        case L2Decode(i, _, _) => i + 1
        case PromoteRead(i, _, _) => i + 1
        case PromoteSet(i, _, _, _) => i + 1
        case FillRead(i, _, _, layer) => if layer == L2 then i + 1 else 0
        case _ => 0
      })
    case Filling(f, _) => if f.layer == L2 then f.skip + 1 else 0
    case Served(_, i, _, _, layer) => if layer == L2 then i + 1 else 0
    case Waits(keys, _) => |keys|
    case Saving(keys, _, _) => |keys|
    case Done(keys, _) => |keys|
  }

  // For how many of its keys it has put the marker.
  function MarkedUpTo(pc: Pc): nat {
    match pc
    case Saving(keys, _, MarkRead(j)) => UpTo(j, keys)
    case Saving(keys, _, MarkPut(j, _)) => UpTo(j, keys)
    case Saving(keys, _, _) => |keys|
    case Done(keys, _) => |keys|
    case _ => 0
  }

  predicate Among(keys: Keys, n: nat, key: string) { exists j :: 0 <= j < n && j < |keys| && keys[j].value == key }

  predicate HasRead(pc: Pc, key: string) { Among(KeysOf(pc), ReadUpTo(pc), key) }

  predicate HasMarked(pc: Pc, key: string) { Among(KeysOf(pc), MarkedUpTo(pc), key) }

  // If the thread is about to put the marker of a key that the other one has,
  // the other one has read that key.
  predicate Orderly(pc: Pc, other: Pc, otherKeys: Keys) {
    match pc
    case Saving(keys, _, MarkPut(j, _)) => j < |keys| && Lists(otherKeys, keys[j].value) ==> HasRead(other, keys[j].value)
    case _ => true
  }

  /** Whenever `t` puts the marker of a key they share, `u` has read that key. */
  ghost predicate InOrder(cfg: Config, s: State, run: seq<Step>, d: Two)
    requires Legal(cfg, s, run)
    decreases |run|
  {
    if run == [] then true
    else
      && (run[0].Move? && run[0].t == d.t ==>
            d.t in s.threads && d.u in s.threads && Orderly(s.threads[d.t], s.threads[d.u], d.ku))
      && InOrder(cfg, Apply(cfg, s, run[0]), run[1..], d)
  }

  /* ---------- what is asked of the other steps, and of the entries ---------- */

  predicate SameSlot(m: map<string, Slot>, m': map<string, Slot>, key: string) {
    (key in m <==> key in m') && (key in m ==> m[key] == m'[key])
  }

  // L1 may lose an entry of theirs; otherwise both layers stay as they are there.
  ghost predicate Leaves(s: State, s': State, d: Two) {
    && (forall key :: Ours(d, key) && key in s'.l1 ==> key in s.l1 && s'.l1[key] == s.l1[key])
    && (forall key :: Ours(d, key) ==> SameSlot(s.l2, s'.l2, key))
  }

  predicate ByThem(a: Step, d: Two) { a.Move? && (a.t == d.t || a.t == d.u) }

  /** No step but theirs writes one of their keys, or drops it from the store. */
  ghost predicate Undisturbed(cfg: Config, s: State, run: seq<Step>, d: Two)
    requires Legal(cfg, s, run)
    decreases |run|
  {
    if run == [] then true
    else
      var s' := Apply(cfg, s, run[0]);
      (ByThem(run[0], d) || Leaves(s, s', d)) && Undisturbed(cfg, s', run[1..], d)
  }

  // A read or marker put that does not fail, and an entry that lives until `end`.
  predicate Lasting(pc: Pc, fails: bool, end: nat) {
    match pc
    case Looking(_, _, L2Read(_, _)) => !fails
    case Saving(_, _, MarkPut(_, e)) => !fails && Live(e, end)
    case Saving(_, _, StorePut(w, _)) => !fails ==> Live(w.entry, end)
    case _ => true
  }

  /** Their reads of the store and their markers do not fail, and what they put
      in the store lives until the end. */
  ghost predicate Kept(cfg: Config, s: State, run: seq<Step>, d: Two, end: nat)
    requires Legal(cfg, s, run)
    decreases |run|
  {
    if run == [] then true
    else
      && (ByThem(run[0], d) && run[0].t in s.threads ==> Lasting(s.threads[run[0].t], run[0].c.fails, end))
      && Kept(cfg, Apply(cfg, s, run[0]), run[1..], d, end)
  }

  // Both have begun, and nothing lives under their keys.
  ghost predicate Ready(s: State, d: Two) {
    && d.t != d.u && CacheStability.Distinct(d.kt) && CacheStability.Distinct(d.ku)
    && d.t in s.threads && s.threads[d.t].Looking? && s.threads[d.t].keys == d.kt && s.threads[d.t].l == L1Read(0)
    && d.u in s.threads && s.threads[d.u].Looking? && s.threads[d.u].keys == d.ku && s.threads[d.u].l == L1Read(0)
    && (forall key :: Ours(d, key) && key in s.l1 ==> !Live(s.l1[key].entry, s.now))
    && (forall key :: Ours(d, key) && key in s.l2 ==> !Live(s.l2[key].entry, s.now))
  }

  /* ---------- steps ---------- */

  lemma Later(cfg: Config, s: State, a: Step)
    requires Enabled(cfg, s, a)
    ensures s.now <= Apply(cfg, s, a).now
    ensures forall e: Entry :: Live(e, Apply(cfg, s, a).now) ==> Live(e, s.now)
  {
    var s' := Apply(cfg, s, a);
    assert s.now <= s'.now by {
      if a.Move? {
        match s.threads[a.t]
        case Looking(_, _, _) =>
        case Filling(_, _) =>
        case Saving(_, _, _) =>
      }
    }
    MillisMonotone(s.now, s'.now);
  }

  lemma {:induction false} EndsLater(cfg: Config, s: State, run: seq<Step>)
    requires Legal(cfg, s, run)
    ensures s.now <= Run(cfg, s, run).now
    decreases |run|
  {
    if run != [] {
      Later(cfg, s, run[0]);
      EndsLater(cfg, Apply(cfg, s, run[0]), run[1..]);
    }
  }

  // What one step of a call does to its keys and counts.
  lemma Advances(cfg: Config, s: State, t: Id, c: Choice)
    requires Inv(cfg, s) && Enabled(cfg, s, Move(t, c)) && (Searching(s.threads[t]) || Calls(s.threads[t]))
    ensures var pc, s' := s.threads[t], Apply(cfg, s, Move(t, c));
      && t in s'.threads && KeysOf(s'.threads[t]) == KeysOf(pc) && ReadUpTo(s'.threads[t]) >= ReadUpTo(pc)
      && MarkedUpTo(s'.threads[t]) ==
           (if pc.Saving? && pc.v.MarkPut? then UpTo(pc.v.j + 1, pc.keys) else MarkedUpTo(pc))
  {
    assert ThreadOk(cfg, s, s.threads[t]);
    if s.threads[t].Looking? { LookAdvances(cfg, s, s.threads[t].keys, s.threads[t].timeout, s.threads[t].l, c); }
  }

  lemma LookAdvances(cfg: Config, s: State, keys: Keys, timeout: int, l: Looker, c: Choice)
    requires LookerOk(cfg, s, keys, l) && Searching(Looking(keys, timeout, l))
    ensures var pc, pc' := Looking(keys, timeout, l), LookNext(s, keys, timeout, l, c);
      KeysOf(pc') == keys && ReadUpTo(pc') >= ReadUpTo(pc) && MarkedUpTo(pc') == 0
  {
  }

  lemma AmongMore(keys: Keys, n: nat, m: nat)
    requires n <= m
    ensures forall key :: Among(keys, n, key) ==> Among(keys, m, key)
  {
  }

  // A call writes a key only once it has put its marker.
  lemma WritesMarked(cfg: Config, s: State, t: Id, c: Choice, key: string)
    requires Inv(cfg, s) && Enabled(cfg, s, Move(t, c)) && (Searching(s.threads[t]) || Calls(s.threads[t]))
    ensures var s' := Apply(cfg, s, Move(t, c));
      && t in s'.threads && s'.now == s.now
      && (HasMarked(s'.threads[t], key) || (SameSlot(s.l1, s'.l1, key) && SameSlot(s.l2, s'.l2, key)))
  {
    if s.threads[t].Saving? { SaveMarked(cfg, s, t, s.threads[t].keys, s.threads[t].timeout, s.threads[t].v, c, key); }
  }

  lemma SaveMarked(cfg: Config, s: State, t: Id, keys: Keys, timeout: int, v: Saver, c: Choice, key: string)
    requires SaverOk(cfg, s, keys, timeout, v)
    ensures var s' := SaveStep(cfg, s, t, keys, timeout, v, c);
      && s'.now == s.now
      && (HasMarked(s'.threads[t], key) || (SameSlot(s.l1, s'.l1, key) && SameSlot(s.l2, s'.l2, key)))
  {
    match v
    case MarkPut(j, _) => if j < |keys| && keys[j].value == key { assert Among(keys, UpTo(j + 1, keys), key); }
    case StoreSet(w, _) => if keys[w.j].value == key { assert Among(keys, |keys|, key); }
    case StorePut(w, _) => if keys[w.j].value == key { assert Among(keys, |keys|, key); }
    case _ =>
  }

  /* ---------- in order, both call ---------- */

  // The entry that the thread is about to decode is dead.
  predicate DeadInHand(s: State, pc: Pc) {
    pc.Looking? ==> match pc.l
      case L1Decode(_, slot) => !Live(slot.entry, s.now)
      case L2Decode(_, _, slot) => !Live(slot.entry, s.now)
      case _ => true
  }

  ghost predicate Side(s: State, d: Two) {
    && d.t in s.threads && d.u in s.threads && KeysOf(s.threads[d.t]) == d.kt
    && (Searching(s.threads[d.t]) || Calls(s.threads[d.t])) && DeadInHand(s, s.threads[d.t])
    && (forall key :: Lists(d.ku, key) && HasMarked(s.threads[d.t], key) ==> HasRead(s.threads[d.u], key))
  }

  ghost predicate Marked(s: State, d: Two, key: string)
    requires d.t in s.threads && d.u in s.threads
  {
    HasMarked(s.threads[d.t], key) || HasMarked(s.threads[d.u], key)
  }

  // What lives under their keys is theirs.
  ghost predicate OwnEntries(s: State, d: Two)
    requires d.t in s.threads && d.u in s.threads
  {
    && (forall key :: Ours(d, key) && key in s.l1 && Live(s.l1[key].entry, s.now) ==> Marked(s, d, key))
    && (forall key :: Ours(d, key) && key in s.l2 && Live(s.l2[key].entry, s.now) ==> Marked(s, d, key))
  }

  ghost predicate Apart(s: State, d: Two) {
    && d.t != d.u && CacheStability.Distinct(d.kt) && CacheStability.Distinct(d.ku)
    && Side(s, d) && Side(s, Flip(d)) && OwnEntries(s, d)
  }

  lemma Flipped(s: State, d: Two)
    requires Apart(s, d)
    ensures Apart(s, Flip(d))
  {
    forall key ensures Ours(Flip(d), key) == Ours(d, key) && Marked(s, Flip(d), key) == Marked(s, d, key) { }
  }

  // What a call reads next under one of its keys is dead.
  lemma ReadsDead(s: State, d: Two, i: nat)
    requires Apart(s, d) && i < |d.kt| && s.threads[d.t].Looking?
    requires s.threads[d.t].l.L1Read? || (s.threads[d.t].l.L2Read? && s.threads[d.t].l.i == i)
    ensures d.kt[i].value in s.l1 ==> !Live(s.l1[d.kt[i].value].entry, s.now)
    ensures d.kt[i].value in s.l2 ==> !Live(s.l2[d.kt[i].value].entry, s.now)
  {
    var key := d.kt[i].value;
    assert Lists(d.kt, key) && Ours(d, key) && !HasMarked(s.threads[d.t], key);
    assert !HasRead(s.threads[d.t], key);
    assert !Marked(s, d, key);
  }

  lemma StaysDead(cfg: Config, s: State, d: Two, c: Choice)
    requires Inv(cfg, s) && Apart(s, d) && Enabled(cfg, s, Move(d.t, c))
    ensures var s' := Apply(cfg, s, Move(d.t, c));
      d.t in s'.threads && (Searching(s'.threads[d.t]) || Calls(s'.threads[d.t])) && DeadInHand(s', s'.threads[d.t])
  {
    OwnStep(cfg, s, d.t, c);
    var pc := s.threads[d.t];
    if pc.Looking? && (pc.l.L1Read? || pc.l.L2Read?) && pc.l.i < |d.kt| { ReadsDead(s, d, pc.l.i); }
  }

  // Their own step.
  lemma OwnApart(cfg: Config, s: State, d: Two, c: Choice)
    requires Inv(cfg, s) && Apart(s, d) && Enabled(cfg, s, Move(d.t, c))
    requires Orderly(s.threads[d.t], s.threads[d.u], d.ku)
    ensures Apart(Apply(cfg, s, Move(d.t, c)), d)
  {
    var s' := Apply(cfg, s, Move(d.t, c));
    StaysDead(cfg, s, d, c);
    Advances(cfg, s, d.t, c);
    OtherStep(cfg, s, Move(d.t, c), d.u);
    AmongMore(d.kt, ReadUpTo(s.threads[d.t]), ReadUpTo(s'.threads[d.t]));
    AmongMore(d.kt, MarkedUpTo(s.threads[d.t]), MarkedUpTo(s'.threads[d.t]));
    forall key | Lists(d.ku, key) && HasMarked(s'.threads[d.t], key) ensures HasRead(s'.threads[d.u], key) {
      MarksOne(s.threads[d.t], s'.threads[d.t], s.threads[d.u], d.ku, key);
    }
    StaysOwn(cfg, s, d, c);
  }

  lemma StaysOwn(cfg: Config, s: State, d: Two, c: Choice)
    requires Inv(cfg, s) && Apart(s, d) && Enabled(cfg, s, Move(d.t, c))
    requires var s' := Apply(cfg, s, Move(d.t, c));
      && d.t in s'.threads && d.u in s'.threads && s'.threads[d.u] == s.threads[d.u]
      && forall key :: HasMarked(s.threads[d.t], key) ==> HasMarked(s'.threads[d.t], key)
    ensures OwnEntries(Apply(cfg, s, Move(d.t, c)), d)
  {
    var s' := Apply(cfg, s, Move(d.t, c));
    forall key | Ours(d, key)
      ensures key in s'.l1 && Live(s'.l1[key].entry, s'.now) ==> Marked(s', d, key)
      ensures key in s'.l2 && Live(s'.l2[key].entry, s'.now) ==> Marked(s', d, key)
    {
      WritesMarked(cfg, s, d.t, c, key);
    }
  }

  lemma MarksOne(pc: Pc, pc': Pc, other: Pc, otherKeys: Keys, key: string)
    requires KeysOf(pc') == KeysOf(pc) && Orderly(pc, other, otherKeys) && Lists(otherKeys, key)
    requires MarkedUpTo(pc') == if pc.Saving? && pc.v.MarkPut? then UpTo(pc.v.j + 1, pc.keys) else MarkedUpTo(pc)
    requires HasMarked(pc', key) && (HasMarked(pc, key) ==> HasRead(other, key))
    ensures HasRead(other, key)
  {
  }

  // A step of another thread, of the clock or of a layer.
  lemma OtherApart(cfg: Config, s: State, a: Step, d: Two)
    requires Apart(s, d) && Enabled(cfg, s, a) && !ByThem(a, d) && Leaves(s, Apply(cfg, s, a), d)
    ensures Apart(Apply(cfg, s, a), d)
  {
    OtherStep(cfg, s, a, d.t);
    OtherStep(cfg, s, a, d.u);
    Later(cfg, s, a);
    var s' := Apply(cfg, s, a);
    assert forall key :: Ours(d, key) ==> SameSlot(s.l2, s'.l2, key);
  }

  lemma {:induction false} StaysApart(cfg: Config, s: State, run: seq<Step>, d: Two)
    requires WholePolicy(cfg.policy) && Inv(cfg, s) && Apart(s, d) && Legal(cfg, s, run)
    requires Undisturbed(cfg, s, run, d) && InOrder(cfg, s, run, d) && InOrder(cfg, s, run, Flip(d))
    ensures Apart(Run(cfg, s, run), d)
    decreases |run|
  {
    if run != [] {
      StepInv(cfg, s, run[0]);
      if !ByThem(run[0], d) {
        OtherApart(cfg, s, run[0], d);
      } else if run[0].t == d.t {
        OwnApart(cfg, s, d, run[0].c);
      } else {
        Flipped(s, d);
        OwnApart(cfg, s, Flip(d), run[0].c);
        Flipped(Apply(cfg, s, run[0]), Flip(d));
      }
      StaysApart(cfg, Apply(cfg, s, run[0]), run[1..], d);
    }
  }

  /* ---------- out of order, one is deflected ---------- */

  // `u` is deflected, or will be when it decodes an entry under the key that
  // lives until the end.
  ghost predicate Doomed(s: State, d: Two, key: string, end: nat) {
    && d.t in s.threads && d.u in s.threads && Calls(s.threads[d.t])
    && (Deflected(s.threads[d.u]) || DecodesAlive(s.threads[d.u], end)
        || (Searching(s.threads[d.u]) && KeysOf(s.threads[d.u]) == d.ku && Lists(d.ku, key)
            && !HasRead(s.threads[d.u], key) && key in s.l2 && Live(s.l2[key].entry, end)))
  }

  predicate DecodesAlive(pc: Pc, end: nat) {
    Searching(pc) && pc.l.L2Decode? && Live(pc.l.slot.entry, end)
  }

  lemma DoomedReads(cfg: Config, s: State, d: Two, c: Choice, key: string, end: nat)
    requires Inv(cfg, s) && Doomed(s, d, key, end) && d.t != d.u && s.now <= end
    requires Enabled(cfg, s, Move(d.u, c)) && Lasting(s.threads[d.u], c.fails, end)
    ensures Doomed(Apply(cfg, s, Move(d.u, c)), d, key, end)
  {
    OwnStep(cfg, s, d.u, c);
    OtherStep(cfg, s, Move(d.u, c), d.t);
    MillisMonotone(s.now, end);
    if Searching(s.threads[d.u]) {
      assert ThreadOk(cfg, s, s.threads[d.u]);
      LookDoomed(cfg, s, s.threads[d.u].keys, s.threads[d.u].timeout, s.threads[d.u].l, c, key, end);
    }
  }

  lemma LookDoomed(cfg: Config, s: State, keys: Keys, timeout: int, l: Looker, c: Choice, key: string, end: nat)
    requires LookerOk(cfg, s, keys, l) && s.now <= end && (l.L2Read? ==> !c.fails)
    requires var pc := Looking(keys, timeout, l);
      Searching(pc) && (DecodesAlive(pc, end) ||
        (Lists(keys, key) && !HasRead(pc, key) && key in s.l2 && Live(s.l2[key].entry, end)))
    ensures var pc := LookNext(s, keys, timeout, l, c);
      || Deflected(pc) || DecodesAlive(pc, end)
      || (Searching(pc) && KeysOf(pc) == keys && !HasRead(pc, key))
  {
    MillisMonotone(s.now, end);
    match l
    case L2Read(i, _) =>
      if i < |keys| && keys[i].value != key { ReadOneMore(keys, i, key); }
    case L2Decode(i, _, _) =>
    case _ =>
  }

  lemma ReadOneMore(keys: Keys, i: nat, key: string)
    requires i < |keys| && keys[i].value != key && !Among(keys, i, key)
    ensures !Among(keys, i + 1, key)
  {
  }

  // What `t` still writes keeps the key alive.
  lemma DoomedWrites(cfg: Config, s: State, d: Two, c: Choice, key: string, end: nat)
    requires Inv(cfg, s) && Doomed(s, d, key, end) && d.t != d.u
    requires Enabled(cfg, s, Move(d.t, c)) && Lasting(s.threads[d.t], c.fails, end)
    ensures Doomed(Apply(cfg, s, Move(d.t, c)), d, key, end)
  {
    OwnStep(cfg, s, d.t, c);
    OtherStep(cfg, s, Move(d.t, c), d.u);
    assert ThreadOk(cfg, s, s.threads[d.t]);
    match s.threads[d.t]
    case Saving(_, _, _) =>
  }

  lemma DoomedOtherwise(cfg: Config, s: State, a: Step, d: Two, key: string, end: nat)
    requires Doomed(s, d, key, end) && Enabled(cfg, s, a) && !ByThem(a, d) && Leaves(s, Apply(cfg, s, a), d)
    ensures Doomed(Apply(cfg, s, a), d, key, end)
  {
    OtherStep(cfg, s, a, d.t);
    OtherStep(cfg, s, a, d.u);
    assert Lists(d.ku, key) ==> Ours(d, key) && SameSlot(s.l2, Apply(cfg, s, a).l2, key);
  }

  lemma {:induction false} StaysDoomed(cfg: Config, s: State, run: seq<Step>, d: Two, key: string, end: nat)
    requires WholePolicy(cfg.policy) && Inv(cfg, s) && Legal(cfg, s, run) && Doomed(s, d, key, end) && d.t != d.u
    requires Undisturbed(cfg, s, run, d) && Kept(cfg, s, run, d, end) && Run(cfg, s, run).now <= end
    ensures var s' := Run(cfg, s, run); d.u in s'.threads && !Calls(s'.threads[d.u])
    decreases |run|
  {
    if run != [] {
      StepInv(cfg, s, run[0]);
      EndsLater(cfg, s, run);
      if !ByThem(run[0], d) { DoomedOtherwise(cfg, s, run[0], d, key, end); }
      else if run[0].t == d.t { DoomedWrites(cfg, s, d, run[0].c, key, end); }
      else { DoomedReads(cfg, s, d, run[0].c, key, end); }
      StaysDoomed(cfg, Apply(cfg, s, run[0]), run[1..], d, key, end);
    }
  }

  // A call that is not deflected, and its keys.
  ghost predicate Going(s: State, t: Id, keys: Keys) {
    t in s.threads && KeysOf(s.threads[t]) == keys && (Searching(s.threads[t]) || Calls(s.threads[t]))
  }

  lemma GoesOn(cfg: Config, s: State, run: seq<Step>, t: Id, keys: Keys)
    requires WholePolicy(cfg.policy) && Inv(cfg, s) && Legal(cfg, s, run) && run != [] && Going(s, t, keys)
    requires var s' := Run(cfg, s, run); t in s'.threads && Calls(s'.threads[t])
    ensures Going(Apply(cfg, s, run[0]), t, keys)
  {
    var s1 := Apply(cfg, s, run[0]);
    StepInv(cfg, s, run[0]);
    if run[0].Move? && run[0].t == t {
      OwnStep(cfg, s, t, run[0].c);
      Advances(cfg, s, t, run[0].c);
    } else {
      OtherStep(cfg, s, run[0], t);
    }
    if Deflected(s1.threads[t]) { StaysDeflected(cfg, s1, run[1..], t); }
  }

  // A marker put before the other call has read its key dooms that call.
  lemma EarlyMarker(cfg: Config, s: State, d: Two, c: Choice, end: nat)
    requires Inv(cfg, s) && Going(s, d.t, d.kt) && Going(s, d.u, d.ku) && d.t != d.u
    requires Enabled(cfg, s, Move(d.t, c)) && Lasting(s.threads[d.t], c.fails, end)
    requires !Orderly(s.threads[d.t], s.threads[d.u], d.ku)
    ensures Doomed(Apply(cfg, s, Move(d.t, c)), d, d.kt[s.threads[d.t].v.j].value, end)
  {
    OwnStep(cfg, s, d.t, c);
    OtherStep(cfg, s, Move(d.t, c), d.u);
    var key := d.kt[s.threads[d.t].v.j].value;
    assert Calls(s.threads[d.u]) ==> Among(d.ku, |d.ku|, key);
  }

  lemma {:induction false} WereInOrder(cfg: Config, s: State, run: seq<Step>, d: Two, end: nat)
    requires WholePolicy(cfg.policy) && Inv(cfg, s) && Legal(cfg, s, run) && d.t != d.u
    requires Going(s, d.t, d.kt) && Going(s, d.u, d.ku)
    requires Undisturbed(cfg, s, run, d) && Kept(cfg, s, run, d, end) && Run(cfg, s, run).now <= end
    requires var s' := Run(cfg, s, run);
      d.t in s'.threads && d.u in s'.threads && Calls(s'.threads[d.t]) && Calls(s'.threads[d.u])
    ensures InOrder(cfg, s, run, d)
    decreases |run|
  {
    if run != [] {
      var a, s1 := run[0], Apply(cfg, s, run[0]);
      StepInv(cfg, s, a);
      GoesOn(cfg, s, run, d.t, d.kt);
      GoesOn(cfg, s, run, d.u, d.ku);
      if a.Move? && a.t == d.t && !Orderly(s.threads[d.t], s.threads[d.u], d.ku) {
        EarlyMarker(cfg, s, d, a.c, end);
        StaysDoomed(cfg, s1, run[1..], d, d.kt[s.threads[d.t].v.j].value, end);
        assert false;
      }
      WereInOrder(cfg, s1, run[1..], d, end);
    }
  }

  /* ---------- exactly ---------- */

  lemma ReadyApart(s: State, d: Two)
    requires Ready(s, d)
    ensures Apart(s, d) && Going(s, d.t, d.kt) && Going(s, d.u, d.ku)
  {
  }

  lemma {:induction false} KeptFlips(cfg: Config, s: State, run: seq<Step>, d: Two, end: nat)
    requires Legal(cfg, s, run) && Kept(cfg, s, run, d, end) && Undisturbed(cfg, s, run, d)
    ensures Kept(cfg, s, run, Flip(d), end) && Undisturbed(cfg, s, run, Flip(d))
    decreases |run|
  {
    if run != [] {
      var s1 := Apply(cfg, s, run[0]);
      assert forall key :: Ours(Flip(d), key) == Ours(d, key);
      KeptFlips(cfg, s1, run[1..], d, end);
    }
  }

  /** Two calls begin, nothing lives under their keys and no one else writes
      there; their reads of the store and their markers do not fail, and what they
      put in the store lives on. Once both lookups are over, both calls have gone
      on to the API if and only if each has read every key they share before the
      other put its marker there. */
  lemma BothCallExactly(cfg: Config, s: State, run: seq<Step>, d: Two)
    requires WholePolicy(cfg.policy) && Reachable(cfg, s) && Ready(s, d) && Legal(cfg, s, run)
    requires Undisturbed(cfg, s, run, d) && Kept(cfg, s, run, d, Run(cfg, s, run).now)
    requires !Undecided(Run(cfg, s, run), d.t) && !Undecided(Run(cfg, s, run), d.u)
    ensures var s' := Run(cfg, s, run);
      Calls(s'.threads[d.t]) && Calls(s'.threads[d.u]) <==> InOrder(cfg, s, run, d) && InOrder(cfg, s, run, Flip(d))
  {
    var s' := Run(cfg, s, run);
    ReachableInv(cfg, s);
    ReadyApart(s, d);
    if InOrder(cfg, s, run, d) && InOrder(cfg, s, run, Flip(d)) { StaysApart(cfg, s, run, d); }
    if Calls(s'.threads[d.t]) && Calls(s'.threads[d.u]) {
      WereInOrder(cfg, s, run, d, s'.now);
      KeptFlips(cfg, s, run, d, s'.now);
      WereInOrder(cfg, s, run, Flip(d), s'.now);
    }
  }
}
