/** Single flight: which calls go on to the API. A call does exactly when none of
    its reads finds a live entry, and a marker that a call has written stops every
    later call that reads it alive. */
module CacheFlights {
  import opened CacheEntry
  import opened CacheThreads
  import opened CacheThreadProofs
  import opened CacheThreadTheorems

  // The lookup has found nothing so far.
  predicate Searching(pc: Pc) {
    pc.Looking? && match pc.l
      case L1Read(_) => true
      case L1Decode(_, _) => true
      case L2Read(_, marker) => marker.None?
      case L2Decode(_, marker, _) => marker.None?
      case _ => false
  }

  // It has found an answer or a marker: it ends Served or Waits.
  predicate Deflected(pc: Pc) { (pc.Looking? && !Searching(pc)) || pc.Filling? || pc.Served? || pc.Waits? }

  // It goes on to the API.
  predicate Calls(pc: Pc) { pc.Saving? || pc.Done? }

  // The entry that the thread is about to decode is alive: an answer, or a
  // marker in the store.
  predicate Finds(s: State, pc: Pc) {
    pc.Looking? && match pc.l
      case L1Decode(_, slot) => Live(slot.entry, s.now) && !slot.entry.inProgress && slot.tag.Some?
      case L2Decode(_, _, slot) => Live(slot.entry, s.now)
      case _ => false
  }

  // No read of the thread finds a live entry.
  ghost predicate FindsNothing(cfg: Config, s: State, run: seq<Step>, t: Id)
    requires Legal(cfg, s, run)
    decreases |run|
  {
    if run == [] then true
    else !(run[0].Move? && run[0].t == t && Finds(s, s.threads[t])) && FindsNothing(cfg, Apply(cfg, s, run[0]), run[1..], t)
  }

  lemma OwnStep(cfg: Config, s: State, t: Id, c: Choice)
    requires Inv(cfg, s) && Enabled(cfg, s, Move(t, c))
    ensures var pc, s' := s.threads[t], Apply(cfg, s, Move(t, c));
      && t in s'.threads
      && (Deflected(pc) ==> Deflected(s'.threads[t]))
      && (Calls(pc) ==> Calls(s'.threads[t]))
      && (Searching(pc) && Finds(s, pc) ==> Deflected(s'.threads[t]))
      && (Searching(pc) && !Finds(s, pc) ==> Searching(s'.threads[t]) || Calls(s'.threads[t]))
  {
    assert ThreadOk(cfg, s, s.threads[t]);
    match s.threads[t]
    case Looking(keys, timeout, l) => LookStepLeads(cfg, s, keys, timeout, l, c);
    case Filling(f, g) =>
    case Saving(keys, timeout, v) =>
  }

  lemma LookStepLeads(cfg: Config, s: State, keys: Keys, timeout: int, l: Looker, c: Choice)
    requires LookerOk(cfg, s, keys, l)
    ensures var pc, pc' := Looking(keys, timeout, l), LookNext(s, keys, timeout, l, c);
      && (Deflected(pc) ==> Deflected(pc'))
      && (Searching(pc) && Finds(s, pc) ==> Deflected(pc'))
      && (Searching(pc) && !Finds(s, pc) ==> Searching(pc') || Calls(pc'))
  {
  }

  lemma OtherStep(cfg: Config, s: State, a: Step, t: Id)
    requires Enabled(cfg, s, a) && t in s.threads && !(a.Move? && a.t == t)
    ensures var s' := Apply(cfg, s, a); t in s'.threads && s'.threads[t] == s.threads[t]
  {
    if a.Move? {
      match s.threads[a.t]
      case Looking(_, _, _) =>
      case Filling(_, _) =>
      case Saving(_, _, _) =>
    }
  }

  lemma {:induction false} StaysDeflected(cfg: Config, s: State, run: seq<Step>, t: Id)
    requires WholePolicy(cfg.policy) && Inv(cfg, s) && Legal(cfg, s, run) && t in s.threads && Deflected(s.threads[t])
    ensures var s' := Run(cfg, s, run); t in s'.threads && Deflected(s'.threads[t])
    decreases |run|
  {
    if run != [] {
      StepInv(cfg, s, run[0]);
      if run[0].Move? && run[0].t == t { OwnStep(cfg, s, t, run[0].c); } else { OtherStep(cfg, s, run[0], t); }
      StaysDeflected(cfg, Apply(cfg, s, run[0]), run[1..], t);
    }
  }

  lemma {:induction false} StaysCalling(cfg: Config, s: State, run: seq<Step>, t: Id)
    requires WholePolicy(cfg.policy) && Inv(cfg, s) && Legal(cfg, s, run) && t in s.threads && Calls(s.threads[t])
    ensures var s' := Run(cfg, s, run); t in s'.threads && Calls(s'.threads[t]) && FindsNothing(cfg, s, run, t)
    decreases |run|
  {
    if run != [] {
      StepInv(cfg, s, run[0]);
      if run[0].Move? && run[0].t == t { OwnStep(cfg, s, t, run[0].c); } else { OtherStep(cfg, s, run[0], t); }
      StaysCalling(cfg, Apply(cfg, s, run[0]), run[1..], t);
    }
  }

  // Not begun, or searching.
  predicate Undecided(s: State, t: Id) { t !in s.threads || Searching(s.threads[t]) }

  lemma {:induction false} Decided(cfg: Config, s: State, run: seq<Step>, t: Id)
    requires WholePolicy(cfg.policy) && Inv(cfg, s) && Legal(cfg, s, run) && Undecided(s, t)
    ensures var s' := Run(cfg, s, run);
      || (Undecided(s', t) && FindsNothing(cfg, s, run, t))
      || (t in s'.threads && Calls(s'.threads[t]) && FindsNothing(cfg, s, run, t))
      || (t in s'.threads && Deflected(s'.threads[t]) && !FindsNothing(cfg, s, run, t))
    decreases |run|
  {
    if run != [] {
      var a, s1 := run[0], Apply(cfg, s, run[0]);
      StepInv(cfg, s, a);
      if t !in s.threads { Unstarted(cfg, s, a, t); }
      else if a.Move? && a.t == t { OwnStep(cfg, s, t, a.c); }
      else { OtherStep(cfg, s, a, t); }
      if Undecided(s1, t) { Decided(cfg, s1, run[1..], t); }
      else if Calls(s1.threads[t]) { StaysCalling(cfg, s1, run[1..], t); }
      else { StaysDeflected(cfg, s1, run[1..], t); }
    }
  }

  lemma Unstarted(cfg: Config, s: State, a: Step, t: Id)
    requires Enabled(cfg, s, a) && t !in s.threads
    ensures Undecided(Apply(cfg, s, a), t)
  {
    if a.Move? {
      match s.threads[a.t]
      case Looking(_, _, _) =>
      case Filling(_, _) =>
      case Saving(_, _, _) =>
    }
  }

  /** A call whose lookup is over has gone on to the API exactly when none of
      its reads found a live answer or marker, and otherwise ends Served or Waits. */
  lemma CallsExactly(cfg: Config, run: seq<Step>, t: Id)
    requires WholePolicy(cfg.policy) && Legal(cfg, Init, run) && !Undecided(Run(cfg, Init, run), t)
    ensures var s := Run(cfg, Init, run);
      && (Calls(s.threads[t]) <==> FindsNothing(cfg, Init, run, t))
      && (Calls(s.threads[t]) <==> !Deflected(s.threads[t]))
  {
    Decided(cfg, Init, run, t);
  }

  /* ---------- what a marker stops ---------- */

  // The step writes or drops the store's entry under the key.
  predicate Touches(s: State, a: Step, key: string) {
    match a
    case DropL2(k) => k == key
    case Move(t, c) => t in s.threads && !c.fails && PutsAt(s.threads[t], key)
    case _ => false
  }

  predicate PutsAt(pc: Pc, key: string) {
    match pc
    case Filling(f, FillPut(j, _, _, _)) => j < |f.keys| && f.keys[j].value == key
    case Saving(keys, _, MarkPut(j, _)) => j < |keys| && keys[j].value == key
    case Saving(keys, _, StorePut(w, _)) => w.j < |keys| && keys[w.j].value == key
    case _ => false
  }

  ghost predicate Untouched(cfg: Config, s: State, run: seq<Step>, key: string)
    requires Legal(cfg, s, run)
    decreases |run|
  {
    if run == [] then true else !Touches(s, run[0], key) && Untouched(cfg, Apply(cfg, s, run[0]), run[1..], key)
  }

  lemma StepKeepsEntry(cfg: Config, s: State, a: Step, key: string)
    requires Enabled(cfg, s, a) && !Touches(s, a, key) && key in s.l2
    ensures var s' := Apply(cfg, s, a); key in s'.l2 && s'.l2[key] == s.l2[key]
  {
    if a.Move? {
      match s.threads[a.t]
      case Looking(_, _, _) =>
      case Filling(_, _) =>
      case Saving(_, _, _) =>
    }
  }

  lemma {:induction false} KeepsEntry(cfg: Config, s: State, run: seq<Step>, key: string)
    requires Legal(cfg, s, run) && Untouched(cfg, s, run, key) && key in s.l2
    ensures var s' := Run(cfg, s, run); key in s'.l2 && s'.l2[key] == s.l2[key]
    decreases |run|
  {
    if run != [] {
      StepKeepsEntry(cfg, s, run[0], key);
      KeepsEntry(cfg, Apply(cfg, s, run[0]), run[1..], key);
    }
  }

  ghost predicate NotBy(run: seq<Step>, t: Id) { forall i :: 0 <= i < |run| ==> !(run[i].Move? && run[i].t == t) }

  lemma {:induction false} Meanwhile(cfg: Config, s: State, run: seq<Step>, t: Id)
    requires Legal(cfg, s, run) && NotBy(run, t) && t in s.threads
    ensures var s' := Run(cfg, s, run); t in s'.threads && s'.threads[t] == s.threads[t]
    decreases |run|
  {
    if run != [] {
      OtherStep(cfg, s, run[0], t);
      Meanwhile(cfg, Apply(cfg, s, run[0]), run[1..], t);
    }
  }

  /** A call that reads a marker which is still alive when it decodes it never
      goes on to the API, whatever the others do. */
  lemma MarkerSeen(cfg: Config, s: State, t: Id, c: Choice, wait: seq<Step>, c': Choice, after: seq<Step>)
    requires WholePolicy(cfg.policy) && Inv(cfg, s) && t in s.threads && s.threads[t].Looking? && s.threads[t].l.L2Read?
    requires var pc := s.threads[t]; pc.l.i < |pc.keys| && pc.keys[pc.l.i].value in s.l2 && !c.fails
    requires Legal(cfg, Apply(cfg, s, Move(t, c)), wait) && NotBy(wait, t)
    requires var s1, pc := Run(cfg, Apply(cfg, s, Move(t, c)), wait), s.threads[t];
      && Live(s.l2[pc.keys[pc.l.i].value].entry, s1.now)
      && Enabled(cfg, s1, Move(t, c')) && Legal(cfg, Apply(cfg, s1, Move(t, c')), after)
    ensures var s1 := Run(cfg, Apply(cfg, s, Move(t, c)), wait);
      var s' := Run(cfg, Apply(cfg, s1, Move(t, c')), after); t in s'.threads && Deflected(s'.threads[t])
  {
    var s0 := Apply(cfg, s, Move(t, c));
    StepInv(cfg, s, Move(t, c));
    RunInv(cfg, s0, wait);
    Meanwhile(cfg, s0, wait, t);
    var s1 := Run(cfg, s0, wait);
    StepInv(cfg, s1, Move(t, c'));
    OwnStep(cfg, s1, t, c');
    StaysDeflected(cfg, Apply(cfg, s1, Move(t, c')), after, t);
  }

  /** Single flight: once a call has put its marker for a key, another call
      whose read of that key from the store falls after the put, does not fail,
      and finds the marker neither overwritten nor dropped nor expired, ends
      Served or Waits, and never goes on to the API. */
  lemma SingleFlight(cfg: Config, s: State, u: Id, c: Choice, between: seq<Step>, t: Id, cr: Choice, wait: seq<Step>,
                     cd: Choice, after: seq<Step>)
    requires WholePolicy(cfg.policy) && Reachable(cfg, s)
    requires u in s.threads && s.threads[u].Saving? && s.threads[u].v.MarkPut?
      && s.threads[u].v.j < |s.threads[u].keys| && !c.fails
    requires var s1, key := Apply(cfg, s, Move(u, c)), s.threads[u].keys[s.threads[u].v.j].value;
      Legal(cfg, s1, between) && Untouched(cfg, s1, between, key) && ReadsKey(Run(cfg, s1, between), t, key) && !cr.fails
    requires var s2 := Run(cfg, Apply(cfg, s, Move(u, c)), between);
      Legal(cfg, Apply(cfg, s2, Move(t, cr)), wait) && NotBy(wait, t)
    requires var s3 := Run(cfg, Apply(cfg, Run(cfg, Apply(cfg, s, Move(u, c)), between), Move(t, cr)), wait);
      Live(s.threads[u].v.e, s3.now) && Enabled(cfg, s3, Move(t, cd)) && Legal(cfg, Apply(cfg, s3, Move(t, cd)), after)
    ensures var s3 := Run(cfg, Apply(cfg, Run(cfg, Apply(cfg, s, Move(u, c)), between), Move(t, cr)), wait);
      var s' := Run(cfg, Apply(cfg, s3, Move(t, cd)), after); t in s'.threads && Deflected(s'.threads[t]) && !Calls(s'.threads[t])
  {
    var s1, key := Apply(cfg, s, Move(u, c)), s.threads[u].keys[s.threads[u].v.j].value;
    ReachableInv(cfg, s);
    StepInv(cfg, s, Move(u, c));
    RunInv(cfg, s1, between);
    KeepsEntry(cfg, s1, between, key);
    MarkerSeen(cfg, Run(cfg, s1, between), t, cr, wait, cd, after);
  }

  // The thread is about to read the key from the store.
  predicate ReadsKey(s: State, t: Id, key: string) {
    && t in s.threads && s.threads[t].Looking? && s.threads[t].l.L2Read?
    && s.threads[t].l.i < |s.threads[t].keys| && s.threads[t].keys[s.threads[t].l.i].value == key
  }
}
