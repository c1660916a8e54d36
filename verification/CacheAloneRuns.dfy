/** Every uninterrupted run of a call of `CacheThreads`, with any accesses
    failing and the clock moving as it likes, has an outcome that `CacheLayers`
    and `SyncEnrich` give; and whatever accesses fail, some run has theirs. */
module CacheAloneRuns {
  import opened Wrappers
  import opened CacheEntry
  import opened Resolving
  import opened T = CacheThreads
  import opened CacheThreadProofs
  import opened CacheThreadTheorems
  import opened CacheAlone
  import L = CacheLayers
  import S = SyncEnrich

  // Steps of the thread, with the clock moving between them.
  predicate OnlyMoves(t: Id, run: seq<Step>) {
    forall i :: 0 <= i < |run| ==> (run[i].Move? && run[i].t == t) || run[i].Tick?
  }

  /* ---------- no access is made twice ---------- */

  // How far a call over `n` keys has come.
  function LookRank(n: nat, l: Looker): nat {
    match l
    case L1Read(i) => 2 * i
    case L1Decode(i, _) => 2 * i + 1
    case L2Read(i, _) => 2 * n + 1 + 2 * i
    case L2Decode(i, _, _) => 2 * n + 2 + 2 * i
    case PromoteRead(_, _, _) => 4 * n + 2
    case PromoteSet(_, _, _, _) => 4 * n + 3
    case FillRead(_, _, _, _) => 4 * n + 4
  }

  function FillRank(n: nat, g: Filler): nat {
    match g
    case Probe(j) => 4 * n + 5 + 5 * j
    case ProbeDecode(j, _) => 4 * n + 6 + 5 * j
    case Stamp(j) => 4 * n + 7 + 5 * j
    case FillSet(j, _, _, _) => 4 * n + 8 + 5 * j
    case FillPut(j, _, _, _) => 4 * n + 9 + 5 * j
  }

  function SaveRank(n: nat, v: Saver): nat {
    match v
    case MarkRead(j) => 9 * n + 7 + 2 * j
    case MarkPut(j, _) => 9 * n + 8 + 2 * j
    case Calling => 11 * n + 8
    case StoreRead(_, j) => 11 * n + 9 + 3 * j
    case StoreSet(w, _) => 11 * n + 10 + 3 * w.j
    case StorePut(w, _) => 11 * n + 11 + 3 * w.j
  }

  function Rank(n: nat, pc: Pc): nat {
    match pc
    case Looking(_, _, l) => LookRank(n, l)
    case Filling(_, g) => FillRank(n, g)
    case Saving(_, _, v) => SaveRank(n, v)
    case _ => 14 * n + 10
  }

  predicate LookWithin(n: nat, l: Looker) {
    match l
    case L1Read(i) => i <= n
    case L1Decode(i, _) => i < n
    case L2Read(i, _) => i <= n
    case L2Decode(i, _, _) => i < n
    case _ => true
  }

  predicate SaveWithin(n: nat, v: Saver) {
    match v
    case MarkRead(j) => j <= n
    case MarkPut(j, _) => j < n
    case Calling => true
    case StoreRead(_, j) => j <= n
    case StoreSet(w, _) => w.j < n
    case StorePut(w, _) => w.j < n
  }

  // Where a call over the keys can be.
  predicate Within(keys: Keys, now: nat, pc: Pc) {
    match pc
    case Looking(ks, _, l) => ks == keys && LookWithin(|keys|, l)
    case Filling(f, g) => f.keys == keys && f.read <= Millis(now) && (if g.Probe? then g.j <= |keys| else g.j < |keys|)
    case Saving(ks, _, v) => ks == keys && SaveWithin(|keys|, v)
    case _ => true
  }

  lemma LookClimbs(s: State, keys: Keys, timeout: int, l: Looker, c: Choice)
    requires LookWithin(|keys|, l)
    ensures var pc := LookNext(s, keys, timeout, l, c); Within(keys, s.now, pc) && Rank(|keys|, pc) > LookRank(|keys|, l)
  {
  }

  lemma FillClimbs(cfg: Config, s: State, f: Fill, g: Filler, c: Choice)
    requires Within(f.keys, s.now, Filling(f, g))
    ensures var pc := FillNext(cfg, s, f, g, c); Within(f.keys, s.now, pc) && Rank(|f.keys|, pc) > FillRank(|f.keys|, g)
  {
  }

  lemma SaveClimbs(cfg: Config, s: State, t: Id, keys: Keys, timeout: int, v: Saver, c: Choice)
    requires SaveWithin(|keys|, v)
    ensures var pc := SaveStep(cfg, s, t, keys, timeout, v, c).threads[t];
      Within(keys, s.now, pc) && Rank(|keys|, pc) > SaveRank(|keys|, v)
  {
  }

  /** Each step takes the call further, and none is ever taken again. */
  lemma Climbs(cfg: Config, s: State, t: Id, keys: Keys, c: Choice)
    requires Enabled(cfg, s, Move(t, c)) && Within(keys, s.now, s.threads[t])
    ensures var s' := Apply(cfg, s, Move(t, c));
      t in s'.threads && s'.now == s.now && Within(keys, s.now, s'.threads[t])
        && Rank(|keys|, s'.threads[t]) > Rank(|keys|, s.threads[t])
  {
    match s.threads[t]
    case Looking(ks, timeout, l) => LookClimbs(s, ks, timeout, l, c);
    case Filling(f, g) => FillClimbs(cfg, s, f, g, c);
    case Saving(ks, timeout, v) => SaveClimbs(cfg, s, t, ks, timeout, v, c);
  }

  /* ---------- what a run met ---------- */

  datatype Event = Event(fails: bool, now: nat, api: Api)

  // By how far the call had come.
  type Log = map<nat, Event>

  ghost predicate Logged(cfg: Config, s: State, t: Id, run: seq<Step>, n: nat, log: Log)
    requires Legal(cfg, s, run)
    decreases |run|
  {
    if run == [] then true
    else (run[0].Move? ==> Logs(s, t, run[0], n, log)) && Logged(cfg, Apply(cfg, s, run[0]), t, run[1..], n, log)
  }

  predicate Logs(s: State, t: Id, a: Step, n: nat, log: Log)
    requires a.Move?
  {
    && a.t == t && t in s.threads && Rank(n, s.threads[t]) in log
    && log[Rank(n, s.threads[t])] == Event(a.c.fails, s.now, a.c.api)
  }

  lemma {:induction false} LogKeeps(cfg: Config, s: State, t: Id, run: seq<Step>, keys: Keys, log: Log, r: nat, e: Event)
    requires Legal(cfg, s, run) && OnlyMoves(t, run) && Logged(cfg, s, t, run, |keys|, log)
    requires t in s.threads && Within(keys, s.now, s.threads[t]) && r < Rank(|keys|, s.threads[t])
    ensures Logged(cfg, s, t, run, |keys|, log[r := e])
    decreases |run|
  {
    if run != [] {
      if run[0].Move? { Climbs(cfg, s, t, keys, run[0].c); } else { Waited(cfg, s, t, keys, run[0]); }
      LogKeeps(cfg, Apply(cfg, s, run[0]), t, run[1..], keys, log, r, e);
    }
  }

  lemma Waited(cfg: Config, s: State, t: Id, keys: Keys, a: Step)
    requires a.Tick? && Enabled(cfg, s, a) && t in s.threads && Within(keys, s.now, s.threads[t])
    ensures var s' := Apply(cfg, s, a);
      t in s'.threads && s'.threads[t] == s.threads[t] && Within(keys, s'.now, s'.threads[t]) && HeldBy(s') == HeldBy(s)
  {
    MillisMonotone(s.now, s.now + a.d);
  }

  lemma {:induction false} LogOf(cfg: Config, s: State, t: Id, run: seq<Step>, keys: Keys) returns (log: Log)
    requires Legal(cfg, s, run) && OnlyMoves(t, run) && t in s.threads && Within(keys, s.now, s.threads[t])
    ensures Logged(cfg, s, t, run, |keys|, log)
    decreases |run|
  {
    log := map[];
    if run != [] {
      var s1 := Apply(cfg, s, run[0]);
      if run[0].Move? {
        Climbs(cfg, s, t, keys, run[0].c);
        var rest := LogOf(cfg, s1, t, run[1..], keys);
        var r, e := Rank(|keys|, s.threads[t]), Event(run[0].c.fails, s.now, run[0].c.api);
        LogKeeps(cfg, s1, t, run[1..], keys, rest, r, e);
        log := rest[r := e];
      } else {
        Waited(cfg, s, t, keys, run[0]);
        log := LogOf(cfg, s1, t, run[1..], keys);
      }
    }
  }

  function FailsAt(log: Log, r: nat): bool { r in log && log[r].fails }

  function TimeAt(log: Log, r: nat): nat { if r in log then log[r].now else 0 }

  function ApiAt(log: Log, r: nat): Api { if r in log then log[r].api else Failure }

  function FaultsOf(log: Log, n: nat): L.Faults {
    L.Faults(
      (set i: nat | i < n && FailsAt(log, 2 * i)),
      (set j: nat | j < n && FailsAt(log, 4 * n + 5 + 5 * j)),
      (set i: nat | i < n && FailsAt(log, 2 * n + 1 + 2 * i)),
      (set j: nat | j < n && FailsAt(log, 4 * n + 9 + 5 * j)),
      (set j: nat | j < n && FailsAt(log, 4 * n + 8 + 5 * j)),
      FailsAt(log, 4 * n + 3))
  }

  function MarkFaultsOf(log: Log, n: nat): L.Faults {
    L.NoFaults.(storePuts := set j: nat | j < n && FailsAt(log, 9 * n + 8 + 2 * j))
  }

  function StoreFaultsOf(log: Log, n: nat): L.Faults {
    L.NoFaults.(
      localSets := (set j: nat | j < n && FailsAt(log, 11 * n + 10 + 3 * j)),
      storePuts := (set j: nat | j < n && FailsAt(log, 11 * n + 11 + 3 * j)))
  }

  function ClockOf(log: Log, n: nat): L.Clock {
    L.Clock(i => TimeAt(log, 2 * i + 1), i => TimeAt(log, 2 * n + 2 + 2 * i), TimeAt(log, 4 * n + 2), TimeAt(log, 4 * n + 4),
            j => TimeAt(log, 4 * n + 6 + 5 * j), j => TimeAt(log, 4 * n + 7 + 5 * j))
  }

  // The oracle that foretells the run.
  function OracleOf(log: Log, n: nat): Oracle {
    Oracle(
      FaultsOf(log, n), MarkFaultsOf(log, n), StoreFaultsOf(log, n), ClockOf(log, n),
      j => TimeAt(log, 9 * n + 7 + 2 * j), j => TimeAt(log, 11 * n + 9 + 3 * j), ApiAt(log, 11 * n + 8))
  }

  lemma LogObeyed(keys: Keys, log: Log, s: State, pc: Pc, c: Choice)
    requires Within(keys, s.now, pc) && Rank(|keys|, pc) in log && log[Rank(|keys|, pc)] == Event(c.fails, s.now, c.api)
    ensures Obeys(OracleOf(log, |keys|), s, pc, c)
  {
  }

  // Every access and every reading of the clock in the run is as the oracle has it.
  ghost predicate Foretold(cfg: Config, o: Oracle, s: State, t: Id, run: seq<Step>)
    requires Legal(cfg, s, run)
    decreases |run|
  {
    if run == [] then true
    else
      && (run[0].Move? && run[0].t == t && t in s.threads ==> Obeys(o, s, s.threads[t], run[0].c))
      && Foretold(cfg, o, Apply(cfg, s, run[0]), t, run[1..])
  }

  lemma {:induction false} LogForetells(cfg: Config, s: State, t: Id, run: seq<Step>, keys: Keys, log: Log)
    requires Legal(cfg, s, run) && OnlyMoves(t, run) && Logged(cfg, s, t, run, |keys|, log)
    requires t in s.threads && Within(keys, s.now, s.threads[t])
    ensures Foretold(cfg, OracleOf(log, |keys|), s, t, run)
    decreases |run|
  {
    if run != [] {
      if run[0].Move? {
        Climbs(cfg, s, t, keys, run[0].c);
        LogObeyed(keys, log, s, s.threads[t], run[0].c);
      } else {
        Waited(cfg, s, t, keys, run[0]);
      }
      LogForetells(cfg, Apply(cfg, s, run[0]), t, run[1..], keys, log);
    }
  }

  /* ---------- every run ---------- */

  lemma {:induction false} RunTracks(cfg: Config, k: Call, s: State, t: Id, run: seq<Step>)
    requires WholePolicy(cfg.policy) && Inv(cfg, s) && cfg.policy == k.p
    requires Legal(cfg, s, run) && OnlyMoves(t, run) && Foretold(cfg, k.o, s, t, run)
    requires t in s.threads && Within(k.keys, s.now, s.threads[t]) && Tracks(k, HeldBy(s), s.threads[t])
    ensures var s' := Run(cfg, s, run); t in s'.threads && Tracks(k, HeldBy(s'), s'.threads[t])
    decreases |run|
  {
    if run != [] {
      StepInv(cfg, s, run[0]);
      if run[0].Move? {
        Climbs(cfg, s, t, k.keys, run[0].c);
        TracksStep(cfg, k, s, t, run[0].c);
      } else {
        Waited(cfg, s, t, k.keys, run[0]);
      }
      RunTracks(cfg, k, Apply(cfg, s, run[0]), t, run[1..]);
    }
  }

  // The answer that a thread has when its lookup is over.
  predicate Answers(pc: Pc, keys: Keys, timeout: int, r: CacheResult) {
    match pc
    case Served(ks, i, hit, _, layer) => ks == keys && i < |keys| && r == FromEntry(hit, keys[i].kind, layer)
    case Waits(ks, kind) => ks == keys && r == InProgress(kind, L2)
    case Saving(ks, w, MarkRead(0)) => ks == keys && w == timeout && r == Miss
    case _ => false
  }

  predicate Ended(pc: Pc) { pc.Served? || pc.Waits? || pc.Done? }

  predicate Missed(pc: Pc) { pc.Saving? && pc.v == MarkRead(0) }

  lemma ServedOutcome(k: Call, h: Held, pc: Pc) returns (x': L.Layers, r: CacheResult)
    requires pc.Served? && Tracks(k, h, pc)
    ensures L.GetOutcome(k.x, k.keys, k.p, k.o.c, k.o.f, x', r) && Same(h, x') && Answers(pc, k.keys, k.timeout, r)
      && !r.Miss?
  {
    x' := L.Backfill(Base(k, pc.i, pc.hit, pc.layer), k.keys, pc.i, pc.hit, k.p, k.o.c, k.o.f);
    r := FromEntry(pc.hit, k.keys[pc.i].kind, pc.layer);
    if pc.layer == L1 {
      assert L.LocalAnswer(k.x, k.keys, k.p, k.o.c, k.o.f, x', r, pc.i);
    } else {
      assert L.StoreAnswer(k.x, k.keys, k.p, k.o.c, k.o.f, x', r, pc.i);
    }
  }

  lemma UnservedOutcome(k: Call, h: Held, pc: Pc) returns (x': L.Layers, r: CacheResult)
    requires (pc.Waits? || Missed(pc)) && Tracks(k, h, pc)
    ensures L.GetOutcome(k.x, k.keys, k.p, k.o.c, k.o.f, x', r) && Same(h, x') && Answers(pc, k.keys, k.timeout, r)
    ensures r.Miss? <==> !pc.Waits?
  {
    x' := k.x.(gets := k.x.gets + |k.keys|);
    if pc.Waits? {
      r := InProgress(pc.kind, L2);
    } else {
      r := Miss;
      assert Marked(k, 0) == x';
    }
    assert L.NoAnswer(k.x, k.keys, k.o.c, k.o.f, x', r);
  }

  lemma LookupOutcome(k: Call, h: Held, pc: Pc) returns (x': L.Layers, r: CacheResult)
    requires (pc.Served? || pc.Waits? || Missed(pc)) && Tracks(k, h, pc)
    ensures L.GetOutcome(k.x, k.keys, k.p, k.o.c, k.o.f, x', r) && Same(h, x') && Answers(pc, k.keys, k.timeout, r)
    ensures r.Miss? <==> Missed(pc)
  {
    if pc.Served? { x', r := ServedOutcome(k, h, pc); } else { x', r := UnservedOutcome(k, h, pc); }
  }

  lemma EnrichOutcomeOf(k: Call, h: Held, pc: Pc) returns (x': L.Layers, a: S.Answer)
    requires Ended(pc) && Tracks(k, h, pc)
    ensures S.EnrichOutcome(k.x, k.keys, k.timeout, Classify(k.o.api), k.p, k.o.c, k.o.marked, k.o.stored, k.o.f, k.o.m, k.o.g, x', a)
    ensures Same(h, x')
    ensures if a.Called? then pc == Done(k.keys, a.response) else Answers(pc, k.keys, k.timeout, a.c)
  {
    if pc.Done? {
      var t := k.x.(gets := k.x.gets + |k.keys|);
      assert L.NoAnswer(k.x, k.keys, k.o.c, k.o.f, t, Miss);
      a := S.Called(pc.x);
      x' := S.CalledLayers(t, k.keys, k.timeout, pc.x, k.p, k.o.marked, k.o.stored, k.o.m, k.o.g);
      assert S.CalledAfterMiss(k.x, k.keys, k.timeout, pc.x, k.p, k.o.c, k.o.marked, k.o.stored, k.o.f, k.o.m, k.o.g, x');
    } else {
      var r: CacheResult;
      x', r := LookupOutcome(k, h, pc);
      a := S.Served(r);
    }
  }

  // The call has ended with the answer, and left the layers.
  ghost predicate Concludes(s: State, t: Id, keys: Keys, timeout: int, x: L.Layers, a: S.Answer) {
    && t in s.threads && Same(HeldBy(s), x)
    && if a.Called? then s.threads[t] == Done(keys, a.response) else Answers(s.threads[t], keys, timeout, a.c)
  }

  // The thread is about to look up, over the layers `x`.
  ghost predicate Starts(cfg: Config, s: State, t: Id, keys: Keys, timeout: int, x: L.Layers) {
    Reachable(cfg, s) && Same(HeldBy(s), x) && t in s.threads && s.threads[t] == Looking(keys, timeout, L1Read(0))
  }

  lemma RunFromStart(cfg: Config, s: State, t: Id, keys: Keys, timeout: int, x: L.Layers, run: seq<Step>) returns (k: Call)
    requires WholePolicy(cfg.policy) && Starts(cfg, s, t, keys, timeout, x)
    requires Legal(cfg, s, run) && OnlyMoves(t, run)
    ensures k == Call(cfg.policy, keys, timeout, x, k.o) && Foretold(cfg, k.o, s, t, run)
    ensures var s' := Run(cfg, s, run); t in s'.threads && Tracks(k, HeldBy(s'), s'.threads[t])
  {
    ReachableInv(cfg, s);
    var log := LogOf(cfg, s, t, run, keys);
    k := Call(cfg.policy, keys, timeout, x, OracleOf(log, |keys|));
    LogForetells(cfg, s, t, run, keys, log);
    RunTracks(cfg, k, s, t, run);
  }

  /** Every lookup that no other thread interrupts, whatever fails and however
      the clock moves, ends as the reference for lookups has it, given the
      accesses that failed in it and its readings of the clock. */
  lemma EveryLookup(cfg: Config, s: State, t: Id, keys: Keys, timeout: int, x: L.Layers, run: seq<Step>)
      returns (o: Oracle, x': L.Layers, r: CacheResult)
    requires WholePolicy(cfg.policy) && Starts(cfg, s, t, keys, timeout, x)
    requires Legal(cfg, s, run) && OnlyMoves(t, run)
    requires var pc := Run(cfg, s, run).threads; t in pc && (pc[t].Served? || pc[t].Waits? || Missed(pc[t]))
    ensures Foretold(cfg, o, s, t, run) && L.GetOutcome(x, keys, cfg.policy, o.c, o.f, x', r)
    ensures var s' := Run(cfg, s, run); t in s'.threads && Same(HeldBy(s'), x') && Answers(s'.threads[t], keys, timeout, r)
  {
    var k := RunFromStart(cfg, s, t, keys, timeout, x, run);
    var s' := Run(cfg, s, run);
    o := k.o;
    x', r := LookupOutcome(k, HeldBy(s'), s'.threads[t]);
  }

  /** And every whole call that no other thread interrupts does what the
      sequential enricher does. */
  lemma EveryEnrich(cfg: Config, s: State, t: Id, keys: Keys, timeout: int, x: L.Layers, run: seq<Step>)
      returns (o: Oracle, x': L.Layers, a: S.Answer)
    requires WholePolicy(cfg.policy) && Starts(cfg, s, t, keys, timeout, x)
    requires Legal(cfg, s, run) && OnlyMoves(t, run)
    requires var pc := Run(cfg, s, run).threads; t in pc && Ended(pc[t])
    ensures Foretold(cfg, o, s, t, run)
    ensures S.EnrichOutcome(x, keys, timeout, Classify(o.api), cfg.policy, o.c, o.marked, o.stored, o.f, o.m, o.g, x', a)
    ensures Concludes(Run(cfg, s, run), t, keys, timeout, x', a)
  {
    var k := RunFromStart(cfg, s, t, keys, timeout, x, run);
    var s' := Run(cfg, s, run);
    o := k.o;
    x', a := EnrichOutcomeOf(k, HeldBy(s'), s'.threads[t]);
  }

  /* ---------- some run ---------- */

  // The clock stands still at `now`.
  ghost predicate StillOracle(o: Oracle, now: nat) {
    && (forall i: nat :: o.c.local(i) == now && o.c.store(i) == now && o.c.probe(i) == now && o.c.stamp(i) == now)
    && o.c.promote == now && o.c.fill == now
    && (forall j: nat :: o.marked(j) == now && o.stored(j) == now)
  }

  function FailsNext(o: Oracle, pc: Pc): bool {
    match pc
    case Looking(_, _, L1Read(i)) => i in o.f.localGets
    case Looking(_, _, L2Read(i, _)) => i in o.f.storeGets
    case Looking(_, _, PromoteSet(_, _, _, _)) => o.f.promoteSet
    case Filling(_, Probe(j)) => j in o.f.localProbes
    case Filling(_, FillSet(j, _, _, _)) => j in o.f.localSets
    case Filling(_, FillPut(j, _, _, _)) => j in o.f.storePuts
    case Saving(_, _, MarkPut(j, _)) => j in o.m.storePuts
    case Saving(_, _, StoreSet(w, _)) => w.j in o.g.localSets
    case Saving(_, _, StorePut(w, _)) => w.j in o.g.storePuts
    case _ => false
  }

  lemma StillObeyed(o: Oracle, s: State, pc: Pc)
    requires StillOracle(o, s.now)
    ensures Obeys(o, s, pc, Choice(FailsNext(o, pc), o.api))
  {
  }

  // The step that the oracle foretells.
  lemma Advance(cfg: Config, k: Call, s: State, t: Id) returns (c: Choice, s': State)
    requires WholePolicy(cfg.policy) && Inv(cfg, s) && cfg.policy == k.p && StillOracle(k.o, s.now)
    requires t in s.threads && !Ended(s.threads[t])
    requires Within(k.keys, s.now, s.threads[t]) && Tracks(k, HeldBy(s), s.threads[t])
    ensures Enabled(cfg, s, Move(t, c)) && s' == Apply(cfg, s, Move(t, c)) && Obeys(k.o, s, s.threads[t], c)
    ensures Inv(cfg, s') && s'.now == s.now && t in s'.threads
    ensures Within(k.keys, s'.now, s'.threads[t]) && Tracks(k, HeldBy(s'), s'.threads[t])
    ensures Rank(|k.keys|, s.threads[t]) < Rank(|k.keys|, s'.threads[t]) <= 14 * |k.keys| + 10
  {
    c := Choice(FailsNext(k.o, s.threads[t]), k.o.api);
    s' := Apply(cfg, s, Move(t, c));
    StillObeyed(k.o, s, s.threads[t]);
    Climbs(cfg, s, t, k.keys, c);
    TracksStep(cfg, k, s, t, c);
    StepInv(cfg, s, Move(t, c));
    RankBounded(k.keys, s'.now, s'.threads[t]);
  }

  lemma {:induction false} RunOn(cfg: Config, k: Call, s: State, t: Id) returns (run: seq<Step>)
    requires WholePolicy(cfg.policy) && Inv(cfg, s) && cfg.policy == k.p && StillOracle(k.o, s.now)
    requires t in s.threads && Within(k.keys, s.now, s.threads[t]) && Tracks(k, HeldBy(s), s.threads[t])
    ensures Legal(cfg, s, run) && OnlyMoves(t, run) && Foretold(cfg, k.o, s, t, run)
    ensures var s' := Run(cfg, s, run); t in s'.threads && Ended(s'.threads[t]) && Tracks(k, HeldBy(s'), s'.threads[t])
    decreases 14 * |k.keys| + 10 - Rank(|k.keys|, s.threads[t])
  {
    run := [];
    if !Ended(s.threads[t]) {
      var c, s1 := Advance(cfg, k, s, t);
      var rest := RunOn(cfg, k, s1, t);
      run := Prepend(cfg, k.o, s, t, c, rest);
    }
  }

  lemma Prepend(cfg: Config, o: Oracle, s: State, t: Id, c: Choice, rest: seq<Step>) returns (run: seq<Step>)
    requires Enabled(cfg, s, Move(t, c)) && Obeys(o, s, s.threads[t], c)
    requires var s' := Apply(cfg, s, Move(t, c)); OnlyMoves(t, rest) && Legal(cfg, s', rest) && Foretold(cfg, o, s', t, rest)
    ensures Legal(cfg, s, run) && OnlyMoves(t, run) && Foretold(cfg, o, s, t, run)
    ensures Run(cfg, s, run) == Run(cfg, Apply(cfg, s, Move(t, c)), rest)
  {
    run := [Move(t, c)] + rest;
    assert run[1..] == rest;
  }

  lemma RankBounded(keys: Keys, now: nat, pc: Pc)
    requires Within(keys, now, pc)
    ensures Rank(|keys|, pc) <= 14 * |keys| + 10
  {
  }

  /** Conversely, whatever the API answers and whichever accesses fail, some
      uninterrupted run has the outcome that the sequential enricher then has
      under a still clock. */
  lemma SomeEnrich(cfg: Config, s: State, t: Id, keys: Keys, timeout: int, x: L.Layers, o: Oracle)
      returns (run: seq<Step>, x': L.Layers, a: S.Answer)
    requires WholePolicy(cfg.policy) && Starts(cfg, s, t, keys, timeout, x) && StillOracle(o, s.now)
    ensures Legal(cfg, s, run) && OnlyMoves(t, run) && Foretold(cfg, o, s, t, run)
    ensures S.EnrichOutcome(x, keys, timeout, Classify(o.api), cfg.policy, o.c, o.marked, o.stored, o.f, o.m, o.g, x', a)
    ensures Concludes(Run(cfg, s, run), t, keys, timeout, x', a)
  {
    ReachableInv(cfg, s);
    var k := Call(cfg.policy, keys, timeout, x, o);
    run := RunOn(cfg, k, s, t);
    var s' := Run(cfg, s, run);
    x', a := EnrichOutcomeOf(k, HeldBy(s'), s'.threads[t]);
  }
}
