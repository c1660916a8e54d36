/** What holds of the enricher in every interleaving of Enrich calls, background
    goroutines and Shutdown calls. */
module EnricherTheorems {
  import opened Counting
  import opened Wrappers
  import opened EnricherProtocol
  import A = Admission

  ghost predicate Reachable(cap: nat, hasCache: bool, s: State) {
    exists run :: Legal(Init(cap, hasCache), run) && Run(Init(cap, hasCache), run) == s
  }

  ghost predicate Inv(cap: nat, s: State) { s.cap == cap && A.Inv(Abs(s)) && Local(s) }

  lemma InitInv(cap: nat, hasCache: bool)
    ensures Inv(cap, Init(cap, hasCache))
  {
    A.InitInv(cap);
    assert Abs(Init(cap, hasCache)) == A.Init(cap);
    TotalEmpty<Id, Pc>(InFlight);
    TotalEmpty<Id, Pc>(Gauged);
    TotalEmpty<Id, Pc>(Owed);
  }

  lemma StepInv(cap: nat, s: State, a: Step)
    requires Inv(cap, s) && Enabled(s, a)
    ensures Inv(cap, Apply(s, a))
  {
    Refines(s, a);
    A.StepInv(Abs(s), AbsStep(s, a));
    A.CapFixedStep(Abs(s), AbsStep(s, a));
    StepLocal(s, a);
  }

  lemma {:induction false} RunInv(cap: nat, s: State, run: seq<Step>)
    requires Inv(cap, s) && Legal(s, run)
    ensures Inv(cap, Run(s, run))
    decreases |run|
  {
    if run != [] {
      StepInv(cap, s, run[0]);
      RunInv(cap, Apply(s, run[0]), run[1..]);
    }
  }

  lemma ReachableInv(cap: nat, hasCache: bool, s: State)
    requires Reachable(cap, hasCache, s)
    ensures Inv(cap, s)
  {
    var run :| Legal(Init(cap, hasCache), run) && Run(Init(cap, hasCache), run) == s;
    InitInv(cap, hasCache);
    RunInv(cap, Init(cap, hasCache), run);
  }

  lemma {:induction false} RunAppend(s: State, run: seq<Step>, a: Step)
    requires Legal(s, run) && Enabled(Run(s, run), a)
    ensures Legal(s, run + [a]) && Run(s, run + [a]) == Apply(Run(s, run), a)
    decreases |run|
  {
    if run == [] {
      assert [a][1..] == [];
    } else {
      RunAppend(Apply(s, run[0]), run[1..], a);
      assert (run + [a])[1..] == run[1..] + [a];
    }
  }

  lemma ReachableStep(cap: nat, hasCache: bool, s: State, a: Step)
    requires Reachable(cap, hasCache, s) && Enabled(s, a)
    ensures Reachable(cap, hasCache, Apply(s, a))
  {
    var run :| Legal(Init(cap, hasCache), run) && Run(Init(cap, hasCache), run) == s;
    RunAppend(Init(cap, hasCache), run, a);
  }

  lemma ClosesStay(s: State, a: Step)
    requires Enabled(s, a)
    ensures Apply(s, a).closes >= s.closes
  {
    Refines(s, a);
    A.ClosesStay(Abs(s), AbsStep(s, a));
  }

  lemma {:induction false} ClosesGrow(s: State, run: seq<Step>)
    requires Legal(s, run)
    ensures Run(s, run).closes >= s.closes
    decreases |run|
  {
    if run != [] {
      ClosesStay(s, run[0]);
      ClosesGrow(Apply(s, run[0]), run[1..]);
    }
  }

  /* ---------- the drain ---------- */

  // Holds a permit, from the send that took it to the receive that returns it.
  predicate Holds(pc: Pc) {
    match pc
    case InEnrich(p) => p.Rechecking? || p.Withdrawing? || p.Announcing? || p.Marking? || p.Launching?
    case InRun(j) => !j.Finished?
    case InShutdown(_) => false
  }

  // Every background call is over: its permit is back, and its result was
  // written to the cache once if it was worth caching, and never otherwise.
  ghost predicate Quiet(s: State) {
    && s.closes == 1 && s.m.started == s.m.finished
    && (forall t :: t in s.threads ==> !Holds(s.threads[t]))
    && (forall t :: t in s.threads && s.threads[t].InRun? ==>
          s.threads[t].j.Finished? && s.stores[t] == if Cacheable(s.threads[t].j.o) then 1 else 0)
  }

  lemma GaugeWithinPermits(s: State)
    ensures Total(Gauged, s.threads) <= A.JobsHold(Abs(s))
  {
    assert Units(Gauged, s.threads) <= Units(A.JobPermits, Abs(s).threads) by {
      forall u | u in Units(Gauged, s.threads) ensures u in Units(A.JobPermits, Abs(s).threads) {
        assert A.JobPermits(Abs(s).threads[u.0]) == 1;
      }
    }
    SubsetSize(Units(Gauged, s.threads), Units(A.JobPermits, Abs(s).threads));
  }

  lemma DrainedQuiet(cap: nat, s: State)
    requires Inv(cap, s) && s.closes > 0
    ensures Quiet(s)
  {
    A.QuietState(Abs(s));
    GaugeWithinPermits(s);
    forall t | t in s.threads
      ensures !Holds(s.threads[t]) && s.stores[t] == Stores(s.threads[t])
    {
      assert A.JobPermits(Abs(s).threads[t]) == 0;
    }
  }

  /** Drained means quiet: once `drained` is closed, and in every continuation,
      no background call is between admission and the return of its permit, and
      every background cache write has finished. */
  lemma DrainedIsQuiet(cap: nat, hasCache: bool, s: State, after: seq<Step>)
    requires Reachable(cap, hasCache, s) && s.closes > 0 && Legal(s, after)
    ensures Quiet(Run(s, after))
  {
    ReachableInv(cap, hasCache, s);
    RunInv(cap, s, after);
    ClosesGrow(s, after);
    DrainedQuiet(cap, Run(s, after));
  }

  /** Shutdown returned nil only after the drain: everything is quiet. */
  lemma ShutdownNil(cap: nat, hasCache: bool, s: State, t: Id)
    requires Reachable(cap, hasCache, s) && t in s.threads && s.threads[t] == InShutdown(Stopped(true))
    ensures Quiet(s)
  {
    ReachableInv(cap, hasCache, s);
    assert A.Fits(Abs(s), Abs(s).threads[t]);
    DrainedQuiet(cap, s);
  }

  predicate IsDrain(pc: Pc) { pc.InShutdown? && (pc.p.Draining? || pc.p.Closed?) }

  /** All Shutdown calls together start one drain, which closes `drained` at
      most once: a second close would panic. */
  lemma OneDrain(cap: nat, hasCache: bool, s: State)
    requires Reachable(cap, hasCache, s)
    ensures s.closes <= 1
    ensures forall a, b :: a in s.threads && b in s.threads && IsDrain(s.threads[a]) && IsDrain(s.threads[b]) ==> a == b
  {
    ReachableInv(cap, hasCache, s);
    A.OneDrain(Abs(s));
    forall a, b | a in s.threads && b in s.threads && IsDrain(s.threads[a]) && IsDrain(s.threads[b]) ensures a == b {
      DrainAbs(s.threads[a]);
      DrainAbs(s.threads[b]);
      assert a in Abs(s).threads && b in Abs(s).threads;
    }
  }

  lemma DrainAbs(pc: Pc)
    ensures IsDrain(pc) <==> A.IsDrain(AbsPc(pc)) == 1
  {
  }

  /** The channel holds exactly the permits of the calls and of the drain; the
      started-minus-finished gauge stays within the capacity. */
  lemma CapacityBound(cap: nat, hasCache: bool, s: State)
    requires Reachable(cap, hasCache, s)
    ensures s.occupied == A.JobsHold(Abs(s)) + A.DrainHolds(Abs(s)) <= cap
    ensures s.m.finished <= s.m.started <= s.m.finished + cap
  {
    ReachableInv(cap, hasCache, s);
    A.PermitShares(Abs(s));
    GaugeWithinPermits(s);
  }

  /** Neither giving a permit back nor sending a completion ever blocks, even
      when the hybrid caller has long left. */
  lemma NeverBlocks(cap: nat, hasCache: bool, s: State, t: Id, c: Choice)
    requires Reachable(cap, hasCache, s) && t in s.threads
    ensures s.threads[t] == InEnrich(Withdrawing) ==> Enabled(s, Move(t, c))
    ensures s.threads[t].InRun? && !s.threads[t].j.Finished? ==> Enabled(s, Move(t, c))
  {
    ReachableInv(cap, hasCache, s);
    A.ReleaseNeverBlocks(Abs(s), t);
    assert Sound(s, t);
  }

  /* ---------- the hybrid hand-off ---------- */

  /** At its last look a hybrid caller takes the worker's own outcome if the
      worker has sent it, and expires exactly when it has not. */
  lemma LastLookDecides(cap: nat, hasCache: bool, s: State, t: Id, w: Id, c: Choice)
    requires Reachable(cap, hasCache, s) && t in s.threads && s.threads[t] == InEnrich(LastLook(w))
    ensures w in s.threads && Enabled(s, Move(t, c))
    ensures Apply(s, Move(t, c)).threads[t] == InEnrich(
      match Settled(s.threads[w]) { case Some(o) => Returned(FromWorker(w, o)) case None => Expiring(w) })
  {
    ReachableInv(cap, hasCache, s);
    assert Sound(s, t);
  }

  /** A result handed over is the outcome of the caller's own worker, and a
      finished worker wrote its result to the cache exactly when it is worth
      caching, whatever its caller was told. */
  lemma HandedOver(cap: nat, hasCache: bool, s: State, t: Id)
    requires Reachable(cap, hasCache, s) && t in s.threads
    ensures s.threads[t].InEnrich? && s.threads[t].c.Returned? && s.threads[t].c.a.FromWorker? ==>
              var a := s.threads[t].c.a; a.w in s.threads && Settled(s.threads[a.w]) == Some(a.o)
    ensures s.threads[t].InRun? && s.threads[t].j.Finished? ==>
              s.stores[t] == if Cacheable(s.threads[t].j.o) then 1 else 0
    ensures s.threads[t].InEnrich? && s.threads[t].c.Returned? && s.threads[t].c.a.Resolved? ==>
              s.stores[t] == if Cacheable(s.threads[t].c.a.o) && s.threads[t].c.a.keyed then 1 else 0
  {
    ReachableInv(cap, hasCache, s);
    assert Sound(s, t);
    assert s.stores[t] == Stores(s.threads[t]);
  }

  /* ---------- metrics ---------- */

  /** Every counted request has exactly one outcome counted for it, returned
      silently, or is still in flight; and wait_expired never exceeds the
      background calls started: the rest are the callers not told so. */
  lemma MetricConservation(cap: nat, hasCache: bool, s: State)
    requires Reachable(cap, hasCache, s)
    ensures s.m.requests == s.m.enriched + s.m.notEnriched + s.m.apiErrors + s.m.silent + Total(InFlight, s.threads)
    ensures s.m.started == s.m.waitExpired + Total(Owed, s.threads)
    ensures s.m.waitExpired <= s.m.started
  {
    ReachableInv(cap, hasCache, s);
  }

  /* ---------- honest answers ---------- */

  /** background_limit is answered only when, at that caller's failed attempt,
      callers and background calls held every permit and the drain none. */
  lemma HonestRefusal(cap: nat, hasCache: bool, s: State, t: Id)
    requires Reachable(cap, hasCache, s) && t in s.threads && s.threads[t].InEnrich?
    requires s.threads[t].c.Returned? && s.threads[t].c.a.BackgroundLimit?
    ensures s.threads[t].c.a == BackgroundLimit(cap, 0)
  {
    ReachableInv(cap, hasCache, s);
    assert A.Fits(Abs(s), Abs(s).threads[t]);
  }

  predicate AtTheDoor(pc: Pc) { pc.InEnrich? && (pc.c.Entering? || pc.c == Returned(ShuttingDown)) }

  lemma DoorAbs(pc: Pc)
    ensures AtTheDoor(pc) <==> AbsPc(pc).Entering? || AbsPc(pc).Bounced?
    ensures Holds(pc) <==> A.JobPermits(AbsPc(pc)) == 1
  {
  }

  lemma StaysAtTheDoor(s: State, a: Step, t: Id)
    requires s.closing && Enabled(s, a) && t in s.threads && AtTheDoor(s.threads[t])
    ensures var s' := Apply(s, a); s'.closing && t in s'.threads && AtTheDoor(s'.threads[t])
  {
    Refines(s, a);
    DoorAbs(s.threads[t]);
    var s' := Apply(s, a);
    A.LateCallerStep(Abs(s), AbsStep(s, a), t);
    assert t in Abs(s').threads;
    DoorAbs(s'.threads[t]);
  }

  /** A call that begins once `closing` is stored is answered "shutting down". */
  lemma {:induction false} LateCallsAreShutOut(s: State, run: seq<Step>, t: Id)
    requires s.closing && Legal(s, run) && t in s.threads && AtTheDoor(s.threads[t])
    ensures var s' := Run(s, run); t in s'.threads && AtTheDoor(s'.threads[t])
    decreases |run|
  {
    if run != [] {
      StaysAtTheDoor(s, run[0], t);
      LateCallsAreShutOut(Apply(s, run[0]), run[1..], t);
    }
  }

  /* ---------- progress ---------- */

  ghost predicate Bouncing(s: State, a: Step)
    requires Enabled(s, a)
  {
    A.Bouncing(Abs(s), AbsStep(s, a))
  }

  ghost function ProgressCount(s: State, run: seq<Step>): nat
    requires Legal(s, run)
    decreases |run|
  {
    if run == [] then 0
    else (if Bouncing(s, run[0]) then 0 else 1) + ProgressCount(Apply(s, run[0]), run[1..])
  }

  /** Once `closing` is stored, any run takes at most `A.Measure` more steps
      that are not bounces, whoever is scheduled and however many calls arrive. */
  lemma {:induction false} DrainTerminates(cap: nat, s: State, run: seq<Step>)
    requires Inv(cap, s) && s.closing && Legal(s, run)
    ensures ProgressCount(s, run) + A.Measure(Abs(Run(s, run))) <= A.Measure(Abs(s))
    decreases |run|
  {
    if run != [] {
      Refines(s, run[0]);
      A.ProgressStep(Abs(s), AbsStep(s, run[0]));
      StepInv(cap, s, run[0]);
      DrainTerminates(cap, Apply(s, run[0]), run[1..]);
    }
  }

  lemma HolderMoves(s: State, t: Id, c: Choice)
    requires t in s.threads && Holds(s.threads[t]) && c.spawn !in s.threads
    requires s.threads[t].InRun? || s.threads[t] == InEnrich(Withdrawing) ==> Enabled(s, Move(t, c))
    ensures Enabled(s, Move(t, c)) && !Bouncing(s, Move(t, c))
  {
  }

  // A thread that the permit protocol lets move, by its part.
  ghost predicate DrainMoves(s: State, t: Id)
    requires t in s.threads
  {
    || (AbsPc(s.threads[t]).Starting? && !s.once)
    || A.Enabled(Abs(s), A.DrainOne(t))
    || A.Enabled(Abs(s), A.CloseDrained(t))
  }

  lemma PartOf(s: State, t: Id)
    requires t in s.threads
    ensures Abs(s).threads[t] == AbsPc(s.threads[t]) && Abs(s).once == s.once
    ensures DrainMoves(s, t) ==> s.threads[t].InShutdown?
    ensures A.JobPermits(AbsPc(s.threads[t])) == 1 ==> !s.threads[t].InShutdown?
  {
  }

  lemma Mover(s: State) returns (t: Id)
    requires A.Inv(Abs(s)) && s.closing && s.closes == 0
    ensures t in s.threads
    ensures DrainMoves(s, t) || A.JobPermits(AbsPc(s.threads[t])) == 1
  {
    t := A.NeverStuck(Abs(s));
    assert t in s.threads;
    PartOf(s, t);
  }

  lemma ShutdownMoves(s: State, t: Id, c: Choice)
    requires t in s.threads && s.threads[t].InShutdown? && c.spawn !in s.threads
    requires DrainMoves(s, t)
    ensures Enabled(s, Move(t, c)) && !Bouncing(s, Move(t, c))
  {
  }

  /** Until `drained` closes, some step other than a bounce can be taken. */
  lemma NeverStuck(cap: nat, hasCache: bool, s: State) returns (t: Id, c: Choice)
    requires Reachable(cap, hasCache, s) && s.closing && s.closes == 0
    ensures Enabled(s, Move(t, c)) && !Bouncing(s, Move(t, c))
  {
    ReachableInv(cap, hasCache, s);
    t := Mover(s);
    PartOf(s, t);
    var free := Unused(s.threads.Keys);
    c := Choice(Found, Miss, free, false);
    if s.threads[t].InShutdown? {
      ShutdownMoves(s, t, c);
    } else {
      HolderProceeds(cap, hasCache, s, t, c);
    }
  }

  lemma HolderProceeds(cap: nat, hasCache: bool, s: State, t: Id, c: Choice)
    requires Reachable(cap, hasCache, s) && t in s.threads && !s.threads[t].InShutdown? && c.spawn !in s.threads
    requires A.JobPermits(AbsPc(s.threads[t])) == 1
    ensures Enabled(s, Move(t, c)) && !Bouncing(s, Move(t, c))
  {
    DoorAbs(s.threads[t]);
    NeverBlocks(cap, hasCache, s, t, c);
    HolderMoves(s, t, c);
  }
}
