/** What each metric of the enricher counts, thread by thread: not only their
    sum, but every event under its own name. */
module EnricherMetrics {
  import opened Counting
  import opened Wrappers
  import opened EnricherProtocol
  import T = EnricherTheorems

  // The outcome that the thread has counted, as a caller or as a worker.
  function Counted(pc: Pc): Option<Outcome> {
    match pc
    case InEnrich(Storing(o, _)) => Some(o)
    case InEnrich(Returned(Resolved(o, _))) => Some(o)
    case InRun(Sending(_, o)) => Some(o)
    case InRun(Writing(o)) => Some(o)
    case InRun(Finishing(o)) => Some(o)
    case InRun(Releasing(o)) => Some(o)
    case InRun(Finished(o)) => Some(o)
    case _ => None
  }

  predicate Answers(pc: Pc) { pc.InEnrich? && pc.c.Returned? }

  // Has been counted as enriched: by a hit, or by an answer with identifiers.
  function Enriched(pc: Pc): nat {
    if Counted(pc) == Some(Found) || (Answers(pc) && pc.c.a == FromCache(Hit)) then 1 else 0
  }

  // As not enriched: without an endpoint, by a negative or a marker in the cache,
  // at the limit, or by an answer without identifiers or an empty one.
  function NotEnriched(pc: Pc): nat {
    if Counted(pc) == Some(NoIds) || Counted(pc) == Some(Empty) then 1
    else if Answers(pc) && (pc.c.a == Refusal(true) || pc.c.a == FromCache(Negative) || pc.c.a == FromCache(InProgress)) then 1
    else if Answers(pc) && pc.c.a.BackgroundLimit? then 1
    else 0
  }

  // As an API error: its call failed.
  function Erred(pc: Pc): nat { if Counted(pc) == Some(Failed) then 1 else 0 }

  // As late: it was told that its wait is over.
  function Late(pc: Pc): nat { if Answers(pc) && pc.c.a.WaitExpired? then 1 else 0 }

  ghost predicate Exact(s: State) {
    && s.m.enriched == Total(Enriched, s.threads) && s.m.notEnriched == Total(NotEnriched, s.threads)
    && s.m.apiErrors == Total(Erred, s.threads) && s.m.waitExpired == Total(Late, s.threads)
  }

  // A thread moves, and what it counts is what it has then counted.
  ghost predicate Counts(s: State, s': State, t: Id, pc: Pc) {
    && s'.threads == s.threads[t := pc]
    && s'.m.enriched + Of(Enriched, s.threads, t) == s.m.enriched + Enriched(pc)
    && s'.m.notEnriched + Of(NotEnriched, s.threads, t) == s.m.notEnriched + NotEnriched(pc)
    && s'.m.apiErrors + Of(Erred, s.threads, t) == s.m.apiErrors + Erred(pc)
    && s'.m.waitExpired + Of(Late, s.threads, t) == s.m.waitExpired + Late(pc)
  }

  lemma MoveExact(s: State, s': State, t: Id, pc: Pc)
    requires Exact(s) && Counts(s, s', t, pc)
    ensures Exact(s')
  {
    TotalSet(Enriched, s.threads, t, pc);
    TotalSet(NotEnriched, s.threads, t, pc);
    TotalSet(Erred, s.threads, t, pc);
    TotalSet(Late, s.threads, t, pc);
  }

  lemma AssessCounts(s: State, t: Id, req: Request, c: Choice)
    requires t in s.threads && s.threads[t] == InEnrich(Assessing(req))
    ensures var s' := FrontStep(s, t, Assessing(req), c); t in s'.threads && Counts(s, s', t, s'.threads[t])
  {
  }

  lemma LookupCounts(s: State, t: Id, mode: Mode, c: Choice)
    requires t in s.threads && s.threads[t] == InEnrich(LookingUp(mode))
    ensures var s' := FrontStep(s, t, LookingUp(mode), c); t in s'.threads && Counts(s, s', t, s'.threads[t])
  {
    if !c.lookup.Miss? { FoundCounts(s, t, mode, c); }
  }

  lemma FoundCounts(s: State, t: Id, mode: Mode, c: Choice)
    requires t in s.threads && s.threads[t] == InEnrich(LookingUp(mode)) && !c.lookup.Miss?
    ensures Counts(s, FrontStep(s, t, LookingUp(mode), c), t, InEnrich(Returned(FromCache(c.lookup))))
  {
  }

  lemma FrontCounts(s: State, t: Id, pc: Caller, c: Choice)
    requires t in s.threads && s.threads[t] == InEnrich(pc) && Front(pc)
    ensures var s' := FrontStep(s, t, pc, c); t in s'.threads && Counts(s, s', t, s'.threads[t])
  {
    match pc
    case Assessing(req) => AssessCounts(s, t, req, c);
    case LookingUp(mode) => LookupCounts(s, t, mode, c);
    case _ =>
  }

  lemma SyncCounts(s: State, t: Id, pc: Caller, c: Choice)
    requires t in s.threads && s.threads[t] == InEnrich(pc) && OwnCall(pc)
    ensures var s' := SyncStep(s, t, pc, c); t in s'.threads && Counts(s, s', t, s'.threads[t])
  {
    if pc.Noting? { NoteCounts(s, t, pc.o, pc.keyed, c); }
  }

  lemma NoteCounts(s: State, t: Id, o: Outcome, keyed: bool, c: Choice)
    requires t in s.threads && s.threads[t] == InEnrich(Noting(o, keyed))
    ensures Counts(s, SyncStep(s, t, Noting(o, keyed), c), t,
      InEnrich(if o.Failed? then Returned(Resolved(o, keyed)) else Storing(o, keyed)))
  {
  }

  lemma PoolCounts(s: State, t: Id, pc: Caller, c: Choice)
    requires t in s.threads && s.threads[t] == InEnrich(pc) && AtPool(pc) && CanMove(s, t, InEnrich(pc), c)
    ensures var s' := AdmissionStep(s, t, pc, c); t in s'.threads && Counts(s, s', t, s'.threads[t])
  {
    if pc.Scheduling? { ScheduleCounts(s, t, pc.mode, pc.keyed, c); }
    else if pc.Refused? { RefusedCounts(s, t, pc.jobs, pc.drain, c); }
    else if pc.Withdrawing? { WithdrawCounts(s, t, c); }
  }

  lemma ScheduleCounts(s: State, t: Id, mode: Mode, keyed: bool, c: Choice)
    requires t in s.threads && s.threads[t] == InEnrich(Scheduling(mode, keyed))
    ensures var s' := AdmissionStep(s, t, Scheduling(mode, keyed), c); t in s'.threads && Counts(s, s', t, s'.threads[t])
  {
    var s' := AdmissionStep(s, t, Scheduling(mode, keyed), c);
    QuietCounts(s, s', t, s'.threads[t]);
  }

  // A move without an event, between places that have counted nothing.
  lemma QuietCounts(s: State, s': State, t: Id, pc: Pc)
    requires s'.threads == s.threads[t := pc] && s'.m == s.m && t in s.threads
    requires Counted(pc).None? && Counted(s.threads[t]).None? && !Answers(pc) && !Answers(s.threads[t])
    ensures Counts(s, s', t, pc)
  {
  }

  lemma WithdrawCounts(s: State, t: Id, c: Choice)
    requires t in s.threads && s.threads[t] == InEnrich(Withdrawing) && s.occupied > 0
    ensures Counts(s, AdmissionStep(s, t, Withdrawing, c), t, InEnrich(Returned(ShuttingDown)))
  {
  }

  lemma RefusedCounts(s: State, t: Id, jobs: nat, drain: nat, c: Choice)
    requires t in s.threads && s.threads[t] == InEnrich(Refused(jobs, drain))
    ensures Counts(s, AdmissionStep(s, t, Refused(jobs, drain), c), t,
      InEnrich(Returned(if s.closing then ShuttingDown else BackgroundLimit(jobs, drain))))
  {
  }

  lemma BackCounts(s: State, t: Id, pc: Caller, c: Choice)
    requires t in s.threads && s.threads[t] == InEnrich(pc) && CanMove(s, t, InEnrich(pc), c)
    requires !Front(pc) && !OwnCall(pc) && !AtPool(pc) && !pc.Launching?
    ensures var s' := BackStep(s, t, pc, c); t in s'.threads && Counts(s, s', t, s'.threads[t])
  {
    if pc.Waiting? || pc.LastLook? { WaitCounts(s, t, pc, c); }
  }

  lemma WaitCounts(s: State, t: Id, pc: Caller, c: Choice)
    requires t in s.threads && s.threads[t] == InEnrich(pc) && CanMove(s, t, InEnrich(pc), c)
    requires pc.Waiting? || pc.LastLook?
    ensures var s' := BackStep(s, t, pc, c); t in s'.threads && Counts(s, s', t, s'.threads[t])
  {
  }

  lemma LaunchExact(s: State, t: Id, mode: Mode, c: Choice)
    requires Exact(s) && t in s.threads && s.threads[t] == InEnrich(Launching(mode)) && c.spawn !in s.threads
    ensures Exact(BackStep(s, t, Launching(mode), c))
  {
    var s' := BackStep(s, t, Launching(mode), c);
    MoveExact(s, Goto(s, t, s'.threads[t]), t, s'.threads[t]);
    MoveExact(Goto(s, t, s'.threads[t]), s', c.spawn, s'.threads[c.spawn]);
  }

  lemma CallerExact(s: State, t: Id, pc: Caller, c: Choice)
    requires Exact(s) && t in s.threads && s.threads[t] == InEnrich(pc) && CanMove(s, t, InEnrich(pc), c)
    ensures Exact(CallerStep(s, t, pc, c))
  {
    if pc.Launching? {
      LaunchExact(s, t, pc.mode, c);
    } else {
      if Front(pc) { FrontCounts(s, t, pc, c); }
      else if OwnCall(pc) { SyncCounts(s, t, pc, c); }
      else if AtPool(pc) { PoolCounts(s, t, pc, c); }
      else { BackCounts(s, t, pc, c); }
      MoveExact(s, CallerStep(s, t, pc, c), t, CallerStep(s, t, pc, c).threads[t]);
    }
  }

  lemma JobCounts(s: State, t: Id, pc: Worker, c: Choice)
    requires t in s.threads && s.threads[t] == InRun(pc) && CanMove(s, t, InRun(pc), c)
    ensures var s' := JobStep(s, t, pc, c); t in s'.threads && Counts(s, s', t, s'.threads[t])
  {
    if pc.Reporting? { ReportCounts(s, t, pc.done, pc.o, c); }
  }

  lemma ReportCounts(s: State, t: Id, done: Option<Id>, o: Outcome, c: Choice)
    requires t in s.threads && s.threads[t] == InRun(Reporting(done, o))
    ensures Counts(s, JobStep(s, t, Reporting(done, o), c), t, InRun(if done.Some? then Sending(done.value, o) else AfterSend(o)))
  {
  }

  lemma ShutdownExact(s: State, t: Id, pc: Stopper, c: Choice)
    requires Exact(s) && t in s.threads && s.threads[t] == InShutdown(pc) && CanMove(s, t, InShutdown(pc), c)
    ensures Exact(ShutdownStep(s, t, pc, c))
  {
    var s' := ShutdownStep(s, t, pc, c);
    if pc.Starting? && !s.once {
      MoveExact(s, GotoShutdown(s, t, Awaiting), t, InShutdown(Awaiting));
      MoveExact(GotoShutdown(s, t, Awaiting), s', c.spawn, InShutdown(Draining(0)));
    } else {
      MoveExact(s, s', t, s'.threads[t]);
    }
  }

  lemma StepExact(s: State, a: Step)
    requires Exact(s) && Enabled(s, a)
    ensures Exact(Apply(s, a))
  {
    match a
    case Call(t, req) => MoveExact(s, Apply(s, a), t, InEnrich(Entering(req)));
    case CallShutdown(t) => MoveExact(s, Apply(s, a), t, InShutdown(StoringClosing));
    case Move(t, c) =>
      match s.threads[t]
      case InEnrich(pc) => CallerExact(s, t, pc, c);
      case InRun(pc) =>
        JobCounts(s, t, pc, c);
        MoveExact(s, JobStep(s, t, pc, c), t, JobStep(s, t, pc, c).threads[t]);
      case InShutdown(pc) => ShutdownExact(s, t, pc, c);
  }

  lemma {:induction false} RunExact(s: State, run: seq<Step>)
    requires Exact(s) && Legal(s, run)
    ensures Exact(Run(s, run))
    decreases |run|
  {
    if run != [] {
      StepExact(s, run[0]);
      RunExact(Apply(s, run[0]), run[1..]);
    }
  }

  /** In every interleaving each metric is the number of threads with its own
      event behind them: hits and answers with identifiers, the ways of not being
      enriched, failed calls, and callers told that their wait is over. */
  lemma MetricsExact(cap: nat, hasCache: bool, s: State)
    requires T.Reachable(cap, hasCache, s)
    ensures s.m.enriched == Total(Enriched, s.threads) && s.m.notEnriched == Total(NotEnriched, s.threads)
    ensures s.m.apiErrors == Total(Erred, s.threads) && s.m.waitExpired == Total(Late, s.threads)
  {
    var run :| Legal(Init(cap, hasCache), run) && Run(Init(cap, hasCache), run) == s;
    TotalEmpty<Id, Pc>(Enriched);
    TotalEmpty<Id, Pc>(NotEnriched);
    TotalEmpty<Id, Pc>(Erred);
    TotalEmpty<Id, Pc>(Late);
    RunExact(Init(cap, hasCache), run);
  }
}
