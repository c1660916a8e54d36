/** The reporter's instance of the admission protocol: TryReport callers, one
    goroutine per accepted report with its panic containment, Shutdown callers
    and the drain, together with the metric events they emit. */
module ReporterProtocol {
  import opened Counting
  import opened Wrappers
  import A = Admission

  type Id = A.Id

  datatype Reply = ReportAccepted | ReportAtCapacity | ReportShuttingDown

  // How the reporting API call ends.
  datatype Outcome = Delivered | Failed | Panicked

  // TryReport. `url` says that the job has an endpoint to report to; `jobs`
  // and `drain` record who held the permits when an attempt to take one failed.
  datatype Caller =
    | Entering(url: bool)
    | Trying(url: bool)
    | Refused(jobs: nat, drain: nat)
    | Rechecking(url: bool)
    | Withdrawing
    | Rejecting(reply: Reply, jobs: nat, drain: nat)   // about to emit ImpressionRejected
    | Announcing(url: bool)                            // about to emit ReportingStarted
    | Launching(url: bool)                             // about to start the goroutine
    | Replied(reply: Reply, jobs: nat, drain: nat)

  // run
  datatype Worker =
    | Running(url: bool)
    | Calling
    | Noting(ok: bool)                                 // about to emit Reported or Error
    | Finishing(panicked: bool)                        // about to emit ReportingFinished
    | Releasing(panicked: bool)                        // about to give the permit back
    | Recording                                        // recovered; about to emit Error
    | Finished

  // Shutdown and the drain it starts
  datatype Stopper =
    | Storing | Starting | Awaiting | Stopped(ok: bool)
    | Draining(taken: nat) | Closed(held: nat)

  datatype Pc = InTryReport(c: Caller) | InRun(j: Worker) | InShutdown(p: Stopper)

  datatype Metrics = Metrics(
    accepted: nat, atCapacity: nat, shuttingDown: nat,
    started: nat, finished: nat,
    reported: nat, errors: nat, empty: nat)

  datatype State = State(
    cap: nat, occupied: nat, closing: bool, once: bool, closes: nat, cancelled: bool,
    threads: map<Id, Pc>, m: Metrics)

  // What the scheduler and the environment decide in a step.
  datatype Choice = Choice(outcome: Outcome, spawn: Id, ok: bool)

  datatype Step = Call(t: Id, url: bool) | CallShutdown(t: Id) | Move(t: Id, c: Choice)

  function Init(cap: nat): State {
    State(cap, 0, false, false, 0, false, map[], Metrics(0, 0, 0, 0, 0, 0, 0, 0))
  }

  function Goto(s: State, t: Id, pc: Pc): State { s.(threads := s.threads[t := pc]) }

  function GotoCaller(s: State, t: Id, pc: Caller): State { Goto(s, t, InTryReport(pc)) }

  function GotoJob(s: State, t: Id, pc: Worker): State { Goto(s, t, InRun(pc)) }

  function GotoShutdown(s: State, t: Id, pc: Stopper): State { Goto(s, t, InShutdown(pc)) }

  predicate CanMove(s: State, pc: Pc, c: Choice) {
    match pc
    case InTryReport(p) =>
      && !p.Replied?
      && (p.Withdrawing? ==> s.occupied > 0)
      && (p.Launching? ==> c.spawn !in s.threads)
    case InRun(j) => !j.Finished? && (j.Releasing? ==> s.occupied > 0)
    case InShutdown(p) =>
      && !p.Stopped? && !p.Closed?
      && (p.Starting? ==> c.spawn !in s.threads)
      && (p.Awaiting? && c.ok ==> s.closes > 0)
      && (p.Draining? && p.taken < s.cap ==> s.occupied < s.cap)
  }

  predicate Enabled(s: State, a: Step) {
    match a
    case Call(t, _) => t !in s.threads
    case CallShutdown(t) => t !in s.threads
    case Move(t, c) => t in s.threads && CanMove(s, s.threads[t], c)
  }

  ghost function CallerStep(s: State, t: Id, pc: Caller, c: Choice): State
    requires CanMove(s, InTryReport(pc), c)
  {
    match pc
    case Entering(url) =>
      GotoCaller(s, t, if s.closing then Rejecting(ReportShuttingDown, 0, 0) else Trying(url))
    case Trying(url) =>
      if s.occupied < s.cap then GotoCaller(s, t, Rechecking(url)).(occupied := s.occupied + 1)
      else GotoCaller(s, t, Refused(A.JobsHold(Abs(s)), A.DrainHolds(Abs(s))))
    case Refused(jobs, drain) =>
      GotoCaller(s, t, if s.closing then Rejecting(ReportShuttingDown, 0, 0) else Rejecting(ReportAtCapacity, jobs, drain))
    case Rechecking(url) => GotoCaller(s, t, if s.closing then Withdrawing else Announcing(url))
    case Withdrawing => GotoCaller(s, t, Rejecting(ReportShuttingDown, 0, 0)).(occupied := s.occupied - 1)
    case Rejecting(reply, jobs, drain) =>
      GotoCaller(s, t, Replied(reply, jobs, drain)).(m :=
        if reply.ReportAtCapacity? then s.m.(atCapacity := s.m.atCapacity + 1)
        else s.m.(shuttingDown := s.m.shuttingDown + 1))
    case Announcing(url) => GotoCaller(s, t, Launching(url)).(m := s.m.(started := s.m.started + 1))
    case Launching(url) =>
      GotoJob(GotoCaller(s, t, Replied(ReportAccepted, 0, 0)), c.spawn, Running(url))
        .(m := s.m.(accepted := s.m.accepted + 1))
  }

  function JobStep(s: State, t: Id, pc: Worker, c: Choice): State
    requires CanMove(s, InRun(pc), c)
  {
    match pc
    case Running(url) =>
      if url then GotoJob(s, t, Calling)
      else GotoJob(s, t, Finishing(false)).(m := s.m.(empty := s.m.empty + 1))
    case Calling => GotoJob(s, t, if c.outcome.Panicked? then Finishing(true) else Noting(c.outcome.Delivered?))
    case Noting(ok) =>
      GotoJob(s, t, Finishing(false)).(m :=
        if ok then s.m.(reported := s.m.reported + 1) else s.m.(errors := s.m.errors + 1))
    case Finishing(panicked) => GotoJob(s, t, Releasing(panicked)).(m := s.m.(finished := s.m.finished + 1))
    case Releasing(panicked) =>
      GotoJob(s, t, if panicked then Recording else Finished).(occupied := s.occupied - 1)
    case Recording => GotoJob(s, t, Finished).(m := s.m.(errors := s.m.errors + 1))
  }

  function ShutdownStep(s: State, t: Id, pc: Stopper, c: Choice): State
    requires CanMove(s, InShutdown(pc), c)
  {
    match pc
    case Storing => GotoShutdown(s, t, Starting).(closing := true)
    case Starting =>
      if s.once then GotoShutdown(s, t, Awaiting)
      else GotoShutdown(GotoShutdown(s, t, Awaiting), c.spawn, Draining(0)).(once := true)
    case Awaiting => GotoShutdown(s, t, Stopped(c.ok)).(cancelled := true)
    case Draining(taken) =>
      if taken < s.cap then GotoShutdown(s, t, Draining(taken + 1)).(occupied := s.occupied + 1)
      else GotoShutdown(s, t, Closed(taken)).(closes := s.closes + 1)
  }

  ghost function Apply(s: State, a: Step): State
    requires Enabled(s, a)
  {
    match a
    case Call(t, url) => GotoCaller(s, t, Entering(url))
    case CallShutdown(t) => GotoShutdown(s, t, Storing)
    case Move(t, c) =>
      match s.threads[t] {
        case InTryReport(pc) => CallerStep(s, t, pc, c)
        case InRun(pc) => JobStep(s, t, pc, c)
        case InShutdown(pc) => ShutdownStep(s, t, pc, c)
      }
  }

  ghost predicate Legal(s: State, run: seq<Step>)
    decreases |run|
  {
    run == [] || (Enabled(s, run[0]) && Legal(Apply(s, run[0]), run[1..]))
  }

  ghost function Run(s: State, run: seq<Step>): State
    requires Legal(s, run)
    decreases |run|
  {
    if run == [] then s else Run(Apply(s, run[0]), run[1..])
  }

  /* ---------- the reporter takes protocol steps ---------- */

  function AbsCaller(pc: Caller): A.Pc {
    match pc
    case Entering(_) => A.Entering
    case Trying(_) => A.Trying(9)
    case Refused(jobs, drain) => A.Refused(jobs, drain)
    case Rechecking(_) => A.Rechecking(8)
    case Withdrawing => A.Withdrawing
    case Rejecting(reply, jobs, drain) => AbsReply(reply, jobs, drain)
    case Replied(reply, jobs, drain) => AbsReply(reply, jobs, drain)
    case Announcing(_) => A.Admitted(7)
    case Launching(_) => A.Admitted(6)
  }

  function AbsReply(reply: Reply, jobs: nat, drain: nat): A.Pc {
    match reply
    case ReportAccepted => A.Outside
    case ReportAtCapacity => A.Denied(jobs, drain)
    case ReportShuttingDown => A.Bounced
  }

  function AbsJob(pc: Worker): A.Pc {
    match pc
    case Running(_) => A.Working(5)
    case Calling => A.Working(4)
    case Noting(_) => A.Working(3)
    case Finishing(_) => A.Working(2)
    case Releasing(_) => A.Working(1)
    case Recording => A.Outside
    case Finished => A.Outside
  }

  function AbsShutdown(pc: Stopper): A.Pc {
    match pc
    case Storing => A.Storing
    case Starting => A.Starting
    case Awaiting => A.Awaiting
    case Stopped(ok) => A.Stopped(ok)
    case Draining(taken) => A.Draining(taken)
    case Closed(held) => A.Closed(held)
  }

  function AbsPc(pc: Pc): A.Pc {
    match pc
    case InTryReport(p) => AbsCaller(p)
    case InRun(p) => AbsJob(p)
    case InShutdown(p) => AbsShutdown(p)
  }

  function AbsThreads(m: map<Id, Pc>): map<Id, A.Pc> {
    map t | t in m :: AbsPc(m[t])
  }

  function Abs(s: State): A.State {
    A.State(s.cap, s.occupied, s.closing, s.once, s.closes, AbsThreads(s.threads))
  }

  // The protocol step that a reporter step takes, or none when it only emits
  // a metric event for a thread that is done with the pool.
  function AbsStep(s: State, a: Step): A.Step
    requires Enabled(s, a)
  {
    match a
    case Call(t, _) => A.Call(t)
    case CallShutdown(t) => A.CallShutdown(t)
    case Move(t, c) =>
      match s.threads[t] {
        case InTryReport(pc) => AbsCallerStep(t, pc, c)
        case InRun(pc) => AbsJobStep(t, pc, c)
        case InShutdown(pc) => AbsShutdownStep(s.cap, t, pc, c)
      }
  }

  function AbsCallerStep(t: Id, pc: Caller, c: Choice): A.Step {
    match pc
    case Entering(_) => A.ReadClosing(t, 9)
    case Trying(_) => A.TryAcquire(t, 8)
    case Refused(_, _) => A.ReadClosingAgain(t, 0)
    case Rechecking(_) => A.ReadClosingAgain(t, 7)
    case Withdrawing => A.Withdraw(t)
    case Announcing(_) => A.Internal(t, 6)
    case Launching(_) => A.Spawn(t, c.spawn, 5)
    case _ => A.Stutter
  }

  function AbsJobStep(t: Id, pc: Worker, c: Choice): A.Step {
    match pc
    case Running(url) => A.Internal(t, if url then 4 else 2)
    case Calling => A.Internal(t, if c.outcome.Panicked? then 2 else 3)
    case Noting(_) => A.Internal(t, 2)
    case Finishing(_) => A.Internal(t, 1)
    case Releasing(_) => A.Release(t)
    case _ => A.Stutter
  }

  function AbsShutdownStep(cap: nat, t: Id, pc: Stopper, c: Choice): A.Step {
    match pc
    case Storing => A.StoreClosing(t)
    case Starting => A.DoOnce(t, c.spawn)
    case Awaiting => A.Return(t, c.ok)
    case Draining(taken) => if taken < cap then A.DrainOne(t) else A.CloseDrained(t)
    case _ => A.Stutter
  }

  ghost predicate Simulated(x: A.State, b: A.Step, y: A.State) {
    A.Enabled(x, b) && A.Apply(x, b) == y
  }

  lemma AbsSet(m: map<Id, Pc>, t: Id, pc: Pc)
    ensures AbsThreads(m[t := pc]) == AbsThreads(m)[t := AbsPc(pc)]
  {
  }

  // A move that also starts a thread.
  lemma AbsSpawn(m: map<Id, Pc>, t: Id, pc: Pc, u: Id, first: Pc)
    ensures AbsThreads(m[t := pc][u := first]) == AbsThreads(m)[t := AbsPc(pc)][u := AbsPc(first)]
  {
    AbsSet(m, t, pc);
    AbsSet(m[t := pc], u, first);
  }

  lemma CallerRefines(s: State, t: Id, pc: Caller, c: Choice)
    requires t in s.threads && s.threads[t] == InTryReport(pc) && CanMove(s, InTryReport(pc), c)
    ensures Simulated(Abs(s), AbsCallerStep(t, pc, c), Abs(CallerStep(s, t, pc, c)))
  {
    if pc.Launching? {
      LaunchRefines(s, t, pc.url, c);
    } else if pc.Entering? || pc.Trying? || pc.Refused? || pc.Rechecking? {
      LookRefines(s, t, pc, c);
    } else {
      AbsSet(s.threads, t, CallerStep(s, t, pc, c).threads[t]);
    }
  }

  lemma LookRefines(s: State, t: Id, pc: Caller, c: Choice)
    requires t in s.threads && s.threads[t] == InTryReport(pc)
    requires pc.Entering? || pc.Trying? || pc.Refused? || pc.Rechecking?
    ensures Simulated(Abs(s), AbsCallerStep(t, pc, c), Abs(CallerStep(s, t, pc, c)))
  {
    AbsSet(s.threads, t, CallerStep(s, t, pc, c).threads[t]);
  }

  lemma LaunchRefines(s: State, t: Id, url: bool, c: Choice)
    requires t in s.threads && s.threads[t] == InTryReport(Launching(url)) && c.spawn !in s.threads
    ensures Simulated(Abs(s), A.Spawn(t, c.spawn, 5), Abs(CallerStep(s, t, Launching(url), c)))
  {
    AbsSpawn(s.threads, t, InTryReport(Replied(ReportAccepted, 0, 0)), c.spawn, InRun(Running(url)));
  }

  lemma JobRefines(s: State, t: Id, pc: Worker, c: Choice)
    requires t in s.threads && s.threads[t] == InRun(pc) && CanMove(s, InRun(pc), c)
    ensures Simulated(Abs(s), AbsJobStep(t, pc, c), Abs(JobStep(s, t, pc, c)))
  {
    if pc.Releasing? || pc.Recording? {
      AbsSet(s.threads, t, JobStep(s, t, pc, c).threads[t]);
    } else {
      WorkRefines(s, t, pc, c);
    }
  }

  lemma WorkRefines(s: State, t: Id, pc: Worker, c: Choice)
    requires t in s.threads && s.threads[t] == InRun(pc) && CanMove(s, InRun(pc), c) && !pc.Releasing? && !pc.Recording?
    ensures Simulated(Abs(s), AbsJobStep(t, pc, c), Abs(JobStep(s, t, pc, c)))
  {
    var s' := JobStep(s, t, pc, c);
    AbsSet(s.threads, t, s'.threads[t]);
    A.InternalStep(Abs(s), t, AbsPc(s'.threads[t]));
  }

  lemma ShutdownRefines(s: State, t: Id, pc: Stopper, c: Choice)
    requires t in s.threads && s.threads[t] == InShutdown(pc) && CanMove(s, InShutdown(pc), c)
    ensures Simulated(Abs(s), AbsShutdownStep(s.cap, t, pc, c), Abs(ShutdownStep(s, t, pc, c)))
  {
    if pc.Starting? {
      OnceRefines(s, t, c);
    } else {
      AbsSet(s.threads, t, ShutdownStep(s, t, pc, c).threads[t]);
    }
  }

  lemma OnceRefines(s: State, t: Id, c: Choice)
    requires t in s.threads && s.threads[t] == InShutdown(Starting) && c.spawn !in s.threads
    ensures Simulated(Abs(s), A.DoOnce(t, c.spawn), Abs(ShutdownStep(s, t, Starting, c)))
  {
    AbsSet(s.threads, t, InShutdown(Awaiting));
    AbsSpawn(s.threads, t, InShutdown(Awaiting), c.spawn, InShutdown(Draining(0)));
  }

  /** Every reporter step is a protocol step or leaves the pool alone. */
  lemma Refines(s: State, a: Step)
    requires Enabled(s, a)
    ensures Simulated(Abs(s), AbsStep(s, a), Abs(Apply(s, a)))
  {
    match a
    case Call(t, url) => AbsSet(s.threads, t, InTryReport(Entering(url)));
    case CallShutdown(t) => AbsSet(s.threads, t, InShutdown(Storing));
    case Move(t, c) =>
      match s.threads[t] {
        case InTryReport(pc) => CallerRefines(s, t, pc, c);
        case InRun(pc) => JobRefines(s, t, pc, c);
        case InShutdown(pc) => ShutdownRefines(s, t, pc, c);
      }
  }

  /* ---------- what the metric events add up to ---------- */

  // A job whose report has not been counted as delivered, failed or empty.
  function InFlight(pc: Pc): nat {
    match pc
    case InRun(j) =>
      if j.Running? || j.Calling? || j.Noting? || j.Recording? then 1
      else if (j.Finishing? || j.Releasing?) && j.panicked then 1
      else 0
    case _ => 0
  }

  // Between ReportingStarted and ReportingFinished.
  function Gauged(pc: Pc): nat {
    match pc
    case InTryReport(p) => if p.Launching? then 1 else 0
    case InRun(j) => if j.Running? || j.Calling? || j.Noting? || j.Finishing? then 1 else 0
    case _ => 0
  }

  function Accepted(pc: Pc): nat { if pc.InTryReport? && pc.c.Replied? && pc.c.reply.ReportAccepted? then 1 else 0 }

  function AtCapacity(pc: Pc): nat { if pc.InTryReport? && pc.c.Replied? && pc.c.reply.ReportAtCapacity? then 1 else 0 }

  function ShutOut(pc: Pc): nat { if pc.InTryReport? && pc.c.Replied? && pc.c.reply.ReportShuttingDown? then 1 else 0 }

  /** Every accepted report is in flight, reported, failed or empty, and the
      gauge is up for exactly the reports between Started and Finished. */
  ghost predicate Reports(s: State) {
    && s.m.accepted == Total(InFlight, s.threads) + s.m.reported + s.m.errors + s.m.empty
    && s.m.started == Total(Gauged, s.threads) + s.m.finished
    && (s.cancelled ==> s.closing)
  }

  /** Every answer was counted once under its own name. */
  ghost predicate Answers(s: State) {
    && s.m.accepted == Total(Accepted, s.threads)
    && s.m.atCapacity == Total(AtCapacity, s.threads)
    && s.m.shuttingDown == Total(ShutOut, s.threads)
    && forall t :: t in s.threads ==> Proper(s.threads[t])
  }

  predicate Proper(pc: Pc) { pc.InTryReport? && pc.c.Rejecting? ==> !pc.c.reply.ReportAccepted? }

  ghost predicate Books(s: State) { Reports(s) && Answers(s) }

  /** One thread moves and the books still balance, provided the events it
      emits account for what it owed before and owes now. */
  lemma Tallied(s: State, s': State, t: Id, pc: Pc)
    requires Books(s) && s'.threads == s.threads[t := pc] && Proper(pc)
    requires s'.m.accepted + Of(InFlight, s.threads, t) + s.m.reported + s.m.errors + s.m.empty
          == s.m.accepted + InFlight(pc) + s'.m.reported + s'.m.errors + s'.m.empty
    requires s'.m.started + Of(Gauged, s.threads, t) + s.m.finished == s.m.started + Gauged(pc) + s'.m.finished
    requires s'.m.accepted + Of(Accepted, s.threads, t) == s.m.accepted + Accepted(pc)
    requires s'.m.atCapacity + Of(AtCapacity, s.threads, t) == s.m.atCapacity + AtCapacity(pc)
    requires s'.m.shuttingDown + Of(ShutOut, s.threads, t) == s.m.shuttingDown + ShutOut(pc)
    requires s'.cancelled ==> s'.closing
    ensures Books(s')
  {
    TotalSet(InFlight, s.threads, t, pc);
    TotalSet(Gauged, s.threads, t, pc);
    TotalSet(Accepted, s.threads, t, pc);
    TotalSet(AtCapacity, s.threads, t, pc);
    TotalSet(ShutOut, s.threads, t, pc);
  }

  lemma StepBooks(s: State, a: Step)
    requires Books(s) && Enabled(s, a) && A.Inv(Abs(s))
    ensures Books(Apply(s, a))
  {
    match a
    case Call(t, url) => Tallied(s, Apply(s, a), t, InTryReport(Entering(url)));
    case CallShutdown(t) => Tallied(s, Apply(s, a), t, InShutdown(Storing));
    case Move(t, c) =>
      match s.threads[t] {
        case InTryReport(pc) => CallerBooks(s, t, pc, c);
        case InRun(pc) => JobBooks(s, t, pc, c);
        case InShutdown(pc) =>
          assert A.Fits(Abs(s), Abs(s).threads[t]);
          ShutdownBooks(s, t, pc, c);
      }
  }

  lemma CallerBooks(s: State, t: Id, pc: Caller, c: Choice)
    requires Books(s) && t in s.threads && s.threads[t] == InTryReport(pc) && CanMove(s, InTryReport(pc), c)
    ensures Books(CallerStep(s, t, pc, c))
  {
    var s' := CallerStep(s, t, pc, c);
    assert Proper(s.threads[t]);
    if pc.Launching? {
      LaunchBooks(s, t, pc.url, c);
    } else {
      Tallied(s, s', t, s'.threads[t]);
    }
  }

  lemma LaunchBooks(s: State, t: Id, url: bool, c: Choice)
    requires Books(s) && t in s.threads && s.threads[t] == InTryReport(Launching(url)) && c.spawn !in s.threads
    ensures Books(CallerStep(s, t, Launching(url), c))
  {
    var done, job := InTryReport(Replied(ReportAccepted, 0, 0)), InRun(Running(url));
    TotalSpawn(InFlight, s.threads, t, done, c.spawn, job);
    TotalSpawn(Gauged, s.threads, t, done, c.spawn, job);
    TotalSpawn(Accepted, s.threads, t, done, c.spawn, job);
    TotalSpawn(AtCapacity, s.threads, t, done, c.spawn, job);
    TotalSpawn(ShutOut, s.threads, t, done, c.spawn, job);
  }

  lemma JobBooks(s: State, t: Id, pc: Worker, c: Choice)
    requires Books(s) && t in s.threads && s.threads[t] == InRun(pc) && CanMove(s, InRun(pc), c)
    ensures Books(JobStep(s, t, pc, c))
  {
    var s' := JobStep(s, t, pc, c);
    if pc.Finishing? || pc.Releasing? || pc.Recording? {
      Tallied(s, s', t, s'.threads[t]);
    } else {
      WorkBooks(s, t, pc, c);
    }
  }

  lemma WorkBooks(s: State, t: Id, pc: Worker, c: Choice)
    requires Books(s) && t in s.threads && s.threads[t] == InRun(pc) && (pc.Running? || pc.Calling? || pc.Noting?)
    ensures Books(JobStep(s, t, pc, c))
  {
    Tallied(s, JobStep(s, t, pc, c), t, JobStep(s, t, pc, c).threads[t]);
  }

  lemma ShutdownBooks(s: State, t: Id, pc: Stopper, c: Choice)
    requires Books(s) && t in s.threads && s.threads[t] == InShutdown(pc) && CanMove(s, InShutdown(pc), c)
    requires pc.Awaiting? ==> s.closing
    ensures Books(ShutdownStep(s, t, pc, c))
  {
    if pc.Starting? && !s.once {
      Tallied(s, GotoShutdown(s, t, Awaiting), t, InShutdown(Awaiting));
      Tallied(GotoShutdown(s, t, Awaiting), ShutdownStep(s, t, pc, c), c.spawn, InShutdown(Draining(0)));
    } else {
      Tallied(s, ShutdownStep(s, t, pc, c), t, ShutdownStep(s, t, pc, c).threads[t]);
    }
  }

  /* ---------- every reachable state ---------- */

  ghost predicate Reachable(cap: nat, s: State) {
    exists run :: Legal(Init(cap), run) && Run(Init(cap), run) == s
  }

  ghost predicate Inv(cap: nat, s: State) { s.cap == cap && A.Inv(Abs(s)) && Books(s) }

  lemma InitInv(cap: nat)
    ensures Inv(cap, Init(cap))
  {
    A.InitInv(cap);
    assert Abs(Init(cap)) == A.Init(cap);
    TotalEmpty<Id, Pc>(InFlight);
    TotalEmpty<Id, Pc>(Gauged);
    TotalEmpty<Id, Pc>(Accepted);
    TotalEmpty<Id, Pc>(AtCapacity);
    TotalEmpty<Id, Pc>(ShutOut);
  }

  lemma StepInv(cap: nat, s: State, a: Step)
    requires Inv(cap, s) && Enabled(s, a)
    ensures Inv(cap, Apply(s, a))
  {
    Refines(s, a);
    A.StepInv(Abs(s), AbsStep(s, a));
    A.CapFixedStep(Abs(s), AbsStep(s, a));
    StepBooks(s, a);
  }

  lemma {:induction false} RunInv(cap: nat, s: State, run: seq<Step>)
    requires Inv(cap, s) && Legal(s, run)
    ensures Inv(cap, Run(s, run))
    decreases |run|
  {
    if run != [] {
      StepInv(cap, s, run[0]);
      RunInv(cap, Apply(s, run[0]), run[1..]);
    }
  }

  lemma ReachableInv(cap: nat, s: State)
    requires Reachable(cap, s)
    ensures Inv(cap, s)
  {
    var run :| Legal(Init(cap), run) && Run(Init(cap), run) == s;
    InitInv(cap);
    RunInv(cap, Init(cap), run);
  }

  lemma {:induction false} RunAppend(s: State, run: seq<Step>, a: Step)
    requires Legal(s, run) && Enabled(Run(s, run), a)
    ensures Legal(s, run + [a]) && Run(s, run + [a]) == Apply(Run(s, run), a)
    decreases |run|
  {
    if run == [] {
      assert [a][1..] == [];
    } else {
      RunAppend(Apply(s, run[0]), run[1..], a);
      assert (run + [a])[1..] == run[1..] + [a];
    }
  }

  lemma ReachableStep(cap: nat, s: State, a: Step)
    requires Reachable(cap, s) && Enabled(s, a)
    ensures Reachable(cap, Apply(s, a))
  {
    var run :| Legal(Init(cap), run) && Run(Init(cap), run) == s;
    RunAppend(Init(cap), run, a);
  }

  // Holds a permit, from the send that took it to the receive that returns it.
  predicate Holds(pc: Pc) {
    match pc
    case InTryReport(p) => p.Rechecking? || p.Withdrawing? || p.Announcing? || p.Launching?
    case InRun(j) => !j.Recording? && !j.Finished?
    case InShutdown(_) => false
  }

  lemma QuietReports(cap: nat, s: State)
    requires Inv(cap, s) && s.closes > 0
    ensures s.closes == 1 && s.m.started == s.m.finished
    ensures forall t :: t in s.threads ==> !Holds(s.threads[t])
  {
    A.QuietState(Abs(s));
    forall t | t in s.threads ensures !Holds(s.threads[t]) {
      assert A.JobPermits(Abs(s).threads[t]) == 0;
    }
    GaugeWithinPermits(s);
  }

  /** Drained means quiet: once `drained` is closed, and in every continuation,
      no report is between admission and the return of its permit, and every
      accepted report has been counted, save panics still being recorded. */
  lemma DrainedIsQuiet(cap: nat, s: State, after: seq<Step>)
    requires Reachable(cap, s) && s.closes > 0 && Legal(s, after)
    ensures var s' := Run(s, after);
      && s'.closes == 1 && s'.m.started == s'.m.finished
      && (forall t :: t in s'.threads ==> !Holds(s'.threads[t]))
      && (s'.m.accepted == s'.m.reported + s'.m.errors + s'.m.empty
          <==> forall t :: t in s'.threads ==> s'.threads[t] != InRun(Recording))
  {
    var s' := Run(s, after);
    ReachableInv(cap, s);
    RunInv(cap, s, after);
    ClosesGrow(s, after);
    QuietReports(cap, s');
    if Total(InFlight, s'.threads) > 0 {
      var t := TotalSome(InFlight, s'.threads);
      assert s'.threads[t] == InRun(Recording);
    } else {
      forall t | t in s'.threads ensures s'.threads[t] != InRun(Recording) { TotalOne(InFlight, s'.threads, t); }
    }
  }

  /** The exception is real: a panic is recorded only after its permit is back,
      so the drain can close, and Shutdown return, before the error is counted. */
  lemma PanicRecordedAfterDrain()
    ensures exists s :: Reachable(1, s) && s.closes == 1 && 1 in s.threads && s.threads[1] == InRun(Recording)
              && s.m.accepted == 1 && s.m.errors == 0
  {
    var call := Choice(Panicked, 1, false);
    var s0 := PanicReleased(call);
    var s1 := Apply(s0, CallShutdown(2));
    ReachableStep(1, s0, CallShutdown(2));
    var s2 := Apply(s1, Move(2, call));
    ReachableStep(1, s1, Move(2, call));
    var s3 := Apply(s2, Move(2, call.(spawn := 3)));
    ReachableStep(1, s2, Move(2, call.(spawn := 3)));
    var s4 := Apply(s3, Move(3, call));
    ReachableStep(1, s3, Move(3, call));
    var s5 := Apply(s4, Move(3, call));
    ReachableStep(1, s4, Move(3, call));
    assert Reachable(1, s5) && s5.threads[1] == InRun(Recording);
  }

  // A reporter with one permit before any Shutdown.
  function Open(occupied: nat, threads: map<Id, Pc>, m: Metrics): State {
    State(1, occupied, false, false, 0, false, threads, m)
  }

  lemma Leads(s: State, a: Step, s': State)
    requires Reachable(1, s) && Enabled(s, a) && Apply(s, a) == s'
    ensures Reachable(1, s')
  {
    ReachableStep(1, s, a);
  }

  lemma FirstReportAcquired(c: Choice)
    ensures Reachable(1, Open(1, map[0 := InTryReport(Rechecking(true))], Metrics(0, 0, 0, 0, 0, 0, 0, 0)))
  {
    var m := Metrics(0, 0, 0, 0, 0, 0, 0, 0);
    assert Legal(Init(1), []) && Run(Init(1), []) == Init(1);
    Leads(Init(1), Call(0, true), Open(0, map[0 := InTryReport(Entering(true))], m));
    Leads(Open(0, map[0 := InTryReport(Entering(true))], m), Move(0, c), Open(0, map[0 := InTryReport(Trying(true))], m));
    Leads(Open(0, map[0 := InTryReport(Trying(true))], m), Move(0, c), Open(1, map[0 := InTryReport(Rechecking(true))], m));
  }

  lemma FirstReportAnnounced(c: Choice)
    ensures Reachable(1, Open(1, map[0 := InTryReport(Launching(true))], Metrics(0, 0, 0, 1, 0, 0, 0, 0)))
  {
    var m := Metrics(0, 0, 0, 0, 0, 0, 0, 0);
    FirstReportAcquired(c);
    Leads(Open(1, map[0 := InTryReport(Rechecking(true))], m), Move(0, c), Open(1, map[0 := InTryReport(Announcing(true))], m));
    Leads(Open(1, map[0 := InTryReport(Announcing(true))], m), Move(0, c),
          Open(1, map[0 := InTryReport(Launching(true))], m.(started := 1)));
  }

  // One report was accepted and panicked.
  lemma FirstReportPanicked(call: Choice)
    requires call == Choice(Panicked, 1, false)
    ensures Reachable(1, Open(1, map[0 := InTryReport(Replied(ReportAccepted, 0, 0)), 1 := InRun(Finishing(true))], Metrics(1, 0, 0, 1, 0, 0, 0, 0)))
  {
    var m, done := Metrics(1, 0, 0, 1, 0, 0, 0, 0), InTryReport(Replied(ReportAccepted, 0, 0));
    FirstReportAnnounced(call);
    Leads(Open(1, map[0 := InTryReport(Launching(true))], m.(accepted := 0)), Move(0, call),
          Open(1, map[0 := done, 1 := InRun(Running(true))], m));
    Leads(Open(1, map[0 := done, 1 := InRun(Running(true))], m), Move(1, call), Open(1, map[0 := done, 1 := InRun(Calling)], m));
    Leads(Open(1, map[0 := done, 1 := InRun(Calling)], m), Move(1, call), Open(1, map[0 := done, 1 := InRun(Finishing(true))], m));
  }

  // It has given its permit back.
  lemma PanicReleased(call: Choice) returns (s: State)
    requires call == Choice(Panicked, 1, false)
    ensures Reachable(1, s) && s.threads.Keys == {0, 1} && s.threads[1] == InRun(Recording)
    ensures s.cap == 1 && s.occupied == 0 && !s.closing && !s.once && s.closes == 0
    ensures s.m.accepted == 1 && s.m.errors == 0
  {
    var m, done := Metrics(1, 0, 0, 1, 0, 0, 0, 0), InTryReport(Replied(ReportAccepted, 0, 0));
    FirstReportPanicked(call);
    Leads(Open(1, map[0 := done, 1 := InRun(Finishing(true))], m), Move(1, call),
          Open(1, map[0 := done, 1 := InRun(Releasing(true))], m.(finished := 1)));
    s := Open(0, map[0 := done, 1 := InRun(Recording)], m.(finished := 1));
    Leads(Open(1, map[0 := done, 1 := InRun(Releasing(true))], m.(finished := 1)), Move(1, call), s);
  }

  lemma {:induction false} ClosesGrow(s: State, run: seq<Step>)
    requires Legal(s, run)
    ensures Run(s, run).closes >= s.closes
    decreases |run|
  {
    if run != [] { ClosesGrow(Apply(s, run[0]), run[1..]); }
  }

  /** In every reachable state: running reports and the started-minus-finished
      gauge stay within the capacity, the channel holds exactly the permits of
      the holders and the drain, and giving one back never blocks. */
  lemma CapacityBound(cap: nat, s: State)
    requires Reachable(cap, s)
    ensures s.occupied == A.JobsHold(Abs(s)) + A.DrainHolds(Abs(s)) <= cap
    ensures s.m.finished <= s.m.started <= s.m.finished + cap
    ensures forall t, c :: t in s.threads && (s.threads[t] == InTryReport(Withdrawing) || (s.threads[t].InRun? && s.threads[t].j.Releasing?))
              ==> Enabled(s, Move(t, c))
  {
    ReachableInv(cap, s);
    A.PermitShares(Abs(s));
    GaugeWithinPermits(s);
    forall t, c | t in s.threads && (s.threads[t] == InTryReport(Withdrawing) || (s.threads[t].InRun? && s.threads[t].j.Releasing?))
      ensures Enabled(s, Move(t, c))
    {
      ReleaseMoves(s, t, c);
    }
  }

  lemma ReleaseMoves(s: State, t: Id, c: Choice)
    requires A.Inv(Abs(s)) && t in s.threads
    requires s.threads[t] == InTryReport(Withdrawing) || (s.threads[t].InRun? && s.threads[t].j.Releasing?)
    ensures Enabled(s, Move(t, c))
  {
    A.ReleaseNeverBlocks(Abs(s), t);
  }

  lemma GaugeWithinPermits(s: State)
    ensures Total(Gauged, s.threads) <= A.JobsHold(Abs(s))
  {
    assert Units(Gauged, s.threads) <= Units(A.JobPermits, Abs(s).threads) by {
      forall u | u in Units(Gauged, s.threads) ensures u in Units(A.JobPermits, Abs(s).threads) {
        assert A.JobPermits(Abs(s).threads[u.0]) == 1;
      }
    }
    SubsetSize(Units(Gauged, s.threads), Units(A.JobPermits, Abs(s).threads));
  }

  /** Every accepted report is in flight or was counted exactly once, as
      reported, failed or empty; every answer was counted under its own name. */
  lemma MetricConservation(cap: nat, s: State)
    requires Reachable(cap, s)
    ensures s.m.accepted == Total(InFlight, s.threads) + s.m.reported + s.m.errors + s.m.empty
    ensures s.m.accepted == Total(Accepted, s.threads)
    ensures s.m.atCapacity == Total(AtCapacity, s.threads)
    ensures s.m.shuttingDown == Total(ShutOut, s.threads)
  {
    ReachableInv(cap, s);
  }

  /** "At capacity" is answered only when, at that caller's failed attempt,
      callers and reports held every permit and the drain held none. */
  lemma HonestRefusal(cap: nat, s: State, t: Id)
    requires Reachable(cap, s) && t in s.threads && s.threads[t].InTryReport?
    requires s.threads[t].c.Replied? && s.threads[t].c.reply.ReportAtCapacity?
    ensures s.threads[t].c.jobs == cap && s.threads[t].c.drain == 0
  {
    ReachableInv(cap, s);
    assert A.Fits(Abs(s), Abs(s).threads[t]);
  }

  predicate AtTheDoor(pc: Pc) {
    && pc.InTryReport?
    && (pc.c.Entering? || ((pc.c.Rejecting? || pc.c.Replied?) && pc.c.reply.ReportShuttingDown?))
  }

  lemma DoorAbs(pc: Pc)
    ensures AtTheDoor(pc) ==> AbsPc(pc).Entering? || AbsPc(pc).Bounced?
    ensures AbsPc(pc).Entering? || AbsPc(pc).Bounced? ==> AtTheDoor(pc)
    ensures Holds(pc) <==> A.JobPermits(AbsPc(pc)) == 1
  {
  }

  lemma StaysAtTheDoor(s: State, a: Step, t: Id)
    requires s.closing && Enabled(s, a) && t in s.threads && AtTheDoor(s.threads[t])
    ensures var s' := Apply(s, a); s'.closing && t in s'.threads && AtTheDoor(s'.threads[t])
  {
    Refines(s, a);
    DoorAbs(s.threads[t]);
    var s' := Apply(s, a);
    A.LateCallerStep(Abs(s), AbsStep(s, a), t);
    assert t in Abs(s').threads;
    DoorAbs(s'.threads[t]);
  }

  /** A call that begins once `closing` is stored is answered "shutting down". */
  lemma {:induction false} LateCallsAreShutOut(s: State, run: seq<Step>, t: Id)
    requires s.closing && Legal(s, run) && t in s.threads && AtTheDoor(s.threads[t])
    ensures var s' := Run(s, run); t in s'.threads && AtTheDoor(s'.threads[t])
    decreases |run|
  {
    if run != [] {
      StaysAtTheDoor(s, run[0], t);
      LateCallsAreShutOut(Apply(s, run[0]), run[1..], t);
    }
  }

  /** Shutdown returned nil only after the drain, when no report is running;
      report contexts are cancelled only after `closing` is stored. */
  lemma ShutdownNil(cap: nat, s: State, t: Id)
    requires Reachable(cap, s) && t in s.threads && s.threads[t] == InShutdown(Stopped(true))
    ensures s.closes == 1 && s.m.started == s.m.finished
    ensures forall u :: u in s.threads ==> !Holds(s.threads[u])
  {
    ReachableInv(cap, s);
    assert A.Fits(Abs(s), Abs(s).threads[t]);
    QuietReports(cap, s);
  }

  /** All Shutdown calls together start one drain, which closes `drained` at
      most once, and cancel no report context before `closing` is stored. */
  lemma OneDrain(cap: nat, s: State)
    requires Reachable(cap, s)
    ensures s.closes <= 1 && (s.cancelled ==> s.closing)
    ensures forall a, b :: a in s.threads && b in s.threads && IsDrain(s.threads[a]) && IsDrain(s.threads[b]) ==> a == b
  {
    ReachableInv(cap, s);
    A.OneDrain(Abs(s));
    forall a, b | a in s.threads && b in s.threads && IsDrain(s.threads[a]) && IsDrain(s.threads[b]) ensures a == b {
      DrainAbs(s.threads[a]);
      DrainAbs(s.threads[b]);
      assert a in Abs(s).threads && b in Abs(s).threads;
    }
  }

  lemma DrainAbs(pc: Pc)
    ensures IsDrain(pc) <==> A.IsDrain(AbsPc(pc)) == 1
  {
  }

  predicate IsDrain(pc: Pc) { pc.InShutdown? && (pc.p.Draining? || pc.p.Closed?) }

  /* ---------- progress ---------- */

  ghost predicate Bouncing(s: State, a: Step)
    requires Enabled(s, a)
  {
    A.Bouncing(Abs(s), AbsStep(s, a))
  }

  ghost function ProgressCount(s: State, run: seq<Step>): nat
    requires Legal(s, run)
    decreases |run|
  {
    if run == [] then 0
    else (if Bouncing(s, run[0]) then 0 else 1) + ProgressCount(Apply(s, run[0]), run[1..])
  }

  /** Once `closing` is stored, any run takes at most `A.Measure` more steps
      that are not bounces, whoever is scheduled and however many calls arrive. */
  lemma {:induction false} DrainTerminates(cap: nat, s: State, run: seq<Step>)
    requires Inv(cap, s) && s.closing && Legal(s, run)
    ensures ProgressCount(s, run) + A.Measure(Abs(Run(s, run))) <= A.Measure(Abs(s))
    decreases |run|
  {
    if run != [] {
      Refines(s, run[0]);
      A.ProgressStep(Abs(s), AbsStep(s, run[0]));
      StepInv(cap, s, run[0]);
      DrainTerminates(cap, Apply(s, run[0]), run[1..]);
    }
  }

  lemma HolderMoves(s: State, t: Id, c: Choice)
    requires t in s.threads && Holds(s.threads[t]) && c.spawn !in s.threads && s.occupied > 0
    ensures Enabled(s, Move(t, c)) && !Bouncing(s, Move(t, c))
  {
  }

  // A thread that the permit protocol lets move, by its part.
  ghost predicate DrainMoves(s: State, t: Id)
    requires t in s.threads
  {
    || (AbsPc(s.threads[t]).Starting? && !s.once)
    || A.Enabled(Abs(s), A.DrainOne(t))
    || A.Enabled(Abs(s), A.CloseDrained(t))
  }

  lemma PartOf(s: State, t: Id)
    requires t in s.threads
    ensures Abs(s).threads[t] == AbsPc(s.threads[t]) && Abs(s).once == s.once
    ensures DrainMoves(s, t) ==> s.threads[t].InShutdown?
    ensures A.JobPermits(AbsPc(s.threads[t])) == 1 ==> !s.threads[t].InShutdown?
  {
  }

  lemma Mover(s: State) returns (t: Id)
    requires A.Inv(Abs(s)) && s.closing && s.closes == 0
    ensures t in s.threads
    ensures DrainMoves(s, t) || A.JobPermits(AbsPc(s.threads[t])) == 1
  {
    t := A.NeverStuck(Abs(s));
    assert t in s.threads;
    PartOf(s, t);
  }

  lemma ShutdownMoves(s: State, t: Id, c: Choice)
    requires t in s.threads && s.threads[t].InShutdown? && c.spawn !in s.threads
    requires DrainMoves(s, t)
    ensures Enabled(s, Move(t, c)) && !Bouncing(s, Move(t, c))
  {
  }

  /** Until `drained` closes, some step other than a bounce can be taken. */
  lemma NeverStuck(cap: nat, s: State) returns (t: Id, c: Choice)
    requires Reachable(cap, s) && s.closing && s.closes == 0
    ensures Enabled(s, Move(t, c)) && !Bouncing(s, Move(t, c))
  {
    ReachableInv(cap, s);
    t := Mover(s);
    PartOf(s, t);
    var free := Unused(s.threads.Keys);
    c := Choice(Delivered, free, false);
    if s.threads[t].InShutdown? { ShutdownMoves(s, t, c); } else { HolderProceeds(s, t, c); }
  }

  lemma HolderProceeds(s: State, t: Id, c: Choice)
    requires A.Inv(Abs(s)) && t in s.threads && c.spawn !in s.threads && A.JobPermits(AbsPc(s.threads[t])) == 1
    ensures Enabled(s, Move(t, c)) && !Bouncing(s, Move(t, c))
  {
    DoorAbs(s.threads[t]);
    TotalOne(A.Permits, Abs(s).threads, t);
    HolderMoves(s, t, c);
  }

  /* ---------- a report and its URL ---------- */

  // The URL that a call still carries to its goroutine.
  function Carries(pc: Pc): Option<bool> {
    match pc
    case InTryReport(Entering(url)) => Some(url)
    case InTryReport(Trying(url)) => Some(url)
    case InTryReport(Rechecking(url)) => Some(url)
    case InTryReport(Announcing(url)) => Some(url)
    case InTryReport(Launching(url)) => Some(url)
    case _ => None
  }

  predicate CallOf(pc: Pc, url: bool) { pc.InTryReport? && (Carries(pc).Some? ==> Carries(pc).value == url) }

  // A step of another thread.
  lemma OthersStay(s: State, a: Step, w: Id)
    requires Enabled(s, a) && w in s.threads && !(a.Move? && a.t == w)
    ensures w in Apply(s, a).threads && Apply(s, a).threads[w] == s.threads[w]
  {
    if a.Move? {
      match s.threads[a.t]
      case InTryReport(pc) => CallerLeaves(s, a.t, pc, a.c, w);
      case InRun(_) =>
      case InShutdown(_) =>
    }
  }

  lemma CallerLeaves(s: State, t: Id, pc: Caller, c: Choice, w: Id)
    requires t in s.threads && CanMove(s, InTryReport(pc), c) && w in s.threads && w != t
    ensures w in CallerStep(s, t, pc, c).threads && CallerStep(s, t, pc, c).threads[w] == s.threads[w]
  {
  }

  lemma CarriesStep(s: State, t: Id, c: Choice, url: bool)
    requires Enabled(s, Move(t, c)) && CallOf(s.threads[t], url)
    ensures t in Apply(s, Move(t, c)).threads && CallOf(Apply(s, Move(t, c)).threads[t], url)
  {
  }

  lemma {:induction false} CarriesOn(s: State, run: seq<Step>, t: Id, url: bool)
    requires Legal(s, run) && t in s.threads && CallOf(s.threads[t], url)
    ensures t in Run(s, run).threads && CallOf(Run(s, run).threads[t], url)
    decreases |run|
  {
    if run != [] {
      if run[0].Move? && run[0].t == t { CarriesStep(s, t, run[0].c, url); } else { OthersStay(s, run[0], t); }
      CarriesOn(Apply(s, run[0]), run[1..], t, url);
    }
  }

  // How often the thread makes the API call in the run, and ends a report as empty.
  ghost function APICalls(s: State, run: seq<Step>, w: Id): nat
    requires Legal(s, run)
    decreases |run|
  {
    if run == [] then 0
    else (if run[0].Move? && run[0].t == w && s.threads[w] == InRun(Calling) then 1 else 0) + APICalls(Apply(s, run[0]), run[1..], w)
  }

  ghost function EmptyEnds(s: State, run: seq<Step>, w: Id): nat
    requires Legal(s, run)
    decreases |run|
  {
    if run == [] then 0
    else
      var s' := Apply(s, run[0]);
      (if run[0].Move? && run[0].t == w && w in s'.threads && s'.m.empty == s.m.empty + 1 then 1 else 0)
      + EmptyEnds(s', run[1..], w)
  }

  // What is still to come.
  function CallsAhead(pc: Pc): nat {
    match pc
    case InRun(Running(url)) => if url then 1 else 0
    case InRun(Calling) => 1
    case _ => 0
  }

  function EmptyAhead(pc: Pc): nat { if pc == InRun(Running(false)) then 1 else 0 }

  lemma JobAhead(s: State, w: Id, pc: Worker, c: Choice)
    requires w in s.threads && s.threads[w] == InRun(pc) && CanMove(s, InRun(pc), c)
    ensures var s' := JobStep(s, w, pc, c);
      && w in s'.threads && s'.threads[w].InRun?
      && CallsAhead(InRun(pc)) == CallsAhead(s'.threads[w]) + (if pc == Calling then 1 else 0)
      && EmptyAhead(InRun(pc)) == EmptyAhead(s'.threads[w]) + (if s'.m.empty == s.m.empty + 1 then 1 else 0)
  {
  }

  lemma {:induction false} RunAhead(s: State, run: seq<Step>, w: Id)
    requires Legal(s, run) && w in s.threads && s.threads[w].InRun?
    ensures var s' := Run(s, run);
      && w in s'.threads && s'.threads[w].InRun?
      && CallsAhead(s.threads[w]) == CallsAhead(s'.threads[w]) + APICalls(s, run, w)
      && EmptyAhead(s.threads[w]) == EmptyAhead(s'.threads[w]) + EmptyEnds(s, run, w)
    decreases |run|
  {
    if run != [] {
      if run[0].Move? && run[0].t == w { JobAhead(s, w, s.threads[w].j, run[0].c); } else { OthersStay(s, run[0], w); }
      RunAhead(Apply(s, run[0]), run[1..], w);
    }
  }

  /** A report does what its call was given: from the Call step of `t`, through
      the step that starts the goroutine, to the end of that goroutine, the API is
      called exactly once if the call had a URL and never if it had none, when the
      report ends as empty exactly once. */
  lemma ReportsItsURL(s: State, t: Id, url: bool, before: seq<Step>, c: Choice, after: seq<Step>)
    requires t !in s.threads && Legal(Apply(s, Call(t, url)), before)
    requires var s1 := Run(Apply(s, Call(t, url)), before);
      && t in s1.threads && s1.threads[t].InTryReport? && s1.threads[t].c.Launching?
      && c.spawn !in s1.threads && Legal(Apply(s1, Move(t, c)), after)
    ensures var s2 := Apply(Run(Apply(s, Call(t, url)), before), Move(t, c));
      var s3 := Run(s2, after);
      && c.spawn in s2.threads && s2.threads[c.spawn] == InRun(Running(url)) && c.spawn in s3.threads
      && (s3.threads[c.spawn] == InRun(Finished) ==>
            && APICalls(s2, after, c.spawn) == (if url then 1 else 0)
            && EmptyEnds(s2, after, c.spawn) == (if url then 0 else 1))
  {
    var s0 := Apply(s, Call(t, url));
    CarriesOn(s0, before, t, url);
    RunAhead(Apply(Run(s0, before), Move(t, c)), after, c.spawn);
  }
}
