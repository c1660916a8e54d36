/** The enricher's instance of the admission protocol: Enrich callers in their
    three wait modes, one goroutine per admitted background call with its
    one-slot completion channel, Shutdown callers and the drain, together with
    the metric events and the cache writes they make. */
module EnricherProtocol {
  import opened Counting
  import opened Wrappers
  import A = Admission

  type Id = A.Id

  datatype Mode = Sync | Async | Hybrid

  // What planning reads of a request: whether it names an endpoint, carries an
  // auction and yields cache keys, and its two time budgets.
  datatype Request = Request(endpoint: bool, auction: bool, timeout: int, wait: Option<int>, cacheEnabled: bool, keys: bool)

  datatype Verdict = NoEndpoint | Invalid | Go(mode: Mode, keyed: bool)

  function WaitMode(timeout: int, wait: Option<int>): Mode {
    if wait.None? || timeout <= 0 || wait.value >= timeout then Sync
    else if wait.value <= 0 then Async
    else Hybrid
  }

  // The checks of Enrich, executionPlanFor and cacheKeysFor, in their order.
  function Assess(cap: nat, hasCache: bool, r: Request): Verdict {
    var mode := WaitMode(r.timeout, r.wait);
    var cached := hasCache && r.cacheEnabled;
    if !r.endpoint then NoEndpoint
    else if !r.auction then Invalid
    else if r.timeout <= 0 || (r.wait.Some? && r.wait.value < 0) then Invalid
    else if mode != Sync && (!cached || cap == 0) then Invalid
    else if cached && !r.keys && mode != Sync then Invalid
    else Go(mode, cached && r.keys)
  }

  // No endpoint, no auction, a budget that is not positive, a negative wait, or
  // a shorter wait without a cache, a pool and keys.
  predicate Refusable(cap: nat, hasCache: bool, q: Request) {
    || !q.endpoint || !q.auction || q.timeout <= 0
    || (q.wait.Some? && q.wait.value < 0)
    || (q.wait.Some? && q.wait.value < q.timeout && (!hasCache || !q.cacheEnabled || cap == 0 || !q.keys))
  }

  // Waits for its own call: no wait is given, or one no shorter than the budget.
  predicate Patient(q: Request) { q.wait.Some? ==> q.wait.value >= q.timeout }

  predicate Keyed(hasCache: bool, q: Request) { hasCache && q.cacheEnabled && q.keys }

  /** The verdict, from the request's own fields. */
  lemma AssessExactly(cap: nat, hasCache: bool, q: Request)
    ensures var v := Assess(cap, hasCache, q);
      && (v.NoEndpoint? <==> !q.endpoint)
      && (v.Go? <==> !Refusable(cap, hasCache, q))
      && (v.Go? ==>
            && (v.mode.Sync? <==> Patient(q)) && (v.mode.Async? <==> q.wait == Some(0))
            && (v.mode.Hybrid? <==> q.wait.Some? && 0 < q.wait.value < q.timeout)
            && (v.keyed <==> Keyed(hasCache, q)))
  {
  }

  // How resolving ends: an error, an empty body, no identifiers, or some.
  datatype Outcome = Failed | Empty | NoIds | Found

  predicate Cacheable(o: Outcome) { o.NoIds? || o.Found? }

  datatype Lookup = Hit | Negative | InProgress | Miss

  datatype Answer =
    | ShuttingDown
    | Refusal(noEndpoint: bool)         // no endpoint, or an invalid request
    | FromCache(l: Lookup)
    | Resolved(o: Outcome, keyed: bool) // by this caller's own call
    | BackgroundLimit(jobs: nat, drain: nat)
    | WaitExpired(w: Id)
    | FromWorker(w: Id, o: Outcome)

  // Enrich
  datatype Caller =
    | Entering(req: Request)
    | Counting(req: Request)            // about to emit Request
    | Assessing(req: Request)
    | LookingUp(mode: Mode)
    | Scheduling(mode: Mode, keyed: bool)
    | Calling(keyed: bool)              // the synchronous call
    | Noting(o: Outcome, keyed: bool)   // about to emit its outcome
    | Storing(o: Outcome, keyed: bool)  // about to write it to the cache
    | Refused(jobs: nat, drain: nat)
    | Rechecking(mode: Mode)
    | Withdrawing
    | Announcing(mode: Mode)            // about to emit BackgroundStarted
    | Marking(mode: Mode)               // about to write the in-progress markers
    | Launching(mode: Mode)             // about to start the goroutine
    | Waiting(w: Id)
    | LastLook(w: Id)                   // the timer fired; one more look at the channel
    | Expiring(w: Id)                   // about to emit wait_expired
    | Returned(a: Answer)

  // The goroutine of startBackground. `done` is the caller that still waits
  // on the completion channel, if the call was admitted in hybrid mode.
  datatype Worker =
    | Resolving(done: Option<Id>)
    | Reporting(done: Option<Id>, o: Outcome)   // about to emit the outcome
    | Sending(c: Id, o: Outcome)
    | Writing(o: Outcome)                       // about to write it to the cache
    | Finishing(o: Outcome)                     // about to emit BackgroundFinished
    | Releasing(o: Outcome)                     // about to give the permit back
    | Finished(o: Outcome)

  datatype Stopper =
    | StoringClosing | Starting | Awaiting | Stopped(ok: bool)
    | Draining(taken: nat) | Closed(held: nat)

  datatype Pc = InEnrich(c: Caller) | InRun(j: Worker) | InShutdown(p: Stopper)

  // `notEnriched` leaves out wait_expired; `silent` counts the calls that
  // returned without an event after Request, which the code does not count.
  datatype Metrics = Metrics(
    requests: nat, enriched: nat, notEnriched: nat, apiErrors: nat, silent: nat,
    waitExpired: nat, started: nat, finished: nat)

  datatype State = State(
    cap: nat, hasCache: bool, occupied: nat, closing: bool, once: bool, closes: nat,
    threads: map<Id, Pc>,
    chans: map<Id, seq<Outcome>>,   // the completion channel of each hybrid caller
    stores: multiset<Id>,           // the cache writes of results, by thread
    m: Metrics)

  datatype Choice = Choice(outcome: Outcome, lookup: Lookup, spawn: Id, ok: bool)

  datatype Step = Call(t: Id, req: Request) | CallShutdown(t: Id) | Move(t: Id, c: Choice)

  function Init(cap: nat, hasCache: bool): State {
    State(cap, hasCache, 0, false, false, 0, map[], map[], multiset{}, Metrics(0, 0, 0, 0, 0, 0, 0, 0))
  }

  function Goto(s: State, t: Id, pc: Pc): State { s.(threads := s.threads[t := pc]) }

  function GotoCaller(s: State, t: Id, pc: Caller): State { Goto(s, t, InEnrich(pc)) }

  function GotoJob(s: State, t: Id, pc: Worker): State { Goto(s, t, InRun(pc)) }

  function GotoShutdown(s: State, t: Id, pc: Stopper): State { Goto(s, t, InShutdown(pc)) }

  predicate CanMove(s: State, t: Id, pc: Pc, c: Choice) {
    match pc
    case InEnrich(p) =>
      && !p.Returned?
      && (p.Withdrawing? ==> s.occupied > 0)
      && (p.Launching? ==> c.spawn !in s.threads)
      // a receive on an empty channel waits; otherwise the timer fires
      && (p.Waiting? && c.ok ==> t in s.chans && s.chans[t] != [])
    case InRun(j) =>
      && !j.Finished?
      && (j.Releasing? ==> s.occupied > 0)
      // a send on a full one-slot channel would block
      && (j.Sending? ==> j.c in s.chans && |s.chans[j.c]| < 1)
    case InShutdown(p) =>
      && !p.Stopped? && !p.Closed?
      && (p.Starting? ==> c.spawn !in s.threads)
      && (p.Awaiting? && c.ok ==> s.closes > 0)
      && (p.Draining? && p.taken < s.cap ==> s.occupied < s.cap)
  }

  predicate Enabled(s: State, a: Step) {
    match a
    case Call(t, _) => t !in s.threads
    case CallShutdown(t) => t !in s.threads
    case Move(t, c) => t in s.threads && CanMove(s, t, s.threads[t], c)
  }

  // The event that resolve emits for an outcome.
  function Emit(m: Metrics, o: Outcome): Metrics {
    match o
    case Failed => m.(apiErrors := m.apiErrors + 1)
    case Empty => m.(notEnriched := m.notEnriched + 1)
    case NoIds => m.(notEnriched := m.notEnriched + 1)
    case Found => m.(enriched := m.enriched + 1)
  }

  // Enrich up to the choice between its own call and a background one.
  function FrontStep(s: State, t: Id, pc: Caller, c: Choice): State
    requires pc.Entering? || pc.Counting? || pc.Assessing? || pc.LookingUp?
  {
    match pc
    case Entering(req) => GotoCaller(s, t, if s.closing then Returned(ShuttingDown) else Counting(req))
    case Counting(req) => GotoCaller(s, t, Assessing(req)).(m := s.m.(requests := s.m.requests + 1))
    case Assessing(req) =>
      (match Assess(s.cap, s.hasCache, req) {
        case NoEndpoint => GotoCaller(s, t, Returned(Refusal(true))).(m := s.m.(notEnriched := s.m.notEnriched + 1))
        case Invalid => GotoCaller(s, t, Returned(Refusal(false))).(m := s.m.(silent := s.m.silent + 1))
        case Go(mode, keyed) => GotoCaller(s, t, if keyed then LookingUp(mode) else Scheduling(mode, false))
      })
    case LookingUp(mode) =>
      if c.lookup.Miss? then GotoCaller(s, t, Scheduling(mode, true))
      else GotoCaller(s, t, Returned(FromCache(c.lookup))).(m :=
        if c.lookup.Hit? then s.m.(enriched := s.m.enriched + 1) else s.m.(notEnriched := s.m.notEnriched + 1))
  }

  // The synchronous call, which never touches the pool.
  function SyncStep(s: State, t: Id, pc: Caller, c: Choice): State
    requires pc.Calling? || pc.Noting? || pc.Storing?
  {
    match pc
    case Calling(keyed) => GotoCaller(s, t, Noting(c.outcome, keyed))
    case Noting(o, keyed) =>
      GotoCaller(s, t, if o.Failed? then Returned(Resolved(o, keyed)) else Storing(o, keyed)).(m := Emit(s.m, o))
    case Storing(o, keyed) =>
      GotoCaller(s, t, Returned(Resolved(o, keyed)))
        .(stores := if keyed && Cacheable(o) then s.stores + multiset{t} else s.stores)
  }

  ghost function AdmissionStep(s: State, t: Id, pc: Caller, c: Choice): State
    requires pc.Scheduling? || pc.Refused? || pc.Rechecking? || pc.Withdrawing?
    requires pc.Withdrawing? ==> s.occupied > 0
  {
    match pc
    case Scheduling(mode, keyed) =>
      if mode.Sync? then GotoCaller(s, t, Calling(keyed))
      else if s.occupied < s.cap then GotoCaller(s, t, Rechecking(mode)).(occupied := s.occupied + 1)
      else GotoCaller(s, t, Refused(A.JobsHold(Abs(s)), A.DrainHolds(Abs(s))))
    case Refused(jobs, drain) =>
      if s.closing then GotoCaller(s, t, Returned(ShuttingDown)).(m := s.m.(silent := s.m.silent + 1))
      else GotoCaller(s, t, Returned(BackgroundLimit(jobs, drain))).(m := s.m.(notEnriched := s.m.notEnriched + 1))
    case Rechecking(mode) => GotoCaller(s, t, if s.closing then Withdrawing else Announcing(mode))
    case Withdrawing =>
      GotoCaller(s, t, Returned(ShuttingDown)).(occupied := s.occupied - 1, m := s.m.(silent := s.m.silent + 1))
  }

  function BackStep(s: State, t: Id, pc: Caller, c: Choice): State
    requires pc.Announcing? || pc.Marking? || pc.Launching? || pc.Waiting? || pc.LastLook? || pc.Expiring?
    requires pc.Waiting? && c.ok ==> t in s.chans && s.chans[t] != []
  {
    match pc
    case Announcing(mode) => GotoCaller(s, t, Marking(mode)).(m := s.m.(started := s.m.started + 1))
    case Marking(mode) => GotoCaller(s, t, Launching(mode))
    case Launching(mode) =>
      if mode.Hybrid? then
        GotoJob(GotoCaller(s, t, Waiting(c.spawn)), c.spawn, Resolving(Some(t))).(chans := s.chans[t := []])
      else
        GotoJob(GotoCaller(s, t, Expiring(c.spawn)), c.spawn, Resolving(None))
    case Waiting(w) => if c.ok then Receive(s, t, w) else GotoCaller(s, t, LastLook(w))
    case LastLook(w) =>
      if t in s.chans && s.chans[t] != [] then Receive(s, t, w) else GotoCaller(s, t, Expiring(w))
    case Expiring(w) =>
      GotoCaller(s, t, Returned(WaitExpired(w))).(m := s.m.(waitExpired := s.m.waitExpired + 1))
  }

  function Receive(s: State, t: Id, w: Id): State
    requires t in s.chans && s.chans[t] != []
  {
    GotoCaller(s, t, Returned(FromWorker(w, s.chans[t][0]))).(chans := s.chans[t := s.chans[t][1..]])
  }

  predicate Front(pc: Caller) { pc.Entering? || pc.Counting? || pc.Assessing? || pc.LookingUp? }

  predicate OwnCall(pc: Caller) { pc.Calling? || pc.Noting? || pc.Storing? }

  predicate AtPool(pc: Caller) { pc.Scheduling? || pc.Refused? || pc.Rechecking? || pc.Withdrawing? }

  ghost function CallerStep(s: State, t: Id, pc: Caller, c: Choice): State
    requires CanMove(s, t, InEnrich(pc), c)
  {
    if Front(pc) then FrontStep(s, t, pc, c)
    else if OwnCall(pc) then SyncStep(s, t, pc, c)
    else if AtPool(pc) then AdmissionStep(s, t, pc, c)
    else BackStep(s, t, pc, c)
  }

  function JobStep(s: State, t: Id, pc: Worker, c: Choice): State
    requires CanMove(s, t, InRun(pc), c)
  {
    match pc
    case Resolving(done) => GotoJob(s, t, Reporting(done, c.outcome))
    case Reporting(done, o) => GotoJob(s, t, if done.Some? then Sending(done.value, o) else AfterSend(o)).(m := Emit(s.m, o))
    case Sending(caller, o) => GotoJob(s, t, AfterSend(o)).(chans := s.chans[caller := s.chans[caller] + [o]])
    case Writing(o) => GotoJob(s, t, Finishing(o)).(stores := if Cacheable(o) then s.stores + multiset{t} else s.stores)
    case Finishing(o) => GotoJob(s, t, Releasing(o)).(m := s.m.(finished := s.m.finished + 1))
    case Releasing(o) => GotoJob(s, t, Finished(o)).(occupied := s.occupied - 1)
  }

  // Only a call that did not fail goes on to the cache.
  function AfterSend(o: Outcome): Worker { if o.Failed? then Finishing(o) else Writing(o) }

  function ShutdownStep(s: State, t: Id, pc: Stopper, c: Choice): State
    requires CanMove(s, t, InShutdown(pc), c)
  {
    match pc
    case StoringClosing => GotoShutdown(s, t, Starting).(closing := true)
    case Starting =>
      if s.once then GotoShutdown(s, t, Awaiting)
      else GotoShutdown(GotoShutdown(s, t, Awaiting), c.spawn, Draining(0)).(once := true)
    case Awaiting => GotoShutdown(s, t, Stopped(c.ok))
    case Draining(taken) =>
      if taken < s.cap then GotoShutdown(s, t, Draining(taken + 1)).(occupied := s.occupied + 1)
      else GotoShutdown(s, t, Closed(taken)).(closes := s.closes + 1)
  }

  ghost function Apply(s: State, a: Step): State
    requires Enabled(s, a)
  {
    match a
    case Call(t, req) => GotoCaller(s, t, Entering(req))
    case CallShutdown(t) => GotoShutdown(s, t, StoringClosing)
    case Move(t, c) =>
      match s.threads[t] {
        case InEnrich(pc) => CallerStep(s, t, pc, c)
        case InRun(pc) => JobStep(s, t, pc, c)
        case InShutdown(pc) => ShutdownStep(s, t, pc, c)
      }
  }

  ghost predicate Legal(s: State, run: seq<Step>)
    decreases |run|
  {
    run == [] || (Enabled(s, run[0]) && Legal(Apply(s, run[0]), run[1..]))
  }

  ghost function Run(s: State, run: seq<Step>): State
    requires Legal(s, run)
    decreases |run|
  {
    if run == [] then s else Run(Apply(s, run[0]), run[1..])
  }

  /* ---------- the enricher takes protocol steps ---------- */

  function AbsCaller(pc: Caller): A.Pc {
    match pc
    case Entering(_) => A.Entering
    case Counting(_) => A.Trying(14)
    case Assessing(_) => A.Trying(13)
    case LookingUp(_) => A.Trying(12)
    case Scheduling(_, _) => A.Trying(11)
    case Refused(jobs, drain) => A.Refused(jobs, drain)
    case Rechecking(_) => A.Rechecking(10)
    case Withdrawing => A.Withdrawing
    case Announcing(_) => A.Admitted(9)
    case Marking(_) => A.Admitted(8)
    case Launching(_) => A.Admitted(7)
    case Returned(a) => AbsAnswer(a)
    case _ => A.Outside
  }

  function AbsAnswer(a: Answer): A.Pc {
    match a
    case ShuttingDown => A.Bounced
    case BackgroundLimit(jobs, drain) => A.Denied(jobs, drain)
    case _ => A.Outside
  }

  function AbsJob(pc: Worker): A.Pc {
    match pc
    case Resolving(_) => A.Working(6)
    case Reporting(_, _) => A.Working(5)
    case Sending(_, _) => A.Working(4)
    case Writing(_) => A.Working(3)
    case Finishing(_) => A.Working(2)
    case Releasing(_) => A.Working(1)
    case Finished(_) => A.Outside
  }

  function AbsShutdown(pc: Stopper): A.Pc {
    match pc
    case StoringClosing => A.Storing
    case Starting => A.Starting
    case Awaiting => A.Awaiting
    case Stopped(ok) => A.Stopped(ok)
    case Draining(taken) => A.Draining(taken)
    case Closed(held) => A.Closed(held)
  }

  function AbsPc(pc: Pc): A.Pc {
    match pc
    case InEnrich(p) => AbsCaller(p)
    case InRun(p) => AbsJob(p)
    case InShutdown(p) => AbsShutdown(p)
  }

  function AbsThreads(m: map<Id, Pc>): map<Id, A.Pc> {
    map t | t in m :: AbsPc(m[t])
  }

  function Abs(s: State): A.State {
    A.State(s.cap, s.occupied, s.closing, s.once, s.closes, AbsThreads(s.threads))
  }

  function AbsStep(s: State, a: Step): A.Step
    requires Enabled(s, a)
  {
    match a
    case Call(t, _) => A.Call(t)
    case CallShutdown(t) => A.CallShutdown(t)
    case Move(t, c) =>
      match s.threads[t] {
        case InEnrich(pc) => AbsCallerStep(s, t, pc, c)
        case InRun(pc) => AbsJobStep(t, pc, c)
        case InShutdown(pc) => AbsShutdownStep(s.cap, t, pc, c)
      }
  }

  function AbsCallerStep(s: State, t: Id, pc: Caller, c: Choice): A.Step {
    match pc
    case Entering(_) => A.ReadClosing(t, 14)
    case Counting(_) => A.Internal(t, 13)
    case Assessing(req) =>
      var v := Assess(s.cap, s.hasCache, req);
      if v.Go? then A.Internal(t, if v.keyed then 12 else 11) else A.Leave(t)
    case LookingUp(_) => if c.lookup.Miss? then A.Internal(t, 11) else A.Leave(t)
    case Scheduling(mode, _) => if mode.Sync? then A.Leave(t) else A.TryAcquire(t, 10)
    case Refused(_, _) => A.ReadClosingAgain(t, 0)
    case Rechecking(_) => A.ReadClosingAgain(t, 9)
    case Withdrawing => A.Withdraw(t)
    case Announcing(_) => A.Internal(t, 8)
    case Marking(_) => A.Internal(t, 7)
    case Launching(_) => A.Spawn(t, c.spawn, 6)
    case _ => A.Stutter
  }

  function AbsJobStep(t: Id, pc: Worker, c: Choice): A.Step {
    match pc
    case Resolving(_) => A.Internal(t, 5)
    case Reporting(done, o) => A.Internal(t, if done.Some? then 4 else if o.Failed? then 2 else 3)
    case Sending(_, o) => A.Internal(t, if o.Failed? then 2 else 3)
    case Writing(_) => A.Internal(t, 2)
    case Finishing(_) => A.Internal(t, 1)
    case Releasing(_) => A.Release(t)
    case Finished(_) => A.Stutter
  }

  function AbsShutdownStep(cap: nat, t: Id, pc: Stopper, c: Choice): A.Step {
    match pc
    case StoringClosing => A.StoreClosing(t)
    case Starting => A.DoOnce(t, c.spawn)
    case Awaiting => A.Return(t, c.ok)
    case Draining(taken) => if taken < cap then A.DrainOne(t) else A.CloseDrained(t)
    case _ => A.Stutter
  }

  ghost predicate Simulated(x: A.State, b: A.Step, y: A.State) {
    A.Enabled(x, b) && A.Apply(x, b) == y
  }

  lemma AbsSet(m: map<Id, Pc>, t: Id, pc: Pc)
    ensures AbsThreads(m[t := pc]) == AbsThreads(m)[t := AbsPc(pc)]
  {
  }

  // A move that also starts a thread.
  lemma AbsSpawn(m: map<Id, Pc>, t: Id, pc: Pc, u: Id, first: Pc)
    ensures AbsThreads(m[t := pc][u := first]) == AbsThreads(m)[t := AbsPc(pc)][u := AbsPc(first)]
  {
    AbsSet(m, t, pc);
    AbsSet(m[t := pc], u, first);
  }

  // A move that leaves the pool as it is.
  lemma AbsGoto(s: State, s': State, t: Id, pc: Pc)
    requires s'.threads == s.threads[t := pc] && s'.cap == s.cap && s'.occupied == s.occupied
    requires s'.closing == s.closing && s'.once == s.once && s'.closes == s.closes
    ensures Abs(s') == A.Goto(Abs(s), t, AbsPc(pc))
    ensures t in s.threads && AbsPc(pc) == AbsPc(s.threads[t]) ==> Abs(s') == Abs(s)
  {
    AbsSet(s.threads, t, pc);
  }

  lemma CallerRefines(s: State, t: Id, pc: Caller, c: Choice)
    requires t in s.threads && s.threads[t] == InEnrich(pc) && CanMove(s, t, InEnrich(pc), c)
    ensures Simulated(Abs(s), AbsCallerStep(s, t, pc, c), Abs(CallerStep(s, t, pc, c)))
  {
    if Front(pc) {
      FrontRefines(s, t, pc, c);
    } else if OwnCall(pc) {
      SyncRefines(s, t, pc, c);
    } else if AtPool(pc) {
      AdmissionRefines(s, t, pc, c);
    } else {
      BackRefines(s, t, pc, c);
    }
  }

  lemma SyncRefines(s: State, t: Id, pc: Caller, c: Choice)
    requires t in s.threads && s.threads[t] == InEnrich(pc) && OwnCall(pc)
    ensures Abs(SyncStep(s, t, pc, c)) == Abs(s)
  {
    AbsGoto(s, SyncStep(s, t, pc, c), t, SyncStep(s, t, pc, c).threads[t]);
  }

  lemma FrontRefines(s: State, t: Id, pc: Caller, c: Choice)
    requires t in s.threads && s.threads[t] == InEnrich(pc) && Front(pc)
    ensures Simulated(Abs(s), AbsCallerStep(s, t, pc, c), Abs(FrontStep(s, t, pc, c)))
  {
    if pc.Assessing? {
      AssessRefines(s, t, pc.req, c);
    } else if pc.LookingUp? {
      LookupRefines(s, t, pc.mode, c);
    } else {
      AbsGoto(s, FrontStep(s, t, pc, c), t, FrontStep(s, t, pc, c).threads[t]);
    }
  }

  lemma AssessRefines(s: State, t: Id, req: Request, c: Choice)
    requires t in s.threads && s.threads[t] == InEnrich(Assessing(req))
    ensures Simulated(Abs(s), AbsCallerStep(s, t, Assessing(req), c), Abs(FrontStep(s, t, Assessing(req), c)))
  {
    var v := Assess(s.cap, s.hasCache, req);
    if v.Go? {
      var next := if v.keyed then LookingUp(v.mode) else Scheduling(v.mode, false);
      AbsSet(s.threads, t, InEnrich(next));
      A.InternalStep(Abs(s), t, AbsCaller(next));
    } else {
      AbsSet(s.threads, t, InEnrich(Returned(Refusal(v.NoEndpoint?))));
      A.LeaveStep(Abs(s), t);
    }
  }

  lemma LookupRefines(s: State, t: Id, mode: Mode, c: Choice)
    requires t in s.threads && s.threads[t] == InEnrich(LookingUp(mode))
    ensures Simulated(Abs(s), AbsCallerStep(s, t, LookingUp(mode), c), Abs(FrontStep(s, t, LookingUp(mode), c)))
  {
    if c.lookup.Miss? {
      AbsSet(s.threads, t, InEnrich(Scheduling(mode, true)));
      A.InternalStep(Abs(s), t, A.Trying(11));
    } else {
      AbsSet(s.threads, t, InEnrich(Returned(FromCache(c.lookup))));
      A.LeaveStep(Abs(s), t);
    }
  }

  lemma AdmissionRefines(s: State, t: Id, pc: Caller, c: Choice)
    requires t in s.threads && s.threads[t] == InEnrich(pc) && AtPool(pc) && (pc.Withdrawing? ==> s.occupied > 0)
    ensures Simulated(Abs(s), AbsCallerStep(s, t, pc, c), Abs(AdmissionStep(s, t, pc, c)))
  {
    if pc.Scheduling? && pc.mode.Sync? {
      AbsSet(s.threads, t, InEnrich(Calling(pc.keyed)));
      A.LeaveStep(Abs(s), t);
    } else if pc.Scheduling? {
      AcquireRefines(s, t, pc, c);
    } else if pc.Refused? {
      RefusedRefines(s, t, pc.jobs, pc.drain, c);
    } else if pc.Rechecking? {
      RecheckRefines(s, t, pc.mode, c);
    } else {
      WithdrawRefines(s, t, c);
    }
  }

  lemma RecheckRefines(s: State, t: Id, mode: Mode, c: Choice)
    requires t in s.threads && s.threads[t] == InEnrich(Rechecking(mode))
    ensures Simulated(Abs(s), A.ReadClosingAgain(t, 9), Abs(AdmissionStep(s, t, Rechecking(mode), c)))
  {
    AbsSet(s.threads, t, InEnrich(if s.closing then Withdrawing else Announcing(mode)));
  }

  lemma WithdrawRefines(s: State, t: Id, c: Choice)
    requires t in s.threads && s.threads[t] == InEnrich(Withdrawing) && s.occupied > 0
    ensures Simulated(Abs(s), A.Withdraw(t), Abs(AdmissionStep(s, t, Withdrawing, c)))
  {
    AbsSet(s.threads, t, InEnrich(Returned(ShuttingDown)));
  }

  lemma RefusedRefines(s: State, t: Id, jobs: nat, drain: nat, c: Choice)
    requires t in s.threads && s.threads[t] == InEnrich(Refused(jobs, drain))
    ensures Simulated(Abs(s), AbsCallerStep(s, t, Refused(jobs, drain), c), Abs(AdmissionStep(s, t, Refused(jobs, drain), c)))
  {
    AbsSet(s.threads, t, InEnrich(Returned(if s.closing then ShuttingDown else BackgroundLimit(jobs, drain))));
  }

  lemma AcquireRefines(s: State, t: Id, pc: Caller, c: Choice)
    requires t in s.threads && s.threads[t] == InEnrich(pc) && pc.Scheduling? && !pc.mode.Sync?
    ensures Simulated(Abs(s), A.TryAcquire(t, 10), Abs(AdmissionStep(s, t, pc, c)))
  {
    AbsSet(s.threads, t, AdmissionStep(s, t, pc, c).threads[t]);
  }

  lemma BackRefines(s: State, t: Id, pc: Caller, c: Choice)
    requires t in s.threads && s.threads[t] == InEnrich(pc) && CanMove(s, t, InEnrich(pc), c)
    requires !Front(pc) && !OwnCall(pc) && !AtPool(pc)
    ensures Simulated(Abs(s), AbsCallerStep(s, t, pc, c), Abs(BackStep(s, t, pc, c)))
  {
    var s' := BackStep(s, t, pc, c);
    if pc.Launching? {
      LaunchRefines(s, t, pc.mode, c);
    } else if pc.Announcing? || pc.Marking? {
      AbsSet(s.threads, t, s'.threads[t]);
      A.InternalStep(Abs(s), t, AbsPc(s'.threads[t]));
    } else {
      WaitRefines(s, t, pc, c);
    }
  }

  lemma WaitRefines(s: State, t: Id, pc: Caller, c: Choice)
    requires t in s.threads && s.threads[t] == InEnrich(pc) && CanMove(s, t, InEnrich(pc), c)
    requires pc.Waiting? || pc.LastLook? || pc.Expiring?
    ensures Abs(BackStep(s, t, pc, c)) == Abs(s)
  {
    var s' := BackStep(s, t, pc, c);
    assert AbsPc(s'.threads[t]) == A.Outside;
    AbsGoto(s, s', t, s'.threads[t]);
  }

  lemma LaunchRefines(s: State, t: Id, mode: Mode, c: Choice)
    requires t in s.threads && s.threads[t] == InEnrich(Launching(mode)) && c.spawn !in s.threads
    ensures Simulated(Abs(s), A.Spawn(t, c.spawn, 6), Abs(BackStep(s, t, Launching(mode), c)))
  {
    var next, job := InEnrich(if mode.Hybrid? then Waiting(c.spawn) else Expiring(c.spawn)),
                     InRun(Resolving(if mode.Hybrid? then Some(t) else None));
    AbsSpawn(s.threads, t, next, c.spawn, job);
  }

  lemma JobRefines(s: State, t: Id, pc: Worker, c: Choice)
    requires t in s.threads && s.threads[t] == InRun(pc) && CanMove(s, t, InRun(pc), c)
    ensures Simulated(Abs(s), AbsJobStep(t, pc, c), Abs(JobStep(s, t, pc, c)))
  {
    var s' := JobStep(s, t, pc, c);
    AbsSet(s.threads, t, s'.threads[t]);
    if !pc.Releasing? {
      A.InternalStep(Abs(s), t, AbsPc(s'.threads[t]));
    }
  }

  lemma ShutdownRefines(s: State, t: Id, pc: Stopper, c: Choice)
    requires t in s.threads && s.threads[t] == InShutdown(pc) && CanMove(s, t, InShutdown(pc), c)
    ensures Simulated(Abs(s), AbsShutdownStep(s.cap, t, pc, c), Abs(ShutdownStep(s, t, pc, c)))
  {
    if pc.Starting? {
      OnceRefines(s, t, c);
    } else {
      AbsSet(s.threads, t, ShutdownStep(s, t, pc, c).threads[t]);
    }
  }

  lemma OnceRefines(s: State, t: Id, c: Choice)
    requires t in s.threads && s.threads[t] == InShutdown(Starting) && c.spawn !in s.threads
    ensures Simulated(Abs(s), A.DoOnce(t, c.spawn), Abs(ShutdownStep(s, t, Starting, c)))
  {
    AbsSet(s.threads, t, InShutdown(Awaiting));
    AbsSpawn(s.threads, t, InShutdown(Awaiting), c.spawn, InShutdown(Draining(0)));
  }

  /** Every enricher step is a protocol step or leaves the pool alone. */
  lemma Refines(s: State, a: Step)
    requires Enabled(s, a)
    ensures Simulated(Abs(s), AbsStep(s, a), Abs(Apply(s, a)))
  {
    match a
    case Call(t, req) => AbsSet(s.threads, t, InEnrich(Entering(req)));
    case CallShutdown(t) => AbsSet(s.threads, t, InShutdown(StoringClosing));
    case Move(t, c) =>
      match s.threads[t] {
        case InEnrich(pc) => CallerRefines(s, t, pc, c);
        case InRun(pc) => JobRefines(s, t, pc, c);
        case InShutdown(pc) => ShutdownRefines(s, t, pc, c);
      }
  }

  /* ---------- what the metric events add up to ---------- */

  // A counted request whose outcome has not been counted yet. A background
  // call takes the request over from its caller when it is launched.
  function InFlight(pc: Pc): nat {
    match pc
    case InEnrich(p) =>
      if p.Entering? || p.Counting? || p.Storing? || p.Waiting? || p.LastLook? || p.Expiring? || p.Returned? then 0 else 1
    case InRun(j) => if j.Resolving? || j.Reporting? then 1 else 0
    case InShutdown(_) => 0
  }

  // Between BackgroundStarted and BackgroundFinished.
  function Gauged(pc: Pc): nat {
    match pc
    case InEnrich(p) => if p.Marking? || p.Launching? then 1 else 0
    case InRun(j) => if j.Resolving? || j.Reporting? || j.Sending? || j.Writing? || j.Finishing? then 1 else 0
    case InShutdown(_) => 0
  }

  // A caller admitted to the background that has not been told wait_expired.
  function Owed(pc: Pc): nat {
    match pc
    case InEnrich(p) =>
      if p.Marking? || p.Launching? || p.Waiting? || p.LastLook? || p.Expiring? then 1
      else if p.Returned? && p.a.FromWorker? then 1
      else 0
    case _ => 0
  }

  ghost predicate Books(s: State) {
    && s.m.requests == Total(InFlight, s.threads) + s.m.enriched + s.m.notEnriched + s.m.apiErrors + s.m.silent
    && s.m.started == Total(Gauged, s.threads) + s.m.finished
    && s.m.started == Total(Owed, s.threads) + s.m.waitExpired
  }

  /** One thread moves and the books still balance, provided the events it
      emits account for what it owed before and owes now. */
  lemma Tallied(s: State, s': State, t: Id, pc: Pc)
    requires Books(s) && s'.threads == s.threads[t := pc]
    requires Emits(s, s', t, pc)
    ensures Books(s')
  {
    TotalSet(InFlight, s.threads, t, pc);
    TotalSet(Gauged, s.threads, t, pc);
    TotalSet(Owed, s.threads, t, pc);
  }

  lemma LaunchBooks(s: State, t: Id, mode: Mode, c: Choice)
    requires Books(s) && t in s.threads && s.threads[t] == InEnrich(Launching(mode)) && c.spawn !in s.threads
    ensures Books(BackStep(s, t, Launching(mode), c))
  {
    var next, job := InEnrich(if mode.Hybrid? then Waiting(c.spawn) else Expiring(c.spawn)),
                     InRun(Resolving(if mode.Hybrid? then Some(t) else None));
    var m := s.threads[t := next];
    TotalSet(InFlight, s.threads, t, next); TotalSet(InFlight, m, c.spawn, job);
    TotalSet(Gauged, s.threads, t, next);   TotalSet(Gauged, m, c.spawn, job);
    TotalSet(Owed, s.threads, t, next);     TotalSet(Owed, m, c.spawn, job);
  }

  /* ---------- the hand-off to a hybrid caller, and the cache writes ---------- */

  // The caller a worker has yet to answer.
  function Debtor(pc: Pc): Option<Id> {
    match pc
    case InRun(Resolving(done)) => done
    case InRun(Reporting(done, _)) => done
    case InRun(Sending(c, _)) => Some(c)
    case _ => None
  }

  // The outcome of a worker that has nothing left to send.
  function Settled(pc: Pc): Option<Outcome> {
    match pc
    case InRun(Writing(o)) => Some(o)
    case InRun(Finishing(o)) => Some(o)
    case InRun(Releasing(o)) => Some(o)
    case InRun(Finished(o)) => Some(o)
    case _ => None
  }

  // The worker that a caller in background mode was given.
  function WorkerOf(pc: Pc): Option<Id> {
    match pc
    case InEnrich(Waiting(w)) => Some(w)
    case InEnrich(LastLook(w)) => Some(w)
    case InEnrich(Expiring(w)) => Some(w)
    case InEnrich(Returned(WaitExpired(w))) => Some(w)
    case InEnrich(Returned(FromWorker(w, _))) => Some(w)
    case _ => None
  }

  predicate Waits(pc: Pc) { pc.InEnrich? && (pc.c.Waiting? || pc.c.LastLook?) }

  // While a worker owes an answer, its caller's channel is empty and that
  // caller was given this worker.
  ghost predicate Owes(s: State, w: Id, c: Id) {
    c in s.chans && s.chans[c] == [] && c in s.threads && WorkerOf(s.threads[c]) == Some(w)
  }

  // A caller still waiting has a worker that owes it an answer, or has sent
  // one, which is then what the channel holds.
  ghost predicate WaitsFor(s: State, t: Id, w: Id) {
    && t in s.chans && w in s.threads
    && if s.chans[t] == [] then Debtor(s.threads[w]) == Some(t)
       else s.chans[t] == [s.chans[t][0]] && Settled(s.threads[w]) == Some(s.chans[t][0])
  }

  ghost predicate Sound(s: State, t: Id)
    requires t in s.threads
  {
    var pc := s.threads[t];
    && (Debtor(pc).Some? ==> Owes(s, t, Debtor(pc).value))
    && (Waits(pc) ==> WaitsFor(s, t, WorkerOf(pc).value))
    && (pc.InEnrich? && pc.c.Returned? && pc.c.a.FromWorker? ==>
          pc.c.a.w in s.threads && Settled(s.threads[pc.c.a.w]) == Some(pc.c.a.o))
    && (t in s.chans ==> WorkerOf(pc).Some? && |s.chans[t]| <= 1)
  }

  ghost predicate Handoff(s: State) {
    && (forall t :: t in s.threads ==> Sound(s, t))
    && s.chans.Keys <= s.threads.Keys
  }

  /** A move that leaves every channel, debt, worker and outcome as it was. */
  lemma HandoffMove(s: State, s': State, t: Id, pc: Pc)
    requires Handoff(s) && s'.threads == s.threads[t := pc] && s'.chans == s.chans
    requires Plain(s.threads, t, pc)
    ensures Handoff(s')
  {
    forall u | u in s'.threads ensures Sound(s', u) {
      assert u in s.threads ==> Sound(s, u);
    }
  }

  lemma LaunchHandoff(s: State, t: Id, mode: Mode, c: Choice)
    requires Handoff(s) && t in s.threads && s.threads[t] == InEnrich(Launching(mode)) && c.spawn !in s.threads
    ensures Handoff(BackStep(s, t, Launching(mode), c))
  {
    var s' := BackStep(s, t, Launching(mode), c);
    LaunchedSound(s, t, mode, c);
    forall u | u in s'.threads ensures Sound(s', u) {
      if u != t && u != c.spawn { BystanderSound(s, t, mode, c, u); }
    }
  }

  // The caller and its new worker.
  lemma LaunchedSound(s: State, t: Id, mode: Mode, c: Choice)
    requires Handoff(s) && t in s.threads && s.threads[t] == InEnrich(Launching(mode)) && c.spawn !in s.threads
    ensures var s' := BackStep(s, t, Launching(mode), c); Sound(s', t) && Sound(s', c.spawn)
  {
    assert Sound(s, t);
    assert c.spawn !in s.chans;
  }

  // Every other thread, whose caller or worker is neither of them.
  lemma BystanderSound(s: State, t: Id, mode: Mode, c: Choice, u: Id)
    requires Handoff(s) && t in s.threads && s.threads[t] == InEnrich(Launching(mode)) && c.spawn !in s.threads
    requires u in s.threads && u != t
    ensures Sound(BackStep(s, t, Launching(mode), c), u)
  {
    assert Sound(s, u);
    var pc := s.threads[u];
    if Debtor(pc).Some? { assert WorkerOf(s.threads[Debtor(pc).value]) == Some(u); }
  }

  lemma ReceiveHandoff(s: State, t: Id, w: Id)
    requires Handoff(s) && t in s.threads && WorkerOf(s.threads[t]) == Some(w) && WaitsFor(s, t, w) && s.chans[t] != []
    ensures Handoff(Receive(s, t, w))
  {
    var s' := Receive(s, t, w);
    forall u | u in s'.threads ensures Sound(s', u) {
      assert u in s.threads ==> Sound(s, u);
    }
  }

  lemma SendHandoff(s: State, t: Id, caller: Id, o: Outcome, c: Choice)
    requires Handoff(s) && t in s.threads && s.threads[t] == InRun(Sending(caller, o)) && CanMove(s, t, s.threads[t], c)
    ensures Handoff(JobStep(s, t, Sending(caller, o), c))
  {
    var s' := JobStep(s, t, Sending(caller, o), c);
    assert Sound(s, t);
    forall u | u in s'.threads ensures Sound(s', u) {
      assert u in s.threads ==> Sound(s, u);
    }
  }

  // How many results a thread has written to the cache.
  function Stores(pc: Pc): nat {
    match pc
    case InEnrich(Returned(Resolved(o, keyed))) => if keyed && Cacheable(o) then 1 else 0
    case InRun(Finishing(o)) => if Cacheable(o) then 1 else 0
    case InRun(Releasing(o)) => if Cacheable(o) then 1 else 0
    case InRun(Finished(o)) => if Cacheable(o) then 1 else 0
    case _ => 0
  }

  ghost predicate Stored(s: State) {
    forall t :: s.stores[t] == Of(Stores, s.threads, t)
  }

  lemma StoredMove(s: State, s': State, t: Id, pc: Pc)
    requires Stored(s) && s'.threads == s.threads[t := pc]
    requires Writes(s, s', t, pc)
    ensures Stored(s')
  {
    forall u ensures s'.stores[u] == Of(Stores, s'.threads, u) {
      assert s.stores[u] == Of(Stores, s.threads, u);
    }
  }

  /* ---------- every step keeps the books, the hand-off and the writes ---------- */

  ghost predicate Local(s: State) { Books(s) && Handoff(s) && Stored(s) }

  // A move with no part in the hand-off and no cache write.
  predicate Plain(m: map<Id, Pc>, t: Id, pc: Pc) {
    if t in m then
      && Debtor(pc) == Debtor(m[t])
      && (Settled(m[t]).Some? ==> Settled(pc) == Settled(m[t]))
      && WorkerOf(pc) == WorkerOf(m[t])
      && (Waits(pc) ==> Waits(m[t]))
      && !(pc.InEnrich? && pc.c.Returned? && pc.c.a.FromWorker?)
    else Debtor(pc).None? && WorkerOf(pc).None?
  }

  predicate Writes(s: State, s': State, t: Id, pc: Pc) {
    || (s'.stores == s.stores && Stores(pc) == Of(Stores, s.threads, t))
    || (s'.stores == s.stores + multiset{t} && Stores(pc) == 1 && Of(Stores, s.threads, t) == 0)
  }

  predicate Emits(s: State, s': State, t: Id, pc: Pc) {
    && s'.m.requests + Of(InFlight, s.threads, t) + s.m.enriched + s.m.notEnriched + s.m.apiErrors + s.m.silent
       == s.m.requests + InFlight(pc) + s'.m.enriched + s'.m.notEnriched + s'.m.apiErrors + s'.m.silent
    && s'.m.started + Of(Gauged, s.threads, t) + s.m.finished == s.m.started + Gauged(pc) + s'.m.finished
    && s'.m.started + Of(Owed, s.threads, t) + s.m.waitExpired == s.m.started + Owed(pc) + s'.m.waitExpired
  }

  lemma LocalMove(s: State, s': State, t: Id, pc: Pc)
    requires Local(s) && s'.threads == s.threads[t := pc] && s'.chans == s.chans
    requires Plain(s.threads, t, pc) && Emits(s, s', t, pc) && Writes(s, s', t, pc)
    ensures Local(s')
  {
    Tallied(s, s', t, pc);
    HandoffMove(s, s', t, pc);
    StoredMove(s, s', t, pc);
  }

  lemma StepLocal(s: State, a: Step)
    requires Local(s) && Enabled(s, a)
    ensures Local(Apply(s, a))
  {
    match a
    case Call(t, req) => LocalMove(s, Apply(s, a), t, InEnrich(Entering(req)));
    case CallShutdown(t) => LocalMove(s, Apply(s, a), t, InShutdown(StoringClosing));
    case Move(t, c) =>
      match s.threads[t] {
        case InEnrich(pc) =>
          if Front(pc) { FrontLocal(s, t, pc, c); }
          else if OwnCall(pc) { SyncLocal(s, t, pc, c); }
          else if AtPool(pc) { AdmissionLocal(s, t, pc, c); }
          else if pc.Launching? { LaunchLocal(s, t, pc.mode, c); }
          else { BackLocal(s, t, pc, c); }
        case InRun(pc) => JobLocal(s, t, pc, c);
        case InShutdown(pc) => ShutdownLocal(s, t, pc, c);
      }
  }

  lemma FrontLocal(s: State, t: Id, pc: Caller, c: Choice)
    requires Local(s) && t in s.threads && s.threads[t] == InEnrich(pc) && Front(pc)
    ensures Local(FrontStep(s, t, pc, c))
  {
    match pc
    case Entering(req) => LocalMove(s, FrontStep(s, t, pc, c), t, FrontStep(s, t, pc, c).threads[t]);
    case Counting(req) => LocalMove(s, FrontStep(s, t, pc, c), t, InEnrich(Assessing(req)));
    case Assessing(req) => AssessLocal(s, t, req, c);
    case LookingUp(mode) => LookupLocal(s, t, mode, c);
  }

  lemma AssessLocal(s: State, t: Id, req: Request, c: Choice)
    requires Local(s) && t in s.threads && s.threads[t] == InEnrich(Assessing(req))
    ensures Local(FrontStep(s, t, Assessing(req), c))
  {
    var s' := FrontStep(s, t, Assessing(req), c);
    match Assess(s.cap, s.hasCache, req)
    case NoEndpoint => LocalMove(s, s', t, InEnrich(Returned(Refusal(true))));
    case Invalid => LocalMove(s, s', t, InEnrich(Returned(Refusal(false))));
    case Go(mode, keyed) => LocalMove(s, s', t, InEnrich(if keyed then LookingUp(mode) else Scheduling(mode, false)));
  }

  lemma LookupLocal(s: State, t: Id, mode: Mode, c: Choice)
    requires Local(s) && t in s.threads && s.threads[t] == InEnrich(LookingUp(mode))
    ensures Local(FrontStep(s, t, LookingUp(mode), c))
  {
    var s' := FrontStep(s, t, LookingUp(mode), c);
    if c.lookup.Miss? {
      LocalMove(s, s', t, InEnrich(Scheduling(mode, true)));
    } else {
      LocalMove(s, s', t, InEnrich(Returned(FromCache(c.lookup))));
    }
  }

  lemma SyncLocal(s: State, t: Id, pc: Caller, c: Choice)
    requires Local(s) && t in s.threads && s.threads[t] == InEnrich(pc) && OwnCall(pc)
    ensures Local(SyncStep(s, t, pc, c))
  {
    LocalMove(s, SyncStep(s, t, pc, c), t, SyncStep(s, t, pc, c).threads[t]);
  }

  lemma AdmissionLocal(s: State, t: Id, pc: Caller, c: Choice)
    requires Local(s) && t in s.threads && s.threads[t] == InEnrich(pc) && AtPool(pc) && (pc.Withdrawing? ==> s.occupied > 0)
    ensures Local(AdmissionStep(s, t, pc, c))
  {
    match pc
    case Scheduling(mode, keyed) => AcquireLocal(s, t, mode, keyed, c);
    case Refused(jobs, drain) => RefusedLocal(s, t, jobs, drain, c);
    case Rechecking(mode) => RecheckLocal(s, t, mode, c);
    case Withdrawing => LocalMove(s, AdmissionStep(s, t, pc, c), t, InEnrich(Returned(ShuttingDown)));
  }

  lemma RefusedLocal(s: State, t: Id, jobs: nat, drain: nat, c: Choice)
    requires Local(s) && t in s.threads && s.threads[t] == InEnrich(Refused(jobs, drain))
    ensures Local(AdmissionStep(s, t, Refused(jobs, drain), c))
  {
    LocalMove(s, AdmissionStep(s, t, Refused(jobs, drain), c), t,
      InEnrich(Returned(if s.closing then ShuttingDown else BackgroundLimit(jobs, drain))));
  }

  lemma RecheckLocal(s: State, t: Id, mode: Mode, c: Choice)
    requires Local(s) && t in s.threads && s.threads[t] == InEnrich(Rechecking(mode))
    ensures Local(AdmissionStep(s, t, Rechecking(mode), c))
  {
    LocalMove(s, AdmissionStep(s, t, Rechecking(mode), c), t, InEnrich(if s.closing then Withdrawing else Announcing(mode)));
  }

  lemma AcquireLocal(s: State, t: Id, mode: Mode, keyed: bool, c: Choice)
    requires Local(s) && t in s.threads && s.threads[t] == InEnrich(Scheduling(mode, keyed))
    ensures Local(AdmissionStep(s, t, Scheduling(mode, keyed), c))
  {
    var s' := AdmissionStep(s, t, Scheduling(mode, keyed), c);
    if mode.Sync? {
      LocalMove(s, s', t, InEnrich(Calling(keyed)));
    } else if s.occupied < s.cap {
      LocalMove(s, s', t, InEnrich(Rechecking(mode)));
    } else {
      LocalMove(s, s', t, InEnrich(Refused(A.JobsHold(Abs(s)), A.DrainHolds(Abs(s)))));
    }
  }

  lemma LaunchLocal(s: State, t: Id, mode: Mode, c: Choice)
    requires Local(s) && t in s.threads && s.threads[t] == InEnrich(Launching(mode)) && c.spawn !in s.threads
    ensures Local(BackStep(s, t, Launching(mode), c))
  {
    var s' := BackStep(s, t, Launching(mode), c);
    LaunchBooks(s, t, mode, c);
    LaunchHandoff(s, t, mode, c);
    StoredMove(s, Goto(s, t, s'.threads[t]), t, s'.threads[t]);
    StoredMove(Goto(s, t, s'.threads[t]), s', c.spawn, s'.threads[c.spawn]);
  }

  lemma BackLocal(s: State, t: Id, pc: Caller, c: Choice)
    requires Local(s) && t in s.threads && s.threads[t] == InEnrich(pc) && CanMove(s, t, InEnrich(pc), c)
    requires pc.Announcing? || pc.Marking? || pc.Waiting? || pc.LastLook? || pc.Expiring?
    ensures Local(BackStep(s, t, pc, c))
  {
    assert Sound(s, t);
    if (pc.Waiting? && c.ok) || (pc.LastLook? && s.chans[t] != []) {
      ReceiveLocal(s, t, pc.w);
    } else if pc.Announcing? || pc.Marking? {
      AnnounceLocal(s, t, pc, c);
    } else {
      WaitLocal(s, t, pc, c);
    }
  }

  lemma AnnounceLocal(s: State, t: Id, pc: Caller, c: Choice)
    requires Local(s) && t in s.threads && s.threads[t] == InEnrich(pc) && (pc.Announcing? || pc.Marking?)
    ensures Local(BackStep(s, t, pc, c))
  {
    if pc.Announcing? {
      LocalMove(s, BackStep(s, t, pc, c), t, InEnrich(Marking(pc.mode)));
    } else {
      LocalMove(s, BackStep(s, t, pc, c), t, InEnrich(Launching(pc.mode)));
    }
  }

  // The waiting steps that leave the channels alone.
  lemma WaitLocal(s: State, t: Id, pc: Caller, c: Choice)
    requires Local(s) && t in s.threads && s.threads[t] == InEnrich(pc) && CanMove(s, t, InEnrich(pc), c)
    requires (pc.Waiting? && !c.ok) || (pc.LastLook? && t in s.chans && s.chans[t] == []) || pc.Expiring?
    ensures Local(BackStep(s, t, pc, c))
  {
    if pc.Waiting? {
      LocalMove(s, BackStep(s, t, pc, c), t, InEnrich(LastLook(pc.w)));
    } else if pc.LastLook? {
      LastLookLocal(s, t, pc.w, c);
    } else {
      ExpireLocal(s, t, pc.w, c);
    }
  }

  lemma ExpireLocal(s: State, t: Id, w: Id, c: Choice)
    requires Local(s) && t in s.threads && s.threads[t] == InEnrich(Expiring(w))
    ensures Local(BackStep(s, t, Expiring(w), c))
  {
    LocalMove(s, BackStep(s, t, Expiring(w), c), t, InEnrich(Returned(WaitExpired(w))));
  }

  lemma LastLookLocal(s: State, t: Id, w: Id, c: Choice)
    requires Local(s) && t in s.threads && s.threads[t] == InEnrich(LastLook(w)) && t in s.chans && s.chans[t] == []
    ensures Local(BackStep(s, t, LastLook(w), c))
  {
    LocalMove(s, BackStep(s, t, LastLook(w), c), t, InEnrich(Expiring(w)));
  }

  lemma ReceiveLocal(s: State, t: Id, w: Id)
    requires Local(s) && t in s.threads && Waits(s.threads[t]) && WorkerOf(s.threads[t]) == Some(w)
    requires t in s.chans && s.chans[t] != []
    ensures Local(Receive(s, t, w))
  {
    assert Sound(s, t);
    var s' := Receive(s, t, w);
    Tallied(s, s', t, s'.threads[t]);
    ReceiveHandoff(s, t, w);
    StoredMove(s, s', t, s'.threads[t]);
  }

  lemma JobLocal(s: State, t: Id, pc: Worker, c: Choice)
    requires Local(s) && t in s.threads && s.threads[t] == InRun(pc) && CanMove(s, t, InRun(pc), c)
    ensures Local(JobStep(s, t, pc, c))
  {
    if pc.Sending? {
      SendLocal(s, t, pc.c, pc.o, c);
    } else {
      WorkLocal(s, t, pc, c);
    }
  }

  lemma SendLocal(s: State, t: Id, caller: Id, o: Outcome, c: Choice)
    requires Local(s) && t in s.threads && s.threads[t] == InRun(Sending(caller, o)) && CanMove(s, t, s.threads[t], c)
    ensures Local(JobStep(s, t, Sending(caller, o), c))
  {
    var s' := JobStep(s, t, Sending(caller, o), c);
    Tallied(s, s', t, InRun(AfterSend(o)));
    SendHandoff(s, t, caller, o, c);
    StoredMove(s, s', t, InRun(AfterSend(o)));
  }

  lemma WorkLocal(s: State, t: Id, pc: Worker, c: Choice)
    requires Local(s) && t in s.threads && s.threads[t] == InRun(pc) && CanMove(s, t, InRun(pc), c) && !pc.Sending?
    ensures Local(JobStep(s, t, pc, c))
  {
    var s' := JobStep(s, t, pc, c);
    match pc
    case Resolving(done) => LocalMove(s, s', t, InRun(Reporting(done, c.outcome)));
    case Reporting(done, o) => ReportLocal(s, t, done, o, c);
    case Writing(o) => LocalMove(s, s', t, InRun(Finishing(o)));
    case Finishing(o) => LocalMove(s, s', t, InRun(Releasing(o)));
    case Releasing(o) => LocalMove(s, s', t, InRun(Finished(o)));
  }

  lemma ReportLocal(s: State, t: Id, done: Option<Id>, o: Outcome, c: Choice)
    requires Local(s) && t in s.threads && s.threads[t] == InRun(Reporting(done, o))
    ensures Local(JobStep(s, t, Reporting(done, o), c))
  {
    var s' := JobStep(s, t, Reporting(done, o), c);
    LocalMove(s, s', t, InRun(if done.Some? then Sending(done.value, o) else AfterSend(o)));
  }

  lemma ShutdownLocal(s: State, t: Id, pc: Stopper, c: Choice)
    requires Local(s) && t in s.threads && s.threads[t] == InShutdown(pc) && CanMove(s, t, InShutdown(pc), c)
    ensures Local(ShutdownStep(s, t, pc, c))
  {
    if pc.Starting? && !s.once {
      LocalMove(s, GotoShutdown(s, t, Awaiting), t, InShutdown(Awaiting));
      LocalMove(GotoShutdown(s, t, Awaiting), ShutdownStep(s, t, pc, c), c.spawn, InShutdown(Draining(0)));
    } else {
      LocalMove(s, ShutdownStep(s, t, pc, c), t, ShutdownStep(s, t, pc, c).threads[t]);
    }
  }
}
