/** The enricher and the cache together: the threads of `EnricherProtocol`, and
    for each call with keys what it does to the layers, access by access, as in
    `CacheThreads`. Where the one model takes a single step for cache work, it
    now waits for the other to have done it. */
module EnricherCache {
  import opened Wrappers
  import opened CacheEntry
  import opened Resolving
  import E = EnricherProtocol
  import T = EnricherTheorems
  import C = CacheThreads
  import CT = CacheThreadTheorems

  type Id = nat

  datatype State = State(e: E.State, c: C.State)

  // A step of the enricher, a step of a call on the layers, or the API call,
  // which is one step of both: of call `t`, made by thread `u`.
  datatype Step = OfEnricher(a: E.Step) | OfCache(x: C.Step) | OfBoth(u: Id, t: Id, ec: E.Choice, cc: C.Choice)

  // What resolving makes of an answer of the API.
  function OutcomeOf(a: Api): E.Outcome {
    if a.Failure? then E.Failed else if a.empty then E.Empty else if a.eids == [] then E.NoIds else E.Found
  }

  /** Both models take the same answer the same way: the outcome is a failure, an
      empty body, or what the response that is stored has identifiers or none of. */
  lemma OutcomeExactly(a: Api)
    ensures var o, x := OutcomeOf(a), Classify(a);
      && (o.Failed? <==> a.Failure?) && (o.Empty? <==> a.Body? && a.empty)
      && (o.NoIds? <==> x.NoIdentifiers?) && (o.Found? <==> x.Identifiers?) && Reads(x, a) && Agrees(o, x)
  {
    ClassifyReads(a);
  }

  predicate Agrees(o: E.Outcome, x: Response) {
    match x
    case Uncacheable => !E.Cacheable(o)
    case NoIdentifiers(_) => o.NoIds?
    case Identifiers(_) => o.Found?
  }

  // Where the call stands: at its worker once it has one.
  function Phase(e: E.State, t: Id): E.Pc
    requires t in e.threads
  {
    var w := E.WorkerOf(e.threads[t]);
    if w.Some? && w.value in e.threads then e.threads[w.value] else e.threads[t]
  }

  ghost predicate CarriedBy(e: E.State, t: Id, w: Id) { t in e.threads && E.WorkerOf(e.threads[t]) == Some(w) }

  predicate Marked(c: C.State, t: Id) { t in c.threads && c.threads[t].Saving? && c.threads[t].v.Calling? }

  predicate Through(c: C.State, t: Id) { t in c.threads && c.threads[t].Done? }

  // The lookup is over, with this result.
  predicate LookedUp(pc: C.Pc, l: E.Lookup) {
    match pc
    case Served(_, _, hit, _, _) => l == if hit.negative then E.Negative else E.Hit
    case Waits(_, _) => l.InProgress?
    case Saving(_, _, MarkRead(0)) => l.Miss?
    case _ => false
  }

  // A step that stands for cache work waits until the work is done.
  ghost predicate Ready(s: State, a: E.Step) {
    a.Move? && a.t in s.e.threads ==>
      match s.e.threads[a.t]
      case InEnrich(LookingUp(_)) => a.t in s.c.threads && LookedUp(s.c.threads[a.t], a.c.lookup)
      case InEnrich(Scheduling(mode, keyed)) => mode.Sync? && keyed ==> Marked(s.c, a.t)
      case InEnrich(Marking(_)) => Marked(s.c, a.t)
      case InEnrich(Calling(keyed)) => !keyed
      case InEnrich(Storing(_, keyed)) => keyed ==> Through(s.c, a.t)
      case InRun(Resolving(_)) => false
      case InRun(Writing(_)) => forall t :: CarriedBy(s.e, t, a.t) ==> Through(s.c, t)
      case _ => true
  }

  predicate Marks(v: C.Saver) { v.MarkRead? || v.MarkPut? }

  // And that work is done only there.
  predicate InTime(s: State, x: C.Step) {
    match x
    case Begin(t, _, _) => t in s.e.threads && s.e.threads[t].InEnrich? && s.e.threads[t].c.LookingUp?
    case Move(t, _) =>
      t in s.e.threads && t in s.c.threads && (s.c.threads[t].Saving? ==>
        if Marks(s.c.threads[t].v) then Marking(s.e.threads[t]) else !s.c.threads[t].v.Calling? && Writing(Phase(s.e, t)))
    case _ => true
  }

  predicate Marking(pc: E.Pc) {
    pc.InEnrich? && (pc.c.Marking? || (pc.c.Scheduling? && pc.c.mode.Sync? && pc.c.keyed))
  }

  predicate Writing(pc: E.Pc) { (pc.InEnrich? && pc.c.Storing? && pc.c.keyed) || (pc.InRun? && pc.j.Writing?) }

  // The thread that makes the call's API request.
  predicate Resolves(e: E.State, u: Id, t: Id) {
    t in e.threads && u in e.threads &&
    match e.threads[u]
    case InEnrich(Calling(keyed)) => keyed && u == t
    case InRun(Resolving(_)) => E.WorkerOf(e.threads[t]) == Some(u)
    case _ => false
  }

  ghost predicate Enabled(cfg: C.Config, s: State, a: Step) {
    match a
    case OfEnricher(b) => E.Enabled(s.e, b) && Ready(s, b)
    case OfCache(x) => C.Enabled(cfg, s.c, x) && InTime(s, x)
    case OfBoth(u, t, ec, cc) =>
      && E.Enabled(s.e, E.Move(u, ec)) && C.Enabled(cfg, s.c, C.Move(t, cc))
      && Resolves(s.e, u, t) && Marked(s.c, t) && ec.outcome == OutcomeOf(cc.api)
  }

  ghost function Apply(cfg: C.Config, s: State, a: Step): State
    requires Enabled(cfg, s, a)
  {
    match a
    case OfEnricher(b) => s.(e := E.Apply(s.e, b))
    case OfCache(x) => s.(c := C.Apply(cfg, s.c, x))
    case OfBoth(u, t, ec, cc) => State(E.Apply(s.e, E.Move(u, ec)), C.Apply(cfg, s.c, C.Move(t, cc)))
  }

  function Init(cap: nat): State { State(E.Init(cap, true), C.Init) }

  ghost predicate Legal(cfg: C.Config, s: State, run: seq<Step>)
    decreases |run|
  {
    run == [] || (Enabled(cfg, s, run[0]) && Legal(cfg, Apply(cfg, s, run[0]), run[1..]))
  }

  ghost function Run(cfg: C.Config, s: State, run: seq<Step>): State
    requires Legal(cfg, s, run)
    decreases |run|
  {
    if run == [] then s else Run(cfg, Apply(cfg, s, run[0]), run[1..])
  }

  /* ---------- callers and their workers ---------- */

  // A worker has one caller.
  ghost predicate Owners(e: E.State) {
    && (forall t :: t in e.threads && E.WorkerOf(e.threads[t]).Some? ==> Employed(e, E.WorkerOf(e.threads[t]).value))
    && (forall t, u :: CarriedAlike(e, t, u) ==> t == u)
  }

  predicate Employed(e: E.State, w: Id) { w in e.threads && e.threads[w].InRun? }

  predicate CarriedAlike(e: E.State, t: Id, u: Id) {
    && t in e.threads && u in e.threads && E.WorkerOf(e.threads[t]).Some?
    && E.WorkerOf(e.threads[t]) == E.WorkerOf(e.threads[u])
  }

  /* ---------- what the two models know of a call ---------- */

  // The response that a call is storing.
  function Storing(v: C.Saver): Option<Response> {
    match v
    case StoreRead(x, _) => Some(x)
    case StoreSet(w, _) => Some(w.x)
    case StorePut(w, _) => Some(w.x)
    case _ => None
  }

  predicate BeforeMarks(pc: E.Caller) {
    || pc.LookingUp? || (pc.Scheduling? && pc.keyed) || pc.Refused? || pc.Rechecking? || pc.Withdrawing?
    || pc.Announcing? || pc.Marking? || (pc.Returned? && (pc.a.ShuttingDown? || pc.a.BackgroundLimit?))
  }

  // Resolved with an outcome, which is still to be stored.
  predicate StoresLater(pc: E.Pc, x: Response) {
    match pc
    case InEnrich(Noting(o, keyed)) => keyed && Agrees(o, x)
    case InEnrich(Storing(o, keyed)) => keyed && Agrees(o, x)
    case InRun(Reporting(_, o)) => Agrees(o, x)
    case InRun(Sending(_, o)) => Agrees(o, x)
    case InRun(Writing(o)) => Agrees(o, x)
    case _ => false
  }

  predicate IsOver(pc: E.Pc, x: Response) {
    match pc
    case InEnrich(Returned(Resolved(o, keyed))) => keyed && Agrees(o, x)
    case InRun(Finishing(o)) => Agrees(o, x)
    case InRun(Releasing(o)) => Agrees(o, x)
    case InRun(Finished(o)) => Agrees(o, x)
    case _ => false
  }

  // Where the enricher has the call, given how far its cache work is.
  predicate Fits(cp: C.Pc, pc: E.Pc) {
    match cp
    case Looking(_, _, _) => pc.InEnrich? && pc.c.LookingUp?
    case Filling(_, _) => pc.InEnrich? && pc.c.LookingUp?
    case Served(_, _, _, _, _) => pc.InEnrich? && (pc.c.LookingUp? || (pc.c.Returned? && pc.c.a.FromCache?))
    case Waits(_, _) => pc.InEnrich? && (pc.c.LookingUp? || (pc.c.Returned? && pc.c.a.FromCache?))
    case Saving(_, _, v) =>
      if v == C.MarkRead(0) then pc.InEnrich? && BeforeMarks(pc.c)
      else if Marks(v) then Marking(pc)
      else if v.Calling? then
        || Marking(pc) || (pc.InEnrich? && (pc.c.Launching? || (pc.c.Calling? && pc.c.keyed)))
        || (pc.InRun? && pc.j.Resolving?)
      else !Storing(v).value.Uncacheable? && StoresLater(pc, Storing(v).value)
    case Done(_, x) => StoresLater(pc, x) || IsOver(pc, x)
  }

  ghost predicate Joined(s: State) {
    && Owners(s.e)
    && (forall t :: t in s.c.threads ==> t in s.e.threads && s.e.threads[t].InEnrich? && Fits(s.c.threads[t], Phase(s.e, t)))
    && (forall t :: t in s.e.threads && Engaged(s.e.threads[t]) ==> t in s.c.threads)
  }

  // A call that has looked up its keys and is not over.
  predicate Engaged(pc: E.Pc) {
    match pc
    case InEnrich(Scheduling(mode, keyed)) => keyed || !mode.Sync?
    case InEnrich(Rechecking(_)) => true
    case InEnrich(Announcing(_)) => true
    case InEnrich(Marking(_)) => true
    case InEnrich(Launching(_)) => true
    case InEnrich(Calling(keyed)) => keyed
    case InEnrich(Noting(_, keyed)) => keyed
    case InEnrich(Storing(_, keyed)) => keyed
    case _ => E.WorkerOf(pc).Some?
  }

  /* ---------- steps of the enricher ---------- */

  // The caller moves alone, and its cache work still fits.
  predicate Kept(s: State, e': E.State, t: Id) {
    && t in s.e.threads && t in e'.threads && e'.threads == s.e.threads[t := e'.threads[t]] && e'.threads[t].InEnrich?
    && E.WorkerOf(e'.threads[t]) == E.WorkerOf(s.e.threads[t])
    && (t in s.c.threads && Fits(s.c.threads[t], s.e.threads[t]) ==> Fits(s.c.threads[t], e'.threads[t]))
    && (Engaged(e'.threads[t]) && !Engaged(s.e.threads[t]) ==> t in s.c.threads)
  }

  lemma FrontKept(s: State, t: Id, pc: E.Caller, c: E.Choice)
    requires t in s.e.threads && s.e.threads[t] == E.InEnrich(pc) && E.Front(pc) && Ready(s, E.Move(t, c))
    ensures Kept(s, E.FrontStep(s.e, t, pc, c), t)
  {
    if pc.Assessing? { AssessKept(s, t, pc.req, c); }
  }

  lemma AssessKept(s: State, t: Id, req: E.Request, c: E.Choice)
    requires t in s.e.threads && s.e.threads[t] == E.InEnrich(E.Assessing(req))
    ensures Kept(s, E.FrontStep(s.e, t, E.Assessing(req), c), t)
  {
    var v := E.Assess(s.e.cap, s.e.hasCache, req);
    assert v.Go? && !v.mode.Sync? ==> v.keyed;
  }

  lemma OwnKept(s: State, t: Id, pc: E.Caller, c: E.Choice)
    requires t in s.e.threads && s.e.threads[t] == E.InEnrich(pc) && E.OwnCall(pc) && Ready(s, E.Move(t, c))
    ensures Kept(s, E.SyncStep(s.e, t, pc, c), t)
  {
  }

  lemma PoolKept(s: State, t: Id, pc: E.Caller, c: E.Choice)
    requires t in s.e.threads && s.e.threads[t] == E.InEnrich(pc) && E.AtPool(pc) && Ready(s, E.Move(t, c))
    requires E.CanMove(s.e, t, E.InEnrich(pc), c)
    ensures Kept(s, E.AdmissionStep(s.e, t, pc, c), t)
  {
    if pc.Scheduling? { ScheduleKept(s, t, pc.mode, pc.keyed, c); }
  }

  lemma ScheduleKept(s: State, t: Id, mode: E.Mode, keyed: bool, c: E.Choice)
    requires t in s.e.threads && s.e.threads[t] == E.InEnrich(E.Scheduling(mode, keyed)) && Ready(s, E.Move(t, c))
    ensures Kept(s, E.AdmissionStep(s.e, t, E.Scheduling(mode, keyed), c), t)
  {
  }

  lemma BackKept(s: State, t: Id, pc: E.Caller, c: E.Choice)
    requires t in s.e.threads && s.e.threads[t] == E.InEnrich(pc) && Ready(s, E.Move(t, c))
    requires E.CanMove(s.e, t, E.InEnrich(pc), c)
    requires !E.Front(pc) && !E.OwnCall(pc) && !E.AtPool(pc) && !pc.Launching?
    ensures Kept(s, E.BackStep(s.e, t, pc, c), t)
  {
    if pc.Waiting? || pc.LastLook? { WaitKept(s, t, pc, c); }
  }

  // A caller that has its worker has no cache work of its own left.
  lemma Handed(s: State, e': E.State, t: Id, w: Id, pc: E.Caller)
    requires t in s.e.threads && E.WorkerOf(s.e.threads[t]) == E.WorkerOf(E.InEnrich(pc)) == Some(w)
    requires e'.threads == s.e.threads[t := E.InEnrich(pc)]
    ensures Kept(s, e', t)
  {
  }

  lemma WaitKept(s: State, t: Id, pc: E.Caller, c: E.Choice)
    requires t in s.e.threads && s.e.threads[t] == E.InEnrich(pc) && E.CanMove(s.e, t, E.InEnrich(pc), c)
    requires pc.Waiting? || pc.LastLook?
    ensures Kept(s, E.BackStep(s.e, t, pc, c), t)
  {
    if (pc.Waiting? && c.ok) || (pc.LastLook? && t in s.e.chans && s.e.chans[t] != []) {
      Handed(s, E.BackStep(s.e, t, pc, c), t, pc.w, E.Returned(E.FromWorker(pc.w, s.e.chans[t][0])));
    } else {
      Handed(s, E.BackStep(s.e, t, pc, c), t, pc.w, if pc.Waiting? then E.LastLook(pc.w) else E.Expiring(pc.w));
    }
  }

  lemma CallerKept(s: State, t: Id, pc: E.Caller, c: E.Choice)
    requires t in s.e.threads && s.e.threads[t] == E.InEnrich(pc) && Ready(s, E.Move(t, c)) && !pc.Launching?
    requires E.CanMove(s.e, t, E.InEnrich(pc), c)
    ensures Kept(s, E.CallerStep(s.e, t, pc, c), t)
  {
    if E.Front(pc) { FrontKept(s, t, pc, c); }
    else if E.OwnCall(pc) { OwnKept(s, t, pc, c); }
    else if E.AtPool(pc) { PoolKept(s, t, pc, c); }
    else { BackKept(s, t, pc, c); }
  }

  // A caller moves, and not to launch.
  lemma KeptJoined(s: State, e': E.State, t: Id)
    requires Joined(s) && Kept(s, e', t) && s.e.threads[t].InEnrich?
    ensures Joined(s.(e := e'))
  {
    forall u | u in s.c.threads ensures Fits(s.c.threads[u], Phase(e', u)) {
      assert Fits(s.c.threads[u], Phase(s.e, u));
      assert E.WorkerOf(s.e.threads[u]).Some? ==> Employed(s.e, E.WorkerOf(s.e.threads[u]).value);
    }
    forall u, v | CarriedAlike(e', u, v) ensures u == v { assert CarriedAlike(s.e, u, v); }
    forall u | u in e'.threads && E.WorkerOf(e'.threads[u]).Some? ensures Employed(e', E.WorkerOf(e'.threads[u]).value) {
      assert Employed(s.e, E.WorkerOf(s.e.threads[u]).value);
    }
  }

  lemma LaunchShape(e: E.State, t: Id, mode: E.Mode, c: E.Choice)
    requires t in e.threads && e.threads[t] == E.InEnrich(E.Launching(mode)) && c.spawn !in e.threads
    ensures var e' := E.BackStep(e, t, E.Launching(mode), c);
      && Hires(e, e', t, c.spawn) && e'.threads[c.spawn].j.Resolving?
  {
  }

  // The caller `t` is given the new worker `w`.
  predicate Hires(e: E.State, e': E.State, t: Id, w: Id) {
    && t in e.threads && w !in e.threads && t in e'.threads && w in e'.threads
    && e'.threads == e.threads[t := e'.threads[t]][w := e'.threads[w]]
    && e.threads[t].InEnrich? && e'.threads[t].InEnrich? && E.WorkerOf(e'.threads[t]) == Some(w) && e'.threads[w].InRun?
  }

  lemma LaunchOwners(e: E.State, e': E.State, t: Id, w: Id)
    requires Owners(e) && Hires(e, e', t, w)
    ensures Owners(e')
  {
    forall u | u in e'.threads && E.WorkerOf(e'.threads[u]).Some? ensures Employed(e', E.WorkerOf(e'.threads[u]).value) {
      if u != t { assert u in e.threads && Employed(e, E.WorkerOf(e.threads[u]).value); }
    }
    forall u, v | CarriedAlike(e', u, v) ensures u == v {
      if u != t && v != t { assert CarriedAlike(e, u, v); }
      if u != t { assert Employed(e, E.WorkerOf(e.threads[u]).value); }
      if v != t { assert Employed(e, E.WorkerOf(e.threads[v]).value); }
    }
  }

  lemma LaunchJoined(s: State, t: Id, mode: E.Mode, c: E.Choice)
    requires Joined(s) && t in s.e.threads && s.e.threads[t] == E.InEnrich(E.Launching(mode)) && c.spawn !in s.e.threads
    ensures Joined(s.(e := E.BackStep(s.e, t, E.Launching(mode), c)))
  {
    var e' := E.BackStep(s.e, t, E.Launching(mode), c);
    LaunchShape(s.e, t, mode, c);
    LaunchOwners(s.e, e', t, c.spawn);
    forall u | u in s.c.threads ensures Fits(s.c.threads[u], Phase(e', u)) {
      assert Fits(s.c.threads[u], Phase(s.e, u));
      if u != t && E.WorkerOf(s.e.threads[u]).Some? { assert Employed(s.e, E.WorkerOf(s.e.threads[u]).value); }
    }
  }

  // A worker moves, and the cache work of its call still fits.
  lemma JobFits(s: State, w: Id, pc: E.Worker, c: E.Choice, cp: C.Pc)
    requires w in s.e.threads && s.e.threads[w] == E.InRun(pc) && E.CanMove(s.e, w, E.InRun(pc), c)
    requires Fits(cp, E.InRun(pc)) && !pc.Resolving? && (pc.Writing? ==> cp.Done?)
    ensures Fits(cp, E.JobStep(s.e, w, pc, c).threads[w])
  {
  }

  lemma JobShape(e: E.State, w: Id, pc: E.Worker, c: E.Choice)
    requires w in e.threads && e.threads[w] == E.InRun(pc) && E.CanMove(e, w, E.InRun(pc), c)
    ensures var e' := E.JobStep(e, w, pc, c);
      w in e'.threads && e'.threads == e.threads[w := e'.threads[w]] && e'.threads[w].InRun?
  {
  }

  lemma JobJoined(s: State, w: Id, pc: E.Worker, c: E.Choice)
    requires Joined(s) && w in s.e.threads && s.e.threads[w] == E.InRun(pc)
    requires E.CanMove(s.e, w, E.InRun(pc), c) && Ready(s, E.Move(w, c))
    ensures Joined(s.(e := E.JobStep(s.e, w, pc, c)))
  {
    var e' := E.JobStep(s.e, w, pc, c);
    JobShape(s.e, w, pc, c);
    forall u | u in s.c.threads ensures Fits(s.c.threads[u], Phase(e', u)) {
      assert Fits(s.c.threads[u], Phase(s.e, u));
      if CarriedBy(s.e, u, w) { JobFits(s, w, pc, c, s.c.threads[u]); }
      assert u != w;
    }
    SameOwners(s.e, e', w);
  }

  lemma SameOwners(e: E.State, e': E.State, w: Id)
    requires Owners(e) && w in e.threads && w in e'.threads && e'.threads == e.threads[w := e'.threads[w]]
    requires e.threads[w].InRun? && e'.threads[w].InRun?
    ensures Owners(e')
  {
    forall u, v | CarriedAlike(e', u, v) ensures u == v { assert CarriedAlike(e, u, v); }
    forall u | u in e'.threads && E.WorkerOf(e'.threads[u]).Some? ensures Employed(e', E.WorkerOf(e'.threads[u]).value) {
      assert Employed(e, E.WorkerOf(e.threads[u]).value);
    }
  }

  // New calls, and all that Shutdown does.
  predicate Apart(e: E.State, e': E.State) {
    && (forall t :: t in e.threads ==>
          && t in e'.threads
          && (e'.threads[t] == e.threads[t] || (e.threads[t].InShutdown? && e'.threads[t].InShutdown?)))
    && (forall t :: t in e'.threads && t !in e.threads ==> Fresh(e'.threads[t]))
  }

  predicate Fresh(pc: E.Pc) { pc.InShutdown? || (pc.InEnrich? && pc.c.Entering?) }

  lemma ApartJoined(s: State, e': E.State)
    requires Joined(s) && Apart(s.e, e')
    ensures Joined(s.(e := e'))
  {
    forall u | u in s.c.threads ensures Fits(s.c.threads[u], Phase(e', u)) {
      assert Fits(s.c.threads[u], Phase(s.e, u));
      if E.WorkerOf(s.e.threads[u]).Some? { assert Employed(s.e, E.WorkerOf(s.e.threads[u]).value); }
    }
    forall u, v | CarriedAlike(e', u, v) ensures u == v { assert CarriedAlike(s.e, u, v); }
    forall u | u in e'.threads && E.WorkerOf(e'.threads[u]).Some? ensures Employed(e', E.WorkerOf(e'.threads[u]).value) {
      assert Employed(s.e, E.WorkerOf(s.e.threads[u]).value);
    }
  }

  lemma ShutdownApart(e: E.State, t: Id, pc: E.Stopper, c: E.Choice)
    requires t in e.threads && e.threads[t] == E.InShutdown(pc) && E.CanMove(e, t, E.InShutdown(pc), c)
    ensures Apart(e, E.ShutdownStep(e, t, pc, c))
  {
  }

  lemma EnricherJoined(s: State, a: E.Step)
    requires Joined(s) && E.Enabled(s.e, a) && Ready(s, a)
    ensures Joined(s.(e := E.Apply(s.e, a)))
  {
    match a
    case Call(_, _) => ApartJoined(s, E.Apply(s.e, a));
    case CallShutdown(_) => ApartJoined(s, E.Apply(s.e, a));
    case Move(t, c) =>
      match s.e.threads[t]
      case InEnrich(pc) =>
        if pc.Launching? {
          LaunchJoined(s, t, pc.mode, c);
        } else {
          CallerKept(s, t, pc, c);
          KeptJoined(s, E.CallerStep(s.e, t, pc, c), t);
        }
      case InRun(pc) => JobJoined(s, t, pc, c);
      case InShutdown(pc) =>
        ShutdownApart(s.e, t, pc, c);
        ApartJoined(s, E.ShutdownStep(s.e, t, pc, c));
  }

  /* ---------- steps on the layers, and the API call ---------- */

  lemma CacheFits(cfg: C.Config, s: State, t: Id, c: C.Choice)
    requires Joined(s) && C.Enabled(cfg, s.c, C.Move(t, c)) && InTime(s, C.Move(t, c))
    ensures var c' := C.Apply(cfg, s.c, C.Move(t, c));
      t in c'.threads && c'.threads == s.c.threads[t := c'.threads[t]] && Fits(c'.threads[t], Phase(s.e, t))
  {
    assert Fits(s.c.threads[t], Phase(s.e, t));
    match s.c.threads[t]
    case Looking(_, _, _) =>
    case Filling(_, _) =>
    case Saving(keys, timeout, v) => SaveFits(cfg, s, t, keys, timeout, v, c);
  }

  lemma SaveFits(cfg: C.Config, s: State, t: Id, keys: C.Keys, timeout: int, v: C.Saver, c: C.Choice)
    requires t in s.e.threads && Fits(C.Saving(keys, timeout, v), Phase(s.e, t)) && !v.Calling?
    requires if Marks(v) then Marking(Phase(s.e, t)) else Writing(Phase(s.e, t))
    ensures var c' := C.SaveStep(cfg, s.c, t, keys, timeout, v, c);
      c'.threads == s.c.threads[t := c'.threads[t]] && Fits(c'.threads[t], Phase(s.e, t))
  {
  }

  lemma CacheJoined(cfg: C.Config, s: State, x: C.Step)
    requires Joined(s) && C.Enabled(cfg, s.c, x) && InTime(s, x)
    ensures Joined(s.(c := C.Apply(cfg, s.c, x)))
  {
    if x.Move? { CacheFits(cfg, s, x.t, x.c); }
  }

  // The API call takes the enricher and the call's cache work on together.
  lemma BothFits(cfg: C.Config, s: State, u: Id, t: Id, ec: E.Choice, cc: C.Choice)
    requires Joined(s) && Enabled(cfg, s, OfBoth(u, t, ec, cc))
    ensures var s' := Apply(cfg, s, OfBoth(u, t, ec, cc));
      && u in s'.e.threads && s'.e.threads == s.e.threads[u := s'.e.threads[u]]
      && s'.e.threads[u].InRun? == s.e.threads[u].InRun? && s'.e.threads[u].InEnrich? == s.e.threads[u].InEnrich?
      && E.WorkerOf(s'.e.threads[u]) == E.WorkerOf(s.e.threads[u]) == None
      && t in s'.c.threads && s'.c.threads == s.c.threads[t := s'.c.threads[t]]
      && Fits(s'.c.threads[t], s'.e.threads[u]) && (Engaged(s'.e.threads[u]) ==> u == t)
  {
    assert Agrees(OutcomeOf(cc.api), Classify(cc.api));
  }

  lemma BothJoined(cfg: C.Config, s: State, u: Id, t: Id, ec: E.Choice, cc: C.Choice)
    requires Joined(s) && Enabled(cfg, s, OfBoth(u, t, ec, cc))
    ensures Joined(Apply(cfg, s, OfBoth(u, t, ec, cc)))
  {
    var s' := Apply(cfg, s, OfBoth(u, t, ec, cc));
    BothFits(cfg, s, u, t, ec, cc);
    forall v, w | CarriedAlike(s'.e, v, w) ensures v == w { assert CarriedAlike(s.e, v, w); }
    forall v | v in s'.e.threads && E.WorkerOf(s'.e.threads[v]).Some?
      ensures Employed(s'.e, E.WorkerOf(s'.e.threads[v]).value)
    {
      assert Employed(s.e, E.WorkerOf(s.e.threads[v]).value);
    }
    forall v | v in s'.c.threads ensures Fits(s'.c.threads[v], Phase(s'.e, v)) {
      assert Fits(s.c.threads[v], Phase(s.e, v));
      if v != t {
        assert !CarriedAlike(s.e, v, t);
      }
    }
  }

  /** Every step keeps the two models joined. */
  lemma StepJoined(cfg: C.Config, s: State, a: Step)
    requires Joined(s) && Enabled(cfg, s, a)
    ensures Joined(Apply(cfg, s, a))
  {
    match a
    case OfEnricher(b) => EnricherJoined(s, b);
    case OfCache(x) => CacheJoined(cfg, s, x);
    case OfBoth(u, t, ec, cc) => BothJoined(cfg, s, u, t, ec, cc);
  }

  /* ---------- every run ---------- */

  ghost predicate Reachable(cfg: C.Config, cap: nat, s: State) {
    exists run :: Legal(cfg, Init(cap), run) && Run(cfg, Init(cap), run) == s
  }

  ghost predicate Inv(cfg: C.Config, cap: nat, s: State) {
    Joined(s) && T.Reachable(cap, true, s.e) && CT.Reachable(cfg, s.c)
  }

  lemma InitInv(cfg: C.Config, cap: nat)
    ensures Inv(cfg, cap, Init(cap))
  {
    assert E.Legal(E.Init(cap, true), []) && E.Run(E.Init(cap, true), []) == E.Init(cap, true);
    assert C.Legal(cfg, C.Init, []) && C.Run(cfg, C.Init, []) == C.Init;
  }

  lemma StepInv(cfg: C.Config, cap: nat, s: State, a: Step)
    requires Inv(cfg, cap, s) && Enabled(cfg, s, a)
    ensures Inv(cfg, cap, Apply(cfg, s, a))
  {
    StepJoined(cfg, s, a);
    match a
    case OfEnricher(b) => T.ReachableStep(cap, true, s.e, b);
    case OfCache(x) => CT.Extend(cfg, s.c, x);
    case OfBoth(u, t, ec, cc) =>
      T.ReachableStep(cap, true, s.e, E.Move(u, ec));
      CT.Extend(cfg, s.c, C.Move(t, cc));
  }

  lemma {:induction false} RunInv(cfg: C.Config, cap: nat, s: State, run: seq<Step>)
    requires Inv(cfg, cap, s) && Legal(cfg, s, run)
    ensures Inv(cfg, cap, Run(cfg, s, run)) && Run(cfg, s, run).e.closes >= s.e.closes
    decreases |run|
  {
    if run != [] {
      StepInv(cfg, cap, s, run[0]);
      match run[0] {
        case OfEnricher(b) => T.ClosesStay(s.e, b);
        case OfCache(_) =>
        case OfBoth(u, _, ec, _) => T.ClosesStay(s.e, E.Move(u, ec));
      }
      RunInv(cfg, cap, Apply(cfg, s, run[0]), run[1..]);
    }
  }

  /** What holds of every reachable state of either model holds of its part here. */
  lemma ReachableInv(cfg: C.Config, cap: nat, s: State)
    requires Reachable(cfg, cap, s)
    ensures T.Reachable(cap, true, s.e) && CT.Reachable(cfg, s.c) && Joined(s)
  {
    var run :| Legal(cfg, Init(cap), run) && Run(cfg, Init(cap), run) == s;
    InitInv(cfg, cap);
    RunInv(cfg, cap, Init(cap), run);
  }

  // A synchronous call between its lookup and its answer.
  predicate SyncRunning(pc: E.Pc) {
    pc.InEnrich? && ((pc.c.Scheduling? && pc.c.mode.Sync?) || pc.c.Calling? || pc.c.Noting? || pc.c.Storing?)
  }

  /** No background call has cache work left: each one's last write is made, of
      the very response that its worker resolved, and whatever thread still marks
      or stores is a synchronous call. */
  ghost predicate Settled(s: State) {
    && (forall t :: t in s.e.threads && E.WorkerOf(s.e.threads[t]).Some? ==> Over(s, t))
    && (forall t :: t in s.c.threads && s.c.threads[t].Saving? && s.c.threads[t].v != C.MarkRead(0) ==>
          t in s.e.threads && SyncRunning(s.e.threads[t]))
  }

  predicate Over(s: State, t: Id)
    requires t in s.e.threads && E.WorkerOf(s.e.threads[t]).Some?
  {
    var w := E.WorkerOf(s.e.threads[t]).value;
    && t in s.c.threads && s.c.threads[t].Done?
    && w in s.e.threads && s.e.threads[w].InRun? && s.e.threads[w].j.Finished?
      && Agrees(s.e.threads[w].j.o, s.c.threads[t].x)
  }

  lemma QuietSettled(s: State)
    requires Joined(s) && T.Quiet(s.e)
    ensures Settled(s)
  {
    forall t | t in s.e.threads && E.WorkerOf(s.e.threads[t]).Some? ensures Over(s, t) {
      assert Employed(s.e, E.WorkerOf(s.e.threads[t]).value);
      assert t in s.c.threads && Fits(s.c.threads[t], Phase(s.e, t));
    }
    forall t | t in s.c.threads && s.c.threads[t].Saving? && s.c.threads[t].v != C.MarkRead(0)
      ensures t in s.e.threads && SyncRunning(s.e.threads[t])
    {
      assert Fits(s.c.threads[t], Phase(s.e, t)) && !T.Holds(s.e.threads[t]);
    }
  }

  /** Drained means settled: once `drained` is closed, and in every continuation,
      no marker and no result is written for a background call any more. */
  lemma DrainedIsSettled(cfg: C.Config, cap: nat, s: State, after: seq<Step>)
    requires Reachable(cfg, cap, s) && s.e.closes > 0 && Legal(cfg, s, after)
    ensures Settled(Run(cfg, s, after)) && T.Quiet(Run(cfg, s, after).e)
  {
    ReachableInv(cfg, cap, s);
    RunInv(cfg, cap, s, after);
    var s' := Run(cfg, s, after);
    T.DrainedIsQuiet(cap, true, s'.e, []);
    QuietSettled(s');
  }

  /* ---------- the drain does not wait in vain ---------- */

  // A step of the call's cache work, or of the thread that carries it.
  predicate Helps(a: Step, t: Id, w: Id) {
    match a
    case OfEnricher(Move(v, _)) => v == w
    case OfCache(Move(v, _)) => v == t
    case OfBoth(v, _, _, _) => v == w
    case _ => false
  }

  /** A worker can always go on: its step is enabled, or it waits for a step of
      its call's cache work, which is. */
  lemma WorkerGoesOn(cfg: C.Config, cap: nat, s: State, t: Id, w: Id, ec: E.Choice, cc: C.Choice) returns (a: Step)
    requires Reachable(cfg, cap, s) && CarriedBy(s.e, t, w)
    requires w in s.e.threads && s.e.threads[w].InRun? ==> !s.e.threads[w].j.Finished?
    ensures Enabled(cfg, s, a) && Helps(a, t, w)
  {
    ReachableInv(cfg, cap, s);
    assert Employed(s.e, w) && Fits(s.c.threads[t], Phase(s.e, t));
    var c := ec.(outcome := OutcomeOf(cc.api));
    T.NeverBlocks(cap, true, s.e, w, c);
    if s.e.threads[w].j.Resolving? {
      a := OfBoth(w, t, c, cc);
    } else if s.e.threads[w].j.Writing? && !s.c.threads[t].Done? {
      a := OfCache(C.Move(t, cc));
    } else {
      a := OfEnricher(E.Move(w, c));
      forall u | CarriedBy(s.e, u, w) ensures u == t { assert CarriedAlike(s.e, u, t); }
    }
  }

  // The steps that wait for a call's cache work before the call has a worker.
  predicate Awaits(pc: E.Pc) {
    Marking(pc) || (pc.InEnrich? && ((pc.c.Calling? && pc.c.keyed) || (pc.c.Storing? && pc.c.keyed)))
  }

  /** So can a caller that marks, or that calls and stores itself. */
  lemma CallerGoesOn(cfg: C.Config, cap: nat, s: State, t: Id, ec: E.Choice, cc: C.Choice) returns (a: Step)
    requires Reachable(cfg, cap, s) && t in s.e.threads && Awaits(s.e.threads[t])
    ensures Enabled(cfg, s, a) && Helps(a, t, t)
  {
    ReachableInv(cfg, cap, s);
    assert Engaged(s.e.threads[t]) && Fits(s.c.threads[t], s.e.threads[t]);
    if s.e.threads[t].c.Calling? {
      a := OfBoth(t, t, ec.(outcome := OutcomeOf(cc.api)), cc);
    } else if s.c.threads[t].Done? || Marked(s.c, t) {
      a := OfEnricher(E.Move(t, ec));
    } else {
      a := OfCache(C.Move(t, cc));
    }
  }
}
