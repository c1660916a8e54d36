/** The enricher itself, in the form of its source: every method runs as one
    thread of `EnricherProtocol`, and between any two of its atomic operations
    the other threads may take any steps they like. `trace` is the run so far.
    An atomic operation adds one step of its own thread to it, and says what it
    changed; a longer method only adds to it, so that by `WentOn` its end state is
    the end of a legal run from the state it began in. Whatever holds of every
    reachable protocol state holds at every moment of every interleaving. */
module EnricherModule {
  import opened Counting
  import opened Wrappers
  import opened LimiterModule
  import opened P = EnricherProtocol
  import opened T = EnricherTheorems
  import A = Admission

  // What Enrich returns.
  datatype Result =
    | ShutOut | Rejected | Cached(l: Lookup) | Own(o: Outcome) | AtLimit | Expired | Handed(o: Outcome)

  // How a call that is let in is answered: refused, from the cache, by its own
  // call, or in the background, where only a positive wait gets a result.
  predicate Replies(cap: nat, hasCache: bool, q: Request, lookup: Lookup, outcome: Outcome, r: Result) {
    && (r.Rejected? <==> Refusable(cap, hasCache, q))
    && (r.Cached? <==> !Refusable(cap, hasCache, q) && Keyed(hasCache, q) && !lookup.Miss?) && (r.Cached? ==> r.l == lookup)
    && (r.Own? <==> !r.Rejected? && !r.Cached? && Patient(q)) && (r.Own? ==> r.o == outcome)
    && (r.Handed? ==> q.wait.Some? && q.wait.value > 0)
  }

  // Left to the background: neither refused, nor answered by the cache, nor patient.
  predicate InBackground(cap: nat, hasCache: bool, q: Request, lookup: Lookup) {
    !Refusable(cap, hasCache, q) && !Patient(q) && lookup.Miss?
  }

  predicate Matches(r: Result, a: Answer) {
    match r
    case ShutOut => a.ShuttingDown?
    case Rejected => a.Refusal?
    case Cached(l) => a == FromCache(l)
    case Own(o) => a.Resolved? && a.o == o
    case AtLimit => a.BackgroundLimit?
    case Expired => a.WaitExpired?
    case Handed(o) => a.FromWorker? && a.o == o
  }

  class Enricher {
    const limiter: Limiter
    const hasCache: bool
    var closing: bool
    var once: bool
    var closes: nat
    var m: Metrics
    var chans: map<Id, seq<Outcome>>
    ghost var stores: multiset<Id>   // the results written to the cache, by thread
    ghost var threads: map<Id, Pc>   // where every thread stands
    ghost var trace: seq<Step>       // every step taken so far, by whatever thread

    ghost function View(): State
      reads this, limiter
    {
      State(limiter.capacity, hasCache, limiter.length, closing, once, closes, threads, chans, stores, m)
    }

    ghost predicate Valid()
      reads this, limiter
    {
      limiter.Valid() && Ran(limiter.capacity, hasCache, trace, View())
    }

    ghost predicate At(t: Id, pc: Caller)
      reads this, limiter
    {
      Valid() && t in threads && threads[t] == InEnrich(pc)
    }

    ghost predicate Answered(t: Id, r: Result)
      reads this, limiter
    {
      Valid() && t in threads && threads[t].InEnrich? && threads[t].c.Returned? && Matches(r, threads[t].c.a)
    }

    constructor (maximum: int, hasCache: bool)
      ensures Valid() && fresh(limiter) && threads == map[] && !closing && this.hasCache == hasCache
      ensures limiter.capacity == if maximum <= 0 then 0 else maximum
    {
      limiter := new Limiter(maximum);
      this.hasCache := hasCache;
      closing, once, closes := false, false, 0;
      m := Metrics(0, 0, 0, 0, 0, 0, 0, 0);
      threads, chans, stores, trace := map[], map[], multiset{}, [];
      new;
      assert View() == Init(limiter.capacity, hasCache);
    }

    /** Other threads run: any number of protocol steps, none of them ours.
        The body takes none; callers know only what every choice guarantees. */
    method Interference(t: Id)
      requires Valid() && t in threads
      modifies this, limiter
      ensures Valid() && t in threads && threads[t] == old(threads[t]) && OthersOnly(old(trace), trace, t)
      ensures old(threads).Keys <= threads.Keys && old(closes) <= closes && (old(closing) ==> closing)
    {
    }

    // The thread has taken one step, to `pc`, and no other thread any.
    twostate predicate Moved(t: Id, pc: Pc)
      reads this, limiter
    {
      Valid() && OneStep(old(trace), trace, t) && threads == old(threads)[t := pc]
    }

    /* ---------- Enrich ---------- */

    /** One call, from the first look at `closing` to its answer. `lookup` and
        `outcome` are what the cache and the API answer this thread, and
        `early` says that a completion arrives before the wait timer fires. */
    method Enrich(t: Id, req: Request, lookup: Lookup, outcome: Outcome, early: bool) returns (r: Result)
      requires Valid() && t !in threads
      modifies this, limiter
      ensures Answered(t, r) && old(trace) <= trace
      ensures |old(trace)| < |trace| && trace[|old(trace)|] == Call(t, req)
      ensures if old(closing) then r == ShutOut else Replies(limiter.capacity, hasCache, req, lookup, outcome, r)
      ensures !old(closing) && InBackground(limiter.capacity, hasCache, req, lookup) ==>
                Decided(limiter.capacity, hasCache, trace, |old(trace)|, t, r)
      ensures r.Expired? || r.Handed? ==>
        && req.wait.Some?
        && HiredSince(limiter.capacity, hasCache, trace, |old(trace)|, old(threads).Keys, t, req.wait.value > 0)
    {
      Enter(t, req);
      var shut := Begin(t, req);
      if shut { return ShutOut; }
      Interference(t);
      r := Attempt(t, req, lookup, outcome, early);
    }

    // A call that was let in: the request checks, the cache, the wait mode.
    method Attempt(t: Id, req: Request, lookup: Lookup, outcome: Outcome, early: bool) returns (r: Result)
      requires At(t, Counting(req))
      modifies this, limiter
      ensures Answered(t, r) && old(trace) <= trace
      ensures Replies(limiter.capacity, hasCache, req, lookup, outcome, r)
      ensures InBackground(limiter.capacity, hasCache, req, lookup) ==>
                Decided(limiter.capacity, hasCache, trace, |old(trace)|, t, r)
      ensures r.Expired? || r.Handed? ==>
        && req.wait.Some?
        && HiredSince(limiter.capacity, hasCache, trace, |old(trace)|, old(threads).Keys, t, req.wait.value > 0)
    {
      var verdict := Assessed(t, req);
      if !verdict.Go? { return Rejected; }
      Interference(t);
      r := Serve(t, verdict.mode, verdict.keyed, lookup, outcome, early);
    }

    // The request is in order: the cache answers it, or it is scheduled.
    method Serve(t: Id, mode: Mode, keyed: bool, lookup: Lookup, outcome: Outcome, early: bool) returns (r: Result)
      requires At(t, if keyed then LookingUp(mode) else Scheduling(mode, false))
      modifies this, limiter
      ensures Answered(t, r) && old(trace) <= trace && !r.Rejected?
      ensures (r.Cached? <==> keyed && !lookup.Miss?) && (r.Cached? ==> r.l == lookup)
      ensures (r.Own? <==> !r.Cached? && mode.Sync?) && (r.Own? ==> r.o == outcome) && (r.Handed? ==> mode.Hybrid?)
      ensures !r.Cached? && !mode.Sync? ==> Decided(limiter.capacity, hasCache, trace, |old(trace)|, t, r)
      ensures r.Expired? || r.Handed? ==>
        HiredSince(limiter.capacity, hasCache, trace, |old(trace)|, old(threads).Keys, t, mode.Hybrid?)
    {
      if keyed {
        var found := LookupCache(t, mode, lookup);
        if found { return Cached(lookup); }
        Interference(t);
      }
      r := Schedule(t, mode, keyed, outcome, early);
    }

    ghost method Enter(t: Id, req: Request)
      requires Valid() && t !in threads
      modifies this`threads, this`trace
      ensures Valid() && threads == old(threads)[t := InEnrich(Entering(req))] && trace == old(trace) + [Call(t, req)]
    {
      var s := View();
      threads := threads[t := InEnrich(Entering(req))];
      Took(trace, s, Call(t, req), View());
      trace := trace + [Call(t, req)];
    }

    // The first look at `closing`.
    method Begin(t: Id, req: Request) returns (shut: bool)
      requires At(t, Entering(req))
      modifies this`threads, this`trace
      ensures shut == closing && Moved(t, InEnrich(if shut then Returned(ShuttingDown) else Counting(req)))
    {
      ghost var s, c := Proceed(trace, View(), t);
      shut := closing;
      threads := Apply(s, Move(t, c)).threads;
      Took(trace, s, Move(t, c), View());
      trace := trace + [Move(t, c)];
    }

    method Assessed(t: Id, req: Request) returns (v: Verdict)
      requires At(t, Counting(req))
      modifies this, limiter
      ensures v.NoEndpoint? <==> !req.endpoint
      ensures v.Go? <==> !Refusable(limiter.capacity, hasCache, req)
      ensures v.Go? ==>
        && (v.mode.Sync? <==> Patient(req)) && (v.mode.Async? <==> req.wait == Some(0))
        && (v.mode.Hybrid? <==> req.wait.Some? && 0 < req.wait.value < req.timeout)
        && (v.keyed <==> Keyed(hasCache, req))
      ensures old(trace) <= trace && old(threads).Keys <= threads.Keys
      ensures At(t, if !v.Go? then Returned(Refusal(!req.endpoint)) else if v.keyed then LookingUp(v.mode) else Scheduling(v.mode, false))
    {
      CountRequest(t, req);
      Interference(t);
      v := Plan(t, req);
    }

    method CountRequest(t: Id, req: Request)
      requires At(t, Counting(req))
      modifies this`m, this`threads, this`trace
      ensures Moved(t, InEnrich(Assessing(req))) && m == old(m).(requests := old(m).requests + 1)
    {
      ghost var s, c := Proceed(trace, View(), t);
      m := m.(requests := m.requests + 1);
      threads := Apply(s, Move(t, c)).threads;
      Took(trace, s, Move(t, c), View());
      trace := trace + [Move(t, c)];
    }

    // The request checks, each with its metric or without one.
    method Plan(t: Id, req: Request) returns (v: Verdict)
      requires At(t, Assessing(req))
      modifies this`m, this`threads, this`trace
      ensures v.NoEndpoint? <==> !req.endpoint
      ensures v.Go? <==> !Refusable(limiter.capacity, hasCache, req)
      ensures v.Go? ==>
        && (v.mode.Sync? <==> Patient(req)) && (v.mode.Async? <==> req.wait == Some(0))
        && (v.mode.Hybrid? <==> req.wait.Some? && 0 < req.wait.value < req.timeout)
        && (v.keyed <==> Keyed(hasCache, req))
      ensures Moved(t, InEnrich(if !v.Go? then Returned(Refusal(!req.endpoint)) else if v.keyed then LookingUp(v.mode) else Scheduling(v.mode, false)))
      ensures m == if v.NoEndpoint? then old(m).(notEnriched := old(m).notEnriched + 1)
                   else if v.Invalid? then old(m).(silent := old(m).silent + 1) else old(m)
    {
      ghost var s, c := Proceed(trace, View(), t);
      v := Assess(limiter.capacity, hasCache, req);
      AssessExactly(limiter.capacity, hasCache, req);
      if v.NoEndpoint? {
        m := m.(notEnriched := m.notEnriched + 1);
      } else if v.Invalid? {
        m := m.(silent := m.silent + 1);
      }
      threads := Apply(s, Move(t, c)).threads;
      Took(trace, s, Move(t, c), View());
      trace := trace + [Move(t, c)];
    }

    method LookupCache(t: Id, mode: Mode, lookup: Lookup) returns (found: bool)
      requires At(t, LookingUp(mode))
      modifies this`m, this`threads, this`trace
      ensures found == !lookup.Miss? && Moved(t, InEnrich(if found then Returned(FromCache(lookup)) else Scheduling(mode, true)))
      ensures m == if lookup.Hit? then old(m).(enriched := old(m).enriched + 1)
                   else if found then old(m).(notEnriched := old(m).notEnriched + 1) else old(m)
    {
      ghost var s, c := Proceed(trace, View(), t);
      c := c.(lookup := lookup);
      found := !lookup.Miss?;
      if lookup.Hit? {
        m := m.(enriched := m.enriched + 1);
      } else if found {
        m := m.(notEnriched := m.notEnriched + 1);
      }
      threads := Apply(s, Move(t, c)).threads;
      Took(trace, s, Move(t, c), View());
      trace := trace + [Move(t, c)];
    }

    /* ---------- schedule ---------- */

    method Schedule(t: Id, mode: Mode, keyed: bool, outcome: Outcome, early: bool) returns (r: Result)
      requires At(t, Scheduling(mode, keyed))
      modifies this, limiter
      ensures Answered(t, r) && old(trace) <= trace
      ensures if mode.Sync? then r == Own(outcome) else r.ShutOut? || r.AtLimit? || r.Expired? || r.Handed?
      ensures r.Handed? ==> mode.Hybrid?
      ensures !mode.Sync? ==> Decided(limiter.capacity, hasCache, trace, |old(trace)|, t, r)
      ensures r.Expired? || r.Handed? ==>
        HiredSince(limiter.capacity, hasCache, trace, |old(trace)|, old(threads).Keys, t, mode.Hybrid?)
    {
      if mode.Sync? {
        r := RunBounded(t, keyed, outcome);
        return;
      }
      var acquired := Acquire(t, mode, keyed);
      ghost var tried := trace;
      Interference(t);
      if acquired {
        r := Admit(t, mode, early);
      } else {
        ghost var looked := trace;
        r := Refuse(t);
        assert Relooked(limiter.capacity, hasCache, trace, |looked|, t, r.ShutOut?);
      }
      Persist(limiter.capacity, hasCache, tried, trace, |old(trace)|, t);
    }

    // The permit is in hand: the second look at `closing` before the goroutine.
    method Admit(t: Id, mode: Mode, early: bool) returns (r: Result)
      requires At(t, Rechecking(mode)) && !mode.Sync?
      modifies this, limiter
      ensures Answered(t, r) && old(trace) <= trace && (r.ShutOut? || r.Expired? || r.Handed?)
      ensures (r.Handed? ==> mode.Hybrid?) && (r.ShutOut? <==> old(closing))
      ensures Relooked(limiter.capacity, hasCache, trace, |old(trace)|, t, r.ShutOut?)
      ensures r.Expired? || r.Handed? ==>
        HiredSince(limiter.capacity, hasCache, trace, |old(trace)|, old(threads).Keys, t, mode.Hybrid?)
    {
      var shut := Recheck(t, mode);
      ghost var looked := trace;
      Interference(t);
      if shut {
        Withdraw(t);
        r := ShutOut;
      } else {
        r := Background(t, mode, early);
      }
      Persist(limiter.capacity, hasCache, looked, trace, |old(trace)|, t);
    }

    method Acquire(t: Id, mode: Mode, keyed: bool) returns (ok: bool)
      requires At(t, Scheduling(mode, keyed)) && !mode.Sync?
      modifies this`threads, this`trace, limiter
      ensures ok == (old(limiter.length) < limiter.capacity)
      ensures limiter.length == if ok then old(limiter.length) + 1 else old(limiter.length)
      ensures Moved(t, InEnrich(if ok then Rechecking(mode) else
        Refused(A.JobsHold(Abs(old(View()))), A.DrainHolds(Abs(old(View()))))))
      ensures Tried(limiter.capacity, hasCache, trace, |old(trace)|, t, !ok)
    {
      ghost var s, c := Proceed(trace, View(), t);
      ok := limiter.TryAcquire();
      threads := Apply(s, Move(t, c)).threads;
      Took(trace, s, Move(t, c), View());
      trace := trace + [Move(t, c)];
    }

    // The second look at `closing`, with the permit in hand.
    method Recheck(t: Id, mode: Mode) returns (shut: bool)
      requires At(t, Rechecking(mode))
      modifies this`threads, this`trace
      ensures shut == closing && Moved(t, InEnrich(if shut then Withdrawing else Announcing(mode)))
      ensures Relooked(limiter.capacity, hasCache, trace, |old(trace)|, t, shut)
    {
      ghost var s, c := Proceed(trace, View(), t);
      shut := closing;
      threads := Apply(s, Move(t, c)).threads;
      Took(trace, s, Move(t, c), View());
      trace := trace + [Move(t, c)];
    }

    method Refuse(t: Id) returns (r: Result)
      requires Valid() && t in threads && threads[t].InEnrich? && threads[t].c.Refused?
      modifies this`m, this`threads, this`trace
      ensures r == if closing then ShutOut else AtLimit
      ensures Relooked(limiter.capacity, hasCache, trace, |old(trace)|, t, r.ShutOut?)
      ensures var pc := old(threads[t]).c; Moved(t, InEnrich(Returned(if closing then ShuttingDown else BackgroundLimit(pc.jobs, pc.drain))))
      ensures m == if closing then old(m).(silent := old(m).silent + 1) else old(m).(notEnriched := old(m).notEnriched + 1)
    {
      ghost var s, c := Proceed(trace, View(), t);
      if closing {
        r := ShutOut;
        m := m.(silent := m.silent + 1);
      } else {
        r := AtLimit;
        m := m.(notEnriched := m.notEnriched + 1);
      }
      threads := Apply(s, Move(t, c)).threads;
      Took(trace, s, Move(t, c), View());
      trace := trace + [Move(t, c)];
    }

    method Withdraw(t: Id)
      requires At(t, Withdrawing)
      modifies this`m, this`threads, this`trace, limiter
      ensures Moved(t, InEnrich(Returned(ShuttingDown))) && limiter.length == old(limiter.length) - 1
      ensures m == old(m).(silent := old(m).silent + 1)
    {
      ghost var s, c := Proceed(trace, View(), t);
      assert c.(outcome := Found) == c;
      limiter.Release();
      m := m.(silent := m.silent + 1);
      threads := Apply(s, Move(t, c)).threads;
      Took(trace, s, Move(t, c), View());
      trace := trace + [Move(t, c)];
    }

    /* ---------- the synchronous call ---------- */

    // Resolve, then store what is worth caching.
    method RunBounded(t: Id, keyed: bool, outcome: Outcome) returns (r: Result)
      requires At(t, Scheduling(Sync, keyed))
      modifies this, limiter
      ensures r == Own(outcome) && Answered(t, r) && old(trace) <= trace
      ensures stores[t] == if keyed && (outcome.NoIds? || outcome.Found?) then 1 else 0
    {
      MarkOwn(t, keyed);
      Interference(t);
      ResolveOwn(t, keyed, outcome);
      if !outcome.Failed? {
        Interference(t);
        StoreOwn(t, keyed, outcome);
      }
      StoredOnce(trace, View(), t);
      return Own(outcome);
    }

    // The in-progress markers; their writes belong to the cache modules.
    method MarkOwn(t: Id, keyed: bool)
      requires At(t, Scheduling(Sync, keyed))
      modifies this`threads, this`trace
      ensures Moved(t, InEnrich(Calling(keyed)))
    {
      ghost var s, c := Proceed(trace, View(), t);
      threads := Apply(s, Move(t, c)).threads;
      Took(trace, s, Move(t, c), View());
      trace := trace + [Move(t, c)];
    }

    method ResolveOwn(t: Id, keyed: bool, outcome: Outcome)
      requires At(t, Calling(keyed))
      modifies this, limiter
      ensures At(t, if outcome.Failed? then Returned(Resolved(outcome, keyed)) else Storing(outcome, keyed))
      ensures old(trace) <= trace
    {
      CallOwn(t, keyed, outcome);
      Interference(t);
      NoteOwn(t, keyed, outcome);
    }

    method CallOwn(t: Id, keyed: bool, outcome: Outcome)
      requires At(t, Calling(keyed))
      modifies this`threads, this`trace
      ensures Moved(t, InEnrich(Noting(outcome, keyed)))
    {
      ghost var s, c := Proceed(trace, View(), t);
      c := c.(outcome := outcome);
      threads := Apply(s, Move(t, c)).threads;
      Took(trace, s, Move(t, c), View());
      trace := trace + [Move(t, c)];
    }

    method NoteOwn(t: Id, keyed: bool, outcome: Outcome)
      requires At(t, Noting(outcome, keyed))
      modifies this`m, this`threads, this`trace
      ensures Moved(t, InEnrich(if outcome.Failed? then Returned(Resolved(outcome, keyed)) else Storing(outcome, keyed)))
      ensures m == match outcome {
        case Failed => old(m).(apiErrors := old(m).apiErrors + 1)
        case Empty => old(m).(notEnriched := old(m).notEnriched + 1)
        case NoIds => old(m).(notEnriched := old(m).notEnriched + 1)
        case Found => old(m).(enriched := old(m).enriched + 1) }
    {
      ghost var s, c := Proceed(trace, View(), t);
      m := Emit(m, outcome);
      threads := Apply(s, Move(t, c)).threads;
      Took(trace, s, Move(t, c), View());
      trace := trace + [Move(t, c)];
    }

    method StoreOwn(t: Id, keyed: bool, outcome: Outcome)
      requires At(t, Storing(outcome, keyed))
      modifies this`stores, this`threads, this`trace
      ensures Moved(t, InEnrich(Returned(Resolved(outcome, keyed))))
      ensures stores == if keyed && (outcome.NoIds? || outcome.Found?) then old(stores) + multiset{t} else old(stores)
    {
      ghost var s, c := Proceed(trace, View(), t);
      if keyed && Cacheable(outcome) { stores := stores + multiset{t}; }
      threads := Apply(s, Move(t, c)).threads;
      Took(trace, s, Move(t, c), View());
      trace := trace + [Move(t, c)];
    }

    /* ---------- the background call, seen from its caller ---------- */

    // The admitted call: its goroutine is started, then its caller waits.
    method Background(t: Id, mode: Mode, early: bool) returns (r: Result)
      requires At(t, Announcing(mode)) && !mode.Sync?
      modifies this, limiter
      ensures Answered(t, r) && old(trace) <= trace && (r.Expired? || r.Handed?) && (mode.Async? ==> r.Expired?)
      ensures HiredSince(limiter.capacity, hasCache, trace, |old(trace)|, old(threads).Keys, t, mode.Hybrid?)
    {
      ghost var w := StartBackground(t, mode);
      ghost var hired, k := trace, |trace| - 1;
      Interference(t);
      if mode.Async? {
        WaitExpire(t, w);
        r := Expired;
      } else {
        r := WaitForResult(t, w, early);
      }
      PersistHired(limiter.capacity, hasCache, hired, trace, k, t, w, mode.Hybrid?);
    }

    // BackgroundStarted, the in-progress markers, the go statement.
    method StartBackground(t: Id, mode: Mode) returns (ghost w: Id)
      requires At(t, Announcing(mode)) && !mode.Sync?
      modifies this, limiter
      ensures At(t, if mode.Hybrid? then Waiting(w) else Expiring(w)) && old(trace) <= trace
      ensures w !in old(threads) && w in threads && threads[w] == InRun(Resolving(if mode.Hybrid? then Some(t) else None))
      ensures (mode.Hybrid? ==> t in chans && chans[t] == []) && m.started > m.finished
      ensures |old(trace)| < |trace|
        && Hired(limiter.capacity, hasCache, trace, |trace| - 1, t, w, mode.Hybrid?)
    {
      Announce(t, mode);
      Interference(t);
      MarkInProgress(t, mode);
      Interference(t);
      w := Launch(t, mode);
      GaugeUp(trace, View(), w);
    }

    method Announce(t: Id, mode: Mode)
      requires At(t, Announcing(mode))
      modifies this`m, this`threads, this`trace
      ensures Moved(t, InEnrich(Marking(mode))) && m == old(m).(started := old(m).started + 1)
    {
      ghost var s, c := Proceed(trace, View(), t);
      m := m.(started := m.started + 1);
      threads := Apply(s, Move(t, c)).threads;
      Took(trace, s, Move(t, c), View());
      trace := trace + [Move(t, c)];
    }

    // The marker writes themselves belong to the cache modules.
    method MarkInProgress(t: Id, mode: Mode)
      requires At(t, Marking(mode))
      modifies this`threads, this`trace
      ensures Moved(t, InEnrich(Launching(mode)))
    {
      ghost var s, c := Proceed(trace, View(), t);
      threads := Apply(s, Move(t, c)).threads;
      Took(trace, s, Move(t, c), View());
      trace := trace + [Move(t, c)];
    }

    // The go statement: the goroutine `w` has the permit now, and in hybrid mode
    // an empty channel to its caller.
    method Launch(t: Id, mode: Mode) returns (ghost w: Id)
      requires At(t, Launching(mode))
      modifies this`chans, this`threads, this`trace
      ensures Valid() && OneStep(old(trace), trace, t) && w !in old(threads)
      ensures chans == if mode.Hybrid? then old(chans)[t := []] else old(chans)
      ensures threads == if mode.Hybrid? then old(threads)[t := InEnrich(Waiting(w))][w := InRun(Resolving(Some(t)))]
                         else old(threads)[t := InEnrich(Expiring(w))][w := InRun(Resolving(None))]
      ensures Hired(limiter.capacity, hasCache, trace, |old(trace)|, t, w, mode.Hybrid?)
    {
      ghost var s, c := Proceed(trace, View(), t);
      w := c.spawn;
      if mode.Hybrid? { chans := chans[t := []]; }
      threads := Apply(s, Move(t, c)).threads;
      Took(trace, s, Move(t, c), View());
      trace := trace + [Move(t, c)];
      assert trace[..|old(trace)|] == old(trace) && trace[..|trace|] == trace;
    }

    /** Waits for the completion or the timer; at the boundary a completion
        that is there is preferred over reporting it late. */
    method WaitForResult(t: Id, ghost w: Id, early: bool) returns (r: Result)
      requires At(t, Waiting(w))
      modifies this, limiter
      ensures Answered(t, r) && old(trace) <= trace && (r.Expired? || r.Handed?)
      ensures if early && t in old(chans) && old(chans)[t] != [] then r == Handed(old(chans)[t][0])
              else exists k :: |old(trace)| <= k && LookedLast(limiter.capacity, hasCache, trace, k, t, w, r)
    {
      if early && t in chans && chans[t] != [] {
        r := Receive(t, w);
        return;
      }
      Interference(t);
      r := TimeOut(t, w);
    }

    // The timer fires; a completion that is there is preferred.
    method TimeOut(t: Id, ghost w: Id) returns (r: Result)
      requires At(t, Waiting(w))
      modifies this, limiter
      ensures Answered(t, r) && old(trace) <= trace && (r.Expired? || r.Handed?)
      ensures exists k :: |old(trace)| <= k && LookedLast(limiter.capacity, hasCache, trace, k, t, w, r)
    {
      FireTimer(t, w);
      Interference(t);
      ghost var k := |trace|;
      r := LookOnce(t, w);
      ghost var looked := trace;
      if r.Expired? {
        Interference(t);
        WaitExpire(t, w);
      }
      PersistLast(limiter.capacity, hasCache, looked, trace, k, t, w, r);
    }

    method FireTimer(t: Id, ghost w: Id)
      requires At(t, Waiting(w))
      modifies this`threads, this`trace
      ensures Moved(t, InEnrich(LastLook(w)))
    {
      ghost var s, c := Proceed(trace, View(), t);
      threads := Apply(s, Move(t, c)).threads;
      Took(trace, s, Move(t, c), View());
      trace := trace + [Move(t, c)];
    }

    method LookOnce(t: Id, ghost w: Id) returns (r: Result)
      requires At(t, LastLook(w))
      modifies this`chans, this`threads, this`trace
      ensures t in old(chans) && r == if old(chans)[t] == [] then Expired else Handed(old(chans)[t][0])
      ensures Moved(t, InEnrich(if r.Expired? then Expiring(w) else Returned(FromWorker(w, r.o))))
      ensures chans == if r.Expired? then old(chans) else old(chans)[t := old(chans)[t][1..]]
      ensures LookedLast(limiter.capacity, hasCache, trace, |old(trace)|, t, w, r)
    {
      ghost var s, c := Proceed(trace, View(), t);
      if chans[t] != [] {
        r := Receive(t, w);
        assert trace[..|old(trace)|] == old(trace);
        return;
      }
      r := Expired;
      threads := Apply(s, Move(t, c)).threads;
      Took(trace, s, Move(t, c), View());
      trace := trace + [Move(t, c)];
    }

    method Receive(t: Id, ghost w: Id) returns (r: Result)
      requires At(t, Waiting(w)) || At(t, LastLook(w))
      requires t in chans && chans[t] != []
      modifies this`chans, this`threads, this`trace
      ensures r == Handed(old(chans)[t][0]) && chans == old(chans)[t := old(chans)[t][1..]]
      ensures Moved(t, InEnrich(Returned(FromWorker(w, r.o))))
    {
      ghost var s, c := Proceed(trace, View(), t);
      c := c.(ok := true);
      Received(s, t, w, c);
      r := Handed(chans[t][0]);
      chans := chans[t := chans[t][1..]];
      threads := threads[t := InEnrich(Returned(FromWorker(w, r.o)))];
      assert View() == P.Receive(s, t, w);
      Took(trace, s, Move(t, c), View());
      trace := trace + [Move(t, c)];
    }

    method WaitExpire(t: Id, ghost w: Id)
      requires At(t, Expiring(w))
      modifies this`m, this`threads, this`trace
      ensures Moved(t, InEnrich(Returned(WaitExpired(w)))) && m == old(m).(waitExpired := old(m).waitExpired + 1)
    {
      ghost var s, c := Proceed(trace, View(), t);
      m := m.(waitExpired := m.waitExpired + 1);
      threads := Apply(s, Move(t, c)).threads;
      Took(trace, s, Move(t, c), View());
      trace := trace + [Move(t, c)];
    }

    /* ---------- the background goroutine ---------- */

    ghost predicate Working(t: Id, pc: Worker)
      reads this, limiter
    {
      Valid() && t in threads && threads[t] == InRun(pc)
    }

    /** The goroutine of startBackground: resolve, answer a hybrid caller,
        store what is worth caching, and only then give the permit back. */
    method RunBackground(t: Id, done: Option<Id>, outcome: Outcome)
      requires Working(t, Resolving(done))
      modifies this, limiter
      ensures Working(t, Finished(outcome)) && old(trace) <= trace
      ensures stores[t] == if outcome.NoIds? || outcome.Found? then 1 else 0
    {
      ResolveAndAnswer(t, done, outcome);
      Interference(t);
      if !outcome.Failed? {
        StoreResult(t, outcome);
        Interference(t);
      }
      Leave(t, outcome);
      StoredOnce(trace, View(), t);
    }

    method ResolveAndAnswer(t: Id, done: Option<Id>, outcome: Outcome)
      requires Working(t, Resolving(done))
      modifies this, limiter
      ensures Working(t, AfterSend(outcome)) && old(trace) <= trace
    {
      Resolve(t, done, outcome);
      Interference(t);
      NoteOutcome(t, done, outcome);
      if done.Some? {
        Interference(t);
        Send(t, done.value, outcome);
      }
    }

    // The API call.
    method Resolve(t: Id, done: Option<Id>, outcome: Outcome)
      requires Working(t, Resolving(done))
      modifies this`threads, this`trace
      ensures Moved(t, InRun(Reporting(done, outcome)))
    {
      ghost var s, c := Proceed(trace, View(), t);
      c := c.(outcome := outcome);
      threads := Apply(s, Move(t, c)).threads;
      Took(trace, s, Move(t, c), View());
      trace := trace + [Move(t, c)];
    }

    // The metric of its outcome.
    method NoteOutcome(t: Id, done: Option<Id>, outcome: Outcome)
      requires Working(t, Reporting(done, outcome))
      modifies this`m, this`threads, this`trace
      ensures Moved(t, InRun(if done.Some? then Sending(done.value, outcome)
        else if outcome.Failed? then Finishing(outcome) else Writing(outcome)))
      ensures m == match outcome {
        case Failed => old(m).(apiErrors := old(m).apiErrors + 1)
        case Empty => old(m).(notEnriched := old(m).notEnriched + 1)
        case NoIds => old(m).(notEnriched := old(m).notEnriched + 1)
        case Found => old(m).(enriched := old(m).enriched + 1) }
    {
      ghost var s, c := Proceed(trace, View(), t);
      m := Emit(m, outcome);
      threads := Apply(s, Move(t, c)).threads;
      Took(trace, s, Move(t, c), View());
      trace := trace + [Move(t, c)];
    }

    // The channel has one slot and this is its only send, so it cannot block.
    method Send(t: Id, caller: Id, outcome: Outcome)
      requires Working(t, Sending(caller, outcome))
      modifies this`chans, this`threads, this`trace
      ensures Moved(t, InRun(AfterSend(outcome)))
      ensures caller in old(chans) && old(chans)[caller] == [] && chans == old(chans)[caller := [outcome]]
    {
      ghost var s, c := Proceed(trace, View(), t);
      assert Enabled(s, Move(t, c.(outcome := Found)));
      assert chans[caller] == [] && chans[caller] + [outcome] == [outcome];
      chans := chans[caller := chans[caller] + [outcome]];
      threads := Apply(s, Move(t, c)).threads;
      Took(trace, s, Move(t, c), View());
      trace := trace + [Move(t, c)];
    }

    method StoreResult(t: Id, outcome: Outcome)
      requires Working(t, Writing(outcome))
      modifies this`stores, this`threads, this`trace
      ensures Moved(t, InRun(Finishing(outcome)))
      ensures stores == if outcome.NoIds? || outcome.Found? then old(stores) + multiset{t} else old(stores)
    {
      ghost var s, c := Proceed(trace, View(), t);
      if Cacheable(outcome) { stores := stores + multiset{t}; }
      threads := Apply(s, Move(t, c)).threads;
      Took(trace, s, Move(t, c), View());
      trace := trace + [Move(t, c)];
    }

    // The deferred calls: the gauge first, the permit last.
    method Leave(t: Id, outcome: Outcome)
      requires Working(t, Finishing(outcome))
      modifies this, limiter
      ensures Working(t, Finished(outcome)) && old(trace) <= trace
    {
      Finish(t, outcome);
      Interference(t);
      GiveBack(t, outcome);
    }

    // The deferred BackgroundFinished.
    method Finish(t: Id, outcome: Outcome)
      requires Working(t, Finishing(outcome))
      modifies this`m, this`threads, this`trace
      ensures Moved(t, InRun(Releasing(outcome))) && m == old(m).(finished := old(m).finished + 1)
    {
      ghost var s, c := Proceed(trace, View(), t);
      m := m.(finished := m.finished + 1);
      threads := Apply(s, Move(t, c)).threads;
      Took(trace, s, Move(t, c), View());
      trace := trace + [Move(t, c)];
    }

    // The deferred Release.
    method GiveBack(t: Id, outcome: Outcome)
      requires Working(t, Releasing(outcome))
      modifies this`threads, this`trace, limiter
      ensures Moved(t, InRun(Finished(outcome))) && limiter.length == old(limiter.length) - 1
    {
      ghost var s, c := Proceed(trace, View(), t);
      assert Enabled(s, Move(t, c.(outcome := Found)));
      limiter.Release();
      threads := Apply(s, Move(t, c)).threads;
      Took(trace, s, Move(t, c), View());
      trace := trace + [Move(t, c)];
    }

    /* ---------- Shutdown ---------- */

    ghost predicate Stopping(t: Id, pc: Stopper)
      reads this, limiter
    {
      Valid() && t in threads && threads[t] == InShutdown(pc)
    }

    /** The wait ends when `drained` closes or the caller's context is done. The
        select may pick either when both are ready: `prefersContext` decides. */
    method Shutdown(t: Id, contextDone: bool, prefersContext: bool) returns (returned: bool, ok: bool)
      requires Valid() && t !in threads
      modifies this, limiter
      ensures Valid() && old(trace) <= trace && closing && once && (contextDone ==> returned)
      ensures returned ==> Stopping(t, Stopped(ok))
      ensures returned <==> contextDone || closes > 0
      ensures returned ==> (ok <==> closes > 0 && !(contextDone && prefersContext))
      ensures old(closes) > 0 && !contextDone ==> returned && ok
      ensures returned && ok ==> Quiet(View())
    {
      EnterShutdown(t);
      Interference(t);
      StoreClosing(t);
      Interference(t);
      ghost var d := StartDrain(t);
      Interference(t);

      returned := closes > 0 || contextDone;
      ok := closes > 0 && !(contextDone && prefersContext);
      if returned { Return(t, ok); }
      OnceStays(trace, View(), t);
    }

    ghost method EnterShutdown(t: Id)
      requires Valid() && t !in threads
      modifies this`threads, this`trace
      ensures Valid() && threads == old(threads)[t := InShutdown(StoringClosing)] && trace == old(trace) + [CallShutdown(t)]
    {
      var s := View();
      threads := threads[t := InShutdown(StoringClosing)];
      Took(trace, s, CallShutdown(t), View());
      trace := trace + [CallShutdown(t)];
    }

    method StoreClosing(t: Id)
      requires Stopping(t, StoringClosing)
      modifies this`closing, this`threads, this`trace
      ensures Moved(t, InShutdown(Starting)) && closing
    {
      ghost var s, c := Proceed(trace, View(), t);
      closing := true;
      threads := Apply(s, Move(t, c)).threads;
      Took(trace, s, Move(t, c), View());
      trace := trace + [Move(t, c)];
    }

    // drainOnce.Do: the first call starts the drain as thread `d`.
    method StartDrain(t: Id) returns (ghost d: Id)
      requires Stopping(t, Starting)
      modifies this`once, this`threads, this`trace
      ensures Valid() && OneStep(old(trace), trace, t) && once && d !in old(threads)
      ensures var mine := old(threads)[t := InShutdown(Awaiting)];
        threads == if old(once) then mine else mine[d := InShutdown(Draining(0))]
    {
      ghost var s, c := Proceed(trace, View(), t);
      d := c.spawn;
      if !once { once := true; }
      threads := Apply(s, Move(t, c)).threads;
      Took(trace, s, Move(t, c), View());
      trace := trace + [Move(t, c)];
    }

    method Return(t: Id, ok: bool)
      requires Stopping(t, Awaiting) && (ok ==> closes > 0)
      modifies this`threads, this`trace
      ensures Moved(t, InShutdown(Stopped(ok))) && (ok ==> Quiet(View()))
    {
      ghost var s, c := Proceed(trace, View(), t);
      c := c.(ok := ok);
      threads := Apply(s, Move(t, c)).threads;
      Took(trace, s, Move(t, c), View());
      trace := trace + [Move(t, c)];
      RanReachable(trace, View());
      if ok { ShutdownNil(limiter.capacity, hasCache, View(), t); }
    }

    /** The drain goroutine, scheduled `rounds` times. A send on the full
        channel leaves it where it is until some permit comes back. */
    method Drain(t: Id, rounds: nat) returns (done: bool, ghost blocked: seq<nat>)
      requires Stopping(t, Draining(0))
      modifies this, limiter
      ensures Valid() && old(trace) <= trace && t in threads && threads[t].InShutdown?
      ensures if done then threads[t].p == Closed(limiter.capacity) && closes > 0
              else |blocked| <= rounds && threads[t].p == Draining(rounds - |blocked|)
      ensures done <==> rounds > limiter.capacity + |blocked|
      ensures forall i :: 0 <= i < |blocked| ==>
                |old(trace)| <= blocked[i] && Full(limiter.capacity, hasCache, trace, blocked[i])
    {
      var taken := 0;
      done, blocked := false, [];
      for i := 0 to rounds
        invariant Stopping(t, Draining(taken)) && old(trace) <= trace && taken <= limiter.capacity
        invariant !done && taken + |blocked| == i
        invariant forall i :: 0 <= i < |blocked| ==>
                    |old(trace)| <= blocked[i] && Full(limiter.capacity, hasCache, trace, blocked[i])
      {
        ghost var earlier := trace;
        Interference(t);
        if taken >= limiter.capacity {
          CloseDrained(t, taken);
          StayFull(limiter.capacity, hasCache, earlier, trace, blocked);
          return true, blocked;
        }
        var sent := SendOne(t, taken);
        StayFull(limiter.capacity, hasCache, earlier, trace, blocked);
        if sent {
          taken := taken + 1;
        } else {
          assert trace[..|trace|] == trace;
          blocked := blocked + [|trace|];
        }
      }
    }

    method SendOne(t: Id, taken: nat) returns (sent: bool)
      requires Stopping(t, Draining(taken)) && taken < limiter.capacity
      modifies this`threads, this`trace, limiter
      ensures sent == (old(limiter.length) < limiter.capacity)
      ensures limiter.length == if sent then old(limiter.length) + 1 else old(limiter.length)
      ensures if sent then Moved(t, InShutdown(Draining(taken + 1)))
              else Valid() && trace == old(trace) && threads == old(threads)
    {
      ghost var s, c := Proceed(trace, View(), t);
      sent := limiter.TryAcquire();
      if sent {
        threads := Apply(s, Move(t, c)).threads;
        Took(trace, s, Move(t, c), View());
        trace := trace + [Move(t, c)];
      }
    }

    method CloseDrained(t: Id, taken: nat)
      requires Stopping(t, Draining(taken)) && taken == limiter.capacity
      modifies this`closes, this`threads, this`trace
      ensures Moved(t, InShutdown(Closed(taken))) && closes == old(closes) + 1
    {
      ghost var s, c := Proceed(trace, View(), t);
      closes := closes + 1;
      threads := Apply(s, Move(t, c)).threads;
      Took(trace, s, Move(t, c), View());
      trace := trace + [Move(t, c)];
    }
  }

  // A Shutdown call past its Do knows that the drain was started.
  lemma OnceStays(run: seq<Step>, s: State, t: Id)
    requires Ran(s.cap, s.hasCache, run, s) && t in s.threads && s.threads[t].InShutdown?
    requires s.threads[t].p.Awaiting? || s.threads[t].p.Stopped?
    ensures s.once && s.closing
  {
    RanReachable(run, s);
    ReachableInv(s.cap, s.hasCache, s);
    PastOnce(s, t);
  }

  lemma PastOnce(s: State, t: Id)
    requires A.Inv(Abs(s)) && t in s.threads && s.threads[t].InShutdown?
    requires s.threads[t].p.Awaiting? || s.threads[t].p.Stopped?
    ensures s.once && s.closing
  {
    assert A.Fits(Abs(s), Abs(s).threads[t]);
  }

  // A channel that is not empty is read, before the timer and after it.
  lemma Received(s: State, t: Id, w: Id, c: Choice)
    requires t in s.threads && (s.threads[t] == InEnrich(Waiting(w)) || s.threads[t] == InEnrich(LastLook(w)))
    requires t in s.chans && s.chans[t] != [] && c.ok
    ensures Enabled(s, Move(t, c)) && Apply(s, Move(t, c)) == P.Receive(s, t, w)
  {
  }

  // How often a thread that is through has written a result to the cache.
  lemma StoredOnce(run: seq<Step>, s: State, t: Id)
    requires Ran(s.cap, s.hasCache, run, s) && t in s.threads
    ensures s.stores[t] == Stores(s.threads[t])
  {
    RanReachable(run, s);
    ReachableInv(s.cap, s.hasCache, s);
    assert s.stores[t] == Of(Stores, s.threads, t);
  }

  // The steps lead from the start to the state.
  ghost predicate Ran(cap: nat, hasCache: bool, run: seq<Step>, s: State) {
    Legal(Init(cap, hasCache), run) && P.Run(Init(cap, hasCache), run) == s
  }

  lemma RanReachable(run: seq<Step>, s: State)
    requires Ran(s.cap, s.hasCache, run, s)
    ensures Reachable(s.cap, s.hasCache, s)
  {
  }

  // A protocol step that a method has taken.
  lemma Took(run: seq<Step>, s: State, a: Step, s': State)
    requires Ran(s'.cap, s'.hasCache, run, s) && Enabled(s, a) && s' == Apply(s, a)
    ensures Ran(s'.cap, s'.hasCache, run + [a], s') && s'.occupied <= s'.cap
  {
    RunAppend(Init(s'.cap, s'.hasCache), run, a);
    RanReachable(run + [a], s');
    ReachableInv(s'.cap, s'.hasCache, s');
  }

  // Where a thread stands, and a choice with which it can go on.
  lemma Proceed(run: seq<Step>, s: State, t: Id) returns (at: State, c: Choice)
    requires Ran(s.cap, s.hasCache, run, s) && t in s.threads
    ensures at == s && c == Choice(Found, Miss, c.spawn, false) && c.spawn !in s.threads
    ensures s.threads[t] == InEnrich(Withdrawing) || (s.threads[t].InRun? && !s.threads[t].j.Finished?) ==>
              forall o: Outcome :: Enabled(s, Move(t, c.(outcome := o)))
    ensures s.threads[t].InEnrich? && s.threads[t].c.LastLook? ==> t in s.chans
  {
    RanReachable(run, s);
    var free := Unused(s.threads.Keys);
    at, c := s, Choice(Found, Miss, free, false);
    forall o: Outcome ensures s.threads[t] == InEnrich(Withdrawing) || (s.threads[t].InRun? && !s.threads[t].j.Finished?)
        ==> Enabled(s, Move(t, c.(outcome := o)))
    {
      NeverBlocks(s.cap, s.hasCache, s, t, c.(outcome := o));
    }
    ReachableInv(s.cap, s.hasCache, s);
    assert Sound(s, t);
  }

  /** What an earlier and a later value of `trace` say of the states in between:
      the run went on from one to the other. */
  lemma WentOn(cap: nat, hasCache: bool, earlier: seq<Step>, later: seq<Step>, s: State, s': State)
    requires Ran(cap, hasCache, earlier, s) && Ran(cap, hasCache, later, s') && earlier <= later
    ensures Legal(s, later[|earlier|..]) && P.Run(s, later[|earlier|..]) == s'
  {
    RunSplit(Init(cap, hasCache), earlier, later);
  }

  lemma {:induction false} RunSplit(s: State, earlier: seq<Step>, later: seq<Step>)
    requires Legal(s, later) && earlier <= later
    ensures Legal(s, earlier) && Legal(P.Run(s, earlier), later[|earlier|..])
    ensures P.Run(P.Run(s, earlier), later[|earlier|..]) == P.Run(s, later)
    decreases |earlier|
  {
    if earlier == [] {
      assert later[0..] == later;
    } else {
      assert earlier[1..] <= later[1..] && later[1..][|earlier| - 1..] == later[|earlier|..] && earlier[0] == later[0];
      RunSplit(Apply(s, later[0]), earlier[1..], later[1..]);
    }
  }

  // One step of the thread was taken.
  predicate OneStep(earlier: seq<Step>, later: seq<Step>, t: Id) {
    |later| == |earlier| + 1 && earlier <= later && later[|earlier|].Move? && later[|earlier|].t == t
  }

  // Only other threads took steps.
  predicate OthersOnly(earlier: seq<Step>, later: seq<Step>, t: Id) {
    earlier <= later && forall i :: |earlier| <= i < |later| && later[i].Move? ==> later[i].t != t
  }

  /* ---------- what a call saw, read off the run ---------- */

  // Step `k` is the thread's, and it was taken at `pc` in this state.
  ghost predicate Stood(cap: nat, hasCache: bool, run: seq<Step>, k: nat, t: Id) {
    && k < |run| && run[k].Move? && run[k].t == t && Legal(Init(cap, hasCache), run[..k])
    && var s := P.Run(Init(cap, hasCache), run[..k]); t in s.threads && s.threads[t].InEnrich?
  }

  // Step `k` is its attempt on the pool, which was full or was not.
  ghost predicate Tried(cap: nat, hasCache: bool, run: seq<Step>, k: nat, t: Id, full: bool) {
    && Stood(cap, hasCache, run, k, t)
    && var s := P.Run(Init(cap, hasCache), run[..k]); s.threads[t].c.Scheduling? && full == (s.occupied == cap)
  }

  // Step `k` is its second look at `closing`.
  ghost predicate Relooked(cap: nat, hasCache: bool, run: seq<Step>, k: nat, t: Id, shut: bool) {
    && Stood(cap, hasCache, run, k, t)
    && var s := P.Run(Init(cap, hasCache), run[..k]);
       (s.threads[t].c.Refused? || s.threads[t].c.Rechecking?) && shut == s.closing
  }

  // Step `k` is its last look at the channel, and the result what was there.
  ghost predicate LookedLast(cap: nat, hasCache: bool, run: seq<Step>, k: nat, t: Id, w: Id, r: Result) {
    && Stood(cap, hasCache, run, k, t)
    && var s := P.Run(Init(cap, hasCache), run[..k]);
       && s.threads[t].c == LastLook(w) && t in s.chans
       && r == if s.chans[t] == [] then Expired else Handed(s.chans[t][0])
  }

  // Step `k` starts the worker `w`, which is new: with a channel to its caller,
  // empty as yet, if the caller is to wait for it, and without one if not.
  ghost predicate Hired(cap: nat, hasCache: bool, run: seq<Step>, k: nat, t: Id, w: Id, waits: bool) {
    && Stood(cap, hasCache, run, k, t) && w !in P.Run(Init(cap, hasCache), run[..k]).threads
    && Legal(Init(cap, hasCache), run[..k + 1])
    && var s := P.Run(Init(cap, hasCache), run[..k + 1]);
       && t in s.threads && s.threads[t] == InEnrich(if waits then Waiting(w) else Expiring(w))
       && w in s.threads && s.threads[w] == InRun(Resolving(if waits then Some(t) else None))
       && (waits ==> t in s.chans && s.chans[t] == [])
  }

  ghost predicate HiredSince(cap: nat, hasCache: bool, run: seq<Step>, from: nat, known: set<Id>, t: Id, waits: bool) {
    exists k, w :: from <= k && w !in known && Hired(cap, hasCache, run, k, t, w, waits)
  }

  lemma PersistHired(cap: nat, hasCache: bool, run: seq<Step>, run': seq<Step>, k: nat, t: Id, w: Id, waits: bool)
    requires run <= run' && Hired(cap, hasCache, run, k, t, w, waits)
    ensures Hired(cap, hasCache, run', k, t, w, waits)
  {
    assert run'[..k] == run[..k] && run'[..k + 1] == run[..k + 1];
  }

  // After the first `k` steps no permit is free.
  ghost predicate Full(cap: nat, hasCache: bool, run: seq<Step>, k: nat) {
    k <= |run| && Legal(Init(cap, hasCache), run[..k]) && P.Run(Init(cap, hasCache), run[..k]).occupied == cap
  }

  lemma StayFull(cap: nat, hasCache: bool, run: seq<Step>, run': seq<Step>, at: seq<nat>)
    requires run <= run' && forall i :: 0 <= i < |at| ==> Full(cap, hasCache, run, at[i])
    ensures forall i :: 0 <= i < |at| ==> Full(cap, hasCache, run', at[i])
  {
    forall i | 0 <= i < |at| ensures Full(cap, hasCache, run', at[i]) { assert run'[..at[i]] == run[..at[i]]; }
  }

  /** How a background call is answered: shut out exactly if its second look finds
      `closing`, and otherwise at the limit exactly if its attempt found the pool
      full. */
  ghost predicate Decided(cap: nat, hasCache: bool, run: seq<Step>, from: nat, t: Id, r: Result) {
    && (r.ShutOut? || r.AtLimit? || r.Expired? || r.Handed?)
    && exists k: nat, m: nat, full: bool ::
         && from <= k < m && Tried(cap, hasCache, run, k, t, full) && Relooked(cap, hasCache, run, m, t, r.ShutOut?)
         && (!r.ShutOut? ==> (r.AtLimit? <==> full))
  }

  // What was seen stays seen.
  lemma Persist(cap: nat, hasCache: bool, run: seq<Step>, run': seq<Step>, k: nat, t: Id)
    requires run <= run'
    ensures forall full :: Tried(cap, hasCache, run, k, t, full) ==> Tried(cap, hasCache, run', k, t, full)
    ensures forall shut :: Relooked(cap, hasCache, run, k, t, shut) ==> Relooked(cap, hasCache, run', k, t, shut)
  {
    if k < |run| { assert run'[..k] == run[..k]; }
  }

  lemma PersistLast(cap: nat, hasCache: bool, run: seq<Step>, run': seq<Step>, k: nat, t: Id, w: Id, r: Result)
    requires run <= run' && LookedLast(cap, hasCache, run, k, t, w, r)
    ensures LookedLast(cap, hasCache, run', k, t, w, r)
  {
    assert run'[..k] == run[..k];
  }

  // A worker before its end was counted as started, and not as finished.
  lemma GaugeUp(run: seq<Step>, s: State, w: Id)
    requires Ran(s.cap, s.hasCache, run, s) && w in s.threads && Gauged(s.threads[w]) == 1
    ensures s.m.started > s.m.finished
  {
    RanReachable(run, s);
    ReachableInv(s.cap, s.hasCache, s);
    TotalOne(Gauged, s.threads, w);
  }
}
