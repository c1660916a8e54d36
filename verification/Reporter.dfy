/** The reporter itself, in the form of its source: every method runs as one
    thread of `ReporterProtocol`, and between any two of its atomic operations
    the other threads may take any steps they like. `trace` is the run so far.
    An atomic operation adds one step of its own thread to it, and says what it
    changed; a longer method only adds to it, so that by `WentOn` its end state is
    the end of a legal run from the state it began in. Whatever holds of every
    reachable protocol state holds at every moment of every interleaving. */
module ReporterModule {
  import opened Counting
  import opened LimiterModule
  import opened P = ReporterProtocol
  import A = Admission

  class Reporter {
    const limiter: Limiter
    var closing: bool
    var once: bool
    var closes: nat
    var cancelled: bool
    var m: Metrics
    ghost var threads: map<Id, Pc>   // where every thread stands
    ghost var trace: seq<Step>       // every step taken so far, by whatever thread

    ghost function View(): State
      reads this, limiter
    {
      State(limiter.capacity, limiter.length, closing, once, closes, cancelled, threads, m)
    }

    ghost predicate Valid()
      reads this, limiter
    {
      limiter.Valid() && Ran(limiter.capacity, trace, View())
    }

    constructor (maximum: int)
      ensures Valid() && fresh(limiter) && threads == map[] && !closing
      ensures limiter.capacity == if maximum <= 0 then 0 else maximum
    {
      limiter := new Limiter(maximum);
      closing, once, closes, cancelled := false, false, 0, false;
      m := Metrics(0, 0, 0, 0, 0, 0, 0, 0);
      threads, trace := map[], [];
      new;
      assert View() == Init(limiter.capacity);
    }

    /** Other threads run: any number of protocol steps, none of them ours.
        The body takes none; callers know only what every choice guarantees. */
    method Interference(ghost t: Id)
      requires Valid() && t in threads
      modifies this, limiter
      ensures Valid() && t in threads && threads[t] == old(threads[t]) && OthersOnly(old(trace), trace, t)
      ensures old(threads).Keys <= threads.Keys && old(closes) <= closes && (old(closing) ==> closing)
    {
    }

    /* ---------- TryReport ---------- */

    method TryReport(ghost t: Id, url: bool) returns (reply: Reply)
      requires Valid() && t !in threads
      modifies this, limiter
      ensures Valid() && old(trace) <= trace
      ensures t in threads && threads[t].InTryReport? && threads[t].c.Replied? && threads[t].c.reply == reply
      ensures old(closing) ==> reply == ReportShuttingDown
      ensures |old(trace)| < |trace| && trace[|old(trace)|] == Call(t, url)
      ensures reply == ReportAccepted ==>
        exists k, w :: |old(trace)| <= k && w !in old(threads) && Launched(limiter.capacity, trace, k, t, w, url)
    {
      Enter(t, url);
      var shut := LoadClosing(t);
      Interference(t);
      if shut {
        Reject(t, ReportShuttingDown);
        return ReportShuttingDown;
      }

      reply := Acquire(t, url);
    }

    // Past the first look at `closing`.
    method Acquire(ghost t: Id, url: bool) returns (reply: Reply)
      requires Valid() && t in threads && threads[t] == InTryReport(Trying(url))
      modifies this, limiter
      ensures Valid() && old(trace) <= trace
      ensures t in threads && threads[t].InTryReport? && threads[t].c.Replied? && threads[t].c.reply == reply
      ensures reply == ReportAtCapacity ==> old(limiter.length) == limiter.capacity
      ensures reply == ReportAccepted ==> old(limiter.length) < limiter.capacity
      ensures reply == ReportAccepted ==>
        exists k, w :: |old(trace)| <= k && w !in old(threads) && Launched(limiter.capacity, trace, k, t, w, url)
    {
      var acquired := TryAcquire(t, url);
      Interference(t);
      if acquired {
        reply := Admit(t, url);
      } else {
        reply := Refuse(t);
      }
    }

    // No free permit: the answer is read off `closing`.
    method Refuse(ghost t: Id) returns (reply: Reply)
      requires Valid() && t in threads && threads[t].InTryReport? && threads[t].c.Refused?
      modifies this, limiter
      ensures Valid() && old(trace) <= trace
      ensures t in threads && threads[t].InTryReport? && threads[t].c.Replied? && threads[t].c.reply == reply
      ensures reply == if old(closing) then ReportShuttingDown else ReportAtCapacity
    {
      var shut := LoadClosing(t);
      Interference(t);
      reply := if shut then ReportShuttingDown else ReportAtCapacity;
      Reject(t, reply);
    }

    // The permit is in hand: one more look at `closing` before the goroutine.
    method Admit(ghost t: Id, url: bool) returns (reply: Reply)
      requires Valid() && t in threads && threads[t] == InTryReport(Rechecking(url))
      modifies this, limiter
      ensures Valid() && old(trace) <= trace
      ensures t in threads && threads[t].InTryReport? && threads[t].c.Replied? && threads[t].c.reply == reply
      ensures reply == if old(closing) then ReportShuttingDown else ReportAccepted
      ensures reply == ReportAccepted ==>
        exists k, w :: |old(trace)| <= k && w !in old(threads) && Launched(limiter.capacity, trace, k, t, w, url)
    {
      var shut := LoadClosing(t);
      Interference(t);
      if shut {
        Withdraw(t);
        Interference(t);
        Reject(t, ReportShuttingDown);
        return ReportShuttingDown;
      }
      Announce(t, url);
      Interference(t);
      ghost var k := |trace|;
      ghost var w := Launch(t, url);
      reply := ReportAccepted;
      assert Launched(limiter.capacity, trace, k, t, w, url);
    }

    ghost method Enter(t: Id, url: bool)
      requires Valid() && t !in threads
      modifies this`threads, this`trace
      ensures Valid() && threads == old(threads)[t := InTryReport(Entering(url))]
      ensures trace == old(trace) + [Call(t, url)]
    {
      var s := View();
      threads := threads[t := InTryReport(Entering(url))];
      Took(trace, s, Call(t, url), View());
      trace := trace + [Call(t, url)];
    }

    // One load of `closing`, and where each of its results leads.
    method LoadClosing(ghost t: Id) returns (value: bool)
      requires Valid() && t in threads && threads[t].InTryReport?
      requires threads[t].c.Entering? || threads[t].c.Refused? || threads[t].c.Rechecking?
      modifies this`threads, this`trace
      ensures Valid() && OneStep(old(trace), trace, t) && value == closing && t in threads
      ensures var pc := old(threads[t]).c; threads == old(threads)[t := InTryReport(
        if pc.Entering? then (if value then Rejecting(ReportShuttingDown, 0, 0) else Trying(pc.url))
        else if pc.Refused? then
          (if value then Rejecting(ReportShuttingDown, 0, 0) else Rejecting(ReportAtCapacity, pc.jobs, pc.drain))
        else (if value then Withdrawing else Announcing(pc.url)))]
    {
      ghost var s, c := Proceed(trace, View(), t);
      value := closing;
      threads := Apply(s, Move(t, c)).threads;
      Took(trace, s, Move(t, c), View());
      trace := trace + [Move(t, c)];
    }

    method Reject(ghost t: Id, reply: Reply)
      requires Valid() && t in threads && threads[t].InTryReport? && threads[t].c.Rejecting?
      requires threads[t].c.reply == reply && !reply.ReportAccepted?
      modifies this`threads, this`trace, this`m
      ensures Valid() && OneStep(old(trace), trace, t)
      ensures var pc := old(threads[t]).c; threads == old(threads)[t := InTryReport(Replied(reply, pc.jobs, pc.drain))]
      ensures m == if reply.ReportAtCapacity? then old(m).(atCapacity := old(m).atCapacity + 1)
                   else old(m).(shuttingDown := old(m).shuttingDown + 1)
    {
      ghost var s, c := Proceed(trace, View(), t);
      if reply.ReportAtCapacity? {
        m := m.(atCapacity := m.atCapacity + 1);
      } else {
        m := m.(shuttingDown := m.shuttingDown + 1);
      }
      threads := Apply(s, Move(t, c)).threads;
      Took(trace, s, Move(t, c), View());
      trace := trace + [Move(t, c)];
    }

    method TryAcquire(ghost t: Id, url: bool) returns (ok: bool)
      requires Valid() && t in threads && threads[t] == InTryReport(Trying(url))
      modifies this`threads, this`trace, limiter
      ensures Valid() && OneStep(old(trace), trace, t)
      ensures ok == (old(limiter.length) < limiter.capacity)
      ensures limiter.length == if ok then old(limiter.length) + 1 else old(limiter.length)
      ensures threads == old(threads)[t := InTryReport(if ok then Rechecking(url) else
        Refused(A.JobsHold(Abs(old(View()))), A.DrainHolds(Abs(old(View())))))]
    {
      ghost var s, c := Proceed(trace, View(), t);
      ok := limiter.TryAcquire();
      threads := Apply(s, Move(t, c)).threads;
      Took(trace, s, Move(t, c), View());
      trace := trace + [Move(t, c)];
    }

    method Withdraw(ghost t: Id)
      requires Valid() && t in threads && threads[t] == InTryReport(Withdrawing)
      modifies this`threads, this`trace, limiter
      ensures Valid() && OneStep(old(trace), trace, t) && limiter.length == old(limiter.length) - 1
      ensures threads == old(threads)[t := InTryReport(Rejecting(ReportShuttingDown, 0, 0))]
    {
      ghost var s, c := Proceed(trace, View(), t);
      limiter.Release();
      threads := Apply(s, Move(t, c)).threads;
      Took(trace, s, Move(t, c), View());
      trace := trace + [Move(t, c)];
    }

    // ReportingStarted.
    method Announce(ghost t: Id, url: bool)
      requires Valid() && t in threads && threads[t] == InTryReport(Announcing(url))
      modifies this`threads, this`trace, this`m
      ensures Valid() && OneStep(old(trace), trace, t) && m == old(m).(started := old(m).started + 1)
      ensures threads == old(threads)[t := InTryReport(Launching(url))]
    {
      ghost var s, c := Proceed(trace, View(), t);
      m := m.(started := m.started + 1);
      threads := Apply(s, Move(t, c)).threads;
      Took(trace, s, Move(t, c), View());
      trace := trace + [Move(t, c)];
    }

    // The go statement: the goroutine `w` has the permit now.
    method Launch(ghost t: Id, url: bool) returns (ghost w: Id)
      requires Valid() && t in threads && threads[t] == InTryReport(Launching(url))
      modifies this`threads, this`trace, this`m
      ensures Valid() && OneStep(old(trace), trace, t) && m == old(m).(accepted := old(m).accepted + 1)
      ensures w !in old(threads)
      ensures threads == old(threads)[t := InTryReport(Replied(ReportAccepted, 0, 0))][w := InRun(Running(url))]
      ensures Launched(limiter.capacity, trace, |old(trace)|, t, w, url)
    {
      ghost var s, c := Proceed(trace, View(), t);
      w := c.spawn;
      m := m.(accepted := m.accepted + 1);
      threads := Apply(s, Move(t, c)).threads;
      Took(trace, s, Move(t, c), View());
      trace := trace + [Move(t, c)];
      assert trace[..|old(trace)|] == old(trace) && trace[..|trace|] == trace;
    }

    /* ---------- run ---------- */

    ghost predicate Working(t: Id, pc: Worker)
      reads this, limiter
    {
      Valid() && t in threads && threads[t] == InRun(pc)
    }

    // run: the report, the deferred gauge and permit, and the recovery of a panic.
    method Run(ghost t: Id, url: bool, outcome: Outcome)
      requires Working(t, Running(url))
      modifies this, limiter
      ensures Working(t, Finished) && old(trace) <= trace
      ensures url ==> exists k :: |old(trace)| <= k && Called(limiter.capacity, trace, k, t, outcome)
    {
      var panicked := Report(t, url, outcome);
      ghost var k :| url ==> |old(trace)| <= k && Called(limiter.capacity, trace, k, t, outcome);
      ghost var reported := trace;
      Interference(t);
      Finish(t, panicked);
      Interference(t);
      GiveBack(t, panicked);
      if panicked {
        Interference(t);
        RecordPanic(t);
      }
      if url { Persist(limiter.capacity, reported, trace, k, t, outcome); }
    }

    method Report(ghost t: Id, url: bool, outcome: Outcome) returns (panicked: bool)
      requires Working(t, Running(url))
      modifies this, limiter
      ensures Working(t, Finishing(panicked)) && old(trace) <= trace
      ensures panicked == (url && outcome.Panicked?)
      ensures url ==> exists k :: |old(trace)| <= k && Called(limiter.capacity, trace, k, t, outcome)
    {
      StartReport(t, url);
      if !url { return false; }
      Interference(t);
      ghost var k := |trace|;
      CallAPI(t, outcome);
      ghost var called := trace;
      panicked := outcome.Panicked?;
      if !panicked {
        Interference(t);
        CountOutcome(t, outcome);
      }
      Persist(limiter.capacity, called, trace, k, t, outcome);
    }

    // An empty URL is a report that needs no call.
    method StartReport(ghost t: Id, url: bool)
      requires Working(t, Running(url))
      modifies this`threads, this`trace, this`m
      ensures Valid() && OneStep(old(trace), trace, t)
      ensures m == if url then old(m) else old(m).(empty := old(m).empty + 1)
      ensures threads == old(threads)[t := InRun(if url then Calling else Finishing(false))]
    {
      ghost var s, c := Proceed(trace, View(), t);
      if !url { m := m.(empty := m.empty + 1); }
      threads := Apply(s, Move(t, c)).threads;
      Took(trace, s, Move(t, c), View());
      trace := trace + [Move(t, c)];
    }

    // The API call returns or panics.
    method CallAPI(ghost t: Id, outcome: Outcome)
      requires Working(t, Calling)
      modifies this`threads, this`trace
      ensures Valid() && OneStep(old(trace), trace, t)
      ensures threads == old(threads)[t := InRun(if outcome.Panicked? then Finishing(true) else Noting(outcome.Delivered?))]
      ensures Called(limiter.capacity, trace, |old(trace)|, t, outcome)
    {
      ghost var s, c := Proceed(trace, View(), t);
      c := c.(outcome := outcome);
      threads := Apply(s, Move(t, c)).threads;
      Took(trace, s, Move(t, c), View());
      trace := trace + [Move(t, c)];
      assert trace[..|old(trace)|] == old(trace);
    }

    // The metric that report emits once the call has returned.
    method CountOutcome(ghost t: Id, outcome: Outcome)
      requires Working(t, Noting(outcome.Delivered?)) && !outcome.Panicked?
      modifies this`threads, this`trace, this`m
      ensures Valid() && OneStep(old(trace), trace, t) && threads == old(threads)[t := InRun(Finishing(false))]
      ensures m == if outcome.Delivered? then old(m).(reported := old(m).reported + 1) else old(m).(errors := old(m).errors + 1)
    {
      ghost var s, c := Proceed(trace, View(), t);
      if outcome.Delivered? {
        m := m.(reported := m.reported + 1);
      } else {
        m := m.(errors := m.errors + 1);
      }
      threads := Apply(s, Move(t, c)).threads;
      Took(trace, s, Move(t, c), View());
      trace := trace + [Move(t, c)];
    }

    // The deferred ReportingFinished.
    method Finish(ghost t: Id, panicked: bool)
      requires Working(t, Finishing(panicked))
      modifies this`threads, this`trace, this`m
      ensures Valid() && OneStep(old(trace), trace, t) && m == old(m).(finished := old(m).finished + 1)
      ensures threads == old(threads)[t := InRun(Releasing(panicked))]
    {
      ghost var s, c := Proceed(trace, View(), t);
      m := m.(finished := m.finished + 1);
      threads := Apply(s, Move(t, c)).threads;
      Took(trace, s, Move(t, c), View());
      trace := trace + [Move(t, c)];
    }

    // The deferred Release.
    method GiveBack(ghost t: Id, panicked: bool)
      requires Working(t, Releasing(panicked))
      modifies this`threads, this`trace, limiter
      ensures Valid() && OneStep(old(trace), trace, t) && limiter.length == old(limiter.length) - 1
      ensures threads == old(threads)[t := InRun(if panicked then Recording else Finished)]
    {
      ghost var s, c := Proceed(trace, View(), t);
      limiter.Release();
      threads := Apply(s, Move(t, c)).threads;
      Took(trace, s, Move(t, c), View());
      trace := trace + [Move(t, c)];
    }

    method RecordPanic(ghost t: Id)
      requires Working(t, Recording)
      modifies this`threads, this`trace, this`m
      ensures Valid() && OneStep(old(trace), trace, t) && m == old(m).(errors := old(m).errors + 1)
      ensures threads == old(threads)[t := InRun(Finished)]
    {
      ghost var s, c := Proceed(trace, View(), t);
      m := m.(errors := m.errors + 1);
      threads := Apply(s, Move(t, c)).threads;
      Took(trace, s, Move(t, c), View());
      trace := trace + [Move(t, c)];
    }

    /* ---------- Shutdown ---------- */

    ghost predicate Stopping(t: Id, pc: Stopper)
      reads this, limiter
    {
      Valid() && t in threads && threads[t] == InShutdown(pc)
    }

    /** The wait ends when `drained` closes or the caller's context is done. The
        select may pick either when both are ready: `prefersContext` decides. */
    method Shutdown(ghost t: Id, contextDone: bool, prefersContext: bool) returns (returned: bool, ok: bool)
      requires Valid() && t !in threads
      modifies this, limiter
      ensures Valid() && old(trace) <= trace && closing && once && t in threads
      ensures returned ==> threads[t] == InShutdown(Stopped(ok)) && cancelled
      ensures returned <==> contextDone || closes > 0
      ensures returned ==> (ok <==> closes > 0 && !(contextDone && prefersContext))
      ensures old(closes) > 0 && !contextDone ==> returned && ok
      ensures returned && ok ==> closes == 1 && m.started == m.finished && forall u :: u in threads ==> !Holds(threads[u])
    {
      EnterShutdown(t);
      Interference(t);
      StoreClosing(t);
      Interference(t);
      ghost var d := StartDrain(t);
      Interference(t);

      returned := closes > 0 || contextDone;
      ok := closes > 0 && !(contextDone && prefersContext);
      if returned { Return(t, ok); }
      OnceStays(trace, View(), t);
    }

    ghost method EnterShutdown(t: Id)
      requires Valid() && t !in threads
      modifies this`threads, this`trace
      ensures Valid() && threads == old(threads)[t := InShutdown(Storing)] && trace == old(trace) + [CallShutdown(t)]
    {
      var s := View();
      threads := threads[t := InShutdown(Storing)];
      Took(trace, s, CallShutdown(t), View());
      trace := trace + [CallShutdown(t)];
    }

    method StoreClosing(ghost t: Id)
      requires Stopping(t, Storing)
      modifies this`closing, this`threads, this`trace
      ensures Valid() && OneStep(old(trace), trace, t) && closing && threads == old(threads)[t := InShutdown(Starting)]
    {
      ghost var s, c := Proceed(trace, View(), t);
      closing := true;
      threads := Apply(s, Move(t, c)).threads;
      Took(trace, s, Move(t, c), View());
      trace := trace + [Move(t, c)];
    }

    // drainOnce.Do: the first call starts the drain as thread `d`.
    method StartDrain(ghost t: Id) returns (ghost d: Id)
      requires Stopping(t, Starting)
      modifies this`once, this`threads, this`trace
      ensures Valid() && OneStep(old(trace), trace, t) && once && d !in old(threads)
      ensures var mine := old(threads)[t := InShutdown(Awaiting)];
        threads == if old(once) then mine else mine[d := InShutdown(Draining(0))]
    {
      ghost var s, c := Proceed(trace, View(), t);
      d := c.spawn;
      if !once { once := true; }
      threads := Apply(s, Move(t, c)).threads;
      Took(trace, s, Move(t, c), View());
      trace := trace + [Move(t, c)];
    }

    // Either way out of the select cancels the reports.
    method Return(ghost t: Id, ok: bool)
      requires Stopping(t, Awaiting) && (ok ==> closes > 0)
      modifies this`cancelled, this`threads, this`trace
      ensures Valid() && OneStep(old(trace), trace, t) && cancelled && threads == old(threads)[t := InShutdown(Stopped(ok))]
      ensures ok ==> closes == 1 && m.started == m.finished && forall u :: u in threads ==> !Holds(threads[u])
    {
      ghost var s, c := Proceed(trace, View(), t);
      c := c.(ok := ok);
      cancelled := true;
      threads := Apply(s, Move(t, c)).threads;
      Took(trace, s, Move(t, c), View());
      trace := trace + [Move(t, c)];
      RanReachable(trace, View());
      if ok { ShutdownNil(limiter.capacity, View(), t); }
    }

    /** The drain goroutine, scheduled `rounds` times. A send on the full
        channel leaves it where it is until some permit comes back. */
    method Drain(ghost t: Id, rounds: nat) returns (done: bool, ghost blocked: seq<nat>)
      requires Stopping(t, Draining(0))
      modifies this, limiter
      ensures Valid() && old(trace) <= trace && t in threads && threads[t].InShutdown?
      ensures if done then threads[t].p == Closed(limiter.capacity) && closes > 0
              else |blocked| <= rounds && threads[t].p == Draining(rounds - |blocked|)
      ensures done <==> rounds > limiter.capacity + |blocked|
      ensures forall i :: 0 <= i < |blocked| ==> |old(trace)| <= blocked[i] && Full(limiter.capacity, trace, blocked[i])
    {
      var taken := 0;
      done, blocked := false, [];
      for i := 0 to rounds
        invariant Stopping(t, Draining(taken)) && old(trace) <= trace && taken <= limiter.capacity
        invariant !done && taken + |blocked| == i
        invariant forall i :: 0 <= i < |blocked| ==> |old(trace)| <= blocked[i] && Full(limiter.capacity, trace, blocked[i])
      {
        ghost var earlier := trace;
        Interference(t);
        if taken >= limiter.capacity {
          CloseDrained(t, taken);
          StayFull(limiter.capacity, earlier, trace, blocked);
          return true, blocked;
        }
        var sent := SendOne(t, taken);
        StayFull(limiter.capacity, earlier, trace, blocked);
        if sent {
          taken := taken + 1;
        } else {
          assert trace[..|trace|] == trace;
          blocked := blocked + [|trace|];
        }
      }
    }

    method SendOne(ghost t: Id, taken: nat) returns (sent: bool)
      requires Stopping(t, Draining(taken)) && taken < limiter.capacity
      modifies this`threads, this`trace, limiter
      ensures Valid() && sent == (old(limiter.length) < limiter.capacity)
      ensures if sent then OneStep(old(trace), trace, t) else trace == old(trace)
      ensures limiter.length == if sent then old(limiter.length) + 1 else old(limiter.length)
      ensures threads == if sent then old(threads)[t := InShutdown(Draining(taken + 1))] else old(threads)
    {
      ghost var s, c := Proceed(trace, View(), t);
      sent := limiter.TryAcquire();
      if sent {
        threads := Apply(s, Move(t, c)).threads;
        Took(trace, s, Move(t, c), View());
        trace := trace + [Move(t, c)];
      }
    }

    method CloseDrained(ghost t: Id, taken: nat)
      requires Stopping(t, Draining(taken)) && taken == limiter.capacity
      modifies this`closes, this`threads, this`trace
      ensures Valid() && OneStep(old(trace), trace, t) && closes == old(closes) + 1
      ensures threads == old(threads)[t := InShutdown(Closed(taken))]
    {
      ghost var s, c := Proceed(trace, View(), t);
      closes := closes + 1;
      threads := Apply(s, Move(t, c)).threads;
      Took(trace, s, Move(t, c), View());
      trace := trace + [Move(t, c)];
    }
  }

  // A Shutdown call past its Do knows that the drain was started.
  lemma OnceStays(run: seq<Step>, s: State, t: Id)
    requires Ran(s.cap, run, s) && t in s.threads && s.threads[t].InShutdown?
      && (s.threads[t].p.Awaiting? || s.threads[t].p.Stopped?)
    ensures s.once && s.closing
  {
    RanReachable(run, s);
    ReachableInv(s.cap, s);
    PastOnce(s, t);
  }

  lemma PastOnce(s: State, t: Id)
    requires A.Inv(Abs(s)) && t in s.threads && s.threads[t].InShutdown?
    requires s.threads[t].p.Awaiting? || s.threads[t].p.Stopped?
    ensures s.once && s.closing
  {
    assert A.Fits(Abs(s), Abs(s).threads[t]);
  }

  // The steps lead from the start to the state.
  ghost predicate Ran(cap: nat, run: seq<Step>, s: State) { Legal(Init(cap), run) && P.Run(Init(cap), run) == s }

  lemma RanReachable(run: seq<Step>, s: State)
    requires Ran(s.cap, run, s)
    ensures Reachable(s.cap, s)
  {
  }

  // A protocol step that a method has taken.
  lemma Took(run: seq<Step>, s: State, a: Step, s': State)
    requires Ran(s'.cap, run, s) && Enabled(s, a) && s' == Apply(s, a)
    ensures Ran(s'.cap, run + [a], s') && s'.occupied <= s'.cap
  {
    RunAppend(Init(s'.cap), run, a);
    RanReachable(run + [a], s');
    ReachableInv(s'.cap, s');
  }

  // Where a thread stands, and a choice with which it can go on.
  lemma Proceed(run: seq<Step>, s: State, t: Id) returns (at: State, c: Choice)
    requires Ran(s.cap, run, s) && t in s.threads
    ensures at == s && c == Choice(Delivered, c.spawn, false) && c.spawn !in s.threads
    ensures s.threads[t] == InTryReport(Withdrawing) ==> s.occupied > 0
    ensures s.threads[t].InRun? && s.threads[t].j.Releasing? ==> s.occupied > 0
  {
    RanReachable(run, s);
    var free := Unused(s.threads.Keys);
    at, c := s, Choice(Delivered, free, false);
    CapacityBound(s.cap, s);
    assert s.threads[t] == InTryReport(Withdrawing) ==> Enabled(s, Move(t, c));
    assert s.threads[t].InRun? && s.threads[t].j.Releasing? ==> Enabled(s, Move(t, c));
  }

  /** What an earlier and a later value of `trace` say of the states in between:
      the run went on from one to the other. */
  lemma WentOn(cap: nat, earlier: seq<Step>, later: seq<Step>, s: State, s': State)
    requires Ran(cap, earlier, s) && Ran(cap, later, s') && earlier <= later
    ensures Legal(s, later[|earlier|..]) && P.Run(s, later[|earlier|..]) == s'
  {
    RunSplit(Init(cap), earlier, later);
  }

  lemma {:induction false} RunSplit(s: State, earlier: seq<Step>, later: seq<Step>)
    requires Legal(s, later) && earlier <= later
    ensures Legal(s, earlier) && Legal(P.Run(s, earlier), later[|earlier|..])
    ensures P.Run(P.Run(s, earlier), later[|earlier|..]) == P.Run(s, later)
    decreases |earlier|
  {
    if earlier == [] {
      assert later[0..] == later;
    } else {
      assert earlier[1..] <= later[1..] && later[1..][|earlier| - 1..] == later[|earlier|..] && earlier[0] == later[0];
      RunSplit(Apply(s, later[0]), earlier[1..], later[1..]);
    }
  }

  /* ---------- what a thread saw, read off the run ---------- */

  // Step `k` is the thread's.
  ghost predicate Stood(cap: nat, run: seq<Step>, k: nat, t: Id) {
    && k < |run| && run[k].Move? && run[k].t == t
    && Legal(Init(cap), run[..k]) && t in P.Run(Init(cap), run[..k]).threads
  }

  // Step `k` starts the goroutine `w`, which is new, on a job with or without a URL.
  ghost predicate Launched(cap: nat, run: seq<Step>, k: nat, t: Id, w: Id, url: bool) {
    && Stood(cap, run, k, t) && w !in P.Run(Init(cap), run[..k]).threads
    && Legal(Init(cap), run[..k + 1])
    && var s := P.Run(Init(cap), run[..k + 1]);
       && t in s.threads && s.threads[t] == InTryReport(Replied(ReportAccepted, 0, 0))
       && w in s.threads && s.threads[w] == InRun(Running(url))
  }

  // Step `k` is the API call, and this is how it ended.
  ghost predicate Called(cap: nat, run: seq<Step>, k: nat, t: Id, outcome: Outcome) {
    && Stood(cap, run, k, t) && run[k].c.outcome == outcome
    && P.Run(Init(cap), run[..k]).threads[t] == InRun(Calling)
  }

  lemma Persist(cap: nat, run: seq<Step>, run': seq<Step>, k: nat, t: Id, outcome: Outcome)
    requires run <= run' && Called(cap, run, k, t, outcome)
    ensures Called(cap, run', k, t, outcome)
  {
    assert run'[..k] == run[..k];
  }

  // After the first `k` steps no permit is free.
  ghost predicate Full(cap: nat, run: seq<Step>, k: nat) {
    k <= |run| && Legal(Init(cap), run[..k]) && P.Run(Init(cap), run[..k]).occupied == cap
  }

  lemma StayFull(cap: nat, run: seq<Step>, run': seq<Step>, at: seq<nat>)
    requires run <= run' && forall i :: 0 <= i < |at| ==> Full(cap, run, at[i])
    ensures forall i :: 0 <= i < |at| ==> Full(cap, run', at[i])
  {
    forall i | 0 <= i < |at| ensures Full(cap, run', at[i]) { assert run'[..at[i]] == run[..at[i]]; }
  }

  // One step of the thread was taken.
  predicate OneStep(earlier: seq<Step>, later: seq<Step>, t: Id) {
    |later| == |earlier| + 1 && earlier <= later && later[|earlier|].Move? && later[|earlier|].t == t
  }

  // Only other threads took steps.
  predicate OthersOnly(earlier: seq<Step>, later: seq<Step>, t: Id) {
    earlier <= later && forall i :: |earlier| <= i < |later| && later[i].Move? ==> later[i].t != t
  }
}
