/** The admission and drain protocol shared by the enricher and the reporter.

    A buffered channel is the permit pool: a send takes a permit, a receive
    gives it back. Callers read `closing`, try to take a permit, read `closing`
    again, and hand the permit to a goroutine. `Shutdown` stores `closing` and
    starts one drain, which takes every permit for good and closes `drained`.

    Every channel operation and every atomic load or store is one step, and
    any thread may take the next one. `left` bounds the steps a thread still
    takes before its permit is back, and is what makes the drain terminate. */
module Admission {
  import opened Counting

  type Id = nat

  datatype Pc =
    // callers
    | Entering                               // about to read `closing`
    | Trying(left: nat)                      // read false; about to take a permit
    | Refused(jobs: nat, drain: nat)         // pool full, and who held it; about to read `closing` again
    | Rechecking(left: nat)                  // holds a permit; about to read `closing` again
    | Withdrawing                            // holds a permit to give back
    | Admitted(left: nat)                    // holds a permit to hand over
    | Bounced                                // answered "shutting down"
    | Denied(jobs: nat, drain: nat)          // answered "no capacity"
    | Outside                                // nothing more to do with the pool
    // goroutines
    | Working(left: nat)
    // Shutdown callers
    | Storing | Starting | Awaiting | Stopped(ok: bool)
    // the drain goroutine
    | Draining(taken: nat) | Closed(held: nat)

  datatype State = State(
    cap: nat,
    occupied: nat,
    closing: bool,
    once: bool,
    closes: nat,
    threads: map<Id, Pc>)

  datatype Step =
    | Call(t: Id)
    | CallShutdown(t: Id)
    | ReadClosing(t: Id, left: nat)
    | Internal(t: Id, left: nat)
    | Leave(t: Id)
    | TryAcquire(t: Id, left: nat)
    | ReadClosingAgain(t: Id, left: nat)
    | Withdraw(t: Id)
    | Spawn(t: Id, w: Id, left: nat)
    | Release(t: Id)
    | StoreClosing(t: Id)
    | DoOnce(t: Id, d: Id)
    | DrainOne(t: Id)
    | CloseDrained(t: Id)
    | Return(t: Id, ok: bool)
    | Stutter

  function Init(cap: nat): State {
    State(cap, 0, false, false, 0, map[])
  }

  // Permits held, and the shares of the drain and of everyone else.
  function Permits(pc: Pc): nat { JobPermits(pc) + DrainPermits(pc) }

  function JobPermits(pc: Pc): nat {
    if pc.Rechecking? || pc.Withdrawing? || pc.Admitted? || pc.Working? then 1 else 0
  }

  function DrainPermits(pc: Pc): nat {
    match pc
    case Draining(taken) => taken
    case Closed(held) => held
    case _ => 0
  }

  function IsDrain(pc: Pc): nat { if pc.Draining? || pc.Closed? then 1 else 0 }

  function IsClosed(pc: Pc): nat { if pc.Closed? then 1 else 0 }

  function IsStarting(pc: Pc): nat { if pc.Starting? then 1 else 0 }

  ghost function JobsHold(s: State): nat { Total(JobPermits, s.threads) }

  ghost function DrainHolds(s: State): nat { Total(DrainPermits, s.threads) }

  function Goto(s: State, t: Id, pc: Pc): State { s.(threads := s.threads[t := pc]) }

  ghost predicate Enabled(s: State, a: Step) {
    match a
    case Call(t) => t !in s.threads
    case CallShutdown(t) => t !in s.threads
    case ReadClosing(t, _) => t in s.threads && s.threads[t].Entering?
    case Internal(t, left) => t in s.threads && match s.threads[t] {
      case Trying(k) => left < k
      case Admitted(k) => left < k
      case Working(k) => left < k
      case _ => false }
    case Leave(t) => t in s.threads && s.threads[t].Trying?
    case TryAcquire(t, left) => t in s.threads && s.threads[t].Trying? && left < s.threads[t].left
    case ReadClosingAgain(t, left) => t in s.threads && match s.threads[t] {
      case Refused(_, _) => true
      case Rechecking(k) => left < k
      case _ => false }
    // a receive on an empty channel would block
    case Withdraw(t) => t in s.threads && s.threads[t].Withdrawing? && s.occupied > 0
    case Spawn(t, w, left) =>
      t in s.threads && s.threads[t].Admitted? && left < s.threads[t].left && w !in s.threads
    case Release(t) => t in s.threads && s.threads[t].Working? && s.occupied > 0
    case StoreClosing(t) => t in s.threads && s.threads[t].Storing?
    case DoOnce(t, d) => t in s.threads && s.threads[t].Starting? && d !in s.threads
    // a send on a full channel would block
    case DrainOne(t) =>
      t in s.threads && s.threads[t].Draining? && s.threads[t].taken < s.cap && s.occupied < s.cap
    case CloseDrained(t) => t in s.threads && s.threads[t].Draining? && s.threads[t].taken >= s.cap
    case Return(t, ok) => t in s.threads && s.threads[t].Awaiting? && (ok ==> s.closes > 0)
    case Stutter => true
  }

  ghost function Apply(s: State, a: Step): State
    requires Enabled(s, a)
  {
    match a
    case Call(t) => Goto(s, t, Entering)
    case CallShutdown(t) => Goto(s, t, Storing)
    case ReadClosing(t, left) => Goto(s, t, if s.closing then Bounced else Trying(left))
    case Internal(t, left) => Goto(s, t, s.threads[t].(left := left))
    case Leave(t) => Goto(s, t, Outside)
    case TryAcquire(t, left) =>
      if s.occupied < s.cap then Goto(s, t, Rechecking(left)).(occupied := s.occupied + 1)
      else Goto(s, t, Refused(JobsHold(s), DrainHolds(s)))
    case ReadClosingAgain(t, left) =>
      Goto(s, t, match s.threads[t] {
        case Refused(jobs, drain) => if s.closing then Bounced else Denied(jobs, drain)
        case _ => if s.closing then Withdrawing else Admitted(left) })
    case Withdraw(t) => Goto(s, t, Bounced).(occupied := s.occupied - 1)
    case Spawn(t, w, left) => Goto(Goto(s, t, Outside), w, Working(left))
    case Release(t) => Goto(s, t, Outside).(occupied := s.occupied - 1)
    case StoreClosing(t) => Goto(s, t, Starting).(closing := true)
    case DoOnce(t, d) =>
      if s.once then Goto(s, t, Awaiting)
      else Goto(Goto(s, t, Awaiting), d, Draining(0)).(once := true)
    case DrainOne(t) => Goto(s, t, Draining(s.threads[t].taken + 1)).(occupied := s.occupied + 1)
    case CloseDrained(t) => Goto(s, t, Closed(s.threads[t].taken)).(closes := s.closes + 1)
    case Return(t, ok) => Goto(s, t, Stopped(ok))
    case Stutter => s
  }

  predicate SameStage(p: Pc, q: Pc) {
    (p.Trying? && q.Trying?) || (p.Admitted? && q.Admitted?) || (p.Working? && q.Working?)
  }

  lemma InternalStep(s: State, t: Id, pc: Pc)
    requires t in s.threads && SameStage(s.threads[t], pc) && pc.left < s.threads[t].left
    ensures Enabled(s, Internal(t, pc.left)) && Apply(s, Internal(t, pc.left)) == Goto(s, t, pc)
  {
  }

  lemma LeaveStep(s: State, t: Id)
    requires t in s.threads && s.threads[t].Trying?
    ensures Enabled(s, Leave(t)) && Apply(s, Leave(t)) == Goto(s, t, Outside)
  {
  }

  ghost predicate Legal(s: State, run: seq<Step>)
    decreases |run|
  {
    run == [] || (Enabled(s, run[0]) && Legal(Apply(s, run[0]), run[1..]))
  }

  ghost function Run(s: State, run: seq<Step>): State
    requires Legal(s, run)
    decreases |run|
  {
    if run == [] then s else Run(Apply(s, run[0]), run[1..])
  }

  /* ---------- the inductive invariant ---------- */

  ghost predicate Fits(s: State, pc: Pc) {
    match pc
    case Draining(taken) => taken <= s.cap
    case Closed(held) => held == s.cap && s.closes > 0
    case Refused(jobs, drain) => jobs + drain == s.cap && (!s.closing ==> drain == 0)
    case Denied(jobs, drain) => jobs == s.cap && drain == 0
    case Starting => s.closing
    case Awaiting => s.once
    case Stopped(ok) => s.once && (ok ==> s.closes > 0)
    case _ => true
  }

  ghost predicate Inv(s: State) {
    && s.occupied == Total(Permits, s.threads) <= s.cap
    && (s.once ==> s.closing)
    && Total(IsDrain, s.threads) == (if s.once then 1 else 0)
    && Total(IsClosed, s.threads) == s.closes
    && (s.closing && !s.once ==> Total(IsStarting, s.threads) > 0)
    && forall t :: t in s.threads ==> Fits(s, s.threads[t])
  }

  lemma InitInv(cap: nat)
    ensures Inv(Init(cap))
  {
    TotalEmpty<Id, Pc>(Permits);
    TotalEmpty<Id, Pc>(IsDrain);
    TotalEmpty<Id, Pc>(IsClosed);
    TotalEmpty<Id, Pc>(IsStarting);
  }

  /** One thread moves and the invariant holds on, provided the thread accounts
      for every count that the shared variables report. */
  lemma Moved(s: State, s': State, t: Id, pc: Pc)
    requires Inv(s) && s'.threads == s.threads[t := pc] && s'.cap == s.cap
    requires (s.closing ==> s'.closing) && (s.once ==> s'.once) && s.closes <= s'.closes
    requires s'.once ==> s'.closing
    requires Fits(s', pc)
    requires s'.occupied + Of(Permits, s.threads, t) == s.occupied + Permits(pc) && s'.occupied <= s.cap
    requires IsDrain(pc) + (if s.once then 1 else 0) == Of(IsDrain, s.threads, t) + (if s'.once then 1 else 0)
    requires s'.closes + Of(IsClosed, s.threads, t) == s.closes + IsClosed(pc)
    requires s'.closing && !s'.once ==> IsStarting(pc) > 0 || (s.closing && Of(IsStarting, s.threads, t) == 0)
    ensures Inv(s')
  {
    TotalSet(Permits, s.threads, t, pc);
    TotalSet(IsDrain, s.threads, t, pc);
    TotalSet(IsClosed, s.threads, t, pc);
    TotalSet(IsStarting, s.threads, t, pc);
  }

  lemma PermitShares(s: State)
    ensures Total(Permits, s.threads) == JobsHold(s) + DrainHolds(s)
  {
    TotalSplit(JobPermits, DrainPermits, Permits, s.threads);
  }

  lemma NoDrainBeforeOnce(s: State)
    requires Inv(s) && !s.once
    ensures DrainHolds(s) == 0
  {
    if DrainHolds(s) > 0 {
      var d :| d in Units(DrainPermits, s.threads);
      TotalOne(IsDrain, s.threads, d.0);
    }
  }

  lemma StepInv(s: State, a: Step)
    requires Inv(s) && Enabled(s, a)
    ensures Inv(Apply(s, a))
  {
    match a
    case TryAcquire(t, left) => TryAcquireInv(s, t, left);
    case Spawn(t, w, left) => SpawnInv(s, t, w, left);
    case DoOnce(t, d) => DoOnceInv(s, t, d);
    case Stutter =>
    case _ =>
      if a.StoreClosing? || a.DrainOne? || a.CloseDrained? || a.Return? {
        ShutdownStepInv(s, a);
      } else if a.ReadClosingAgain? || a.Withdraw? || a.Release? {
        HolderStepInv(s, a);
      } else {
        ArrivalStepInv(s, a);
      }
  }

  lemma ShutdownStepInv(s: State, a: Step)
    requires Inv(s) && Enabled(s, a)
    requires a.StoreClosing? || a.DrainOne? || a.CloseDrained? || a.Return?
    ensures Inv(Apply(s, a))
  {
    Moved(s, Apply(s, a), a.t, Apply(s, a).threads[a.t]);
  }

  lemma HolderStepInv(s: State, a: Step)
    requires Inv(s) && Enabled(s, a)
    requires a.ReadClosingAgain? || a.Withdraw? || a.Release?
    ensures Inv(Apply(s, a))
  {
    Moved(s, Apply(s, a), a.t, Apply(s, a).threads[a.t]);
  }

  lemma ArrivalStepInv(s: State, a: Step)
    requires Inv(s) && Enabled(s, a)
    requires a.Call? || a.CallShutdown? || a.ReadClosing? || a.Internal? || a.Leave?
    ensures Inv(Apply(s, a))
  {
    Moved(s, Apply(s, a), a.t, Apply(s, a).threads[a.t]);
  }

  lemma TryAcquireInv(s: State, t: Id, left: nat)
    requires Inv(s) && Enabled(s, TryAcquire(t, left))
    ensures Inv(Apply(s, TryAcquire(t, left)))
  {
    var s' := Apply(s, TryAcquire(t, left));
    PermitShares(s);
    if !s.closing { NoDrainBeforeOnce(s); }
    Moved(s, s', t, s'.threads[t]);
  }

  lemma SpawnInv(s: State, t: Id, w: Id, left: nat)
    requires Inv(s) && Enabled(s, Spawn(t, w, left))
    ensures Inv(Apply(s, Spawn(t, w, left)))
  {
    TotalOne(Permits, s.threads, t);
    var mid := Goto(s, t, Outside).(occupied := s.occupied - 1);
    Moved(s, mid, t, Outside);
    Moved(mid, Apply(s, Spawn(t, w, left)), w, Working(left));
  }

  lemma DoOnceInv(s: State, t: Id, d: Id)
    requires Inv(s) && Enabled(s, DoOnce(t, d))
    ensures Inv(Apply(s, DoOnce(t, d)))
  {
    var s' := Apply(s, DoOnce(t, d));
    if s.once {
      Moved(s, s', t, Awaiting);
    } else {
      var mid := Goto(s, d, Draining(0)).(once := true);
      Moved(s, mid, d, Draining(0));
      assert s'.threads == mid.threads[t := Awaiting];
      Moved(mid, s', t, Awaiting);
    }
  }

  lemma {:induction false} RunInv(s: State, run: seq<Step>)
    requires Inv(s) && Legal(s, run)
    ensures Inv(Run(s, run))
    decreases |run|
  {
    if run != [] {
      StepInv(s, run[0]);
      RunInv(Apply(s, run[0]), run[1..]);
    }
  }

  /* ---------- safety ---------- */

  /** No permit is lost or made: the channel holds exactly the permits of the
      jobs and of the drain, never more than its capacity. */
  lemma Conservation(cap: nat, run: seq<Step>)
    requires Legal(Init(cap), run)
    ensures var s := Run(Init(cap), run);
      s.occupied == JobsHold(s) + DrainHolds(s) <= s.cap
  {
    InitInv(cap);
    RunInv(Init(cap), run);
    PermitShares(Run(Init(cap), run));
  }

  /** Giving a permit back never blocks, because whoever gives it back is
      counted in the channel. */
  lemma ReleaseNeverBlocks(s: State, t: Id)
    requires Inv(s) && t in s.threads
    ensures s.threads[t].Withdrawing? ==> Enabled(s, Withdraw(t))
    ensures s.threads[t].Working? ==> Enabled(s, Release(t))
  {
    TotalOne(Permits, s.threads, t);
  }

  /** Once `drained` is closed, no thread but the drain holds a permit. */
  lemma QuietState(s: State)
    requires Inv(s) && s.closes > 0
    ensures s.closes == 1 && JobsHold(s) == 0 && s.occupied == s.cap
    ensures forall t :: t in s.threads ==> JobPermits(s.threads[t]) == 0
  {
    var u :| u in Units(IsClosed, s.threads);
    TotalOne(DrainPermits, s.threads, u.0);
    PermitShares(s);
    TotalAtMost(IsClosed, IsDrain, s.threads);
    forall t | t in s.threads ensures JobPermits(s.threads[t]) == 0 {
      TotalOne(JobPermits, s.threads, t);
    }
  }

  lemma ClosesStay(s: State, a: Step)
    requires Enabled(s, a)
    ensures Apply(s, a).closes >= s.closes
  {
  }

  lemma {:induction false} DrainedStays(s: State, run: seq<Step>)
    requires Inv(s) && Legal(s, run)
    ensures Run(s, run).closes >= s.closes
    ensures s.closing ==> Run(s, run).closing
    decreases |run|
  {
    if run != [] {
      StepInv(s, run[0]);
      DrainedStays(Apply(s, run[0]), run[1..]);
    }
  }

  /** Drained means quiet: in every run, once `drained` is closed no thread is
      between admission and release, and in no continuation is one ever again. */
  lemma DrainedIsQuiet(cap: nat, before: seq<Step>, after: seq<Step>)
    requires Legal(Init(cap), before) && Legal(Run(Init(cap), before), after)
    requires Run(Init(cap), before).closes > 0
    ensures var s := Run(Run(Init(cap), before), after);
      s.closes == 1 && forall t :: t in s.threads ==> JobPermits(s.threads[t]) == 0
  {
    var s := Run(Init(cap), before);
    InitInv(cap);
    RunInv(Init(cap), before);
    RunInv(s, after);
    DrainedStays(s, after);
    QuietState(Run(s, after));
  }

  lemma OneDrain(s: State)
    requires Inv(s)
    ensures s.closes <= 1
    ensures forall a, b :: a in s.threads && b in s.threads && IsDrain(s.threads[a]) == IsDrain(s.threads[b]) == 1 ==> a == b
  {
    TotalAtMost(IsClosed, IsDrain, s.threads);
    forall a, b | a in s.threads && b in s.threads && IsDrain(s.threads[a]) == IsDrain(s.threads[b]) == 1
      ensures a == b
    {
      if a != b { TotalTwo(IsDrain, s.threads, a, b); }
    }
  }

  /** A Shutdown that returned nil has drained; all Shutdown calls together
      start one drain and close `drained` at most once. */
  lemma ShutdownNil(cap: nat, run: seq<Step>)
    requires Legal(Init(cap), run)
    ensures var s := Run(Init(cap), run);
      && s.closes <= 1
      && (forall a, b :: a in s.threads && b in s.threads && IsDrain(s.threads[a]) == IsDrain(s.threads[b]) == 1 ==> a == b)
      && forall t :: t in s.threads && s.threads[t] == Stopped(true) ==> s.closes == 1 && JobsHold(s) == 0
  {
    var s := Run(Init(cap), run);
    InitInv(cap);
    RunInv(Init(cap), run);
    OneDrain(s);
    if s.closes > 0 { QuietState(s); }
  }

  /** "No capacity" is answered only when, at that caller's failed attempt,
      callers and jobs held every permit and the drain held none. */
  lemma HonestRefusal(cap: nat, run: seq<Step>, t: Id)
    requires Legal(Init(cap), run)
    ensures var s := Run(Init(cap), run);
      t in s.threads && s.threads[t].Denied? ==> s.threads[t] == Denied(cap, 0)
  {
    InitInv(cap);
    RunInv(Init(cap), run);
    CapFixed(Init(cap), run);
  }

  lemma {:induction false} CapFixed(s: State, run: seq<Step>)
    requires Legal(s, run)
    ensures Run(s, run).cap == s.cap
    decreases |run|
  {
    if run != [] { CapFixed(Apply(s, run[0]), run[1..]); }
  }

  lemma CapFixedStep(s: State, a: Step)
    requires Enabled(s, a)
    ensures Apply(s, a).cap == s.cap
  {
  }

  lemma LateCallerStep(s: State, a: Step, t: Id)
    requires s.closing && Enabled(s, a) && t in s.threads && (s.threads[t].Entering? || s.threads[t].Bounced?)
    ensures Apply(s, a).closing && t in Apply(s, a).threads
    ensures Apply(s, a).threads[t].Entering? || Apply(s, a).threads[t].Bounced?
  {
  }

  /** A call that begins once `closing` is stored can only be answered
      "shutting down", and never holds a permit. */
  lemma {:induction false} LateCallersBounce(s: State, run: seq<Step>, t: Id)
    requires s.closing && Legal(s, run)
    requires t in s.threads && (s.threads[t].Entering? || s.threads[t].Bounced?)
    ensures var s' := Run(s, run);
      t in s'.threads && (s'.threads[t].Entering? || s'.threads[t].Bounced?)
    decreases |run|
  {
    if run != [] {
      LateCallerStep(s, run[0], t);
      LateCallersBounce(Apply(s, run[0]), run[1..], t);
    }
  }

  /* ---------- progress ---------- */

  function WorkLeft(cap: nat): Pc -> nat {
    (pc: Pc) => match pc
      case Trying(left) => left + 1
      case Rechecking(left) => left + 1
      case Admitted(left) => left + 1
      case Working(left) => left + 1
      case Refused(_, _) => 1
      case Withdrawing => 1
      case Draining(taken) => if taken < cap then cap - taken + 1 else 1
      case _ => 0
  }

  /** What is left to do before `drained` closes. */
  ghost function Measure(s: State): nat {
    Total(WorkLeft(s.cap), s.threads) + (if s.once then 0 else s.cap + 2)
  }

  /** Steps that do not count as progress: arrivals, calls that bounce at the
      door, and Shutdown calls other than the one that starts the drain. */
  ghost predicate Bouncing(s: State, a: Step) {
    || a.Call? || a.CallShutdown? || a.ReadClosing? || a.StoreClosing? || a.Return? || a.Stutter?
    || (a.DoOnce? && s.once)
  }

  lemma ProgressStep(s: State, a: Step)
    requires Inv(s) && s.closing && Enabled(s, a)
    ensures Measure(Apply(s, a)) <= Measure(s)
    ensures !Bouncing(s, a) ==> Measure(Apply(s, a)) < Measure(s)
  {
    if a.Spawn? {
      SpawnLess(s, a.t, a.w, a.left);
    } else if a.DoOnce? {
      DoOnceLess(s, a.t, a.d);
    } else if !a.Stutter? {
      MovedLess(s, a);
    }
  }

  lemma SpawnLess(s: State, t: Id, w: Id, left: nat)
    requires Enabled(s, Spawn(t, w, left))
    ensures Measure(Apply(s, Spawn(t, w, left))) < Measure(s)
  {
    TotalSet(WorkLeft(s.cap), s.threads, t, Outside);
    TotalSet(WorkLeft(s.cap), s.threads[t := Outside], w, Working(left));
  }

  lemma DoOnceLess(s: State, t: Id, d: Id)
    requires Enabled(s, DoOnce(t, d))
    ensures Measure(Apply(s, DoOnce(t, d))) + (if s.once then 0 else 1) == Measure(s)
  {
    TotalSet(WorkLeft(s.cap), s.threads, t, Awaiting);
    if !s.once { TotalSet(WorkLeft(s.cap), s.threads[t := Awaiting], d, Draining(0)); }
  }

  lemma MovedLess(s: State, a: Step)
    requires s.closing && Enabled(s, a) && !a.Spawn? && !a.DoOnce? && !a.Stutter?
    ensures Measure(Apply(s, a)) <= Measure(s)
    ensures !Bouncing(s, a) ==> Measure(Apply(s, a)) < Measure(s)
  {
    var s', f := Apply(s, a), WorkLeft(s.cap);
    var pc := s'.threads[a.t];
    assert s'.threads == s.threads[a.t := pc];
    TotalSet(f, s.threads, a.t, pc);
    var was := if a.t in s.threads then f(s.threads[a.t]) else 0;
    assert f(pc) <= was && (!Bouncing(s, a) ==> f(pc) < was);
  }

  ghost function ProgressCount(s: State, run: seq<Step>): nat
    requires Legal(s, run)
    decreases |run|
  {
    if run == [] then 0
    else (if Bouncing(s, run[0]) then 0 else 1) + ProgressCount(Apply(s, run[0]), run[1..])
  }

  /** Once `closing` is stored, however many calls still arrive, the protocol
      takes at most `Measure` more steps that are not bounces. */
  lemma {:induction false} DrainTerminates(s: State, run: seq<Step>)
    requires Inv(s) && s.closing && Legal(s, run)
    ensures ProgressCount(s, run) + Measure(Run(s, run)) <= Measure(s)
    decreases |run|
  {
    if run != [] {
      ProgressStep(s, run[0]);
      StepInv(s, run[0]);
      DrainTerminates(Apply(s, run[0]), run[1..]);
    }
  }

  /** Until `drained` closes some thread can move: the Shutdown call that will
      start the drain, the drain itself, or a thread that holds a permit. */
  lemma NeverStuck(s: State) returns (t: Id)
    requires Inv(s) && s.closing && s.closes == 0
    ensures t in s.threads
    ensures
      || (s.threads[t].Starting? && !s.once)
      || Enabled(s, DrainOne(t))
      || Enabled(s, CloseDrained(t))
      || JobPermits(s.threads[t]) == 1
  {
    if !s.once {
      t := TotalSome(IsStarting, s.threads);
    } else {
      t := TotalSome(IsDrain, s.threads);
      if s.threads[t].Closed? { TotalOne(IsClosed, s.threads, t); }
      if s.threads[t].taken < s.cap && s.occupied == s.cap {
        var d := t;
        t := TotalElsewhere(Permits, s.threads, d);
        if IsDrain(s.threads[t]) == 1 { TotalTwo(IsDrain, s.threads, d, t); }
      }
    }
  }
}
