# Verified model of identity-go

This project models the parts of identity-go whose guarantees rest on the order
of steps, on copies of copies, or on an encoding having an inverse, and proves
those guarantees for every run. `dafny verify dfyconfig.toml` checks all of it.

**Admission and drain.** A buffered channel is the permit pool of the enricher
and of the impression reporter. `Admission` is the protocol both follow, as a
labelled transition system: any number of callers, background goroutines and
`Shutdown` calls, one atomic operation per step. `ReporterProtocol` and
`EnricherProtocol` add what each component does between those operations
(metrics, panics, the hybrid completion channel, cache writes), one program
counter per thread, and are shown to refine it step by step (`Refines`).
`ReporterModule.Reporter` and `EnricherModule.Enricher` are the source's own
methods over fields. Their ghost field `trace` is every step taken so far, and
`Valid()` says that it is a legal run of the protocol from the start to the
present fields. A method that is one atomic operation states that exactly one
step, of its own thread, was added to `trace` (`OneStep`), and what it changed:
that thread's place, the counter, the permit, the channel, and nothing else.
Between two such operations a longer method calls `Interference`, whose contract
allows the other threads any steps and its own none. A longer method states that
the old `trace` is a prefix of the new one; by `WentOn`, the state it ends in is
then the end of a legal run from the very state it began in. So a theorem about
reachable states holds at every moment of every interleaving of the methods.

**The two-layer cache.** `IdentityCacheModule.IdentityCache` is the cache as the
source has it, proved against `CacheLayers`: a first-match reference for
lookups and functions for the writes. Any access may fail, as `Faults` has it,
and every reading of the clock is its own, as `Clock` has it. No other thread
runs during an operation here. `CacheThreads` is the finer model: Enrich calls
and background goroutines share the layers, every layer access and clock reading
is a step of its own, the clock may move between any two of them, L1 and the
store may drop entries, and any access may fail. Each entry carries, as history,
the stored result it descends from, the lookups it was copied through and the
clock advance inside those copies.

`CacheAloneRuns` connects the two: every run of a call in which no other thread
moves, whatever fails in it and however the clock moves, ends as the coarser
model says for exactly the failures and clock readings of that run (`Foretold`),
and for every choice of failures there is such a run. `CacheRuns` and
`CacheStability` are about sequences of whole operations that do not overlap.
What overlapping operations do to the layers is in `CacheSteps`, and which
overlapping calls reach the API in `CacheFlights` and `CacheOrder`.

**Both together.** `EnricherCache` runs `EnricherProtocol` and `CacheThreads` side
by side: a step of the one that stands for cache work waits until the other has
done it, and the API call is one step of both. What either model proves of its
reachable states holds of its part, and a drained enricher is shown to have
nothing left to mark or store for a background call.

**Keys and queries.** `CacheKeys` holds the passes of key extraction as loops
over the auction. `Params` builds the request URL in a builder; `Query` and
`Percent` hold the parser that reads it back.

**Field by field.** The functions that the methods are proved against are pinned
down in turn by statements about the inputs' own fields: `AssessExactly` (which
request waits, is refused or goes to the background), `CacheContents` (what every
write, backfill and lookup leaves in and takes from the layers), `LastsExactly`
(lifetimes), `Resolving.Tells` and `Resolving.Reads` (what of an answer of the API
is kept), `EnricherMetrics` (what each metric counts), `KeyFields` (what keys are
made of), `ParamFields` (which parameter is sent when, and with what), and
`WhiteSpace` (what is blank).

Main results, by their names below: `DrainedIsQuiet`, `NeverStuck` and
`DrainTerminates`, `DrainedIsSettled`, `MetricConservation`, `HonestRefusal`,
`LastLookDecides`;
`ServedIsAnEarlierAnswer`, `CeilingBound`, `TimersCover`, `TurnsKeepStep`,
`SingleFlight` and `BothCallExactly`, `EveryEnrich`; `RepeatedSubLookup`,
`RetryAfterUncacheable`; `MetricsExact`, `ReportsItsURL`; `OneCandidateEach`,
`ExtractedExactly`, `URLParses`, `SentExactly`, `SentUIDIsFirstKey`.

Where the code is weaker than one might expect, the model keeps the code:

- A panic in a report is counted after the permit is back, so a drained
  reporter may still have an error to count. `ReporterProtocol.DrainedIsQuiet`
  gives the exact condition and `PanicRecordedAfterDrain` a run.
- L1 and the store are written one after the other, without a lock. Two calls
  that write the same key at once can leave different live answers in the two
  layers, with no failure at all: `RaceBreaksStep` gives the run. A promotion
  that a write overtakes does the same, though no thread acts between another's
  two writes: `PromotionBreaksStep`. `TurnsKeepStep` says when neither happens:
  in every run in which, for the key, no thread begins its two writes while
  another is between its own or promotes the key, none reads the key to promote
  it while another is between its two writes, and no write of an answer fails,
  the layers are in step, or L1 holds what a thread between its two writes is
  about to put in the store. For a single write and a single promotion,
  `WriteExactly` and `PromoteExactly` say exactly when the key is in step after it.
- A failed write of an answer leaves the layers out of step:
  `FailedSetBreaksStep` and `FailedPutBreaksStep` give runs, and `WriteCoherent`
  the exact condition for one write. Failed reads do no harm.
- A lookup and the markers written after it are separate steps, so two calls
  for the same keys may both reach the API: `BothCall` gives a run.
  `BothCallExactly` says when two calls do, by the order of their steps: each has
  read every key they share before the other puts its marker there.
  `SingleFlight` says that a call which reads a marker alive does not.
- A backfill reads the clock once for the remaining lifetime and again for each
  alias. With a clock that moves in between, an alias may outlive its source:
  `AliasOutlives` says exactly when, `MovingClock` gives a run, and
  `ServedIsAnEarlierAnswer` bounds the excess by the clock advance.
- `PutNegative` cuts a lifetime from the API to the first-party ceiling under
  every key type, and does not cut its default. `NegativeWithinCeiling` says
  exactly when a negative stays within its own key's ceiling,
  `NegativeOutlivesCeiling` gives a run in which one does not, and
  `CeilingBound` the bound that always holds.
- Key strings of different namespaces can be equal: `PartnerCollision` says
  exactly when, `CollidingAuction` gives an auction.

## Model

| member | source | states |
|---|---|---|
| Admission.StepInv | reporting/reporter.go:67-186 | the inductive invariant of the permit protocol: channel length is the permits of threads and drain, at most one drain, nothing admitted once drained |
| Admission.Conservation | reporting/limiter.go:8-27 | in every run the channel length is exactly the permits of callers, jobs and the drain, within capacity |
| Admission.ReleaseNeverBlocks | enrichment/limiter.go:17-19 | whoever returns a permit finds one in the channel |
| Admission.DrainedIsQuiet | enrichment/resolver.go:275-290 | once drained is closed no thread holds a permit, in that state or any continuation |
| Admission.ShutdownNil | reporting/reporter.go:168-186 | overlapping Shutdowns start one drain and close at most once; nil is returned only when drained |
| Admission.HonestRefusal | reporting/reporter.go:73-81 | a refused caller saw every permit with callers and jobs and none with the drain |
| Admission.LateCallersBounce | reporting/reporter.go:67-71 | a call starting after closing is stored never gets past the first check |
| Admission.ProgressStep | enrichment/limiter.go:23-27 | after closing, every step that is not a bounce lowers the measure |
| Admission.DrainTerminates | enrichment/resolver.go:275-283 | any run after closing has at most Measure steps that are not bounces |
| Admission.NeverStuck | enrichment/resolver.go:275-283 | until drained closes some thread that matters can move |
| LimiterModule.Limiter.TryAcquire | enrichment/limiter.go:8-15 | takes a permit exactly when one is free |
| LimiterModule.Limiter.Release | enrichment/limiter.go:17-19 | gives one permit back |
| LimiterModule.Limiter.constructor | enrichment/limiter.go:29-34 | a non-positive maximum gives a channel of capacity zero |
| ReporterProtocol.Refines | reporting/reporter.go:67-186 | every reporter step is a step of the permit protocol |
| ReporterProtocol.StepBooks | reporting/reporter.go:109-166 | every step keeps the metric books |
| ReporterProtocol.DrainedIsQuiet | reporting/reporter.go:109-186 | drained means no report holds a permit ever again; every accepted report is then counted if and only if no panic is still being recorded |
| ReporterProtocol.PanicRecordedAfterDrain | reporting/reporter.go:109-119 | a reachable state in which drained is closed before a panic is counted |
| ReporterProtocol.CapacityBound | reporting/reporter.go:83-119 | the permits and the started-minus-finished gauge stay within capacity, and no Release blocks |
| ReporterProtocol.MetricConservation | reporting/reporter.go:137-166 | accepted = in flight + reported + errors + empty; every rejection is counted under its own reason |
| ReporterProtocol.HonestRefusal | reporting/reporter.go:73-81 | at_capacity only if at the failed acquire callers and reports held every permit |
| ReporterProtocol.LateCallsAreShutOut | reporting/reporter.go:67-71 | a call beginning after closing is stored is answered shutting down |
| ReporterProtocol.ShutdownNil | reporting/reporter.go:178-185 | nil implies drained, no report holding a permit, started equal to finished |
| ReporterProtocol.OneDrain | reporting/reporter.go:171-176 | one drain, at most one close, and reports are cancelled only once closing is stored |
| ReporterProtocol.DrainTerminates | reporting/reporter.go:168-186 | bounded number of steps after closing, however many calls arrive |
| ReporterProtocol.NeverStuck | reporting/reporter.go:168-186 | until drained closes some reporter step other than a bounce is enabled |
| ReporterProtocol.ReportsItsURL | reporting/reporter.go:89-118 | from a call to the end of its goroutine: the API is called exactly once if that call had a URL, and never, the report ending as empty once, if it had none |
| ReporterModule.Reporter.constructor | reporting/reporter.go:40-65 | a new reporter is the initial protocol state with no threads |
| ReporterModule.Reporter.TryReport | reporting/reporter.go:67-94 | from entry with this request to the answer its thread reached; shutting down if closing was stored before; accepted only by starting a new goroutine on this request's URL |
| ReporterModule.Reporter.LoadClosing | reporting/reporter.go:68-86 | one step: the value read is closing, and decides the branch each of the three loads takes |
| ReporterModule.Reporter.Acquire | reporting/reporter.go:73-94 | past the first load: at capacity only if the channel was full at the attempt, accepted only if it was not and by starting a new goroutine on this URL |
| ReporterModule.Reporter.TryAcquire | reporting/reporter.go:73-73 | one step: succeeds exactly when a permit is free, takes one, and a refused thread records who held them |
| ReporterModule.Reporter.Refuse | reporting/reporter.go:74-80 | a refused call is shutting down if closing was stored by then, else at capacity |
| ReporterModule.Reporter.Admit | reporting/reporter.go:83-93 | an admitted call gives its permit back if closing was stored by then, else starts a new goroutine on its URL |
| ReporterModule.Reporter.Reject | reporting/reporter.go:137-143 | one step: one rejection is counted under its own reason |
| ReporterModule.Reporter.Withdraw | reporting/reporter.go:83-85 | one step: one permit goes back |
| ReporterModule.Reporter.Announce | reporting/reporter.go:90-90 | one step: the gauge goes up before the goroutine exists |
| ReporterModule.Reporter.Launch | reporting/reporter.go:91-93 | one step: a new thread starts on this URL with the permit as the caller is answered accepted |
| ReporterModule.Reporter.Run | reporting/reporter.go:109-119 | from start to end by protocol steps, panic included; with a URL its API call ends as it did |
| ReporterModule.Reporter.Report | reporting/reporter.go:145-166 | with a URL the API call is made and ends as it did; panics exactly if it panics |
| ReporterModule.Reporter.StartReport | reporting/reporter.go:145-148 | one step: an empty URL ends the report, counted as empty, without a call |
| ReporterModule.Reporter.CallAPI | reporting/reporter.go:158-158 | one step: the call returns or panics, and a panic skips its metrics |
| ReporterModule.Reporter.CountOutcome | reporting/reporter.go:158-165 | one step: one report or one error is counted, as the call went |
| ReporterModule.Reporter.Finish | reporting/reporter.go:116-116 | one step: the gauge goes down while the permit is still held |
| ReporterModule.Reporter.GiveBack | reporting/reporter.go:115-115 | one step: one permit goes back, after which only a panic remains to be recorded |
| ReporterModule.Reporter.RecordPanic | reporting/reporter.go:121-127 | one step: one error is counted for the panic |
| ReporterModule.Reporter.Shutdown | reporting/reporter.go:168-186 | from entry on by protocol steps; returns exactly if drained is closed or the context done, and nil exactly if drained is closed and the select does not prefer the context; nil implies that no report holds a permit |
| ReporterModule.Reporter.StoreClosing | reporting/reporter.go:169-169 | one step: closing is set |
| ReporterModule.Reporter.StartDrain | reporting/reporter.go:171-176 | one step: a drain thread is started exactly if none was before |
| ReporterModule.Reporter.Return | reporting/reporter.go:178-185 | one step: reports are cancelled as the call returns |
| ReporterModule.Reporter.Drain | reporting/limiter.go:23-27 | every round takes a free slot or finds the channel full; through, with drained closed, exactly if the rounds outnumber the capacity and the blocked ones |
| ReporterModule.Reporter.SendOne | reporting/limiter.go:24-26 | one step if a slot is free, which it takes; else nothing |
| ReporterModule.Reporter.CloseDrained | reporting/reporter.go:174-174 | one step: drained is closed once all permits are taken |
| ReporterModule.WentOn | reporting/reporter.go:67-186 | between an earlier and a later moment of an object lies a legal run of the protocol from the one state to the other |
| EnricherProtocol.AssessExactly | enrichment/enrichment.go:68-76 | each verdict from the request's own fields: patient without a wait or with one not below the budget, async with a wait of zero, hybrid with one between, refused exactly by its own checks |
| EnricherProtocol.Refines | enrichment/resolver.go:101-308 | every enricher step is a step of the permit protocol |
| EnricherProtocol.StepLocal | enrichment/resolver.go:199-393 | every step keeps the metric books, the hand-off between caller and worker, and the count of cache writes |
| EnricherTheorems.DrainedIsQuiet | enrichment/resolver.go:199-290 | once drained is closed, and ever after, no background call is between admission and release and every background cache write has finished |
| EnricherTheorems.ShutdownNil | enrichment/resolver.go:275-290 | a nil return implies the same |
| EnricherTheorems.OneDrain | enrichment/resolver.go:277-282 | overlapping Shutdowns start one drain; drained is closed at most once |
| EnricherTheorems.CapacityBound | enrichment/resolver.go:206-273 | the channel holds exactly the permits of calls and drain; the gauge stays within capacity |
| EnricherTheorems.NeverBlocks | enrichment/resolver.go:254-273 | neither Release nor the send on the one-slot channel ever blocks, even after the caller left |
| EnricherTheorems.LastLookDecides | enrichment/resolver.go:292-313 | at its last look the caller takes its worker's outcome if sent, and expires exactly if not |
| EnricherTheorems.HandedOver | enrichment/resolver.go:254-308 | the caller returns its own worker's outcome; a finished worker stored its result exactly once if cacheable, else never |
| EnricherTheorems.MetricConservation | enrichment/resolver.go:101-367 | requests = enriched + not-enriched without wait_expired + API errors + silent returns + in flight; wait_expired never exceeds BackgroundStarted |
| EnricherMetrics.MetricsExact | enrichment/resolver.go:101-367 | in every interleaving each of the metrics is the number of calls and workers with its own event behind them |
| EnricherTheorems.HonestRefusal | enrichment/resolver.go:206-212 | background_limit only if calls held every permit and the drain none at the failed acquire |
| EnricherTheorems.LateCallsAreShutOut | enrichment/resolver.go:101-104 | a call beginning after closing is stored is answered shutting down |
| EnricherTheorems.DrainTerminates | enrichment/resolver.go:206-283 | bounded number of steps after closing, however many calls arrive |
| EnricherTheorems.NeverStuck | enrichment/resolver.go:206-283 | until drained closes some enricher step other than a bounce is enabled |
| EnricherModule.Enricher.constructor | enrichment/resolver.go:76-99 | a new enricher is the initial protocol state with no threads |
| EnricherModule.Enricher.Enrich | enrichment/resolver.go:101-128 | shut out if closing was stored before; otherwise refused, cached, its own outcome or in the background exactly as this request's fields and the cache have it; in the background it starts a new worker, with a channel exactly if its wait is positive |
| EnricherModule.Enricher.Begin | enrichment/resolver.go:102-104 | one step: the first look at closing, and the branch it decides |
| EnricherModule.Enricher.Attempt | enrichment/resolver.go:106-128 | refused exactly if the fields say so, cached exactly if keyed and found, its own outcome exactly if it is to wait; in the background shut out exactly if its second look at closing says so, else at the limit exactly if its attempt found the pool full, else with a new worker |
| EnricherModule.Enricher.Serve | enrichment/resolver.go:124-127 | from the cache exactly if keyed and found; otherwise scheduled in its mode |
| EnricherModule.Enricher.CountRequest | enrichment/resolver.go:106-106 | one step: one request is counted |
| EnricherModule.Enricher.Plan | enrichment/resolver.go:108-139 | one step: no endpoint, refused, or the mode and use of keys, each exactly by the request's fields, with its metric or silent return |
| EnricherModule.Enricher.LookupCache | enrichment/resolver.go:141-175 | one step: a hit, negative or in-progress answer returns at once and is counted under its own metric; a miss goes on |
| EnricherModule.Enricher.Schedule | enrichment/resolver.go:199-243 | sync calls skip the limiter and give their own outcome; others are shut out exactly if their second look at closing says so, else at the limit exactly if their attempt found the pool full; handed a result only in hybrid mode |
| EnricherModule.Enricher.Admit | enrichment/resolver.go:213-243 | shut out, with the permit back, exactly if closing at its look; else it starts a new worker, with a channel exactly in hybrid mode |
| EnricherModule.Enricher.Acquire | enrichment/resolver.go:206-206 | one step: succeeds exactly when a permit is free, takes one, and a refused thread records who held them |
| EnricherModule.Enricher.Refuse | enrichment/resolver.go:207-211 | one step: shutting down, uncounted, if closing by then; else background_limit, counted |
| EnricherModule.Enricher.Recheck | enrichment/resolver.go:213-215 | one step: the second look at closing, and the branch it decides |
| EnricherModule.Enricher.Withdraw | enrichment/resolver.go:215-218 | one step: one permit goes back and the call is shut out |
| EnricherModule.Enricher.RunBounded | enrichment/resolver.go:321-328 | a sync call returns its own outcome and has stored it exactly once if keyed and cacheable, else never |
| EnricherModule.Enricher.CallOwn | enrichment/resolver.go:332-332 | one step: the outcome is the API's |
| EnricherModule.Enricher.NoteOwn | enrichment/resolver.go:336-366 | one step: the metric of the outcome: an API error, not enriched without identifiers or body, enriched with identifiers; only a failed call skips the cache |
| EnricherModule.Enricher.StoreOwn | enrichment/resolver.go:369-393 | one step: one cache write by this thread if keyed and cacheable |
| EnricherModule.Enricher.Background | enrichment/resolver.go:219-243 | async callers expire at once; hybrid callers expire or are handed a result |
| EnricherModule.Enricher.StartBackground | enrichment/resolver.go:219-257 | a new worker of this caller, which waits for it on an empty channel exactly in hybrid mode, started and not yet counted as finished |
| EnricherModule.Enricher.Announce | enrichment/resolver.go:219-219 | one step: the gauge goes up before the goroutine exists |
| EnricherModule.Enricher.Launch | enrichment/resolver.go:238-257 | one step: a new thread starts with the permit and, in hybrid mode, an empty channel to its caller |
| EnricherModule.Enricher.WaitForResult | enrichment/resolver.go:292-308 | a result that is there first is the answer; otherwise the answer is exactly what the channel held at the last look after the timer |
| EnricherModule.Enricher.TimeOut | enrichment/resolver.go:298-306 | the answer is exactly what the channel held at the last look: its result, or wait_expired if it was empty |
| EnricherModule.Enricher.LookOnce | enrichment/resolver.go:301-306 | one step: takes exactly the waiting result, and expires exactly if there is none |
| EnricherModule.Enricher.Receive | enrichment/resolver.go:296-303 | one step: the channel's only element is taken and answered |
| EnricherModule.Enricher.WaitExpire | enrichment/resolver.go:310-313 | one step: one wait_expired is counted |
| EnricherModule.Enricher.RunBackground | enrichment/resolver.go:254-273 | from start to end by protocol steps; the result is stored exactly once if cacheable, else never |
| EnricherModule.Enricher.Resolve | enrichment/resolver.go:261-261 | one step: the outcome is the API's |
| EnricherModule.Enricher.NoteOutcome | enrichment/resolver.go:336-366 | one step: the same metric; hybrid workers send next |
| EnricherModule.Enricher.Send | enrichment/resolver.go:264-268 | one step: the channel, which was empty, holds exactly this outcome |
| EnricherModule.Enricher.StoreResult | enrichment/resolver.go:269-271 | one step: one cache write by this thread if cacheable |
| EnricherModule.Enricher.Finish | enrichment/resolver.go:257-257 | one step: the gauge goes down while the permit is still held |
| EnricherModule.Enricher.GiveBack | enrichment/resolver.go:258-258 | one step, the last: one permit goes back |
| EnricherModule.Enricher.Shutdown | enrichment/resolver.go:275-290 | from entry on by protocol steps; returns exactly if drained is closed or the context done, and nil exactly if drained is closed and the select does not prefer the context; nil implies a quiet state |
| EnricherModule.Enricher.StoreClosing | enrichment/resolver.go:276-276 | one step: closing is set |
| EnricherModule.Enricher.StartDrain | enrichment/resolver.go:277-282 | one step: a drain thread is started exactly if none was before |
| EnricherModule.Enricher.Return | enrichment/resolver.go:284-289 | one step: nil only in a quiet state |
| EnricherModule.Enricher.Drain | enrichment/limiter.go:23-27 | every round takes a free slot or finds the channel full; through, with drained closed, exactly if the rounds outnumber the capacity and the blocked ones |
| EnricherModule.Enricher.SendOne | enrichment/limiter.go:24-26 | one step if a slot is free, which it takes; else nothing |
| EnricherModule.Enricher.CloseDrained | enrichment/resolver.go:280-280 | one step: drained is closed once all permits are taken |
| EnricherModule.WentOn | enrichment/resolver.go:101-290 | between an earlier and a later moment of an object lies a legal run of the protocol from the one state to the other |
| EnricherCache.StepJoined | enrichment/resolver.go:124-273 | every step of enricher and cache work keeps each call at the same place in both models, with the outcome that was resolved |
| EnricherCache.OutcomeExactly | enrichment/resolver.go:336-366 | a failed call, an empty body, a body without identifiers and one with them are the four outcomes |
| EnricherCache.ReachableInv | enrichment/resolver.go:101-393 | each part of a reachable joint state is reachable in its own model |
| EnricherCache.DrainedIsSettled | enrichment/resolver.go:254-290 | once drained is closed, and ever after, the cache work of every background call is done with the response its worker resolved, and whatever still marks or stores is a synchronous call |
| EnricherCache.WorkerGoesOn | enrichment/resolver.go:254-273 | a worker, or the cache work it waits for, can always take a step |
| EnricherCache.CallerGoesOn | enrichment/resolver.go:199-252 | so can a caller that marks, or calls and stores itself |
| CacheEntry.LeastSeconds | cache/memory.go:44-53 | the seconds given to L1 are the least positive number covering the lifetime |
| CacheEntry.LastsExactly | cache/ttl.go:18-45 | an answer's lifetime is its own or the default, cut to the ceiling of its key's type; a negative's is its own cut to the first-party ceiling, or the negative default |
| CacheEntry.LiveExactly | cache/entry.go:72-74 | an entry lives until the millisecond it expires in begins |
| CacheEntry.ExpiryExactly | cache/entry.go:55-57 | a lifetime in whole milliseconds expires in the millisecond in which it ends |
| CacheEntry.L1CoversExpiry | cache/memory.go:40-53 | L1's own timer, counted from a hand-over not before the stamp, ends no earlier than the entry |
| CacheEntry.L2CoversExpiry | cache/cache.go:174-185 | the store's lifetime covers the entry exactly if it is not negative or its part of a millisecond has already passed of the current one |
| CacheEntry.StoredLifetimesCovered | cache/ttl.go:31-45 | every lifetime that a policy of whole milliseconds stores is covered by the store |
| CacheEntry.NegativeWithinCeiling | cache/ttl.go:39-45 | a negative stays within its own key's ceiling if and only if its lifetime, cut to the first-party ceiling or the default, does |
| CacheLayers.GetDetermined | cache/cache.go:57-97 | the lookup reference allows one answer and one outcome for the layers |
| CacheContents.LookupExactly | cache/cache.go:57-97 | by entries and clock readings: which entry answers, what of it the result says, where it goes, and that nothing else changes |
| CacheContents.BackfillExactly | cache/cache.go:131-160 | each other key without a live L1 entry gets all the hit says, for its remaining lifetime cut to the ceiling of the key's type; the rest stays |
| CacheContents.PutResolvedExactly | cache/cache.go:99-105 | every key has, in each layer whose write did not fail, the identifiers, test group, cause and expiry of the result; the rest stays |
| CacheContents.PutNegativeExactly | cache/cache.go:107-113 | the same for a negative, without identifiers |
| CacheContents.PutInProgressExactly | cache/cache.go:115-129 | every key has its marker in the store, unless that write failed; L1 and the rest stay |
| IdentityCacheModule.IdentityCache.GetLocal | cache/memory.go:32-38 | an L1 read gives the entry if it has not expired |
| IdentityCacheModule.IdentityCache.GetFromStore | cache/cache.go:197-213 | a store read counts, and gives the entry unless it fails or the entry has expired |
| IdentityCacheModule.IdentityCache.WriteBothLayers | cache/cache.go:174-183 | writes L1 and then the store, each unless it fails |
| IdentityCacheModule.IdentityCache.PromoteEntry | cache/cache.go:162-172 | a store hit goes to L1 with its remaining lifetime |
| IdentityCacheModule.IdentityCache.BackfillAliases | cache/cache.go:131-160 | every other key without a live L1 entry gets the hit, cut to its ceiling |
| IdentityCacheModule.IdentityCache.Get | cache/cache.go:57-97 | first live answer of L1, else of the store, else in-progress with the first marker's type, else a miss; only answers write |
| IdentityCacheModule.IdentityCache.PutResolved | cache/cache.go:99-105 | every key gets the result with its own effective lifetime |
| IdentityCacheModule.IdentityCache.PutNegative | cache/cache.go:107-113 | every key gets the negative with the one negative lifetime |
| IdentityCacheModule.IdentityCache.PutInProgress | cache/cache.go:115-129 | markers go to the store alone; success means that no write failed |
| CacheStability.BackfillLives | cache/cache.go:131-160 | under a still clock a backfill keeps every live L1 entry and leaves a live one under every other key |
| CacheStability.RepeatedLookup | cache/cache.go:57-97 | after an answer the same lookup is answered alike from L1 with no store read while its first key lives, whatever the store has become |
| CacheStability.RepeatedSubLookup | cache/cache.go:79-91 | after a store answer the same holds for any list of its keys in any order while one of them lives |
| CacheStability.AnsweredLives | cache/cache.go:131-172 | with positive ceilings, working L1 and a clock that stands still, an answer leaves its first key live in L1, and an answer of the store every key |
| CacheStability.PutThenGet | cache/cache.go:99-105 | a stored result answers every lookup starting with one of its keys, from L1, until that key's lifetime ends, whatever the store has become |
| CacheStability.PutNegativeThenGet | cache/cache.go:107-113 | the same for a stored negative |
| CacheRuns.StepCoherent | cache/cache.go:57-183 | every operation that runs alone and whose writes succeed keeps the layers coherent, failing reads or not |
| CacheRuns.WriteCoherent | cache/cache.go:174-183 | a write of both layers keeps them coherent if and only if both halves succeed or both fail, or the old L1 entry is dead or equal where only L1 failed, or the new one is dead or the store agrees where only the store failed |
| CacheRuns.LayersInStep | cache/cache.go:67-183 | in every run from empty of operations that do not overlap, without failed writes, L1 holds no marker and each live L1 entry is the store's unless the store was last given a marker |
| CacheRuns.FailedSetBreaksStep | cache/cache.go:174-183 | a run from empty in which one failed L1 write breaks coherence |
| CacheRuns.FailedPutBreaksStep | cache/cache.go:174-183 | a run from empty in which one failed store write does |
| SyncEnrich.SyncEnricher.Enrich | enrichment/resolver.go:124-128 | answers from the cache, or marks, calls and stores; answer and layers are what the API's body says, for the lifetime it gives |
| SyncEnrich.SyncEnricher.StoreResult | enrichment/resolver.go:369-393 | only results with or without identifiers are written |
| SyncEnrich.RetryAfterUncacheable | enrichment/resolver.go:199-205 | after an uncacheable call the next one calls the API again if and only if every key's marker, stamped at its own instant, has expired; until then it is answered in-progress with the first live marker's type |
| CacheThreadProofs.LookInv | cache/cache.go:57-97 | every step of a lookup keeps provenance, ceilings and timer cover |
| CacheThreadProofs.StampOk | cache/cache.go:145-156 | an alias is one lookup further along the chain, within its key's ceiling, and later than its hit by at most the clock advance since the remaining time was read |
| CacheThreadProofs.FillInv | cache/cache.go:131-160 | every step of a backfill keeps the invariant |
| CacheThreadProofs.StoredCapped | cache/ttl.go:31-45 | what a put stamps is within the ceiling of its key type, or the negative bound |
| CacheThreadProofs.SaveInv | enrichment/resolver.go:321-393 | every step of marking, calling and storing keeps the invariant |
| CacheThreadProofs.StepInv | cache/cache.go:57-183 | so does every step of any thread, of the clock and of the layers |
| Resolving.StoredTells | cache/entry.go:33-49 | what is stored of a successful answer has its identifiers or none, its test group, its cause and its own lifetime |
| CacheThreadTheorems.ServedIsAnEarlierAnswer | cache/cache.go:57-183 | a served result repeats the identifiers, test group and cause that the API answered to an earlier successful call whose keys are linked to the request's by lookups sharing keys; a negative comes from a body without identifiers; and the entry outlives that answer's own lifetime by at most the clock advance inside backfills, hence not at all if no backfill sees the clock move |
| CacheThreadTheorems.StoredIsAnEarlierAnswer | cache/cache.go:99-183 | the same for every entry of either layer that is not a marker |
| CacheThreadTheorems.OwnAnswer | enrichment/resolver.go:330-367 | a call answered by its own call to the API is told what that answered |
| CacheThreadTheorems.FailuresAreNotCached | enrichment/resolver.go:330-393 | as long as calls fail or are empty, L1 stays empty, the store holds markers only, and nothing is served |
| CacheThreadTheorems.CeilingBound | cache/ttl.go:18-45 | with one type per key, positive entries end within their type's ceiling from now, negatives within the larger of the negative lifetime and the first-party ceiling |
| CacheThreadTheorems.TimersCover | cache/memory.go:44-53 | no timer of either layer fires before its entry expires, on every write path; L1 holds no marker |
| CacheThreadTheorems.AliasOutlives | cache/cache.go:132-156 | an alias ends after its hit if and only if the clock moved since the first reading and the ceiling leaves room |
| CacheThreadTheorems.MovingClock | cache/cache.go:132-156 | a reachable state with such an alias |
| CacheThreadTheorems.NegativeOutlivesCeiling | cache/ttl.go:39-45 | a reachable state in which a negative ends after the ceiling of its own key |
| CacheThreadTheorems.BothCall | enrichment/resolver.go:124-127 | a reachable state in which two calls for one key have both missed and are both about to call the API |
| CacheFlights.CallsExactly | enrichment/resolver.go:124-127 | a call whose lookup is over reached the API if and only if none of its reads found a live answer or marker |
| CacheFlights.MarkerSeen | cache/cache.go:79-96 | a lookup that reads an entry of the store still alive when decoded never reaches the API, in any continuation |
| CacheFlights.SingleFlight | enrichment/resolver.go:245-252 | a call that reads a key after another call put its marker, with the read not failing and the marker not overwritten, dropped or expired, ends Served or Waits and never reaches the API |
| CacheOrder.BothCallExactly | enrichment/resolver.go:124-127 | two calls that begin with nothing alive under their keys, undisturbed there and with reads, markers and lifetimes that hold, both reach the API if and only if each has read every key they share before the other puts its marker there |
| CacheSteps.TurnsKeepStep | cache/cache.go:131-183 | in every run, overlapping calls included, in which threads take turns on a key and its writes do not fail, its live L1 entry is the store's answer or the one a thread is about to put there |
| CacheSteps.WriteExactly | cache/cache.go:174-183 | after both writes of a key the layers are in step if and only if what others last wrote to L1 in between, if anything, is the same, dead or dropped |
| CacheSteps.PromoteExactly | cache/cache.go:162-172 | from a store read to the promotion of what it read: the key is in step after it if and only if that answer is dead by then or what was last written to the store since, if anything, is the same, a marker or dropped |
| CacheSteps.RaceBreaksStep | cache/cache.go:174-183 | a reachable state with no failure, drop or clock movement in which two finished calls left different live answers in the two layers |
| CacheSteps.PromotionBreaksStep | cache/cache.go:162-183 | the same left by a promotion that another call's two writes overtake, with no thread between another's two writes |
| CacheAlone.TracksStep | cache/cache.go:57-183 | each step of a call running alone keeps the state that the coarser model has at that point |
| CacheAloneRuns.EveryLookup | cache/cache.go:57-97 | every lookup that no other thread interrupts ends in the reference's outcome for exactly its own failures and clock readings, with answer, key type and layer |
| CacheAloneRuns.EveryEnrich | enrichment/resolver.go:124-128 | every whole uninterrupted call does what the sequential enricher does for its own failures and clock readings |
| CacheAloneRuns.SomeEnrich | enrichment/resolver.go:124-128 | for every choice of failures and API answer there is an uninterrupted run with that outcome |
| CacheKeys.AppendMatchingEIDKeys | enrichment/cache_keys.go:40-59 | appends exactly the keys of the non-blank identifiers of matching sources, in order |
| CacheKeys.AppendMAIDKey | enrichment/cache_keys.go:61-71 | one key for an advertising identifier that is neither blank nor limited, upper-case for device types 3 and 7 |
| CacheKeys.AppendOtherEIDKeys | enrichment/cache_keys.go:73-91 | appends the keys of all sources that no earlier pass took |
| CacheKeys.AppendDeviceKey | enrichment/cache_keys.go:93-112 | one key of the non-blank device fields, if there is one |
| CacheKeys.DeduplicateAndCapKeys | enrichment/cache_keys.go:114-132 | the first key of each value, up to a positive cap |
| CacheKeys.ExtractCacheKeys | enrichment/cache_keys.go:14-38 | the five passes in priority order, deduplicated and capped |
| CacheKeyTheorems.UidsExact | enrichment/cache_keys.go:47-57 | the identifiers that count are the non-blank ones of an EID with a source, once each, in order |
| CacheKeyTheorems.OneCandidateEach | enrichment/cache_keys.go:26-33 | each such identifier is in exactly one of the three EID passes, each of which keeps the auction's order |
| CacheKeyTheorems.FirstsExact | enrichment/cache_keys.go:119-130 | what is kept are exactly the first occurrences, in candidate order |
| CacheKeyTheorems.KeysDiffer | enrichment/cache_keys.go:114-132 | extracted keys differ in value, as lookup stability needs |
| CacheKeyTheorems.CapIsPrefix | enrichment/cache_keys.go:14-15 | a positive cap gives exactly a prefix of the uncapped keys; otherwise all of them |
| CacheKeyTheorems.NoUidLost | enrichment/cache_keys.go:47-57 | without a cap every identifier that counts has a key with its value |
| CacheKeyTheorems.KeysComeFromTheAuction | enrichment/cache_keys.go:16-38 | every key comes from such an identifier or from the device |
| CacheKeyTheorems.Priority | enrichment/cache_keys.go:26-35 | partner keys come first and the fingerprint last |
| KeyFields.CandidatesExactly | enrichment/cache_keys.go:16-112 | the five passes in order, each from the auction's fields: which identifiers, under which namespace and type |
| KeyFields.FingerprintExactly | enrichment/cache_keys.go:93-112 | the fingerprint joins identifier, user agent and address as far as they are not blank, IPv6 only in place of the other address |
| KeyFields.ExtractedExactly | enrichment/cache_keys.go:14-38 | the extracted keys are the first of each value among the five passes, in order, up to a positive cap |
| CacheKeyTheorems.SameValue | enrichment/cache_keys.go:55-55 | when two namespace and identifier pairs make the same key string |
| CacheKeyTheorems.PlainNamespaces | enrichment/cache_keys.go:55-55 | namespaces without a colon never collide |
| CacheKeyTheorems.PartnerCollision | enrichment/cache_keys.go:82-87 | when another source's key equals a partner key |
| CacheKeyTheorems.CollidingAuction | enrichment/cache_keys.go:82-87 | an auction in which both identifiers count, share a key value and differ in type, and only the partner's key is kept |
| Percent.EncodesPercent | enrichment/params.go:192-194 | escaping and rewriting plus signs is percent-encoding |
| Percent.DecodeEncode | enrichment/params.go:192-194 | decoding gives the value back |
| Percent.EncodeInjective | enrichment/params.go:192-194 | different values are encoded differently |
| Percent.EncodedPlain | enrichment/params.go:192-194 | an encoded value holds unreserved characters and percent signs only |
| Percent.EncodesEachByte | enrichment/params.go:192-194 | byte by byte: letters, digits and -_.~ as they are, all others as a percent sign and two upper-case hexadecimal digits |
| Query.ParseRendered | enrichment/params.go:182-190 | a rendered query reads back as its non-blank parameters, in order |
| Query.SplitRendered | enrichment/params.go:182-190 | its pieces at the ampersands are those parameters |
| Params.Builder.AppendParameter | enrichment/params.go:182-190 | appends one parameter to the rendered text, unless it is blank |
| Params.Builder.AppendDeviceID | enrichment/params.go:76-89 | identifier and type of a device whose identifier is neither blank nor limited: upper-case and 8 for device types 3 and 7, else 4 |
| Params.Builder.AppendPrivacyParameters | enrichment/params.go:129-150 | privacy fields, the object's own before its extension's |
| Params.ResolveIIQUID | enrichment/params.go:107-122 | the first non-blank identifier of the partner pass |
| Params.JoinGPPSID | enrichment/params.go:171-180 | the section numbers in decimal, joined by commas |
| Params.BuildS2SRequest | enrichment/params.go:38-74 | the endpoint, one separator, and the rendering of all parameters; and the user's consent if not blank, else its extension's |
| ParamTheorems.AllRanked | enrichment/params.go:11-31 | parameters come in one fixed order and never twice |
| ParamTheorems.NamesDiffer | enrichment/params.go:11-31 | no two parameter names are equal |
| ParamTheorems.URLParses | enrichment/params.go:38-74 | the tail after the endpoint reads back as at=39 and exactly the non-blank parameters in order |
| ParamTheorems.KeepsEndpointQuery | enrichment/params.go:42-47 | a query that the endpoint has is kept before ours |
| ParamFields.SentExactly | enrichment/params.go:38-168 | the URL reads as having at=39 and exactly the parameters that are due, each if and only if the auction's own fields make it due, with that value |
| ParamFields.ParamsDue | enrichment/params.go:38-168 | the same parameter by parameter |
| ParamFields.Names | enrichment/params.go:12-31 | the names by which the API knows them |
| ParamFields.PartnerExactly | enrichment/params.go:107-122 | the partner's identifier is the first one that is not blank of any EID of the partner's |
| ParamFields.IDTypeSent | enrichment/params.go:76-89 | the identifier type is sent if and only if the identifier is neither blank nor limited, 8 for device types 3 and 7 and 4 otherwise |
| ParamFields.DigitsExactly | enrichment/params.go:177-177 | numbers are decimal digits without leading zeros |
| ParamFields.SIDsExactly | enrichment/params.go:171-180 | the section numbers, split at the commas, are those of the request |
| WhiteSpace.SpaceExactly | enrichment/params.go:196-198 | one code point of Unicode white space is trimmed at a time |
| WhiteSpace.SpacesAreBlank | enrichment/params.go:196-198 | white space is blank |
| WhiteSpace.BlankIsSpaces | enrichment/params.go:196-198 | and nothing else is |
| ParamTheorems.SentUIDIsFirstKey | enrichment/params.go:107-122 | the partner identifier sent is the one whose cache key comes first, and one is sent if and only if the first key is the partner's |

## Left out

- 64-bit wrap-around of instants and durations, and float rounding in `ttl.Seconds()`: integers are unbounded and seconds are exact.
- CacheThreadTheorems.TimersCover: every lifetime of a policy is taken to be a whole number of seconds, as `cache/config.go:17-26` makes it; the theorems about threads ask for whole milliseconds.
- IdentityCacheModule.IdentityCache.Get: no other thread runs during an operation of the class; `CacheThreads` has them run between any two accesses.
- CacheRuns.StepCoherent: the operation runs alone; `CacheSteps` has the steps of operations that overlap.
- CacheRuns.LayersInStep: operations do not overlap; `CacheSteps.TurnsKeepStep` is the statement for those that do.
- EnricherModule.Enricher.Drain: a send that blocks is a scheduling round in which nothing is sent.
- EnricherModule.Enricher.Enrich: what the cache and the API answer are parameters here; what the cache then holds is the subject of `CacheThreads`.
- CacheKeyTheorems.CollidingAuction: lower-casing is an arbitrary function, taken here to leave "iiq" as it is.
- In `CacheThreads` a call may stop after a miss, as one refused by the limiter does; the limiter itself is in `EnricherProtocol`, and both in `EnricherCache`.
- A panic in the enricher's API call, which ends the process; metrics or a logger of the host that panic.
- L1's byte bound and eviction policy: L1 may drop any entry at any time.
- The JSON bytes of entries: an entry is read back as it was written. Malformed bytes in a store count as a failed read.
- HTTP clients, response decoding, the Redis, Valkey and Aerospike stores, the Prometheus metrics, configuration checks, the impression URL builder, no-op types.
- User-agent normalisation and hints, case mapping: arbitrary string functions.
- Decoding of the privacy and consent extensions: given as what decoding yields.
- Latency and duration metrics, the capacity gauge, APISuccess and the cache lookup metrics: they are counted nowhere else.
- An endpoint with a fragment, behind which the parameters would be added.
- Real time: fairness of the scheduler and the length of any wait.
