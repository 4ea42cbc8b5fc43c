# Kinewright verification

A Dafny model of the four parts of Kinewright whose correctness rests on more
than one function at a time, with proofs over every input, every interleaving
or every run.

| part | source | modules |
|---|---|---|
| configuration lease | `crates/kinewright-agent/src/acp_session.rs` | `Configuration`, `ConfigurationRequest`, `Lease`, `LeaseExclusion`, `LeaseRest`, `LeaseOrder`, `LeaseRestore`, `LeaseInert`, `LeaseNecessity`, `LeaseFault`, `LeaseUnlisted`, `Restore` |
| ACP transport | `crates/kinewright-agent/src/acp.rs` | `Transport`, `TransportFlow`, `TransportReplies`, `TransportReplyTable` |
| test-log parser | `scripts/slow_tests.py` | `TestLog`, `TestLogResults`, `TestLogParse`, `TestLogTamper`, `TestLogRoundTrip`, `TestLogGenuine`, `TestLogVerify` |
| benchmark evidence | `scripts/pf1/validate.py`, `scripts/pf1/series.py` | `Permutations`, `Median`, `Verdict`, `VerdictRows`, `VerdictPass`, `VerdictExit`, `VerdictOrder`, `SeriesChain`, `Collect`, `CollectTogether`, `CollectFinish` |

`dafny verify dfyconfig.toml` checks everything. Every lemma switches
automatic induction off; each induction is written out in its body.

## How each part is modelled

**Configuration lease.** `Lease` is a step relation. Any number of sessions
share one lease flag and one CLI-wide store; each session has its caller, its
events loop, one turn thread per accepted prompt and one teardown worker per
interrupt or drop. Every load, store, swap, compare-exchange, lock and
critical section is one step and any thread may move next (`Play` runs a list
of steps). The environment decides whether a write lands, whether a reply is
good and what it states. `Restore` is the same configure-and-restore code as
classes, run by one thread against a clock in milliseconds;
`ConfigurationRequest` says, over the request, the ladder and the store, what a
turn may write and when it is refused.

Exclusion, the `Done` accounting and that no lease is leaked need no premise.
`DoneAfterRestore` and the teardown order need no turn after `interrupt`
(`CalmRun`). The restore theorem, `RestoredKeyByKey`, has three premises (`HonestStep`): sessions are
opened while the lease is free, every ladder states the values in effect, and
a turn takes the lease only when no other thread of its session has a restore
still to run. It speaks of every key except those of lost restore writes and
of unrecorded writes that landed; `StrayIsUnlisted` shows that the latter come
only from a session whose model is not listed. Two of these limits are proved
exact, the late thread and the unlisted model. The other three, lost writes,
opening while the lease is free and truthful ladders, are assumed and not
shown to be necessary.

- "No turn after `interrupt`" alone is not enough.
  `FaultThenTurnBreaksRestore` is a run with no interrupt at all in which the
  restore fails: after a fault the events loop finishes the turn while the
  turn's own thread is still to run its restore, and a new turn starts in
  between. `TakingIsSafeIffNotLate` gives the exact condition: such a late
  thread, a living child, and a turn that can come to a write that changes the
  store. `RestoredForCheckingCallers` shows that a caller who begins turns only
  while neither latch of the session is up never meets it.
- Cursor, the one harness with a lease, writes its model unchecked
  (`crates/kinewright-agent/src/cursor.rs:47-54`) and says that model settings
  are restored after each turn (line 41). A model that the opening ladder does
  not list is written and never recorded. `UnlistedModelIsNotPutBack` is such a
  run, with no fault, interrupt or drop, and `BreaksIffUnlisted` the exact
  condition, which a caller can check before the turn: a requested live model,
  not listed, and not the one in effect.

**ACP transport.** `Transport` is a step relation over the reader, the writer
behind its one-slot queue, the consumer and any number of callers, for every
capacity `EVENTS` of at least 2. Reply matching is that of section 5
(Response object) of the JSON-RPC 2.0 Specification. `NoStrandedWaiter` is
about ordinary requests; `RestoreRequestsCanBeStranded` shows that the
exception for restore requests is real. A step uses a sender only on an empty
reply channel; `SendingNeverBlocks` shows that this never holds a thread up.
`ReplyTable` is the pending map as
one thread mutates it.

**Test-log parser.** A line is given as tokens: fragments at its start, then a
header, a count, a summary, a result with its own fragments and text, or loose
text. `ResultLines` and `Parse` keep the source's loops. `ResultLines` does not
yield every result: a result line behind a fragment, met while another result
waits, is skipped as if it were a message (line 161). `AFragmentHidesAResult`
is such a log, `ResultsConserved` the exact condition, and
`ResultsConservedOnLines` the same on the lines alone. `NoisyRoundTrip` says
that recognised noise is taken out; `RowsAreGenuine` is its counterpart for
every log: no row is returned that the lines do not state.

The docstring of `parse` promises that a dropped line raises instead of letting
tests silently vanish (`scripts/slow_tests.py:412-418`). Of the structural
lines the code breaks this promise for one kind, a summary that ends captured
output: without it the sections that follow are taken for captured output as
well, up to the next summary. `DroppedSummaryHidesASection` is such a log.
`TamperingIsRejected` gives the exact condition for every log without split
results, and `DeletedCaptureEnd` reads it off the lines: the next summary has
the same counts and a test line is left. Every other structural line, and every
repetition, is noticed. `DroppedLine` extends this to every line, those that
open and close captured output included: what is not rejected gives the same
rows.

**Benchmark evidence.** Floats are reals and digests are identities.
`Verdict` takes the rows of a checked run to an exit code, `VerdictPass` says
what exit 0 means of the rows as they stand and `VerdictExit` the same of 1,
75 and 101, `SeriesChain` is
the mutual recursion of `series_check` and `evaluate`, and `Collect` is the
collector as a class over its files, killed after any number of durable
actions. `CollectTogether` runs any number of collectors on one directory at
the same time, each durable action one step, and `CollectFinish` says from
which of its states the collection can still be finished.

## Model

| member | source | states |
|---|---|---|
| `LeaseExclusion.LeaseIsExclusive` | crates/kinewright-agent/src/acp_session.rs:229-244 | in every reachable state the lease flag is up exactly when some session lies between its compare-exchange and its release, and never two |
| `LeaseExclusion.OnlyTheHolderReleases` | crates/kinewright-agent/src/acp_session.rs:573-604 | a step that lowers the flag is the release of the one session that held it; no restore gives back another session's lease |
| `LeaseExclusion.DonePerTurn` | crates/kinewright-agent/src/acp.rs:597-601 | over any run the `Done` events of a session equal its begun turns, less one while a turn runs |
| `LeaseExclusion.TurnsAreCapped` | crates/kinewright-agent/src/acp_session.rs:403-410 | no session ever begins more turns than its cap, a cap of 0 counting as 1 |
| `LeaseRest.RestHoldsNothing` | crates/kinewright-agent/src/acp_session.rs:444-482 | in every interleaving a session whose threads have all come to rest holds no lease and owes no `Done`, and if it had a teardown worker its child is killed |
| `LeaseRest.LeaseIsNotLeaked` | crates/kinewright-agent/src/acp_session.rs:573-604 | with every session at rest the lease is free |
| `LeaseOrder.DoneAfterRestore` | crates/kinewright-agent/src/acp_session.rs:444-474 | with no turn after `interrupt`, a `Done` from the turn thread or the fault path is emitted only when the session holds no lease and nothing is being put back, also by the thread that lost the race |
| `LeaseOrder.KillAfterRestore` | crates/kinewright-agent/src/acp_session.rs:288-302 | a teardown worker about to kill finds everything put back, however many workers run together |
| `LeaseOrder.KilledIsPutAway` | crates/kinewright-agent/src/acp_session.rs:288-302 | no restore is ever in progress on a session whose child was killed |
| `LeaseRestore.RestoredKeyByKey` | crates/kinewright-agent/src/acp_session.rs:573-687 | for any number of sessions and any interleaving under the premises, a free lease means every key is at its initial value except those of lost restore writes and of unrecorded writes that landed, also after configuration that failed part-way |
| `LeaseRestore.StrayIsUnlisted` | crates/kinewright-agent/src/acp_session.rs:632-687 | while every requested model is listed or in effect, no unrecorded write lands, but where a restore write was lost |
| `LeaseRestore.RestoredWheneverFree` | crates/kinewright-agent/src/acp_session.rs:573-687 | so with every restore write landed and every requested model listed or already in effect, a free lease means the initial store |
| `LeaseRestore.RestoredForCheckingCallers` | crates/kinewright-agent/src/acp_session.rs:394-482 | the key-by-key theorem for callers that begin a turn only while neither latch of the session is up, whatever comes afterwards |
| `LeaseNecessity.TakingIsSafeIffNotLate` | crates/kinewright-agent/src/acp_session.rs:394-482 | a session about to take the lease can, left to itself, end with the lease free and the store changed if and only if another of its threads has a restore still to run, its child lives and its turn can come to a write that changes the store, at any stage; with no such thread no run at all does |
| `LeaseFault.FaultThenTurnBreaksRestore` | crates/kinewright-agent/src/acp_session.rs:815-825 | a run without any interrupt, every model listed and every restore write landed, that ends with the lease free and the model changed |
| `LeaseInert.InertKeeps` | crates/kinewright-agent/src/acp_session.rs:612-687 | a session whose child is dead, or that can only write values already in effect, leaves the store alone and stays so, whichever thread steps |
| `LeaseUnlisted.BreaksIffUnlisted` | crates/kinewright-agent/src/acp_session.rs:632-644 | sessions of given kinds can break the restore in some honest run that loses no write if and only if one asks for a live model that its opening ladder does not list and that is not in effect; then a run with no fault, interrupt or drop does |
| `LeaseUnlisted.UnlistedModelIsNotPutBack` | crates/kinewright-agent/src/cursor.rs:47-54 | at one input: a live session asked for a model, a ladder that lists none, and a run that leaves the model changed |
| `Configuration.RestoreWritesModelFirst` | crates/kinewright-agent/src/acp_session.rs:127-133 | the restore list is a permutation of the recorded list with the model entries first and both parts in recorded order |
| `Configuration.OwesPaid` | crates/kinewright-agent/src/acp_session.rs:573-604 | making every owed write gives the initial store back, at every key that is not off |
| `Configuration.RecordCovers` | crates/kinewright-agent/src/acp_session.rs:612-687 | recording before a write keeps the restore list complete and covers the advertised key about to be written |
| `Configuration.UnlistedWrite` | crates/kinewright-agent/src/acp_session.rs:632-687 | the one write of an option the ladder does not list is a live model's |
| `Configuration.PlanIsAccounted` | crates/kinewright-agent/src/acp_session.rs:612-687 | every planned write can be undone once recorded, or writes the value in effect, unless it is an unlisted model |
| `ConfigurationRequest.PlanGrants` | crates/kinewright-agent/src/acp_session.rs:612-687 | what a stage writes is what was asked for: the model's text, the effort's text under `effort` if that is listed and else under `reasoning`, and a listed `fast` on exactly for tier "true", in text exactly if its first choice is text |
| `ConfigurationRequest.PlanRefuses` | crates/kinewright-agent/src/acp_session.rs:612-687 | a stage is refused exactly for an advertised model, or an effort, that the ladder does not offer, and for a tier where no fast switch is listed |
| `ConfigurationRequest.GrantedIffNotRefused` | crates/kinewright-agent/src/acp_session.rs:612-687 | the three requests can be granted one after the other if and only if none is refused by the ladder it is looked up in, the live one where the harness restates it |
| `ConfigurationRequest.GrantedMeans` | crates/kinewright-agent/src/acp_session.rs:612-687 | after a granted turn the store holds, key by key, what was asked for, and every other key is unchanged |
| `Restore.Cli.WaitWrite` | crates/kinewright-agent/src/acp.rs:340-364 | the sliced wait: written or closed exactly when the frame ends within the budget, timed out at the budget, interrupted only by a latch that refuses the frame and within one slice of it |
| `Restore.Cli.Request` | crates/kinewright-agent/src/acp.rs:209-218 | write wait and reply wait together stay within the timeout; an interrupted transport refuses at once; at most the named key changes; only a failed or late write stops the child; a request written and answered in time returns the reply, a late answer nothing |
| `Restore.Cli.RestoreConfiguration` | crates/kinewright-agent/src/acp_session.rs:590-600 | restoring any number of options takes at most the five-second budget in total, and with an answering harness that is not interrupted makes every owed write |
| `Restore.Leased.Configure` | crates/kinewright-agent/src/acp_session.rs:612-687 | one stage keeps the restore list complete, whether or not the write lands and whatever the reply, except for an unlisted model; if it succeeds the store holds what the stage was asked for, and with a prompt harness it fails exactly if it is refused |
| `Restore.Leased.ApplyRequestedConfiguration` | crates/kinewright-agent/src/acp_session.rs:612-687 | after success or failure at any stage the list still owes exactly what separates the store from its initial value, except for an unlisted model; on success with every request taken the three requests are granted, and with a prompt harness it succeeds exactly if none is refused |
| `Restore.Leased.RestoreConfiguration` | crates/kinewright-agent/src/acp_session.rs:573-604 | the list is emptied, the budget kept, and with an answering harness the initial store is back, except for an unlisted model |
| `TransportFlow.FaultSlotIsReserved` | crates/kinewright-agent/src/acp.rs:431-574 | at most `EVENTS - 1` non-faults are queued, a checked offer and the final fault always find room, and the consumer receives an in-order prefix of the routed messages and at most one fault, last |
| `TransportFlow.CleanupCannotHideAWriteFault` | crates/kinewright-agent/src/acp.rs:366-499 | a write failure latched before any interruption is published once the reader ends; a fault is missing only after an interruption that no write failure preceded |
| `TransportFlow.FewFramesAfterALatch` | crates/kinewright-agent/src/acp.rs:377-406 | at most one ordinary frame is written after the ingress latch, and at most one of any kind after an interruption |
| `TransportFlow.DeliveredAsSent` | crates/kinewright-agent/src/acp.rs:501-533 | every message the consumer has received is the line sent in its place: a method without an id as a notification, one with any id as a request, anything else but a reply as malformed |
| `TransportFlow.LateRequestsAreRefused` | crates/kinewright-agent/src/acp.rs:228-240 | a request begun after an interruption, or an ordinary one after the ingress latch, never takes an id, whatever happens next |
| `TransportReplies.NoStrandedWaiter` | crates/kinewright-agent/src/acp.rs:228-263 | once a drain has followed the latch, every accepted ordinary request that is still waited for has its answer or a thread with its sender in hand; never a slot left in the map |
| `TransportReplies.SendingNeverBlocks` | crates/kinewright-agent/src/acp.rs:587-595 | a thread that took senders out of the map can always use the next one |
| `TransportReplies.RepliesAreRouted` | crates/kinewright-agent/src/acp.rs:501-560 | over whole runs ids are unique, the map stays within `EVENTS`, and each answer was read off a line without a method that carries that id, that body and an error or not, or is a failure after the latch |
| `TransportReplies.RepliesArrive` | crates/kinewright-agent/src/acp.rs:527-545 | a reply to a pending request is taken out of the map and given to it, in any reachable state with the reader reading |
| `TransportReplies.AnsweredOnce` | crates/kinewright-agent/src/acp.rs:501-545 | no later step changes an answer |
| `TransportReplies.SlotLostOnlyToItsOwn` | crates/kinewright-agent/src/acp.rs:67-93 | a slot leaves the map only by its own request, by its own reply or by a drain that will answer it |
| `TransportReplies.RestoreRequestsCanBeStranded` | crates/kinewright-agent/src/acp.rs:562-567 | for every capacity a run leaves an accepted restore request in the map of a drained transport whose reader is gone |
| `TransportReplyTable.ReplyTable.Reserve` | crates/kinewright-agent/src/acp.rs:547-560 | ids are never reused and a slot is given exactly while there is room |
| `TransportReplyTable.ReplyTable.Route` | crates/kinewright-agent/src/acp.rs:501-545 | a line without a method and with a numeric id answers the pending request of that id with its body, as an error or not, and changes nothing else; every other line is a notification, a request or malformed |
| `TransportReplyTable.ReplyTable.FailPending` | crates/kinewright-agent/src/acp.rs:587-595 | the table is emptied and every request in it gets a failure; other answers are untouched |
| `TransportReplyTable.UndisturbedDrain` | crates/kinewright-agent/src/acp.rs:366-374 | in the step relation a drain left alone ends, and with what `FailPending` computes |
| `TestLog.ResultLines` | scripts/slow_tests.py:122-190 | the loop over `pending`, `probe_advice_pending` and `captured` yields exactly the lines of the recursive scan the theorems below are about |
| `TestLogResults.ResultsConserved` | scripts/slow_tests.py:122-190 | every visible result is yielded once and in order if and only if no result line behind a fragment meets a waiting result |
| `TestLogResults.ResultsConservedOnLines` | scripts/slow_tests.py:122-190 | the same condition on the lines alone: an opening line, only lines that are looked past, then a result line behind a fragment |
| `TestLogResults.AFragmentHidesAResult` | scripts/slow_tests.py:161-162 | a two-line log of which only one result is yielded |
| `TestLogResults.OutcomesAreOwn` | scripts/slow_tests.py:122-190 | a result takes its outcome from its own line or from one later line that is nothing but an outcome; no line serves two results |
| `TestLogParse.Parse` | scripts/slow_tests.py:409-482 | the loop computes the section automaton over the yielded lines, error by error |
| `TestLogParse.TallyCounts` | scripts/slow_tests.py:457-462 | the counts a summary is held to are the numbers of rows that read exactly `ok`, FAILED, ignored and bench |
| `TestLogParse.AcceptsExactlyBlocks` | scripts/slow_tests.py:409-482 | rows are returned if and only if the structural lines are a concatenation of header, `running n`, n test lines and a summary with matching counts, the rows are theirs, and there is one |
| `TestLogTamper.TamperingIsRejected` | scripts/slow_tests.py:409-482 | for every accepted log without split results, captured output included: repeating a structural line is rejected, and deleting one is accepted if and only if it ends captured output, the next structural line then yielded is the same summary and a test line is left |
| `TestLogTamper.DeletedCaptureEnd` | scripts/slow_tests.py:135-142 | the same in lines, with the capture ended next by a readable summary: deleting the summary that ended it is accepted if and only if both have the same counts and a test line is left |
| `TestLogTamper.DroppedSummaryHidesASection` | scripts/slow_tests.py:135-142 | at any names: two failed sections, the first with captured output, give two rows; without the first summary the second section vanishes and the log is still accepted |
| `TestLogTamper.DroppedLine` | scripts/slow_tests.py:409-482 | the promise for any line: without split results and with no summary behind a fragment, a log that lost one line is rejected, or gives the same rows, or lost a summary that ended captured output and is followed by the same one |
| `TestLogTamper.SummaryCutOut` | scripts/slow_tests.py:409-482 | on the yielded lines: cutting a summary and any stretch after it out of an accepted log is accepted if and only if the next structural line is the same summary and a test line is left |
| `TestLogTamper.LineTamperingIsRejected` | scripts/slow_tests.py:409-482 | the same for the yielded lines, whatever the log |
| `TestLogGenuine.RowsAreGenuine` | scripts/slow_tests.py:95-190 | every row of an accepted log stands on a line with its test, under the last plain header before it, which is of its binary, and reads what that line says, or what a later line says that is nothing but an outcome, with only recognised lines between; or nothing |
| `TestLogGenuine.OkIsGenuine` | scripts/slow_tests.py:95-190 | a row reads `ok` only where its own line says so, alone or with recognised noise, or has no outcome and a later line says `ok` and nothing else |
| `TestLogGenuine.YieldIsGenuine` | scripts/slow_tests.py:122-190 | the same for every yielded result, and every yielded header, count and summary is a visible line |
| `TestLogRoundTrip.NoisyRoundTrip` | scripts/slow_tests.py:95-190 | for every list of sections, printed with the numbers of its verdicts, and every recognised way of putting FFmpeg noise into its printed log, `parse` returns exactly the printed rows |
| `TestLogRoundTrip.NoiseChangesNothing` | scripts/slow_tests_selftest.py:56-78 | the noisy log and the clean one parse alike |
| `TestLogVerify.Collate` | scripts/slow_tests.py:485-573 | the dictionary holds, for each test that ran, its outcomes in order |
| `TestLogVerify.VerifySlow` | scripts/slow_tests.py:546-573 | 0 if and only if the log parses, each manifest test has exactly one row and it passed, there is no other row, and the NOT RUN markers are accounted for |
| `TestLogVerify.VerifyFast` | scripts/slow_tests.py:485-535 | 0 if and only if the log parses, the slow skips are exactly the manifest's, the other skips exactly the allowlist's, and each other-OS test ran once and passed |
| `Median.SortSorts` | scripts/pf1/validate.py:365-368 | the sorted values are a sorted permutation |
| `Median.OrderStatisticsGrow` | scripts/pf1/validate.py:365-368 | raising values pointwise raises every order statistic |
| `Median.MedianGrows` | scripts/pf1/validate.py:365-368 | the median is monotone in every value |
| `Verdict.GatherVerdicts` | scripts/pf1/validate.py:357-377 | the loops over workloads and metrics gather exactly the verdicts given, and fail exactly if one cannot be judged |
| `Verdict.Evaluate` | scripts/pf1/validate.py:350-391 | the loops and the final cascade compute `Judge`, the exit code the theorems below are about |
| `Median.MedianPermutes` | scripts/pf1/validate.py:365-370 | the median does not depend on the order of the values |
| `Median.MajorityDecides` | scripts/pf1/validate.py:365-368 | of an odd number of values the median is within a limit exactly if more than half of them are |
| `VerdictRows.GroupedRows` | scripts/pf1/validate.py:358-361 | grouping by workload and arm and sorting by pair loses, repeats and invents no row |
| `VerdictRows.LinedUp` | scripts/pf1/validate.py:358-374 | in a paired run the sorted groups of both arms have the same pair numbers in the same places |
| `VerdictPass.PassesExactly` | scripts/pf1/validate.py:357-391 | a gate that is not a control exits 0 if and only if its rows are valid, not busy, crashed, pending or limited, a bound control passed, and on every workload every rule can be judged and is met, each rule said of the rows themselves and of pairs matched by number |
| `VerdictPass.JudgedIffCanJudge` | scripts/pf1/validate.py:365-366 | a metric is judged exactly if the workload has a candidate run and no ratio has a denominator that is not positive |
| `VerdictPass.EachIsMet` | scripts/pf1/validate.py:371-374 | R50 and its mirror image give no 1 and no 75 exactly if every candidate row is within the limit, whatever the reference did |
| `VerdictPass.RatioIsMet` | scripts/pf1/validate.py:365-368 | the ratio rule is met exactly if more than half of the pairs are within the limit (for an even number, the mean of the two middle ratios) |
| `VerdictPass.DeltaIsMet` | scripts/pf1/validate.py:376-377 | the delta rule is met exactly if each candidate run is within the limit of the reference run of its pair |
| `VerdictPass.EqualIsMet` | scripts/pf1/validate.py:376-377 | the equal rule is met exactly if both runs of each pair have the same value |
| `VerdictPass.InvariantIsMet` | scripts/pf1/validate.py:376-377 | the invariant rule is met exactly if every row of either arm is true |
| `VerdictPass.CountersIsMet` | scripts/pf1/validate.py:365-370 | R65: large counters agree within five per cent in the median of the pair ratios, small ones in the mean and with ranges that meet |
| `Median.MedianIsMiddle` | scripts/pf1/validate.py:365-368 | the median is the middle one of the values in order, or half the sum of the two in the middle |
| `VerdictExit.CodesAreBlame` | scripts/pf1/validate.py:365-377 | a metric gets a 1 exactly if some candidate run is past its limit and its reference run does not excuse it, or its rule is not met, and a 75 exactly if some run is excused: the gate is neither G3 nor VM-D6, the reference run misses the limit too, and the candidate is behind it by no more than two reference runs differ |
| `VerdictExit.ExitsFailed` | scripts/pf1/validate.py:378-391 | when the exit is 1, on the rows, for controls and all other gates |
| `VerdictExit.ExitsUndecided` | scripts/pf1/validate.py:378-391 | when the exit is 75, on the rows |
| `VerdictExit.ExitsCrashed` | scripts/pf1/validate.py:378-391 | when the exit is 101, on the rows |
| `VerdictExit.ControlPasses` | scripts/pf1/validate.py:383-385 | a control exits 0 exactly if its runs went through, all are valid, and each has a metric past its limit |
| `VerdictOrder.PairWorsens` | scripts/pf1/validate.py:371-374 | the three-way 0/75/1 rule is monotone in the candidate |
| `VerdictOrder.VerdictsWorsen` | scripts/pf1/validate.py:357-377 | worse candidate values leave the rows as judgeable as before and every verdict no better |
| `VerdictOrder.WorseNeverPasses` | scripts/pf1/validate.py:357-391 | for every gate that is not a control, replacing candidate values of valid rows by worse ones never turns a non-pass into exit 0 |
| `VerdictOrder.WorseNeverImproves` | scripts/pf1/validate.py:378-391 | where no failing control steps in, the exit code stays or moves up in the order 0, 75, 1 |
| `SeriesChain.AcceptedIffLineage` | scripts/pf1/validate.py:249-276 | a status is accepted if and only if it heads a lineage: at most 16 series, distinct ids, same pins, every ancestor evaluating to the non-pass code its successor records, with a disposition where one is due |
| `SeriesChain.AcceptedWithPredecessor` | scripts/pf1/validate.py:249-276 | a status naming a predecessor is accepted exactly if that file is there unchanged with intact attempts, is accepted itself with one more id seen, and the record gives its own exit, or 2 where it has none, not 0, a reason, and an intact disposition of that very file where one is due |
| `SeriesChain.AcceptedWithoutPredecessor` | scripts/pf1/validate.py:249-254 | one that names none is accepted exactly if its id is new, fewer than 16 are seen, the pins are its own and it records no rejection |
| `SeriesChain.PassNeedsItsControl` | scripts/pf1/validate.py:386-391 | G1 and G14 exit 0 only over the status bound as their own control, accepted, with every row valid and showing the fault |
| `SeriesChain.LineageIsUnique` | scripts/pf1/validate.py:249-276 | the lineage is determined by its newest series |
| `SeriesChain.PassesAreFinal` | scripts/pf1/validate.py:249-284 | nothing that supersedes a passing status is accepted |
| `Collect.Work.Freeze` | scripts/pf1/series.py:6-12 | the manifest is created once, and a different or torn one stops the call |
| `Collect.Work.AttemptOne` | scripts/pf1/series.py:26-32 | an attempt is started and then journaled, with a crash possible before and between |
| `Collect.Work.Attempt` | scripts/pf1/series.py:24-34 | entries run in order until one exits nonzero, all that are due and no other; the journal is complete when the loop ends |
| `Collect.Work.OpenJournal` | scripts/pf1/series.py:21-23 | a gate whose journal exists is refused |
| `Collect.Work.RunGate` | scripts/pf1/series.py:21-43 | an untouched gate makes exactly the attempts due and files the code they end with; a nonzero code stops the call with 2, 75 or 101; nothing found is changed |
| `Collect.Work.AllGates` | scripts/pf1/series.py:14-46 | the gates in order: exactly the attempts due in the gates that are opened, a status for each, and the outcome determined by the directory found and the outside |
| `Collect.Work.Collect` | scripts/pf1/series.py:5-46 | whatever the crash point: history only grows, found statuses stay, and only attempts due in opened gates are made, none once a gate was begun and not finished; a call that is not cut short makes all of them, files their codes and ends as the first gate it does not get past says, or with the verdicts of all; a call with enough life is not cut short; exit 0 means a whole status and a passing verdict for every gate |
| `Collect.CollectAgainAndAgain` | scripts/pf1/series.py:5-46 | over any number of calls with any plans, each dying anywhere, no entry of any gate is launched twice, and a first call with enough life launches every entry due in an empty directory |
| `Collect.AttemptedAtMostOnce` | scripts/pf1/series.py:21-34 | from the invariant: no entry twice, and none after a nonzero exit in its gate |
| `Collect.LaterIsHigher` | scripts/pf1/series.py:14-34 | launches ascend by gate, then by ordinal, each after an exit 0 |
| `Collect.EarlierEntries` | scripts/pf1/series.py:24-34 | before entry n of a gate, entries 0 to n - 1 were launched in a row and exited 0 |
| `CollectTogether.TogetherAtMostOnce` | scripts/pf1/series.py:5-46 | for collectors running at the same time on one directory, in every interleaving and whoever dies: no entry is launched twice, launches are in order with none after a nonzero exit in its gate, and all launches of a gate come from one process |
| `CollectTogether.OneCollectorWorks` | scripts/pf1/series.py:21-41 | while a process is between a gate's journal and its status, no other is, no step of another changes the directory, and the exclusive creation of the status cannot fail |
| `CollectTogether.AbandonedForGood` | scripts/pf1/series.py:21-23 | once the process at work on a gate has died, nothing changes the directory any more, whatever is started later |
| `CollectFinish.FinishableIff` | scripts/pf1/series.py:5-46 | from any state that interleaved collectors can reach, some further run gives every gate its status if and only if every gate orders an attempt, the manifest is missing, states the plan or is being written for it, and no gate was begun by a process that is gone |
| `Collect.OverallIsFirst` | scripts/pf1/series.py:46-46 | the exit of a finished collection is the first of 2, 101, 1 and 75 among the verdicts, 0 without one, 2 for none |
| `Collect.PassesIffAllPass` | scripts/pf1/series.py:46-46 | a collection passes exactly if it has a gate and every gate passes |

## Left out

- Process spawning, pipes, JSON encoding and frame splitting, stderr capture, directory removal and error texts: only the events they produce are modelled.
- Thread-spawn failure, mutex poisoning and wrap-around of the 64-bit request id: taken not to occur.
- Memory ordering weaker than sequential consistency: every atomic access is one step of one global order.
- A write that lands after its own request timed out: the pipe is first-in first-out and a write lands, if at all, before its request is answered or given up.
- Sessions of harnesses without a lease: their configuration is session-scoped and nothing is put back.
- A second turn on a session after `interrupt`: outside the premises of the `Done` and teardown order, as in the design.
- `VerdictPass.PassesExactly`: takes the rows paired, one run of either arm per pair number, which the pinned run order guarantees.
- `Restore.Leased.Configure`: one thread and one session; interleaving is the subject of the `Lease` modules.
- `Restore.Cli.RestoreConfiguration`: killing and reaping a child takes no time on the model's clock.
- Regular expressions, ANSI stripping, `binary_label` and the marker text: lines arrive as tokens, with one outcome separator per line, and the NOT RUN markers arrive as a list.
- `TestLogTamper.DroppedLine`: takes no summary to stand behind a fragment; captured output does not end at such a summary, and can hide whole sections.
- Line numbers and wording of an unparsable log: the model says only which check failed.
- Reading the manifest and the allowlist, and the lint of both: the verifiers take the key sets as given.
- File hashing, schemas, GPU telemetry, preflight sampling, D13 records and launch specifications: a row says whether its GPU was busy, a status whether it is intact.
- `Verdict.Evaluate`: takes both arms to have the same number of values on each workload, which the pinned run order guarantees, and rejects otherwise.
- `Verdict.GatherVerdicts`: keeps the verdicts as a set, since only membership is used.
- `CollectTogether.TogetherAtMostOnce`: processes' verdicts and exit codes are not kept; they are the subject of `Collect.Work.Collect`.
- `branch.rs`, the audio and color tools, drivers, harness detection and the mutation and gate scripts: they would add only easy members or depend on crates outside this model.
