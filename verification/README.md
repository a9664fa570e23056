# CareerOS: a Dafny model of the submission protocol and its side cores

CareerOS prepares job applications and, when a person switches a tenant to LIVE, submits them. Its hardest
promise is that submit is not pressed twice: workers crash, leases lapse, a candidate retries, verdicts
arrive late. This project models that protocol and the other parts of the program that carry an invariant of
their own, and proves what they keep.

`dafny verify dfyconfig.toml` checks the whole project.

## How the model is built

* `Lifecycle`, `WorkQueue`, `Caps`, `Preconditions`, `Execution` say what every operation of
  `ExecutionService` does to the records of one opportunity (attempt, SUBMIT item, runs) and to the cap
  ledger. `ExecutionServices.ExecutionService` and `Preconditions.PreconditionChecker` are the imperative
  code: a session over committed tables whose fields are changed one by one, loops over runs, commit and
  rollback. Each method is proved to do exactly what the specification functions say.
* `StartOutcomes`, `ReportOutcomes` and `ExecuteOutcomes` say what that amounts to: tables over the records before
  and after, one row for each outcome, result, verdict or human action, stated on status, key, slot, owner, lease and
  the time of the next claim. `start`, the reports, verdicts, retries, cancellations and recovery promise them as well.
* `Protocol` closes the system into a state machine over any number of opportunities, with a ghost history of
  presses, denials and retries. `Coupling`, `AtMostOnce`, `PressedRun`, `RetryGuard`, `CapConservation`, `Gates`,
  `Recovery`, `Executors` and `Finality` are the theorems about every run of it. A worker takes part in a run that
  it started or that the extension's gate let it press in, whoever started it. `Leases` and `TimedRuns` put a
  clock beside the run and show what running leases guarantee. `Necessity` gives concrete runs which show that each
  hypothesis is needed.
* The remaining modules are independent: option choice and form mapping (`Options`, `FormMapping`,
  `FormAnswers`, `FormCapture`), the write-once document store (`Storage`, `Documents`), the evidence store and
  its importer (`Evidence`, `SeedImport`), the AI gateway (`AiGateway`), the token bucket (`RateLimit`), the statistics
  (`Stats`), the learning dataset (`Dataset`) and the SAFE / LIVE switch (`SubmissionModes`).

What the program cannot see is a parameter or a function value: clocks, policies and company history, what an
executor does, regular expressions and classifiers, the renderer, the AI provider, SHA-256.

## Hypotheses

The protocol is parameterised by three hypotheses (`Protocol.Hyps`), each of which can be dropped.

* H1, `executorsHonest`: a result other than SUBMITTED or UNKNOWN, or an error marked `before_submit`, means
  that submit was not pressed.
* H2, `claimHolders`: a worker acts in its run only while it holds the item under the claim it began with, and
  reports only on a run it takes part in. The program checks neither; it gives leases. `TimedRuns` therefore drops
  H2 and looks at timed runs: the clock never goes back, and a worker that arms, gates, presses or reports in its
  run does so only while the lease it was last given runs (the extension's gate checks the item's lease itself and
  is free to be called by anybody). If nobody cancels a queue item in a worker's hands and nobody reports on a run
  it takes no part in, such a run goes exactly as if H2 were enforced (`TimedRuns.LeasesEnforceClaims`), so at most
  one press, its denial and the coupling follow from leases (`TimedRuns.AtMostOnePressOnTime` and the lemmas after
  it). `Necessity.CancelledUnderAWorker` and `Necessity.ReportedByAnother` are timed runs that show that neither of
  the two conditions can be dropped.
* H3, `quietVerdicts`: no verdict is applied while the attempt is SUBMITTING.

At most one press needs H1 and H2 only; from leases instead of H2 it needs H3 as well. Coupling needs H2 (or
leases) and H3. Cap conservation, the meaning of the gates and the single permission of the extension path need
none. One worker id is one sequential process; every service call is atomic, except that `start` may reach its
guarded UPDATE with a stale read (`StartStale`).

## Findings

Where a promise fails, the code is kept as it is and a lemma shows the failing case; where it can be said
exactly when the promise holds, that is proved too.

* The FAILED verdict that separates two presses need not concern the run that pressed. There are two ways. The
  lazy reclaim path leaves the lost run's verdict NOT_ATTEMPTED, so the guard of `retry` does not see it
  (`Recovery.OnlyEagerRecoveryGuardsRetry`, `Necessity.DenialOfAnotherRun`); and a LIKELY verdict on a pending run
  settles the run but leaves an attempt that an older run's denial put in NEEDS_REVIEW, which `retry` then
  re-opens (`Necessity.LikelyThenRetried`). In both the denied run is not of the attempt's latest execution, and
  that is all there is to it: when every denial concerns a run whose number is the attempt's execution count, the
  denial between two presses is of the very run that pressed (`PressedRun.DenialConcernsThePress`). A guard on
  `retry` does as well: when it lets nothing through while a run with `submit_invoked` on record is not denied, the
  run that pressed is denied before the next press, whatever else is denied (`RetryGuard.GuardedRetrySuffices`).
* Cancelling a queue item does not ask whether a worker holds it. Cancelled and requeued, it reaches a second
  worker while the first is still within its lease, and the in-process gate lets both press
  (`Necessity.CancelledUnderAWorker`).
* `report_result` asks who owns the item, not who worked on the run. A worker that crashed after its press and
  comes back, or the next owner, can report the run that is still RUNNING as handed off; the candidate retries, and
  submit is pressed again without any verdict (`Necessity.ReportedByAnother`). Without such reports and such
  cancellations leases suffice (`TimedRuns.LeasesEnforceClaims`).
* A SUCCEEDED item is final. Denying a SUBMITTED run and retrying leaves the attempt READY with an item that no
  worker will claim (`Finality.RetryAfterDenialIsStranded`). An accepted retry leads on exactly when the item
  was there and not SUCCEEDED, or there was none and the attempt was not left released
  (`Finality.RetryLeadsOnExactly`).
* A slot refresh takes the new slot before it returns the old one, so an attempt that owns one of a full week's
  slots cannot move to the next day of that week (`Caps.OwnWeekBlocksRefresh`).
* A multi-select answer that normalises to nothing ticks every box (`Options.MultiSelectNamesItsPicks`).
* "Experience with X" questions share bank answers by category in form mapping, although the preparation code
  excludes them: exactly when nothing was prepared for the question or its category, the bank has no entry for
  the question, and it has one for the category (`FormMapping.ExperienceWithIsShared`).
* A re-capture refreshes every answer, and no row of the stored structure: label text and option values are those
  of the first capture of this shape, so they are the form's own exactly when the shape is new or was first
  captured with the same ones (`FormCapture.StructureIsAsFirstCaptured`,
  `FormCapture.OptionValuesAreAsFirstCaptured`).
* A seed fact that refers to a node imported after it is linked only by the second import, which then writes an
  audit event (`SeedImport.ForwardReferenceIsLinkedLate`); the importer's silent sort-order write breaks the
  audit chain unless the order is unchanged (`SeedImport.ReorderAndTheTrail`).
* The AI cache key leaves out the prompt's text, the schema and the limits, so a tenant with a narrow output limit
  shortens what the next tenant gets (`AiGateway.KeyIgnoresLimits`). The cache is transparent when calls that share
  a key agree in provider, prompt, schema and effective limits (`AiGateway.CacheIsTransparent`), and any two that do
  not agree can be told apart (`AiGateway.SharedKeyChangesAnAnswer`). The sink's `calls` is smaller than the number
  of provider calls by those that failed (`AiGateway.CallsAreBudgeted`).
* More than fifty rolled-back renders in a row block a document for good (`Documents.BlockedForGood`).
* A token request above the capacity is never granted (`RateLimit.TokenBucket.Acquire`).
* The dataset has no look-ahead through added rows, but rows that existed at the cutoff are read as they are now:
  a run that turned UNKNOWN, a submission time, and an event retracted or superseded after the cutoff change or
  remove a row (`Dataset.LateUpdatesLeak`). Which updates are seen is settled for all tables: of a run
  (`Dataset.RunUpdateLeaksExactly`, `Dataset.EarlierRunsAreDated`), of an attempt
  (`Dataset.AttemptUpdateLeaksExactly`, `Dataset.LateVerifiedAtIsHarmless`) and the withdrawal of an event
  (`Dataset.WithdrawnEventLeaksExactly`).

## Model

| member | source | states |
|---|---|---|
| `Lifecycle.BackOnlyThroughReviewOrClosing` | app/application/models.py:51-73 | along every path of the transition table an application that was submitted, verified, uncertain, interviewing or rejected leaves these statuses only through NEEDS_REVIEW or CLOSED |
| `WorkQueue.OneOwnerAtATime` | app/pipeline/queue.py:220-331 | nobody takes an item whose lease is live; a claim is live for its new owner to the end of the lease |
| `WorkQueue.ReleaseUndoesClaim` | app/pipeline/queue.py:349-364 | an item given back waits unowned with the attempts it had |
| `WorkQueue.SettledIsOutOfReach` | app/pipeline/queue.py:366-482 | every settlement takes the item out of all hands, and what is parked, failed or done is not claimable |
| `WorkQueue.BackoffIsExponential` | app/pipeline/queue.py:385 | sixty seconds, doubled for every attempt after the first |
| `WorkQueue.RetriesAreBounded` | app/pipeline/queue.py:378-397 | a fresh item is executed at most `max_attempts` times, each failure waiting out its backoff, and then stays FAILED |
| `Caps.ReserveMeaning` | app/scheduler/caps.py:158-176 | a reservation succeeds exactly when both caps are positive and both periods have room, and takes one unit of the day and of the week or nothing |
| `Caps.GiveBackMeaning` | app/scheduler/caps.py:178-191 | a release returns one unit of exactly the named day and week |
| `Caps.PreviewAgrees` | app/execution/preconditions.py:178-204 | a preview writes nothing and refuses exactly when, and as, a reservation from the same state would |
| `Caps.CheckCapsBalanced` | app/execution/preconditions.py:178-204 | the ledger moves exactly as the attempt's own slot does, no period rises above its cap, and a granted check leaves a slot of the current day and week |
| `Caps.ReleaseBalanced` | app/scheduler/attempts.py:286-302 | ending an attempt hands back exactly the slot it held |
| `Caps.OwnWeekBlocksRefresh` | app/execution/preconditions.py:193-204 | an attempt holding a slot of a week is refused a move to another day of it exactly when the week is full |
| `Preconditions.FindingsMeaning` | app/execution/preconditions.py:57-134 | no finding is reported exactly when the conjunction of all submission-time conditions holds |
| `Preconditions.PreparationFindingsMeaning` | app/execution/preconditions.py:90-110 | the preparation is sound exactly when it gives no code, and each code is given exactly when its own condition fails |
| `Preconditions.OpeningFindingsMeaning` | app/execution/preconditions.py:112-123 | the opening is clear exactly when it gives no code, and each code is given exactly when its own condition fails |
| `Preconditions.CheckMeaning` | app/execution/preconditions.py:57-134 | the check passes exactly when every condition holds and a slot is held or free; preview and reservation agree on the failures |
| `Preconditions.CodesMeaning` | app/execution/preconditions.py:57-134 | which codes are reported, on any records: another tenant's attempt or one submitted already is reported alone, every other code exactly when its condition fails, a cap only when nothing else does, the day's before the week's |
| `Preconditions.PreconditionChecker.CountUnanswered` | app/execution/preconditions.py:106-108 | counts a required answer that needs input exactly when there is one |
| `Preconditions.PreconditionChecker.Check` | app/execution/preconditions.py:57-134 | failures, attempt and ledger are those of the specified evaluation |
| `Preconditions.PreconditionChecker.CheckPreparation` | app/execution/preconditions.py:90-110 | adds no code exactly when the preparation is sound, and each code exactly when its condition fails; what was found before stays |
| `Preconditions.PreconditionChecker.CheckOpening` | app/execution/preconditions.py:112-123 | adds no code exactly when opening and company are clear, and each code exactly when its condition fails; what was found before stays |
| `Preconditions.PreconditionChecker.CheckCaps` | app/execution/preconditions.py:178-204 | refusal, attempt and ledger are those of the specified cap check |
| `Preconditions.PreconditionChecker.ReserveSlot` | app/scheduler/caps.py:158-176 | the two conditional updates are the specified all-or-nothing reservation |
| `ExecutionServices.ExecutionService.Start` | app/execution/service.py:331-475 | commits what its table says for every outcome, and on this opportunity only: when it is that outcome, who has the item and when it can be claimed again, what the attempt says, where the slot is, and which run is on record |
| `ExecutionServices.ExecutionService.ReclaimLost` | app/execution/service.py:357-371 | the reclaim path of `start`: the run that was lost is closed, and the attempt is UNCERTAIN if `submit_invoked` is on record and READY otherwise |
| `ExecutionServices.ExecutionService.StartWhenReady` | app/execution/service.py:378-475 | kill switch and preconditions, then executor, documents, target and mutex; from where `start` comes to, the outcomes are those of its table (`StartOutcomes.StartReadyEnds`) |
| `ExecutionServices.ExecutionService.TakeAttempt` | app/execution/service.py:423-475 | the guarded update opens the run, or a rollback restores the committed records and releases the item |
| `ExecutionServices.ExecutionService.Park` | app/execution/service.py:1039-1045 | the item of an attempt that is not READY ends in nobody's hands, not claimable at any time and open to a requeue, by the attempt's status |
| `ExecutionServices.ExecutionService.SettleFailures` | app/execution/service.py:969-1015 | by membership of codes: one run more, STALE or PRECONDITION_FAILED; the attempt's status, key and slot; the item's state, owner, attempts and the end of the period that it waits for |
| `ExecutionServices.ExecutionService.RecoverLostRuns` | app/execution/service.py:489-543 | every opportunity is recovered as specified, none is left with a RUNNING run without a live lease, and the ledger is untouched |
| `ExecutionServices.ExecutionService.RecoverOne` | app/execution/service.py:507-541 | one turn of the recovery loop leaves run, attempt and item as its table says |
| `ExecutionServices.ExecutionService.PreSubmitGate` | app/execution/service.py:626-665 | a passed check is committed even when SAFE mode or the kill switch refuses; a failed one is rolled back |
| `ExecutionServices.ExecutionService.Gate` | app/execution/service.py:846-872 | owner, running run, single permission and live lease come before the gate, and permission is recorded on the run |
| `ExecutionServices.ExecutionService.Report` | app/execution/service.py:874-955 | accepted exactly when the transition table and the item's owner allow it, and then run, attempt, slot and item are what the table over the nine outcomes says; otherwise nothing changes |
| `ExecutionServices.ExecutionService.ReportSubmission` | app/execution/service.py:885-898 | the SUBMITTED branch, with the verdict the result brings |
| `ExecutionServices.ExecutionService.ReportDryRun` | app/execution/service.py:899-906 | the DRY_RUN branch clears `submit_invoked` and returns to READY |
| `ExecutionServices.ExecutionService.ReportUnknown` | app/execution/service.py:907-914 | the UNKNOWN branch records a possible click and a pending verdict |
| `ExecutionServices.ExecutionService.ReportRetryable` | app/execution/service.py:915-922 | back to READY with the backoff, or NEEDS_REVIEW and a FAILED item when retries are exhausted |
| `ExecutionServices.ExecutionService.ReportPermanent` | app/execution/service.py:923-927 | the attempt ends FAILED without its slot, the item FAILED in its owner's name |
| `ExecutionServices.ExecutionService.ReportHandoff` | app/execution/service.py:957-967 | the attempt is blocked and its key cleared |
| `ExecutionServices.ExecutionService.ReportCapWait` | app/execution/service.py:930-939 | a cap reached at the gate waits for the end of its period |
| `ExecutionServices.ExecutionService.ReportUnsubmitted` | app/execution/service.py:930-953 | the results that wait for a person |
| `ExecutionServices.ExecutionService.ApplyVerification` | app/execution/service.py:1085-1131 | every verdict reaches run, attempt and item as specified, or the item refuses it |
| `ExecutionServices.ExecutionService.Verify` | app/execution/service.py:1062-1083 | only submitted, unknown, verified, failed or handed-off runs take a verdict, and it leaves run, attempt and item as its table says |
| `ExecutionServices.ExecutionService.Confirm` | app/execution/service.py:1145-1160 | the candidate's word is a verdict; on a handed-off run it also puts the press on record |
| `ExecutionServices.ExecutionService.AnyAwaitingVerdict` | app/execution/service.py:1175-1177 | finds an unknown run without a verdict exactly when there is one |
| `ExecutionServices.ExecutionService.Retry` | app/execution/service.py:1170-1196 | a parked, failed or cancelled attempt returns to READY, a released one under a new number and without a slot, its item claimable at once; refused while submitted or while an unknown run waits |
| `ExecutionServices.ExecutionService.Reopen` | app/execution/service.py:1180-1189 | READY again without a key; a failed or cancelled attempt counts as a new one without a slot |
| `ExecutionServices.ExecutionService.CancelAttempt` | app/execution/service.py:1198-1215 | a submitted or uncertain attempt is not cancelled; any other ends without slot, key and item |
| `ExecutionServices.ExecutionService.Execute` | app/execution/service.py:549-599 | the exits of `start`, or the result that the executor's doings amount to reported on the run it opened; whatever the executor does, nothing it started is left hanging and an honest press stays on record |
| `ExecutionServices.ExecutionService.PerformUpToReport` | app/execution/service.py:573-583 | `submit_invoked` is recorded before the executor is let loose and withdrawn only when its error vouches for it |
| `Execution.CrashedRun` | app/execution/service.py:477-483 | the RUNNING run with the highest number, or none when nothing runs |
| `StartOutcomes.StartMeans` | app/execution/service.py:331-475 | for any records and every outcome of `start`: the condition under which it is that outcome, and run, attempt, slot and item afterwards, field by field |
| `StartOutcomes.StartReadyEnds` | app/execution/service.py:378-475 | the outcomes after the idempotency checks: paused, failed preconditions with exactly the codes whose conditions fail, no executor, documents, target, lost race, started |
| `StartOutcomes.SettlementMeans` | app/execution/service.py:969-1015 | what becomes of run, attempt, slot and item for every set of codes |
| `StartOutcomes.GateMeans` | app/execution/service.py:626-665 | yes exactly when no code is found, the tenant is LIVE and nothing is paused; a passed check leaves a slot of the current periods either way, a failed one nothing |
| `StartOutcomes.ExtensionGateMeans` | app/execution/service.py:846-872 | the extension's call asks owner, running run, earlier permission and lease first, and a yes is recorded on that run alone |
| `ReportOutcomes.ReportMeans` | app/execution/service.py:874-967 | all nine outcomes: when the report is accepted, the run's status, `submit_invoked` and verdict, the attempt's status, key and slot, the item's state, owner, lease, attempts and next claim |
| `ReportOutcomes.PermanentFailureCanBeRetried` | app/execution/service.py:923-1196 | after a permanent failure a retry is accepted exactly when no other run awaits its verdict, and opens a higher attempt number without a slot and a claimable item |
| `ReportOutcomes.VerifyMeans` | app/execution/service.py:1062-1131 | when a verdict is taken, and run, attempt and item for each verdict |
| `ReportOutcomes.ConfirmMeans` | app/execution/service.py:1145-1160 | when the candidate's word is taken, and what it leaves on record |
| `ReportOutcomes.RetryMeans` | app/execution/service.py:1170-1196 | when a retry is accepted; number, slot, key and item afterwards |
| `ReportOutcomes.CancelMeans` | app/execution/service.py:1198-1215 | when a cancellation is accepted; status, slot, key and item afterwards |
| `ReportOutcomes.RecoverRunMeans` | app/execution/service.py:507-541 | a lost run with a press on record awaits a verdict, one without may be repeated; attempt and item in either case |
| `ExecuteOutcomes.ExecuteMeans` | app/execution/service.py:549-599 | for everything an executor may do: which result is reported, whether submit counts as invoked then, and that up to the report only this and the slot change |
| `Executors.StartedMeans` | app/execution/service.py:331-475 | from any records `start` opens a run for this worker, or leaves the item in nobody's hands, or refuses with the records untouched |
| `Executors.ReportCloses` | app/execution/service.py:874-967 | from SUBMITTING every outcome is accepted and closes the run, the item and the attempt's SUBMITTING status |
| `Executors.NothingLeftHanging` | app/execution/service.py:549-599 | whatever the records and whatever the executor does, `execute` leaves the item unheld, the attempt not SUBMITTING and no run it started RUNNING |
| `Executors.NothingLeftHangingInRuns` | app/execution/service.py:331-475 | in every reachable state of every interleaving `start` opens a run or leaves nothing hanging, and a report, by whomever, changes nothing or closes run, item and SUBMITTING |
| `Executors.PressIsNeverForgotten` | app/execution/service.py:577-599 | after an honest executor pressed, `submit_invoked` is on record and the attempt is submitted, uncertain, or denied by the executor's own check |
| `Coupling.CouplingHolds` | app/execution/service.py:357-371 | in every reachable state an attempt is SUBMITTING exactly while one run is RUNNING, carries that run's key, and a READY attempt has no key |
| `Coupling.FreshStartNeverLosesRace` | app/execution/service.py:425-447 | from current data the guarded update is never defeated by a stale key |
| `Coupling.ReportAccepted` | app/execution/service.py:874-967 | every unforced transition made from SUBMITTING is in the table |
| `Coupling.HolderReportIsAccepted` | app/execution/service.py:874-967 | in every reachable state a worker that holds its claim can deliver any result |
| `AtMostOnce.AlwaysGood` | app/execution/service.py:331-543 | the invariant that makes an open press visible in the records holds in every reachable state |
| `AtMostOnce.AtMostOnePress` | app/execution/service.py:3-19 | under H1 and H2, in every interleaving, whether a press is made by the worker that started the run or by an owner that the extension's gate let through, two presses of one attempt are separated by a FAILED verdict on it followed by a person's retry |
| `PressedRun.AlwaysTracked` | app/execution/service.py:423-475 | in every such run an open or doubted press is of the attempt's latest execution, and executed runs are told apart by their number |
| `PressedRun.DenialConcernsThePress` | app/execution/service.py:1120-1127 | if every denial concerns a run of the latest execution, then between two presses the very run that pressed first is denied, and then a person retries |
| `RetryGuard.AlwaysIndebted` | app/execution/service.py:1085-1131 | in every such run a press that no retry has written off is on record at its run, which is marked denied only if it was denied since |
| `RetryGuard.GuardedRetrySuffices` | app/execution/service.py:1170-1196 | if retries are accepted only once every run with `submit_invoked` on record was denied, then between two presses the very run that pressed first is denied, and then a person retries, whichever other runs are denied |
| `TimedRuns.LeasesEnforceClaims` | app/pipeline/queue.py:220-331 | a run on a clock that never goes back, in which workers act in their runs only while their lease runs, no item in hand is cancelled and nobody reports on a run of others, goes exactly as if every worker had to hold its claim; the extension's gate may be called by anybody at any time |
| `TimedRuns.ActorsHold` | app/pipeline/queue.py:220-331 | in such a run whoever arms, gates, presses or reports holds the item under its own claim |
| `TimedRuns.AtMostOnePressOnTime` | app/execution/service.py:3-19 | at most one press between denials and retries, from leases: H1, H3, workers that stop when the lease runs out, no cancelled item in hand and no report on a run of others |
| `TimedRuns.DenialConcernsThePressOnTime` | app/execution/service.py:1120-1127 | from the same leases, if denials concern the latest execution the very run that pressed is denied |
| `TimedRuns.GuardedRetrySufficesOnTime` | app/execution/service.py:1170-1196 | from the same leases, if retries wait for every run with `submit_invoked` to be denied the very run that pressed is denied |
| `TimedRuns.CouplingOnTime` | app/execution/service.py:357-371 | from the same leases, the coupling of attempt and run |
| `CapConservation.ActBooks` | app/execution/preconditions.py:8-18 | every action moves the ledger exactly as it moves the slot of its attempt |
| `CapConservation.CapSlotsConserved` | app/execution/preconditions.py:125-134 | in every reachable state the usage of each day and week equals the number of attempts holding a slot of it and stays within the cap |
| `Gates.GateMeaning` | app/execution/service.py:634-663 | the gate passes exactly when LIVE, not paused, every precondition true with the attempt SUBMITTING, and a slot available, which is then held |
| `Gates.PermissionMeansEverythingHeld` | app/execution/service.py:626-665 | in every run a worker gains permission to press only through its own call of a gate that found all of this true at that instant |
| `Gates.SpentForever` | app/execution/service.py:856-857 | a run that is over or has `submit_invoked` recorded stays so through every continuation |
| `Gates.ExtensionGrantsOnce` | app/execution/service.py:846-872 | the extension gate gives permission at most once per run, to whichever worker calls it, with or without a session of its own |
| `Recovery.NothingLostRemains` | app/execution/service.py:489-543 | after recovery no RUNNING run is without a live lease |
| `Recovery.RecoveryIsIdempotent` | app/execution/service.py:489-543 | at a fixed clock a second recovery changes nothing |
| `Recovery.InvokedNeverReady` | app/execution/service.py:516-525 | a lost run with `submit_invoked` leaves its attempt UNCERTAIN, never READY |
| `Recovery.EagerAgreesWithLazy` | app/execution/service.py:357-371 | recovery and the reclaim path of `start` reach the same attempt and runs, apart from the verification mark |
| `Recovery.OnlyEagerRecoveryGuardsRetry` | app/execution/service.py:1175-1177 | the retry guard sees an eagerly settled run, and a lazily settled one only if its verdict was already pending |
| `Finality.SettledIsFinal` | app/pipeline/queue.py:452-469 | a SUCCEEDED item stays so in every continuation, with no further run and no further press |
| `Finality.RetryAfterDenialIsStranded` | app/execution/service.py:1170-1196 | denying a SUBMITTED run and retrying yields a READY attempt whose item is never claimable |
| `Finality.RetryLeadsOnExactly` | app/execution/service.py:1170-1196 | after an accepted retry the item is in a worker's hands or claimable at some later time exactly when it was there and not SUCCEEDED, or there was none and the attempt was not left released |
| `Leases.LeaseProtectsHolder` | app/pipeline/queue.py:220-290 | one step: while no clock reads past the lease, only the worker's own steps or a cancelled item end its hold |
| `Necessity.WithoutHonestExecutors` | app/execution/service.py:915-922 | without H1 a run presses twice |
| `Necessity.WithoutClaimHolders` | app/execution/service.py:634-663 | without H2 a recovered worker and its successor both press |
| `Necessity.CancelledUnderAWorker` | app/pipeline/queue.py:440-450 | a run on time, with every lease running, in which a cancelled and requeued item lets two workers press |
| `Necessity.ReportedByAnother` | app/execution/service.py:769-792 | a run on time, with every lease running and no item cancelled, in which a report by an owner that takes no part in the run lets submit be pressed twice without a verdict |
| `Necessity.OwnerPressesUnstarted` | app/execution/service.py:846-872 | under all hypotheses an owner that never called `start` is let through by the extension's gate and presses in another worker's run |
| `Necessity.WithoutClaimHoldersUncoupled` | app/execution/service.py:940-953 | without H2 a result parks an attempt whose run is another worker's |
| `Necessity.WithoutQuietVerdicts` | app/execution/service.py:1120-1127 | without H3 a verdict parks an attempt whose run is RUNNING |
| `Necessity.DenialOfAnotherRun` | app/execution/service.py:1120-1127 | under all hypotheses the separating denial can concern a different run, after a lazy reclaim |
| `Necessity.LikelyThenRetried` | app/execution/service.py:1111-1119 | under all hypotheses, with no crash and no recovery, a run judged LIKELY is pressed over after the denial of an older one |
| `SubmissionModes.LiveWasChosen` | app/execution/submission_mode.py:58-94 | a tenant is LIVE exactly when someone switched that tenant to LIVE in this process and nothing undid it |
| `SubmissionModes.SubmissionMode.IsLiveEnabled` | app/execution/submission_mode.py:63-66 | answers by the history of switches; a missing tenant is SAFE |
| `SubmissionModes.SubmissionMode.SetModeTo` | app/execution/submission_mode.py:69-80 | accepts only a named tenant and a known mode, and changes that tenant alone |
| `SubmissionModes.SubmissionMode.ResetAll` | app/execution/submission_mode.py:91-94 | every tenant is SAFE |
| `Options.ChosenOccursOnce` | app/execution/forms.py:212-251 | the chosen label is offered exactly once and is the only offered label that passes a test the answer asks for |
| `Options.ChoiceIgnoresOrder` | app/execution/forms.py:212-251 | the choice is the same for every permutation of the options |
| `Options.ChoiceIgnoresIrrelevant` | app/execution/forms.py:212-251 | an option that passes no test does not change the choice |
| `Options.LookupIsWellDefined` | app/execution/forms.py:460-463 | the lookup from label to option finds one option and there is no second |
| `Options.MatchIsOffered` | app/execution/forms.py:448-463 | every selected value is an offered one |
| `Options.MultiSelectNamesItsPicks` | app/execution/forms.py:450-456 | a multi-select picks only options the answer names exactly when the answer does not normalise to nothing or some option does; otherwise it picks all |
| `Options.ChosenExactly` | app/execution/forms.py:212-251 | a label is chosen exactly when it is singled out by the first test in turn that singles any label out: equal, same polarity, all parts, the parts alone, containment, degree |
| `Options.SelectedExactly` | app/execution/forms.py:448-463 | exactly which values are selected: of a multi-select all options picked, of a single box a yes, otherwise the one option that carries the chosen label |
| `FormMapping.TypedFits` | app/execution/forms.py:415-445 | an answered field holds the text, or the number or date in it, and offered options only |
| `FormMapping.NoInventedAnswers` | app/execution/forms.py:287-385 | every ANSWERED field traces to one profile fact, prepared answer, bank entry or artifact; unknown types are never answered |
| `FormMapping.SensitiveQuestionsStayExact` | app/execution/forms.py:388-394 | employer-specific, education and conflict-of-interest questions take a bank entry only on the exact question key |
| `FormMapping.VoluntaryIsLeftToTheCandidate` | app/execution/forms.py:325-329 | voluntary questions and secrets are not answered |
| `FormMapping.DelicateTakesNoSharedAnswer` | app/execution/forms.py:397-412 | authorisation for another country, earlier work at this employer, optional consents and consents in a field that is no box or choice take a bank answer only on the exact question key |
| `FormMapping.ExperienceWithIsShared` | app/execution/forms.py:366-368 | for every field and package an experience question outside the identity, secret and link stages is typed from its category's bank entry if and only if nothing else is found |
| `FormAnswers.TypedExactly` | app/execution/forms.py:415-445 | for every field, text and origin: answered exactly when the text fits the field's kind (always in the four text kinds), otherwise asked or skipped; answer, selection and origin in either case |
| `FormAnswers.MappedExactly` | app/execution/forms.py:287-412 | which record answers: identity fact, link, prepared answer and bank entry for the exact question, open question, prepared answer of the category, guard, shared bank entry, taught fact, location; the first that is recorded decides, and without one the field is left to the candidate or to review |
| `FormAnswers.MapFields` | app/execution/forms.py:269-278 | the dictionaries built by the loops give every field, in order, the row that the package's records call for |
| `FormMapping.Blocking` | app/execution/forms.py:480-484 | the counts are zero exactly when no required field needs the candidate or a review |
| `FormMapping.NothingBlocksMeansAnswered` | app/execution/forms.py:480-484 | in a form that `blocking` lets through every required field is answered from a record; optional ones may stay open |
| `FormCapture.CandidateAnswersStay` | app/execution/service.py:717-729 | over any interleaving of captures and answers a candidate-answered field changes only through another answer to it |
| `FormCapture.OwnedWasAnswered` | app/execution/service.py:1226-1228 | only the candidate's answer makes a field the candidate's |
| `FormCapture.OthersAreFresh` | app/execution/service.py:717-729 | after any history, every field of a just captured form that is not the candidate's is exactly the fresh mapping at its position, in all columns |
| `FormCapture.StructureIsAsFirstCaptured` | app/execution/service.py:700-729 | a stored row describes the captured field exactly when the shape was new or its first capture had the same label and options |
| `FormCapture.OptionValuesAreAsFirstCaptured` | app/execution/service.py:700-729 | a form whose option values change keeps the old ones next to a freshly selected new one |
| `FormCapture.CapturedForms.Capture` | app/execution/service.py:667-734 | the loops over fields and rows store exactly the specified rows |
| `FormCapture.CapturedForms.AnswerField` | app/execution/service.py:1217-1236 | an empty answer is refused; any other is stored as the candidate's, selects what it matches or stands for itself, and changes no other row |
| `Storage.RelativePath` | app/documents/storage.py:54-66 | a path is given exactly for safe components, a known type and a positive version, and consists of them |
| `Storage.PathsDistinct` | app/documents/storage.py:54-66 | two artifacts share a file only if they agree in every part of their identity |
| `Storage.ArtifactStore.WriteImmutable` | app/documents/storage.py:82-99 | an existing file is refused; a new one adds exactly itself |
| `Storage.ArtifactStore.Verify` | app/documents/storage.py:101-124 | no problem is reported exactly when the file is present, non-empty, of the recorded size and hash, within bounds and of its format |
| `Documents.DocumentService.GetOrRender` | app/documents/service.py:142-240 | for every request and whatever state the files are in: each answer exactly in its own case; reuses only an intact artifact with the same inputs; a new one is the key's only ACTIVE one at the first version after the latest row without a file; no file ever changes |
| `Documents.DocumentService.FirstFreeVersion` | app/documents/service.py:197-214 | in an undamaged store the version written is the first without a file: all earlier ones have theirs |
| `Documents.DocumentService.WriteVersion` | app/documents/service.py:191-240 | choosing a version fails exactly when more than fifty files follow the latest row |
| `Documents.DocumentService.ChooseVersion` | app/documents/service.py:197-208 | the loop passes at most fifty existing files and stops at the first free version |
| `Documents.DocumentService.ReuseOrRetire` | app/documents/service.py:159-170 | the ACTIVE artifact is reused exactly when its file verifies and its inputs are the same, and otherwise retired; missing and altered files included |
| `Documents.DocumentService.Invalidate` | app/documents/service.py:291-301 | only the ACTIVE mark of one row changes, counted once |
| `Documents.DocumentService.Materialize` | app/documents/service.py:264-284 | a path is given exactly for an eligible artifact whose file verifies; an eligible one that is missing, truncated or altered is retired |
| `Documents.DocumentService.Rollback` | app/documents/service.py:199-204 | after a rollback the structure holds for the committed rows, and undamaged files stay so |
| `Documents.BlockedForGood` | app/documents/service.py:204-214 | the block is fifty-one files after the latest row and nothing lifts it |
| `Evidence.AlwaysAudited` | app/career/repository.py:339-488 | for every sequence of calls the truth rules hold, verifier and VERIFIED go together, version counts audit events, and the events form a chain that ends in the row |
| `Evidence.CreateMeans` | app/career/repository.py:339-392 | a node is created exactly for a new key, no extraction passed off as verified and flags its status allows; every column of it |
| `Evidence.UpdateMeans` | app/career/repository.py:394-462 | an update is refused only for a missing key or flags the new status would not allow; every column of the new version |
| `Evidence.UpsertProfileMeans` | app/career/repository.py:229-290 | when a profile is accepted, and fields, preferences, hash, version and event afterwards |
| `Evidence.EvidenceRepository.CreateNode` | app/career/repository.py:339-392 | creates the node with the flags and verifier its status calls for and one event, or refuses |
| `Evidence.EvidenceRepository.UpdateNode` | app/career/repository.py:394-462 | given fields replace, a moved status takes flags and verifier along; a change is a new version with its event, no change writes neither |
| `Evidence.EvidenceRepository.SetNodeActive` | app/career/repository.py:464-488 | removal and restoration touch activity and version only, once, with an event |
| `Evidence.EvidenceRepository.AddRelationship` | app/career/repository.py:494-536 | idempotent; only a new link is recorded |
| `Evidence.EvidenceRepository.UpsertProfileRow` | app/career/repository.py:229-290 | the profile row is created, changed with its audit entry, or left alone; given fields replace and the others stay; a nameless one is refused |
| `SeedImport.SecondImportIsQuiet` | app/career/importer.py:83-264 | after any edits by people through the repository, new nodes, links and profile included, a second unforced import creates and updates nothing, skips every key, keeps every edit but the order, and is silent exactly when no link step finds both ends and no link |
| `SeedImport.RepositoryEdits` | app/career/repository.py:229-536 | whatever people do through the repository, in any number of calls without a source hash, removes no node and touches no source hash |
| `SeedImport.QuietExactlyWhenSettled` | app/career/importer.py:396-400 | with links and nodes as the first import left them, that is exactly when every conditional link was made on the way |
| `SeedImport.SecondDocumentImportIsQuiet` | app/career/importer.py:83-279 | the same for whole documents: the profile is skipped and stays as edited |
| `SeedImport.QuietMeansUniform` | app/career/importer.py:325-389 | a second import that updates nothing implies that no key had two hashes |
| `SeedImport.UpsertMeans` | app/career/importer.py:325-389 | every column of the node after creating, skipping or overwriting, and the one list of the report that names its key |
| `SeedImport.PlanExactly` | app/career/importer.py:83-318 | an import takes exactly the steps its document asks for: every record and part as a node, every part linked to its owner, remarks and shown skills linked where both ends exist |
| `SeedImport.ForwardReferenceIsLinkedLate` | app/career/importer.py:396-400 | a fact about a later node makes the second import create a relationship |
| `SeedImport.ReorderAndTheTrail` | app/career/importer.py:367-371 | the silent order write keeps the trail apart from the order, and exactly only when the order was that already |
| `SeedImport.ImportKeepsTrail` | app/career/importer.py:325-400 | every import keeps the truth rules and the audit chain apart from the order |
| `SeedImport.DocumentKeepsTrail` | app/career/importer.py:83-279 | every import of a document, profile included, keeps the truth rules and the audit chains apart from the order |
| `SeedImport.SeedImporter.UpsertSeed` | app/career/importer.py:325-389 | create, skip or update, as specified |
| `SeedImport.SeedImporter.LinkIfExists` | app/career/importer.py:396-400 | a link only between existing nodes |
| `SeedImport.SeedImporter.ImportProfileSeed` | app/career/importer.py:268-279 | no profile, a skipped one, or the repository's upsert |
| `SeedImport.SeedImporter.ImportData` | app/career/importer.py:83-279 | profile and loops carry out exactly the plan of the document, or roll back |
| `AiGateway.TenantOnlyNarrows` | app/ai/gateway.py:199-242 | every effective limit is the smaller of the tenant's and the global one; a tenant's settings never switch on what is off or choose a foreign provider |
| `AiGateway.ProvidersSeeOnlyWhatTheyMay` | app/ai/gateway.py:199-288 | among calls of any tenants a call is let through exactly when its provider is enabled under its own tenant's settings, configured, allowed for this data and the prompt holds no credentials, and reaches a provider only then; candidate data never reaches a remote provider off the global list |
| `AiGateway.CallsAreBudgeted` | app/ai/gateway.py:249-329 | over every sequence of calls by any tenants on any budgets, whatever providers answer: each budget is charged exactly the provider calls made on it, within its limit, and counts those it turned away; every call has exactly one record |
| `AiGateway.QuestionsKeepLimits` | app/ai/gateway.py:199-312 | over every sequence of calls by any tenants: one question for each call that reaches a provider, and none above the global limits, its tenant's, or its request's non-zero wish |
| `AiGateway.QuestionIsNarrowed` | app/ai/gateway.py:309-312 | token limit and timeout put to the provider are at most the effective ones and the request's non-zero wishes, and equal to one of the two |
| `AiGateway.StatusMeans` | app/ai/gateway.py:249-329 | each status exactly in its own case, and with it output, model, cache entry and whether a provider was asked |
| `AiGateway.CandidateHitsStayHome` | app/ai/cache.py:24-43 | among calls of all tenants under their own settings a cache hit on candidate data was stored by a request of the same tenant with the same operation and input, and returns what that was answered |
| `AiGateway.CacheIsTransparent` | app/ai/gateway.py:286-329 | when providers answer the same question alike, validation is idempotent and calls that share a key ask the same question, the cache changes no answer that is not exhausted without it |
| `AiGateway.SharedKeyChangesAnAnswer` | app/ai/cache.py:24-43 | for any two cacheable calls that share a key and differ in provider, prompt, schema or effective limits there are providers and an idempotent validation for which the cache changes an answer |
| `AiGateway.KeyIgnoresLimits` | app/ai/cache.py:24-43 | the same shared request of two tenants, one with a narrow output limit, shares an entry |
| `AiGateway.CallBudget.TakeOne` | app/ai/budget.py:25-35 | every request is a call or a refusal, a call is granted exactly below the limit and keeps within it, and is counted for its operation |
| `AiGateway.Gateway.Run` | app/ai/gateway.py:249-329 | state and response are those of the specified decision under the caller's settings, and its record; a provider that is reached is asked the request's prompt, for JSON exactly when a schema is given, under the smaller of the request's non-zero wish and the effective limit |
| `AiGateway.Gateway.Finish` | app/ai/gateway.py:93-104 | exactly one record more, the newest first, at most 500 kept, and a call counted only with an OK |
| `RateLimit.TokenBucket.Acquire` | app/jobs/ratelimit.py:33-50 | keeps the bound; one sleep of the computed length is enough for a request within capacity; more is never granted |
| `RateLimit.TokenBucket.constructor` | app/jobs/ratelimit.py:26-31 | rate, capacity and a full bucket |
| `RateLimit.RateBound` | app/jobs/ratelimit.py:23-50 | in any window of length t at most capacity + rate * t tokens are granted |
| `Stats.WilsonIsScoreTest` | app/learning/stats.py:35-43 | the interval is exactly the set of rates the score test accepts, contains the raw rate, and is never clamped |
| `Stats.WilsonReflects` | app/learning/stats.py:35-43 | swapping positives and negatives reflects the interval |
| `Stats.WilsonWidens` | app/learning/stats.py:35-43 | a larger z never loses a rate |
| `Stats.NegativeZSwaps` | app/learning/stats.py:35-43 | a negative z returns the bounds in the wrong order |
| `Stats.SmoothedBetween` | app/learning/stats.py:25-32 | the smoothed rate lies between raw rate and clamped baseline exactly when the strength is not negative, the two coincide, or the prior is returned itself |
| `Stats.SmoothedOfNothing` | app/learning/stats.py:25-32 | an empty group is the baseline |
| `Stats.MoreDataIsPulledLess` | app/learning/stats.py:25-32 | more data at the same rate is pulled less towards the baseline |
| `Dataset.NoLookAhead` | app/learning/dataset.py:50-138 | attempts created, runs started and events observed after the cutoff, anywhere in the tables, leave every row as it was |
| `Dataset.RunUpdateLeaksExactly` | app/learning/dataset.py:69-161 | for all tables: settling a run anew is unseen exactly when every attempt with a row that sees the run reads the same from it: verified or not and, where it is the last run, the same execution method, verdict, review mark and doubt |
| `Dataset.EarlierRunsAreDated` | app/learning/dataset.py:128-130 | a run that is not the last visible one of its attempt changes nothing unless its dated verification does |
| `Dataset.AttemptUpdateLeaksExactly` | app/learning/dataset.py:59-130 | for all tables: an update of an attempt is unseen exactly when its row, or its having none, reads the same |
| `Dataset.LateVerifiedAtIsHarmless` | app/learning/dataset.py:128 | a verification time after the cutoff may come, go or move |
| `Dataset.WithdrawnEventLeaksExactly` | app/learning/dataset.py:72-78 | for all tables: retracting or superseding an event is unseen exactly when no attempt with a row sees the event |
| `Dataset.OrderedIsSort` | app/learning/dataset.py:182 | the sorted rows are in the order of submission and id and are exactly the collected ones |
| `Dataset.LateUpdatesLeak` | app/learning/dataset.py:60-97 | a run or attempt updated in place, or an event retracted, after the cutoff changes or removes its row |
| `Dataset.LowerThresholdOnlyAdds` | app/learning/dataset.py:109-138 | a lower evidence threshold keeps the rows, only turns labels on, and never increases the days to a response |
| `Dataset.GroupRuns` | app/learning/dataset.py:69-71 | the grouping loop gives each attempt its visible runs |
| `Dataset.GroupEvents` | app/learning/dataset.py:71-78 | the grouping loop gives each attempt its visible events |
| `Dataset.CountEvidence` | app/learning/dataset.py:109-117 | the event loop separates events by the threshold and tallies the evidence |
| `Dataset.DatasetTells` | app/learning/dataset.py:50-183 | for every row of the dataset, on the events and runs themselves: which labels hold, the time to the earliest response and rejection, the best evidence and its counts, and what the last visible run says; and exactly which attempts have a row |
| `Dataset.LabelsMean` | app/learning/dataset.py:109-126 | a label holds exactly when a visible event of the attempt with enough evidence has one of its outcomes, and the earliest of them is the first |
| `Dataset.BuildDataset` | app/learning/dataset.py:90-183 | the loops give the specified rows, in order and none lost, and on the tables themselves each row tells of one attempt that has one, and every such attempt is told |

## Left out

- Tenants: the protocol and the document, evidence and capture stores are modelled for one tenant; the dataset, the gateway's settings and the cache key carry the tenant.
- Company history, cooldown and duplicate indexes: they are read as findings of the check; their queries are not modelled.
- Executors, renderers, AI providers and the browser: functions or scripts of what they may do; their own code is foreign.
- PREPARE items, staleness recomputation and the preparation service: `start` and `cancel` also requeue or close a PREPARE item.
- Audit rows of the execution service, signals, candidate-opportunity states, messages, reasons and timestamps of runs and attempts: no decision reads them.
- Queue lanes, priorities and claim ordering: one SUBMIT item per opportunity is modelled.
- Protocol.ActStartStale: run number and key are taken from the current record, not from the stale read (app/execution/service.py:424-425); when another execution came in between, the stale number repeats an `idempotency_key` and the unique index (app/execution/database/models.py:47) refuses the run.
- ExecutionServices.ExecutionService.RecoverLostRuns: the query has no order; the model visits the runs of an opportunity in order, which matters only on uncoupled records, where more than one run is RUNNING.
- TimedRuns.AtMostOnePressOnTime: one clock for all workers and the database; skew between clocks is not modelled.
- Dataset.BuildDataset: the columns taken over from the joined tables are one value; runs come in run-number and events in event order, as the queries sort them; elapsed time is kept in the tables' unit, so the division into days and its rounding are not modelled.
- Stats.WilsonIsScoreTest: exact reals with a given square root; floating-point rounding, `confidence_for` and `median` are not modelled.
- Stats.SmoothedBetween: also covers a negative prior strength, which the settings model refuses, as NegativeZSwaps covers a z that no caller passes.
- RateLimit.TokenBucket.Acquire: the clock is a given sequence of readings in exact reals; the lock and the registry of buckets are not modelled.
- Storage.RelativePath: surrounding blanks are the ASCII ones; `absolute` and symbolic links are not modelled, nor is a write that fails half-way.
- Documents.DocumentService.GetOrRender: a single writer; the input fingerprint is given with the request.
- FormMapping.NoInventedAnswers: regular expressions, the question classifier on normalised questions and the number and date parsers are functions; reasons and the length limits of columns are not modelled.
- FormCapture.OthersAreFresh: the fingerprint is read as the form's shape, without digest collisions.
- SeedImport.SecondImportIsQuiet: the text of labels and claims is not modelled; edits in between touch no hash.
- AiGateway.CacheIsTransparent: token usage, latency and the disk cache's read errors are not modelled; keys are read as collision-free.
- The desktop application, HTTP routes, authentication, scheduler admission, geography and the legacy `engine.submit` path.
