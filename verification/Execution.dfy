/** What each operation of ExecutionService (app/execution/service.py) does to the records of one
    opportunity and to the cap ledger.

    A tenant has one attempt and one SUBMIT item per opportunity (both are unique keys) and every run
    belongs to that attempt, so the three tables are read here as one `Case` per opportunity. An
    operation is a function of the case and the ledger; a raised error leaves both as they were
    unless the source committed first. */
module Execution {
  import opened Base
  import opened Lifecycle
  import opened WorkQueue
  import opened Caps
  import opened Preconditions

  datatype RunStatus =
    | Running | DryRunDone | RunSubmitted | RunVerified | VerificationFailed | FailedRetryable
    | FailedPermanent | HandedOff | RunNeedsUserInput | RunNeedsReview | PreconditionFailed | Stale | RunUnknown

  datatype Verdict = NotAttempted | VerdictPending | VerdictVerified | VerdictLikely | VerdictFailed | VerdictUnknown

  datatype Run = Run(
    key: RunKey,
    number: nat,
    worker: Worker,
    status: RunStatus,
    submitInvoked: bool,
    verification: Verdict)

  datatype Case = Case(attempt: Option<Attempt>, item: Option<Item>, runs: seq<Run>)

  /** What one service call reads from the clock, the policy, the switches and the other tables. */
  datatype Call = Call(now: int, keys: Keys, dayEnds: int, weekEnds: int, policy: Policy, live: bool, paused: bool,
    facts: Facts)

  /** Whether the executor is registered, the documents rendered, and the target one it handles. */
  datatype Kit = Kit(executorKnown: bool, documentsOk: bool, canHandle: bool)

  datatype Outcome = Submitted | DryRun | Unknown | RetryableFailure | PermanentFailure | Handoff
                   | NeedsReview | NeedsUserInput | FormChanged

  /** `capWait`: a POLICY result whose message names a reached cap, with the end of that cap's period. */
  datatype Result = Result(outcome: Outcome, submitAttempted: bool, capWait: Option<int>, verification: Option<Verdict>)

  // --------------------------------------------------------------- the runs

  predicate IsRunning(runs: seq<Run>, i: int) {
    0 <= i < |runs| && runs[i].status.Running?
  }

  /** `_crashed_run`: the RUNNING run with the highest run number. */
  function CrashedRun(runs: seq<Run>): (r: Option<nat>)
    ensures r.Some? ==> IsRunning(runs, r.value) && forall i :: IsRunning(runs, i) ==>
      runs[i].number <= runs[r.value].number
    ensures r.None? ==> forall i :: !IsRunning(runs, i)
  {
    if runs == [] then None
    else
      var n := |runs| - 1;
      var before := CrashedRun(runs[..n]);
      assert forall i :: 0 <= i < n ==> (IsRunning(runs, i) <==> IsRunning(runs[..n], i));
      if runs[n].status.Running? && (before.None? || runs[before.value].number <= runs[n].number) then Some(n)
      else before
  }

  function SetRun(c: Case, r: nat, run: Run): Case
    requires r < |c.runs|
  {
    c.(runs := c.runs[r := run])
  }

  function FinishRun(c: Case, r: nat, status: RunStatus): Case
    requires r < |c.runs|
  {
    SetRun(c, r, c.runs[r].(status := status))
  }

  function SetItem(c: Case, it: Item): Case {
    c.(item := Some(it))
  }

  function SetAttempt(c: Case, a: Attempt): Case {
    c.(attempt := Some(a))
  }

  // ------------------------------------------------------------------ start

  datatype StartOutcome =
    | NotOwner | NoAttempt | AlreadyDone | AwaitingVerification | NotReady | Paused
    | PreconditionsFailed(codes: seq<Code>) | NoExecutor | DocumentFailed | CannotHandle | LostRace
    | Started(run: nat)

  datatype StartStep = StartStep(c: Case, ledger: Ledger, outcome: StartOutcome)

  /** The reclaim path: what `start` does with a SUBMITTING attempt before anything else. */
  function Reclaim(c: Case): Case
    requires c.attempt.Some?
  {
    var a := c.attempt.value;
    var crashed := CrashedRun(c.runs);
    if crashed.Some? && c.runs[crashed.value].submitInvoked
    then SetAttempt(FinishRun(c, crashed.value, RunUnknown), a.(status := Uncertain))
    else
      var c1 := if crashed.Some? then FinishRun(c, crashed.value, FailedRetryable) else c;
      SetAttempt(c1, a.(status := Ready, key := None))
  }

  function ParkItem(it: Item, status: Status): Item {
    match status
    case NeedsUserInput => Block(it)
    case Blocked => Block(it)
    case Failed => Cancel(it)
    case Cancelled => Cancel(it)
    case Closed => Cancel(it)
    case _ => Review(it)
  }

  function StartOp(c: Case, l: Ledger, w: Worker, call: Call, kit: Kit): StartStep
    requires c.item.Some?
  {
    var it := c.item.value;
    if !HeldBy(it, w) then StartStep(c, l, NotOwner)
    else
      var it1 := it.(state := Processing);
      if c.attempt.None? then StartStep(SetItem(c, Fail(it1, false, call.now)), l, NoAttempt)
      else StartAttempt(c, SetItem(c, it1), l, w, call, kit)
  }

  /** What happened before decides whether the attempt is executed at all. */
  function StartAttempt(orig: Case, c: Case, l: Ledger, w: Worker, call: Call, kit: Kit): StartStep
    requires orig.item.Some? && c.item.Some? && c.attempt.Some?
  {
    var it := c.item.value;
    match c.attempt.value.status
    case Submitted => StartStep(SetItem(c, Succeed(it)), l, AlreadyDone)
    case Verified => StartStep(SetItem(c, Succeed(it)), l, AlreadyDone)
    case Uncertain => StartStep(SetItem(c, Review(it)), l, AwaitingVerification)
    case Submitting =>
      var c1 := Reclaim(c);
      if c1.attempt.value.status == Uncertain then StartStep(SetItem(c1, Review(it)), l, AwaitingVerification)
      else StartReady(orig, c1, l, w, call, kit)
    case Ready => StartReady(orig, c, l, w, call, kit)
    case other => StartStep(SetItem(c, ParkItem(it, other)), l, NotReady)
  }

  /** The rest of `start` once the attempt is READY. `orig` is the committed state a lost race rolls back to. */
  function StartReady(orig: Case, c: Case, l: Ledger, w: Worker, call: Call, kit: Kit): StartStep
    requires orig.item.Some? && c.item.Some? && c.attempt.Some?
  {
    var it := c.item.value;
    if call.paused then StartStep(SetItem(c, Release(it).(availableAt := call.now + 600)), l, Paused)
    else
      var report := Evaluate(call.facts, c.attempt.value, l, call.policy, call.keys, true, false);
      var c1 := SetAttempt(c, report.attempt);
      if report.failures != [] then
        var (c2, l2) := SettlePreconditions(c1, report.ledger, w, call, report.failures);
        StartStep(c2, l2, PreconditionsFailed(report.failures))
      else StartChecked(orig, c1, l, report.ledger, w, kit)
  }

  /** The preconditions hold and the slot is taken: executor, documents, target, mutex. */
  function StartChecked(orig: Case, c: Case, origLedger: Ledger, l: Ledger, w: Worker, kit: Kit): StartStep
    requires orig.item.Some? && c.item.Some? && c.attempt.Some?
  {
    var it := c.item.value;
    var a := c.attempt.value;
    if !kit.executorKnown then StartStep(SetItem(c, Release(it)), l, NoExecutor)
    else if !kit.documentsOk then
      StartStep(SetItem(SetAttempt(c, a.(status := Status.NeedsReview)), Review(it)), l, DocumentFailed)
    else if !kit.canHandle then
      StartStep(SetItem(SetAttempt(c, a.(status := Blocked, key := None)), Block(it)), l, CannotHandle)
    else TakeMutex(orig, c, origLedger, l, w)
  }

  /** The guarded UPDATE: READY and no submission key, or zero rows and a rollback. */
  function TakeMutex(orig: Case, c: Case, origLedger: Ledger, l: Ledger, w: Worker): StartStep
    requires orig.item.Some? && c.attempt.Some?
  {
    var a := c.attempt.value;
    if a.status == Ready && a.key.None? then
      var key := SubmitKey(a.number, a.executions + 1);
      var run := Run(key, a.executions + 1, w, Running, false, NotAttempted);
      StartStep(
        SetAttempt(c, a.(status := Submitting, key := Some(key), executions := a.executions + 1))
          .(runs := c.runs + [run]),
        l,
        Started(|c.runs|))
    else StartStep(SetItem(orig, Release(orig.item.value)), origLedger, LostRace)
  }

  datatype Settlement =
    | SettleStale | SettleAlready | SettleClosed | SettleCooldown | SettleCapWait | SettleUserInput | SettleReview

  /** The order in which a set of failed preconditions is settled. */
  function SettlementFor(codes: set<Code>): Settlement {
    if PreparationStale in codes || PreparationNotCurrent in codes then SettleStale
    else if AlreadySubmitted in codes then SettleAlready
    else if CompanyBlocked in codes || OpportunityClosed in codes || DuplicateApplication in codes
      || DuplicateOpportunity in codes then SettleClosed
    else if CooldownActive in codes then SettleCooldown
    else if CapReached(DailyCapReached) in codes || CapReached(WeeklyCapReached) in codes then SettleCapWait
    else if UserInputRequired in codes then SettleUserInput
    else SettleReview
  }

  function SettlePreconditions(c: Case, l: Ledger, w: Worker, call: Call, codes: seq<Code>): (Case, Ledger)
    requires c.attempt.Some? && c.item.Some?
  {
    var a := c.attempt.value;
    var it := c.item.value;
    var how := SettlementFor(set x | x in codes);
    var run := Run(PreKey(a.number, call.now), a.executions, w, if how.SettleStale? then Stale else PreconditionFailed,
                   false, NotAttempted);
    var c1 := c.(runs := c.runs + [run]);
    match how
    case SettleStale => (SetItem(SetAttempt(c1, a.(status := Preparing, key := None)), Review(it)), l)
    case SettleAlready => (SetItem(c1, Succeed(it)), l)
    case SettleClosed =>
      var (a1, l1) := ReleaseAttempt(a, l, Closed);
      (SetItem(SetAttempt(c1, a1), Cancel(it)), l1)
    case SettleCooldown => (SetItem(SetAttempt(c1, a.(status := Blocked)), Block(it)), l)
    case SettleCapWait => (SetItem(c1, Release(it).(availableAt := PeriodEnd(call, codes))), l)
    case SettleUserInput => (SetItem(SetAttempt(c1, a.(status := Status.NeedsUserInput)), Block(it)), l)
    case SettleReview => (SetItem(SetAttempt(c1, a.(status := Status.NeedsReview)), Review(it)), l)
  }

  /** `_period_end`: when an item that waits for capacity may be claimed again. */
  function PeriodEnd(call: Call, codes: seq<Code>): int {
    if CapReached(DailyCapReached) in codes then call.dayEnds else call.weekEnds
  }

  // -------------------------------------------------- the gate before a click

  datatype GateStep = GateStep(c: Case, ledger: Ledger, ok: bool)

  /** `_pre_submit_gate`: the reservation is committed when the preconditions pass, even if SAFE mode or
      the kill switch then refuses the click. */
  function GateOp(c: Case, l: Ledger, call: Call): GateStep {
    if c.attempt.None? then GateStep(c, l, false)
    else
      var report := Evaluate(call.facts, c.attempt.value, l, call.policy, call.keys, true, true);
      if report.failures == []
      then GateStep(SetAttempt(c, report.attempt), report.ledger, call.live && !call.paused)
      else GateStep(c, l, false)
  }

  /** `gate`: the extension's call. Owner, running run, one permission per run, live lease, then the gate. */
  function ExtensionGateOp(c: Case, l: Ledger, w: Worker, call: Call): GateStep
    requires c.item.Some?
  {
    var it := c.item.value;
    var running := CrashedRun(c.runs);
    if !Owns(it, w) || c.attempt.None? || running.None? then GateStep(c, l, false)
    else if c.runs[running.value].submitInvoked then GateStep(c, l, false)
    else if it.lease.Some? && it.lease.value < call.now then GateStep(c, l, false)
    else
      var g := GateOp(c, l, call);
      if g.ok then GateStep(SetRun(g.c, running.value, g.c.runs[running.value].(submitInvoked := true)), g.ledger, true)
      else g
  }

  // ------------------------------------------------------------------ report

  datatype Reported = Done(c: Case, ledger: Ledger) | Refused

  function Move(a: Attempt, to: Status): Option<Attempt> {
    if MayMove(a.status, to) then Some(a.(status := to)) else None
  }

  /** `_report`: the run's result reaches the run, the attempt and the item together, or not at all
      (an illegal transition or a lost ownership raises, and the transaction is rolled back). */
  function ReportOp(c: Case, l: Ledger, w: Worker, r: nat, res: Result, now: int): Reported
    requires c.attempt.Some? && c.item.Some? && r < |c.runs|
  {
    var run := c.runs[r];
    var it := c.item.value;
    var a := c.attempt.value;
    var c0 := SetRun(c, r, run.(submitInvoked := run.submitInvoked || res.submitAttempted));
    match res.outcome
    case Submitted =>
      var c1 := FinishRun(c0, r, RunSubmitted);
      (match Move(a, Status.Submitted)
       case None => Refused
       case Some(a1) =>
         if !Owns(it, w) then Refused
         else
           var c2 := SetItem(SetAttempt(c1, a1), Succeed(it));
           if res.verification.Some? then ApplyVerdict(c2, l, r, res.verification.value, false) else Done(c2, l))
    case DryRun =>
      Settle(SetRun(c0, r, c0.runs[r].(submitInvoked := false, status := DryRunDone)), l, Ready, Some(Review(it)))
    case Unknown =>
      (match Move(a, Uncertain)
       case None => Refused
       case Some(a1) =>
         var unsure := run.(submitInvoked := true, status := RunUnknown, verification := VerdictPending);
         Done(SetItem(SetAttempt(SetRun(c0, r, unsure), a1), Review(it)), l))
    case RetryableFailure =>
      var it1 := Fail(it, true, now);
      if !Owns(it, w) || !MayMove(a.status, Ready) then Refused
      else
        // retries exhausted: READY, then NEEDS_REVIEW
        var next := if it1.state.FailedItem? then Status.NeedsReview else Ready;
        Done(SetItem(SetAttempt(FinishRun(c0, r, FailedRetryable), a.(status := next, key := None)), it1), l)
    case PermanentFailure =>
      if !Owns(it, w) then Refused
      else
        var (a1, l1) := ReleaseAttempt(a, l, Failed);
        Done(SetItem(SetAttempt(FinishRun(c0, r, FailedPermanent), a1), Fail(it, false, now)), l1)
    case Handoff =>
      if !Owns(it, w) then Refused
      else Done(SetItem(SetAttempt(FinishRun(c0, r, HandedOff), a.(status := Blocked, key := None)), Block(it)), l)
    case NeedsReview =>
      if res.capWait.Some?
      then Settle(FinishRun(c0, r, PreconditionFailed), l, Ready,
                  if Owns(it, w) then Some(Release(it).(availableAt := res.capWait.value)) else None)
      else Settle(FinishRun(c0, r, RunNeedsReview), l, Status.NeedsReview, Some(Review(it)))
    case FormChanged =>
      Settle(FinishRun(c0, r, RunNeedsReview), l, Status.NeedsReview, Some(Review(it)))
    case NeedsUserInput =>
      Settle(FinishRun(c0, r, RunNeedsUserInput), l, Status.NeedsUserInput,
             if Owns(it, w) then Some(Block(it)) else None)
  }

  /** The common tail of the results that did not submit: the key is cleared, the attempt moves unforced. */
  function Settle(c: Case, l: Ledger, to: Status, it: Option<Item>): Reported
    requires c.attempt.Some?
  {
    var moved := Move(c.attempt.value, to);
    if moved.None? || it.None? then Refused
    else Done(SetItem(SetAttempt(c, moved.value.(key := None)), it.value), l)
  }

  // ------------------------------------------------------------ verification

  /** `_apply_verification`; `withItem` is false when the result of a run brings its own verdict. */
  function ApplyVerdict(c: Case, l: Ledger, r: nat, v: Verdict, withItem: bool): Reported
    requires c.attempt.Some? && r < |c.runs|
  {
    var a := c.attempt.value;
    var run := c.runs[r].(verification := v);
    match v
    case VerdictVerified =>
      var c1 := SetAttempt(SetRun(c, r, run.(status := RunVerified)), a.(status := Verified));
      ResolveItem(c1, l, withItem)
    case VerdictLikely =>
      var c1 := SetRun(c, r, run.(status := RunSubmitted));
      if a.status == Uncertain then ResolveItem(SetAttempt(c1, a.(status := Status.Submitted)), l, withItem)
      else Done(c1, l)
    case VerdictFailed =>
      var c1 := SetAttempt(SetRun(c, r, run.(status := VerificationFailed)), a.(status := Status.NeedsReview));
      if withItem && c.item.Some? && !c.item.value.state.ReviewItem? && !c.item.value.state.Succeeded?
        && !c.item.value.state.CancelledItem?
      then Done(SetItem(c1, Review(c.item.value)), l)
      else Done(c1, l)
    case _ =>
      Done(SetRun(c, r, run.(verification := if v.VerdictUnknown? && run.status.RunUnknown? then VerdictPending
                               else v)), l)
  }

  function ResolveItem(c: Case, l: Ledger, withItem: bool): Reported {
    if !withItem || c.item.None? || c.item.value.state.Succeeded? then Done(c, l)
    else if c.item.value.state.CancelledItem? then Refused
    else Done(SetItem(c, Resolve(c.item.value)), l)
  }

  predicate Verifiable(s: RunStatus) {
    s.RunSubmitted? || s.RunUnknown? || s.RunVerified? || s.VerificationFailed? || s.HandedOff?
  }

  function VerifyOp(c: Case, l: Ledger, r: nat, v: Verdict): Reported {
    if r >= |c.runs| || c.attempt.None? || !Verifiable(c.runs[r].status) then Refused
    else ApplyVerdict(c, l, r, v, true)
  }

  /** `confirm`: a candidate who finished a handed-off run has submitted; otherwise a verdict. */
  function ConfirmOp(c: Case, l: Ledger, r: nat, submitted: bool): Reported {
    if r >= |c.runs| || c.attempt.None? then Refused
    else
      var c1 :=
        if submitted && c.runs[r].status.HandedOff?
        then SetAttempt(SetRun(c, r, c.runs[r].(submitInvoked := true, status := RunSubmitted)),
                        c.attempt.value.(status := Status.Submitted))
        else c;
      VerifyOp(c1, l, r, if submitted then VerdictVerified else VerdictFailed)
  }

  // ----------------------------------------------------------- human actions

  /** `settings.execution_max_attempts`. */
  const MAX_ATTEMPTS: nat := 3

  predicate AwaitsVerdict(runs: seq<Run>) {
    exists i :: 0 <= i < |runs| && runs[i].status.RunUnknown?
      && (runs[i].verification.VerdictPending? || runs[i].verification.VerdictUnknown?)
  }

  function RetryOp(c: Case, l: Ledger, now: int): Reported {
    if c.attempt.None? then Refused
    else
      var a := c.attempt.value;
      if a.status in SUBMITTED_STATUSES && a.status != Submitting then Refused
      else if AwaitsVerdict(c.runs) then Refused
      else if a.status !in {Blocked, Status.NeedsUserInput, Status.NeedsReview, Ready, Failed, Cancelled} then Refused
      else
        var a1 :=
          if a.status in {Failed, Cancelled}
          then a.(number := (if a.number == 0 then 1 else a.number) + 1, released := false, reserved := false,
                  capDay := None, capWeek := None)
          else a;
        var c1 := SetAttempt(c, a1.(status := Ready, key := None));
        if c.item.None? then Done(if a1.released then c1 else SetItem(c1, Fresh(MAX_ATTEMPTS, now)), l)
        else if Parked(c.item.value) then Done(SetItem(c1, Requeue(c.item.value, now)), l)
        else Done(c1, l)
  }

  function CancelOp(c: Case, l: Ledger): Reported {
    if c.attempt.None? || c.attempt.value.status in SUBMITTED_STATUSES then Refused
    else
      var (a1, l1) := ReleaseAttempt(c.attempt.value, l, Cancelled);
      var c1 := SetAttempt(c, a1.(key := None));
      if c.item.Some? && !c.item.value.state.Succeeded? && !c.item.value.state.CancelledItem?
      then Done(SetItem(c1, Cancel(c.item.value)), l1)
      else Done(c1, l1)
  }

  // ---------------------------------------------------------------- recovery

  predicate LostAt(c: Case, r: int, now: int) {
    IsRunning(c.runs, r) && !(c.item.Some? && Live(c.item.value, now))
  }

  /** One turn of the loop of `recover_lost_runs`. */
  function RecoverRun(c: Case, r: nat, now: int): Case
    requires r < |c.runs|
  {
    if !LostAt(c, r, now) then c
    else if c.attempt.None? then FinishRun(c, r, FailedPermanent)
    else
      var a := c.attempt.value;
      if c.runs[r].submitInvoked then
        var c1 := SetAttempt(SetRun(c, r, c.runs[r].(status := RunUnknown, verification := VerdictPending)),
                             a.(status := Uncertain));
        if c.item.Some? && !c.item.value.state.Succeeded? && !c.item.value.state.CancelledItem?
          && !c.item.value.state.ReviewItem?
        then SetItem(c1, Review(c.item.value)) else c1
      else
        var c1 := FinishRun(c, r, FailedRetryable);
        var c2 := if a.status == Submitting then SetAttempt(c1, a.(status := Ready, key := None)) else c1;
        if c.item.Some? && InHand(c.item.value)
        then SetItem(c2, c.item.value.(state := Pending, owner := None, lease := None, availableAt := now)) else c2
  }

  /** The whole loop over the runs of one opportunity, from run `from` on. */
  function RecoverFrom(c: Case, from: nat, now: int): (c': Case)
    requires from <= |c.runs|
    ensures |c'.runs| == |c.runs|
    decreases |c.runs| - from
  {
    if from == |c.runs| then c else RecoverFrom(RecoverRun(c, from, now), from + 1, now)
  }

  function RecoverOp(c: Case, now: int): (c': Case) {
    RecoverFrom(c, 0, now)
  }
}
