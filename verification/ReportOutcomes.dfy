/** What a reported result, a verdict or a person's decision leaves on record (app/execution/service.py), as
    tables over the records before and after. */
module ReportOutcomes {
  import opened Base
  import opened Lifecycle
  import opened WorkQueue
  import opened Caps
  import opened Preconditions
  import opened Execution
  import opened StartOutcomes

  // --------------------------------------------------------------- reports

  /** The status the attempt is asked to move to, unless it is moved by force. */
  function Target(res: Result): Option<Status> {
    match res.outcome
    case Submitted => Some(Status.Submitted)
    case DryRun => Some(Ready)
    case Unknown => Some(Uncertain)
    case RetryableFailure => Some(Ready)
    case PermanentFailure => None
    case Handoff => None
    case NeedsReview => Some(if res.capWait.Some? then Ready else Status.NeedsReview)
    case NeedsUserInput => Some(Status.NeedsUserInput)
    case FormChanged => Some(Status.NeedsReview)
  }

  /** A report is accepted when the transition table allows its status and, unless the item is only handed to
      a person for review, the worker owns the item. */
  predicate Acceptable(c: Case, w: Worker, res: Result)
    requires c.attempt.Some? && c.item.Some?
  {
    && (Target(res).Some? ==> MayMove(c.attempt.value.status, Target(res).value))
    && (|| c.item.value.owner == Some(w) || res.outcome in {DryRun, Unknown, FormChanged}
        || (res.outcome.NeedsReview? && res.capWait.None?))
  }

  /** The run after an accepted report: same key, number and worker. */
  function RunAfter(run: Run, res: Result): Run {
    var invoked := run.submitInvoked || res.submitAttempted;
    var (status, pressed, verdict) :=
      match res.outcome
      case Submitted =>
        (match res.verification
         case None => (RunSubmitted, invoked, run.verification)
         case Some(v) =>
           (if v.VerdictVerified? then RunVerified else if v.VerdictFailed? then VerificationFailed else RunSubmitted,
            invoked, v))
      case DryRun => (DryRunDone, false, run.verification)
      case Unknown => (RunUnknown, true, VerdictPending)
      case RetryableFailure => (FailedRetryable, invoked, run.verification)
      case PermanentFailure => (FailedPermanent, invoked, run.verification)
      case Handoff => (HandedOff, invoked, run.verification)
      case NeedsReview =>
        (if res.capWait.Some? then PreconditionFailed else RunNeedsReview, invoked, run.verification)
      case NeedsUserInput => (RunNeedsUserInput, invoked, run.verification)
      case FormChanged => (RunNeedsReview, invoked, run.verification);
    Run(run.key, run.number, run.worker, status, pressed, verdict)
  }

  /** The records after an accepted report. */
  ghost predicate ReportedAs(c: Case, l: Ledger, r: nat, res: Result, now: int, c': Case, l': Ledger)
    requires c.attempt.Some? && c.item.Some? && r < |c.runs|
  {
    var a, it := c.attempt.value, c.item.value;
    var retried := res.outcome.RetryableFailure? && it.attempts < it.maxAttempts;
    var waits := res.outcome.NeedsReview? && res.capWait.Some?;
    && c'.runs == c.runs[r := RunAfter(c.runs[r], res)]
    // only a permanent failure costs the slot; the key is kept where the employer may have the application, and
    // where the attempt is over
    && (if res.outcome.PermanentFailure? then SlotReturned(a, l, l') else l' == l)
    && c'.attempt == Some(a.(
                          status :=
                            match res.outcome
                            case Submitted =>
                              if res.verification == Some(VerdictVerified) then Verified
                              else if res.verification == Some(VerdictFailed) then Status.NeedsReview
                              else Status.Submitted
                            case DryRun => Ready
                            case Unknown => Uncertain
                            case RetryableFailure => if retried then Ready else Status.NeedsReview
                            case PermanentFailure => Failed
                            case Handoff => Blocked
                            case NeedsReview => if waits then Ready else Status.NeedsReview
                            case NeedsUserInput => Status.NeedsUserInput
                            case FormChanged => Status.NeedsReview,
                          key := if res.outcome in {Outcome.Submitted, Unknown, PermanentFailure} then a.key else None,
                          released := a.released || (res.outcome.PermanentFailure? && a.reserved)))
    // only a failure with retries left and a reached cap let the item be claimed again: after the backoff, or when
    // the cap's period ends and without the attempt counted
    && c'.item == Some(Item(
                         match res.outcome
                         case Submitted => Succeeded
                         case DryRun => ReviewItem
                         case Unknown => ReviewItem
                         case RetryableFailure => if retried then RetryWait else FailedItem
                         case PermanentFailure => FailedItem
                         case Handoff => BlockedItem
                         case NeedsReview => if waits then Pending else ReviewItem
                         case NeedsUserInput => BlockedItem
                         case FormChanged => ReviewItem,
                         if res.outcome in {Outcome.Submitted, PermanentFailure, Handoff, Outcome.NeedsUserInput}
                         || (res.outcome.RetryableFailure? && !retried) then it.owner else None,
                         None,
                         if waits && it.attempts > 0 then it.attempts - 1 else it.attempts,
                         it.maxAttempts,
                         if retried then now + 60 * Pow2(if it.attempts == 0 then 0 else it.attempts - 1)
                         else if waits then res.capWait.value else it.availableAt))
  }

  /** The report is accepted exactly when it is acceptable, and what it then leaves is the table's. */
  ghost predicate AsTabled(c: Case, l: Ledger, w: Worker, r: nat, res: Result, now: int)
    requires c.attempt.Some? && c.item.Some? && r < |c.runs|
  {
    var rep := ReportOp(c, l, w, r, res, now);
    && (rep.Done? <==> Acceptable(c, w, res))
    && (rep.Done? ==> ReportedAs(c, l, r, res, now, rep.c, rep.ledger))
  }

  lemma SubmissionMeans(c: Case, l: Ledger, w: Worker, r: nat, res: Result, now: int)
    requires c.attempt.Some? && c.item.Some? && r < |c.runs| && res.outcome.Submitted?
    ensures AsTabled(c, l, w, r, res, now)
  {
  }

  lemma FailureMeans(c: Case, l: Ledger, w: Worker, r: nat, res: Result, now: int)
    requires c.attempt.Some? && c.item.Some? && r < |c.runs| && res.outcome in {RetryableFailure, PermanentFailure}
    ensures AsTabled(c, l, w, r, res, now)
  {
    BackoffIsExponential(c.item.value.attempts);
    ReturnMeans(c.attempt.value, l, Failed);
  }

  lemma StopMeans(c: Case, l: Ledger, w: Worker, r: nat, res: Result, now: int)
    requires c.attempt.Some? && c.item.Some? && r < |c.runs| && res.outcome in {DryRun, Unknown, Handoff}
    ensures AsTabled(c, l, w, r, res, now)
  {
  }

  lemma WaitMeans(c: Case, l: Ledger, w: Worker, r: nat, res: Result, now: int)
    requires c.attempt.Some? && c.item.Some? && r < |c.runs|
    requires res.outcome in {Outcome.NeedsReview, Outcome.NeedsUserInput, FormChanged}
    ensures AsTabled(c, l, w, r, res, now)
  {
  }

  /** The table over all nine outcomes, and when a report is accepted at all. */
  lemma ReportMeans(c: Case, l: Ledger, w: Worker, r: nat, res: Result, now: int)
    requires c.attempt.Some? && c.item.Some? && r < |c.runs|
    ensures var rep := ReportOp(c, l, w, r, res, now);
      && (rep.Done? <==> Acceptable(c, w, res))
      && (rep.Done? ==> ReportedAs(c, l, r, res, now, rep.c, rep.ledger))
  {
    if res.outcome.Submitted? {
      SubmissionMeans(c, l, w, r, res, now);
    } else if res.outcome in {RetryableFailure, PermanentFailure} {
      FailureMeans(c, l, w, r, res, now);
    } else if res.outcome in {DryRun, Unknown, Handoff} {
      StopMeans(c, l, w, r, res, now);
    } else {
      WaitMeans(c, l, w, r, res, now);
    }
    assert AsTabled(c, l, w, r, res, now);
  }

  /** After a permanent failure a person can open the next attempt, with no slot, unless another run still awaits
      its verdict. */
  lemma PermanentFailureCanBeRetried(c: Case, l: Ledger, w: Worker, r: nat, res: Result, now: int, later: int)
    requires c.attempt.Some? && c.item.Some? && r < |c.runs| && res.outcome.PermanentFailure?
    requires c.item.value.owner == Some(w)
    ensures var rep := ReportOp(c, l, w, r, res, now);
      && rep.Done?
      && (var again := RetryOp(rep.c, rep.ledger, later);
          && (again.Done? <==> forall i :: 0 <= i < |c.runs| && i != r ==> !Undecided(c.runs[i]))
          && (again.Done? ==>
                && again.c.attempt.Some? && again.c.attempt.value.status == Ready
                && again.c.attempt.value.number > c.attempt.value.number
                && !again.c.attempt.value.reserved && !again.c.attempt.value.released
                && again.c.item.Some? && Claimable(again.c.item.value, later)))
  {
    ReportMeans(c, l, w, r, res, now);
    var rep := ReportOp(c, l, w, r, res, now);
    RetryMeans(rep.c, rep.ledger, later);
    assert forall i :: 0 <= i < |c.runs| && i != r ==> rep.c.runs[i] == c.runs[i];
    assert !Undecided(rep.c.runs[r]);
  }

  // -------------------------------------------------------------- verdicts

  /** A verdict that makes the submission certain, or that settles an uncertain attempt as submitted. */
  predicate SettlesItem(a: Attempt, v: Verdict) {
    v.VerdictVerified? || (v.VerdictLikely? && a.status == Uncertain)
  }

  /** The records after a verdict on run `r` from outside the run itself. */
  ghost predicate JudgedAs(c: Case, r: nat, v: Verdict, c': Case)
    requires c.attempt.Some? && r < |c.runs|
  {
    var a, run := c.attempt.value, c.runs[r];
    && c'.runs == c.runs[r := Run(
                           run.key, run.number, run.worker,
                           if v.VerdictVerified? then RunVerified else if v.VerdictLikely? then RunSubmitted
                           else if v.VerdictFailed? then VerificationFailed else run.status,
                           run.submitInvoked,
                           if v.VerdictUnknown? && run.status.RunUnknown? then VerdictPending else v)]
    && c'.attempt == Some(a.(status :=
                            if v.VerdictVerified? then Verified
                            else if v.VerdictLikely? && a.status == Uncertain then Status.Submitted
                            else if v.VerdictFailed? then Status.NeedsReview else a.status))
    && c'.item == (
         if c.item.None? || c.item.value.state in {Succeeded, CancelledItem} then c.item
         else if SettlesItem(a, v) then Some(c.item.value.(state := Succeeded, owner := None, lease := None))
         else if v.VerdictFailed? && !c.item.value.state.ReviewItem?
           then Some(c.item.value.(state := ReviewItem, owner := None, lease := None))
         else c.item)
  }

  /** A verdict is taken on a run that was, or may have been, submitted or was handed to a person; the ledger is
      untouched. The one thing that refuses it further is a cancelled item that it would have to settle. */
  lemma VerifyMeans(c: Case, l: Ledger, r: nat, v: Verdict)
    ensures var rep := VerifyOp(c, l, r, v);
      && (rep.Done? <==>
            && c.attempt.Some? && r < |c.runs|
            && c.runs[r].status in {RunSubmitted, RunUnknown, RunVerified, VerificationFailed, HandedOff}
            && !(SettlesItem(c.attempt.value, v) && c.item.Some? && c.item.value.state.CancelledItem?))
      && (rep.Done? ==> rep.ledger == l && JudgedAs(c, r, v, rep.c))
  {
  }

  /** That the candidate submitted a handed-off run puts the press on record. */
  ghost predicate ConfirmedAs(c: Case, r: nat, submitted: bool, c': Case)
    requires c.attempt.Some? && r < |c.runs|
  {
    var pressed := c.runs[r].submitInvoked || (submitted && c.runs[r].status.HandedOff?);
    JudgedAs(c.(runs := c.runs[r := c.runs[r].(submitInvoked := pressed)]), r,
             if submitted then VerdictVerified else VerdictFailed, c')
  }

  /** The candidate's word is a verdict. */
  lemma ConfirmMeans(c: Case, l: Ledger, r: nat, submitted: bool)
    ensures var rep := ConfirmOp(c, l, r, submitted);
      && (rep.Done? <==>
            && c.attempt.Some? && r < |c.runs|
            && c.runs[r].status in {RunSubmitted, RunUnknown, RunVerified, VerificationFailed, HandedOff}
            && !(submitted && c.item.Some? && c.item.value.state.CancelledItem?))
      && (rep.Done? ==> rep.ledger == l && ConfirmedAs(c, r, submitted, rep.c))
  {
  }

  // --------------------------------------------------------- human actions

  predicate Undecided(run: Run) {
    run.status.RunUnknown? && run.verification in {VerdictPending, VerdictUnknown}
  }

  predicate MayRetry(c: Case) {
    && c.attempt.Some? && (forall i :: 0 <= i < |c.runs| ==> !Undecided(c.runs[i]))
    && c.attempt.value.status in {Blocked, Status.NeedsUserInput, Status.NeedsReview, Ready, Failed, Cancelled}
  }

  /** What was released counts as a new attempt that holds no slot. A parked item can be claimed at once, with its
      attempts forgotten; a missing one is made anew unless the attempt is left released; the runs stay. */
  ghost predicate RetriedAs(c: Case, now: int, c': Case)
    requires c.attempt.Some?
  {
    var a := c.attempt.value;
    var over := a.status in {Failed, Cancelled};
    && c'.runs == c.runs
    && c'.attempt == Some(
         if over then Attempt(Ready, None, Max(a.number, 1) + 1, a.executions, false, false, None, None)
         else a.(status := Ready, key := None))
    && (match c.item
        case None => c'.item == if a.released && !over then None else Some(Item(Pending, None, None, 0, 3, now))
        case Some(it) =>
          c'.item == Some(
            if it.state in {BlockedItem, ReviewItem, FailedItem, CancelledItem}
            then Item(Pending, None, None, 0, it.maxAttempts, now)
            else it))
  }

  /** `retry` re-opens what is parked, failed or cancelled, unless a run still awaits its verdict. */
  lemma RetryMeans(c: Case, l: Ledger, now: int)
    ensures var rep := RetryOp(c, l, now);
      && (rep.Done? <==> MayRetry(c))
      && (rep.Done? ==> rep.ledger == l && RetriedAs(c, now, rep.c))
  {
  }

  predicate MayCancel(c: Case) {
    c.attempt.Some? && c.attempt.value.status !in {Submitting, Status.Submitted, Verified, Uncertain, Interviewing}
  }

  /** The attempt ends without its slot and its key, and the item with it unless that is done already. */
  ghost predicate CancelledAs(c: Case, l: Ledger, c': Case, l': Ledger)
    requires c.attempt.Some?
  {
    var a := c.attempt.value;
    && SlotReturned(a, l, l') && c'.runs == c.runs
    && c'.attempt == Some(a.(status := Cancelled, key := None, released := a.released || a.reserved))
    && c'.item ==
       if c.item.None? || c.item.value.state in {Succeeded, CancelledItem} then c.item
       else Some(c.item.value.(state := CancelledItem, owner := None, lease := None))
  }

  /** `cancel` refuses what has, or may have, reached the employer. */
  lemma CancelMeans(c: Case, l: Ledger)
    ensures var rep := CancelOp(c, l);
      && (rep.Done? <==> MayCancel(c))
      && (rep.Done? ==> CancelledAs(c, l, rep.c, rep.ledger))
  {
    if c.attempt.Some? {
      ReturnMeans(c.attempt.value, l, Cancelled);
    }
  }

  // -------------------------------------------------------------- recovery

  /** One lost run settled: with a press on record the run awaits a verdict, the attempt is UNCERTAIN and the item
      is for a person; without one the run may be repeated, a SUBMITTING attempt is READY and an item in hand can
      be claimed at once, with the claim counted. */
  ghost predicate RecoveredAs(c: Case, r: nat, now: int, c': Case)
    requires r < |c.runs|
  {
    var run := c.runs[r];
    var held := c.item.Some? && c.item.value.state in {Claimed, Processing};
    var live := held && c.item.value.lease.Some? && c.item.value.lease.value >= now;
    if !run.status.Running? || live then c' == c
    else if c.attempt.None? then c' == c.(runs := c.runs[r := run.(status := FailedPermanent)])
    else if run.submitInvoked then
      && c'.runs == c.runs[r := run.(status := RunUnknown, verification := VerdictPending)]
      && c'.attempt == Some(c.attempt.value.(status := Uncertain))
      && c'.item == (if c.item.None? || c.item.value.state in {Succeeded, CancelledItem, ReviewItem} then c.item
                     else Some(c.item.value.(state := ReviewItem, owner := None, lease := None)))
    else
      && c'.runs == c.runs[r := run.(status := FailedRetryable)]
      && c'.attempt == (if c.attempt.value.status == Submitting
                        then Some(c.attempt.value.(status := Ready, key := None)) else c.attempt)
      && c'.item == (if held then Some(Item(Pending, None, None, c.item.value.attempts, c.item.value.maxAttempts, now))
                     else c.item)
  }

  lemma RecoverRunMeans(c: Case, r: nat, now: int)
    requires r < |c.runs|
    ensures RecoveredAs(c, r, now, RecoverRun(c, r, now))
  {
  }
}
