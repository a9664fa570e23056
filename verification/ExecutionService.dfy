/** ExecutionService as written (app/execution/service.py): a session over the committed tables whose records
    are changed field by field, then committed or rolled back. Every method is proved to do to the
    committed tables what `Execution` says. */
module ExecutionServices {
  import opened Base
  import opened Lifecycle
  import opened WorkQueue
  import opened Caps
  import opened Preconditions
  import opened Execution
  import opened StartOutcomes
  import opened ReportOutcomes
  import opened Coupling
  import opened Recovery
  import opened Executors
  import opened ExecuteOutcomes

  type Opp = nat

  class ExecutionService {
    // committed
    var cases: map<Opp, Case>
    var ledger: Ledger
    // the session: the records of the opportunity being worked on
    var opp: Opp
    var attempt: Option<Attempt>
    var item: Option<Item>
    var runs: seq<Run>
    var books: Ledger

    constructor (cases: map<Opp, Case>, ledger: Ledger)
      ensures this.cases == cases && this.ledger == ledger
    {
      this.cases := cases;
      this.ledger := ledger;
      opp := 0;
      attempt, item, runs, books := None, None, [], ledger;
    }

    ghost function Session(): Case
      reads this
    {
      Case(attempt, item, runs)
    }

    /** The call touched only opportunity `o`. */
    twostate predicate OnlyOn(o: Opp)
      reads this
    {
      cases == old(cases)[o := Here(o)]
    }

    ghost function Here(o: Opp): Case
      reads this
    {
      if o in cases then cases[o] else Case(None, None, [])
    }

    method Load(o: Opp)
      requires o in cases
      modifies this`opp, this`attempt, this`item, this`runs, this`books
      ensures opp == o && Session() == cases[o] && books == ledger
    {
      opp := o;
      attempt, item, runs, books := cases[o].attempt, cases[o].item, cases[o].runs, ledger;
    }

    method Commit()
      modifies this`cases, this`ledger
      ensures cases == old(cases)[opp := Session()] && ledger == books
    {
      cases := cases[opp := Case(attempt, item, runs)];
      ledger := books;
    }

    // ---------------------------------------------------------------- start

    method Start(o: Opp, w: Worker, call: Call, kit: Kit) returns (outcome: StartOutcome)
      requires o in cases && cases[o].item.Some?
      modifies this
      ensures StartStep(Here(o), ledger, outcome) == StartOp(old(cases[o]), old(ledger), w, call, kit)
      ensures StartedAs(old(cases[o]), old(ledger), w, call, kit, StartStep(Here(o), ledger, outcome))
      ensures OnlyOn(o)
    {
      StartMeans(cases[o], ledger, w, call, kit);
      Load(o);
      if item.value.state.Claimed? && Owns(item.value, w) {
        item := Some(item.value.(state := Processing));
      } else if !item.value.state.Processing? || item.value.owner != Some(w) {
        return NotOwner;
      }
      if attempt.None? {
        item := Some(Fail(item.value, false, call.now));
        Commit();
        return NoAttempt;
      }
      outcome := StartFromAttempt(w, call, kit);
    }

    /** Idempotency: what happened before. */
    method StartFromAttempt(w: Worker, call: Call, kit: Kit) returns (outcome: StartOutcome)
      requires opp in cases && cases[opp].item.Some? && attempt.Some? && item.Some? && books == ledger
      modifies this
      ensures StartStep(Here(opp), ledger, outcome)
        == StartAttempt(old(cases[opp]), old(Session()), old(ledger), w, call, kit)
      ensures opp == old(opp) && OnlyOn(opp)
    {
      var status := attempt.value.status;
      if status == Status.Submitted || status == Verified {
        item := Some(Succeed(item.value));
        Commit();
        return AlreadyDone;
      }
      if status == Uncertain {
        item := Some(Review(item.value));
        Commit();
        return AwaitingVerification;
      }
      if status == Submitting {
        var invoked := ReclaimLost();
        if invoked {
          item := Some(Review(item.value));
          Commit();
          return AwaitingVerification;
        }
      }
      if attempt.value.status != Ready {
        Park(attempt.value.status);
        Commit();
        return NotReady;
      }
      outcome := StartWhenReady(w, call, kit);
    }

    /** The reclaim path: the run that was lost is closed, and the attempt is UNCERTAIN or READY again. */
    method ReclaimLost() returns (invoked: bool)
      requires attempt.Some?
      modifies this`attempt, this`runs
      ensures Session() == Reclaim(old(Session()))
      ensures attempt.Some? && attempt.value.status == (if invoked then Uncertain else Ready)
    {
      var crashed := CrashedRun(runs);
      if crashed.Some? && runs[crashed.value].submitInvoked {
        Finish(crashed.value, RunUnknown);
        attempt := Some(attempt.value.(status := Uncertain));
        return true;
      }
      if crashed.Some? {
        Finish(crashed.value, FailedRetryable);
      }
      attempt := Some(attempt.value.(key := None));
      attempt := Some(attempt.value.(status := Ready));
      return false;
    }

    /** `_park_item`. */
    method Park(status: Status)
      requires item.Some?
      modifies this`item
      ensures item == Some(ParkItem(old(item).value, status))
      // out of every hand and out of reach until a person retries, who then makes it claimable at once
      ensures item.Some? && !InHand(item.value) && Parked(item.value) && forall t :: !Claimable(item.value, t)
      ensures forall now :: Claimable(Requeue(item.value, now), now)
    {
      if status == Status.NeedsUserInput || status == Blocked {
        item := Some(Block(item.value));
      } else if status == Failed || status == Cancelled || status == Closed {
        item := Some(Cancel(item.value));
      } else {
        item := Some(Review(item.value));
      }
    }

    method Finish(r: nat, status: RunStatus)
      requires r < |runs|
      modifies this`runs
      ensures Session() == FinishRun(old(Session()), r, status)
    {
      runs := runs[r := runs[r].(status := status)];
    }

    /** The second half of `start`: kill switch and preconditions. */
    method StartWhenReady(w: Worker, call: Call, kit: Kit) returns (outcome: StartOutcome)
      requires opp in cases && cases[opp].item.Some? && attempt.Some? && item.Some? && books == ledger
      modifies this
      ensures StartStep(Here(opp), ledger, outcome)
        == StartReady(old(cases[opp]), old(Session()), old(ledger), w, call, kit)
      ensures opp == old(opp) && OnlyOn(opp)
    {
      if call.paused {
        item := Some(Release(item.value));
        item := Some(item.value.(availableAt := call.now + 600));
        Commit();
        return Paused;
      }
      var checker := new PreconditionChecker(call.policy, attempt.value, books);
      var failures := checker.Check(call.facts, call.keys, true, false);
      attempt, books := Some(checker.attempt), checker.ledger;
      if failures != [] {
        EndUnexecuted(w, call, failures);
        return PreconditionsFailed(failures);
      }
      outcome := StartWhenChecked(w, kit);
    }

    method EndUnexecuted(w: Worker, call: Call, failures: seq<Code>)
      requires attempt.Some? && item.Some?
      modifies this
      ensures opp == old(opp) && OnlyOn(opp)
      ensures (Here(opp), ledger) == SettlePreconditions(old(Session()), old(books), w, call, failures)
    {
      SettleFailures(w, call, failures);
      Commit();
    }

    /** Executor, documents and target, with the slot taken. */
    method StartWhenChecked(w: Worker, kit: Kit) returns (outcome: StartOutcome)
      requires opp in cases && cases[opp].item.Some? && attempt.Some? && item.Some?
      modifies this
      ensures StartStep(Here(opp), ledger, outcome)
        == StartChecked(old(cases[opp]), old(Session()), old(ledger), old(books), w, kit)
      ensures opp == old(opp) && OnlyOn(opp)
    {
      if !kit.executorKnown {
        item := Some(Release(item.value));
        Commit();
        return NoExecutor;
      }
      if !kit.documentsOk {
        attempt := Some(attempt.value.(status := Status.NeedsReview));
        item := Some(Review(item.value));
        Commit();
        return DocumentFailed;
      }
      if !kit.canHandle {
        attempt := Some(attempt.value.(key := None));
        attempt := Some(attempt.value.(status := Blocked));
        item := Some(Block(item.value));
        Commit();
        return CannotHandle;
      }
      outcome := TakeAttempt(w);
    }

    /** The mutex: READY -> SUBMITTING by a guarded update, or a rollback. */
    method TakeAttempt(w: Worker) returns (outcome: StartOutcome)
      requires opp in cases && cases[opp].item.Some? && attempt.Some?
      modifies this
      ensures StartStep(Here(opp), ledger, outcome)
        == TakeMutex(old(cases[opp]), old(Session()), old(ledger), old(books), w)
      ensures opp == old(opp) && OnlyOn(opp)
    {
      var number := attempt.value.executions + 1;
      var key := SubmitKey(attempt.value.number, number);
      if attempt.value.status == Ready && attempt.value.key.None? {
        attempt := Some(attempt.value.(status := Submitting, key := Some(key), executions := number));
      } else {
        Load(opp);  // rollback
        item := Some(Release(item.value));
        Commit();
        return LostRace;
      }
      runs := runs + [Run(key, number, w, Running, false, NotAttempted)];
      Commit();
      return Started(|runs| - 1);
    }

    /** `_settle_preconditions`. */
    method SettleFailures(w: Worker, call: Call, failures: seq<Code>)
      requires attempt.Some? && item.Some?
      modifies this`attempt, this`item, this`runs, this`books
      ensures (Session(), books) == SettlePreconditions(old(Session()), old(books), w, call, failures)
      ensures SettledAs(old(Session()), old(books), w, call, failures, Session(), books)
    {
      SettlementMeans(Session(), books, w, call, failures);
      var codes := set x | x in failures;
      runs := runs + [Run(PreKey(attempt.value.number, call.now), attempt.value.executions, w, PreconditionFailed,
                          false, NotAttempted)];
      var r := |runs| - 1;
      if PreparationStale in codes || PreparationNotCurrent in codes {
        runs := runs[r := runs[r].(status := Stale)];
        assert runs == old(runs)
          + [Run(PreKey(attempt.value.number, call.now), attempt.value.executions, w, Stale, false, NotAttempted)];
        attempt := Some(attempt.value.(key := None));
        attempt := Some(attempt.value.(status := Preparing));
        item := Some(Review(item.value));
      } else if CompanyBlocked in codes || OpportunityClosed in codes || DuplicateApplication in codes
        || DuplicateOpportunity in codes || AlreadySubmitted in codes {
        if AlreadySubmitted in codes {
          item := Some(Succeed(item.value));
        } else {
          var (a, l) := ReleaseAttempt(attempt.value, books, Closed);
          attempt, books := Some(a), l;
          item := Some(Cancel(item.value));
        }
      } else if CooldownActive in codes {
        attempt := Some(attempt.value.(status := Blocked));
        item := Some(Block(item.value));
      } else if CapReached(DailyCapReached) in codes || CapReached(WeeklyCapReached) in codes {
        item := Some(Release(item.value));
        item := Some(item.value.(availableAt := PeriodEnd(call, failures)));
      } else if UserInputRequired in codes {
        attempt := Some(attempt.value.(status := Status.NeedsUserInput));
        item := Some(Block(item.value));
      } else {
        attempt := Some(attempt.value.(status := Status.NeedsReview));
        item := Some(Review(item.value));
      }
    }

    // ------------------------------------------------------------- recovery

    /** `recover_lost_runs`, over every opportunity and every run. */
    method RecoverLostRuns(now: int)
      modifies this
      ensures cases.Keys == old(cases.Keys) && ledger == old(ledger)
      ensures forall o :: o in cases ==> cases[o] == RecoverOp(old(cases)[o], now)
      ensures forall o, r :: o in cases ==> !LostAt(cases[o], r, now)
    {
      forall o, r | o in cases ensures !LostAt(RecoverOp(cases[o], now), r, now) {
        NothingLostRemains(cases[o], now, r);
      }
      var todo := cases.Keys;
      while todo != {}
        invariant cases.Keys == old(cases.Keys) && todo <= cases.Keys && ledger == old(ledger)
        invariant forall o :: o in cases ==> cases[o] == if o in todo then old(cases)[o]
          else RecoverOp(old(cases)[o], now)
        decreases |todo|
      {
        var o :| o in todo;
        Load(o);
        var r := 0;
        while r < |runs|
          modifies this`attempt, this`item, this`runs
          invariant r <= |runs| && RecoverFrom(Session(), r, now) == RecoverOp(old(cases)[o], now)
        {
          RecoverOne(r, now);
          r := r + 1;
        }
        cases := cases[o := Case(attempt, item, runs)];
        todo := todo - {o};
      }
    }

    method RecoverOne(r: nat, now: int)
      requires r < |runs|
      modifies this`attempt, this`item, this`runs
      ensures Session() == RecoverRun(old(Session()), r, now)
      ensures RecoveredAs(old(Session()), r, now, Session())
    {
      RecoverRunMeans(Session(), r, now);
      if !runs[r].status.Running? { return; }
      var live := item.Some? && Live(item.value, now);
      if live { return; }
      if attempt.None? {
        Finish(r, FailedPermanent);
        return;
      }
      if runs[r].submitInvoked {
        Finish(r, RunUnknown);
        runs := runs[r := runs[r].(verification := VerdictPending)];
        if attempt.value.status != Uncertain {
          attempt := Some(attempt.value.(status := Uncertain));
        }
        if item.Some? && !item.value.state.Succeeded? && !item.value.state.CancelledItem?
          && !item.value.state.ReviewItem? {
          item := Some(Review(item.value));
        }
      } else {
        Finish(r, FailedRetryable);
        if attempt.value.status == Submitting {
          attempt := Some(attempt.value.(key := None));
          attempt := Some(attempt.value.(status := Ready));
        }
        if item.Some? && InHand(item.value) {
          item := Some(item.value.(state := Pending));
          item := Some(item.value.(owner := None, lease := None));
          item := Some(item.value.(availableAt := now));
        }
      }
    }

    // ----------------------------------------------------------------- gates

    /** `_pre_submit_gate`: commits a passed check even when SAFE mode or the kill switch refuses. */
    method PreSubmitGate(o: Opp, call: Call) returns (ok: bool)
      requires o in cases
      modifies this
      ensures GateStep(Here(o), ledger, ok) == GateOp(old(cases[o]), old(ledger), call)
      ensures OnlyOn(o)
    {
      Load(o);
      if attempt.None? { return false; }
      ok := call.live && !call.paused;
      var checker := new PreconditionChecker(call.policy, attempt.value, books);
      var failures := checker.Check(call.facts, call.keys, true, true);
      if failures == [] {
        attempt, books := Some(checker.attempt), checker.ledger;
        Commit();
      } else {
        ok := false;
        Load(o);  // rollback
      }
    }

    /** `gate`, the extension's call. */
    method Gate(o: Opp, w: Worker, call: Call) returns (ok: bool)
      requires o in cases && cases[o].item.Some?
      modifies this
      ensures GateStep(Here(o), ledger, ok) == ExtensionGateOp(old(cases[o]), old(ledger), w, call)
      ensures OnlyOn(o)
    {
      Load(o);
      var run := CrashedRun(runs);
      if item.value.owner != Some(w) || attempt.None? || run.None? { return false; }
      if runs[run.value].submitInvoked { return false; }
      if item.value.lease.Some? && item.value.lease.value < call.now { return false; }
      ok := PreSubmitGate(o, call);
      if !ok { return; }
      Load(o);
      runs := runs[run.value := runs[run.value].(submitInvoked := true)];
      Commit();
    }

    // ---------------------------------------------------------------- result

    /** `_report`; `accepted` is false when a step raised and the session was rolled back. */
    method Report(o: Opp, w: Worker, r: nat, res: Result, now: int) returns (accepted: bool)
      requires o in cases && cases[o].attempt.Some? && cases[o].item.Some? && r < |cases[o].runs|
      modifies this
      ensures (if accepted then Done(Here(o), ledger) else Refused)
        == ReportOp(old(cases[o]), old(ledger), w, r, res, now)
      ensures accepted <==> Acceptable(old(cases[o]), w, res)
      ensures accepted ==> ReportedAs(old(cases[o]), old(ledger), r, res, now, Here(o), ledger)
      ensures !accepted ==> Here(o) == old(cases[o]) && ledger == old(ledger)
      ensures OnlyOn(o)
    {
      ReportMeans(cases[o], ledger, w, r, res, now);
      Load(o);
      match res.outcome {
        case Submitted => accepted := ReportSubmission(w, r, res, now);
        case DryRun => accepted := ReportDryRun(w, r, res, now);
        case Unknown => accepted := ReportUnknown(w, r, res, now);
        case RetryableFailure => accepted := ReportRetryable(w, r, res, now);
        case PermanentFailure => accepted := ReportPermanent(w, r, res, now);
        case Handoff => accepted := ReportHandoff(w, r, res, now);
        case NeedsReview => accepted := ReportUnsubmitted(w, r, res, now);
        case NeedsUserInput => accepted := ReportUnsubmitted(w, r, res, now);
        case FormChanged => accepted := ReportUnsubmitted(w, r, res, now);
      }
      if accepted { Commit(); }
    }

    method NoteInvoked(r: nat, res: Result)
      requires r < |runs|
      modifies this`runs
      ensures runs == old(runs)[r := old(runs)[r].(submitInvoked := old(runs)[r].submitInvoked || res.submitAttempted)]
    {
      runs := runs[r := runs[r].(submitInvoked := runs[r].submitInvoked || res.submitAttempted)];
    }

    method ReportSubmission(w: Worker, r: nat, res: Result, now: int) returns (accepted: bool)
      requires attempt.Some? && item.Some? && r < |runs| && res.outcome.Submitted?
      modifies this`attempt, this`item, this`runs, this`books
      ensures (if accepted then Done(Session(), books) else Refused)
        == ReportOp(old(Session()), old(books), w, r, res, now)
      ensures accepted <==> Acceptable(old(Session()), w, res)
      ensures accepted ==> ReportedAs(old(Session()), old(books), r, res, now, Session(), books)
    {
      ReportMeans(Session(), books, w, r, res, now);
      NoteInvoked(r, res);
      Finish(r, RunSubmitted);
      if !MayMove(attempt.value.status, Status.Submitted) || item.value.owner != Some(w) { return false; }
      attempt := Some(attempt.value.(status := Status.Submitted));
      item := Some(Succeed(item.value));
      accepted := true;
      if res.verification.Some? {
        accepted := ApplyVerification(r, res.verification.value, false);
      }
    }

    method ReportDryRun(w: Worker, r: nat, res: Result, now: int) returns (accepted: bool)
      requires attempt.Some? && item.Some? && r < |runs| && res.outcome.DryRun?
      modifies this`attempt, this`item, this`runs, this`books
      ensures (if accepted then Done(Session(), books) else Refused)
        == ReportOp(old(Session()), old(books), w, r, res, now)
      ensures accepted <==> Acceptable(old(Session()), w, res)
      ensures accepted ==> ReportedAs(old(Session()), old(books), r, res, now, Session(), books)
    {
      ReportMeans(Session(), books, w, r, res, now);
      NoteInvoked(r, res);
      runs := runs[r := runs[r].(submitInvoked := false)];
      Finish(r, DryRunDone);
      attempt := Some(attempt.value.(key := None));
      if !MayMove(attempt.value.status, Ready) { return false; }
      attempt := Some(attempt.value.(status := Ready));
      item := Some(Review(item.value));
      return true;
    }

    method ReportUnknown(w: Worker, r: nat, res: Result, now: int) returns (accepted: bool)
      requires attempt.Some? && item.Some? && r < |runs| && res.outcome.Unknown?
      modifies this`attempt, this`item, this`runs, this`books
      ensures (if accepted then Done(Session(), books) else Refused)
        == ReportOp(old(Session()), old(books), w, r, res, now)
      ensures accepted <==> Acceptable(old(Session()), w, res)
      ensures accepted ==> ReportedAs(old(Session()), old(books), r, res, now, Session(), books)
    {
      ReportMeans(Session(), books, w, r, res, now);
      NoteInvoked(r, res);
      runs := runs[r := runs[r].(submitInvoked := true)];
      Finish(r, RunUnknown);
      if !MayMove(attempt.value.status, Uncertain) { return false; }
      attempt := Some(attempt.value.(status := Uncertain));
      runs := runs[r := runs[r].(verification := VerdictPending)];
      item := Some(Review(item.value));
      return true;
    }

    method ReportRetryable(w: Worker, r: nat, res: Result, now: int) returns (accepted: bool)
      requires attempt.Some? && item.Some? && r < |runs| && res.outcome.RetryableFailure?
      modifies this`attempt, this`item, this`runs, this`books
      ensures (if accepted then Done(Session(), books) else Refused)
        == ReportOp(old(Session()), old(books), w, r, res, now)
      ensures accepted <==> Acceptable(old(Session()), w, res)
      ensures accepted ==> ReportedAs(old(Session()), old(books), r, res, now, Session(), books)
    {
      ReportMeans(Session(), books, w, r, res, now);
      NoteInvoked(r, res);
      Finish(r, FailedRetryable);
      attempt := Some(attempt.value.(key := None));
      if !MayMove(attempt.value.status, Ready) || item.value.owner != Some(w) { return false; }
      attempt := Some(attempt.value.(status := Ready));
      item := Some(Fail(item.value, true, now));
      if item.value.state.FailedItem? {
        attempt := Some(attempt.value.(status := Status.NeedsReview));
      }
      return true;
    }

    method ReportPermanent(w: Worker, r: nat, res: Result, now: int) returns (accepted: bool)
      requires attempt.Some? && item.Some? && r < |runs| && res.outcome.PermanentFailure?
      modifies this`attempt, this`item, this`runs, this`books
      ensures (if accepted then Done(Session(), books) else Refused)
        == ReportOp(old(Session()), old(books), w, r, res, now)
      ensures accepted <==> Acceptable(old(Session()), w, res)
      ensures accepted ==> ReportedAs(old(Session()), old(books), r, res, now, Session(), books)
    {
      ReportMeans(Session(), books, w, r, res, now);
      NoteInvoked(r, res);
      Finish(r, FailedPermanent);
      var (a, l) := ReleaseAttempt(attempt.value, books, Failed);
      attempt, books := Some(a), l;
      if item.value.owner != Some(w) { return false; }
      item := Some(Fail(item.value, false, now));
      return true;
    }

    /** `_handoff` with a run. */
    method ReportHandoff(w: Worker, r: nat, res: Result, now: int) returns (accepted: bool)
      requires attempt.Some? && item.Some? && r < |runs| && res.outcome.Handoff?
      modifies this`attempt, this`item, this`runs, this`books
      ensures (if accepted then Done(Session(), books) else Refused)
        == ReportOp(old(Session()), old(books), w, r, res, now)
      ensures accepted <==> Acceptable(old(Session()), w, res)
      ensures accepted ==> ReportedAs(old(Session()), old(books), r, res, now, Session(), books)
    {
      ReportMeans(Session(), books, w, r, res, now);
      NoteInvoked(r, res);
      Finish(r, HandedOff);
      attempt := Some(attempt.value.(key := None));
      attempt := Some(attempt.value.(status := Blocked));
      if item.value.owner != Some(w) { return false; }
      item := Some(Block(item.value));
      return true;
    }

    method ReportCapWait(w: Worker, r: nat, res: Result, now: int) returns (accepted: bool)
      requires attempt.Some? && item.Some? && r < |runs| && res.outcome.NeedsReview? && res.capWait.Some?
      modifies this`attempt, this`item, this`runs, this`books
      ensures (if accepted then Done(Session(), books) else Refused)
        == ReportOp(old(Session()), old(books), w, r, res, now)
      ensures accepted <==> Acceptable(old(Session()), w, res)
      ensures accepted ==> ReportedAs(old(Session()), old(books), r, res, now, Session(), books)
    {
      ReportMeans(Session(), books, w, r, res, now);
      NoteInvoked(r, res);
      attempt := Some(attempt.value.(key := None));
      Finish(r, PreconditionFailed);
      if !MayMove(attempt.value.status, Ready) || item.value.owner != Some(w) { return false; }
      attempt := Some(attempt.value.(status := Ready));
      item := Some(Release(item.value));
      item := Some(item.value.(availableAt := res.capWait.value));
      return true;
    }

    /** The last two branches of `_report`: waiting for capacity, or for a person. */
    method ReportUnsubmitted(w: Worker, r: nat, res: Result, now: int) returns (accepted: bool)
      requires attempt.Some? && item.Some? && r < |runs|
      requires res.outcome.NeedsUserInput? || res.outcome.NeedsReview? || res.outcome.FormChanged?
      modifies this`attempt, this`item, this`runs, this`books
      ensures (if accepted then Done(Session(), books) else Refused)
        == ReportOp(old(Session()), old(books), w, r, res, now)
      ensures accepted <==> Acceptable(old(Session()), w, res)
      ensures accepted ==> ReportedAs(old(Session()), old(books), r, res, now, Session(), books)
    {
      ReportMeans(Session(), books, w, r, res, now);
      if res.outcome.NeedsReview? && res.capWait.Some? {
        accepted := ReportCapWait(w, r, res, now);
        return;
      }
      NoteInvoked(r, res);
      attempt := Some(attempt.value.(key := None));
      var target := if res.outcome.NeedsUserInput? then Status.NeedsUserInput else Status.NeedsReview;
      Finish(r, if res.outcome.NeedsUserInput? then RunNeedsUserInput else RunNeedsReview);
      if !MayMove(attempt.value.status, target) { return false; }
      attempt := Some(attempt.value.(status := target));
      if res.outcome.NeedsUserInput? {
        if item.value.owner != Some(w) { return false; }
        item := Some(Block(item.value));
      } else {
        item := Some(Review(item.value));
      }
      return true;
    }

    /** `_apply_verification`. */
    method ApplyVerification(r: nat, v: Verdict, withItem: bool) returns (applied: bool)
      requires attempt.Some? && r < |runs|
      modifies this`attempt, this`item, this`runs
      ensures (if applied then Done(Session(), books) else Refused)
        == ApplyVerdict(old(Session()), books, r, v, withItem)
    {
      applied := true;
      runs := runs[r := runs[r].(verification := v)];
      if v.VerdictVerified? {
        Finish(r, RunVerified);
        if attempt.value.status != Verified {
          if attempt.value.status != Status.Submitted {
            attempt := Some(attempt.value.(status := Status.Submitted));
          }
          attempt := Some(attempt.value.(status := Verified));
        }
        applied := ResolveQueueItem(withItem);
      } else if v.VerdictLikely? {
        Finish(r, RunSubmitted);
        if attempt.value.status == Uncertain {
          attempt := Some(attempt.value.(status := Status.Submitted));
          applied := ResolveQueueItem(withItem);
        }
      } else if v.VerdictFailed? {
        Finish(r, VerificationFailed);
        if attempt.value.status != Status.NeedsReview {
          attempt := Some(attempt.value.(status := Status.NeedsReview));
        }
        if withItem && item.Some? && !item.value.state.ReviewItem? && !item.value.state.Succeeded?
          && !item.value.state.CancelledItem? {
          item := Some(Review(item.value));
        }
      } else if v.VerdictUnknown? && runs[r].status.RunUnknown? {
        runs := runs[r := runs[r].(verification := VerdictPending)];
      }
    }

    /** `queue.resolve` refuses a cancelled item. */
    method ResolveQueueItem(withItem: bool) returns (resolved: bool)
      modifies this`item
      ensures (if resolved then Done(Session(), books) else Refused) == ResolveItem(old(Session()), books, withItem)
    {
      if withItem && item.Some? && !item.value.state.Succeeded? {
        if item.value.state.CancelledItem? { return false; }
        item := Some(Resolve(item.value));
      }
      return true;
    }

    // ---------------------------------------------------- verdicts and people

    method Verify(o: Opp, r: nat, v: Verdict) returns (accepted: bool)
      requires o in cases
      modifies this
      ensures (if accepted then Done(Here(o), ledger) else Refused) == VerifyOp(old(cases[o]), old(ledger), r, v)
      ensures accepted ==> r < |old(cases[o]).runs| && old(cases[o]).attempt.Some?
      ensures accepted ==> JudgedAs(old(cases[o]), r, v, Here(o)) && ledger == old(ledger)
      ensures !accepted ==> Here(o) == old(cases[o]) && ledger == old(ledger)
      ensures OnlyOn(o)
    {
      VerifyMeans(cases[o], ledger, r, v);
      Load(o);
      if r >= |runs| || attempt.None? || !Verifiable(runs[r].status) { return false; }
      accepted := ApplyVerification(r, v, true);
      if accepted { Commit(); }
    }

    method Confirm(o: Opp, r: nat, submitted: bool) returns (accepted: bool)
      requires o in cases
      modifies this
      ensures (if accepted then Done(Here(o), ledger) else Refused)
        == ConfirmOp(old(cases[o]), old(ledger), r, submitted)
      ensures accepted ==> r < |old(cases[o]).runs| && old(cases[o]).attempt.Some?
      ensures accepted ==> ConfirmedAs(old(cases[o]), r, submitted, Here(o)) && ledger == old(ledger)
      ensures !accepted ==> Here(o) == old(cases[o]) && ledger == old(ledger)
      ensures OnlyOn(o)
    {
      ConfirmMeans(cases[o], ledger, r, submitted);
      Load(o);
      if r >= |runs| || attempt.None? { return false; }
      if submitted && runs[r].status.HandedOff? {
        runs := runs[r := runs[r].(submitInvoked := true)];
        Finish(r, RunSubmitted);
        if attempt.value.status != Status.Submitted {
          attempt := Some(attempt.value.(status := Status.Submitted));
        }
        assert Session() == SetAttempt(
          SetRun(old(cases[o]), r, old(cases[o]).runs[r].(submitInvoked := true, status := RunSubmitted)),
          old(cases[o]).attempt.value.(status := Status.Submitted));
      } else {
        assert Session() == old(cases[o]);
      }
      if !Verifiable(runs[r].status) { return false; }
      accepted := ApplyVerification(r, if submitted then VerdictVerified else VerdictFailed, true);
      if accepted { Commit(); }
    }

    method AnyAwaitingVerdict() returns (found: bool)
      ensures found == AwaitsVerdict(runs)
    {
      found := false;
      for i := 0 to |runs|
        invariant found <==>
          exists j :: 0 <= j < i && runs[j].status.RunUnknown? &&
            (runs[j].verification.VerdictPending? || runs[j].verification.VerdictUnknown?)
      {
        if runs[i].status.RunUnknown?
          && (runs[i].verification.VerdictPending? || runs[i].verification.VerdictUnknown?) {
          found := true;
        }
      }
    }

    method Retry(o: Opp, now: int) returns (accepted: bool)
      requires o in cases
      modifies this
      ensures (if accepted then Done(Here(o), ledger) else Refused) == RetryOp(old(cases[o]), old(ledger), now)
      ensures accepted <==> MayRetry(old(cases[o]))
      ensures accepted ==> RetriedAs(old(cases[o]), now, Here(o)) && ledger == old(ledger)
      ensures !accepted ==> Here(o) == old(cases[o]) && ledger == old(ledger)
      ensures OnlyOn(o)
    {
      RetryMeans(cases[o], ledger, now);
      Load(o);
      if attempt.None? { return false; }
      if attempt.value.status in SUBMITTED_STATUSES && attempt.value.status != Submitting { return false; }
      var unknown := AnyAwaitingVerdict();
      if unknown { return false; }
      if attempt.value.status !in {Blocked, Status.NeedsUserInput, Status.NeedsReview, Ready, Failed,
                                   Cancelled} { return false; }
      Reopen();
      if item.Some? {
        if Parked(item.value) { item := Some(Requeue(item.value, now)); }
      } else if !attempt.value.released {
        item := Some(Fresh(MAX_ATTEMPTS, now));
      }
      Commit();
      return true;
    }

    /** READY again; what failed or was cancelled counts as a new attempt without a slot. */
    method Reopen()
      requires attempt.Some?
      modifies this`attempt
      ensures var a := old(attempt).value;
        attempt == Some(
          if a.status in {Failed, Cancelled}
          then a.(number := (if a.number == 0 then 1 else a.number) + 1, released := false, reserved := false,
                  capDay := None, capWeek := None, key := None, status := Ready)
          else a.(key := None, status := Ready))
    {
      if attempt.value.status in {Failed, Cancelled} {
        attempt := Some(attempt.value.(number := (if attempt.value.number == 0 then 1 else attempt.value.number) + 1));
        attempt := Some(attempt.value.(released := false, reserved := false));
        attempt := Some(attempt.value.(capDay := None, capWeek := None));
      }
      attempt := Some(attempt.value.(key := None));
      attempt := Some(attempt.value.(status := Ready));
    }

    method CancelAttempt(o: Opp) returns (accepted: bool)
      requires o in cases
      modifies this
      ensures (if accepted then Done(Here(o), ledger) else Refused) == CancelOp(old(cases[o]), old(ledger))
      ensures accepted <==> MayCancel(old(cases[o]))
      ensures accepted ==> CancelledAs(old(cases[o]), old(ledger), Here(o), ledger)
      ensures !accepted ==> Here(o) == old(cases[o]) && ledger == old(ledger)
      ensures OnlyOn(o)
    {
      CancelMeans(cases[o], ledger);
      Load(o);
      if attempt.None? || attempt.value.status in SUBMITTED_STATUSES { return false; }
      var (a, l) := ReleaseAttempt(attempt.value, books, Cancelled);
      attempt, books := Some(a), l;
      attempt := Some(attempt.value.(key := None));
      if item.Some? && !item.value.state.Succeeded? && !item.value.state.CancelledItem? {
        item := Some(Cancel(item.value));
      }
      Commit();
      return true;
    }

    // --------------------------------------------------------------- execute

    /** `execute`: one claimed item from start to finish with an in-process executor. */
    method Execute(o: Opp, w: Worker, call: Call, kit: Kit, x: Script, now: int) returns (outcome: StartOutcome)
      requires o in cases && cases[o].item.Some?
      modifies this
      ensures ExecuteStep(Here(o), ledger, outcome) == ExecuteOp(old(cases[o]), old(ledger), w, call, kit, x, now)
      ensures ExecutedAs(old(cases[o]), old(ledger), w, call, kit, x, now, ExecuteStep(Here(o), ledger, outcome))
      ensures OnlyOn(o)
      // nothing is left hanging, and a press is on record
      ensures if outcome.NotOwner? then Here(o) == old(cases[o]) && !HeldBy(old(cases[o]).item.value, w)
              else AtRest(Here(o), |old(cases[o]).runs|)
      ensures outcome.Started? && Honest(x) && x.pressed ==> PressOnRecord(Here(o), |old(cases[o]).runs|)
    {
      ExecuteMeans(cases[o], ledger, w, call, kit, x, now);
      NothingLeftHanging(cases[o], ledger, w, call, kit, x, now);
      if Honest(x) && x.pressed {
        PressIsNeverForgotten(cases[o], ledger, w, call, kit, x, now);
      }
      outcome := Start(o, w, call, kit);
      StartedMeans(old(cases[o]), old(ledger), w, call, kit);
      if !outcome.Started? { return; }
      RunScriptCloses(cases[o], ledger, w, outcome.run, x, now);
      Perform(o, w, outcome.run, x, now);
    }

    /** The rest of `execute` once `start` opened run `r`. */
    method Perform(o: Opp, w: Worker, r: nat, x: Script, now: int)
      requires o in cases && Acting(cases[o], w, r)
      modifies this
      ensures Done(Here(o), ledger) == RunScript(old(cases[o]), old(ledger), w, r, x, now)
      ensures OnlyOn(o)
    {
      var result := EarlyResult(x);
      if result.None? {
        PerformUpToReport(o, w, r, x);
        result := Some(FinalResult(x));
      }
      ReportAccepted(cases[o], ledger, w, r, result.value, now);
      var accepted := Report(o, w, r, result.value, now);
    }

    method PerformUpToReport(o: Opp, w: Worker, r: nat, x: Script)
      requires o in cases && Acting(cases[o], w, r)
      modifies this
      ensures (Here(o), ledger) == UpToReport(old(cases[o]), old(ledger), w, r, x)
      ensures OnlyOn(o)
    {
      if !x.dryRun {
        MarkInvoked(o, r, true);
      }
      CallGates(o, w, r, x.gateCalls);
      if Disowned(x) {
        MarkInvoked(o, r, false);
      }
    }

    /** The executor calls the gate as often as it likes. */
    method CallGates(o: Opp, w: Worker, r: nat, calls: seq<Call>)
      requires o in cases && Acting(cases[o], w, r)
      modifies this
      ensures (Here(o), ledger) == GatesFrom(old(cases[o]), old(ledger), calls) && o in cases && Acting(cases[o], w, r)
      ensures OnlyOn(o)
    {
      ghost var c, l := cases[o], ledger;
      var i := 0;
      while i < |calls|
        invariant 0 <= i <= |calls|
        invariant o in cases && Acting(cases[o], w, r) && OnlyOn(o)
        invariant GatesFrom(cases[o], ledger, calls[i..]) == GatesFrom(c, l, calls)
      {
        GateKeepsActing(cases[o], ledger, calls[i], w, r);
        assert calls[i..][1..] == calls[i + 1..];
        var ok := PreSubmitGate(o, calls[i]);
        i := i + 1;
      }
    }

    method MarkInvoked(o: Opp, r: nat, invoked: bool)
      requires o in cases && r < |cases[o].runs|
      modifies this
      ensures o in cases && cases[o] == SetInvoked(old(cases[o]), r, invoked) && ledger == old(ledger)
      ensures OnlyOn(o)
    {
      Load(o);
      runs := runs[r := runs[r].(submitInvoked := invoked)];
      Commit();
    }
  }
}
