/** `ExecutionService.execute` over everything an in-process executor may do, and what it leaves behind. */
module Executors {
  import opened Base
  import opened Lifecycle
  import opened WorkQueue
  import opened Caps
  import opened Preconditions
  import opened Execution
  import opened Protocol
  import opened Coupling

  datatype Prepared =
    | PrepareRaised(retryable: bool)
    | PrepareCrashed
    | FormFound(needsInput: nat, needsReview: nat, handoff: bool)

  datatype Performed =
    | Returned(res: Result)
    | Raised(retryable: bool, beforeSubmit: bool)
    | Crashed

  /** Everything the executor does in one run. `verified` is None when its own verification crashes;
      `pressed` is whether it pressed submit, which only the executor knows. */
  datatype Script = Script(
    prepared: Prepared,
    dryRun: bool,
    gateCalls: seq<Call>,
    performed: Performed,
    verified: Option<Verdict>,
    pressed: bool)

  /** The result `execute` reports before the executor is let near the submit button. */
  function EarlyResult(x: Script): Option<Result> {
    match x.prepared
    case PrepareRaised(retryable) =>
      Some(Result(if retryable then RetryableFailure else PermanentFailure, false, None, None))
    case PrepareCrashed => Some(Result(RetryableFailure, false, None, None))
    case FormFound(needsInput, needsReview, handoff) =>
      if needsInput > 0 && !handoff then Some(Result(Outcome.NeedsUserInput, false, None, None))
      else if needsReview > 0 && !handoff then Some(Result(Handoff, false, None, None))
      else None
  }

  /** The executor's error vouches that nothing was pressed. */
  predicate Disowned(x: Script) {
    x.performed.Raised? && (x.performed.beforeSubmit || x.dryRun)
  }

  /** The result `execute` reports after the executor was let loose. */
  function FinalResult(x: Script): Result {
    var res :=
      match x.performed
      case Returned(res) => res
      case Raised(retryable, beforeSubmit) =>
        if beforeSubmit || x.dryRun
        then Result(if retryable || x.dryRun then RetryableFailure else PermanentFailure, false, None, None)
        else Result(Unknown, true, None, None)
      case Crashed =>
        if x.dryRun then Result(RetryableFailure, false, None, None) else Result(Unknown, true, None, None);
    if res.outcome.Submitted? && res.verification.None?
    then res.(verification := Some(if x.verified.Some? then x.verified.value else VerdictUnknown))
    else res
  }

  function GatesFrom(c: Case, l: Ledger, calls: seq<Call>): (Case, Ledger)
    decreases |calls|
  {
    if calls == [] then (c, l)
    else
      var g := GateOp(c, l, calls[0]);
      GatesFrom(g.c, g.ledger, calls[1..])
  }

  datatype ExecuteStep = ExecuteStep(c: Case, ledger: Ledger, outcome: StartOutcome)

  function SetInvoked(c: Case, r: nat, invoked: bool): Case
    requires r < |c.runs|
  {
    SetRun(c, r, c.runs[r].(submitInvoked := invoked))
  }

  /** What happens after `start` opened run `r`: the result of an early exit, or the armed run, its gate
      calls and the executor's own result. */
  function RunScript(c: Case, l: Ledger, w: Worker, r: nat, x: Script, now: int): Reported
    requires Acting(c, w, r)
  {
    if EarlyResult(x).Some? then ReportOp(c, l, w, r, EarlyResult(x).value, now)
    else
      var (c1, l1) := UpToReport(c, l, w, r, x);
      ReportOp(c1, l1, w, r, FinalResult(x), now)
  }

  function UpToReport(c: Case, l: Ledger, w: Worker, r: nat, x: Script): (res: (Case, Ledger))
    requires Acting(c, w, r)
    ensures Acting(res.0, w, r) && |res.0.runs| == |c.runs|
    ensures x.pressed && Honest(x) ==> res.0.runs[r].submitInvoked
    ensures res.0.runs == c.runs[r := res.0.runs[r]]
  {
    var c1 := if x.dryRun then c else SetInvoked(c, r, true);
    GatesKeepActing(c1, l, x.gateCalls, w, r);
    var (c2, l2) := GatesFrom(c1, l, x.gateCalls);
    if Disowned(x) then (SetInvoked(c2, r, false), l2) else (c2, l2)
  }

  /** What `execute` leaves in the tables. A refused report leaves them as they were; `NothingLeftHanging`
      shows that none is refused. */
  function ExecuteOp(c: Case, l: Ledger, w: Worker, call: Call, kit: Kit, x: Script, now: int): ExecuteStep
    requires c.item.Some?
  {
    var step := StartOp(c, l, w, call, kit);
    StartedMeans(c, l, w, call, kit);
    if !step.outcome.Started? then ExecuteStep(step.c, step.ledger, step.outcome)
    else
      var rep := RunScript(step.c, step.ledger, w, step.outcome.run, x, now);
      if rep.Done? then ExecuteStep(rep.c, rep.ledger, step.outcome) else ExecuteStep(step.c, step.ledger, step.outcome)
  }

  // ------------------------------------------------------------------ facts

  /** The worker is in the middle of run `r`. */
  predicate Acting(c: Case, w: Worker, r: nat) {
    && c.attempt.Some? && c.attempt.value.status == Submitting
    && c.item.Some? && Owns(c.item.value, w)
    && r < |c.runs|
  }

  /** Nobody holds the item, the attempt is not SUBMITTING, and no run from number `n` on is RUNNING. */
  ghost predicate AtRest(c: Case, n: nat) {
    && c.item.Some? && !InHand(c.item.value)
    && (c.attempt.Some? ==> c.attempt.value.status != Submitting)
    && forall i :: n <= i ==> !IsRunning(c.runs, i)
  }

  lemma SettledAtRest(c: Case, l: Ledger, w: Worker, call: Call, codes: seq<Code>)
    requires c.attempt.Some? && c.item.Some? && c.attempt.value.status == Ready
    ensures AtRest(SettlePreconditions(c, l, w, call, codes).0, |c.runs|)
  {
    var c' := SettlePreconditions(c, l, w, call, codes).0;
    assert c'.runs == c.runs + [c'.runs[|c.runs|]];
  }

  lemma StartReadyMeans(orig: Case, c: Case, l: Ledger, w: Worker, call: Call, kit: Kit)
    requires orig.item.Some? && c.item.Some? && c.attempt.Some? && c.attempt.value.status == Ready
    requires Owns(c.item.value, w)
    requires orig.attempt.Some? && (orig.attempt.value.status == Ready || c.attempt.value.key.None?)
    requires |orig.runs| == |c.runs|
    ensures var step := StartReady(orig, c, l, w, call, kit);
      if step.outcome.Started?
      then Acting(step.c, w, step.outcome.run) && step.outcome.run == |c.runs| && |step.c.runs| == |c.runs| + 1
      else !step.outcome.NotOwner? && AtRest(step.c, |c.runs|)
  {
    if !call.paused {
      EvaluateKeeps(call.facts, c.attempt.value, l, call.policy, call.keys, false);
      var report := Evaluate(call.facts, c.attempt.value, l, call.policy, call.keys, true, false);
      if report.failures != [] {
        SettledAtRest(SetAttempt(c, report.attempt), report.ledger, w, call, report.failures);
      }
    }
  }

  /** `start`, from any records at all: it opens a run for this worker, or hands the item on, or raises
      with the item not this worker's or given back. */
  lemma StartedMeans(c: Case, l: Ledger, w: Worker, call: Call, kit: Kit)
    requires c.item.Some?
    ensures var step := StartOp(c, l, w, call, kit);
      if step.outcome.Started?
      then Acting(step.c, w, step.outcome.run) && step.outcome.run == |c.runs| && |step.c.runs| == |c.runs| + 1
      else if step.outcome.NotOwner? then step.c == c && step.ledger == l && !HeldBy(c.item.value, w)
      else AtRest(step.c, |c.runs|)
  {
    if HeldBy(c.item.value, w) && c.attempt.Some? {
      var c1 := SetItem(c, c.item.value.(state := Processing));
      if c.attempt.value.status == Submitting {
        ReclaimMeans(c1);
        if Reclaim(c1).attempt.value.status == Ready {
          StartReadyMeans(c, Reclaim(c1), l, w, call, kit);
        }
      } else if c.attempt.value.status == Ready {
        StartReadyMeans(c, c1, l, w, call, kit);
      }
    }
  }

  lemma ReclaimMeans(c: Case)
    requires c.attempt.Some?
    ensures var c' := Reclaim(c);
      && |c'.runs| == |c.runs| && c'.item == c.item && c'.attempt.Some?
      && (c'.attempt.value.status == Uncertain || (c'.attempt.value.status == Ready && c'.attempt.value.key.None?))
  {
  }

  lemma GateKeepsActing(c: Case, l: Ledger, call: Call, w: Worker, r: nat)
    requires Acting(c, w, r)
    ensures Acting(GateOp(c, l, call).c, w, r) && GateOp(c, l, call).c.runs == c.runs
  {
    GateOpKeeps(c, l, call);
  }

  lemma {:induction false} GatesKeepActing(c: Case, l: Ledger, calls: seq<Call>, w: Worker, r: nat)
    requires Acting(c, w, r)
    ensures Acting(GatesFrom(c, l, calls).0, w, r) && GatesFrom(c, l, calls).0.runs == c.runs
    decreases |calls|
  {
    if calls != [] {
      GateKeepsActing(c, l, calls[0], w, r);
      var g := GateOp(c, l, calls[0]);
      GatesKeepActing(g.c, g.ledger, calls[1..], w, r);
    }
  }

  // --------------------------------------------------------------- theorems

  lemma ReportCloses(c: Case, l: Ledger, w: Worker, r: nat, res: Result, now: int)
    requires Acting(c, w, r)
    ensures ReportOp(c, l, w, r, res, now).Done? && Closes(c, ReportOp(c, l, w, r, res, now).c, r)
  {
    ReportAccepted(c, l, w, r, res, now);
    if res.outcome.Submitted? {
      ReportSubmittedShape(c, l, w, r, res, now);
    } else {
      ReportShape(c, l, w, r, res, now);
    }
  }

  lemma ClosedAtRest(c: Case, c': Case, r: nat)
    requires Closes(c, c', r) && |c.runs| == r + 1
    ensures AtRest(c', r)
  {
  }

  lemma RunScriptCloses(c: Case, l: Ledger, w: Worker, r: nat, x: Script, now: int)
    requires Acting(c, w, r) && |c.runs| == r + 1
    ensures var rep := RunScript(c, l, w, r, x, now); rep.Done? && AtRest(rep.c, r)
  {
    if EarlyResult(x).Some? {
      ReportCloses(c, l, w, r, EarlyResult(x).value, now);
      ClosedAtRest(c, RunScript(c, l, w, r, x, now).c, r);
    } else {
      var (c1, l1) := UpToReport(c, l, w, r, x);
      ReportCloses(c1, l1, w, r, FinalResult(x), now);
      ClosedAtRest(c1, RunScript(c, l, w, r, x, now).c, r);
    }
  }

  /** Nothing is left hanging. Whatever the records were and whatever the executor does, `execute` either
      raises because the item is not this worker's, with the records untouched, or it ends with the item
      out of every worker's hands, the attempt not SUBMITTING and no run it started RUNNING. */
  lemma NothingLeftHanging(c: Case, l: Ledger, w: Worker, call: Call, kit: Kit, x: Script, now: int)
    requires c.item.Some?
    ensures var e := ExecuteOp(c, l, w, call, kit, x, now);
      if e.outcome.NotOwner? then e.c == c && e.ledger == l && !HeldBy(c.item.value, w) else AtRest(e.c, |c.runs|)
  {
    StartedMeans(c, l, w, call, kit);
    var step := StartOp(c, l, w, call, kit);
    if step.outcome.Started? {
      RunScriptCloses(step.c, step.ledger, w, step.outcome.run, x, now);
    }
  }

  /** The same in every run, whatever others do between `start` and the report, and under no hypothesis: a
      `start` that opens no run leaves the item in nobody's hands or touches nothing, and when a report is
      accepted its run is closed, the item is in nobody's hands and the attempt is not SUBMITTING. */
  lemma NothingLeftHangingInRuns(h: Hyps, steps: seq<Label>, o: Protocol.Opp, action: Action)
    ensures var s := After(h, steps); var z, z' := At(s, o), At(Next(h, s, Label(o, action)), o);
      match action
      case Start(w, call, kit) =>
        z.c.item.Some? ==>
          (var step := StartOp(z.c, s.ledger, w, call, kit);
           if step.outcome.Started? then Acting(z'.c, w, step.outcome.run) && step.outcome.run == |z.c.runs|
           else if step.outcome.NotOwner? then z'.c == z.c else AtRest(z'.c, |z.c.runs|))
      case ReportResult(w, _, _, _) => z' == z || (w in z.sessions && Closed(z', z.sessions[w].run))
      case ForeignReport(_, _, _) =>
        z' == z || (CrashedRun(z.c.runs).Some? && Closed(z', CrashedRun(z.c.runs).value))
      case _ => true
  {
    var s := After(h, steps);
    var z := At(s, o);
    match action
    case Start(w, call, kit) => if z.c.item.Some? { StartedMeans(z.c, s.ledger, w, call, kit); }
    case ReportResult(w, res, disowned, now) => AcceptedReportCloses(h, z, s.ledger, w, res, disowned, now);
    case ForeignReport(w, res, now) => ForeignReportCloses(h, z, s.ledger, w, res, now);
    case _ =>
  }

  /** The run is over, the item in nobody's hands and the attempt not SUBMITTING. */
  predicate Closed(z: Slot, r: nat) {
    && r < |z.c.runs| && !z.c.runs[r].status.Running?
    && z.c.item.Some? && !InHand(z.c.item.value)
    && z.c.attempt.Some? && z.c.attempt.value.status != Submitting
  }

  /** An accepted report closes its run on any records at all. */
  lemma AcceptedReportCloses(h: Hyps, z: Slot, l: Ledger, w: Worker, res: Result, disowned: bool, now: int)
    ensures var z' := ActReport(h, z, l, w, res, disowned, now).slot;
      z' == z || (w in z.sessions && Closed(z', z.sessions[w].run))
  {
    if ActReport(h, z, l, w, res, disowned, now).slot != z {
      var r := z.sessions[w].run;
      ReportEffect(if disowned then Unmarked(z.c, r) else z.c, l, w, r, res, now);
    }
  }

  lemma ForeignReportCloses(h: Hyps, z: Slot, l: Ledger, w: Worker, res: Result, now: int)
    ensures var z' := ActForeignReport(h, z, l, w, res, now).slot;
      z' == z || (CrashedRun(z.c.runs).Some? && Closed(z', CrashedRun(z.c.runs).value))
  {
    if ActForeignReport(h, z, l, w, res, now).slot != z {
      ReportEffect(z.c, l, w, CrashedRun(z.c.runs).value, res, now);
    }
  }

  /** H1 for a whole run: an executor that pressed was not in dry-run mode, got past the form, and says
      SUBMITTED or UNKNOWN, or fails without vouching for anything. */
  predicate Honest(x: Script) {
    x.pressed ==>
      && !x.dryRun && EarlyResult(x).None? && !Disowned(x)
      && (x.performed.Returned? ==> x.performed.res.outcome.Submitted? || x.performed.res.outcome.Unknown?)
  }

  /** A press on record stays on record through the report. */
  predicate PressOnRecord(c: Case, r: nat) {
    && r < |c.runs| && c.runs[r].submitInvoked && c.attempt.Some?
    && (|| c.attempt.value.status in SUBMITTED_STATUSES
        || (c.attempt.value.status == Status.NeedsReview && c.runs[r].verification == VerdictFailed))
  }

  lemma ReportKeepsPress(c: Case, l: Ledger, w: Worker, r: nat, res: Result, now: int)
    requires Acting(c, w, r) && c.runs[r].submitInvoked && (res.outcome.Submitted? || res.outcome.Unknown?)
    ensures ReportOp(c, l, w, r, res, now).Done? && PressOnRecord(ReportOp(c, l, w, r, res, now).c, r)
  {
  }

  /** The mapping of errors to results loses no press: after an honest executor pressed, `submit_invoked` is
      on record and the attempt is submitted, awaits a verdict, or was denied by the executor's own check. */
  lemma PressIsNeverForgotten(c: Case, l: Ledger, w: Worker, call: Call, kit: Kit, x: Script, now: int)
    requires c.item.Some? && Honest(x) && x.pressed
    ensures var e := ExecuteOp(c, l, w, call, kit, x, now);
      e.outcome.Started? ==> PressOnRecord(e.c, |c.runs|)
  {
    StartedMeans(c, l, w, call, kit);
    var step := StartOp(c, l, w, call, kit);
    if step.outcome.Started? {
      var (c1, l1) := UpToReport(step.c, step.ledger, w, step.outcome.run, x);
      ReportKeepsPress(c1, l1, w, step.outcome.run, FinalResult(x), now);
    }
  }
}
