/** What `execute` leaves on record for everything an in-process executor may do (app/execution/service.py). */
module ExecuteOutcomes {
  import opened Base
  import opened Lifecycle
  import opened WorkQueue
  import opened Caps
  import opened Preconditions
  import opened Execution
  import opened StartOutcomes
  import opened ReportOutcomes
  import opened Executors

  /** The form waits for a person, and the executor did not arrange for that itself. */
  predicate StopsAtForm(x: Script) {
    x.prepared.FormFound? && !x.prepared.handoff && (x.prepared.needsInput > 0 || x.prepared.needsReview > 0)
  }

  /** The error or crash cannot have come after a press: it says so, or nothing could be pressed at all. */
  predicate Vouched(x: Script) {
    x.dryRun || (x.performed.Raised? && x.performed.beforeSubmit)
  }

  /** The result that `execute` makes of it. */
  predicate Tells(x: Script, res: Result) {
    if !x.prepared.FormFound? then
      res == Result(if x.prepared.PrepareRaised? && !x.prepared.retryable then PermanentFailure else RetryableFailure,
                    false, None, None)
    else if StopsAtForm(x) then
      res == Result(if x.prepared.needsInput > 0 then Outcome.NeedsUserInput else Handoff, false, None, None)
    else if !x.performed.Returned? then
      res == if !Vouched(x) then Result(Unknown, true, None, None)
             else Result(if x.performed.Raised? && !x.performed.retryable && !x.dryRun then PermanentFailure
                         else RetryableFailure, false, None, None)
    else
      && (res.outcome, res.submitAttempted, res.capWait)
         == (x.performed.res.outcome, x.performed.res.submitAttempted, x.performed.res.capWait)
      && (if res.outcome.Submitted? && x.performed.res.verification.None?
          then res.verification == if x.verified.Some? then x.verified else Some(VerdictUnknown)
          else res.verification == x.performed.res.verification)
  }

  /** Whether submit counts as invoked when the result is reported: from before the executor is let loose, unless
      it cannot press, and taken back when its error vouches for it. */
  predicate Armed(x: Script) {
    x.prepared.FormFound? && !StopsAtForm(x) && !x.dryRun && !(x.performed.Raised? && x.performed.beforeSubmit)
  }

  /** The same attempt apart from its slot, which the gate may refresh. */
  predicate SameButSlot(a: Attempt, a': Attempt) {
    && a' == Attempt(a.status, a.key, a.number, a.executions, a'.reserved, a'.released, a'.capDay, a'.capWeek)
    && (a' == a || (a'.reserved && !a'.released && a'.capDay.Some? && a'.capWeek.Some?))
  }

  /** The records at the time of the report: of what `start` opened only the press on record and the slot differ. */
  ghost predicate ReadyToReport(begun: Case, r: nat, x: Script, c: Case) {
    && begun.attempt.Some? && c.attempt.Some? && r < |begun.runs|
    && SameButSlot(begun.attempt.value, c.attempt.value) && c.item == begun.item && c.item.Some?
    && c.runs == begun.runs[r := begun.runs[r].(submitInvoked := Armed(x))]
  }

  /** The executor's result is reported on run `r`, which `start` opened. */
  ghost predicate ScriptReported(begun: Case, r: nat, x: Script, now: int, c': Case, l': Ledger) {
    exists before, books, res :: ReadyToReport(begun, r, x, before) && Tells(x, res)
                                 && ReportedAs(before, books, r, res, now, c', l')
  }

  /** An exit of `start`, or the run it opened with the executor's result reported on it. */
  ghost predicate ExecutedAs(c: Case, l: Ledger, w: Worker, call: Call, kit: Kit, x: Script, now: int, e: ExecuteStep)
    requires c.item.Some?
  {
    exists begun: StartStep :: StartedAs(c, l, w, call, kit, begun) && begun.outcome == e.outcome
      && if e.outcome.Started? then ScriptReported(begun.c, |c.runs|, x, now, e.c, e.ledger)
         else e == ExecuteStep(begun.c, begun.ledger, e.outcome)
  }

  lemma {:induction false} GatesTouchSlotOnly(c: Case, l: Ledger, calls: seq<Call>, w: Worker, r: nat)
    requires Acting(c, w, r)
    ensures var c' := GatesFrom(c, l, calls).0;
      c'.attempt.Some? && SameButSlot(c.attempt.value, c'.attempt.value) && c'.item == c.item && c'.runs == c.runs
    decreases |calls|
  {
    if calls != [] {
      GateMeans(c, l, calls[0]);
      var g := GateOp(c, l, calls[0]);
      GateKeepsActing(c, l, calls[0], w, r);
      GatesTouchSlotOnly(g.c, g.ledger, calls[1..], w, r);
    }
  }

  /** Up to the report only the press on record and the slot change. */
  lemma BeforeReport(c: Case, l: Ledger, w: Worker, r: nat, x: Script)
    requires Acting(c, w, r) && EarlyResult(x).None? && !c.runs[r].submitInvoked
    ensures ReadyToReport(c, r, x, UpToReport(c, l, w, r, x).0)
  {
    GatesTouchSlotOnly(if x.dryRun then c else SetInvoked(c, r, true), l, x.gateCalls, w, r);
  }

  lemma ScriptMeans(c: Case, l: Ledger, w: Worker, r: nat, x: Script, now: int)
    requires Acting(c, w, r) && !c.runs[r].submitInvoked
    ensures var rep := RunScript(c, l, w, r, x, now);
      rep.Done? && ScriptReported(c, r, x, now, rep.c, rep.ledger)
  {
    if EarlyResult(x).Some? {
      var res := EarlyResult(x).value;
      ReportCloses(c, l, w, r, res, now);
      ReportMeans(c, l, w, r, res, now);
      assert c.runs == c.runs[r := c.runs[r].(submitInvoked := Armed(x))];
      assert ReadyToReport(c, r, x, c) && Tells(x, res);
    } else {
      var (c1, l1) := UpToReport(c, l, w, r, x);
      BeforeReport(c, l, w, r, x);
      ReportCloses(c1, l1, w, r, FinalResult(x), now);
      ReportMeans(c1, l1, w, r, FinalResult(x), now);
      assert ReadyToReport(c, r, x, c1) && Tells(x, FinalResult(x));
    }
  }

  /** `execute` from any records, whatever the executor does. */
  lemma ExecuteMeans(c: Case, l: Ledger, w: Worker, call: Call, kit: Kit, x: Script, now: int)
    requires c.item.Some?
    ensures ExecutedAs(c, l, w, call, kit, x, now, ExecuteOp(c, l, w, call, kit, x, now))
  {
    var begun := StartOp(c, l, w, call, kit);
    StartMeans(c, l, w, call, kit);
    StartedMeans(c, l, w, call, kit);
    if begun.outcome.Started? {
      ScriptMeans(begun.c, begun.ledger, w, |c.runs|, x, now);
    }
  }
}
