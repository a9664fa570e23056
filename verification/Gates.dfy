/** What a passed pre-submit gate guarantees, and how often permission can be given. */
module Gates {
  import opened Base
  import opened Lifecycle
  import opened WorkQueue
  import opened Caps
  import opened Preconditions
  import opened Execution
  import opened Protocol
  import opened CapConservation

  /** The gate returns no failure exactly when the tenant is LIVE, no kill switch is paused, every
      precondition holds on current data with the attempt SUBMITTING, and a slot is held or free;
      the attempt then holds a slot of the current day and week. */
  lemma GateMeaning(c: Case, l: Ledger, call: Call)
    requires CapFields(c.attempt)
    ensures var g := GateOp(c, l, call);
      && (g.ok <==>
            && c.attempt.Some? && call.live && !call.paused
            && Eligible(call.facts, c.attempt.value, true)
            && SlotAvailable(c.attempt.value, l, call.policy, call.keys))
      && (g.ok ==>
            && g.c.attempt.Some? && g.c.attempt.value.status == Submitting
            && SamePeriod(g.c.attempt.value, call.keys))
  {
    if c.attempt.Some? {
      CheckMeaning(call.facts, c.attempt.value, l, call.policy, call.keys, true);
    }
  }

  function PolicyOf(action: Action): Policy {
    match action
    case Admit(call) => call.policy
    case Start(_, call, _) => call.policy
    case Gate(_, call) => call.policy
    case ExtensionGate(_, call) => call.policy
    case _ => Policy(0, 0)
  }

  lemma {:induction false} CapFieldsHold(h: Hyps, steps: seq<Label>)
    ensures SlotsWellFormed(After(h, steps))
  {
    if steps != [] {
      var n := |steps| - 1;
      CapFieldsHold(h, steps[..n]);
      var s := After(h, steps[..n]);
      ActBooks(h, At(s, steps[n].opp), s.ledger, steps[n].action, PolicyOf(steps[n].action));
    }
  }

  /** The worker may press in run `r`. */
  predicate HasPermission(z: Slot, w: Worker, r: nat) {
    w in z.sessions && z.sessions[w].run == r && z.sessions[w].phase.Granted?
  }

  /** Permission was given on these facts, at this instant. */
  predicate GivenOn(z: Slot, z': Slot, w: Worker, action: Action, call: Call) {
    && ((action.Gate? || action.ExtensionGate?) && action.w == w && action.call == call)
    && call.live && !call.paused
    && z.c.attempt.Some? && z.c.attempt.value.status == Submitting
    && Eligible(call.facts, z.c.attempt.value, true)
    && z'.c.attempt.Some? && SamePeriod(z'.c.attempt.value, call.keys)
  }

  lemma PermissionStep(h: Hyps, z: Slot, l: Ledger, action: Action, w: Worker, r: nat)
    requires CapFields(z.c.attempt)
    requires HasPermission(Act(h, z, l, action).slot, w, r) && !HasPermission(z, w, r)
    ensures exists call :: GivenOn(z, Act(h, z, l, action).slot, w, action, call)
  {
    if action.Gate? || action.ExtensionGate? {
      GateMeaning(z.c, l, action.call);
      assert GivenOn(z, Act(h, z, l, action).slot, w, action, action.call);
    } else {
      NoGateNoPermission(h, z, l, action, w, r);
    }
  }

  lemma NoGateNoPermission(h: Hyps, z: Slot, l: Ledger, action: Action, w: Worker, r: nat)
    requires !action.Gate? && !action.ExtensionGate? && HasPermission(Act(h, z, l, action).slot, w, r)
    ensures HasPermission(z, w, r)
  {
  }

  /** THE GATE. In every run, with or without the hypotheses, a worker gains permission to press only
      through a gate that found the tenant LIVE, nothing paused, the attempt SUBMITTING and every
      precondition true of current data, and left the attempt holding a slot of the current day and week. */
  lemma PermissionMeansEverythingHeld(h: Hyps, steps: seq<Label>, o: Opp, action: Action, w: Worker, r: nat)
    requires var s := After(h, steps);
      HasPermission(At(Next(h, s, Label(o, action)), o), w, r) && !HasPermission(At(s, o), w, r)
    ensures var s := After(h, steps);
      exists call :: GivenOn(At(s, o), At(Next(h, s, Label(o, action)), o), w, action, call)
  {
    CapFieldsHold(h, steps);
    var s := After(h, steps);
    PermissionStep(h, At(s, o), s.ledger, action, w, r);
  }

  // ---------------------------------------------------- one permission per run

  /** A run that is over, or on which `submit_invoked` is recorded, is never given permission again. */
  predicate Spent(runs: seq<Run>, r: nat) {
    r < |runs| && (!runs[r].status.Running? || runs[r].submitInvoked)
  }

  lemma {:induction false} RecoverKeepsSpent(c: Case, from: nat, now: int, r: nat)
    requires from <= |c.runs| && Spent(c.runs, r)
    ensures Spent(RecoverFrom(c, from, now).runs, r)
    decreases |c.runs| - from
  {
    if from < |c.runs| {
      RecoverKeepsSpent(RecoverRun(c, from, now), from + 1, now, r);
    }
  }

  lemma SettleKeepsSpent(c: Case, l: Ledger, w: Worker, call: Call, codes: seq<Code>, r: nat)
    requires c.attempt.Some? && c.item.Some? && Spent(c.runs, r)
    ensures Spent(SettlePreconditions(c, l, w, call, codes).0.runs, r)
  {
  }

  lemma StartReadyKeepsSpent(orig: Case, c: Case, l: Ledger, w: Worker, call: Call, kit: Kit, r: nat)
    requires orig.item.Some? && c.item.Some? && c.attempt.Some? && Spent(orig.runs, r) && Spent(c.runs, r)
    ensures Spent(StartReady(orig, c, l, w, call, kit).c.runs, r)
  {
    var report := Evaluate(call.facts, c.attempt.value, l, call.policy, call.keys, true, false);
    SettleKeepsSpent(SetAttempt(c, report.attempt), report.ledger, w, call, report.failures, r);
  }

  lemma StartKeepsSpent(c: Case, l: Ledger, w: Worker, call: Call, kit: Kit, r: nat)
    requires c.item.Some? && Spent(c.runs, r)
    ensures Spent(StartOp(c, l, w, call, kit).c.runs, r)
  {
    if c.attempt.Some? && HeldBy(c.item.value, w) {
      var c1 := SetItem(c, c.item.value.(state := Processing));
      if c.attempt.value.status == Submitting {
        ReclaimKeepsSpent(c1, r);
        StartReadyKeepsSpent(c, Reclaim(c1), l, w, call, kit, r);
      } else {
        StartReadyKeepsSpent(c, c1, l, w, call, kit, r);
      }
    }
  }

  lemma ReclaimKeepsSpent(c: Case, r: nat)
    requires c.attempt.Some? && Spent(c.runs, r)
    ensures var c' := Reclaim(c); Spent(c'.runs, r) && c'.item == c.item && c'.attempt.Some?
  {
  }

  lemma ReportKeepsSpent(c: Case, l: Ledger, w: Worker, q: nat, res: Result, now: int, r: nat)
    requires c.attempt.Some? && c.item.Some? && q < |c.runs| && (r == q || Spent(c.runs, r)) && r < |c.runs|
    requires ReportOp(c, l, w, q, res, now).Done?
    ensures Spent(ReportOp(c, l, w, q, res, now).c.runs, r)
  {
    match res.outcome
    case Submitted =>
    case DryRun =>
    case Unknown =>
    case RetryableFailure =>
    case PermanentFailure =>
    case Handoff =>
    case NeedsReview =>
    case NeedsUserInput =>
    case FormChanged =>
  }

  lemma ActReportKeepsSpent(h: Hyps, z: Slot, l: Ledger, w: Worker, res: Result, disowned: bool, now: int, r: nat)
    requires Spent(z.c.runs, r)
    ensures Spent(ActReport(h, z, l, w, res, disowned, now).slot.c.runs, r)
  {
    if MayAct(h, z, w) {
      var q := z.sessions[w].run;
      var c0 := if disowned then Unmarked(z.c, q) else z.c;
      if ReportOp(c0, l, w, q, res, now).Done? {
        ReportKeepsSpent(c0, l, w, q, res, now, r);
      }
    }
  }

  lemma ForeignReportKeepsSpent(h: Hyps, z: Slot, l: Ledger, w: Worker, res: Result, now: int, r: nat)
    requires Spent(z.c.runs, r)
    ensures Spent(ActForeignReport(h, z, l, w, res, now).slot.c.runs, r)
  {
    var running := CrashedRun(z.c.runs);
    if z.c.attempt.Some? && z.c.item.Some? && running.Some?
      && ReportOp(z.c, l, w, running.value, res, now).Done? {
      ReportKeepsSpent(z.c, l, w, running.value, res, now, r);
    }
  }

  lemma ConfirmKeepsSpent(c: Case, l: Ledger, q: nat, submitted: bool, r: nat)
    requires Spent(c.runs, r) && ConfirmOp(c, l, q, submitted).Done?
    ensures Spent(ConfirmOp(c, l, q, submitted).c.runs, r)
  {
  }

  lemma VerifyKeepsSpent(c: Case, l: Ledger, q: nat, v: Verdict, r: nat)
    requires Spent(c.runs, r) && VerifyOp(c, l, q, v).Done?
    ensures Spent(VerifyOp(c, l, q, v).c.runs, r)
  {
  }

  lemma ActKeepsSpent(h: Hyps, z: Slot, l: Ledger, action: Action, r: nat)
    requires Spent(z.c.runs, r)
    ensures Spent(Act(h, z, l, action).slot.c.runs, r)
  {
    if Starting(action) {
      StartingKeepsSpent(h, z, l, action, r);
    } else if InRun(action) || Joining(action) {
      WorkerKeepsSpent(h, z, l, action, r);
    } else if Judging(action) {
      JudgingKeepsSpent(h, z, l, action, r);
    }
  }

  lemma StartingKeepsSpent(h: Hyps, z: Slot, l: Ledger, action: Action, r: nat)
    requires Spent(z.c.runs, r) && Starting(action)
    ensures Spent(Act(h, z, l, action).slot.c.runs, r)
  {
    match action
    case Start(w, call, kit) => if z.c.item.Some? { StartKeepsSpent(z.c, l, w, call, kit, r); }
    case StartStale(w) =>
    case Recover(now) => RecoverKeepsSpent(z.c, 0, now, r);
  }

  lemma WorkerKeepsSpent(h: Hyps, z: Slot, l: Ledger, action: Action, r: nat)
    requires Spent(z.c.runs, r) && (InRun(action) || Joining(action))
    ensures Spent(Act(h, z, l, action).slot.c.runs, r)
  {
    match action
    case ReportResult(w, res, disowned, now) => ActReportKeepsSpent(h, z, l, w, res, disowned, now, r);
    case ForeignReport(w, res, now) => ForeignReportKeepsSpent(h, z, l, w, res, now, r);
    case _ =>
  }

  lemma JudgingKeepsSpent(h: Hyps, z: Slot, l: Ledger, action: Action, r: nat)
    requires Spent(z.c.runs, r) && Judging(action)
    ensures Spent(Act(h, z, l, action).slot.c.runs, r)
  {
    match action
    case Verify(q, v) => if VerifyOp(z.c, l, q, v).Done? { VerifyKeepsSpent(z.c, l, q, v, r); }
    case Confirm(q, submitted) =>
      if ConfirmOp(z.c, l, q, submitted).Done? { ConfirmKeepsSpent(z.c, l, q, submitted, r); }
  }

  lemma NextKeepsSpent(h: Hyps, s: State, step: Label, o: Opp, r: nat)
    requires Spent(At(s, o).c.runs, r)
    ensures Spent(At(Next(h, s, step), o).c.runs, r)
  {
    if step.opp == o {
      ActKeepsSpent(h, At(s, o), s.ledger, step.action, r);
    }
  }

  lemma {:induction false} SpentForever(h: Hyps, steps: seq<Label>, n: nat, o: Opp, r: nat)
    requires n <= |steps| && Spent(At(After(h, steps[..n]), o).c.runs, r)
    ensures Spent(At(After(h, steps), o).c.runs, r)
  {
    if n < |steps| {
      var init, last := steps[..|steps| - 1], steps[|steps| - 1];
      assert init[..n] == steps[..n];
      SpentForever(h, init, n, o, r);
      NextKeepsSpent(h, After(h, init), last, o, r);
      assert After(h, steps) == Next(h, After(h, init), last);
    } else {
      assert steps[..n] == steps;
    }
  }

  /** The step is an extension gate call, by any worker at all, that is answered with permission for run `r`. */
  predicate ExtensionGrants(s: State, step: Label, r: nat) {
    var z := At(s, step.opp);
    && step.action.ExtensionGate? && z.c.item.Some? && CrashedRun(z.c.runs) == Some(r)
    && ExtensionGateOp(z.c, s.ledger, step.action.w, step.action.call).ok
  }

  lemma GrantSpends(h: Hyps, s: State, step: Label, r: nat)
    requires ExtensionGrants(s, step, r)
    ensures !Spent(At(s, step.opp).c.runs, r)
    ensures Spent(At(Next(h, s, step), step.opp).c.runs, r)
  {
    var z := At(s, step.opp);
    GrantMarks(z.c, s.ledger, step.action.w, step.action.call, r);
    assert Act(h, z, s.ledger, step.action) == ActExtensionGate(z, s.ledger, step.action.w, step.action.call);
  }

  lemma GrantMarks(c: Case, l: Ledger, w: Worker, call: Call, r: nat)
    requires c.item.Some? && CrashedRun(c.runs) == Some(r) && ExtensionGateOp(c, l, w, call).ok
    ensures !Spent(c.runs, r) && Spent(ExtensionGateOp(c, l, w, call).c.runs, r)
  {
  }

  /** On the extension path permission is given at most once per run, in every run of the protocol and
      under no hypothesis at all. */
  lemma ExtensionGrantsOnce(h: Hyps, steps: seq<Label>, i: nat, j: nat, r: nat)
    requires i < j < |steps| && steps[i].opp == steps[j].opp
    requires ExtensionGrants(After(h, steps[..i]), steps[i], r)
    ensures !ExtensionGrants(After(h, steps[..j]), steps[j], r)
  {
    GrantSpends(h, After(h, steps[..i]), steps[i], r);
    assert steps[..i + 1][..i] == steps[..i];
    assert steps[..j][..i + 1] == steps[..i + 1];
    SpentForever(h, steps[..j], i + 1, steps[i].opp, r);
    if ExtensionGrants(After(h, steps[..j]), steps[j], r) {
      GrantSpends(h, After(h, steps[..j]), steps[j], r);
    }
  }
}
