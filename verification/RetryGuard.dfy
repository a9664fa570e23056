/** What the guard of `retry` would have to ask. It looks for unknown runs whose verdict is awaited; asked
    instead that every run with `submit_invoked` on record has been denied, it would make sure that it is the
    run that pressed whose denial comes before the next press. */
module RetryGuard {
  import opened Base
  import opened Lifecycle
  import opened WorkQueue
  import opened Caps
  import opened Preconditions
  import opened Execution
  import opened Protocol
  import opened Coupling
  import opened Recovery
  import opened AtMostOnce
  import opened PressedRun

  // -------------------------------------------------------------- the history

  /** The last press that no retry has written off: its run, and whether that run was denied since. */
  datatype Debt = Free | Owes(run: nat, denied: bool) | Unpaid

  function FollowDebt(d: Debt, e: Event): Debt {
    match e
    case Press(r) => if d.Free? then Owes(r, false) else Unpaid
    case Denied(q) => if d.Owes? && q == d.run then Owes(q, true) else d
    case Retried => if d.Owes? then (if d.denied then Free else Unpaid) else d
  }

  function DebtOf(log: seq<Event>): Debt {
    if log == [] then Free else FollowDebt(DebtOf(log[..|log| - 1]), log[|log| - 1])
  }

  lemma ExtendDebt(log: seq<Event>, e: Event)
    ensures DebtOf(log + [e]) == FollowDebt(DebtOf(log), e)
  {
    assert (log + [e])[..|log|] == log;
  }

  lemma {:induction false} PaidPrefix(log: seq<Event>, j: nat)
    requires j <= |log| && !DebtOf(log).Unpaid?
    ensures !DebtOf(log[..j]).Unpaid?
  {
    if j < |log| {
      PaidPrefix(log[..|log| - 1], j);
      assert log[..|log| - 1][..j] == log[..j];
    } else {
      assert log[..j] == log;
    }
  }

  lemma {:induction false} SincePress(log: seq<Event>, i: nat)
    requires i < |log| && log[i].Press? && !DebtOf(log).Unpaid?
    ensures || OwnDenialThenRetry(log, log[i].run, i, |log|)
            || DebtOf(log) == Owes(log[i].run, false)
            || (DebtOf(log) == Owes(log[i].run, true) && exists k :: i < k < |log| && log[k] == Denied(log[i].run))
  {
    var n := |log| - 1;
    var before := log[..n];
    var r := log[i].run;
    if i < n {
      SincePress(before, i);
      if OwnDenialThenRetry(before, r, i, n) {
        var k, m :| i < k < m < n && before[k] == Denied(r) && before[m].Retried?;
        assert log[k] == Denied(r) && log[m].Retried?;
      } else if DebtOf(before) == Owes(r, false) {
        assert log[n] == Denied(r) || DebtOf(log) == Owes(r, false);
      } else {
        var k :| i < k < n && before[k] == Denied(r);
        assert log[k] == Denied(r);
      }
    }
  }

  lemma PaidMeansOwnDenial(log: seq<Event>, i: nat, j: nat)
    requires !DebtOf(log).Unpaid? && i < j < |log| && log[i].Press? && log[j].Press?
    ensures OwnDenialThenRetry(log, log[i].run, i, j)
  {
    PaidPrefix(log, j + 1);
    assert log[..j + 1][..j] == log[..j] && log[..j + 1][j] == log[j];
    SincePress(log[..j], i);
    var k, m :| i < k < m < j && log[..j][k] == Denied(log[i].run) && log[..j][m].Retried?;
    assert log[k] == Denied(log[i].run) && log[m].Retried?;
  }

  // ------------------------------------------------------- what runs remember

  /** A run that goes on or closes: a possible click stays on record, and no denial appears. */
  predicate Remembered(x: Run, y: Run) {
    && (x.submitInvoked ==> y.submitInvoked)
    && (y.verification.VerdictFailed? ==> x.verification.VerdictFailed?)
    && (y.status.Running? ==> x.status.Running? && y.verification == x.verification)
  }

  /** All runs are remembered, except perhaps run `but`. */
  ghost predicate RememberedBut(runs: seq<Run>, runs': seq<Run>, but: int) {
    && |runs| <= |runs'|
    && (forall i :: 0 <= i < |runs| && i != but ==> Remembered(runs[i], runs'[i]))
    && (forall i :: |runs| <= i < |runs'| && runs'[i].status.Running? ==> runs'[i].verification.NotAttempted?)
  }

  const NOBODY: int := -1

  lemma RememberedTrans(x: seq<Run>, y: seq<Run>, z: seq<Run>)
    requires RememberedBut(x, y, NOBODY) && RememberedBut(y, z, NOBODY) && |x| == |y|
    ensures RememberedBut(x, z, NOBODY)
  {
    forall i | 0 <= i < |x| ensures Remembered(x[i], z[i]) {
      assert Remembered(x[i], y[i]) && Remembered(y[i], z[i]);
    }
  }

  lemma {:induction false} RecoverRemembers(c: Case, from: nat, now: int)
    requires from <= |c.runs|
    ensures RememberedBut(c.runs, RecoverFrom(c, from, now).runs, NOBODY)
    decreases |c.runs| - from
  {
    if from < |c.runs| {
      var c', next := RecoverRun(c, from, now), from + 1;
      RecoverRemembers(c', next, now);
      RememberedTrans(c.runs, c'.runs, RecoverFrom(c', next, now).runs);
    }
  }

  lemma ReclaimRemembers(c: Case)
    requires c.attempt.Some?
    ensures var c' := Reclaim(c); RememberedBut(c.runs, c'.runs, NOBODY) && |c'.runs| == |c.runs| && c'.item == c.item
  {
  }

  lemma SettledRemembers(c: Case, l: Ledger, w: Worker, call: Call, codes: seq<Code>)
    requires c.attempt.Some? && c.item.Some?
    ensures RememberedBut(c.runs, SettlePreconditions(c, l, w, call, codes).0.runs, NOBODY)
  {
  }

  lemma StartReadyRemembers(orig: Case, c: Case, l: Ledger, w: Worker, call: Call, kit: Kit)
    requires orig.item.Some? && c.item.Some? && c.attempt.Some?
    requires |orig.runs| == |c.runs| && RememberedBut(orig.runs, c.runs, NOBODY)
    ensures RememberedBut(orig.runs, StartReady(orig, c, l, w, call, kit).c.runs, NOBODY)
  {
    var report := Evaluate(call.facts, c.attempt.value, l, call.policy, call.keys, true, false);
    var c1 := SetAttempt(c, report.attempt);
    SettledRemembers(c1, report.ledger, w, call, report.failures);
    RememberedTrans(orig.runs, c.runs, SettlePreconditions(c1, report.ledger, w, call, report.failures).0.runs);
    MutexRemembers(orig, c1, l, report.ledger, w);
  }

  lemma MutexRemembers(orig: Case, c: Case, l: Ledger, l1: Ledger, w: Worker)
    requires orig.item.Some? && c.attempt.Some? && |orig.runs| == |c.runs| && RememberedBut(orig.runs, c.runs, NOBODY)
    ensures RememberedBut(orig.runs, TakeMutex(orig, c, l, l1, w).c.runs, NOBODY)
  {
  }

  lemma StartRemembers(c: Case, l: Ledger, w: Worker, call: Call, kit: Kit)
    requires c.item.Some?
    ensures RememberedBut(c.runs, StartOp(c, l, w, call, kit).c.runs, NOBODY)
  {
    if HeldBy(c.item.value, w) && c.attempt.Some? {
      var c1 := SetItem(c, c.item.value.(state := Processing));
      if c.attempt.value.status == Submitting {
        ReclaimRemembers(c1);
        if Reclaim(c1).attempt.value.status == Ready {
          StartReadyRemembers(c, Reclaim(c1), l, w, call, kit);
        }
      } else if c.attempt.value.status == Ready {
        StartReadyRemembers(c, c1, l, w, call, kit);
      }
    }
  }

  lemma StartingRemembers(h: Hyps, z: Slot, l: Ledger, action: Action)
    requires Starting(action)
    ensures RememberedBut(z.c.runs, Act(h, z, l, action).slot.c.runs, NOBODY)
  {
    match action
    case Start(w, call, kit) => if z.c.item.Some? { StartRemembers(z.c, l, w, call, kit); }
    case StartStale(w) =>
      if z.c.item.Some? && z.c.attempt.Some? {
        MutexRemembers(z.c, SetItem(z.c, z.c.item.value.(state := Processing)), l, l, w);
      }
    case Recover(now) => RecoverRemembers(z.c, 0, now);
  }

  lemma GatesRemember(h: Hyps, z: Slot, l: Ledger, action: Action)
    requires InRun(action) || action.ExtensionGate? || action.Crash?
    ensures RememberedBut(z.c.runs, Act(h, z, l, action).slot.c.runs, NOBODY)
  {
    match action
    case Gate(w, call) => GateRemembers(h, z, l, w, call);
    case ExtensionGate(w, call) => ExtensionRemembers(z, l, w, call);
    case _ =>
  }

  lemma GateRemembers(h: Hyps, z: Slot, l: Ledger, w: Worker, call: Call)
    ensures ActGate(h, z, l, w, call).slot.c.runs == z.c.runs
  {
  }

  lemma ExtensionRemembers(z: Slot, l: Ledger, w: Worker, call: Call)
    ensures RememberedBut(z.c.runs, ActExtensionGate(z, l, w, call).slot.c.runs, NOBODY)
  {
    if z.c.item.Some? && z.c.attempt.Some? && CrashedRun(z.c.runs).Some? {
      ExtensionGateOpKeeps(z.c, l, w, call);
    }
  }

  lemma OthersRemember(h: Hyps, z: Slot, l: Ledger, action: Action)
    requires Scheduling(action) || Queueing(action) || action.CancelAttempt?
    ensures Act(h, z, l, action).slot.c.runs == z.c.runs
  {
  }

  lemma VerdictRemembers(c: Case, l: Ledger, r: nat, v: Verdict)
    requires VerifyOp(c, l, r, v).Done?
    ensures var c' := VerifyOp(c, l, r, v).c;
      && r < |c.runs| && |c'.runs| == |c.runs| && RememberedBut(c.runs, c'.runs, r)
      && (v.VerdictFailed? || Remembered(c.runs[r], c'.runs[r]))
      && (c.runs[r].submitInvoked ==> c'.runs[r].submitInvoked) && !c'.runs[r].status.Running?
  {
    assert Verifiable(c.runs[r].status);
  }

  lemma ConfirmRemembers(c: Case, l: Ledger, r: nat, submitted: bool)
    requires ConfirmOp(c, l, r, submitted).Done?
    ensures var c' := ConfirmOp(c, l, r, submitted).c;
      && r < |c.runs| && |c'.runs| == |c.runs| && RememberedBut(c.runs, c'.runs, r)
      && (!submitted || Remembered(c.runs[r], c'.runs[r]))
      && (c.runs[r].submitInvoked ==> c'.runs[r].submitInvoked) && !c'.runs[r].status.Running?
  {
    var v := if submitted then VerdictVerified else VerdictFailed;
    if submitted && c.runs[r].status.HandedOff? {
      var c1 := SetAttempt(SetRun(c, r, c.runs[r].(submitInvoked := true, status := RunSubmitted)),
                           c.attempt.value.(status := Status.Submitted));
      VerdictRemembers(c1, l, r, v);
    } else {
      VerdictRemembers(c, l, r, v);
    }
  }

  /** A report that owns up to the press. */
  lemma ReportRemembers(c: Case, l: Ledger, w: Worker, r: nat, res: Result, now: int)
    requires c.attempt.Some? && c.item.Some? && r < |c.runs| && (res.outcome.Submitted? || res.outcome.Unknown?)
    requires ReportOp(c, l, w, r, res, now).Done? && !c.runs[r].verification.VerdictFailed?
    ensures var c' := ReportOp(c, l, w, r, res, now).c;
      && |c'.runs| == |c.runs| && (c.runs[r].submitInvoked ==> c'.runs[r].submitInvoked)
      && (c'.runs[r].verification.VerdictFailed? ==> DenialIn(res))
  {
  }

  // -------------------------------------------------------------- the condition

  /** Every run on which submit may have been pressed was denied. */
  predicate AllDenied(runs: seq<Run>) {
    forall i :: 0 <= i < |runs| && runs[i].submitInvoked ==> runs[i].verification.VerdictFailed?
  }

  ghost predicate RetriesGuarded(h: Hyps, steps: seq<Label>) {
    forall n :: 0 <= n < |steps| && steps[n].action.Retry? ==>
      AllDenied(At(After(h, steps[..n]), steps[n].opp).c.runs)
  }

  // -------------------------------------------------------------- the invariant

  /** The run that pressed has it on record, and is marked as denied only if it was denied since. */
  ghost predicate Indebted(z: Slot) {
    var d := DebtOf(z.log);
    && (forall i :: IsRunning(z.c.runs, i) ==> z.c.runs[i].verification.NotAttempted?)
    && !d.Unpaid? && (d.Free? <==> OpennessOf(z.log).Clear?)
    && (d.Owes? ==> d.run < |z.c.runs| && z.c.runs[d.run].submitInvoked)
    && (d.Owes? && !d.denied ==> !z.c.runs[d.run].verification.VerdictFailed?)
    && (d.Owes? && d.denied ==> OpennessOf(z.log).Doubted?)
  }

  lemma QuietIndebted(z: Slot, z': Slot)
    requires Indebted(z) && RememberedBut(z.c.runs, z'.c.runs, NOBODY) && z'.log == z.log
    ensures Indebted(z')
  {
    forall i | IsRunning(z'.c.runs, i) ensures z'.c.runs[i].verification.NotAttempted? {
      assert i < |z.c.runs| ==> Remembered(z.c.runs[i], z'.c.runs[i]);
    }
    var d := DebtOf(z.log);
    assert d.Owes? ==> Remembered(z.c.runs[d.run], z'.c.runs[d.run]);
  }

  lemma PressIndebted(h: Hyps, z: Slot, l: Ledger, w: Worker)
    requires Good(z) && Honest(h) && Indebted(z)
    ensures Indebted(ActPress(h, z, l, w).slot)
  {
    if MayAct(h, z, w) && z.sessions[w].phase.Granted? {
      ActorIsTop(h, z, w);
      ExtendDebt(z.log, Press(z.sessions[w].run));
      Extend(z.log, Press(z.sessions[w].run));
      assert IsRunning(z.c.runs, z.sessions[w].run);
    }
  }

  /** A verdict or report on run `r`, which denies it or not. */
  lemma JudgedIndebted(z: Slot, z': Slot, r: nat, denied: bool)
    requires Indebted(z) && !OpennessOf(z.log).Broken?
    requires z'.log == if denied then z.log + [Denied(r)] else z.log
    requires |z'.c.runs| == |z.c.runs| && r < |z.c.runs| && RememberedBut(z.c.runs, z'.c.runs, r)
    requires !z'.c.runs[r].status.Running?
    requires DebtOf(z.log).Owes? && DebtOf(z.log).run == r && z.c.runs[r].submitInvoked ==> z'.c.runs[r].submitInvoked
    requires DebtOf(z.log) == Owes(r, false) && !denied ==> !z'.c.runs[r].verification.VerdictFailed?
    ensures Indebted(z')
  {
    ExtendDebt(z.log, Denied(r));
    Extend(z.log, Denied(r));
    forall i | IsRunning(z'.c.runs, i) ensures z'.c.runs[i].verification.NotAttempted? {
      assert i != r ==> Remembered(z.c.runs[i], z'.c.runs[i]);
    }
    var d := DebtOf(z.log);
    assert d.Owes? && d.run != r ==> Remembered(z.c.runs[d.run], z'.c.runs[d.run]);
  }

  lemma VerifyIndebted(h: Hyps, z: Slot, l: Ledger, r: nat, v: Verdict)
    requires Good(z) && Indebted(z)
    ensures Indebted(ActVerify(h, z, l, r, v).slot)
  {
    var z' := ActVerify(h, z, l, r, v).slot;
    if MayJudge(h, z) && VerifyOp(z.c, l, r, v).Done? {
      VerdictRemembers(z.c, l, r, v);
      JudgedIndebted(z, z', r, v.VerdictFailed?);
    }
  }

  lemma ConfirmIndebted(h: Hyps, z: Slot, l: Ledger, r: nat, submitted: bool)
    requires Good(z) && Indebted(z)
    ensures Indebted(ActConfirm(h, z, l, r, submitted).slot)
  {
    var z' := ActConfirm(h, z, l, r, submitted).slot;
    if MayJudge(h, z) && ConfirmOp(z.c, l, r, submitted).Done? {
      ConfirmRemembers(z.c, l, r, submitted);
      JudgedIndebted(z, z', r, !submitted);
    }
  }

  lemma ReportIndebted(h: Hyps, z: Slot, l: Ledger, w: Worker, res: Result, disowned: bool, now: int)
    requires Good(z) && Honest(h) && Indebted(z)
    ensures Indebted(ActReport(h, z, l, w, res, disowned, now).slot)
  {
    var z' := ActReport(h, z, l, w, res, disowned, now).slot;
    if z' != z {
      var r := z.sessions[w].run;
      var c0 := if disowned then Unmarked(z.c, r) else z.c;
      ActorIsTop(h, z, w);
      assert IsRunning(z.c.runs, r);
      ReportEffect(c0, l, w, r, res, now);
      assert z'.c.runs == z.c.runs[r := z'.c.runs[r]];
      if OpennessOf(z.log).Open? {
        ReportRemembers(c0, l, w, r, res, now);
      }
      JudgedIndebted(z, z', r, DenialIn(res));
    }
  }

  lemma RetryIndebted(z: Slot, l: Ledger, now: int)
    requires Good(z) && Indebted(z) && AllDenied(z.c.runs)
    ensures Indebted(OfReported(z, l, RetryOp(z.c, l, now), z.log + [Retried]).slot)
  {
    if RetryOp(z.c, l, now).Done? {
      RetryEffect(z.c, l, now);
      ExtendDebt(z.log, Retried);
      Extend(z.log, Retried);
    }
  }

  lemma ActIndebted(h: Hyps, z: Slot, l: Ledger, action: Action)
    requires Good(z) && Honest(h) && Indebted(z) && (action.Retry? ==> AllDenied(z.c.runs))
    ensures Indebted(Act(h, z, l, action).slot)
  {
    if action.PressSubmit? {
      PressIndebted(h, z, l, action.w);
    } else if action.ReportResult? {
      ReportIndebted(h, z, l, action.w, action.res, action.disowned, action.now);
    } else if Judging(action) {
      JudgingIndebted(h, z, l, action);
    } else if action.Retry? {
      RetryIndebted(z, l, action.now);
    } else {
      SilentIndebted(h, z, l, action);
    }
  }

  lemma JudgingIndebted(h: Hyps, z: Slot, l: Ledger, action: Action)
    requires Good(z) && Indebted(z) && Judging(action)
    ensures Indebted(Act(h, z, l, action).slot)
  {
    match action
    case Verify(r, v) => VerifyIndebted(h, z, l, r, v);
    case Confirm(r, submitted) => ConfirmIndebted(h, z, l, r, submitted);
  }

  lemma SilentIndebted(h: Hyps, z: Slot, l: Ledger, action: Action)
    requires Good(z) && Honest(h) && Indebted(z)
    requires !action.PressSubmit? && !action.ReportResult? && !Judging(action) && !action.Retry?
    ensures Indebted(Act(h, z, l, action).slot)
  {
    SilentStep(h, z, l, action);
    if Starting(action) {
      StartingRemembers(h, z, l, action);
    } else if InRun(action) || action.ExtensionGate? || action.Crash? {
      GatesRemember(h, z, l, action);
    } else if action.ForeignReport? {
      assert Act(h, z, l, action).slot == z;
    } else {
      OthersRemember(h, z, l, action);
    }
    QuietIndebted(z, Act(h, z, l, action).slot);
  }

  ghost predicate AllIndebted(s: State) {
    forall o :: o in s.slots ==> Indebted(s.slots[o])
  }

  lemma {:induction false} AlwaysIndebted(h: Hyps, steps: seq<Label>)
    requires Honest(h) && RetriesGuarded(h, steps)
    ensures AllIndebted(After(h, steps))
  {
    if steps != [] {
      var init, last := steps[..|steps| - 1], steps[|steps| - 1];
      forall m | 0 <= m < |init| && init[m].action.Retry?
        ensures AllDenied(At(After(h, init[..m]), init[m].opp).c.runs)
      {
        assert init[..m] == steps[..m];
      }
      AlwaysIndebted(h, init);
      AlwaysGood(h, init);
      StepIndebted(h, After(h, init), last);
    }
  }

  lemma StepIndebted(h: Hyps, s: State, step: Label)
    requires Honest(h) && AllIndebted(s) && AllGood(s)
    requires step.action.Retry? ==> AllDenied(At(s, step.opp).c.runs)
    ensures AllIndebted(Next(h, s, step))
  {
    assert Good(EmptySlot) && Indebted(EmptySlot);
    ActIndebted(h, At(s, step.opp), s.ledger, step.action);
  }

  /** THE GUARD. In every interleaving in which a retry is accepted only once every run with `submit_invoked` on
      record was denied, two presses of one attempt are separated by a FAILED verdict on the very run that
      pressed first, and then a person's retry, whichever runs are denied besides. */
  lemma GuardedRetrySuffices(h: Hyps, steps: seq<Label>, o: Opp, i: nat, j: nat)
    requires Honest(h) && RetriesGuarded(h, steps)
    requires var log := At(After(h, steps), o).log; i < j < |log| && log[i].Press? && log[j].Press?
    ensures var log := At(After(h, steps), o).log; OwnDenialThenRetry(log, log[i].run, i, j)
  {
    AlwaysIndebted(h, steps);
    PaidMeansOwnDenial(At(After(h, steps), o).log, i, j);
  }
}
