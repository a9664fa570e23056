/** Whose denial separates two presses. The verdict may concern another run of the attempt; it concerns the
    very run that pressed if every denial is about the latest execution, which its caller can see. */
module PressedRun {
  import opened Base
  import opened Lifecycle
  import opened WorkQueue
  import opened Caps
  import opened Preconditions
  import opened Execution
  import opened Protocol
  import opened Coupling
  import opened Recovery
  import opened AtMostOnce

  // -------------------------------------------------------------- the history

  /** Like `Openness`, but it remembers which run pressed, and a denial of another run loses it. */
  datatype Trail = Idle | OpenOn(run: nat) | DoubtedOn(run: nat) | Lost

  function FollowRun(t: Trail, e: Event): Trail {
    match e
    case Press(r) => if t.Idle? then OpenOn(r) else Lost
    case Denied(q) => if t.OpenOn? then (if q == t.run then DoubtedOn(q) else Lost) else t
    case Retried => if t.DoubtedOn? then Idle else t
  }

  function TrailOf(log: seq<Event>): Trail {
    if log == [] then Idle else FollowRun(TrailOf(log[..|log| - 1]), log[|log| - 1])
  }

  /** Between positions `i` and `j` run `r` is denied, and then a person retries. */
  ghost predicate OwnDenialThenRetry(log: seq<Event>, r: nat, i: int, j: int) {
    exists k, m :: i < k < m < j && j <= |log| && 0 <= i && log[k] == Denied(r) && log[m].Retried?
  }

  lemma {:induction false} SinceOwnPress(log: seq<Event>, i: nat)
    requires i < |log| && log[i].Press? && !TrailOf(log).Lost?
    ensures || OwnDenialThenRetry(log, log[i].run, i, |log|)
            || TrailOf(log) == OpenOn(log[i].run)
            || (TrailOf(log) == DoubtedOn(log[i].run) && exists k :: i < k < |log| && log[k] == Denied(log[i].run))
  {
    var n := |log| - 1;
    var before := log[..n];
    var r := log[i].run;
    if i < n {
      SinceOwnPress(before, i);
      if OwnDenialThenRetry(before, r, i, n) {
        var k, m :| i < k < m < n && before[k] == Denied(r) && before[m].Retried?;
        assert log[k] == Denied(r) && log[m].Retried?;
      } else if TrailOf(before) == OpenOn(r) {
        assert log[n].Denied? && TrailOf(log).DoubtedOn? ==> log[n] == Denied(r);
      } else {
        var k :| i < k < n && before[k] == Denied(r);
        assert log[k] == Denied(r);
      }
    }
  }

  lemma {:induction false} KeptPrefix(log: seq<Event>, j: nat)
    requires j <= |log| && !TrailOf(log).Lost?
    ensures !TrailOf(log[..j]).Lost?
  {
    if j < |log| {
      KeptPrefix(log[..|log| - 1], j);
      assert log[..|log| - 1][..j] == log[..j];
    } else {
      assert log[..j] == log;
    }
  }

  lemma KeptMeansOwnDenial(log: seq<Event>, i: nat, j: nat)
    requires !TrailOf(log).Lost? && i < j < |log| && log[i].Press? && log[j].Press?
    ensures OwnDenialThenRetry(log, log[i].run, i, j)
  {
    KeptPrefix(log, j + 1);
    assert log[..j + 1][..j] == log[..j] && log[..j + 1][j] == log[j];
    SinceOwnPress(log[..j], i);
    var k, m :| i < k < m < j && log[..j][k] == Denied(log[i].run) && log[..j][m].Retried?;
    assert log[k] == Denied(log[i].run) && log[m].Retried?;
  }

  lemma ExtendTrail(log: seq<Event>, e: Event)
    ensures TrailOf(log + [e]) == FollowRun(TrailOf(log), e)
    ensures OpennessOf(log + [e]) == Follow(OpennessOf(log), e)
  {
    assert (log + [e])[..|log|] == log;
  }

  // -------------------------------------------------------- runs keep their name

  /** A run written down for failed preconditions never executed anything. */
  predicate Dead(s: RunStatus) {
    s.PreconditionFailed? || s.Stale?
  }

  predicate SameExecution(x: Run, y: Run) {
    x.key.SubmitKey? && y.key.SubmitKey? && x.number == y.number
  }

  /** Executed runs are told apart by their number, and the others are dead. */
  ghost predicate Named(runs: seq<Run>) {
    && (forall i, j :: 0 <= i < |runs| && 0 <= j < |runs| && SameExecution(runs[i], runs[j]) ==> i == j)
    && (forall i :: 0 <= i < |runs| && runs[i].key.PreKey? ==> Dead(runs[i].status))
  }

  /** The same executed runs under the same execution count; dead ones may be appended. */
  ghost predicate SameRuns(c: Case, c': Case) {
    && |c.runs| <= |c'.runs|
    && (forall i :: 0 <= i < |c.runs| ==> c'.runs[i].key == c.runs[i].key && c'.runs[i].number == c.runs[i].number)
    && (forall i :: 0 <= i < |c.runs| && c.runs[i].key.PreKey? ==> c'.runs[i].status == c.runs[i].status)
    && (forall i :: |c.runs| <= i < |c'.runs| ==> c'.runs[i].key.PreKey? && Dead(c'.runs[i].status))
    && (c.attempt.Some? ==> c'.attempt.Some? && c'.attempt.value.executions == c.attempt.value.executions)
  }

  /** One more execution, under way. */
  ghost predicate OneMore(c: Case, c': Case) {
    && c.attempt.Some? && c'.attempt.Some? && c'.attempt.value.status == Submitting
    && |c'.runs| == |c.runs| + 1 && SameNames(c.runs, c'.runs)
    && c'.runs[|c.runs|].key.SubmitKey? && c'.runs[|c.runs|].status.Running? && !c'.runs[|c.runs|].submitInvoked
    && c'.runs[|c.runs|].number == c.attempt.value.executions + 1 == c'.attempt.value.executions
  }

  predicate SameNames(runs: seq<Run>, runs': seq<Run>)
    requires |runs| <= |runs'|
  {
    forall i :: 0 <= i < |runs| ==>
      && runs'[i].key == runs[i].key && runs'[i].number == runs[i].number
      && (runs[i].key.PreKey? ==> runs'[i].status == runs[i].status)
  }

  lemma SameRunsTrans(x: Case, y: Case, z: Case)
    requires SameRuns(x, y) && SameRuns(y, z) && |x.runs| == |y.runs|
    ensures SameRuns(x, z)
  {
  }

  lemma RecoverRunNames(c: Case, r: nat, now: int)
    requires r < |c.runs| && Named(c.runs)
    ensures var c' := RecoverRun(c, r, now); SameRuns(c, c') && |c'.runs| == |c.runs| && Named(c'.runs)
  {
    assert c.runs[r].status.Running? ==> !c.runs[r].key.PreKey?;
  }

  lemma {:induction false} RecoverNames(c: Case, from: nat, now: int)
    requires from <= |c.runs| && Named(c.runs)
    ensures SameRuns(c, RecoverFrom(c, from, now))
    decreases |c.runs| - from
  {
    if from < |c.runs| {
      var c', next := RecoverRun(c, from, now), from + 1;
      RecoverRunNames(c, from, now);
      RecoverNames(c', next, now);
      SameRunsTrans(c, c', RecoverFrom(c', next, now));
    }
  }

  lemma VerdictNames(c: Case, l: Ledger, r: nat, v: Verdict)
    requires Named(c.runs) && VerifyOp(c, l, r, v).Done?
    ensures SameRuns(c, VerifyOp(c, l, r, v).c)
    ensures c.attempt.Some? && r < |c.runs| && c.runs[r].key.SubmitKey?
  {
    assert Verifiable(c.runs[r].status);
  }

  lemma ConfirmNames(c: Case, l: Ledger, r: nat, submitted: bool)
    requires Named(c.runs) && ConfirmOp(c, l, r, submitted).Done?
    ensures SameRuns(c, ConfirmOp(c, l, r, submitted).c)
    ensures c.attempt.Some? && r < |c.runs| && c.runs[r].key.SubmitKey?
  {
    var v := if submitted then VerdictVerified else VerdictFailed;
    if submitted && c.runs[r].status.HandedOff? {
      var c1 := SetAttempt(SetRun(c, r, c.runs[r].(submitInvoked := true, status := RunSubmitted)),
                           c.attempt.value.(status := Status.Submitted));
      assert SameRuns(c, c1) && Named(c1.runs);
      VerdictNames(c1, l, r, v);
    } else {
      VerdictNames(c, l, r, v);
    }
  }

  lemma ReportNames(c: Case, l: Ledger, w: Worker, r: nat, res: Result, now: int)
    requires c.attempt.Some? && c.item.Some? && r < |c.runs| && c.runs[r].key.SubmitKey?
    requires ReportOp(c, l, w, r, res, now).Done?
    ensures SameRuns(c, ReportOp(c, l, w, r, res, now).c)
  {
    ReportEffect(c, l, w, r, res, now);
    ReportKey(c, l, w, r, res, now);
  }

  lemma ReportKey(c: Case, l: Ledger, w: Worker, r: nat, res: Result, now: int)
    requires c.attempt.Some? && c.item.Some? && r < |c.runs| && ReportOp(c, l, w, r, res, now).Done?
    ensures |ReportOp(c, l, w, r, res, now).c.runs| == |c.runs|
    ensures ReportOp(c, l, w, r, res, now).c.runs[r].key == c.runs[r].key
  {
    match res.outcome
    case Submitted =>
    case DryRun =>
    case Unknown =>
    case RetryableFailure =>
    case PermanentFailure =>
    case Handoff =>
    case NeedsReview =>
    case NeedsUserInput =>
    case FormChanged =>
  }

  lemma SettledNames(c: Case, l: Ledger, w: Worker, call: Call, codes: seq<Code>)
    requires c.attempt.Some? && c.item.Some?
    ensures SameRuns(c, SettlePreconditions(c, l, w, call, codes).0)
  {
  }

  /** From READY the runs stay, or the next execution opens. */
  lemma StartReadyNames(orig: Case, c: Case, l: Ledger, w: Worker, call: Call, kit: Kit)
    requires orig.item.Some? && c.item.Some? && c.attempt.Some? && orig.attempt.Some?
    requires |orig.runs| == |c.runs| && SameRuns(orig, c)
    ensures var step := StartReady(orig, c, l, w, call, kit); SameRuns(orig, step.c) || OneMore(orig, step.c)
  {
    EvaluateKeeps(call.facts, c.attempt.value, l, call.policy, call.keys, false);
    var report := Evaluate(call.facts, c.attempt.value, l, call.policy, call.keys, true, false);
    SettledNames(SetAttempt(c, report.attempt), report.ledger, w, call, report.failures);
  }

  lemma StartNames(c: Case, l: Ledger, w: Worker, call: Call, kit: Kit)
    requires c.item.Some? && Named(c.runs)
    ensures var step := StartOp(c, l, w, call, kit); SameRuns(c, step.c) || OneMore(c, step.c)
  {
    if HeldBy(c.item.value, w) && c.attempt.Some? {
      var c1 := SetItem(c, c.item.value.(state := Processing));
      if c.attempt.value.status == Submitting {
        ReclaimNames(c1);
        if Reclaim(c1).attempt.value.status == Ready {
          StartReadyNames(c, Reclaim(c1), l, w, call, kit);
        }
      } else if c.attempt.value.status == Ready {
        StartReadyNames(c, c1, l, w, call, kit);
      }
    }
  }

  lemma ReclaimNames(c: Case)
    requires c.attempt.Some? && Named(c.runs)
    ensures SameRuns(c, Reclaim(c)) && |Reclaim(c).runs| == |c.runs| && Reclaim(c).item == c.item
  {
    var crashed := CrashedRun(c.runs);
    assert crashed.Some? ==> c.runs[crashed.value].status.Running?;
  }

  lemma GateNames(c: Case, l: Ledger, w: Worker, call: Call)
    ensures SameRuns(c, GateOp(c, l, call).c)
    ensures c.item.Some? ==> SameRuns(c, ExtensionGateOp(c, l, w, call).c)
  {
    if c.attempt.Some? {
      EvaluateKeeps(call.facts, c.attempt.value, l, call.policy, call.keys, true);
    }
  }

  lemma RetryNames(c: Case, l: Ledger, now: int)
    requires RetryOp(c, l, now).Done?
    ensures SameRuns(c, RetryOp(c, l, now).c)
  {
  }

  lemma CancelNames(c: Case, l: Ledger)
    requires CancelOp(c, l).Done?
    ensures SameRuns(c, CancelOp(c, l).c)
  {
  }

  lemma PlainNames(h: Hyps, z: Slot, l: Ledger, action: Action)
    requires Good(z) && (Scheduling(action) || Queueing(action))
    ensures SameRuns(z.c, Act(h, z, l, action).slot.c)
  {
  }

  lemma ActStartStaleNames(z: Slot, l: Ledger, w: Worker)
    requires Named(z.c.runs)
    ensures var c' := ActStartStale(z, l, w).slot.c; SameRuns(z.c, c') || OneMore(z.c, c')
  {
  }

  lemma StartingNames(h: Hyps, z: Slot, l: Ledger, action: Action)
    requires Named(z.c.runs) && Starting(action)
    ensures var c' := Act(h, z, l, action).slot.c; SameRuns(z.c, c') || OneMore(z.c, c')
  {
    match action
    case Start(w, call, kit) => if z.c.item.Some? { StartNames(z.c, l, w, call, kit); }
    case StartStale(w) => ActStartStaleNames(z, l, w);
    case Recover(now) => RecoverNames(z.c, 0, now);
  }

  lemma InRunNames(h: Hyps, z: Slot, l: Ledger, action: Action)
    requires InRun(action)
    ensures SameRuns(z.c, Act(h, z, l, action).slot.c)
  {
    match action
    case Gate(w, call) => GateNames(z.c, l, 0, call);
    case _ =>
  }

  lemma JoiningNames(h: Hyps, z: Slot, l: Ledger, action: Action)
    requires Good(z) && Honest(h) && Named(z.c.runs) && Joining(action)
    ensures SameRuns(z.c, Act(h, z, l, action).slot.c)
  {
    match action
    case ExtensionGate(w, call) => GateNames(z.c, l, w, call);
    case ReportResult(w, res, disowned, now) => ActReportNames(h, z, l, w, res, disowned, now);
    case ForeignReport(w, res, now) => assert Act(h, z, l, action).slot == z;
    case Crash(w) =>
  }

  lemma ActNames(h: Hyps, z: Slot, l: Ledger, action: Action)
    requires Good(z) && Honest(h) && Named(z.c.runs) && !Judging(action)
    ensures var c' := Act(h, z, l, action).slot.c; SameRuns(z.c, c') || OneMore(z.c, c')
  {
    if Starting(action) {
      StartingNames(h, z, l, action);
    } else if InRun(action) {
      InRunNames(h, z, l, action);
    } else if Joining(action) {
      JoiningNames(h, z, l, action);
    } else if action.Retry? {
      if RetryOp(z.c, l, action.now).Done? { RetryNames(z.c, l, action.now); }
    } else if action.CancelAttempt? {
      if CancelOp(z.c, l).Done? { CancelNames(z.c, l); }
    } else {
      PlainNames(h, z, l, action);
    }
  }

  lemma ActReportNames(h: Hyps, z: Slot, l: Ledger, w: Worker, res: Result, disowned: bool, now: int)
    requires Good(z) && Honest(h) && Named(z.c.runs)
    ensures SameRuns(z.c, ActReport(h, z, l, w, res, disowned, now).slot.c)
  {
    if MayAct(h, z, w) {
      var r := z.sessions[w].run;
      ActorIsTop(h, z, w);
      var c0 := if disowned then Unmarked(z.c, r) else z.c;
      if ReportOp(c0, l, w, r, res, now).Done? {
        ReportNames(c0, l, w, r, res, now);
      }
    }
  }

  lemma NamesKept(z: Slot, c': Case)
    requires Numbered(z.c) && Named(z.c.runs) && (SameRuns(z.c, c') || OneMore(z.c, c'))
    ensures Named(c'.runs)
  {
  }

  // -------------------------------------------------------------- the condition

  /** The run belongs to the attempt's latest execution: a caller can look before it judges. */
  predicate OfLatestExecution(c: Case, r: nat) {
    c.attempt.Some? && r < |c.runs| ==> c.runs[r].number == c.attempt.value.executions
  }

  /** A denial, by a verifier or by the candidate, is about the latest execution. */
  predicate DeniesLatest(z: Slot, action: Action) {
    match action
    case Verify(r, v) => v.VerdictFailed? ==> OfLatestExecution(z.c, r)
    case Confirm(r, submitted) => !submitted ==> OfLatestExecution(z.c, r)
    case _ => true
  }

  ghost predicate DenialsConcernLatest(h: Hyps, steps: seq<Label>) {
    forall n :: 0 <= n < |steps| ==> DeniesLatest(At(After(h, steps[..n]), steps[n].opp), steps[n].action)
  }

  // -------------------------------------------------------------- the invariant

  predicate SameStage(t: Trail, o: Openness) {
    (t.Idle? <==> o.Clear?) && (t.OpenOn? <==> o.Open?) && (t.DoubtedOn? <==> o.Doubted?) && !t.Lost?
  }

  /** The trail follows the openness, and the run it remembers is the latest execution. */
  ghost predicate Tracked(z: Slot) {
    var t := TrailOf(z.log);
    && Named(z.c.runs) && SameStage(t, OpennessOf(z.log))
    && (t.OpenOn? || t.DoubtedOn? ==>
          && z.c.attempt.Some? && t.run < |z.c.runs| && z.c.runs[t.run].key.SubmitKey?
          && z.c.runs[t.run].number == z.c.attempt.value.executions)
  }

  /** Nothing is added to the history. */
  lemma SilentTracked(z: Slot, z': Slot)
    requires Good(z) && Good(z') && Tracked(z) && z'.log == z.log && (SameRuns(z.c, z'.c) || OneMore(z.c, z'.c))
    ensures Tracked(z')
  {
    NamesKept(z, z'.c);
    if !SameRuns(z.c, z'.c) {
      assert Top(z'.c, |z.c.runs|);
      assert OpennessOf(z.log).Clear?;
    }
  }

  lemma RetriedTracked(z: Slot, z': Slot)
    requires Good(z) && Tracked(z) && z'.log == z.log + [Retried] && SameRuns(z.c, z'.c)
    ensures Tracked(z')
  {
    NamesKept(z, z'.c);
    ExtendTrail(z.log, Retried);
  }

  /** A denial of a run of the latest execution that was really executed. */
  lemma DeniedTracked(z: Slot, z': Slot, q: nat)
    requires Good(z) && Tracked(z) && z'.log == z.log + [Denied(q)] && SameRuns(z.c, z'.c)
    requires z.c.attempt.Some? && q < |z.c.runs| && z.c.runs[q].key.SubmitKey?
    requires z.c.runs[q].number == z.c.attempt.value.executions
    ensures Tracked(z')
  {
    NamesKept(z, z'.c);
    ExtendTrail(z.log, Denied(q));
  }

  /** A verdict that was accepted. */
  lemma JudgedTracked(z: Slot, z': Slot, r: nat, denied: bool)
    requires Good(z) && Good(z') && Tracked(z) && SameRuns(z.c, z'.c)
    requires z'.log == if denied then z.log + [Denied(r)] else z.log
    requires z.c.attempt.Some? && r < |z.c.runs| && z.c.runs[r].key.SubmitKey?
    requires denied ==> OfLatestExecution(z.c, r)
    ensures Tracked(z')
  {
    if denied {
      DeniedTracked(z, z', r);
    } else {
      SilentTracked(z, z');
    }
  }

  lemma PressTracked(h: Hyps, z: Slot, l: Ledger, w: Worker)
    requires Good(z) && Honest(h) && Tracked(z)
    ensures Tracked(ActPress(h, z, l, w).slot)
  {
    if MayAct(h, z, w) && z.sessions[w].phase.Granted? {
      ActorIsTop(h, z, w);
      OpensTracked(z, ActPress(h, z, l, w).slot, z.sessions[w].run);
    }
  }

  lemma OpensTracked(z: Slot, z': Slot, r: nat)
    requires Tracked(z) && Top(z.c, r) && z'.c == z.c && z'.log == z.log + [Press(r)] && OpennessOf(z.log).Clear?
    ensures Tracked(z')
  {
    ExtendTrail(z.log, Press(r));
  }

  lemma ReportTracked(h: Hyps, z: Slot, l: Ledger, w: Worker, res: Result, disowned: bool, now: int)
    requires Good(z) && Honest(h) && Tracked(z)
    ensures Tracked(ActReport(h, z, l, w, res, disowned, now).slot)
  {
    var z' := ActReport(h, z, l, w, res, disowned, now).slot;
    if z' != z {
      ActReportNames(h, z, l, w, res, disowned, now);
      ReportGood(h, z, l, w, res, disowned, now);
      ActorIsTop(h, z, w);
      JudgedTracked(z, z', z.sessions[w].run, DenialIn(res));
    }
  }

  lemma VerifyTracked(h: Hyps, z: Slot, l: Ledger, r: nat, v: Verdict)
    requires Good(z) && Honest(h) && Tracked(z) && (v.VerdictFailed? ==> OfLatestExecution(z.c, r))
    ensures Tracked(ActVerify(h, z, l, r, v).slot)
  {
    var z' := ActVerify(h, z, l, r, v).slot;
    if z' != z {
      VerifyGood(h, z, l, r, v);
      VerdictNames(z.c, l, r, v);
      JudgedTracked(z, z', r, v.VerdictFailed?);
    }
  }

  lemma ConfirmTracked(h: Hyps, z: Slot, l: Ledger, r: nat, submitted: bool)
    requires Good(z) && Honest(h) && Tracked(z) && (!submitted ==> OfLatestExecution(z.c, r))
    ensures Tracked(ActConfirm(h, z, l, r, submitted).slot)
  {
    var z' := ActConfirm(h, z, l, r, submitted).slot;
    if z' != z {
      ConfirmGood(h, z, l, r, submitted);
      ConfirmNames(z.c, l, r, submitted);
      JudgedTracked(z, z', r, !submitted);
    }
  }

  lemma RetryTracked(z: Slot, l: Ledger, now: int)
    requires Good(z) && Tracked(z)
    ensures Tracked(OfReported(z, l, RetryOp(z.c, l, now), z.log + [Retried]).slot)
  {
    if RetryOp(z.c, l, now).Done? {
      RetryEffect(z.c, l, now);
      RetriedTracked(z, OfReported(z, l, RetryOp(z.c, l, now), z.log + [Retried]).slot);
    }
  }

  lemma ActTracked(h: Hyps, z: Slot, l: Ledger, action: Action)
    requires Good(z) && Honest(h) && Tracked(z) && DeniesLatest(z, action)
    ensures Tracked(Act(h, z, l, action).slot)
  {
    if action.PressSubmit? {
      PressTracked(h, z, l, action.w);
    } else if action.ReportResult? {
      ReportTracked(h, z, l, action.w, action.res, action.disowned, action.now);
    } else if Judging(action) {
      JudgingTracked(h, z, l, action);
    } else if action.Retry? {
      RetryTracked(z, l, action.now);
    } else {
      OtherTracked(h, z, l, action);
    }
  }

  lemma JudgingTracked(h: Hyps, z: Slot, l: Ledger, action: Action)
    requires Good(z) && Honest(h) && Tracked(z) && DeniesLatest(z, action) && Judging(action)
    ensures Tracked(Act(h, z, l, action).slot)
  {
    match action
    case Verify(r, v) => VerifyTracked(h, z, l, r, v);
    case Confirm(r, submitted) => ConfirmTracked(h, z, l, r, submitted);
  }

  lemma OtherTracked(h: Hyps, z: Slot, l: Ledger, action: Action)
    requires Good(z) && Honest(h) && Tracked(z)
    requires !action.PressSubmit? && !action.ReportResult? && !Judging(action) && !action.Retry?
    ensures Tracked(Act(h, z, l, action).slot)
  {
    ActGood(h, z, l, action);
    ActNames(h, z, l, action);
    SilentStep(h, z, l, action);
    SilentTracked(z, Act(h, z, l, action).slot);
  }

  lemma SilentStep(h: Hyps, z: Slot, l: Ledger, action: Action)
    requires h.claimHolders
    requires !action.PressSubmit? && !action.ReportResult? && !Judging(action) && !action.Retry?
    ensures Act(h, z, l, action).slot.log == z.log
  {
  }

  ghost predicate AllTracked(s: State) {
    forall o :: o in s.slots ==> Tracked(s.slots[o])
  }

  lemma {:induction false} AlwaysTracked(h: Hyps, steps: seq<Label>)
    requires Honest(h) && DenialsConcernLatest(h, steps)
    ensures AllTracked(After(h, steps))
  {
    if steps != [] {
      var n := |steps| - 1;
      forall m | 0 <= m < n ensures DeniesLatest(At(After(h, steps[..n][..m]), steps[..n][m].opp),
                                                 steps[..n][m].action) {
        assert steps[..n][..m] == steps[..m];
      }
      AlwaysTracked(h, steps[..n]);
      AlwaysGood(h, steps[..n]);
      StepTracked(h, After(h, steps[..n]), steps[n]);
    }
  }

  lemma StepTracked(h: Hyps, s: State, step: Label)
    requires Honest(h) && AllTracked(s) && AllGood(s) && DeniesLatest(At(s, step.opp), step.action)
    ensures AllTracked(Next(h, s, step))
  {
    assert Good(EmptySlot) && Tracked(EmptySlot);
    ActTracked(h, At(s, step.opp), s.ledger, step.action);
  }

  /** THE DENIAL CONCERNS THE PRESS. In every interleaving in which denials are about the latest execution,
      two presses of one attempt are separated by a FAILED verdict on the very run that pressed first, and
      then a person's retry. `Necessity.DenialOfAnotherRun` and `Necessity.LikelyThenRetried` show that the
      condition cannot be dropped; `RetryGuard` has one on retries in its place. */
  lemma DenialConcernsThePress(h: Hyps, steps: seq<Label>, o: Opp, i: nat, j: nat)
    requires Honest(h) && DenialsConcernLatest(h, steps)
    requires var log := At(After(h, steps), o).log; i < j < |log| && log[i].Press? && log[j].Press?
    ensures var log := At(After(h, steps), o).log; OwnDenialThenRetry(log, log[i].run, i, j)
  {
    AlwaysTracked(h, steps);
    KeptMeansOwnDenial(At(After(h, steps), o).log, i, j);
  }
}
