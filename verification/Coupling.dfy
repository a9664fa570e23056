/** Attempt and run stay coupled in every run of the protocol in which workers act only under their claim (H2)
    and no verdict lands on a SUBMITTING attempt (H3); whether executors report honestly (H1) does not matter. */
module Coupling {
  import opened Base
  import opened Lifecycle
  import opened WorkQueue
  import opened Caps
  import opened Preconditions
  import opened Execution
  import opened Protocol

  // ------------------------------------------------------------ small facts

  ghost predicate Idle(runs: seq<Run>) {
    forall i :: !IsRunning(runs, i)
  }

  /** The runs keep who runs, under which key, for which worker. */
  ghost predicate SameRunning(runs: seq<Run>, runs': seq<Run>) {
    && |runs'| == |runs|
    && forall i :: 0 <= i < |runs| ==>
         && (runs'[i].status.Running? <==> runs[i].status.Running?)
         && runs'[i].key == runs[i].key && runs'[i].worker == runs[i].worker
  }

  lemma SameRunningAt(runs: seq<Run>, runs': seq<Run>)
    requires SameRunning(runs, runs')
    ensures forall i :: IsRunning(runs', i) <==> IsRunning(runs, i)
  {
  }

  /** Closing the only running run leaves none. */
  lemma Closing(c: Case, r: nat, x: Run)
    requires Coupled(c) && IsRunning(c.runs, r) && !x.status.Running?
    ensures Idle(c.runs[r := x])
  {
    var after := c.runs[r := x];
    forall i ensures !IsRunning(after, i) {
      assert i != r ==> IsRunning(after, i) == IsRunning(c.runs, i);
    }
  }

  lemma Appending(runs: seq<Run>, x: Run)
    ensures forall i :: IsRunning(runs + [x], i) <==> IsRunning(runs, i) || (i == |runs| && x.status.Running?)
  {
  }

  /** No session belongs to the latest claim. */
  ghost predicate Unheld(z: Slot) {
    forall w :: w in z.sessions ==> z.sessions[w].claim < z.claims
  }

  lemma IdleUnheld(z: Slot)
    requires SessionsSound(z) && Idle(z.c.runs) && z.c.item.Some? && InHand(z.c.item.value)
    ensures Unheld(z)
  {
    forall w | w in z.sessions ensures z.sessions[w].claim < z.claims {
      assert !IsRunning(z.c.runs, z.sessions[w].run);
    }
  }

  // ------------------------------------------------------ two ways to move on

  /** No run is RUNNING any more, the attempt has left SUBMITTING and no worker still holds the item. */
  lemma Rests(z: Slot, z': Slot)
    requires SessionsSound(z)
    requires z'.sessions.Keys <= z.sessions.Keys && (forall w :: w in z'.sessions ==> z'.sessions[w] == z.sessions[w])
    requires z'.claims == z.claims && |z.c.runs| <= |z'.c.runs| && Idle(z'.c.runs)
    requires z'.c.attempt.Some?
    requires var s := z'.c.attempt.value.status;
      && s != Submitting && (s in {Qualified, Preparing, Ready} ==> z'.c.attempt.value.key.None?)
    requires z'.c.item.Some? && InHand(z'.c.item.value) ==> Unheld(z')
    ensures SlotCoupled(z')
  {
  }

  /** The same run goes on. */
  lemma GoesOn(z: Slot, z': Slot)
    requires SlotCoupled(z)
    requires SameRunning(z.c.runs, z'.c.runs)
    requires z'.c.attempt.Some? && z.c.attempt.Some?
    requires z'.c.attempt.value.status == z.c.attempt.value.status && z'.c.attempt.value.key == z.c.attempt.value.key
    requires z'.c.item == z.c.item && z'.claims == z.claims
    requires z'.sessions.Keys == z.sessions.Keys
    requires forall w :: w in z.sessions ==>
      z'.sessions[w].claim == z.sessions[w].claim && z'.sessions[w].run == z.sessions[w].run
    ensures SlotCoupled(z')
  {
    SameRunningAt(z.c.runs, z'.c.runs);
    if z'.c.attempt.value.status == Submitting {
      var i :| IsRunning(z.c.runs, i);
      assert IsRunning(z'.c.runs, i);
    }
  }

  // ----------------------------------------------------------- queue actions

  /** Only the item changed, and no worker gained it. */
  lemma ItemChange(z: Slot, it: Item)
    requires Coupled(z.c) && SessionsSound(z)
    requires !InHand(it) || (z.c.item.Some? && InHand(z.c.item.value) && it.state == z.c.item.value.state
                             && it.owner == z.c.item.value.owner)
    ensures SlotCoupled(z.(c := SetItem(z.c, it)))
  {
  }

  lemma ClaimKeeps(z: Slot, w: Worker, until: int)
    requires SlotCoupled(z) && z.c.item.Some?
    ensures SlotCoupled(z.(c := SetItem(z.c, Claim(z.c.item.value, w, until)), claims := z.claims + 1))
  {
  }

  // ---------------------------------------------------------------- recovery

  lemma RecoverRunKeeps(z: Slot, r: nat, now: int)
    requires SlotCoupled(z) && r < |z.c.runs|
    ensures SlotCoupled(z.(c := RecoverRun(z.c, r, now)))
  {
    if LostAt(z.c, r, now) {
      assert IsRunning(z.c.runs, r);
      var c' := RecoverRun(z.c, r, now);
      Closing(z.c, r, c'.runs[r]);
      Rests(z, z.(c := c'));
    }
  }

  lemma {:induction false} RecoverFromKeeps(z: Slot, from: nat, now: int)
    requires SlotCoupled(z) && from <= |z.c.runs|
    ensures SlotCoupled(z.(c := RecoverFrom(z.c, from, now)))
    decreases |z.c.runs| - from
  {
    if from < |z.c.runs| {
      RecoverRunKeeps(z, from, now);
      RecoverFromKeeps(z.(c := RecoverRun(z.c, from, now)), from + 1, now);
    }
  }

  // ------------------------------------------------- verdicts, human actions

  lemma NotSubmittingIdle(c: Case)
    requires Coupled(c) && c.attempt.Some? && c.attempt.value.status != Submitting
    ensures Idle(c.runs)
  {
  }

  /** What a verdict can do to records with no running run. */
  lemma VerdictShape(c: Case, l: Ledger, r: nat, v: Verdict)
    requires c.attempt.Some? && r < |c.runs| && Idle(c.runs)
    requires ApplyVerdict(c, l, r, v, true).Done?
    ensures var c' := ApplyVerdict(c, l, r, v, true).c;
      && |c'.runs| == |c.runs| && Idle(c'.runs) && c'.attempt.Some?
      && (c'.item == c.item || (c'.item.Some? && !InHand(c'.item.value)))
      && c'.attempt.value.key == c.attempt.value.key
      && c'.attempt.value.status ==
           (if v.VerdictVerified? then Verified
            else if v.VerdictFailed? then Status.NeedsReview
            else if v.VerdictLikely? && c.attempt.value.status == Uncertain then Status.Submitted
            else c.attempt.value.status)
  {
    assert !IsRunning(c.runs, r);
    var runs' := ApplyVerdict(c, l, r, v, true).c.runs;
    forall i ensures !IsRunning(runs', i) {
      assert i != r ==> IsRunning(runs', i) == IsRunning(c.runs, i);
    }
  }

  lemma VerdictKeeps(z: Slot, c: Case, l: Ledger, r: nat, v: Verdict)
    requires SlotCoupled(z) && z.c.attempt.Some? && z.c.attempt.value.status != Submitting
    requires c.item == z.c.item && |c.runs| == |z.c.runs| && Idle(c.runs) && r < |c.runs|
    requires c.attempt == z.c.attempt || (v.VerdictVerified? && c.attempt.Some?)
    requires ApplyVerdict(c, l, r, v, true).Done?
    ensures SlotCoupled(z.(c := ApplyVerdict(c, l, r, v, true).c,
                           log := if v.VerdictFailed? then z.log + [Denied(r)] else z.log))
  {
    var c' := ApplyVerdict(c, l, r, v, true).c;
    var z' := z.(c := c', log := if v.VerdictFailed? then z.log + [Denied(r)] else z.log);
    VerdictShape(c, l, r, v);
    NotSubmittingIdle(z.c);
    if c'.item.Some? && InHand(c'.item.value) {
      IdleUnheld(z);
    }
    Rests(z, z');
  }

  lemma VerifyKeeps(h: Hyps, z: Slot, l: Ledger, r: nat, v: Verdict)
    requires SlotCoupled(z) && h.claimHolders && h.quietVerdicts
    ensures SlotCoupled(ActVerify(h, z, l, r, v).slot)
  {
    if MayJudge(h, z) && VerifyOp(z.c, l, r, v).Done? {
      NotSubmittingIdle(z.c);
      VerdictKeeps(z, z.c, l, r, v);
    }
  }

  lemma ConfirmKeeps(h: Hyps, z: Slot, l: Ledger, r: nat, submitted: bool)
    requires SlotCoupled(z) && h.claimHolders && h.quietVerdicts
    ensures SlotCoupled(ActConfirm(h, z, l, r, submitted).slot)
  {
    if MayJudge(h, z) && ConfirmOp(z.c, l, r, submitted).Done? {
      NotSubmittingIdle(z.c);
      var v := if submitted then VerdictVerified else VerdictFailed;
      if submitted && z.c.runs[r].status.HandedOff? {
        var c := SetAttempt(SetRun(z.c, r, z.c.runs[r].(submitInvoked := true, status := RunSubmitted)),
                            z.c.attempt.value.(status := Status.Submitted));
        var runs' := c.runs;
        forall i ensures !IsRunning(runs', i) {
          assert i != r ==> IsRunning(runs', i) == IsRunning(z.c.runs, i);
        }
        VerdictKeeps(z, c, l, r, v);
      } else {
        VerdictKeeps(z, z.c, l, r, v);
      }
    }
  }

  lemma RetryKeeps(h: Hyps, z: Slot, l: Ledger, now: int)
    requires SlotCoupled(z) && h.claimHolders && h.quietVerdicts
    ensures SlotCoupled(OfReported(z, l, RetryOp(z.c, l, now), z.log + [Retried]).slot)
  {
    var rep := RetryOp(z.c, l, now);
    if rep.Done? {
      NotSubmittingIdle(z.c);
      if rep.c.item.Some? && InHand(rep.c.item.value) {
        IdleUnheld(z);
      }
      Rests(z, z.(c := rep.c, log := z.log + [Retried]));
    }
  }

  lemma CancelKeeps(h: Hyps, z: Slot, l: Ledger)
    requires SlotCoupled(z) && h.claimHolders && h.quietVerdicts
    ensures SlotCoupled(OfReported(z, l, CancelOp(z.c, l), z.log).slot)
  {
    var rep := CancelOp(z.c, l);
    if rep.Done? {
      NotSubmittingIdle(z.c);
      Rests(z, z.(c := rep.c));
    }
  }

  // ---------------------------------------------------------- worker's steps

  /** A worker that may act holds the item, so its run is the one RUNNING. */
  lemma ActingRunIsRunning(h: Hyps, z: Slot, w: Worker)
    requires SlotCoupled(z) && h.claimHolders && h.quietVerdicts && MayAct(h, z, w)
    ensures IsRunning(z.c.runs, z.sessions[w].run) && z.c.attempt.value.status == Submitting
    ensures forall i :: IsRunning(z.c.runs, i) ==> i == z.sessions[w].run
  {
    assert IsRunning(z.c.runs, z.sessions[w].run);
  }

  lemma ArmKeeps(h: Hyps, z: Slot, l: Ledger, w: Worker)
    requires SlotCoupled(z) && h.claimHolders && h.quietVerdicts
    ensures SlotCoupled(ActArm(h, z, l, w).slot)
  {
    if MayAct(h, z, w) && z.sessions[w].phase.Opened? {
      ActingRunIsRunning(h, z, w);
      GoesOn(z, ActArm(h, z, l, w).slot);
    }
  }

  lemma PressKeeps(h: Hyps, z: Slot, l: Ledger, w: Worker)
    requires SlotCoupled(z) && h.claimHolders && h.quietVerdicts
    ensures SlotCoupled(ActPress(h, z, l, w).slot)
  {
    if MayAct(h, z, w) && z.sessions[w].phase.Granted? {
      ActingRunIsRunning(h, z, w);
      GoesOn(z, ActPress(h, z, l, w).slot);
    }
  }

  lemma EvaluateKeeps(f: Facts, a: Attempt, l: Ledger, p: Policy, k: Keys, executing: bool)
    ensures var r := Evaluate(f, a, l, p, k, true, executing).attempt;
      r.status == a.status && r.key == a.key && r.number == a.number && r.executions == a.executions
  {
  }

  lemma GateOpKeeps(c: Case, l: Ledger, call: Call)
    requires c.attempt.Some?
    ensures var g := GateOp(c, l, call);
      && g.c.runs == c.runs && g.c.item == c.item && g.c.attempt.Some?
      && g.c.attempt.value.status == c.attempt.value.status && g.c.attempt.value.key == c.attempt.value.key
  {
    EvaluateKeeps(call.facts, c.attempt.value, l, call.policy, call.keys, true);
  }

  lemma GateKeeps(h: Hyps, z: Slot, l: Ledger, w: Worker, call: Call)
    requires SlotCoupled(z) && h.claimHolders && h.quietVerdicts
    ensures SlotCoupled(ActGate(h, z, l, w, call).slot)
  {
    if MayAct(h, z, w) && z.sessions[w].phase.Armed? {
      ActingRunIsRunning(h, z, w);
      GateOpKeeps(z.c, l, call);
      GoesOn(z, ActGate(h, z, l, w, call).slot);
    }
  }

  lemma ExtensionGateOpKeeps(c: Case, l: Ledger, w: Worker, call: Call)
    requires c.attempt.Some? && c.item.Some? && CrashedRun(c.runs).Some?
    ensures var g := ExtensionGateOp(c, l, w, call); var r := CrashedRun(c.runs).value;
      && g.c.item == c.item && g.c.attempt.Some?
      && g.c.attempt.value.status == c.attempt.value.status && g.c.attempt.value.key == c.attempt.value.key
      && g.c.runs == (if g.ok then c.runs[r := c.runs[r].(submitInvoked := true)] else c.runs)
      && (g.ok ==> !c.runs[r].submitInvoked && Owns(c.item.value, w))
  {
    GateOpKeeps(c, l, call);
  }

  lemma ExtensionGateKeeps(z: Slot, l: Ledger, w: Worker, call: Call)
    requires SlotCoupled(z)
    ensures SlotCoupled(ActExtensionGate(z, l, w, call).slot)
  {
    var running := CrashedRun(z.c.runs);
    if z.c.item.Some? && z.c.attempt.Some? && running.Some? {
      ExtensionGateOpKeeps(z.c, l, w, call);
      var g := ExtensionGateOp(z.c, l, w, call);
      var z1 := z.(c := g.c);
      MarkKeeps(z, g.c, running.value);
      if g.ok {
        LetThrough(z1, w, running.value);
        assert ActExtensionGate(z, l, w, call).slot
          == z1.(sessions := z1.sessions[w := Session(running.value, z1.claims, Granted)]);
      } else {
        assert ActExtensionGate(z, l, w, call).slot == z1;
      }
    }
  }

  /** A possible click goes on record; nobody moves. */
  lemma MarkKeeps(z: Slot, c: Case, r: nat)
    requires SlotCoupled(z) && z.c.attempt.Some? && c.attempt.Some? && c.item == z.c.item && r < |z.c.runs|
    requires c.attempt.value.status == z.c.attempt.value.status && c.attempt.value.key == z.c.attempt.value.key
    requires c.runs == z.c.runs || c.runs == Marked(z.c, r).runs
    ensures SlotCoupled(z.(c := c))
  {
    GoesOn(z, z.(c := c));
  }

  /** The owner gets a session on the running run. */
  lemma LetThrough(z: Slot, w: Worker, r: nat)
    requires SlotCoupled(z) && IsRunning(z.c.runs, r) && z.c.item.Some? && Owns(z.c.item.value, w)
    ensures SlotCoupled(z.(sessions := z.sessions[w := Session(r, z.claims, Granted)]))
  {
  }

  /** What a report leaves behind, whatever the records looked like. */
  ghost predicate Closes(c: Case, c': Case, r: nat) {
    && r < |c.runs| && |c'.runs| == |c.runs| && !c'.runs[r].status.Running? && c'.runs == c.runs[r := c'.runs[r]]
    && c'.item.Some? && !InHand(c'.item.value)
    && c'.attempt.Some? && c'.attempt.value.status !in {Submitting, Qualified, Preparing}
    && (c'.attempt.value.status == Ready ==> c'.attempt.value.key.None?)
    && c.attempt.Some? && c'.attempt.value.executions == c.attempt.value.executions
    && c'.runs[r].number == c.runs[r].number
    && c'.runs[r].worker == c.runs[r].worker
  }

  lemma ReportSubmittedShape(c: Case, l: Ledger, w: Worker, r: nat, res: Result, now: int)
    requires c.attempt.Some? && c.item.Some? && r < |c.runs| && res.outcome.Submitted?
    requires ReportOp(c, l, w, r, res, now).Done?
    ensures var c' := ReportOp(c, l, w, r, res, now).c;
      && Closes(c, c', r)
      && (if res.verification == Some(VerdictFailed) then c'.attempt.value.status == Status.NeedsReview
          else c'.attempt.value.status in {Status.Submitted, Verified})
  {
    var a1 := c.attempt.value.(status := Status.Submitted);
    var c0 := SetRun(c, r, c.runs[r].(submitInvoked := c.runs[r].submitInvoked || res.submitAttempted));
    var c2 := SetItem(SetAttempt(FinishRun(c0, r, RunSubmitted), a1), Succeed(c.item.value));
    assert Closes(c, c2, r);
    if res.verification.Some? {
      OwnVerdictShape(c2, l, r, res.verification.value);
    }
  }

  /** The verdict that a SUBMITTED report brings. */
  lemma OwnVerdictShape(c: Case, l: Ledger, r: nat, v: Verdict)
    requires c.attempt.Some? && c.attempt.value.status == Status.Submitted && r < |c.runs|
    requires !c.runs[r].status.Running?
    ensures var rep := ApplyVerdict(c, l, r, v, false);
      && rep.Done? && rep.c.item == c.item && rep.c.attempt.Some?
      && |rep.c.runs| == |c.runs| && rep.c.runs == c.runs[r := rep.c.runs[r]] && !rep.c.runs[r].status.Running?
      && rep.c.runs[r].number == c.runs[r].number && rep.c.runs[r].worker == c.runs[r].worker
      && rep.c.attempt.value.executions == c.attempt.value.executions
      && rep.c.attempt.value.status ==
           (if v.VerdictFailed? then Status.NeedsReview else if v.VerdictVerified? then Verified else Status.Submitted)
  {
  }

  lemma ReportShape(c: Case, l: Ledger, w: Worker, r: nat, res: Result, now: int)
    requires c.attempt.Some? && c.item.Some? && r < |c.runs| && !res.outcome.Submitted?
    requires ReportOp(c, l, w, r, res, now).Done?
    ensures var c' := ReportOp(c, l, w, r, res, now).c;
      Closes(c, c', r) && (res.outcome.Unknown? ==> c'.attempt.value.status == Uncertain)
  {
    if res.outcome.DryRun? || res.outcome.NeedsReview? || res.outcome.FormChanged? || res.outcome.NeedsUserInput? {
      ReportSettledShape(c, l, w, r, res, now);
    } else {
      match res.outcome
      case Unknown =>
      case RetryableFailure =>
      case PermanentFailure =>
      case Handoff =>
    }
  }

  lemma ReportSettledShape(c: Case, l: Ledger, w: Worker, r: nat, res: Result, now: int)
    requires c.attempt.Some? && c.item.Some? && r < |c.runs|
    requires res.outcome.DryRun? || res.outcome.NeedsReview? || res.outcome.FormChanged? || res.outcome.NeedsUserInput?
    requires ReportOp(c, l, w, r, res, now).Done?
    ensures Closes(c, ReportOp(c, l, w, r, res, now).c, r)
  {
    match res.outcome
    case DryRun =>
    case NeedsReview =>
    case NeedsUserInput =>
    case FormChanged =>
  }

  /** An accepted report. */
  lemma ReportEffect(c: Case, l: Ledger, w: Worker, r: nat, res: Result, now: int)
    requires c.attempt.Some? && c.item.Some? && r < |c.runs| && ReportOp(c, l, w, r, res, now).Done?
    ensures var c' := ReportOp(c, l, w, r, res, now).c;
      && Closes(c, c', r)
      && (res.outcome.Unknown? ==> c'.attempt.value.status == Uncertain)
      && (res.outcome.Submitted? ==>
            c'.attempt.value.status in (if res.verification == Some(VerdictFailed) then {Status.NeedsReview}
                                        else {Status.Submitted, Verified}))
  {
    if res.outcome.Submitted? {
      ReportSubmittedShape(c, l, w, r, res, now);
    } else {
      ReportShape(c, l, w, r, res, now);
    }
  }

  lemma ReportKeeps(h: Hyps, z: Slot, l: Ledger, w: Worker, res: Result, disowned: bool, now: int)
    requires SlotCoupled(z) && h.claimHolders && h.quietVerdicts
    ensures SlotCoupled(ActReport(h, z, l, w, res, disowned, now).slot)
  {
    var z' := ActReport(h, z, l, w, res, disowned, now).slot;
    if z' != z {
      var r := z.sessions[w].run;
      ActingRunIsRunning(h, z, w);
      ReportEffect(if disowned then Unmarked(z.c, r) else z.c, l, w, r, res, now);
      Closing(z.c, r, z'.c.runs[r]);
      assert z'.c.runs == z.c.runs[r := z'.c.runs[r]];
      Rests(z, z');
    }
  }

  // ------------------------------------------------------------------- start

  lemma DroppingSessions(z: Slot, sessions: map<Worker, Session>)
    requires SlotCoupled(z)
    requires sessions.Keys <= z.sessions.Keys && forall w :: w in sessions ==> sessions[w] == z.sessions[w]
    ensures SlotCoupled(z.(sessions := sessions))
  {
  }

  /** The records after `start` opened a run: nothing else is running. */
  ghost predicate Opens(c: Case, c': Case, w: Worker, r: nat) {
    && r == |c.runs| && |c'.runs| == r + 1 && Idle(c'.runs[..r])
    && c'.runs[r].status.Running? && !c'.runs[r].submitInvoked && c'.runs[r].worker == w
    && c'.attempt.Some? && c'.attempt.value.status == Submitting && c'.attempt.value.key == Some(c'.runs[r].key)
    && c'.item.Some? && c'.item.value.state.Processing? && Owns(c'.item.value, w)
  }

  /** The records after `start` settled the item without running. */
  ghost predicate SettlesItem(c: Case, c': Case) {
    && |c.runs| <= |c'.runs| && Idle(c'.runs)
    && c'.item.Some? && !InHand(c'.item.value)
    && c'.attempt.Some? && c'.attempt.value.status != Submitting
    && (c'.attempt.value.status in {Qualified, Preparing, Ready} ==> c'.attempt.value.key.None?)
  }

  lemma SettlePreconditionsShape(c: Case, l: Ledger, w: Worker, call: Call, codes: seq<Code>)
    requires c.attempt.Some? && c.item.Some? && Idle(c.runs) && c.attempt.value.status == Ready
    requires c.attempt.value.key.None?
    ensures SettlesItem(c, SettlePreconditions(c, l, w, call, codes).0)
  {
    var c' := SettlePreconditions(c, l, w, call, codes).0;
    assert c'.runs == c.runs + [c'.runs[|c.runs|]];
    Appending(c.runs, c'.runs[|c.runs|]);
  }

  lemma TakeMutexShape(orig: Case, c: Case, l: Ledger, l1: Ledger, w: Worker)
    requires orig.item.Some? && c.attempt.Some? && c.item.Some? && Idle(c.runs)
    requires c.attempt.value.status == Ready && c.attempt.value.key.None?
    requires c.item.value.state.Processing? && Owns(c.item.value, w)
    ensures var step := TakeMutex(orig, c, l, l1, w); step.outcome == Started(|c.runs|) && Opens(c, step.c, w, |c.runs|)
  {
    var step := TakeMutex(orig, c, l, l1, w);
    assert step.c.runs[..|c.runs|] == c.runs;
  }

  lemma StartReadyShape(orig: Case, c: Case, l: Ledger, w: Worker, call: Call, kit: Kit)
    requires orig.item.Some? && c.item.Some? && c.attempt.Some? && Idle(c.runs)
    requires c.attempt.value.status == Ready && c.attempt.value.key.None?
    requires c.item.value.state.Processing? && Owns(c.item.value, w)
    ensures var step := StartReady(orig, c, l, w, call, kit);
      if step.outcome.Started? then Opens(c, step.c, w, step.outcome.run) else SettlesItem(c, step.c)
  {
    if !call.paused {
      var report := Evaluate(call.facts, c.attempt.value, l, call.policy, call.keys, true, false);
      EvaluateKeeps(call.facts, c.attempt.value, l, call.policy, call.keys, false);
      var c1 := SetAttempt(c, report.attempt);
      if report.failures != [] {
        SettlePreconditionsShape(c1, report.ledger, w, call, report.failures);
      } else {
        TakeMutexShape(orig, c1, l, report.ledger, w);
      }
    }
  }

  lemma ReclaimShape(c: Case)
    requires Coupled(c) && c.attempt.Some? && c.attempt.value.status == Submitting
    ensures var c' := Reclaim(c);
      && CrashedRun(c.runs).Some?
      && |c'.runs| == |c.runs| && Idle(c'.runs) && c'.item == c.item && c'.attempt.Some?
      && (if c.runs[CrashedRun(c.runs).value].submitInvoked then c'.attempt.value.status == Uncertain
          else c'.attempt.value.status == Ready && c'.attempt.value.key.None?)
  {
    var i :| IsRunning(c.runs, i);
    var r := CrashedRun(c.runs).value;
    Closing(c, r, Reclaim(c).runs[r]);
  }

  /** `start` on coupled records: it opens one run, or settles the item; a run whose `submit_invoked`
      is on record never comes back as READY. */
  lemma StartShape(c: Case, l: Ledger, w: Worker, call: Call, kit: Kit)
    requires Coupled(c) && c.item.Some? && c.attempt.Some? && HeldBy(c.item.value, w)
    ensures var step := StartOp(c, l, w, call, kit);
      && OpensOrSettles(c, step, w)
      && (c.attempt.value.status !in {Ready, Submitting} ==> step.c.attempt == c.attempt)
      && (c.attempt.value.status == Submitting && (exists i :: IsRunning(c.runs, i) && c.runs[i].submitInvoked) ==>
            step.c.attempt.value.status == Uncertain)
  {
    if c.attempt.value.status == Submitting {
      StartReclaimShape(c, l, w, call, kit);
    } else {
      NotSubmittingIdle(c);
      if c.attempt.value.status == Ready {
        StartReadyShape(c, SetItem(c, c.item.value.(state := Processing)), l, w, call, kit);
      }
    }
  }

  ghost predicate OpensOrSettles(c: Case, step: StartStep, w: Worker) {
    if step.outcome.Started? then Opens(c, step.c, w, step.outcome.run) else SettlesItem(c, step.c)
  }

  lemma StartReclaimShape(c: Case, l: Ledger, w: Worker, call: Call, kit: Kit)
    requires Coupled(c) && c.item.Some? && c.attempt.Some? && HeldBy(c.item.value, w)
    requires c.attempt.value.status == Submitting
    ensures var step := StartOp(c, l, w, call, kit);
      && OpensOrSettles(c, step, w)
      && ((exists i :: IsRunning(c.runs, i) && c.runs[i].submitInvoked) ==> step.c.attempt.value.status == Uncertain)
  {
    var c1 := SetItem(c, c.item.value.(state := Processing));
    ReclaimShape(c1);
    if Reclaim(c1).attempt.value.status == Ready {
      StartReadyShape(c, Reclaim(c1), l, w, call, kit);
    }
  }

  /** After a start the sessions that remain belong to earlier claims. */
  lemma RemainingUnheld(z: Slot, w: Worker)
    requires SlotCoupled(z) && z.c.item.Some? && HeldBy(z.c.item.value, w)
    ensures forall v :: v in z.sessions && v != w ==> z.sessions[v].claim < z.claims
  {
  }

  lemma OpenedKeeps(z: Slot, w: Worker, step: StartStep)
    requires SlotCoupled(z) && z.c.item.Some? && HeldBy(z.c.item.value, w) && z.c.attempt.Some?
    requires step.outcome.Started? && Opens(z.c, step.c, w, step.outcome.run)
    ensures SlotCoupled(AfterStart(z, w, step).slot)
  {
    RemainingUnheld(z, w);
    var r := step.outcome.run;
    var runs' := step.c.runs;
    forall i ensures IsRunning(runs', i) <==> i == r {
      assert i != r ==> !IsRunning(runs'[..r], i);
    }
    assert IsRunning(step.c.runs, r);
  }

  lemma StartKeeps(z: Slot, l: Ledger, w: Worker, call: Call, kit: Kit)
    requires SlotCoupled(z) && z.c.item.Some?
    ensures SlotCoupled(AfterStart(z, w, StartOp(z.c, l, w, call, kit)).slot)
  {
    var step := StartOp(z.c, l, w, call, kit);
    var z0 := z.(sessions := z.sessions - {w});
    DroppingSessions(z, z0.sessions);
    if !HeldBy(z.c.item.value, w) {
      assert AfterStart(z, w, step).slot == z0;
    } else if z.c.attempt.None? {
      ItemChange(z0, step.c.item.value);
    } else {
      StartShape(z.c, l, w, call, kit);
      if step.outcome.Started? {
        OpenedKeeps(z, w, step);
      } else {
        Rests(z0, AfterStart(z, w, step).slot);
      }
    }
  }

  lemma StartStaleKeeps(z: Slot, l: Ledger, w: Worker)
    requires SlotCoupled(z)
    ensures SlotCoupled(ActStartStale(z, l, w).slot)
  {
    if z.c.item.Some? && z.c.attempt.Some? && HeldBy(z.c.item.value, w) {
      var c := SetItem(z.c, z.c.item.value.(state := Processing));
      var step := TakeMutex(z.c, c, l, l, w);
      if step.outcome.Started? {
        NotSubmittingIdle(z.c);
        TakeMutexShape(z.c, c, l, l, w);
        OpenedKeeps(z, w, step);
      } else {
        var z0 := z.(sessions := z.sessions - {w});
        DroppingSessions(z, z0.sessions);
        ItemChange(z0, step.c.item.value);
      }
    }
  }

  // ------------------------------------------------------------ every action

  lemma AttemptStepKeeps(z: Slot, a: Attempt)
    requires SlotCoupled(z)
    requires a.status in {Qualified, Preparing, Ready} && a.key.None?
    requires z.c.attempt.Some? ==> z.c.attempt.value.status in {Qualified, Preparing}
    ensures SlotCoupled(z.(c := SetAttempt(z.c, a)))
  {
  }

  lemma QueueActKeeps(z: Slot, l: Ledger, action: Action)
    requires SlotCoupled(z)
    ensures SlotCoupled(ActQueue(z, l, action).slot)
  {
    if z.c.item.None? {
      if action.Enqueue? {
        ItemChange(z, Fresh(MAX_ATTEMPTS, action.now));
      }
    } else if action.ClaimItem? && Claimable(z.c.item.value, action.now) {
      ClaimKeeps(z, action.w, action.until);
    } else {
      ItemChange(z, QueueStep(z.c.item.value, action));
    }
  }

  lemma InRunKeeps(h: Hyps, z: Slot, l: Ledger, action: Action)
    requires SlotCoupled(z) && h.claimHolders && h.quietVerdicts && InRun(action)
    ensures SlotCoupled(Act(h, z, l, action).slot)
  {
    match action
    case Arm(w) => ArmKeeps(h, z, l, w);
    case Gate(w, call) => GateKeeps(h, z, l, w, call);
    case PressSubmit(w) => PressKeeps(h, z, l, w);
  }

  lemma JoiningKeeps(h: Hyps, z: Slot, l: Ledger, action: Action)
    requires SlotCoupled(z) && h.claimHolders && h.quietVerdicts && Joining(action)
    ensures SlotCoupled(Act(h, z, l, action).slot)
  {
    match action
    case ExtensionGate(w, call) => ExtensionGateKeeps(z, l, w, call);
    case ReportResult(w, res, disowned, now) => ReportKeeps(h, z, l, w, res, disowned, now);
    case ForeignReport(w, res, now) => assert ActForeignReport(h, z, l, w, res, now).slot == z;
    case Crash(w) => DroppingSessions(z, z.sessions - {w});
  }

  lemma JudgingKeeps(h: Hyps, z: Slot, l: Ledger, action: Action)
    requires SlotCoupled(z) && h.claimHolders && h.quietVerdicts && Judging(action)
    ensures SlotCoupled(Act(h, z, l, action).slot)
  {
    match action
    case Verify(r, v) => VerifyKeeps(h, z, l, r, v);
    case Confirm(r, submitted) => ConfirmKeeps(h, z, l, r, submitted);
  }

  lemma ReopeningKeeps(h: Hyps, z: Slot, l: Ledger, action: Action)
    requires SlotCoupled(z) && h.claimHolders && h.quietVerdicts && Reopening(action)
    ensures SlotCoupled(Act(h, z, l, action).slot)
  {
    match action
    case Retry(now) => RetryKeeps(h, z, l, now);
    case CancelAttempt => CancelKeeps(h, z, l);
  }

  lemma StartingKeeps(h: Hyps, z: Slot, l: Ledger, action: Action)
    requires SlotCoupled(z) && Starting(action)
    ensures SlotCoupled(Act(h, z, l, action).slot)
  {
    match action
    case Start(w, call, kit) => if z.c.item.Some? { StartKeeps(z, l, w, call, kit); }
    case StartStale(w) => StartStaleKeeps(z, l, w);
    case Recover(now) => RecoverFromKeeps(z, 0, now);
  }

  lemma PrepareKeeps(z: Slot, l: Ledger, from: Status, to: Status)
    requires SlotCoupled(z) && from in {Qualified, Preparing} && to in {Qualified, Preparing, Ready}
    ensures SlotCoupled(ActPrepare(z, l, from, to).slot)
  {
    if z.c.attempt.Some? && z.c.attempt.value.status == from {
      AttemptStepKeeps(z, z.c.attempt.value.(status := to));
    }
  }

  lemma SchedulingKeeps(h: Hyps, z: Slot, l: Ledger, action: Action)
    requires SlotCoupled(z) && Scheduling(action)
    ensures SlotCoupled(Act(h, z, l, action).slot)
  {
    match action
    case Admit(call) =>
      if z.c.attempt.None? {
        AttemptStepKeeps(z, Attempt(Qualified, None, 1, 0, true, false, Some(call.keys.day), Some(call.keys.week)));
      }
    case BeginPreparing => PrepareKeeps(z, l, Qualified, Preparing);
    case MarkReady => PrepareKeeps(z, l, Preparing, Ready);
  }

  lemma ActKeeps(h: Hyps, z: Slot, l: Ledger, action: Action)
    requires SlotCoupled(z) && h.claimHolders && h.quietVerdicts
    ensures SlotCoupled(Act(h, z, l, action).slot)
  {
    if Scheduling(action) {
      SchedulingKeeps(h, z, l, action);
    } else if Queueing(action) {
      QueueActKeeps(z, l, action);
    } else if Starting(action) {
      StartingKeeps(h, z, l, action);
    } else if InRun(action) {
      InRunKeeps(h, z, l, action);
    } else if Joining(action) {
      JoiningKeeps(h, z, l, action);
    } else if Judging(action) {
      JudgingKeeps(h, z, l, action);
    } else {
      ReopeningKeeps(h, z, l, action);
    }
  }

  ghost predicate AllCoupled(s: State) {
    forall o :: o in s.slots ==> SlotCoupled(s.slots[o])
  }

  lemma {:induction false} Reachable(h: Hyps, steps: seq<Label>)
    requires h.claimHolders && h.quietVerdicts
    ensures AllCoupled(After(h, steps))
  {
    if steps != [] {
      var n := |steps| - 1;
      Reachable(h, steps[..n]);
      var s := After(h, steps[..n]);
      assert SlotCoupled(EmptySlot);
      ActKeeps(h, At(s, steps[n].opp), s.ledger, steps[n].action);
    }
  }

  /** COUPLING. In every reachable state an attempt is SUBMITTING exactly when it has a RUNNING run,
      there is then exactly one, the submission key is that run's key, and a READY attempt has no
      key, so the guarded UPDATE of `start` is never defeated by a stale one. */
  lemma CouplingHolds(h: Hyps, steps: seq<Label>, o: Opp)
    requires h.claimHolders && h.quietVerdicts
    ensures var c := At(After(h, steps), o).c;
      c.attempt.Some? ==>
        && (c.attempt.value.status == Submitting <==> exists i :: IsRunning(c.runs, i))
        && (forall i, j :: IsRunning(c.runs, i) && IsRunning(c.runs, j) ==> i == j)
        && (forall i :: IsRunning(c.runs, i) ==> c.attempt.value.key == Some(c.runs[i].key))
        && (c.attempt.value.status == Ready ==> c.attempt.value.key.None?)
  {
    Reachable(h, steps);
    assert SlotCoupled(EmptySlot);
  }

  lemma NoLostRace(orig: Case, c: Case, l: Ledger, w: Worker, call: Call, kit: Kit)
    requires orig.item.Some? && c.item.Some? && c.attempt.Some?
    requires c.attempt.value.status == Ready && c.attempt.value.key.None?
    ensures !StartReady(orig, c, l, w, call, kit).outcome.LostRace?
  {
    EvaluateKeeps(call.facts, c.attempt.value, l, call.policy, call.keys, false);
  }

  /** The race is only ever lost to a change made since the read: from current data it never is. */
  lemma FreshStartNeverLosesRace(h: Hyps, steps: seq<Label>, o: Opp, w: Worker, call: Call, kit: Kit)
    requires h.claimHolders && h.quietVerdicts && At(After(h, steps), o).c.item.Some?
    ensures !StartOp(At(After(h, steps), o).c, After(h, steps).ledger, w, call, kit).outcome.LostRace?
  {
    Reachable(h, steps);
    assert SlotCoupled(EmptySlot);
    var c := At(After(h, steps), o).c;
    if HeldBy(c.item.value, w) && c.attempt.Some? {
      var c1 := SetItem(c, c.item.value.(state := Processing));
      if c.attempt.value.status == Submitting {
        ReclaimShape(c1);
        if Reclaim(c1).attempt.value.status == Ready {
          NoLostRace(c, Reclaim(c1), After(h, steps).ledger, w, call, kit);
        }
      } else if c.attempt.value.status == Ready {
        NoLostRace(c, c1, After(h, steps).ledger, w, call, kit);
      }
    }
  }

  /** A worker that still holds its claim can always deliver its result: whatever the outcome, the
      transitions `_report` makes from SUBMITTING are in the table and the item is its own. */
  lemma ReportAccepted(c: Case, l: Ledger, w: Worker, r: nat, res: Result, now: int)
    requires c.attempt.Some? && c.item.Some? && r < |c.runs| && c.attempt.value.status == Submitting
    requires Owns(c.item.value, w)
    ensures ReportOp(c, l, w, r, res, now).Done?
  {
    match res.outcome
    case Submitted =>
    case DryRun =>
    case Unknown =>
    case RetryableFailure =>
    case PermanentFailure =>
    case Handoff =>
    case NeedsReview =>
    case NeedsUserInput =>
    case FormChanged =>
  }

  lemma HolderReportIsAccepted(h: Hyps, steps: seq<Label>, o: Opp, w: Worker, res: Result, now: int)
    requires h.claimHolders && h.quietVerdicts && Holding(At(After(h, steps), o), w)
    ensures var s := After(h, steps); var z := At(s, o);
      z.c.attempt.Some? && ReportOp(z.c, s.ledger, w, z.sessions[w].run, res, now).Done?
  {
    Reachable(h, steps);
    assert SlotCoupled(EmptySlot);
    var z := At(After(h, steps), o);
    assert IsRunning(z.c.runs, z.sessions[w].run);
    ReportAccepted(z.c, After(h, steps).ledger, w, z.sessions[w].run, res, now);
  }
}
