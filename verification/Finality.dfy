/** A settled queue item is settled for good, also after a person re-opens the attempt. */
module Finality {
  import opened Base
  import opened Lifecycle
  import opened WorkQueue
  import opened Caps
  import opened Preconditions
  import opened Execution
  import opened Protocol

  predicate Settled(z: Slot) {
    z.c.item.Some? && z.c.item.value.state.Succeeded?
  }

  /** No run was added and submit was not pressed. */
  predicate NothingExecuted(z: Slot, z': Slot) {
    && |z'.c.runs| == |z.c.runs|
    && |z.log| <= |z'.log| && z'.log[..|z.log|] == z.log
    && forall i :: |z.log| <= i < |z'.log| ==> !z'.log[i].Press?
  }

  lemma StillNothing(z: Slot, z1: Slot, z2: Slot)
    requires NothingExecuted(z, z1) && NothingExecuted(z1, z2)
    ensures NothingExecuted(z, z2)
  {
    assert z2.log[..|z.log|] == z2.log[..|z1.log|][..|z.log|];
    forall i | |z.log| <= i < |z1.log| ensures !z2.log[i].Press? {
      assert z2.log[i] == z2.log[..|z1.log|][i];
    }
  }

  lemma {:induction false} RecoverKeepsSettled(c: Case, from: nat, now: int)
    requires from <= |c.runs| && c.item.Some? && c.item.value.state.Succeeded?
    ensures RecoverFrom(c, from, now).item == c.item
    decreases |c.runs| - from
  {
    if from < |c.runs| {
      var next := from + 1;
      RecoverKeepsSettled(RecoverRun(c, from, now), next, now);
    }
  }

  lemma VerdictKeepsSettled(c: Case, l: Ledger, r: nat, v: Verdict)
    requires c.attempt.Some? && r < |c.runs| && c.item.Some? && c.item.value.state.Succeeded?
    ensures var rep := ApplyVerdict(c, l, r, v, true); rep.Done? && rep.c.item == c.item && |rep.c.runs| == |c.runs|
  {
  }

  lemma ActKeepsSettled(h: Hyps, z: Slot, l: Ledger, action: Action)
    requires h.claimHolders && Settled(z)
    ensures var z' := Act(h, z, l, action).slot; Settled(z') && NothingExecuted(z, z')
  {
    if Starting(action) {
      StartingKeepsSettled(h, z, l, action);
    } else if InRun(action) || Joining(action) {
      WorkerKeepsSettled(h, z, l, action);
    } else if Judging(action) {
      JudgingKeepsSettled(h, z, l, action);
    }
  }

  lemma StartingKeepsSettled(h: Hyps, z: Slot, l: Ledger, action: Action)
    requires Settled(z) && Starting(action)
    ensures var z' := Act(h, z, l, action).slot; Settled(z') && NothingExecuted(z, z')
  {
    match action
    case Recover(now) =>
      RecoverKeepsSettled(z.c, 0, now);
    case Start(w, call, kit) => assert !HeldBy(z.c.item.value, w);
    case StartStale(w) => assert !HeldBy(z.c.item.value, w);
  }

  lemma WorkerKeepsSettled(h: Hyps, z: Slot, l: Ledger, action: Action)
    requires h.claimHolders && Settled(z) && (InRun(action) || Joining(action))
    ensures var z' := Act(h, z, l, action).slot; Settled(z') && NothingExecuted(z, z')
  {
    if InRun(action) || action.ReportResult? {
      assert !MayAct(h, z, action.w);
    }
  }

  lemma JudgingKeepsSettled(h: Hyps, z: Slot, l: Ledger, action: Action)
    requires Settled(z) && Judging(action)
    ensures var z' := Act(h, z, l, action).slot; Settled(z') && NothingExecuted(z, z')
  {
    match action
    case Verify(r, v) => VerifyKeepsSettled(z.c, l, r, v);
    case Confirm(r, submitted) => ConfirmKeepsSettled(z.c, l, r, submitted);
  }

  /** A verdict that is accepted leaves a settled item and the number of runs alone. */
  predicate KeepsItem(c: Case, rep: Reported) {
    rep.Done? ==> rep.c.item == c.item && |rep.c.runs| == |c.runs|
  }

  lemma VerifyKeepsSettled(c: Case, l: Ledger, r: nat, v: Verdict)
    requires c.item.Some? && c.item.value.state.Succeeded?
    ensures KeepsItem(c, VerifyOp(c, l, r, v))
  {
    if r < |c.runs| && c.attempt.Some? {
      VerdictKeepsSettled(c, l, r, v);
    }
  }

  lemma ConfirmKeepsSettled(c: Case, l: Ledger, r: nat, submitted: bool)
    requires c.item.Some? && c.item.value.state.Succeeded?
    ensures KeepsItem(c, ConfirmOp(c, l, r, submitted))
  {
    if r < |c.runs| && c.attempt.Some? {
      var v := if submitted then VerdictVerified else VerdictFailed;
      VerifyKeepsSettled(c, l, r, v);
      VerifyKeepsSettled(SetAttempt(SetRun(c, r, c.runs[r].(submitInvoked := true, status := RunSubmitted)),
                                    c.attempt.value.(status := Status.Submitted)), l, r, v);
    }
  }

  lemma NextKeepsSettled(h: Hyps, s: State, step: Label, o: Opp)
    requires h.claimHolders && Settled(At(s, o))
    ensures Settled(At(Next(h, s, step), o)) && NothingExecuted(At(s, o), At(Next(h, s, step), o))
  {
    if step.opp == o {
      ActKeepsSettled(h, At(s, o), s.ledger, step.action);
    }
  }

  /** Once the item has SUCCEEDED it stays so through every continuation in which workers act under their
      claim: no further run is started and submit is not pressed again. */
  lemma {:induction false} SettledIsFinal(h: Hyps, steps: seq<Label>, n: nat, o: Opp)
    requires h.claimHolders && n <= |steps| && Settled(At(After(h, steps[..n]), o))
    ensures Settled(At(After(h, steps), o)) && NothingExecuted(At(After(h, steps[..n]), o), At(After(h, steps), o))
  {
    if n == |steps| {
      assert steps[..n] == steps;
    } else {
      var init, last := steps[..|steps| - 1], steps[|steps| - 1];
      assert init[..n] == steps[..n];
      SettledIsFinal(h, init, n, o);
      NextKeepsSettled(h, After(h, init), last, o);
      assert After(h, steps) == Next(h, After(h, init), last);
      StillNothing(At(After(h, steps[..n]), o), At(After(h, init), o), At(After(h, steps), o));
    }
  }

  /** So denying a SUBMITTED run and retrying re-opens the attempt on paper only: `confirm` and `retry` both
      succeed and leave it READY, with an item no worker will ever claim. */
  lemma RetryAfterDenialIsStranded(c: Case, l: Ledger, r: nat, now: int)
    requires c.attempt.Some? && c.attempt.value.status == Status.Submitted && r < |c.runs|
    requires c.runs[r].status.RunSubmitted?
    requires c.item.Some? && c.item.value.state.Succeeded? && !AwaitsVerdict(c.runs)
    ensures var denied := ConfirmOp(c, l, r, false);
      denied.Done? &&
      var retried := RetryOp(denied.c, denied.ledger, now);
      && retried.Done? && retried.c.attempt.value.status == Ready && retried.c.item == c.item
      && forall later :: !Claimable(retried.c.item.value, later)
  {
    var denied := ConfirmOp(c, l, r, false);
    forall i | 0 <= i < |c.runs| ensures denied.c.runs[i] == c.runs[i] || denied.c.runs[i].status.VerificationFailed? {
    }
    assert !AwaitsVerdict(denied.c.runs);
  }

  // ------------------------------------------------------- where a retry leads

  predicate ClaimableSometime(it: Item) {
    || it.state.Pending? || it.state.RetryWait?
    || (InHand(it) && it.lease.Some? && it.attempts < it.maxAttempts)
  }

  /** That is what it says: there is a time at which a worker may claim the item. */
  lemma SometimeMeaning(it: Item)
    ensures ClaimableSometime(it) <==> exists later :: Claimable(it, later)
  {
    if it.state.Pending? || it.state.RetryWait? {
      assert Claimable(it, it.availableAt);
    } else if InHand(it) && it.lease.Some? && it.attempts < it.maxAttempts {
      assert Claimable(it, it.lease.value + 1);
    }
  }

  /** What a person can look up before retrying: the item has not SUCCEEDED, or there is none and the
      attempt's slot was not given up for good. */
  predicate RetryLeadsOn(c: Case) {
    if c.item.Some? then !c.item.value.state.Succeeded?
    else c.attempt.Some? && (!c.attempt.value.released || c.attempt.value.status in {Failed, Cancelled})
  }

  /** An accepted retry leads to execution exactly then: the item is in a worker's hands or can be claimed at
      some time. In hand, it can be claimed again only after its lease and before its last attempt. */
  lemma RetryLeadsOnExactly(c: Case, l: Ledger, now: int)
    requires RetryOp(c, l, now).Done?
    ensures var it := RetryOp(c, l, now).c.item;
      && (RetryLeadsOn(c) <==> it.Some? && (InHand(it.value) || exists later :: Claimable(it.value, later)))
      && (it.Some? && (exists later :: Claimable(it.value, later)) <==>
            RetryLeadsOn(c) && (c.item.Some? && InHand(c.item.value) ==> ClaimableSometime(c.item.value)))
  {
    var it := RetryOp(c, l, now).c.item;
    if it.Some? {
      SometimeMeaning(it.value);
    }
  }
}
