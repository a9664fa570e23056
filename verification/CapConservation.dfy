/** Cap slots are conserved over every run of the protocol: the ledger's usage of a period is the number
    of attempts holding a slot of that period, and it never exceeds the cap. None of this needs the
    hypotheses about workers and verdicts. */
module CapConservation {
  import opened Base
  import opened Lifecycle
  import opened WorkQueue
  import opened Caps
  import opened Preconditions
  import opened Execution
  import opened Protocol

  /** One change of one attempt and the ledger, seen from the books. */
  ghost predicate Books(a: Option<Attempt>, l: Ledger, a': Option<Attempt>, l': Ledger, p: Policy) {
    CapFields(a') && Balanced(a, l, a', l') && WithinCaps(l, l', p)
  }

  predicate SameSlot(a: Attempt, a': Attempt) {
    a'.reserved == a.reserved && a'.released == a.released && a'.capDay == a.capDay && a'.capWeek == a.capWeek
  }

  lemma Untouched(a: Attempt, a': Attempt, l: Ledger, p: Policy)
    requires SameSlot(a, a') && CapFields(Some(a'))
    ensures Books(Some(a), l, Some(a'), l, p)
  {
  }

  lemma BooksTrans(a: Option<Attempt>, l: Ledger, a1: Option<Attempt>, l1: Ledger, a2: Option<Attempt>, l2: Ledger,
                   p: Policy)
    requires Books(a, l, a1, l1, p) && Books(a1, l1, a2, l2, p)
    ensures Books(a, l, a2, l2, p)
  {
    BalancedTrans(a, l, a1, l1, a2, l2);
    forall d: Day ensures Net(l2.days, d) <= Max(p.dailyCap, Net(l.days, d)) {
      assert Net(l1.days, d) <= Max(p.dailyCap, Net(l.days, d));
    }
    forall w: Week ensures Net(l2.weeks, w) <= Max(p.weeklyCap, Net(l.weeks, w)) {
      assert Net(l1.weeks, w) <= Max(p.weeklyCap, Net(l.weeks, w));
    }
  }

  lemma EvaluateBooks(f: Facts, a: Attempt, l: Ledger, p: Policy, k: Keys, executing: bool)
    requires CapFields(Some(a))
    ensures var r := Evaluate(f, a, l, p, k, true, executing); Books(Some(a), l, Some(r.attempt), r.ledger, p)
  {
    CheckMeaning(f, a, l, p, k, executing);
    if Evaluate(f, a, l, p, k, true, executing).failures == [] {
      FindingsMeaning(f, a, executing);
    }
  }

  lemma SettlePreconditionsBooks(c: Case, l: Ledger, w: Worker, call: Call, codes: seq<Code>)
    requires c.attempt.Some? && c.item.Some? && CapFields(c.attempt)
    ensures var (c', l') := SettlePreconditions(c, l, w, call, codes); Books(c.attempt, l, c'.attempt, l', call.policy)
  {
    ReleaseBalanced(c.attempt.value, l, Closed, call.policy);
    var (c', l') := SettlePreconditions(c, l, w, call, codes);
    if !SettlementFor(set x | x in codes).SettleClosed? {
      Untouched(c.attempt.value, c'.attempt.value, l, call.policy);
    }
  }

  lemma StartReadyBooks(orig: Case, c: Case, l: Ledger, w: Worker, call: Call, kit: Kit)
    requires orig.item.Some? && c.item.Some? && c.attempt.Some? && CapFields(c.attempt)
    requires orig.attempt.Some? && CapFields(orig.attempt) && SameSlot(orig.attempt.value, c.attempt.value)
    requires c.attempt.value.status == Ready
    ensures var step := StartReady(orig, c, l, w, call, kit);
      Books(c.attempt, l, step.c.attempt, step.ledger, call.policy)
  {
    var step := StartReady(orig, c, l, w, call, kit);
    if call.paused {
      Untouched(c.attempt.value, c.attempt.value, l, call.policy);
    } else {
      var report := Evaluate(call.facts, c.attempt.value, l, call.policy, call.keys, true, false);
      var c1 := SetAttempt(c, report.attempt);
      EvaluateBooks(call.facts, c.attempt.value, l, call.policy, call.keys, false);
      if report.failures != [] {
        SettlePreconditionsBooks(c1, report.ledger, w, call, report.failures);
        BooksTrans(c.attempt, l, c1.attempt, report.ledger, step.c.attempt, step.ledger, call.policy);
      } else if step.outcome.LostRace? {
        Untouched(c.attempt.value, orig.attempt.value, l, call.policy);
      } else {
        Untouched(report.attempt, step.c.attempt.value, report.ledger, call.policy);
        BooksTrans(c.attempt, l, c1.attempt, report.ledger, step.c.attempt, step.ledger, call.policy);
      }
    }
  }

  lemma StartBooks(c: Case, l: Ledger, w: Worker, call: Call, kit: Kit)
    requires c.item.Some? && CapFields(c.attempt)
    ensures var step := StartOp(c, l, w, call, kit); Books(c.attempt, l, step.c.attempt, step.ledger, call.policy)
  {
    var step := StartOp(c, l, w, call, kit);
    if c.attempt.Some? {
      var c1 := SetItem(c, c.item.value.(state := Processing));
      var c2 := if c.attempt.value.status == Submitting then Reclaim(c1) else c1;
      Untouched(c.attempt.value, c2.attempt.value, l, call.policy);
      if HeldBy(c.item.value, w) && c2.attempt.value.status == Ready {
        StartReadyBooks(c, c2, l, w, call, kit);
        BooksTrans(c.attempt, l, c2.attempt, l, step.c.attempt, step.ledger, call.policy);
      }
    }
  }

  lemma ReportBooks(c: Case, l: Ledger, w: Worker, r: nat, res: Result, now: int, p: Policy)
    requires c.attempt.Some? && c.item.Some? && r < |c.runs| && CapFields(c.attempt)
    requires ReportOp(c, l, w, r, res, now).Done?
    ensures var rep := ReportOp(c, l, w, r, res, now); Books(c.attempt, l, rep.c.attempt, rep.ledger, p)
  {
    if res.outcome.PermanentFailure? {
      ReleaseBalanced(c.attempt.value, l, Failed, p);
    } else {
      ReportSlot(c, l, w, r, res, now);
      Untouched(c.attempt.value, ReportOp(c, l, w, r, res, now).c.attempt.value, l, p);
    }
  }

  /** Only a permanent failure gives the slot back. */
  lemma ReportSlot(c: Case, l: Ledger, w: Worker, r: nat, res: Result, now: int)
    requires c.attempt.Some? && c.item.Some? && r < |c.runs|
    requires ReportOp(c, l, w, r, res, now).Done? && !res.outcome.PermanentFailure?
    ensures var rep := ReportOp(c, l, w, r, res, now);
      && rep.ledger == l && rep.c.attempt.Some? && SameSlot(c.attempt.value, rep.c.attempt.value)
      && rep.c.attempt.value.status !in {Failed, Cancelled, Closed}
  {
    match res.outcome
    case Submitted =>
    case DryRun =>
    case Unknown =>
    case RetryableFailure =>
    case Handoff =>
    case NeedsReview =>
    case NeedsUserInput =>
    case FormChanged =>
  }

  lemma VerdictBooks(c: Case, l: Ledger, r: nat, v: Verdict, p: Policy)
    requires c.attempt.Some? && r < |c.runs| && CapFields(c.attempt) && ApplyVerdict(c, l, r, v, true).Done?
    ensures var rep := ApplyVerdict(c, l, r, v, true); Books(c.attempt, l, rep.c.attempt, rep.ledger, p)
  {
    Untouched(c.attempt.value, ApplyVerdict(c, l, r, v, true).c.attempt.value, l, p);
  }

  lemma ConfirmBooks(c: Case, l: Ledger, r: nat, submitted: bool, p: Policy)
    requires CapFields(c.attempt) && ConfirmOp(c, l, r, submitted).Done?
    ensures var rep := ConfirmOp(c, l, r, submitted); Books(c.attempt, l, rep.c.attempt, rep.ledger, p)
  {
    var rep := ConfirmOp(c, l, r, submitted);
    assert rep.ledger == l && SameSlot(c.attempt.value, rep.c.attempt.value);
    Untouched(c.attempt.value, rep.c.attempt.value, l, p);
  }

  /** A retried attempt that had ended holds no slot, so dropping its cap columns loses nothing. */
  lemma RetryBooks(c: Case, l: Ledger, now: int, p: Policy)
    requires CapFields(c.attempt) && RetryOp(c, l, now).Done?
    ensures var rep := RetryOp(c, l, now); Books(c.attempt, l, rep.c.attempt, rep.ledger, p)
  {
  }

  lemma CancelBooks(c: Case, l: Ledger, p: Policy)
    requires CapFields(c.attempt) && CancelOp(c, l).Done?
    ensures var rep := CancelOp(c, l); Books(c.attempt, l, rep.c.attempt, rep.ledger, p)
  {
    ReleaseBalanced(c.attempt.value, l, Cancelled, p);
    var (a1, l1) := ReleaseAttempt(c.attempt.value, l, Cancelled);
    Untouched(a1, a1.(key := None), l1, p);
    BooksTrans(c.attempt, l, Some(a1), l1, Some(a1.(key := None)), l1, p);
  }

  lemma {:induction false} RecoverBooks(c: Case, from: nat, now: int, l: Ledger, p: Policy)
    requires CapFields(c.attempt) && from <= |c.runs|
    ensures Books(c.attempt, l, RecoverFrom(c, from, now).attempt, l, p)
    decreases |c.runs| - from
  {
    if from < |c.runs| {
      var c1 := RecoverRun(c, from, now);
      if c.attempt.Some? {
        Untouched(c.attempt.value, c1.attempt.value, l, p);
      }
      RecoverBooks(c1, from + 1, now, l, p);
      BooksTrans(c.attempt, l, c1.attempt, l, RecoverFrom(c, from, now).attempt, l, p);
    }
  }

  // --------------------------------------------------------- every transition

  /** The policy an action reads, if any. */
  predicate Obeys(action: Action, p: Policy) {
    match action
    case Admit(call) => call.policy == p
    case Start(_, call, _) => call.policy == p
    case Gate(_, call) => call.policy == p
    case ExtensionGate(_, call) => call.policy == p
    case _ => true
  }

  lemma Nothing(a: Option<Attempt>, l: Ledger, p: Policy)
    requires CapFields(a)
    ensures Books(a, l, a, l, p)
  {
  }

  lemma GateBooks(c: Case, l: Ledger, w: Worker, call: Call)
    requires CapFields(c.attempt)
    ensures var g := GateOp(c, l, call); Books(c.attempt, l, g.c.attempt, g.ledger, call.policy)
    ensures c.item.Some? ==> var g := ExtensionGateOp(c, l, w, call);
      Books(c.attempt, l, g.c.attempt, g.ledger, call.policy)
  {
    Nothing(c.attempt, l, call.policy);
    if c.attempt.Some? {
      EvaluateBooks(call.facts, c.attempt.value, l, call.policy, call.keys, true);
    }
  }

  lemma AdmitBooks(z: Slot, l: Ledger, call: Call)
    requires CapFields(z.c.attempt)
    ensures var m := ActAdmit(z, l, call); Books(z.c.attempt, l, m.slot.c.attempt, m.ledger, call.policy)
  {
    Nothing(z.c.attempt, l, call.policy);
    ReserveMeaning(l, call.keys.day, call.keys.week, call.policy.dailyCap, call.policy.weeklyCap);
  }

  lemma PrepareBooks(z: Slot, l: Ledger, from: Status, to: Status, p: Policy)
    requires CapFields(z.c.attempt) && from in {Qualified, Preparing} && to in {Qualified, Preparing, Ready}
    ensures var m := ActPrepare(z, l, from, to); Books(z.c.attempt, l, m.slot.c.attempt, m.ledger, p)
  {
    Nothing(z.c.attempt, l, p);
    if z.c.attempt.Some? {
      Untouched(z.c.attempt.value, z.c.attempt.value.(status := to), l, p);
    }
  }

  lemma StaleBooks(z: Slot, l: Ledger, w: Worker, p: Policy)
    requires CapFields(z.c.attempt)
    ensures var m := ActStartStale(z, l, w); Books(z.c.attempt, l, m.slot.c.attempt, m.ledger, p)
  {
    Nothing(z.c.attempt, l, p);
    if z.c.attempt.Some? {
      Untouched(z.c.attempt.value, ActStartStale(z, l, w).slot.c.attempt.value, l, p);
    }
  }

  lemma ActReportBooks(h: Hyps, z: Slot, l: Ledger, w: Worker, res: Result, disowned: bool, now: int, p: Policy)
    requires CapFields(z.c.attempt)
    ensures var m := ActReport(h, z, l, w, res, disowned, now); Books(z.c.attempt, l, m.slot.c.attempt, m.ledger, p)
  {
    Nothing(z.c.attempt, l, p);
    if MayAct(h, z, w) {
      var r := z.sessions[w].run;
      var c0 := if disowned then Unmarked(z.c, r) else z.c;
      if ReportOp(c0, l, w, r, res, now).Done? {
        ReportBooks(c0, l, w, r, res, now, p);
      }
    }
  }

  lemma ForeignReportBooks(h: Hyps, z: Slot, l: Ledger, w: Worker, res: Result, now: int, p: Policy)
    requires CapFields(z.c.attempt)
    ensures var m := ActForeignReport(h, z, l, w, res, now); Books(z.c.attempt, l, m.slot.c.attempt, m.ledger, p)
  {
    Nothing(z.c.attempt, l, p);
    var running := CrashedRun(z.c.runs);
    if z.c.attempt.Some? && z.c.item.Some? && running.Some?
      && ReportOp(z.c, l, w, running.value, res, now).Done? {
      ReportBooks(z.c, l, w, running.value, res, now, p);
    }
  }

  lemma JudgingBooks(h: Hyps, z: Slot, l: Ledger, action: Action, p: Policy)
    requires CapFields(z.c.attempt) && Judging(action)
    ensures var m := Act(h, z, l, action); Books(z.c.attempt, l, m.slot.c.attempt, m.ledger, p)
  {
    Nothing(z.c.attempt, l, p);
    match action
    case Verify(r, v) => if VerifyOp(z.c, l, r, v).Done? { VerdictBooks(z.c, l, r, v, p); }
    case Confirm(r, submitted) => if ConfirmOp(z.c, l, r, submitted).Done? { ConfirmBooks(z.c, l, r, submitted, p); }
  }

  lemma ReopeningBooks(h: Hyps, z: Slot, l: Ledger, action: Action, p: Policy)
    requires CapFields(z.c.attempt) && Reopening(action)
    ensures var m := Act(h, z, l, action); Books(z.c.attempt, l, m.slot.c.attempt, m.ledger, p)
  {
    Nothing(z.c.attempt, l, p);
    match action
    case Retry(now) => if RetryOp(z.c, l, now).Done? { RetryBooks(z.c, l, now, p); }
    case CancelAttempt => if CancelOp(z.c, l).Done? { CancelBooks(z.c, l, p); }
  }

  lemma StartingBooks(h: Hyps, z: Slot, l: Ledger, action: Action, p: Policy)
    requires CapFields(z.c.attempt) && Obeys(action, p) && Starting(action)
    ensures var m := Act(h, z, l, action); Books(z.c.attempt, l, m.slot.c.attempt, m.ledger, p)
  {
    Nothing(z.c.attempt, l, p);
    match action
    case Start(w, call, kit) => if z.c.item.Some? { StartBooks(z.c, l, w, call, kit); }
    case StartStale(w) => StaleBooks(z, l, w, p);
    case Recover(now) => RecoverBooks(z.c, 0, now, l, p);
  }

  lemma WorkerBooks(h: Hyps, z: Slot, l: Ledger, action: Action, p: Policy)
    requires CapFields(z.c.attempt) && Obeys(action, p) && (InRun(action) || Joining(action))
    ensures var m := Act(h, z, l, action); Books(z.c.attempt, l, m.slot.c.attempt, m.ledger, p)
  {
    match action
    case Gate(w, call) =>
      Nothing(z.c.attempt, l, p);
      GateBooks(z.c, l, 0, call);
    case ExtensionGate(w, call) =>
      Nothing(z.c.attempt, l, p);
      GateBooks(z.c, l, w, call);
    case ReportResult(w, res, disowned, now) => ActReportBooks(h, z, l, w, res, disowned, now, p);
    case ForeignReport(w, res, now) => ForeignReportBooks(h, z, l, w, res, now, p);
    case _ => Nothing(z.c.attempt, l, p);
  }

  lemma ActBooks(h: Hyps, z: Slot, l: Ledger, action: Action, p: Policy)
    requires CapFields(z.c.attempt) && Obeys(action, p)
    ensures var m := Act(h, z, l, action); Books(z.c.attempt, l, m.slot.c.attempt, m.ledger, p)
  {
    if Starting(action) {
      StartingBooks(h, z, l, action, p);
    } else if InRun(action) || Joining(action) {
      WorkerBooks(h, z, l, action, p);
    } else if Judging(action) {
      JudgingBooks(h, z, l, action, p);
    } else if Reopening(action) {
      ReopeningBooks(h, z, l, action, p);
    } else if action.Admit? {
      AdmitBooks(z, l, action.call);
    } else if action.BeginPreparing? {
      PrepareBooks(z, l, Qualified, Preparing, p);
    } else if action.MarkReady? {
      PrepareBooks(z, l, Preparing, Ready, p);
    } else {
      Nothing(z.c.attempt, l, p);
    }
  }

  // ------------------------------------------------------------ whole systems

  function DayHolders(slots: map<Opp, Slot>, d: Day): set<Opp> {
    set o | o in slots && DayBit(slots[o].c.attempt, d) == 1
  }

  function WeekHolders(slots: map<Opp, Slot>, w: Week): set<Opp> {
    set o | o in slots && WeekBit(slots[o].c.attempt, w) == 1
  }

  lemma DayHoldersUpdate(s: State, o: Opp, z: Slot, d: Day)
    ensures |DayHolders(s.slots[o := z], d)|
      == |DayHolders(s.slots, d)| + DayBit(z.c.attempt, d) - DayBit(At(s, o).c.attempt, d)
  {
    var before, after := DayHolders(s.slots, d), DayHolders(s.slots[o := z], d);
    if DayBit(z.c.attempt, d) == 1 {
      assert after == before + {o};
    } else {
      assert after == before - {o};
    }
  }

  lemma WeekHoldersUpdate(s: State, o: Opp, z: Slot, w: Week)
    ensures |WeekHolders(s.slots[o := z], w)|
      == |WeekHolders(s.slots, w)| + WeekBit(z.c.attempt, w) - WeekBit(At(s, o).c.attempt, w)
  {
    var before, after := WeekHolders(s.slots, w), WeekHolders(s.slots[o := z], w);
    if WeekBit(z.c.attempt, w) == 1 {
      assert after == before + {o};
    } else {
      assert after == before - {o};
    }
  }

  ghost predicate SlotsWellFormed(s: State) {
    forall o :: o in s.slots ==> CapFields(s.slots[o].c.attempt)
  }

  /** CONSERVATION. With fixed caps, in every reachable state and with or without the hypotheses: the
      ledger's usage of each day and each week equals the number of attempts that hold a slot of it,
      and stays within the cap. */
  lemma {:induction false} CapSlotsConserved(h: Hyps, steps: seq<Label>, p: Policy)
    requires forall i :: 0 <= i < |steps| ==> Obeys(steps[i].action, p)
    ensures var s := After(h, steps);
      && (forall d: Day :: Net(s.ledger.days, d) == |DayHolders(s.slots, d)| <= Max(0, p.dailyCap))
      && (forall w: Week :: Net(s.ledger.weeks, w) == |WeekHolders(s.slots, w)| <= Max(0, p.weeklyCap))
      && SlotsWellFormed(s)
  {
    if steps != [] {
      var n := |steps| - 1;
      CapSlotsConserved(h, steps[..n], p);
      var s := After(h, steps[..n]);
      var s' := After(h, steps);
      var o := steps[n].opp;
      var m := Act(h, At(s, o), s.ledger, steps[n].action);
      assert SlotsWellFormed(s);
      ActBooks(h, At(s, o), s.ledger, steps[n].action, p);
      forall d: Day ensures Net(s'.ledger.days, d) == |DayHolders(s'.slots, d)| <= Max(0, p.dailyCap) {
        DayHoldersUpdate(s, o, m.slot, d);
        assert Net(s.ledger.days, d) == |DayHolders(s.slots, d)| <= Max(0, p.dailyCap);
      }
      forall w: Week ensures Net(s'.ledger.weeks, w) == |WeekHolders(s'.slots, w)| <= Max(0, p.weeklyCap) {
        WeekHoldersUpdate(s, o, m.slot, w);
        assert Net(s.ledger.weeks, w) == |WeekHolders(s.slots, w)| <= Max(0, p.weeklyCap);
      }
    }
  }
}
