/** What leases are for. In a timed run the clock never goes back and a worker takes a step in its run only
    while the lease it was last given has not run out. If nobody cancels a queue item in a worker's hands or
    reports on a run it has no part in, every worker acts under its claim, and submit is pressed at most
    once without assuming so (H2). */
module TimedRuns {
  import opened Base
  import opened Lifecycle
  import opened WorkQueue
  import opened Caps
  import opened Preconditions
  import opened Execution
  import opened Protocol
  import opened Coupling
  import opened Recovery
  import opened Leases
  import opened AtMostOnce
  import opened PressedRun
  import opened RetryGuard

  // --------------------------------------------------------------- what is timed

  /** The lease last given under each claim of each opportunity. */
  type LeaseTable = map<(Opp, nat), int>

  /** Claims and heartbeats give leases. */
  function Given(s: State, t: LeaseTable, step: Label): LeaseTable {
    var z := At(s, step.opp);
    match step.action
    case ClaimItem(w, now, until) =>
      if z.c.item.Some? && Claimable(z.c.item.value, now) then t[(step.opp, z.claims + 1) := until] else t
    case Heartbeat(w, until) =>
      if z.c.item.Some? && Owns(z.c.item.value, w) then t[(step.opp, z.claims) := until] else t
    case _ => t
  }

  function LeasesAfter(h: Hyps, steps: seq<Label>): LeaseTable {
    if steps == [] then map[]
    else
      var n := |steps| - 1;
      Given(After(h, steps[..n]), LeasesAfter(h, steps[..n]), steps[n])
  }

  /** The worker's lease has not run out. */
  predicate LeaseRuns(z: Slot, o: Opp, t: LeaseTable, w: Worker, at: int) {
    w in z.sessions && (o, z.sessions[w].claim) in t && at <= t[(o, z.sessions[w].claim)]
  }

  /** The worker that takes this step in its run. */
  function Actor(action: Action): Option<Worker> {
    match action
    case Arm(w) => Some(w)
    case Gate(w, _) => Some(w)
    case PressSubmit(w) => Some(w)
    case ReportResult(w, _, _, _) => Some(w)
    case _ => None
  }

  /** The clock the step reads, if leases matter to it; the extension's gate checks the item's lease itself. */
  function Shown(action: Action): Option<int> {
    if action.ExtensionGate? then Some(action.call.now) else Reads(action)
  }

  /** The step is taken at time `at`: clocks it reads show that time, and its worker's lease is running. */
  predicate InTime(s: State, t: LeaseTable, step: Label, at: int) {
    var z := At(s, step.opp);
    var w := Actor(step.action);
    && (Shown(step.action).Some? ==> Shown(step.action).value == at)
    && (w.Some? && w.value in z.sessions ==> LeaseRuns(z, step.opp, t, w.value, at))
  }

  /** Nobody reports on a run that it neither started nor was let through to press in. */
  ghost predicate NoForeignReport(steps: seq<Label>) {
    forall n :: 0 <= n < |steps| ==> !steps[n].action.ForeignReport?
  }

  /** Nobody cancels an item in a worker's hands. */
  predicate LeavesItemInHand(s: State, step: Label) {
    var z := At(s, step.opp);
    step.action.QueueCancel? && z.c.item.Some? ==> !InHand(z.c.item.value)
  }

  predicate Ascending(clock: seq<int>) {
    forall i, j :: 0 <= i <= j < |clock| ==> clock[i] <= clock[j]
  }

  ghost predicate OnTime(h: Hyps, steps: seq<Label>, clock: seq<int>) {
    && |clock| == |steps| && Ascending(clock)
    && forall n :: 0 <= n < |steps| ==> InTime(After(h, steps[..n]), LeasesAfter(h, steps[..n]), steps[n], clock[n])
  }

  ghost predicate NoCancelInHand(h: Hyps, steps: seq<Label>) {
    forall n :: 0 <= n < |steps| ==> LeavesItemInHand(After(h, steps[..n]), steps[n])
  }

  /** What no lease can prevent does not happen. */
  ghost predicate Orderly(h: Hyps, steps: seq<Label>) {
    NoCancelInHand(h, steps) && NoForeignReport(steps)
  }

  // -------------------------------------------------------------- the invariant

  /** The item is in a worker's hands or owned by nobody. */
  predicate HeldOrFree(c: Case) {
    c.item.Some? && (InHand(c.item.value) || c.item.value.owner.None?)
  }

  /** At time `at` or later: a worker whose lease runs holds the item; the item in hand carries the lease of
      the latest claim; and while a run is RUNNING, or for one who lost the item under the latest claim, an
      item out of hand is nobody's. */
  ghost predicate Timed(z: Slot, o: Opp, t: LeaseTable, at: int) {
    && (forall w :: LeaseRuns(z, o, t, w, at) ==> Holding(z, w))
    && (z.c.item.Some? && InHand(z.c.item.value) ==>
          (o, z.claims) in t && z.c.item.value.lease == Some(t[(o, z.claims)]))
    && (forall w :: w in z.sessions && z.sessions[w].claim == z.claims ==> HeldOrFree(z.c))
    && (forall i :: IsRunning(z.c.runs, i) ==> HeldOrFree(z.c))
  }

  /** Time passes. */
  lemma Later(z: Slot, o: Opp, t: LeaseTable, at: int, later: int)
    requires Timed(z, o, t, at) && at <= later
    ensures Timed(z, o, t, later)
  {
  }

  /** Sessions and running runs may go, and no others come. */
  ghost predicate Thinned(z: Slot, z': Slot) {
    && z'.claims == z.claims && |z.c.runs| <= |z'.c.runs|
    && z'.sessions.Keys <= z.sessions.Keys
    && (forall w :: w in z'.sessions ==>
          z'.sessions[w].claim == z.sessions[w].claim && z'.sessions[w].run == z.sessions[w].run)
    && (forall i :: IsRunning(z'.c.runs, i) ==> IsRunning(z.c.runs, i))
  }

  /** The item is left alone. */
  lemma SameItem(z: Slot, z': Slot, o: Opp, t: LeaseTable, at: int)
    requires Timed(z, o, t, at) && Thinned(z, z') && z'.c.item == z.c.item
    ensures Timed(z', o, t, at)
  {
    forall w | LeaseRuns(z', o, t, w, at) ensures Holding(z', w) {
      assert LeaseRuns(z, o, t, w, at);
    }
  }

  /** The item leaves every hand while nobody's lease on it runs. */
  lemma ItemReturned(z: Slot, z': Slot, o: Opp, t: LeaseTable, at: int)
    requires Timed(z, o, t, at) && Thinned(z, z')
    requires z'.c.item.Some? && !InHand(z'.c.item.value) && z'.c.item.value.owner.None?
    requires forall w :: w in z'.sessions && Holding(z, w) ==> !LeaseRuns(z, o, t, w, at)
    ensures Timed(z', o, t, at)
  {
    forall w ensures !LeaseRuns(z', o, t, w, at) {
      if LeaseRuns(z', o, t, w, at) {
        assert LeaseRuns(z, o, t, w, at);
      }
    }
  }

  /** With the attempt out of SUBMITTING nobody holds the item. */
  lemma NobodyHolds(z: Slot)
    requires SlotCoupled(z) && (z.c.attempt.None? || z.c.attempt.value.status != Submitting)
    ensures forall w: Worker :: !Holding(z, w)
  {
    forall w: Worker ensures !Holding(z, w) {
      if Holding(z, w) {
        HolderIsSubmitting(z, w);
      }
    }
  }

  // ------------------------------------------------------------------ the steps

  lemma ClaimTimed(z: Slot, o: Opp, t: LeaseTable, w: Worker, now: int, until: int)
    requires SlotCoupled(z) && Timed(z, o, t, now) && z.c.item.Some? && Claimable(z.c.item.value, now)
    ensures Timed(z.(c := SetItem(z.c, Claim(z.c.item.value, w, until)), claims := z.claims + 1), o,
                  t[(o, z.claims + 1) := until], now)
  {
    var z', t' := z.(c := SetItem(z.c, Claim(z.c.item.value, w, until)),
                     claims := z.claims + 1), t[(o, z.claims + 1) := until];
    forall v ensures !LeaseRuns(z', o, t', v, now) {
      assert LeaseRuns(z', o, t', v, now) ==> LeaseRuns(z, o, t, v, now);
    }
  }

  lemma HeartbeatTimed(z: Slot, o: Opp, t: LeaseTable, w: Worker, until: int, at: int)
    requires SlotCoupled(z) && Timed(z, o, t, at) && z.c.item.Some? && Owns(z.c.item.value, w)
    ensures Timed(z.(c := SetItem(z.c, z.c.item.value.(lease := Some(until)))), o, t[(o, z.claims) := until], at)
  {
    var z', t' := z.(c := SetItem(z.c, z.c.item.value.(lease := Some(until)))), t[(o, z.claims) := until];
    forall v | LeaseRuns(z', o, t', v, at) ensures Holding(z', v) {
      if z.sessions[v].claim != z.claims {
        assert LeaseRuns(z, o, t, v, at);
      }
    }
  }

  /** As many runs, and none starts RUNNING. */
  ghost predicate Tamer(c: Case, c': Case) {
    |c'.runs| == |c.runs| && forall i :: IsRunning(c'.runs, i) ==> IsRunning(c.runs, i)
  }

  lemma {:induction false} RecoverItem(c: Case, from: nat, now: int)
    requires from <= |c.runs|
    ensures var c' := RecoverFrom(c, from, now);
      && Tamer(c, c')
      && (c'.item == c.item || (c'.item.Some? && !InHand(c'.item.value) && c'.item.value.owner.None?))
    decreases |c.runs| - from
  {
    if from < |c.runs| {
      var next := from + 1;
      RecoverItem(RecoverRun(c, from, now), next, now);
    }
  }

  lemma RecoverTimed(z: Slot, o: Opp, t: LeaseTable, now: int)
    requires SlotCoupled(z) && Timed(z, o, t, now)
    ensures Timed(z.(c := RecoverOp(z.c, now)), o, t, now)
  {
    var z' := z.(c := RecoverOp(z.c, now));
    RecoverItem(z.c, 0, now);
    if z'.c.item == z.c.item {
      SameItem(z, z', o, t, now);
    } else if WorkerMayLive(z.c, now) {
      LiveUntouched(z.c, 0, now);
    } else {
      ItemReturned(z, z', o, t, now);
    }
  }

  lemma VerdictItem(c: Case, l: Ledger, r: nat, v: Verdict)
    requires VerifyOp(c, l, r, v).Done?
    ensures var c' := VerifyOp(c, l, r, v).c;
      && Tamer(c, c')
      && (c'.item == c.item || (c'.item.Some? && !InHand(c'.item.value) && c'.item.value.owner.None?))
  {
  }

  lemma ConfirmItem(c: Case, l: Ledger, r: nat, submitted: bool)
    requires ConfirmOp(c, l, r, submitted).Done?
    ensures var c' := ConfirmOp(c, l, r, submitted).c;
      && Tamer(c, c')
      && (c'.item == c.item || (c'.item.Some? && !InHand(c'.item.value) && c'.item.value.owner.None?))
  {
  }

  /** A verdict or a person's action on an attempt that is not SUBMITTING. */
  lemma JudgedTimed(z: Slot, z': Slot, o: Opp, t: LeaseTable, at: int)
    requires SlotCoupled(z) && Timed(z, o, t, at) && Thinned(z, z')
    requires z.c.attempt.None? || z.c.attempt.value.status != Submitting
    requires z'.c.item == z.c.item || (z'.c.item.Some? && !InHand(z'.c.item.value) && z'.c.item.value.owner.None?)
    ensures Timed(z', o, t, at)
  {
    if z'.c.item == z.c.item {
      SameItem(z, z', o, t, at);
    } else {
      NobodyHolds(z);
      ItemReturned(z, z', o, t, at);
    }
  }

  lemma VerifyTimed(h: Hyps, z: Slot, l: Ledger, r: nat, v: Verdict, o: Opp, t: LeaseTable, at: int)
    requires h.quietVerdicts && SlotCoupled(z) && Timed(z, o, t, at)
    ensures Timed(ActVerify(h, z, l, r, v).slot, o, t, at)
  {
    if MayJudge(h, z) && VerifyOp(z.c, l, r, v).Done? {
      VerdictItem(z.c, l, r, v);
      JudgedTimed(z, ActVerify(h, z, l, r, v).slot, o, t, at);
    }
  }

  lemma ConfirmTimed(h: Hyps, z: Slot, l: Ledger, r: nat, submitted: bool, o: Opp, t: LeaseTable, at: int)
    requires h.quietVerdicts && SlotCoupled(z) && Timed(z, o, t, at)
    ensures Timed(ActConfirm(h, z, l, r, submitted).slot, o, t, at)
  {
    if MayJudge(h, z) && ConfirmOp(z.c, l, r, submitted).Done? {
      ConfirmItem(z.c, l, r, submitted);
      JudgedTimed(z, ActConfirm(h, z, l, r, submitted).slot, o, t, at);
    }
  }

  lemma ReopeningTimed(h: Hyps, z: Slot, l: Ledger, action: Action, o: Opp, t: LeaseTable, at: int)
    requires SlotCoupled(z) && Timed(z, o, t, at) && Reopening(action)
    ensures Timed(Act(h, z, l, action).slot, o, t, at)
  {
    match action
    case Retry(now) => RetryTimed(z, l, now, o, t, at);
    case CancelAttempt => CancelTimed(z, l, o, t, at);
  }

  lemma RetryTimed(z: Slot, l: Ledger, now: int, o: Opp, t: LeaseTable, at: int)
    requires SlotCoupled(z) && Timed(z, o, t, at)
    ensures Timed(OfReported(z, l, RetryOp(z.c, l, now), z.log + [Retried]).slot, o, t, at)
  {
    if RetryOp(z.c, l, now).Done? {
      JudgedTimed(z, OfReported(z, l, RetryOp(z.c, l, now), z.log + [Retried]).slot, o, t, at);
    }
  }

  lemma CancelTimed(z: Slot, l: Ledger, o: Opp, t: LeaseTable, at: int)
    requires SlotCoupled(z) && Timed(z, o, t, at)
    ensures Timed(OfReported(z, l, CancelOp(z.c, l), z.log).slot, o, t, at)
  {
    if CancelOp(z.c, l).Done? {
      JudgedTimed(z, OfReported(z, l, CancelOp(z.c, l), z.log).slot, o, t, at);
    }
  }

  /** The holder reports: its session ends with its hold. */
  lemma ReportTimed(h: Hyps, z: Slot, l: Ledger, w: Worker, res: Result, disowned: bool, now: int, o: Opp,
                    t: LeaseTable, at: int)
    requires h.claimHolders && h.quietVerdicts && SlotCoupled(z) && Timed(z, o, t, at)
    ensures Timed(ActReport(h, z, l, w, res, disowned, now).slot, o, t, at)
  {
    var z' := ActReport(h, z, l, w, res, disowned, now).slot;
    if z' != z {
      var r := z.sessions[w].run;
      HolderIsSubmitting(z, w);
      ReportEffect(if disowned then Unmarked(z.c, r) else z.c, l, w, r, res, now);
      assert z'.c.runs == z.c.runs[r := z'.c.runs[r]];
      Closing(z.c, r, z'.c.runs[r]);
      ReportedTimed(z, z', w, o, t, at);
    }
  }

  /** The holder's session is gone, nothing is RUNNING, and the item is in nobody's hands. */
  lemma ReportedTimed(z: Slot, z': Slot, w: Worker, o: Opp, t: LeaseTable, at: int)
    requires SlotCoupled(z) && Timed(z, o, t, at) && Holding(z, w)
    requires z'.sessions == z.sessions - {w} && z'.claims == z.claims
    requires Coupling.Idle(z'.c.runs) && z'.c.item.Some? && !InHand(z'.c.item.value)
    ensures Timed(z', o, t, at)
  {
    RemainingUnheld(z, w);
    forall v ensures !LeaseRuns(z', o, t, v, at) {
      assert LeaseRuns(z', o, t, v, at) ==> LeaseRuns(z, o, t, v, at) && Holding(z, v);
    }
  }

  /** The extension is let through by the owner's own lease, whoever started the run. */
  lemma ExtensionTimed(z: Slot, l: Ledger, w: Worker, call: Call, o: Opp, t: LeaseTable, at: int)
    requires SlotCoupled(z) && Timed(z, o, t, at)
    ensures Timed(ActExtensionGate(z, l, w, call).slot, o, t, at)
  {
    var running := CrashedRun(z.c.runs);
    if z.c.item.Some? && z.c.attempt.Some? && running.Some? {
      ExtensionGateOpKeeps(z.c, l, w, call);
      var g := ExtensionGateOp(z.c, l, w, call);
      var z1 := z.(c := g.c);
      SameItem(z, z1, o, t, at);
      if g.ok {
        LetThroughTimed(z1, w, running.value, o, t, at);
        assert ActExtensionGate(z, l, w, call).slot
          == z1.(sessions := z1.sessions[w := Session(running.value, z1.claims, Granted)]);
      } else {
        assert ActExtensionGate(z, l, w, call).slot == z1;
      }
    }
  }

  lemma LetThroughTimed(z: Slot, w: Worker, r: nat, o: Opp, t: LeaseTable, at: int)
    requires Timed(z, o, t, at) && IsRunning(z.c.runs, r) && z.c.item.Some? && Owns(z.c.item.value, w)
    ensures Timed(z.(sessions := z.sessions[w := Session(r, z.claims, Granted)]), o, t, at)
  {
    var z' := z.(sessions := z.sessions[w := Session(r, z.claims, Granted)]);
    forall v | LeaseRuns(z', o, t, v, at) ensures Holding(z', v) {
      assert v != w ==> LeaseRuns(z, o, t, v, at);
    }
  }

  lemma StartTimed(z: Slot, l: Ledger, w: Worker, call: Call, kit: Kit, o: Opp, t: LeaseTable, at: int)
    requires SlotCoupled(z) && Timed(z, o, t, at) && z.c.item.Some?
    ensures Timed(AfterStart(z, w, StartOp(z.c, l, w, call, kit)).slot, o, t, at)
  {
    var step := StartOp(z.c, l, w, call, kit);
    if !HeldBy(z.c.item.value, w) {
      SameItem(z, AfterStart(z, w, step).slot, o, t, at);
    } else {
      RemainingUnheld(z, w);
      if z.c.attempt.Some? {
        StartShape(z.c, l, w, call, kit);
        StartLease(z.c, l, w, call, kit);
      }
      StartedTimed(z, w, step, o, t, at);
    }
  }

  /** A run opens under the lease the item has. */
  lemma StartLease(c: Case, l: Ledger, w: Worker, call: Call, kit: Kit)
    requires Coupled(c) && c.item.Some? && c.attempt.Some? && HeldBy(c.item.value, w)
    ensures var step := StartOp(c, l, w, call, kit);
      step.outcome.Started? ==> step.c.item.Some? && step.c.item.value.lease == c.item.value.lease
  {
  }

  /** The starting worker's own session is gone, and no other is of the latest claim. */
  lemma StartedTimed(z: Slot, w: Worker, step: StartStep, o: Opp, t: LeaseTable, at: int)
    requires SlotCoupled(z) && Timed(z, o, t, at) && z.c.item.Some? && HeldBy(z.c.item.value, w)
    requires forall v :: v in z.sessions && v != w ==> z.sessions[v].claim < z.claims
    requires step.c.item.Some?
    requires if step.outcome.Started?
      then Opens(z.c, step.c, w, step.outcome.run) && step.c.item.value.lease == z.c.item.value.lease
             else !InHand(step.c.item.value) && Coupling.Idle(step.c.runs)
    ensures Timed(AfterStart(z, w, step).slot, o, t, at)
  {
    var z' := AfterStart(z, w, step).slot;
    forall v | LeaseRuns(z', o, t, v, at) ensures Holding(z', v) {
      assert v != w ==> LeaseRuns(z, o, t, v, at);
    }
  }

  lemma StaleTimed(z: Slot, l: Ledger, w: Worker, o: Opp, t: LeaseTable, at: int)
    requires SlotCoupled(z) && Timed(z, o, t, at)
    ensures Timed(ActStartStale(z, l, w).slot, o, t, at)
  {
    if z.c.item.Some? && z.c.attempt.Some? && HeldBy(z.c.item.value, w) {
      var c := SetItem(z.c, z.c.item.value.(state := Processing));
      var step := TakeMutex(z.c, c, l, l, w);
      RemainingUnheld(z, w);
      if step.outcome.Started? {
        NotSubmittingIdle(z.c);
        TakeMutexShape(z.c, c, l, l, w);
        StartedTimed(z, w, step, o, t, at);
      } else {
        LostRaceTimed(z, w, step, o, t, at);
      }
    }
  }

  /** The race was lost: the item is given back and only the worker's own session is gone. */
  lemma LostRaceTimed(z: Slot, w: Worker, step: StartStep, o: Opp, t: LeaseTable, at: int)
    requires SlotCoupled(z) && Timed(z, o, t, at) && z.c.item.Some? && HeldBy(z.c.item.value, w)
    requires forall v :: v in z.sessions && v != w ==> z.sessions[v].claim < z.claims
    requires step.outcome.LostRace? && step.c == SetItem(z.c, Release(z.c.item.value))
    ensures Timed(AfterStart(z, w, step).slot, o, t, at)
  {
    ItemReturned(z, AfterStart(z, w, step).slot, o, t, at);
  }

  /** Steps of a worker within its run: the item is left alone. */
  lemma InRunTimed(h: Hyps, z: Slot, l: Ledger, action: Action, o: Opp, t: LeaseTable, at: int)
    requires Timed(z, o, t, at) && InRun(action)
    ensures Timed(Act(h, z, l, action).slot, o, t, at)
  {
    if action.Gate? {
      GateItem(z.c, l, 0, action.call);
    }
    SameItem(z, Act(h, z, l, action).slot, o, t, at);
  }

  lemma SchedulingTimed(h: Hyps, z: Slot, l: Ledger, action: Action, o: Opp, t: LeaseTable, at: int)
    requires Timed(z, o, t, at) && Scheduling(action)
    ensures Timed(Act(h, z, l, action).slot, o, t, at)
  {
    SameItem(z, Act(h, z, l, action).slot, o, t, at);
  }

  lemma GateItem(c: Case, l: Ledger, w: Worker, call: Call)
    ensures GateOp(c, l, call).c.item == c.item && GateOp(c, l, call).c.runs == c.runs
    ensures c.item.Some? ==> var g := ExtensionGateOp(c, l, w, call);
      g.c.item == c.item && Tamer(c, g.c)
  {
    if c.attempt.Some? {
      EvaluateKeeps(call.facts, c.attempt.value, l, call.policy, call.keys, true);
    }
  }

  /** The queue's own actions on an item nobody's running lease protects. */
  lemma QueueTimed(z: Slot, l: Ledger, action: Action, o: Opp, t: LeaseTable, at: int)
    requires SlotCoupled(z) && Timed(z, o, t, at)
    requires action.Enqueue? || action.ExpireLease? || action.QueueRequeue? || action.QueueCancel?
    requires Reads(action).Some? ==> Reads(action).value == at
    requires action.QueueCancel? && z.c.item.Some? ==> !InHand(z.c.item.value)
    ensures Timed(ActQueue(z, l, action).slot, o, t, at)
  {
    var z' := ActQueue(z, l, action).slot;
    if z'.c.item == z.c.item {
      SameItem(z, z', o, t, at);
    } else {
      ItemReturned(z, z', o, t, at);
    }
  }

  lemma LeasingTimed(s: State, step: Label, t: LeaseTable, at: int)
    requires var z := At(s, step.opp); SlotCoupled(z) && Timed(z, step.opp, t, at)
    requires InTime(s, t, step, at) && (step.action.ClaimItem? || step.action.Heartbeat?)
    ensures Timed(ActQueue(At(s, step.opp), s.ledger, step.action).slot, step.opp, Given(s, t, step), at)
  {
    var z, o := At(s, step.opp), step.opp;
    if z.c.item.Some? {
      match step.action
      case ClaimItem(w, now, until) =>
        if Claimable(z.c.item.value, now) { ClaimTimed(z, o, t, w, now, until); }
      case Heartbeat(w, until) => if Owns(z.c.item.value, w) { HeartbeatTimed(z, o, t, w, until, at); }
    }
  }

  lemma StartingTimed(h: Hyps, z: Slot, l: Ledger, action: Action, o: Opp, t: LeaseTable, at: int)
    requires SlotCoupled(z) && Timed(z, o, t, at) && Starting(action)
    requires Reads(action).Some? ==> Reads(action).value == at
    ensures Timed(Act(h, z, l, action).slot, o, t, at)
  {
    match action
    case Start(w, call, kit) => if z.c.item.Some? { StartTimed(z, l, w, call, kit, o, t, at); }
    case StartStale(w) => StaleTimed(z, l, w, o, t, at);
    case Recover(now) => RecoverTimed(z, o, t, now);
  }

  lemma JoiningTimed(h: Hyps, z: Slot, l: Ledger, action: Action, o: Opp, t: LeaseTable, at: int)
    requires h.claimHolders && h.quietVerdicts && SlotCoupled(z) && Timed(z, o, t, at) && Joining(action)
    ensures Timed(Act(h, z, l, action).slot, o, t, at)
  {
    match action
    case ExtensionGate(w, call) => ExtensionTimed(z, l, w, call, o, t, at);
    case ReportResult(w, res, disowned, now) => ReportTimed(h, z, l, w, res, disowned, now, o, t, at);
    case ForeignReport(w, res, now) => assert Act(h, z, l, action).slot == z;
    case Crash(w) => SameItem(z, Act(h, z, l, action).slot, o, t, at);
  }

  lemma JudgingTimed(h: Hyps, z: Slot, l: Ledger, action: Action, o: Opp, t: LeaseTable, at: int)
    requires h.quietVerdicts && SlotCoupled(z) && Timed(z, o, t, at) && Judging(action)
    ensures Timed(Act(h, z, l, action).slot, o, t, at)
  {
    match action
    case Verify(r, v) => VerifyTimed(h, z, l, r, v, o, t, at);
    case Confirm(r, submitted) => ConfirmTimed(h, z, l, r, submitted, o, t, at);
  }

  lemma ActTimed(h: Hyps, s: State, step: Label, t: LeaseTable, at: int)
    requires h.claimHolders && h.quietVerdicts
    requires var z := At(s, step.opp); SlotCoupled(z) && Timed(z, step.opp, t, at)
    requires InTime(s, t, step, at) && LeavesItemInHand(s, step)
    ensures Timed(Act(h, At(s, step.opp), s.ledger, step.action).slot, step.opp, Given(s, t, step), at)
  {
    var z, l, o := At(s, step.opp), s.ledger, step.opp;
    var action := step.action;
    if Scheduling(action) {
      SchedulingTimed(h, z, l, action, o, t, at);
    } else if action.ClaimItem? || action.Heartbeat? {
      LeasingTimed(s, step, t, at);
    } else if Queueing(action) {
      QueueTimed(z, l, action, o, t, at);
    } else if Starting(action) {
      StartingTimed(h, z, l, action, o, t, at);
    } else if InRun(action) {
      InRunTimed(h, z, l, action, o, t, at);
    } else if Joining(action) {
      JoiningTimed(h, z, l, action, o, t, at);
    } else if Judging(action) {
      JudgingTimed(h, z, l, action, o, t, at);
    } else {
      ReopeningTimed(h, z, l, action, o, t, at);
    }
  }

  // ------------------------------------------------------- the rule never bites

  /** A step in time is the same step whether or not the claim rule is enforced. */
  lemma RuleNeverBites(h: Hyps, s: State, step: Label, t: LeaseTable, at: int)
    requires Timed(At(s, step.opp), step.opp, t, at) && InTime(s, t, step, at) && !step.action.ForeignReport?
    ensures Act(h.(claimHolders := false), At(s, step.opp), s.ledger, step.action)
      == Act(h.(claimHolders := true), At(s, step.opp), s.ledger, step.action)
  {
    var z := At(s, step.opp);
    var w := Actor(step.action);
    if w.Some? {
      assert w.value in z.sessions ==> LeaseRuns(z, step.opp, t, w.value, at) && Holding(z, w.value);
      assert MayAct(h.(claimHolders := false), z, w.value) <==> MayAct(h.(claimHolders := true), z, w.value);
    }
  }

  /** Elsewhere a step changes nothing that is timed. */
  lemma OtherGiven(s: State, t: LeaseTable, step: Label, z: Slot, o: Opp, at: int)
    requires o != step.opp && Timed(z, o, t, at)
    ensures Timed(z, o, Given(s, t, step), at)
  {
    var t' := Given(s, t, step);
    assert forall k: nat :: (o, k) in t' <==> (o, k) in t;
    assert forall k: nat :: (o, k) in t ==> t'[(o, k)] == t[(o, k)];
    forall w | LeaseRuns(z, o, t', w, at) ensures Holding(z, w) {
      assert LeaseRuns(z, o, t, w, at);
    }
  }

  ghost predicate AllTimed(s: State, t: LeaseTable, at: int) {
    forall o: Opp :: Timed(At(s, o), o, t, at)
  }

  lemma StepTimed(h: Hyps, s: State, step: Label, t: LeaseTable, at: int)
    requires h.claimHolders && h.quietVerdicts && AllCoupled(s) && AllTimed(s, t, at)
    requires InTime(s, t, step, at) && LeavesItemInHand(s, step)
    ensures AllTimed(Next(h, s, step), Given(s, t, step), at)
  {
    assert SlotCoupled(EmptySlot);
    assert Timed(At(s, step.opp), step.opp, t, at);
    ActTimed(h, s, step, t, at);
    forall o: Opp ensures Timed(At(Next(h, s, step), o), o, Given(s, t, step), at) {
      if o != step.opp {
        assert Timed(At(s, o), o, t, at);
        OtherGiven(s, t, step, At(s, o), o, at);
      }
    }
  }

  lemma OnTimePrefix(h: Hyps, steps: seq<Label>, clock: seq<int>, n: nat)
    requires OnTime(h, steps, clock) && Orderly(h, steps) && n <= |steps|
    ensures OnTime(h, steps[..n], clock[..n]) && Orderly(h, steps[..n])
  {
    forall m | 0 <= m < n
      ensures InTime(After(h, steps[..n][..m]), LeasesAfter(h, steps[..n][..m]), steps[..n][m], clock[..n][m])
      ensures LeavesItemInHand(After(h, steps[..n][..m]), steps[..n][m])
    {
      assert steps[..n][..m] == steps[..m];
    }
  }

  /** LEASES ARE ENOUGH. A timed run in which no item in hand is cancelled and nobody reports on a run it has
      no part in goes exactly as if the claim rule were enforced: whoever acts holds its item under its
      claim. */
  lemma {:induction false} LeasesEnforceClaims(h: Hyps, steps: seq<Label>, clock: seq<int>)
    requires h.quietVerdicts && !h.claimHolders && OnTime(h, steps, clock) && Orderly(h, steps)
    ensures After(h, steps) == After(h.(claimHolders := true), steps)
    ensures AllTimed(After(h, steps), LeasesAfter(h, steps), if steps == [] then 0 else clock[|steps| - 1])
  {
    if steps != [] {
      var n := |steps| - 1;
      OnTimePrefix(h, steps, clock, n);
      LeasesEnforceClaims(h, steps[..n], clock[..n]);
      var s, t := After(h, steps[..n]), LeasesAfter(h, steps[..n]);
      Reachable(h.(claimHolders := true), steps[..n]);
      forall o: Opp ensures Timed(At(s, o), o, t, clock[n]) {
        if n == 0 {
          assert At(s, o) == EmptySlot;
        } else {
          Later(At(s, o), o, t, clock[n - 1], clock[n]);
        }
      }
      RuleNeverBites(h, s, steps[n], t, clock[n]);
      StepTimed(h.(claimHolders := true), s, steps[n], t, clock[n]);
    }
  }

  /** In a timed run whoever takes a worker's step holds the item under its claim. */
  lemma ActorsHold(h: Hyps, steps: seq<Label>, clock: seq<int>, n: nat)
    requires h.quietVerdicts && !h.claimHolders && OnTime(h, steps, clock) && Orderly(h, steps) && n < |steps|
    ensures var z := At(After(h, steps[..n]), steps[n].opp); var w := Actor(steps[n].action);
      w.Some? && w.value in z.sessions ==> Holding(z, w.value)
  {
    OnTimePrefix(h, steps, clock, n);
    LeasesEnforceClaims(h, steps[..n], clock[..n]);
    var s, t, o := After(h, steps[..n]), LeasesAfter(h, steps[..n]), steps[n].opp;
    if n == 0 {
      assert At(s, o) == EmptySlot;
    } else {
      Later(At(s, o), o, t, clock[n - 1], clock[n]);
    }
  }

  /** AT MOST ONCE, ON TIME. With honest executors (H1), workers that stop when their lease runs out (H2), no
      verdict on a SUBMITTING attempt (H3), no cancelling of an item in a worker's hands and no report on a run
      of others, two presses of one attempt are separated by a FAILED verdict on it and then a person's
      retry. */
  lemma AtMostOnePressOnTime(h: Hyps, steps: seq<Label>, clock: seq<int>, o: Opp, i: nat, j: nat)
    requires h == Hyps(true, false, true) && OnTime(h, steps, clock) && Orderly(h, steps)
    requires var log := At(After(h, steps), o).log; i < j < |log| && log[i].Press? && log[j].Press?
    ensures DeniedThenRetried(At(After(h, steps), o).log, i, j)
  {
    LeasesEnforceClaims(h, steps, clock);
    AtMostOnePress(ALL, steps, o, i, j);
  }

  /** And it is the run that pressed which was denied, if denials are about the latest execution. */
  lemma DenialConcernsThePressOnTime(h: Hyps, steps: seq<Label>, clock: seq<int>, o: Opp, i: nat, j: nat)
    requires h == Hyps(true, false, true) && OnTime(h, steps, clock) && Orderly(h, steps)
    requires DenialsConcernLatest(h, steps)
    requires var log := At(After(h, steps), o).log; i < j < |log| && log[i].Press? && log[j].Press?
    ensures var log := At(After(h, steps), o).log; OwnDenialThenRetry(log, log[i].run, i, j)
  {
    LeasesEnforceClaims(h, steps, clock);
    forall n | 0 <= n < |steps| ensures DeniesLatest(At(After(ALL, steps[..n]), steps[n].opp), steps[n].action) {
      OnTimePrefix(h, steps, clock, n);
      LeasesEnforceClaims(h, steps[..n], clock[..n]);
    }
    DenialConcernsThePress(ALL, steps, o, i, j);
  }

  /** Or if retries are accepted only once every run with `submit_invoked` on record was denied. */
  lemma GuardedRetrySufficesOnTime(h: Hyps, steps: seq<Label>, clock: seq<int>, o: Opp, i: nat, j: nat)
    requires h == Hyps(true, false, true) && OnTime(h, steps, clock) && Orderly(h, steps)
    requires RetriesGuarded(h, steps)
    requires var log := At(After(h, steps), o).log; i < j < |log| && log[i].Press? && log[j].Press?
    ensures var log := At(After(h, steps), o).log; OwnDenialThenRetry(log, log[i].run, i, j)
  {
    LeasesEnforceClaims(h, steps, clock);
    forall n | 0 <= n < |steps| && steps[n].action.Retry?
      ensures AllDenied(At(After(ALL, steps[..n]), steps[n].opp).c.runs)
    {
      OnTimePrefix(h, steps, clock, n);
      LeasesEnforceClaims(h, steps[..n], clock[..n]);
    }
    GuardedRetrySuffices(ALL, steps, o, i, j);
  }

  /** The coupling of attempt and run needs no more either. */
  lemma CouplingOnTime(h: Hyps, steps: seq<Label>, clock: seq<int>)
    requires h.quietVerdicts && !h.claimHolders && OnTime(h, steps, clock) && Orderly(h, steps)
    ensures AllCoupled(After(h, steps))
  {
    LeasesEnforceClaims(h, steps, clock);
    Reachable(h.(claimHolders := true), steps);
  }
}
