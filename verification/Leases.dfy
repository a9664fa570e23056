/** Why the claim rule (H2) is what a lease is for: a live lease keeps the item in its worker's hands. */
module Leases {
  import opened Base
  import opened Lifecycle
  import opened WorkQueue
  import opened Caps
  import opened Preconditions
  import opened Execution
  import opened Protocol
  import opened Coupling
  import opened Recovery

  /** The clock an action reads, if the queue's leases matter to it. */
  function Reads(action: Action): Option<int> {
    match action
    case ClaimItem(_, now, _) => Some(now)
    case ExpireLease(now) => Some(now)
    case Recover(now) => Some(now)
    case _ => None
  }

  /** What ends the hold of worker `w` on purpose: its own report, crash or new start, a changed lease, and a
      person cancelling the queue item. */
  predicate EndsHold(action: Action, w: Worker) {
    match action
    case ReportResult(v, _, _, _) => v == w
    case Crash(v) => v == w
    case Start(v, _, _) => v == w
    case StartStale(v) => v == w
    case Heartbeat(v, _) => v == w
    case QueueCancel => true
    case _ => false
  }

  lemma HolderIsSubmitting(z: Slot, w: Worker)
    requires SlotCoupled(z) && Holding(z, w)
    ensures IsRunning(z.c.runs, z.sessions[w].run) && z.c.attempt.Some? && z.c.attempt.value.status == Submitting
    ensures forall v: Worker :: Holding(z, v) ==> v == w
  {
    assert IsRunning(z.c.runs, z.sessions[w].run);
  }

  /** A live lease protects its holder: as long as no clock reads past the lease, nothing but the worker's
      own steps and a cancelled queue item takes the item away. `TimedRuns` carries this through whole runs. */
  lemma LeaseProtectsHolder(h: Hyps, z: Slot, l: Ledger, action: Action, w: Worker)
    requires h.claimHolders && h.quietVerdicts && SlotCoupled(z) && Holding(z, w)
    requires z.c.item.value.lease.Some? && (Reads(action).Some? ==> Reads(action).value <= z.c.item.value.lease.value)
    requires !EndsHold(action, w)
    ensures Holding(Act(h, z, l, action).slot, w)
  {
    HolderIsSubmitting(z, w);
    if Starting(action) {
      match action
      case Recover(now) =>
        assert Live(z.c.item.value, now);
        LiveUntouched(z.c, 0, now);
      case Start(v, call, kit) => assert !HeldBy(z.c.item.value, v);
      case StartStale(v) => assert !HeldBy(z.c.item.value, v);
    } else if InRun(action) {
      InRunLeavesHolder(h, z, l, action, w);
    } else if Joining(action) {
      JoiningLeavesHolder(h, z, l, action, w);
    }
  }

  /** What workers do in their runs takes nothing from the holder. */
  lemma InRunLeavesHolder(h: Hyps, z: Slot, l: Ledger, action: Action, w: Worker)
    requires Holding(z, w) && z.c.attempt.Some? && InRun(action)
    ensures Holding(Act(h, z, l, action).slot, w)
  {
    match action
    case Gate(v, call) => GateLeavesHolder(h, z, l, v, call, w);
    case _ =>
  }

  lemma JoiningLeavesHolder(h: Hyps, z: Slot, l: Ledger, action: Action, w: Worker)
    requires h.claimHolders && SlotCoupled(z) && Holding(z, w) && !EndsHold(action, w) && Joining(action)
    ensures Holding(Act(h, z, l, action).slot, w)
  {
    match action
    case ExtensionGate(v, call) => ExtensionLeavesHolder(z, l, v, call, w);
    case ReportResult(v, res, disowned, now) => ReportLeavesHolder(h, z, l, v, res, disowned, now, w);
    case ForeignReport(v, res, now) => assert ActForeignReport(h, z, l, v, res, now).slot == z;
    case Crash(v) =>
  }

  lemma GateLeavesHolder(h: Hyps, z: Slot, l: Ledger, v: Worker, call: Call, w: Worker)
    requires Holding(z, w) && z.c.attempt.Some?
    ensures Holding(ActGate(h, z, l, v, call).slot, w)
  {
    GateOpKeeps(z.c, l, call);
  }

  lemma ReportLeavesHolder(h: Hyps, z: Slot, l: Ledger, v: Worker, res: Result, disowned: bool, now: int, w: Worker)
    requires h.claimHolders && SlotCoupled(z) && Holding(z, w) && v != w
    ensures ActReport(h, z, l, v, res, disowned, now).slot == z
  {
    HolderIsSubmitting(z, w);
    assert !MayAct(h, z, v);
  }

  lemma ExtensionLeavesHolder(z: Slot, l: Ledger, v: Worker, call: Call, w: Worker)
    requires SlotCoupled(z) && Holding(z, w)
    ensures Holding(ActExtensionGate(z, l, v, call).slot, w)
  {
    HolderIsSubmitting(z, w);
    ExtensionGateOpKeeps(z.c, l, v, call);
  }
}
