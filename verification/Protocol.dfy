/** The submission protocol as a state machine: workers, crashes, recoveries, verdicts and people,
    in every interleaving, over any number of opportunities. */
module Protocol {
  import opened Base
  import opened Lifecycle
  import opened WorkQueue
  import opened Caps
  import opened Preconditions
  import opened Execution

  type Opp = nat

  // ------------------------------------------------------------------- state

  /** Where a worker is in the run it works on. A worker may press submit once, after its gate passed. */
  datatype Phase = Opened | Armed | Granted | Pressed

  /** A worker's hold on a run, which it started or was let through to press in: the claim of the item under
      which it began, and how far it got. */
  datatype Session = Session(run: nat, claim: nat, phase: Phase)

  datatype Event = Press(run: nat) | Denied(run: nat) | Retried

  /** One opportunity: its records, the workers' sessions (a worker is one sequential process and has at most
      one), the number of claims made so far, and the history of what matters for double submission. */
  datatype Slot = Slot(c: Case, sessions: map<Worker, Session>, claims: nat, log: seq<Event>)

  datatype State = State(slots: map<Opp, Slot>, ledger: Ledger)

  const EmptySlot := Slot(Case(None, None, []), map[], 0, [])

  function At(s: State, o: Opp): Slot {
    if o in s.slots then s.slots[o] else EmptySlot
  }

  // -------------------------------------------------------------- hypotheses

  /** The three hypotheses about the outside world, each of which can be dropped.
      executorsHonest (H1): a result other than SUBMITTED or UNKNOWN, or an error marked
        `before_submit`, means submit was not pressed.
      claimHolders (H2): a worker acts only while it holds the item under the claim it began with, and
        reports only on a run that it started or was let through to press in. A worker that stops when its
        lease lapses satisfies the first part unless a person cancels the queue item under it (proved in
        TimedRuns).
      quietVerdicts (H3): no verdict is applied while the attempt is SUBMITTING. */
  datatype Hyps = Hyps(executorsHonest: bool, claimHolders: bool, quietVerdicts: bool)

  const ALL := Hyps(true, true, true)

  // ------------------------------------------------------------------- steps

  datatype Action =
    | Admit(call: Call)
    | BeginPreparing
    | MarkReady
    | Enqueue(now: int)
    | ClaimItem(w: Worker, now: int, until: int)
    | Heartbeat(w: Worker, until: int)
    | ExpireLease(now: int)
    | QueueCancel
    | QueueRequeue(now: int)
    | Start(w: Worker, call: Call, kit: Kit)
    | StartStale(w: Worker)
    | Arm(w: Worker)
    | Gate(w: Worker, call: Call)
    | ExtensionGate(w: Worker, call: Call)
    | PressSubmit(w: Worker)
    | ReportResult(w: Worker, res: Result, disowned: bool, now: int)
    | ForeignReport(w: Worker, res: Result, now: int)
    | Crash(w: Worker)
    | Recover(now: int)
    | Verify(run: nat, verdict: Verdict)
    | Confirm(run: nat, submitted: bool)
    | Retry(now: int)
    | CancelAttempt

  // Kinds of action.
  predicate Scheduling(a: Action) { a.Admit? || a.BeginPreparing? || a.MarkReady? }
  predicate Queueing(a: Action) {
    a.Enqueue? || a.ClaimItem? || a.Heartbeat? || a.ExpireLease? || a.QueueCancel? || a.QueueRequeue?
  }
  predicate Starting(a: Action) { a.Start? || a.StartStale? || a.Recover? }
  predicate InRun(a: Action) { a.Arm? || a.Gate? || a.PressSubmit? }
  predicate Joining(a: Action) { a.ExtensionGate? || a.ReportResult? || a.ForeignReport? || a.Crash? }
  predicate Judging(a: Action) { a.Verify? || a.Confirm? }
  predicate Reopening(a: Action) { a.Retry? || a.CancelAttempt? }

  datatype Label = Label(opp: Opp, action: Action)

  datatype Moved = Moved(slot: Slot, ledger: Ledger)

  /** The worker still holds the item under the claim it began with. */
  predicate Holding(z: Slot, w: Worker) {
    && w in z.sessions && z.sessions[w].run < |z.c.runs|
    && z.c.item.Some? && HeldBy(z.c.item.value, w)
    && z.sessions[w].claim == z.claims
  }

  /** May the worker take a step in its run now? */
  predicate MayAct(h: Hyps, z: Slot, w: Worker) {
    && w in z.sessions && z.sessions[w].run < |z.c.runs| && z.c.attempt.Some? && z.c.item.Some?
    && (h.claimHolders ==> Holding(z, w))
  }

  predicate MayJudge(h: Hyps, z: Slot) {
    h.quietVerdicts ==> z.c.attempt.Some? && z.c.attempt.value.status != Submitting
  }

  function DenialIn(res: Result): bool {
    res.outcome.Submitted? && res.verification == Some(VerdictFailed)
  }

  /** A sequential worker that starts the item again has abandoned what it did before. */
  function AfterStart(z: Slot, w: Worker, step: StartStep): Moved {
    var others := z.sessions - {w};
    Moved(
      z.(c := step.c,
         sessions :=
           if step.outcome.Started? then others[w := Session(step.outcome.run, z.claims, Opened)] else others),
      step.ledger)
  }

  /** The worker of this session is one phase further. */
  function Advanced(z: Slot, w: Worker, phase: Phase): map<Worker, Session>
    requires w in z.sessions
  {
    z.sessions[w := z.sessions[w].(phase := phase)]
  }

  function OfReported(z: Slot, l: Ledger, rep: Reported, log: seq<Event>): Moved {
    if rep.Done? then Moved(z.(c := rep.c, log := log), rep.ledger) else Moved(z, l)
  }

  /** What an action does to its opportunity and the ledger. A disabled action changes nothing. */
  function Act(h: Hyps, z: Slot, l: Ledger, action: Action): Moved {
    match action
    case Admit(call) => ActAdmit(z, l, call)
    case BeginPreparing => ActPrepare(z, l, Qualified, Preparing)
    case MarkReady => ActPrepare(z, l, Preparing, Ready)
    case Enqueue(_) => ActQueue(z, l, action)
    case ClaimItem(_, _, _) => ActQueue(z, l, action)
    case Heartbeat(_, _) => ActQueue(z, l, action)
    case ExpireLease(_) => ActQueue(z, l, action)
    case QueueCancel => ActQueue(z, l, action)
    case QueueRequeue(_) => ActQueue(z, l, action)
    case Start(w, call, kit) => ActStart(z, l, w, call, kit)
    case StartStale(w) => ActStartStale(z, l, w)
    case Arm(w) => ActArm(h, z, l, w)
    case Gate(w, call) => ActGate(h, z, l, w, call)
    case ExtensionGate(w, call) => ActExtensionGate(z, l, w, call)
    case PressSubmit(w) => ActPress(h, z, l, w)
    case ReportResult(w, res, disowned, now) => ActReport(h, z, l, w, res, disowned, now)
    case ForeignReport(w, res, now) => ActForeignReport(h, z, l, w, res, now)
    case Crash(w) => Moved(z.(sessions := z.sessions - {w}), l)
    case Recover(now) => Moved(z.(c := RecoverOp(z.c, now)), l)
    case Verify(r, v) => ActVerify(h, z, l, r, v)
    case Confirm(r, submitted) => ActConfirm(h, z, l, r, submitted)
    case Retry(now) => OfReported(z, l, RetryOp(z.c, l, now), z.log + [Retried])
    case CancelAttempt => OfReported(z, l, CancelOp(z.c, l), z.log)
  }

  /** An attempt on its way to READY. */
  function ActPrepare(z: Slot, l: Ledger, from: Status, to: Status): Moved {
    if z.c.attempt.Some? && z.c.attempt.value.status == from
    then Moved(z.(c := SetAttempt(z.c, z.c.attempt.value.(status := to))), l)
    else Moved(z, l)
  }

  /** The queue's own actions. */
  function ActQueue(z: Slot, l: Ledger, action: Action): Moved {
    if z.c.item.None? then
      if action.Enqueue? then Moved(z.(c := SetItem(z.c, Fresh(MAX_ATTEMPTS, action.now))), l) else Moved(z, l)
    else
      var it := z.c.item.value;
      var claims := z.claims + if action.ClaimItem? && Claimable(it, action.now) then 1 else 0;
      Moved(z.(c := SetItem(z.c, QueueStep(it, action)), claims := claims), l)
  }

  /** What a queue action makes of the item; a refused one leaves it. */
  function QueueStep(it: Item, action: Action): Item {
    match action
    case ClaimItem(w, now, until) => if Claimable(it, now) then Claim(it, w, until) else it
    case Heartbeat(w, until) => if Owns(it, w) then it.(lease := Some(until)) else it
    case ExpireLease(now) => if Lapsed(it, now) then Expire(it) else it
    case QueueCancel => if !it.state.Succeeded? then Cancel(it) else it
    case QueueRequeue(now) => if Parked(it) || it.state.RetryWait? then Requeue(it, now) else it
    case _ => it
  }

  function ActStart(z: Slot, l: Ledger, w: Worker, call: Call, kit: Kit): Moved {
    if z.c.item.Some? then AfterStart(z, w, StartOp(z.c, l, w, call, kit)) else Moved(z, l)
  }

  function ActArm(h: Hyps, z: Slot, l: Ledger, w: Worker): Moved {
    if MayAct(h, z, w) && z.sessions[w].phase.Opened?
    then Moved(z.(c := Marked(z.c, z.sessions[w].run), sessions := Advanced(z, w, Armed)), l)
    else Moved(z, l)
  }

  function ActPress(h: Hyps, z: Slot, l: Ledger, w: Worker): Moved {
    if MayAct(h, z, w) && z.sessions[w].phase.Granted?
    then Moved(z.(sessions := Advanced(z, w, Pressed), log := z.log + [Press(z.sessions[w].run)]), l)
    else Moved(z, l)
  }

  function ActVerify(h: Hyps, z: Slot, l: Ledger, r: nat, v: Verdict): Moved {
    if MayJudge(h, z)
    then OfReported(z, l, VerifyOp(z.c, l, r, v), if v.VerdictFailed? then z.log + [Denied(r)] else z.log)
    else Moved(z, l)
  }

  function ActConfirm(h: Hyps, z: Slot, l: Ledger, r: nat, submitted: bool): Moved {
    if MayJudge(h, z)
    then OfReported(z, l, ConfirmOp(z.c, l, r, submitted), if submitted then z.log else z.log + [Denied(r)])
    else Moved(z, l)
  }

  /** The scheduler admits an opportunity that has no attempt yet: a new row with a cap slot. */
  function ActAdmit(z: Slot, l: Ledger, call: Call): Moved {
    if z.c.attempt.Some? then Moved(z, l)
    else
      var (l1, refusal) := Reserve(l, call.keys.day, call.keys.week, call.policy.dailyCap, call.policy.weeklyCap);
      if refusal.Some? then Moved(z, l1)
      else
        var a := Attempt(Qualified, None, 1, 0, true, false, Some(call.keys.day), Some(call.keys.week));
        Moved(z.(c := SetAttempt(z.c, a)), l1)
  }

  /** `start` from a stale read: whatever it saw, only the guarded UPDATE decides. */
  function ActStartStale(z: Slot, l: Ledger, w: Worker): Moved {
    if z.c.item.Some? && z.c.attempt.Some? && HeldBy(z.c.item.value, w)
    then AfterStart(z, w, TakeMutex(z.c, SetItem(z.c, z.c.item.value.(state := Processing)), l, l, w))
    else Moved(z, l)
  }

  /** `submit_invoked` goes on record. */
  function Marked(c: Case, r: nat): Case
    requires r < |c.runs|
  {
    SetRun(c, r, c.runs[r].(submitInvoked := true))
  }

  function ActGate(h: Hyps, z: Slot, l: Ledger, w: Worker, call: Call): Moved {
    if MayAct(h, z, w) && z.sessions[w].phase.Armed? then
      var g := GateOp(z.c, l, call);
      Moved(z.(c := g.c, sessions := if g.ok then Advanced(z, w, Granted) else z.sessions), g.ledger)
    else Moved(z, l)
  }

  /** The extension's call asks who owns the item, not who started the running run: whoever passes may
      press in that run, under the claim it has now. */
  function ActExtensionGate(z: Slot, l: Ledger, w: Worker, call: Call): Moved {
    if z.c.item.None? then Moved(z, l)
    else
      var g := ExtensionGateOp(z.c, l, w, call);
      var running := CrashedRun(z.c.runs);
      Moved(z.(c := g.c,
               sessions := if g.ok && running.Some? then z.sessions[w := Session(running.value, z.claims, Granted)]
                           else z.sessions), g.ledger)
  }

  /** The worker reports on its run and is done. `disowned`: the error was marked `before_submit`, so
      `submit_invoked` is cleared first. */
  function ActReport(h: Hyps, z: Slot, l: Ledger, w: Worker, res: Result, disowned: bool, now: int): Moved {
    if !MayAct(h, z, w) then Moved(z, l)
    else if h.executorsHonest && z.sessions[w].phase.Pressed?
      && (disowned || !(res.outcome.Submitted? || res.outcome.Unknown?)) then Moved(z, l)
    else
      var r := z.sessions[w].run;
      var rep := ReportOp(if disowned then Unmarked(z.c, r) else z.c, l, w, r, res, now);
      Reporting(z, l, w, r, res, rep)
  }

  function Unmarked(c: Case, r: nat): Case
    requires r < |c.runs|
  {
    SetRun(c, r, c.runs[r].(submitInvoked := false))
  }

  /** The owner of the item reports on the running run without having started it or been let through to
      press in it: the service asks only for ownership. H2 rules this out. */
  function ActForeignReport(h: Hyps, z: Slot, l: Ledger, w: Worker, res: Result, now: int): Moved {
    var running := CrashedRun(z.c.runs);
    if h.claimHolders || z.c.item.None? || z.c.attempt.None? || running.None? || !Owns(z.c.item.value, w)
    then Moved(z, l)
    else if w in z.sessions && z.sessions[w].run == running.value then Moved(z, l)
    else Reporting(z, l, w, running.value, res, ReportOp(z.c, l, w, running.value, res, now))
  }

  function Reporting(z: Slot, l: Ledger, w: Worker, r: nat, res: Result, rep: Reported): Moved {
    if rep.Refused? then Moved(z, l)
    else Moved(z.(c := rep.c, sessions := z.sessions - {w},
                  log := if DenialIn(res) then z.log + [Denied(r)] else z.log), rep.ledger)
  }

  function Next(h: Hyps, s: State, step: Label): State {
    var m := Act(h, At(s, step.opp), s.ledger, step.action);
    State(s.slots[step.opp := m.slot], m.ledger)
  }

  const Init := State(map[], Ledger(map[], map[]))

  /** Every finite run: the state after a sequence of labelled actions. */
  function After(h: Hyps, labels: seq<Label>): State {
    if labels == [] then Init
    else Next(h, After(h, labels[..|labels| - 1]), labels[|labels| - 1])
  }

  // --------------------------------------------------- at most once, as a fold

  /** Follows the history of one attempt: no open press, an open press, or an open press that was denied. */
  datatype Openness = Clear | Open | Doubted | Broken

  function Follow(o: Openness, e: Event): Openness {
    match e
    case Press(_) => if o.Clear? then Open else Broken
    case Denied(_) => if o.Open? then Doubted else o
    case Retried => if o.Doubted? then Clear else o
  }

  function OpennessOf(log: seq<Event>): Openness {
    if log == [] then Clear else Follow(OpennessOf(log[..|log| - 1]), log[|log| - 1])
  }

  // -------------------------------------------------------------- invariant

  /** An attempt is SUBMITTING exactly while one run is RUNNING, and then carries that run's key. */
  ghost predicate Coupled(c: Case) {
    && (forall i, j :: IsRunning(c.runs, i) && IsRunning(c.runs, j) ==> i == j)
    && (forall i :: IsRunning(c.runs, i) ==>
          c.attempt.Some? && c.item.Some? && c.attempt.value.status == Submitting
            && c.attempt.value.key == Some(c.runs[i].key))
    && (c.attempt.Some? && c.attempt.value.status == Submitting ==> exists i :: IsRunning(c.runs, i))
    && (c.attempt.Some? && c.attempt.value.status in {Qualified, Preparing, Ready} ==> c.attempt.value.key.None?)
  }

  /** A worker that still holds its item is at work in the RUNNING run. */
  ghost predicate SessionsSound(z: Slot) {
    forall w :: w in z.sessions ==>
      && z.sessions[w].run < |z.c.runs|
      && z.sessions[w].claim <= z.claims
      && (z.c.item.Some? && InHand(z.c.item.value) && z.sessions[w].claim == z.claims ==>
            z.c.runs[z.sessions[w].run].status.Running? && Owns(z.c.item.value, w))
  }

  ghost predicate SlotCoupled(z: Slot) {
    Coupled(z.c) && SessionsSound(z)
  }
}
