/** Each hypothesis is needed, and the guarantee is no stronger than stated: concrete runs. */
module Necessity {
  import opened Base
  import opened Lifecycle
  import opened WorkQueue
  import opened Caps
  import opened Preconditions
  import opened Execution
  import opened Protocol
  import opened Coupling
  import opened AtMostOnce
  import opened TimedRuns

  // ------------------------------------------------- an unremarkable afternoon

  const FineFacts := Facts(
    true,
    Some(Preparation(true, true, PrepReady, true, [])),
    [],
    Some(Opening(false, false, false, false, false, false)))

  const FineCall := Call(0, Keys(0, 0), 24, 168, Policy(5, 5), true, false, FineFacts)
  const FineKit := Kit(true, true, true)

  /** One slot taken, in day 0 and week 0. */
  const Books := Ledger(map[0 := Row(1, 0)], map[0 := Row(1, 0)])

  function AttemptIn(status: Status, key: Option<RunKey>, executions: nat): Attempt {
    Attempt(status, key, 1, executions, true, false, Some(0), Some(0))
  }

  function RunOf(number: nat, w: Worker, status: RunStatus, invoked: bool, verdict: Verdict): Run {
    Run(SubmitKey(1, number), number, w, status, invoked, verdict)
  }

  function Held(w: Worker, attempts: nat, availableAt: int): Item {
    Item(Processing, Some(w), Some(10), attempts, 3, availableAt)
  }

  /** The state of the one opportunity 0 after `steps`, and the ledger. */
  ghost predicate Stands(h: Hyps, steps: seq<Label>, z: Slot, l: Ledger) {
    At(After(h, steps), 0) == z && After(h, steps).ledger == l
  }

  /** At time 0, with every lease given beyond it, and nothing expires. */
  predicate Calm(action: Action) {
    match action
    case ClaimItem(_, now, until) => now == 0 < until
    case Heartbeat(_, until) => 0 < until
    case ExtensionGate(_, call) => call.now == 0
    case ExpireLease(_) => false
    case Recover(_) => false
    case _ => true
  }

  predicate NoLapse(steps: seq<Label>) {
    forall k :: 0 <= k < |steps| ==> Calm(steps[k].action)
  }

  /** Nobody cancels the queue item. */
  predicate Uncancelled(steps: seq<Label>) {
    forall k :: 0 <= k < |steps| ==> !steps[k].action.QueueCancel?
  }

  lemma Then(h: Hyps, steps: seq<Label>, z: Slot, l: Ledger, action: Action) returns (more: seq<Label>)
    requires Stands(h, steps, z, l)
    ensures more == steps + [Label(0, action)]
    ensures Stands(h, more, Act(h, z, l, action).slot, Act(h, z, l, action).ledger)
    ensures NoLapse(steps) && Calm(action) ==> NoLapse(more)
    ensures Uncancelled(steps) && !action.QueueCancel? ==> Uncancelled(more)
  {
    more := steps + [Label(0, action)];
    assert more[..|more| - 1] == steps;
  }

  // Steps that need nothing but to be allowed.
  lemma Claiming(h: Hyps, steps: seq<Label>, z: Slot, w: Worker, now: int, until: int) returns (more: seq<Label>)
    requires Stands(h, steps, z, Books) && z.c.item.Some? && Claimable(z.c.item.value, now)
    ensures Stands(h, more, z.(c := SetItem(z.c, Claim(z.c.item.value, w, until)), claims := z.claims + 1), Books)
    ensures NoLapse(steps) && now == 0 < until ==> NoLapse(more)
    ensures Uncancelled(steps) ==> Uncancelled(more)
  {
    more := Then(h, steps, z, Books, ClaimItem(w, now, until));
  }

  lemma CancellingAndRequeueing(h: Hyps, steps: seq<Label>, z: Slot) returns (more: seq<Label>)
    requires Stands(h, steps, z, Books) && z.c.item.Some? && !z.c.item.value.state.Succeeded?
    ensures Stands(h, more, z.(c := SetItem(z.c, Requeue(Cancel(z.c.item.value), 0))), Books)
    ensures NoLapse(steps) ==> NoLapse(more)
  {
    more := Then(h, steps, z, Books, QueueCancel);
    more := Requeueing(h, more, z.(c := SetItem(z.c, Cancel(z.c.item.value))));
  }

  lemma Requeueing(h: Hyps, steps: seq<Label>, z: Slot) returns (more: seq<Label>)
    requires Stands(h, steps, z, Books) && z.c.item.Some? && Parked(z.c.item.value)
    ensures Stands(h, more, z.(c := SetItem(z.c, Requeue(z.c.item.value, 0))), Books)
    ensures NoLapse(steps) ==> NoLapse(more)
  {
    more := Then(h, steps, z, Books, QueueRequeue(0));
  }

  lemma Crashing(h: Hyps, steps: seq<Label>, z: Slot, w: Worker) returns (more: seq<Label>)
    requires Stands(h, steps, z, Books)
    ensures Stands(h, more, z.(sessions := z.sessions - {w}), Books)
    ensures NoLapse(steps) ==> NoLapse(more)
    ensures Uncancelled(steps) ==> Uncancelled(more)
  {
    more := Then(h, steps, z, Books, Crash(w));
  }

  lemma Arming(h: Hyps, steps: seq<Label>, z: Slot, w: Worker) returns (more: seq<Label>)
    requires Stands(h, steps, z, Books) && MayAct(h, z, w) && z.sessions[w].phase.Opened?
    ensures Stands(h, more, z.(c := Marked(z.c, z.sessions[w].run), sessions := Advanced(z, w, Armed)), Books)
    ensures NoLapse(steps) ==> NoLapse(more)
    ensures Uncancelled(steps) ==> Uncancelled(more)
  {
    more := Then(h, steps, z, Books, Arm(w));
  }

  lemma Pressing(h: Hyps, steps: seq<Label>, z: Slot, w: Worker) returns (more: seq<Label>)
    requires Stands(h, steps, z, Books) && MayAct(h, z, w) && z.sessions[w].phase.Granted?
    ensures Stands(h, more, z.(sessions := Advanced(z, w, Pressed), log := z.log + [Press(z.sessions[w].run)]), Books)
    ensures NoLapse(steps) ==> NoLapse(more)
    ensures Uncancelled(steps) ==> Uncancelled(more)
  {
    more := Then(h, steps, z, Books, PressSubmit(w));
  }

  // Steps whose effect is that of one service call.
  lemma Starting(h: Hyps, steps: seq<Label>, z: Slot, w: Worker) returns (more: seq<Label>)
    requires Stands(h, steps, z, Books)
    ensures var m := ActStart(z, Books, w, FineCall, FineKit); Stands(h, more, m.slot, m.ledger)
    ensures (NoLapse(steps) ==> NoLapse(more)) && (Uncancelled(steps) ==> Uncancelled(more))
  {
    more := Then(h, steps, z, Books, Start(w, FineCall, FineKit));
  }

  lemma Reporting(h: Hyps, steps: seq<Label>, z: Slot, w: Worker, res: Result) returns (more: seq<Label>)
    requires Stands(h, steps, z, Books)
    ensures var m := ActReport(h, z, Books, w, res, false, 0); Stands(h, more, m.slot, m.ledger)
    ensures (NoLapse(steps) ==> NoLapse(more)) && (Uncancelled(steps) ==> Uncancelled(more))
  {
    more := Then(h, steps, z, Books, ReportResult(w, res, false, 0));
  }

  lemma ReportingForeign(h: Hyps, steps: seq<Label>, z: Slot, w: Worker, res: Result) returns (more: seq<Label>)
    requires Stands(h, steps, z, Books)
    ensures var m := ActForeignReport(h, z, Books, w, res, 0); Stands(h, more, m.slot, m.ledger)
    ensures (NoLapse(steps) ==> NoLapse(more)) && (Uncancelled(steps) ==> Uncancelled(more))
  {
    more := Then(h, steps, z, Books, ForeignReport(w, res, 0));
  }

  lemma Denying(h: Hyps, steps: seq<Label>, z: Slot) returns (more: seq<Label>)
    requires Stands(h, steps, z, Books)
    ensures var m := ActConfirm(h, z, Books, 0, false); Stands(h, more, m.slot, m.ledger)
  {
    more := Then(h, steps, z, Books, Confirm(0, false));
  }

  lemma JudgingLikely(h: Hyps, steps: seq<Label>, z: Slot, r: nat) returns (more: seq<Label>)
    requires Stands(h, steps, z, Books)
    ensures var m := ActVerify(h, z, Books, r, VerdictLikely); Stands(h, more, m.slot, m.ledger)
  {
    more := Then(h, steps, z, Books, Verify(r, VerdictLikely));
  }

  lemma Passing(h: Hyps, steps: seq<Label>, z: Slot, w: Worker) returns (more: seq<Label>)
    requires Stands(h, steps, z, Books)
    ensures var m := ActExtensionGate(z, Books, w, FineCall); Stands(h, more, m.slot, m.ledger)
  {
    more := Then(h, steps, z, Books, ExtensionGate(w, FineCall));
  }

  lemma Retrying(h: Hyps, steps: seq<Label>, z: Slot) returns (more: seq<Label>)
    requires Stands(h, steps, z, Books)
    ensures var m := OfReported(z, Books, RetryOp(z.c, Books, 0), z.log + [Retried]); Stands(h, more, m.slot, m.ledger)
    ensures (NoLapse(steps) ==> NoLapse(more)) && (Uncancelled(steps) ==> Uncancelled(more))
  {
    more := Then(h, steps, z, Books, Retry(0));
  }

  lemma FineCheck(a: Attempt, executing: bool)
    requires a.status == Expected(executing) && SamePeriod(a, Keys(0, 0)) && !a.released
    ensures Evaluate(FineFacts, a, Books, Policy(5, 5), Keys(0, 0), true, executing) == Report([], a, Books)
  {
    FindingsMeaning(FineFacts, a, executing);
  }

  lemma Admitted(h: Hyps) returns (steps: seq<Label>)
    ensures Stands(h, steps, Slot(Case(Some(AttemptIn(Qualified, None, 0)), None, []), map[], 0, []), Books)
    ensures NoLapse(steps) && Uncancelled(steps)
  {
    steps := [];
    steps := Then(h, steps, EmptySlot, Init.ledger, Admit(FineCall));
  }

  lemma {:induction false} Beginning(h: Hyps) returns (steps: seq<Label>)
    ensures Stands(h, steps, Slot(Case(Some(AttemptIn(Ready, None, 0)), Some(Fresh(3, 0)), []), map[], 0, []), Books)
    ensures NoLapse(steps) && Uncancelled(steps)
  {
    steps := Admitted(h);
    var z1 := Slot(Case(Some(AttemptIn(Qualified, None, 0)), None, []), map[], 0, []);
    steps := Then(h, steps, z1, Books, BeginPreparing);
    var z2 := z1.(c := Case(Some(AttemptIn(Preparing, None, 0)), None, []));
    steps := Then(h, steps, z2, Books, MarkReady);
    var z3 := z1.(c := Case(Some(AttemptIn(Ready, None, 0)), None, []));
    steps := Then(h, steps, z3, Books, Enqueue(0));
  }

  /** A worker claims the item of a READY attempt and starts it. */
  lemma ClaimAndStart(h: Hyps, steps: seq<Label>, z: Slot, n: nat, it: Item, w: Worker, now: int)
    returns (more: seq<Label>)
    requires Stands(h, steps, z, Books)
    requires z.c.attempt == Some(AttemptIn(Ready, None, n)) && z.c.item == Some(it)
    requires Claimable(it, now)
    requires w !in z.sessions
    ensures Stands(h, more,
      Slot(Case(Some(AttemptIn(Submitting, Some(SubmitKey(1, n + 1)), n + 1)),
                Some(it.(state := Processing, owner := Some(w), lease := Some(10), attempts := it.attempts + 1)),
                z.c.runs + [RunOf(n + 1, w, Running, false, NotAttempted)]),
           z.sessions[w := Session(|z.c.runs|, z.claims + 1, Opened)], z.claims + 1, z.log),
      Books)
    ensures NoLapse(steps) && now == 0 ==> NoLapse(more)
    ensures Uncancelled(steps) ==> Uncancelled(more)
  {
    more := Claiming(h, steps, z, w, now, 10);
    more := StartingFine(h, more, z.(c := SetItem(z.c, Claim(it, w, 10)), claims := z.claims + 1), n, w);
  }

  lemma StartingFine(h: Hyps, steps: seq<Label>, z: Slot, n: nat, w: Worker) returns (more: seq<Label>)
    requires Stands(h, steps, z, Books)
    requires z.c.attempt == Some(AttemptIn(Ready, None, n)) && z.c.item.Some? && HeldBy(z.c.item.value, w)
    requires w !in z.sessions
    ensures Stands(h, more,
      z.(c := Case(Some(AttemptIn(Submitting, Some(SubmitKey(1, n + 1)), n + 1)),
                   Some(z.c.item.value.(state := Processing)),
                   z.c.runs + [RunOf(n + 1, w, Running, false, NotAttempted)]),
         sessions := z.sessions[w := Session(|z.c.runs|, z.claims, Opened)]), Books)
    ensures NoLapse(steps) ==> NoLapse(more)
    ensures Uncancelled(steps) ==> Uncancelled(more)
  {
    StartsFine(h, z, n, w);
    more := Starting(h, steps, z, w);
  }

  lemma StartsFine(h: Hyps, z: Slot, n: nat, w: Worker)
    requires z.c.attempt == Some(AttemptIn(Ready, None, n)) && z.c.item.Some? && HeldBy(z.c.item.value, w)
    requires w !in z.sessions
    ensures ActStart(z, Books, w, FineCall, FineKit) ==
      Moved(z.(c := Case(Some(AttemptIn(Submitting, Some(SubmitKey(1, n + 1)), n + 1)),
                         Some(z.c.item.value.(state := Processing)),
                         z.c.runs + [RunOf(n + 1, w, Running, false, NotAttempted)]),
               sessions := z.sessions[w := Session(|z.c.runs|, z.claims, Opened)]), Books)
  {
    FineCheck(AttemptIn(Ready, None, n), false);
    assert z.sessions - {w} == z.sessions;
    assert StartOp(z.c, Books, w, FineCall, FineKit).outcome == Started(|z.c.runs|);
  }

  /** An armed and gated worker presses. */
  lemma ArmGatePress(h: Hyps, steps: seq<Label>, z: Slot, w: Worker) returns (more: seq<Label>)
    requires Stands(h, steps, z, Books)
    requires MayAct(h, z, w) && z.sessions[w].phase.Opened?
    requires z.c.attempt.value.status == Submitting && SamePeriod(z.c.attempt.value, Keys(0, 0))
    requires !z.c.attempt.value.released
    ensures Stands(h, more,
      z.(c := Marked(z.c, z.sessions[w].run),
         sessions := Advanced(z, w, Pressed),
         log := z.log + [Press(z.sessions[w].run)]),
      Books)
    ensures NoLapse(steps) ==> NoLapse(more)
    ensures Uncancelled(steps) ==> Uncancelled(more)
  {
    more := Arming(h, steps, z, w);
    var z1 := z.(c := Marked(z.c, z.sessions[w].run), sessions := Advanced(z, w, Armed));
    more := GatingFine(h, more, z1, w);
    var z2 := z1.(sessions := Advanced(z, w, Granted));
    assert Advanced(z1, w, Granted) == z2.sessions;
    more := Pressing(h, more, z2, w);
    assert Advanced(z2, w, Pressed) == Advanced(z, w, Pressed);
  }

  lemma GatingFine(h: Hyps, steps: seq<Label>, z: Slot, w: Worker) returns (more: seq<Label>)
    requires Stands(h, steps, z, Books) && MayAct(h, z, w) && z.sessions[w].phase.Armed?
    requires z.c.attempt.value.status == Submitting && SamePeriod(z.c.attempt.value, Keys(0, 0))
    requires !z.c.attempt.value.released
    ensures Stands(h, more, z.(sessions := Advanced(z, w, Granted)), Books)
    ensures NoLapse(steps) ==> NoLapse(more)
    ensures Uncancelled(steps) ==> Uncancelled(more)
  {
    FineCheck(z.c.attempt.value, true);
    assert GateOp(z.c, Books, FineCall) == GateStep(z.c, Books, true);
    more := Then(h, steps, z, Books, Gate(w, FineCall));
  }

  /** The first run, started by worker 0. */
  lemma FirstRun(h: Hyps) returns (steps: seq<Label>)
    ensures Stands(h, steps,
      Slot(Case(Some(AttemptIn(Submitting, Some(SubmitKey(1, 1)), 1)), Some(Held(0, 1, 0)),
                [RunOf(1, 0, Running, false, NotAttempted)]),
           map[0 := Session(0, 1, Opened)], 1, []),
      Books)
    ensures NoLapse(steps) && Uncancelled(steps)
  {
    steps := Beginning(h);
    var z := Slot(Case(Some(AttemptIn(Ready, None, 0)), Some(Fresh(3, 0)), []), map[], 0, []);
    steps := ClaimAndStart(h, steps, z, 0, Fresh(3, 0), 0, 0);
    assert [] + [RunOf(1, 0, Running, false, NotAttempted)] == [RunOf(1, 0, Running, false, NotAttempted)];
  }

  ghost predicate TwoPressesAtOnce(h: Hyps, steps: seq<Label>) {
    var log := At(After(h, steps), 0).log;
    |log| == 2 && log[0].Press? && log[1].Press?
  }

  // -------------------------------------------------------------------- traces

  /** A retryable failure reported by the first run, pressed or not. */
  lemma ReportsRetryable(h: Hyps, z: Slot)
    requires h == Hyps(false, true, true)
    requires z == Slot(Case(Some(AttemptIn(Submitting, Some(SubmitKey(1, 1)), 1)), Some(Held(0, 1, 0)),
                            [RunOf(1, 0, Running, true, NotAttempted)]),
                       map[0 := Session(0, 1, Pressed)], 1, [Press(0)])
    ensures ActReport(h, z, Books, 0, Result(RetryableFailure, true, None, None), false, 0) ==
      Moved(Slot(Case(Some(AttemptIn(Ready, None, 1)), Some(Item(RetryWait, None, None, 1, 3, 60)),
                      [RunOf(1, 0, FailedRetryable, true, NotAttempted)]),
                 map[], 1, [Press(0)]), Books)
  {
    var res := Result(RetryableFailure, true, None, None);
    assert MayAct(h, z, 0);
    assert z.sessions - {0} == map[];
    var rep := ReportOp(z.c, Books, 0, 0, res, 0);
    assert rep == Done(Case(Some(AttemptIn(Ready, None, 1)), Some(Item(RetryWait, None, None, 1, 3, 60)),
                            [RunOf(1, 0, FailedRetryable, true, NotAttempted)]), Books);
  }

  /** Without H1: an executor presses, reports a retryable failure, and the next run presses again. */
  lemma WithoutHonestExecutors() returns (steps: seq<Label>)
    ensures TwoPressesAtOnce(Hyps(false, true, true), steps)
  {
    var h := Hyps(false, true, true);
    steps := FirstRun(h);
    var z0 := Slot(Case(Some(AttemptIn(Submitting, Some(SubmitKey(1, 1)), 1)), Some(Held(0, 1, 0)),
                        [RunOf(1, 0, Running, false, NotAttempted)]),
                   map[0 := Session(0, 1, Opened)], 1, []);
    steps := ArmGatePress(h, steps, z0, 0);
    var z1 := Slot(Case(Some(AttemptIn(Submitting, Some(SubmitKey(1, 1)), 1)), Some(Held(0, 1, 0)),
                        [RunOf(1, 0, Running, true, NotAttempted)]),
                   map[0 := Session(0, 1, Pressed)], 1, [Press(0)]);
    assert Stands(h, steps, z1, Books);
    steps := SecondPress(h, steps, z1);
  }

  lemma SecondPress(h: Hyps, steps: seq<Label>, z: Slot) returns (more: seq<Label>)
    requires h == Hyps(false, true, true) && Stands(h, steps, z, Books)
    requires z == Slot(Case(Some(AttemptIn(Submitting, Some(SubmitKey(1, 1)), 1)), Some(Held(0, 1, 0)),
                            [RunOf(1, 0, Running, true, NotAttempted)]),
                       map[0 := Session(0, 1, Pressed)], 1, [Press(0)])
    ensures TwoPressesAtOnce(h, more)
  {
    ReportsRetryable(h, z);
    more := Reporting(h, steps, z, 0, Result(RetryableFailure, true, None, None));
    var it := Item(RetryWait, None, None, 1, 3, 60);
    var z2 := Slot(Case(Some(AttemptIn(Ready, None, 1)), Some(it), [RunOf(1, 0, FailedRetryable, true, NotAttempted)]),
                   map[], 1, [Press(0)]);
    more := ClaimAndStart(h, more, z2, 1, it, 0, 60);
    var z3 := Slot(Case(Some(AttemptIn(Submitting, Some(SubmitKey(1, 2)), 2)),
                        Some(it.(state := Processing, owner := Some(0), lease := Some(10), attempts := 2)),
                        z2.c.runs + [RunOf(2, 0, Running, false, NotAttempted)]),
                   z2.sessions[0 := Session(1, 2, Opened)], 2, [Press(0)]);
    assert Stands(h, more, z3, Books);
    more := ArmGatePress(h, more, z3, 0);
  }

  lemma Recovering(h: Hyps, steps: seq<Label>, z: Slot) returns (more: seq<Label>)
    requires Stands(h, steps, z, Books)
    requires z.c == Case(Some(AttemptIn(Submitting, Some(SubmitKey(1, 1)), 1)), Some(Held(0, 1, 0)),
                         [RunOf(1, 0, Running, false, NotAttempted)])
    ensures Stands(h, more,
      z.(c := Case(Some(AttemptIn(Ready, None, 1)), Some(Item(Pending, None, None, 1, 3, 20)),
                   [RunOf(1, 0, FailedRetryable, false, NotAttempted)])), Books)
  {
    more := Then(h, steps, z, Books, Recover(20));
    assert RecoverOp(z.c, 20) == RecoverRun(z.c, 0, 20);
  }

  /** Recovery hands a silent worker's attempt to a second worker. */
  lemma TakenOver(h: Hyps) returns (steps: seq<Label>)
    ensures Stands(h, steps,
      Slot(Case(Some(AttemptIn(Submitting, Some(SubmitKey(1, 2)), 2)), Some(Held(1, 2, 20)),
                [RunOf(1, 0, FailedRetryable, false, NotAttempted), RunOf(2, 1, Running, false, NotAttempted)]),
           map[0 := Session(0, 1, Opened), 1 := Session(1, 2, Opened)], 2, []),
      Books)
  {
    steps := FirstRun(h);
    var z0 := Slot(Case(Some(AttemptIn(Submitting, Some(SubmitKey(1, 1)), 1)), Some(Held(0, 1, 0)),
                        [RunOf(1, 0, Running, false, NotAttempted)]),
                   map[0 := Session(0, 1, Opened)], 1, []);
    steps := Recovering(h, steps, z0);
    var it := Item(Pending, None, None, 1, 3, 20);
    var z1 := Slot(Case(Some(AttemptIn(Ready, None, 1)), Some(it), [RunOf(1, 0, FailedRetryable, false, NotAttempted)]),
                   map[0 := Session(0, 1, Opened)], 1, []);
    steps := ClaimAndStart(h, steps, z1, 1, it, 1, 20);
    assert z1.c.runs + [RunOf(2, 1, Running, false, NotAttempted)] ==
      [RunOf(1, 0, FailedRetryable, false, NotAttempted), RunOf(2, 1, Running, false, NotAttempted)];
    assert z1.sessions[1 := Session(1, 2, Opened)] == map[0 := Session(0, 1, Opened), 1 := Session(1, 2, Opened)];
  }

  /** Without H2: the first worker wakes up, and its in-process gate sees an attempt that is SUBMITTING
      again, for the second worker. Both press. */
  lemma WithoutClaimHolders() returns (steps: seq<Label>)
    ensures TwoPressesAtOnce(Hyps(true, false, true), steps)
  {
    var h := Hyps(true, false, true);
    steps := TakenOver(h);
    var z := Slot(Case(Some(AttemptIn(Submitting, Some(SubmitKey(1, 2)), 2)), Some(Held(1, 2, 20)),
                       [RunOf(1, 0, FailedRetryable, false, NotAttempted), RunOf(2, 1, Running, false, NotAttempted)]),
                  map[0 := Session(0, 1, Opened), 1 := Session(1, 2, Opened)], 2, []);
    steps := ArmGatePress(h, steps, z, 0);
    var z1 := z.(c := SetRun(z.c, 0, z.c.runs[0].(submitInvoked := true)),
                 sessions := z.sessions[0 := z.sessions[0].(phase := Pressed)], log := z.log + [Press(0)]);
    steps := ArmGatePress(h, steps, z1, 1);
  }

  // ------------------------------------------------- a run in which all is at time 0

  function Zeros(n: nat): (r: seq<int>)
    ensures |r| == n && forall i :: 0 <= i < n ==> r[i] == 0
  {
    if n == 0 then [] else Zeros(n - 1) + [0]
  }

  /** The item has an owner. */
  predicate Owned(c: Case) {
    c.item.Some? && c.item.value.owner.Some?
  }

  /** Every claim so far has its lease, and owners and sessions belong to a claim. */
  ghost predicate Leased(z: Slot, o: Opp, t: LeaseTable) {
    && (forall k: nat :: 1 <= k <= z.claims ==> (o, k) in t && 0 < t[(o, k)])
    && (Owned(z.c) ==> 1 <= z.claims)
    && (forall w :: w in z.sessions ==> 1 <= z.sessions[w].claim <= z.claims)
  }

  /** Only a claim gives an item an owner, and sessions begin with an owned item. */
  ghost predicate NothingTaken(z: Slot, z': Slot) {
    && z'.claims == z.claims
    && (Owned(z'.c) ==> Owned(z.c))
    && (forall w :: w in z'.sessions ==>
          || (w in z.sessions && z'.sessions[w].claim == z.sessions[w].claim)
          || (z'.sessions[w].claim == z.claims && Owned(z.c)))
  }

  lemma StartTakesNothing(c: Case, l: Ledger, w: Worker, call: Call, kit: Kit)
    requires c.item.Some?
    ensures var step := StartOp(c, l, w, call, kit);
      (Owned(step.c) ==> Owned(c)) && (step.outcome.Started? ==> Owned(c))
  {
  }

  lemma ReportTakesNothing(c: Case, l: Ledger, w: Worker, r: nat, res: Result, now: int)
    requires c.attempt.Some? && c.item.Some? && r < |c.runs| && ReportOp(c, l, w, r, res, now).Done?
    ensures Owned(ReportOp(c, l, w, r, res, now).c) ==> Owned(c)
  {
  }

  lemma StartingTakesNothing(h: Hyps, z: Slot, l: Ledger, action: Action)
    requires action.Start? || action.StartStale?
    ensures NothingTaken(z, Act(h, z, l, action).slot)
  {
    match action
    case Start(w, call, kit) => if z.c.item.Some? { StartTakesNothing(z.c, l, w, call, kit); }
    case StartStale(w) =>
  }

  lemma WorkerTakesNothing(h: Hyps, z: Slot, l: Ledger, action: Action)
    requires InRun(action) || action.ExtensionGate? || action.Crash?
    ensures NothingTaken(z, Act(h, z, l, action).slot)
  {
    match action
    case Gate(w, call) => GateItem(z.c, l, 0, call);
    case ExtensionGate(w, call) => GateItem(z.c, l, w, call);
    case _ =>
  }

  lemma ReportingTakesNothing(h: Hyps, z: Slot, l: Ledger, action: Action)
    requires action.ReportResult? || action.ForeignReport?
    ensures NothingTaken(z, Act(h, z, l, action).slot)
  {
    if Act(h, z, l, action).slot != z {
      match action
      case ReportResult(w, res, disowned, now) =>
        var r := z.sessions[w].run;
        ReportTakesNothing(if disowned then Unmarked(z.c, r) else z.c, l, w, r, res, now);
      case ForeignReport(w, res, now) => ReportTakesNothing(z.c, l, w, CrashedRun(z.c.runs).value, res, now);
    }
  }

  lemma JudgingTakesNothing(h: Hyps, z: Slot, l: Ledger, action: Action)
    requires Judging(action)
    ensures NothingTaken(z, Act(h, z, l, action).slot)
  {
    match action
    case Verify(r, v) => if VerifyOp(z.c, l, r, v).Done? { VerdictItem(z.c, l, r, v); }
    case Confirm(r, submitted) => if ConfirmOp(z.c, l, r, submitted).Done? { ConfirmItem(z.c, l, r, submitted); }
  }

  lemma QueueTakesNothing(z: Slot, l: Ledger, action: Action)
    requires !action.ClaimItem?
    ensures NothingTaken(z, ActQueue(z, l, action).slot)
  {
  }

  lemma ReopeningTakesNothing(h: Hyps, z: Slot, l: Ledger, action: Action)
    requires Reopening(action)
    ensures NothingTaken(z, Act(h, z, l, action).slot)
  {
  }

  lemma OtherTakesNothing(h: Hyps, z: Slot, l: Ledger, action: Action)
    requires Scheduling(action) || (Queueing(action) && !action.ClaimItem?)
    ensures NothingTaken(z, Act(h, z, l, action).slot)
  {
    if Queueing(action) {
      QueueTakesNothing(z, l, action);
    }
  }

  lemma TakesNothing(h: Hyps, z: Slot, l: Ledger, action: Action)
    requires !action.ClaimItem? && !action.Recover?
    ensures NothingTaken(z, Act(h, z, l, action).slot)
  {
    if action.Start? || action.StartStale? {
      StartingTakesNothing(h, z, l, action);
    } else if action.ReportResult? || action.ForeignReport? {
      ReportingTakesNothing(h, z, l, action);
    } else if InRun(action) || Joining(action) {
      WorkerTakesNothing(h, z, l, action);
    } else if Judging(action) {
      JudgingTakesNothing(h, z, l, action);
    } else if Reopening(action) {
      ReopeningTakesNothing(h, z, l, action);
    } else {
      OtherTakesNothing(h, z, l, action);
    }
  }

  lemma CalmStep(h: Hyps, s: State, step: Label, t: LeaseTable, o: Opp)
    requires Calm(step.action) && Leased(At(s, o), o, t)
    ensures Leased(At(Next(h, s, step), o), o, Given(s, t, step))
  {
    if step.opp != o {
      GivenElsewhere(s, step, t, o);
    } else if step.action.ClaimItem? {
      ClaimLeased(s, step, t, o);
    } else {
      TakesNothing(h, At(s, o), s.ledger, step.action);
      NothingTakenLeased(s, step, t, o, At(Next(h, s, step), o));
    }
  }

  lemma GivenElsewhere(s: State, step: Label, t: LeaseTable, o: Opp)
    requires step.opp != o
    ensures forall k: nat :: (o, k) in t ==> (o, k) in Given(s, t, step) && Given(s, t, step)[(o, k)] == t[(o, k)]
  {
  }

  lemma ClaimLeased(s: State, step: Label, t: LeaseTable, o: Opp)
    requires step.opp == o && step.action.ClaimItem? && Calm(step.action) && Leased(At(s, o), o, t)
    ensures Leased(ActQueue(At(s, o), s.ledger, step.action).slot, o, Given(s, t, step))
  {
  }

  lemma NothingTakenLeased(s: State, step: Label, t: LeaseTable, o: Opp, z': Slot)
    requires step.opp == o && !step.action.ClaimItem? && Calm(step.action)
    requires Leased(At(s, o), o, t) && NothingTaken(At(s, o), z')
    ensures Leased(z', o, Given(s, t, step))
  {
  }

  lemma {:induction false} CalmRunsLeased(h: Hyps, steps: seq<Label>, o: Opp)
    requires NoLapse(steps)
    ensures Leased(At(After(h, steps), o), o, LeasesAfter(h, steps))
  {
    if steps != [] {
      var n := |steps| - 1;
      CalmRunsLeased(h, steps[..n], o);
      CalmStep(h, After(h, steps[..n]), steps[n], LeasesAfter(h, steps[..n]), o);
    }
  }

  /** Such a run is on time: every worker's step is within its lease. */
  lemma CalmRunsAreOnTime(h: Hyps, steps: seq<Label>)
    requires NoLapse(steps)
    ensures OnTime(h, steps, Zeros(|steps|))
  {
    forall n | 0 <= n < |steps| ensures InTime(After(h, steps[..n]), LeasesAfter(h, steps[..n]), steps[n], 0) {
      CalmRunsLeased(h, steps[..n], steps[n].opp);
      assert Calm(steps[n].action);
    }
  }

  /** The queue's own cancel does not ask whether the item is in a worker's hands. Cancelled and requeued
      under a worker whose lease is live all the time, the item goes to a second worker, and both press: the
      run is on time, and `TimedRuns.AtMostOnePressOnTime` fails without its condition on cancelling. */
  lemma CancelledUnderAWorker() returns (steps: seq<Label>)
    ensures TwoPressesAtOnce(Hyps(true, false, true), steps) && OnTime(Hyps(true, false, true), steps, Zeros(|steps|))
  {
    steps := CancelledAndBothPress();
    CalmRunsAreOnTime(Hyps(true, false, true), steps);
  }

  lemma CancelledAndBothPress() returns (steps: seq<Label>)
    ensures TwoPressesAtOnce(Hyps(true, false, true), steps) && NoLapse(steps)
  {
    var h := Hyps(true, false, true);
    steps := FirstRun(h);
    var z := Slot(Case(Some(AttemptIn(Submitting, Some(SubmitKey(1, 1)), 1)), Some(Held(0, 1, 0)),
                       [RunOf(1, 0, Running, false, NotAttempted)]),
                  map[0 := Session(0, 1, Opened)], 1, []);
    steps := CancellingAndRequeueing(h, steps, z);
    var z2 := z.(c := SetItem(z.c, Fresh(3, 0)));
    steps := Claiming(h, steps, z2, 1, 0, 10);
    var z3 := z.(c := SetItem(z.c, Item(Claimed, Some(1), Some(10), 1, 3, 0)), claims := 2);
    StartsReclaiming(h, z3);
    steps := Starting(h, steps, z3, 1);
    steps := BothPress(h, steps);
  }

  lemma StartsReclaiming(h: Hyps, z: Slot)
    requires z == Slot(Case(Some(AttemptIn(Submitting, Some(SubmitKey(1, 1)), 1)),
                            Some(Item(Claimed, Some(1), Some(10), 1, 3, 0)),
                            [RunOf(1, 0, Running, false, NotAttempted)]),
                       map[0 := Session(0, 1, Opened)], 2, [])
    ensures ActStart(z, Books, 1, FineCall, FineKit) ==
      Moved(Slot(Case(Some(AttemptIn(Submitting, Some(SubmitKey(1, 2)), 2)), Some(Held(1, 1, 0)),
                      [RunOf(1, 0, FailedRetryable, false, NotAttempted), RunOf(2, 1, Running, false, NotAttempted)]),
                 map[0 := Session(0, 1, Opened), 1 := Session(1, 2, Opened)], 2, []), Books)
  {
    FineCheck(AttemptIn(Ready, None, 1), false);
    assert z.sessions - {1} == z.sessions;
    assert IsRunning(z.c.runs, 0) && CrashedRun(z.c.runs) == Some(0);
    var c1 := Reclaim(SetItem(z.c, z.c.item.value.(state := Processing)));
    assert c1 == Case(Some(AttemptIn(Ready, None, 1)), Some(Held(1, 1, 0)),
                      [RunOf(1, 0, FailedRetryable, false, NotAttempted)]);
    assert StartOp(z.c, Books, 1, FineCall, FineKit) == StartReady(z.c, c1, Books, 1, FineCall, FineKit);
    assert StartReady(z.c, c1, Books, 1, FineCall, FineKit).c.runs ==
      [RunOf(1, 0, FailedRetryable, false, NotAttempted), RunOf(2, 1, Running, false, NotAttempted)];
    assert z.sessions[1 := Session(1, 2, Opened)] == map[0 := Session(0, 1, Opened), 1 := Session(1, 2, Opened)];
  }

  lemma BothPress(h: Hyps, steps: seq<Label>) returns (more: seq<Label>)
    requires h == Hyps(true, false, true)
    requires Stands(h, steps,
      Slot(Case(Some(AttemptIn(Submitting, Some(SubmitKey(1, 2)), 2)), Some(Held(1, 1, 0)),
                [RunOf(1, 0, FailedRetryable, false, NotAttempted), RunOf(2, 1, Running, false, NotAttempted)]),
           map[0 := Session(0, 1, Opened), 1 := Session(1, 2, Opened)], 2, []), Books)
    ensures TwoPressesAtOnce(h, more) && (NoLapse(steps) ==> NoLapse(more))
  {
    var z := Slot(Case(Some(AttemptIn(Submitting, Some(SubmitKey(1, 2)), 2)), Some(Held(1, 1, 0)),
                       [RunOf(1, 0, FailedRetryable, false, NotAttempted), RunOf(2, 1, Running, false, NotAttempted)]),
                  map[0 := Session(0, 1, Opened), 1 := Session(1, 2, Opened)], 2, []);
    more := ArmGatePress(h, steps, z, 0);
    var z1 := z.(c := SetRun(z.c, 0, z.c.runs[0].(submitInvoked := true)),
                 sessions := z.sessions[0 := z.sessions[0].(phase := Pressed)], log := z.log + [Press(0)]);
    more := ArmGatePress(h, more, z1, 1);
  }

  ghost predicate Uncoupled(h: Hyps, steps: seq<Label>) {
    var c := At(After(h, steps), 0).c;
    c.attempt.Some? && c.attempt.value.status != Submitting && exists i :: IsRunning(c.runs, i)
  }

  /** Without H2 the records come apart as well: a result that parks the item needs no ownership, so the
      first worker's FORM_CHANGED lands on the second worker's run. */
  lemma WithoutClaimHoldersUncoupled() returns (steps: seq<Label>)
    ensures Uncoupled(Hyps(true, false, true), steps)
  {
    var h := Hyps(true, false, true);
    steps := TakenOver(h);
    var z := Slot(Case(Some(AttemptIn(Submitting, Some(SubmitKey(1, 2)), 2)), Some(Held(1, 2, 20)),
                       [RunOf(1, 0, FailedRetryable, false, NotAttempted), RunOf(2, 1, Running, false, NotAttempted)]),
                  map[0 := Session(0, 1, Opened), 1 := Session(1, 2, Opened)], 2, []);
    ReportsOnAnother(h, z);
    steps := Reporting(h, steps, z, 0, Result(FormChanged, false, None, None));
  }

  lemma ReportsOnAnother(h: Hyps, z: Slot)
    requires !h.claimHolders
    requires z == Slot(Case(Some(AttemptIn(Submitting, Some(SubmitKey(1, 2)), 2)), Some(Held(1, 2, 20)),
                            [RunOf(1, 0, FailedRetryable, false, NotAttempted),
                             RunOf(2, 1, Running, false, NotAttempted)]),
                       map[0 := Session(0, 1, Opened), 1 := Session(1, 2, Opened)], 2, [])
    ensures var c := ActReport(h, z, Books, 0, Result(FormChanged, false, None, None), false, 0).slot.c;
      c.attempt.Some? && c.attempt.value.status != Submitting && IsRunning(c.runs, 1)
  {
    FormChangedElsewhere(z.c);
    assert MayAct(h, z, 0) && z.sessions[0].run == 0;
  }

  lemma FormChangedElsewhere(c: Case)
    requires c.attempt == Some(AttemptIn(Submitting, Some(SubmitKey(1, 2)), 2)) && c.item.Some? && |c.runs| == 2
    ensures var rep := ReportOp(c, Books, 0, 0, Result(FormChanged, false, None, None), 0);
      && rep.Done? && |rep.c.runs| == 2 && rep.c.runs[1] == c.runs[1]
      && rep.c.attempt.Some? && rep.c.attempt.value.status == Status.NeedsReview
  {
  }

  lemma HandsOff(h: Hyps, z: Slot)
    requires z == Slot(Case(Some(AttemptIn(Submitting, Some(SubmitKey(1, 1)), 1)), Some(Held(0, 1, 0)),
                            [RunOf(1, 0, Running, false, NotAttempted)]),
                       map[0 := Session(0, 1, Opened)], 1, [])
    ensures ActReport(h, z, Books, 0, Result(Handoff, false, None, None), false, 0) ==
      Moved(Slot(Case(Some(AttemptIn(Blocked, None, 1)), Some(Item(BlockedItem, Some(0), None, 1, 3, 0)),
                      [RunOf(1, 0, HandedOff, false, NotAttempted)]),
                 map[], 1, []), Books)
  {
    var res := Result(Handoff, false, None, None);
    assert MayAct(h, z, 0);
    assert z.sessions - {0} == map[];
    var rep := ReportOp(z.c, Books, 0, 0, res, 0);
    assert rep == Done(Case(Some(AttemptIn(Blocked, None, 1)), Some(Item(BlockedItem, Some(0), None, 1, 3, 0)),
                            [RunOf(1, 0, HandedOff, false, NotAttempted)]), Books);
  }

  lemma Retries(h: Hyps, z: Slot)
    requires z == Slot(Case(Some(AttemptIn(Blocked, None, 1)), Some(Item(BlockedItem, Some(0), None, 1, 3, 0)),
                            [RunOf(1, 0, HandedOff, false, NotAttempted)]),
                       map[], 1, [])
    ensures OfReported(z, Books, RetryOp(z.c, Books, 0), z.log + [Retried]) ==
      Moved(Slot(Case(Some(AttemptIn(Ready, None, 1)), Some(Fresh(3, 0)),
                      [RunOf(1, 0, HandedOff, false, NotAttempted)]), map[], 1, [Retried]), Books)
  {
    assert [] + [Retried] == [Retried];
    assert RetryOp(z.c, Books, 0)
      == Done(Case(Some(AttemptIn(Ready, None, 1)), Some(Fresh(3, 0)), [RunOf(1, 0, HandedOff, false, NotAttempted)]),
              Books);
  }

  /** A handed-off first run, retried and started a second time by the same worker. */
  lemma SecondRunAfterHandoff(h: Hyps) returns (steps: seq<Label>)
    ensures Stands(h, steps,
      Slot(Case(Some(AttemptIn(Submitting, Some(SubmitKey(1, 2)), 2)), Some(Held(0, 1, 0)),
                [RunOf(1, 0, HandedOff, false, NotAttempted), RunOf(2, 0, Running, false, NotAttempted)]),
           map[0 := Session(1, 2, Opened)], 2, [Retried]),
      Books)
  {
    steps := FirstRun(h);
    var z0 := Slot(Case(Some(AttemptIn(Submitting, Some(SubmitKey(1, 1)), 1)), Some(Held(0, 1, 0)),
                        [RunOf(1, 0, Running, false, NotAttempted)]),
                   map[0 := Session(0, 1, Opened)], 1, []);
    HandsOff(h, z0);
    steps := Reporting(h, steps, z0, 0, Result(Handoff, false, None, None));
    var runs := [RunOf(1, 0, HandedOff, false, NotAttempted)];
    var z1 := Slot(Case(Some(AttemptIn(Blocked, None, 1)), Some(Item(BlockedItem, Some(0), None, 1, 3, 0)), runs),
                   map[], 1, []);
    Retries(h, z1);
    steps := Retrying(h, steps, z1);
    var z2 := Slot(Case(Some(AttemptIn(Ready, None, 1)), Some(Fresh(3, 0)), runs), map[], 1, [Retried]);
    steps := ClaimAndStart(h, steps, z2, 1, Fresh(3, 0), 0, 0);
    assert runs + [RunOf(2, 0, Running, false, NotAttempted)]
      == [RunOf(1, 0, HandedOff, false, NotAttempted), RunOf(2, 0, Running, false, NotAttempted)];
  }

  /** Without H3: the candidate denies the old handed-off run while a new one is under way; the attempt is
      parked although its run is RUNNING. */
  lemma WithoutQuietVerdicts() returns (steps: seq<Label>)
    ensures Uncoupled(Hyps(true, true, false), steps)
  {
    var h := Hyps(true, true, false);
    steps := SecondRunAfterHandoff(h);
    var z := Slot(Case(Some(AttemptIn(Submitting, Some(SubmitKey(1, 2)), 2)), Some(Held(0, 1, 0)),
                       [RunOf(1, 0, HandedOff, false, NotAttempted), RunOf(2, 0, Running, false, NotAttempted)]),
                  map[0 := Session(1, 2, Opened)], 2, [Retried]);
    DeniesUnderWay(h, z);
    steps := Denying(h, steps, z);
    assert IsRunning(At(After(h, steps), 0).c.runs, 1);
  }

  lemma DeniesUnderWay(h: Hyps, z: Slot)
    requires !h.quietVerdicts && z.c.attempt == Some(AttemptIn(Submitting, Some(SubmitKey(1, 2)), 2))
    requires |z.c.runs| == 2 && z.c.runs[0] == RunOf(1, 0, HandedOff, false, NotAttempted)
    ensures var c := ActConfirm(h, z, Books, 0, false).slot.c;
      && c.attempt.Some? && c.attempt.value.status == Status.NeedsReview
      && |c.runs| == 2 && c.runs[1] == z.c.runs[1]
  {
  }

  const First := RunOf(1, 0, HandedOff, false, NotAttempted)
  const FirstDenied := RunOf(1, 0, VerificationFailed, false, VerdictFailed)
  const SecondLost := RunOf(2, 0, RunUnknown, true, NotAttempted)

  /** The next claim settles the pressed second run lazily: UNCERTAIN, but its verdict is not marked pending. */
  lemma SettledLazily(h: Hyps, z: Slot)
    requires z == Slot(Case(Some(AttemptIn(Submitting, Some(SubmitKey(1, 2)), 2)),
                            Some(Item(Claimed, Some(1), Some(30), 2, 3, 0)),
                            [First, RunOf(2, 0, Running, true, NotAttempted)]),
                       map[0 := Session(1, 2, Pressed)], 3, [Retried, Press(1)])
    ensures ActStart(z, Books, 1, FineCall, FineKit) ==
      Moved(Slot(Case(Some(AttemptIn(Uncertain, Some(SubmitKey(1, 2)), 2)),
                      Some(Item(ReviewItem, None, None, 2, 3, 0)), [First, SecondLost]),
                 map[0 := Session(1, 2, Pressed)], 3, [Retried, Press(1)]), Books)
  {
    assert z.sessions - {1} == z.sessions;
    assert IsRunning(z.c.runs, 1) && !IsRunning(z.c.runs, 0);
    assert CrashedRun(z.c.runs) == Some(1);
  }

  lemma Denies(h: Hyps, z: Slot)
    requires z == Slot(Case(Some(AttemptIn(Uncertain, Some(SubmitKey(1, 2)), 2)),
                            Some(Item(ReviewItem, None, None, 2, 3, 0)), [First, SecondLost]),
                       map[0 := Session(1, 2, Pressed)], 3, [Retried, Press(1)])
    ensures ActConfirm(h, z, Books, 0, false) ==
      Moved(Slot(Case(Some(AttemptIn(Status.NeedsReview, Some(SubmitKey(1, 2)), 2)),
                      Some(Item(ReviewItem, None, None, 2, 3, 0)), [FirstDenied, SecondLost]),
                 map[0 := Session(1, 2, Pressed)], 3, [Retried, Press(1), Denied(0)]), Books)
  {
    assert ConfirmOp(z.c, Books, 0, false) ==
      Done(Case(Some(AttemptIn(Status.NeedsReview, Some(SubmitKey(1, 2)), 2)),
                Some(Item(ReviewItem, None, None, 2, 3, 0)), [FirstDenied, SecondLost]), Books);
    assert [Retried, Press(1)] + [Denied(0)] == [Retried, Press(1), Denied(0)];
  }

  lemma RetriesAgain(h: Hyps, z: Slot)
    requires z == Slot(Case(Some(AttemptIn(Status.NeedsReview, Some(SubmitKey(1, 2)), 2)),
                            Some(Item(ReviewItem, None, None, 2, 3, 0)), [FirstDenied, SecondLost]),
                       map[0 := Session(1, 2, Pressed)], 3, [Retried, Press(1), Denied(0)])
    ensures OfReported(z, Books, RetryOp(z.c, Books, 0), z.log + [Retried]) ==
      Moved(Slot(Case(Some(AttemptIn(Ready, None, 2)), Some(Fresh(3, 0)), [FirstDenied, SecondLost]),
                 map[0 := Session(1, 2, Pressed)], 3, [Retried, Press(1), Denied(0), Retried]), Books)
  {
    assert !AwaitsVerdict(z.c.runs);
    assert RetryOp(z.c, Books, 0)
      == Done(Case(Some(AttemptIn(Ready, None, 2)), Some(Fresh(3, 0)), [FirstDenied, SecondLost]), Books);
    assert [Retried, Press(1), Denied(0)] + [Retried] == [Retried, Press(1), Denied(0), Retried];
  }

  /** Run 1 has pressed and its worker is gone; a second worker claims and starts the item. */
  lemma LostAndSettled(h: Hyps, steps: seq<Label>) returns (more: seq<Label>)
    requires Stands(h, steps,
      Slot(Case(Some(AttemptIn(Submitting, Some(SubmitKey(1, 2)), 2)), Some(Held(0, 1, 0)),
                [First, RunOf(2, 0, Running, true, NotAttempted)]),
           map[0 := Session(1, 2, Pressed)], 2, [Retried, Press(1)]), Books)
    ensures Stands(h, more,
      Slot(Case(Some(AttemptIn(Uncertain, Some(SubmitKey(1, 2)), 2)), Some(Item(ReviewItem, None, None, 2, 3, 0)),
                [First, SecondLost]),
           map[0 := Session(1, 2, Pressed)], 3, [Retried, Press(1)]), Books)
  {
    var z := Slot(Case(Some(AttemptIn(Submitting, Some(SubmitKey(1, 2)), 2)), Some(Held(0, 1, 0)),
                       [First, RunOf(2, 0, Running, true, NotAttempted)]),
                  map[0 := Session(1, 2, Pressed)], 2, [Retried, Press(1)]);
    more := Claiming(h, steps, z, 1, 20, 30);
    var z1 := z.(c := SetItem(z.c, Item(Claimed, Some(1), Some(30), 2, 3, 0)), claims := 3);
    SettledLazily(h, z1);
    more := Starting(h, more, z1, 1);
  }

  lemma DeniedAndRetried(h: Hyps, steps: seq<Label>) returns (more: seq<Label>)
    requires Stands(h, steps,
      Slot(Case(Some(AttemptIn(Uncertain, Some(SubmitKey(1, 2)), 2)), Some(Item(ReviewItem, None, None, 2, 3, 0)),
                [First, SecondLost]),
           map[0 := Session(1, 2, Pressed)], 3, [Retried, Press(1)]), Books)
    ensures Stands(h, more,
      Slot(Case(Some(AttemptIn(Ready, None, 2)), Some(Fresh(3, 0)), [FirstDenied, SecondLost]),
           map[0 := Session(1, 2, Pressed)], 3, [Retried, Press(1), Denied(0), Retried]), Books)
  {
    var z := Slot(Case(Some(AttemptIn(Uncertain, Some(SubmitKey(1, 2)), 2)),
                       Some(Item(ReviewItem, None, None, 2, 3, 0)), [First, SecondLost]),
                  map[0 := Session(1, 2, Pressed)], 3, [Retried, Press(1)]);
    Denies(h, z);
    more := Denying(h, steps, z);
    var z1 := Slot(Case(Some(AttemptIn(Status.NeedsReview, Some(SubmitKey(1, 2)), 2)),
                        Some(Item(ReviewItem, None, None, 2, 3, 0)), [FirstDenied, SecondLost]),
                   map[0 := Session(1, 2, Pressed)], 3, [Retried, Press(1), Denied(0)]);
    RetriesAgain(h, z1);
    more := Retrying(h, more, z1);
  }

  /** The verdict that separates two presses need not be about the run that pressed. Run 1 presses and is
      lost; the next claim settles it lazily, without marking its verdict pending; the candidate then
      denies the old handed-off run 0, a retry passes, and run 2 presses. All hypotheses hold. */
  lemma DenialOfAnotherRun() returns (steps: seq<Label>)
    ensures At(After(ALL, steps), 0).log == [Retried, Press(1), Denied(0), Retried, Press(2)]
  {
    var h := ALL;
    steps := SecondRunAfterHandoff(h);
    var z := Slot(Case(Some(AttemptIn(Submitting, Some(SubmitKey(1, 2)), 2)), Some(Held(0, 1, 0)),
                       [First, RunOf(2, 0, Running, false, NotAttempted)]),
                  map[0 := Session(1, 2, Opened)], 2, [Retried]);
    steps := ArmGatePress(h, steps, z, 0);
    assert SetRun(z.c, 1, z.c.runs[1].(submitInvoked := true)).runs
      == [First, RunOf(2, 0, Running, true, NotAttempted)];
    assert z.sessions[0 := Session(1, 2, Pressed)] == map[0 := Session(1, 2, Pressed)];
    assert z.log + [Press(1)] == [Retried, Press(1)];
    steps := LostAndSettled(h, steps);
    steps := DeniedAndRetried(h, steps);
    steps := ThirdPresses(h, steps);
  }

  lemma ThirdPresses(h: Hyps, steps: seq<Label>) returns (more: seq<Label>)
    requires Stands(h, steps,
      Slot(Case(Some(AttemptIn(Ready, None, 2)), Some(Fresh(3, 0)), [FirstDenied, SecondLost]),
           map[0 := Session(1, 2, Pressed)], 3, [Retried, Press(1), Denied(0), Retried]), Books)
    ensures At(After(h, more), 0).log == [Retried, Press(1), Denied(0), Retried, Press(2)]
  {
    var z := Slot(Case(Some(AttemptIn(Ready, None, 2)), Some(Fresh(3, 0)), [FirstDenied, SecondLost]),
                  map[0 := Session(1, 2, Pressed)], 3, [Retried, Press(1), Denied(0), Retried]);
    more := ClaimAndStart(h, steps, z, 2, Fresh(3, 0), 1, 0);
    var z1 := Slot(Case(Some(AttemptIn(Submitting, Some(SubmitKey(1, 3)), 3)), Some(Held(1, 1, 0)),
                        z.c.runs + [RunOf(3, 1, Running, false, NotAttempted)]),
                   z.sessions[1 := Session(2, 4, Opened)], 4, z.log);
    assert Stands(h, more, z1, Books);
    more := ArmGatePress(h, more, z1, 1);
    assert z1.log + [Press(2)] == [Retried, Press(1), Denied(0), Retried, Press(2)];
  }

  // ------------------------------------------ the same without any crash at all

  const SecondPending := RunOf(2, 0, RunUnknown, true, VerdictPending)
  const SecondLikely := RunOf(2, 0, RunSubmitted, true, VerdictLikely)
  const Reviewed := Item(ReviewItem, None, None, 1, 3, 0)

  lemma ReportsUnknown(h: Hyps, z: Slot)
    requires z == Slot(Case(Some(AttemptIn(Submitting, Some(SubmitKey(1, 2)), 2)), Some(Held(0, 1, 0)),
                            [First, RunOf(2, 0, Running, true, NotAttempted)]),
                       map[0 := Session(1, 2, Pressed)], 2, [Retried, Press(1)])
    ensures ActReport(h, z, Books, 0, Result(Unknown, true, None, None), false, 0) ==
      Moved(Slot(Case(Some(AttemptIn(Uncertain, Some(SubmitKey(1, 2)), 2)), Some(Reviewed), [First, SecondPending]),
                 map[], 2, [Retried, Press(1)]), Books)
  {
    assert MayAct(h, z, 0);
    assert z.sessions - {0} == map[];
    assert ReportOp(z.c, Books, 0, 1, Result(Unknown, true, None, None), 0) ==
      Done(Case(Some(AttemptIn(Uncertain, Some(SubmitKey(1, 2)), 2)), Some(Reviewed), [First, SecondPending]), Books);
  }

  lemma DeniesOlder(h: Hyps, z: Slot)
    requires z == Slot(Case(Some(AttemptIn(Uncertain, Some(SubmitKey(1, 2)), 2)), Some(Reviewed),
                            [First, SecondPending]),
                       map[], 2, [Retried, Press(1)])
    ensures ActConfirm(h, z, Books, 0, false) ==
      Moved(Slot(Case(Some(AttemptIn(Status.NeedsReview, Some(SubmitKey(1, 2)), 2)), Some(Reviewed),
                      [FirstDenied, SecondPending]),
                 map[], 2, [Retried, Press(1), Denied(0)]), Books)
  {
    assert ConfirmOp(z.c, Books, 0, false) ==
      Done(Case(Some(AttemptIn(Status.NeedsReview, Some(SubmitKey(1, 2)), 2)), Some(Reviewed),
                [FirstDenied, SecondPending]), Books);
    assert [Retried, Press(1)] + [Denied(0)] == [Retried, Press(1), Denied(0)];
  }

  lemma JudgesLikely(h: Hyps, z: Slot)
    requires z == Slot(Case(Some(AttemptIn(Status.NeedsReview, Some(SubmitKey(1, 2)), 2)), Some(Reviewed),
                            [FirstDenied, SecondPending]),
                       map[], 2, [Retried, Press(1), Denied(0)])
    ensures ActVerify(h, z, Books, 1, VerdictLikely) ==
      Moved(z.(c := z.c.(runs := [FirstDenied, SecondLikely])), Books)
  {
    assert VerifyOp(z.c, Books, 1, VerdictLikely) == Done(z.c.(runs := [FirstDenied, SecondLikely]), Books);
  }

  lemma ReopensLikely(h: Hyps, z: Slot)
    requires z == Slot(Case(Some(AttemptIn(Status.NeedsReview, Some(SubmitKey(1, 2)), 2)), Some(Reviewed),
                            [FirstDenied, SecondLikely]),
                       map[], 2, [Retried, Press(1), Denied(0)])
    ensures OfReported(z, Books, RetryOp(z.c, Books, 0), z.log + [Retried]) ==
      Moved(Slot(Case(Some(AttemptIn(Ready, None, 2)), Some(Fresh(3, 0)), [FirstDenied, SecondLikely]),
                 map[], 2, [Retried, Press(1), Denied(0), Retried]), Books)
  {
    assert !AwaitsVerdict(z.c.runs);
    assert RetryOp(z.c, Books, 0)
      == Done(Case(Some(AttemptIn(Ready, None, 2)), Some(Fresh(3, 0)), [FirstDenied, SecondLikely]), Books);
    assert [Retried, Press(1), Denied(0)] + [Retried] == [Retried, Press(1), Denied(0), Retried];
  }

  lemma PressedAndUnknown(h: Hyps) returns (steps: seq<Label>)
    ensures Stands(h, steps,
      Slot(Case(Some(AttemptIn(Uncertain, Some(SubmitKey(1, 2)), 2)), Some(Reviewed), [First, SecondPending]),
           map[], 2, [Retried, Press(1)]), Books)
  {
    steps := SecondRunAfterHandoff(h);
    var z := Slot(Case(Some(AttemptIn(Submitting, Some(SubmitKey(1, 2)), 2)), Some(Held(0, 1, 0)),
                       [First, RunOf(2, 0, Running, false, NotAttempted)]),
                  map[0 := Session(1, 2, Opened)], 2, [Retried]);
    steps := ArmGatePress(h, steps, z, 0);
    var z1 := Slot(Case(z.c.attempt, z.c.item, [First, RunOf(2, 0, Running, true, NotAttempted)]),
                   map[0 := Session(1, 2, Pressed)], 2, [Retried, Press(1)]);
    assert SetRun(z.c, 1, z.c.runs[1].(submitInvoked := true)).runs == z1.c.runs;
    assert z.sessions[0 := Session(1, 2, Pressed)] == z1.sessions && z.log + [Press(1)] == z1.log;
    ReportsUnknown(h, z1);
    steps := Reporting(h, steps, z1, 0, Result(Unknown, true, None, None));
  }

  lemma LikelyReopened(h: Hyps, steps: seq<Label>) returns (more: seq<Label>)
    requires Stands(h, steps,
      Slot(Case(Some(AttemptIn(Uncertain, Some(SubmitKey(1, 2)), 2)), Some(Reviewed), [First, SecondPending]),
           map[], 2, [Retried, Press(1)]), Books)
    ensures Stands(h, more,
      Slot(Case(Some(AttemptIn(Ready, None, 2)), Some(Fresh(3, 0)), [FirstDenied, SecondLikely]),
           map[], 2, [Retried, Press(1), Denied(0), Retried]), Books)
  {
    var z := Slot(Case(Some(AttemptIn(Uncertain, Some(SubmitKey(1, 2)), 2)), Some(Reviewed), [First, SecondPending]),
                  map[], 2, [Retried, Press(1)]);
    DeniesOlder(h, z);
    more := Denying(h, steps, z);
    var z1 := Slot(Case(Some(AttemptIn(Status.NeedsReview, Some(SubmitKey(1, 2)), 2)), Some(Reviewed),
                        [FirstDenied, SecondPending]),
                   map[], 2, [Retried, Press(1), Denied(0)]);
    JudgesLikely(h, z1);
    more := JudgingLikely(h, more, z1, 1);
    var z2 := z1.(c := z1.c.(runs := [FirstDenied, SecondLikely]));
    ReopensLikely(h, z2);
    more := Retrying(h, more, z2);
  }

  /** No crash, no recovery, and the pressed run is marked pending as it should be. The candidate denies the
      old handed-off run, and a verifier then judges the pressed run LIKELY: that takes away the pending
      mark but leaves the attempt in NEEDS_REVIEW, a retry passes, and run 2 presses. */
  lemma LikelyThenRetried() returns (steps: seq<Label>)
    ensures At(After(ALL, steps), 0).log == [Retried, Press(1), Denied(0), Retried, Press(2)]
  {
    var h := ALL;
    steps := PressedAndUnknown(h);
    steps := LikelyReopened(h, steps);
    var z := Slot(Case(Some(AttemptIn(Ready, None, 2)), Some(Fresh(3, 0)), [FirstDenied, SecondLikely]),
                  map[], 2, [Retried, Press(1), Denied(0), Retried]);
    steps := ClaimAndStart(h, steps, z, 2, Fresh(3, 0), 0, 0);
    var z1 := Slot(Case(Some(AttemptIn(Submitting, Some(SubmitKey(1, 3)), 3)), Some(Held(0, 1, 0)),
                        z.c.runs + [RunOf(3, 0, Running, false, NotAttempted)]),
                   z.sessions[0 := Session(2, 3, Opened)], 3, z.log);
    assert Stands(h, steps, z1, Books);
    steps := ArmGatePress(h, steps, z1, 0);
    assert z1.log + [Press(2)] == [Retried, Press(1), Denied(0), Retried, Press(2)];
  }

  // --------------------------------------- the extension, and reports of others

  const OneRun := Case(Some(AttemptIn(Submitting, Some(SubmitKey(1, 1)), 1)), Some(Held(0, 1, 0)),
                       [RunOf(1, 0, Running, false, NotAttempted)])

  /** An owner that never called `start` is let through and presses: worker 0 started the run, its lease
      lapsed, and worker 1 claims the item and goes straight to the extension's gate. */
  lemma OwnerPressesUnstarted() returns (steps: seq<Label>)
    ensures At(After(ALL, steps), 0).log == [Press(0)]
    ensures At(After(ALL, steps), 0).c.runs == [RunOf(1, 0, Running, true, NotAttempted)]
    ensures At(After(ALL, steps), 0).sessions == map[0 := Session(0, 1, Opened), 1 := Session(0, 2, Pressed)]
  {
    steps := FirstRun(ALL);
    var z := Slot(OneRun, map[0 := Session(0, 1, Opened)], 1, []);
    steps := Claiming(ALL, steps, z, 1, 20, 30);
    var z1 := z.(c := SetItem(z.c, Item(Claimed, Some(1), Some(30), 2, 3, 0)), claims := 2);
    steps := LettingThrough(ALL, steps, z1);
    var z2 := z1.(c := Marked(z1.c, 0), sessions := map[0 := Session(0, 1, Opened), 1 := Session(0, 2, Granted)]);
    steps := Pressing(ALL, steps, z2, 1);
    assert [] + [Press(0)] == [Press(0)];
  }

  lemma LettingThrough(h: Hyps, steps: seq<Label>, z: Slot) returns (more: seq<Label>)
    requires Stands(h, steps, z, Books)
    requires z == Slot(SetItem(OneRun, Item(Claimed, Some(1), Some(30), 2, 3, 0)),
                       map[0 := Session(0, 1, Opened)], 2, [])
    ensures Stands(h, more,
      z.(c := Marked(z.c, 0), sessions := map[0 := Session(0, 1, Opened), 1 := Session(0, 2, Granted)]), Books)
  {
    LetThroughFine(h, z);
    more := Passing(h, steps, z, 1);
  }

  lemma LetThroughFine(h: Hyps, z: Slot)
    requires z == Slot(SetItem(OneRun, Item(Claimed, Some(1), Some(30), 2, 3, 0)),
                       map[0 := Session(0, 1, Opened)], 2, [])
    ensures ActExtensionGate(z, Books, 1, FineCall) ==
      Moved(z.(c := Marked(z.c, 0), sessions := map[0 := Session(0, 1, Opened), 1 := Session(0, 2, Granted)]), Books)
  {
    FineCheck(z.c.attempt.value, true);
    assert GateOp(z.c, Books, FineCall) == GateStep(z.c, Books, true);
    assert IsRunning(z.c.runs, 0) && CrashedRun(z.c.runs) == Some(0);
    assert ExtensionGateOp(z.c, Books, 1, FineCall) == GateStep(Marked(z.c, 0), Books, true);
  }

  const Handed := Result(Handoff, false, None, None)

  lemma ForeignHandoff(h: Hyps, z: Slot)
    requires !h.claimHolders && z == Slot(Marked(OneRun, 0), map[], 1, [Press(0)])
    ensures ActForeignReport(h, z, Books, 0, Handed, 0) ==
      Moved(Slot(Case(Some(AttemptIn(Blocked, None, 1)), Some(Item(BlockedItem, Some(0), None, 1, 3, 0)),
                      [RunOf(1, 0, HandedOff, true, NotAttempted)]),
                 map[], 1, [Press(0)]), Books)
  {
    assert IsRunning(z.c.runs, 0) && CrashedRun(z.c.runs) == Some(0);
    assert z.sessions - {0} == map[];
    assert ReportOp(z.c, Books, 0, 0, Handed, 0) ==
      Done(Case(Some(AttemptIn(Blocked, None, 1)), Some(Item(BlockedItem, Some(0), None, 1, 3, 0)),
                [RunOf(1, 0, HandedOff, true, NotAttempted)]), Books);
  }

  lemma RetriesHandoff(h: Hyps, z: Slot)
    requires z == Slot(Case(Some(AttemptIn(Blocked, None, 1)), Some(Item(BlockedItem, Some(0), None, 1, 3, 0)),
                            [RunOf(1, 0, HandedOff, true, NotAttempted)]),
                       map[], 1, [Press(0)])
    ensures OfReported(z, Books, RetryOp(z.c, Books, 0), z.log + [Retried]) ==
      Moved(Slot(Case(Some(AttemptIn(Ready, None, 1)), Some(Fresh(3, 0)),
                      [RunOf(1, 0, HandedOff, true, NotAttempted)]), map[], 1, [Press(0), Retried]), Books)
  {
    assert [Press(0)] + [Retried] == [Press(0), Retried];
    assert !AwaitsVerdict(z.c.runs);
    assert RetryOp(z.c, Books, 0)
      == Done(Case(Some(AttemptIn(Ready, None, 1)), Some(Fresh(3, 0)), [RunOf(1, 0, HandedOff, true, NotAttempted)]),
              Books);
  }

  /** `report` asks who owns the item, not who worked on the run. A worker presses and crashes; back under its
      own name, it knows nothing of the press, and reports the run that is still RUNNING as handed off. The
      candidate retries, and submit is pressed a second time with no verdict at all. Executors are honest
      about what they pressed, all leases run and no item is cancelled: `TimedRuns.AtMostOnePressOnTime`
      fails without its condition on reports. */
  lemma ReportedByAnother() returns (steps: seq<Label>)
    ensures var h := Hyps(true, false, true);
      && OnTime(h, steps, Zeros(|steps|)) && NoCancelInHand(h, steps)
      && At(After(h, steps), 0).log == [Press(0), Retried, Press(1)]
  {
    var h := Hyps(true, false, true);
    steps := PressedAndHandedOff(h);
    var z := Slot(Case(Some(AttemptIn(Blocked, None, 1)), Some(Item(BlockedItem, Some(0), None, 1, 3, 0)),
                       [RunOf(1, 0, HandedOff, true, NotAttempted)]),
                  map[], 1, [Press(0)]);
    RetriesHandoff(h, z);
    steps := Retrying(h, steps, z);
    steps := PressedAgain(h, steps);
    CalmRunsAreOnTime(h, steps);
    forall n | 0 <= n < |steps| ensures LeavesItemInHand(After(h, steps[..n]), steps[n]) {
      assert !steps[n].action.QueueCancel?;
    }
  }

  lemma PressedAndHandedOff(h: Hyps) returns (steps: seq<Label>)
    requires !h.claimHolders
    ensures Stands(h, steps,
      Slot(Case(Some(AttemptIn(Blocked, None, 1)), Some(Item(BlockedItem, Some(0), None, 1, 3, 0)),
                [RunOf(1, 0, HandedOff, true, NotAttempted)]),
           map[], 1, [Press(0)]), Books)
    ensures NoLapse(steps) && Uncancelled(steps)
  {
    steps := FirstRun(h);
    var z := Slot(OneRun, map[0 := Session(0, 1, Opened)], 1, []);
    steps := ArmGatePress(h, steps, z, 0);
    assert [] + [Press(0)] == [Press(0)];
    var z1 := Slot(Marked(OneRun, 0), map[0 := Session(0, 1, Pressed)], 1, [Press(0)]);
    steps := Crashing(h, steps, z1, 0);
    assert z1.sessions - {0} == map[];
    var z2 := z1.(sessions := map[]);
    ForeignHandoff(h, z2);
    steps := ReportingForeign(h, steps, z2, 0, Handed);
  }

  lemma PressedAgain(h: Hyps, steps: seq<Label>) returns (more: seq<Label>)
    requires Stands(h, steps,
      Slot(Case(Some(AttemptIn(Ready, None, 1)), Some(Fresh(3, 0)), [RunOf(1, 0, HandedOff, true, NotAttempted)]),
           map[], 1, [Press(0), Retried]), Books)
    requires NoLapse(steps) && Uncancelled(steps)
    ensures At(After(h, more), 0).log == [Press(0), Retried, Press(1)]
    ensures NoLapse(more) && Uncancelled(more)
  {
    var z := Slot(Case(Some(AttemptIn(Ready, None, 1)), Some(Fresh(3, 0)),
                       [RunOf(1, 0, HandedOff, true, NotAttempted)]),
                  map[], 1, [Press(0), Retried]);
    more := ClaimAndStart(h, steps, z, 1, Fresh(3, 0), 0, 0);
    var z1 := Slot(Case(Some(AttemptIn(Submitting, Some(SubmitKey(1, 2)), 2)), Some(Held(0, 1, 0)),
                        z.c.runs + [RunOf(2, 0, Running, false, NotAttempted)]),
                   z.sessions[0 := Session(1, 2, Opened)], 2, z.log);
    assert Stands(h, more, z1, Books);
    more := ArmGatePress(h, more, z1, 0);
    assert z1.log + [Press(1)] == [Press(0), Retried, Press(1)];
  }
}
