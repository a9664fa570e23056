/** Every way `start` ends (app/execution/service.py), as a table over the records before and after: who gets
    the item, what the attempt says, where the slot is, and which run is on record. */
module StartOutcomes {
  import opened Base
  import opened Lifecycle
  import opened WorkQueue
  import opened Caps
  import opened Preconditions
  import opened Execution

  // ------------------------------------------------------------- the slot

  /** Nobody's use of any period changed. */
  ghost predicate SameUsage(l: Ledger, l': Ledger) {
    && (forall d: Day :: Net(l'.days, d) == Net(l.days, d))
    && (forall w: Week :: Net(l'.weeks, w) == Net(l.weeks, w))
  }

  /** The slot the attempt held, if any, is free again in its day and its week. */
  ghost predicate SlotReturned(a: Attempt, l: Ledger, l': Ledger) {
    var held := a.reserved && !a.released;
    && (forall d: Day :: Net(l'.days, d) == Net(l.days, d) - (if held && a.capDay == Some(d) then 1 else 0))
    && (forall w: Week :: Net(l'.weeks, w) == Net(l.weeks, w) - (if held && a.capWeek == Some(w) then 1 else 0))
  }

  /** One slot of the current day and week is taken, and the one held before, if any, is free again. */
  ghost predicate SlotTaken(a: Attempt, l: Ledger, k: Keys, l': Ledger) {
    var held := a.reserved && !a.released;
    && (forall d: Day :: Net(l'.days, d)
          == Net(l.days, d) + (if d == k.day then 1 else 0) - (if held && a.capDay == Some(d) then 1 else 0))
    && (forall w: Week :: Net(l'.weeks, w)
          == Net(l.weeks, w) + (if w == k.week then 1 else 0) - (if held && a.capWeek == Some(w) then 1 else 0))
  }

  function WithSlot(a: Attempt, k: Keys): Attempt {
    a.(reserved := true, released := false, capDay := Some(k.day), capWeek := Some(k.week))
  }

  lemma ReturnMeans(a: Attempt, l: Ledger, status: Status)
    ensures var (a', l') := ReleaseAttempt(a, l, status);
      && SlotReturned(a, l, l')
      && a' == a.(status := status, released := a.released || a.reserved)
  {
  }

  lemma TakeMeans(f: Facts, a: Attempt, l: Ledger, p: Policy, k: Keys, executing: bool)
    ensures var report := Evaluate(f, a, l, p, k, true, executing);
      if report.failures == [] then report.attempt == WithSlot(a, k) && SlotTaken(a, l, k, report.ledger)
      else report.attempt == a && SameUsage(l, report.ledger)
  {
    if Findings(f, a, executing) == [] && p.dailyCap > 0 && p.weeklyCap > 0 && !SamePeriod(a, k) {
      var (l1, refusal) := Reserve(l, k.day, k.week, p.dailyCap, p.weeklyCap);
      ReserveMeaning(l, k.day, k.week, p.dailyCap, p.weeklyCap);
      if refusal.None? && HoldsSlot(a) {
        ReturnMeans(a, l1, a.status);
      }
    }
  }

  // --------------------------------------------- failed preconditions settled

  /** What becomes of everything when the codes found are `codes`. A stale preparation comes first, then an
      attempt submitted already, an opening that is out of the question, a cooldown, a reached cap and an open
      question; anything else is for a person to look at. */
  ghost predicate SettledAs(c: Case, l: Ledger, w: Worker, call: Call, codes: seq<Code>, c': Case, l': Ledger)
    requires c.attempt.Some? && c.item.Some?
  {
    var a, it := c.attempt.value, c.item.value;
    var stale := PreparationStale in codes || PreparationNotCurrent in codes;
    var submitted := !stale && AlreadySubmitted in codes;
    var shut := !stale && !submitted
      && (CompanyBlocked in codes || OpportunityClosed in codes || DuplicateApplication in codes
          || DuplicateOpportunity in codes);
    var cooling := !stale && !submitted && !shut && CooldownActive in codes;
    var full := !stale && !submitted && !shut && !cooling
      && (CapReached(DailyCapReached) in codes || CapReached(WeeklyCapReached) in codes);
    var asked := !stale && !submitted && !shut && !cooling && !full && UserInputRequired in codes;
    // the check is on record as a run that never executed
    && c'.runs == c.runs + [Run(PreKey(a.number, call.now), a.executions, w,
                                if stale then Stale else PreconditionFailed, false, NotAttempted)]
    // only a stale preparation clears the key, only an opening out of the question costs the slot
    && c'.attempt == Some(a.(
                          status :=
                            if stale then Preparing else if submitted || full then a.status else if shut then Closed
                            else if cooling then Blocked else if asked then Status.NeedsUserInput
                            else Status.NeedsReview,
                          key := if stale then None else a.key,
                          released := a.released || (shut && a.reserved)))
    && (if shut then SlotReturned(a, l, l') else SameUsage(l, l'))
    // only a reached cap lets the item be claimed again, without the attempt counted, and only when its period ends
    && c'.item == Some(Item(
                         if submitted then Succeeded else if shut then CancelledItem
                         else if cooling || asked then BlockedItem else if full then Pending else ReviewItem,
                         if submitted || cooling || asked then it.owner else None,
                         None,
                         if full && it.attempts > 0 then it.attempts - 1 else it.attempts,
                         it.maxAttempts,
                         if !full then it.availableAt
                         else if CapReached(DailyCapReached) in codes then call.dayEnds else call.weekEnds))
  }

  lemma SettlementMeans(c: Case, l: Ledger, w: Worker, call: Call, codes: seq<Code>)
    requires c.attempt.Some? && c.item.Some?
    ensures var (c', l') := SettlePreconditions(c, l, w, call, codes); SettledAs(c, l, w, call, codes, c', l')
  {
    ReturnMeans(c.attempt.value, l, Closed);
  }

  // ------------------------------------------------------------- the table

  /** The attempt and the runs `start` goes on with when the attempt is READY, or SUBMITTING and lost before
      the press: then the lost run is over and the attempt READY without a key. */
  function ReadyAttempt(a: Attempt): Attempt {
    if a.status == Submitting then a.(status := Ready, key := None) else a
  }

  function ReadyRuns(a: Attempt, runs: seq<Run>): seq<Run> {
    var lost := CrashedRun(runs);
    if a.status == Submitting && lost.Some?
    then runs[lost.value := runs[lost.value].(status := FailedRetryable)]
    else runs
  }

  /** The run that was lost had submit invoked. */
  predicate LostAfterPress(runs: seq<Run>) {
    CrashedRun(runs).Some? && runs[CrashedRun(runs).value].submitInvoked
  }

  /** The claim is the caller's and nothing about the attempt's past speaks against executing it. */
  predicate MayGoOn(c: Case, w: Worker) {
    && c.item.Some? && (c.item.value.state.Claimed? || c.item.value.state.Processing?)
    && c.item.value.owner == Some(w) && c.attempt.Some?
    && (c.attempt.value.status == Ready || (c.attempt.value.status == Submitting && !LostAfterPress(c.runs)))
  }

  /** The codes are exactly those whose conditions fail. */
  ghost predicate CodesFound(a: Attempt, l: Ledger, call: Call, codes: seq<Code>) {
    forall code :: code in codes <==> Found(call.facts, a, l, call.policy, call.keys, false, code)
  }

  /** The row of `start`'s table for each outcome: when it is that outcome, and what is then on record. */
  ghost predicate StartedAs(c: Case, l: Ledger, w: Worker, call: Call, kit: Kit, step: StartStep)
    requires c.item.Some?
  {
    var it := c.item.value;
    var StartStep(c', l', outcome) := step;
    if outcome.NotOwner? then
      c' == c && l' == l && !((it.state.Claimed? || it.state.Processing?) && it.owner == Some(w))
    else
      && (it.state.Claimed? || it.state.Processing?) && it.owner == Some(w)
      && (if outcome.NoAttempt? then
            c.attempt.None? && l' == l && c' == c.(item := Some(it.(state := FailedItem, lease := None)))
          else
            c.attempt.Some? && EndedAs(c, l, w, call, kit, c', l', outcome))
  }

  ghost predicate EndedAs(c: Case, l: Ledger, w: Worker, call: Call, kit: Kit, c': Case, l': Ledger,
                          outcome: StartOutcome)
    requires c.item.Some? && c.attempt.Some?
  {
    var a, it := c.attempt.value, c.item.value;
    var ready, runs := ReadyAttempt(a), ReadyRuns(a, c.runs);
    var back := it.(state := Pending, owner := None, lease := None,
                    attempts := if it.attempts == 0 then 0 else it.attempts - 1);
    var passed := MayGoOn(c, w) && !call.paused && CodesFound(ready, l, call, []) && SlotTaken(ready, l, call.keys, l');
    match outcome
    case NotOwner => false
    case NoAttempt => false
    case AlreadyDone =>
      && a.status in {Status.Submitted, Verified} && l' == l
      && c' == c.(item := Some(it.(state := Succeeded, lease := None)))
    case AwaitingVerification =>
      && l' == l && c'.item == Some(it.(state := ReviewItem, owner := None, lease := None))
      && (if a.status == Submitting then
            && LostAfterPress(c.runs)
            && c'.attempt == Some(a.(status := Uncertain))
            && c'.runs == c.runs[CrashedRun(c.runs).value := c.runs[CrashedRun(c.runs).value].(status := RunUnknown)]
          else a.status == Uncertain && c'.attempt == c.attempt && c'.runs == c.runs)
    case NotReady =>
      && a.status !in {Ready, Submitting, Status.Submitted, Verified, Uncertain} && l' == l
      && c' == c.(item := Some(
                       if a.status in {Status.NeedsUserInput, Blocked} then it.(state := BlockedItem, lease := None)
                       else if a.status in {Failed, Cancelled, Closed}
                       then it.(state := CancelledItem, owner := None, lease := None)
                       else it.(state := ReviewItem, owner := None, lease := None)))
    case Paused =>
      && MayGoOn(c, w) && call.paused && l' == l
      && c' == Case(Some(ready), Some(back.(availableAt := call.now + 600)), runs)
    case PreconditionsFailed(codes) =>
      && MayGoOn(c, w) && !call.paused && codes != [] && CodesFound(ready, l, call, codes)
      && SettledAs(Case(Some(ready), Some(it), runs), l, w, call, codes, c', l')
    case NoExecutor => passed && !kit.executorKnown && c' == Case(Some(WithSlot(ready, call.keys)), Some(back), runs)
    case DocumentFailed =>
      && passed && kit.executorKnown && !kit.documentsOk
      && c' == Case(Some(WithSlot(ready, call.keys).(status := Status.NeedsReview)),
                    Some(it.(state := ReviewItem, owner := None, lease := None)), runs)
    case CannotHandle =>
      && passed && kit.executorKnown && kit.documentsOk && !kit.canHandle
      && c' == Case(Some(WithSlot(ready, call.keys).(status := Blocked, key := None)),
                    Some(it.(state := BlockedItem, lease := None)), runs)
    case LostRace =>
      // a READY attempt that still has a key: everything is rolled back and the item given back
      && MayGoOn(c, w) && !call.paused && CodesFound(ready, l, call, []) && kit == Kit(true, true, true)
      && a.status == Ready && a.key.Some? && l' == l && c' == c.(item := Some(back))
    case Started(r) =>
      && passed && kit == Kit(true, true, true) && ready.key.None? && r == |c.runs|
      && (var key := SubmitKey(a.number, a.executions + 1);
          c' == Case(
            Some(WithSlot(ready, call.keys).(status := Submitting, key := Some(key), executions := a.executions + 1)),
            Some(it.(state := Processing)),
            runs + [Run(key, a.executions + 1, w, Running, false, NotAttempted)]))
  }

  lemma ChecksFailed(c: Case, c1: Case, l: Ledger, w: Worker, call: Call, kit: Kit)
    requires MayGoOn(c, w) && !call.paused && c1.item.Some? && c1.attempt == Some(ReadyAttempt(c.attempt.value))
    requires c1 == Case(c1.attempt, Some(c.item.value.(state := Processing)), ReadyRuns(c.attempt.value, c.runs))
    requires Evaluate(call.facts, c1.attempt.value, l, call.policy, call.keys, true, false).failures != []
    ensures var step := StartReady(c, c1, l, w, call, kit);
      step.outcome.PreconditionsFailed? && EndedAs(c, l, w, call, kit, step.c, step.ledger, step.outcome)
  {
    var ready := c1.attempt.value;
    var report := Evaluate(call.facts, ready, l, call.policy, call.keys, true, false);
    CodesMeaning(call.facts, ready, l, call.policy, call.keys, true, false);
    TakeMeans(call.facts, ready, l, call.policy, call.keys, false);
    assert SetAttempt(c1, report.attempt) == c1;
    var (c2, l2) := SettlePreconditions(c1, report.ledger, w, call, report.failures);
    SettlementMeans(c1, report.ledger, w, call, report.failures);
    assert SettledAs(c1.(item := c.item), l, w, call, report.failures, c2, l2);
  }

  lemma ChecksPassed(c: Case, c1: Case, l: Ledger, w: Worker, call: Call, kit: Kit)
    requires MayGoOn(c, w) && !call.paused && c1.item.Some? && c1.attempt == Some(ReadyAttempt(c.attempt.value))
    requires c1 == Case(c1.attempt, Some(c.item.value.(state := Processing)), ReadyRuns(c.attempt.value, c.runs))
    requires Evaluate(call.facts, c1.attempt.value, l, call.policy, call.keys, true, false).failures == []
    ensures var step := StartReady(c, c1, l, w, call, kit);
      !step.outcome.NotOwner? && EndedAs(c, l, w, call, kit, step.c, step.ledger, step.outcome)
  {
    var ready := c1.attempt.value;
    var report := Evaluate(call.facts, ready, l, call.policy, call.keys, true, false);
    CodesMeaning(call.facts, ready, l, call.policy, call.keys, true, false);
    TakeMeans(call.facts, ready, l, call.policy, call.keys, false);
    assert CodesFound(ready, l, call, []);
  }

  lemma StartReadyEnds(c: Case, c1: Case, l: Ledger, w: Worker, call: Call, kit: Kit)
    requires MayGoOn(c, w) && c1.item.Some? && c1.attempt == Some(ReadyAttempt(c.attempt.value))
    requires c1 == Case(c1.attempt, Some(c.item.value.(state := Processing)), ReadyRuns(c.attempt.value, c.runs))
    ensures var step := StartReady(c, c1, l, w, call, kit);
      !step.outcome.NotOwner? && EndedAs(c, l, w, call, kit, step.c, step.ledger, step.outcome)
  {
    if !call.paused {
      if Evaluate(call.facts, c1.attempt.value, l, call.policy, call.keys, true, false).failures == [] {
        ChecksPassed(c, c1, l, w, call, kit);
      } else {
        ChecksFailed(c, c1, l, w, call, kit);
      }
    }
  }

  /** The exits before the kill switch is looked at. */
  lemma EndedByThePast(c: Case, c1: Case, l: Ledger, w: Worker, call: Call, kit: Kit)
    requires c.attempt.Some? && c.item.Some? && HeldBy(c.item.value, w) && !MayGoOn(c, w)
    requires c1 == c.(item := Some(c.item.value.(state := Processing)))
    ensures var step := StartAttempt(c, c1, l, w, call, kit);
      !step.outcome.NotOwner? && EndedAs(c, l, w, call, kit, step.c, step.ledger, step.outcome)
  {
  }

  /** `start` ends as the table says, from any records. */
  lemma StartMeans(c: Case, l: Ledger, w: Worker, call: Call, kit: Kit)
    requires c.item.Some?
    ensures var step := StartOp(c, l, w, call, kit);
      StartedAs(c, l, w, call, kit, step)
  {
    if HeldBy(c.item.value, w) && c.attempt.Some? {
      var c1 := SetItem(c, c.item.value.(state := Processing));
      if MayGoOn(c, w) {
        StartReadyEnds(c, if c.attempt.value.status == Submitting then Reclaim(c1) else c1, l, w, call, kit);
      } else {
        EndedByThePast(c, c1, l, w, call, kit);
      }
    }
  }

  // -------------------------------------------------------------- the gate

  /** The gate says yes exactly when no code is found, the tenant is LIVE and nothing is paused. A check that
      passes leaves the attempt with a slot of the current periods even if the gate then says no; one that fails
      leaves everything as it was. */
  ghost predicate GatedAs(c: Case, l: Ledger, call: Call, c': Case, l': Ledger, ok: bool) {
    if c.attempt.Some? && NothingFound(c.attempt.value, l, call) then
      && c' == c.(attempt := Some(WithSlot(c.attempt.value, call.keys)))
      && SlotTaken(c.attempt.value, l, call.keys, l') && ok == (call.live && !call.paused)
    else c' == c && l' == l && !ok
  }

  ghost predicate NothingFound(a: Attempt, l: Ledger, call: Call) {
    forall code :: !Found(call.facts, a, l, call.policy, call.keys, true, code)
  }

  lemma GateMeans(c: Case, l: Ledger, call: Call)
    ensures var g := GateOp(c, l, call); GatedAs(c, l, call, g.c, g.ledger, g.ok)
  {
    if c.attempt.Some? {
      var failures := Evaluate(call.facts, c.attempt.value, l, call.policy, call.keys, true, true).failures;
      CodesMeaning(call.facts, c.attempt.value, l, call.policy, call.keys, true, true);
      TakeMeans(call.facts, c.attempt.value, l, call.policy, call.keys, true);
      if failures != [] {
        assert failures[0] in failures;
      }
    }
  }

  /** The extension is asked for its claim first: the item's owner, with a lease that has not lapsed, on a run that
      is RUNNING and was given no permission before. A yes is put on record on that run. */
  ghost predicate ExtensionGatedAs(c: Case, l: Ledger, w: Worker, call: Call, c': Case, l': Ledger, ok: bool)
    requires c.item.Some?
  {
    var it, r := c.item.value, CrashedRun(c.runs);
    if it.owner == Some(w) && c.attempt.Some? && r.Some? && !c.runs[r.value].submitInvoked
      && (it.lease.Some? ==> call.now <= it.lease.value)
    then
      && GatedAs(c, l, call, c'.(runs := c.runs), l', ok)
      && c'.runs == if ok then c.runs[r.value := c.runs[r.value].(submitInvoked := true)] else c.runs
    else c' == c && l' == l && !ok
  }

  lemma ExtensionGateMeans(c: Case, l: Ledger, w: Worker, call: Call)
    requires c.item.Some?
    ensures var g := ExtensionGateOp(c, l, w, call); ExtensionGatedAs(c, l, w, call, g.c, g.ledger, g.ok)
  {
    GateMeans(c, l, call);
  }
}
