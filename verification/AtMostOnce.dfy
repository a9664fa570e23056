/** At most one press, in every run of the protocol in which executors report honestly (H1) and workers act
    only under their claim (H2). Verdicts may land at any time: H3 is not needed here. `TimedRuns` puts
    running leases in the place of H2. */
module AtMostOnce {
  import opened Base
  import opened Lifecycle
  import opened WorkQueue
  import opened Caps
  import opened Preconditions
  import opened Execution
  import opened Protocol
  import opened Coupling
  import opened Recovery

  // -------------------------------------------------------------- invariant

  /** The run of the attempt's latest execution, while it is RUNNING. */
  predicate Top(c: Case, i: int) {
    c.attempt.Some? && IsRunning(c.runs, i) && c.runs[i].number == c.attempt.value.executions
  }

  /** Runs are numbered by execution, and a SUBMITTING attempt is in its latest one. Earlier runs may
      still be marked RUNNING: a verdict that interrupts a SUBMITTING attempt leaves its run behind. */
  ghost predicate Numbered(c: Case) {
    && (c.attempt.None? ==> c.runs == [])
    && (c.attempt.Some? ==> forall i :: 0 <= i < |c.runs| ==> c.runs[i].number <= c.attempt.value.executions)
    && (forall i, j :: Top(c, i) && Top(c, j) ==> i == j)
    && (c.attempt.Some? && c.attempt.value.status == Submitting ==> exists i :: Top(c, i))
  }

  /** The worker began under the latest claim and nobody has taken the item out of its hands. */
  predicate Latest(z: Slot, w: Worker) {
    w in z.sessions && z.sessions[w].claim == z.claims && z.c.item.Some? && InHand(z.c.item.value)
  }

  /** A worker that still holds its item works on the latest execution of a SUBMITTING attempt; past the
      first phase `submit_invoked` is on record. */
  ghost predicate Workers(z: Slot) {
    forall w :: w in z.sessions ==>
      && z.sessions[w].run < |z.c.runs| && z.sessions[w].claim <= z.claims
      && (Latest(z, w) ==>
            && Owns(z.c.item.value, w) && Top(z.c, z.sessions[w].run) && z.c.attempt.value.status == Submitting
            && (z.sessions[w].phase.Opened? || z.c.runs[z.sessions[w].run].submitInvoked))
  }

  /** The statuses compatible with an open press, and with one that was denied. */
  predicate StatusFits(o: Openness, s: Status) {
    match o
    case Clear => true
    case Open => s in {Submitting, Status.Submitted, Verified, Uncertain}
    case Doubted => s in {Status.NeedsReview, Cancelled, Status.Submitted, Verified, Uncertain}
    case Broken => false
  }

  /** An open press is visible in the records. */
  ghost predicate History(z: Slot) {
    var o := OpennessOf(z.log);
    && !o.Broken?
    && (!o.Clear? ==> z.c.attempt.Some? && StatusFits(o, z.c.attempt.value.status))
    && (o.Open? && z.c.attempt.value.status == Submitting ==>
          && (forall i :: Top(z.c, i) ==> z.c.runs[i].submitInvoked)
          && (forall w :: Latest(z, w) ==> z.sessions[w].phase.Pressed?))
  }

  ghost predicate Good(z: Slot) {
    Numbered(z.c) && Workers(z) && History(z)
  }

  predicate Honest(h: Hyps) {
    h.executorsHonest && h.claimHolders
  }

  // ------------------------------------------------------ three ways to move on

  lemma Extend(log: seq<Event>, e: Event)
    ensures OpennessOf(log + [e]) == Follow(OpennessOf(log), e)
  {
    assert (log + [e])[..|log|] == log;
  }

  /** Runs may be closed and closed ones appended; a run that goes on keeps its mark. */
  ghost predicate Fades(runs: seq<Run>, runs': seq<Run>, executions: nat) {
    && |runs| <= |runs'|
    && (forall i :: 0 <= i < |runs| ==>
          && runs'[i].number == runs[i].number && runs'[i].worker == runs[i].worker
          && (runs'[i].status.Running? ==> runs[i].status.Running? && runs'[i].submitInvoked == runs[i].submitInvoked))
    && (forall i :: |runs| <= i < |runs'| ==> !runs'[i].status.Running? && runs'[i].number <= executions)
  }

  ghost predicate FewerSessions(z: Slot, z': Slot) {
    z'.claims == z.claims && z'.sessions.Keys <= z.sessions.Keys
      && forall w :: w in z'.sessions ==> z'.sessions[w] == z.sessions[w]
  }

  /** The attempt is out of SUBMITTING and no worker holds the item under the latest claim. */
  lemma Leaves(z: Slot, z': Slot)
    requires Numbered(z.c) && Workers(z) && FewerSessions(z, z')
    requires z.c.attempt.Some? && z'.c.attempt.Some? && z'.c.attempt.value.executions == z.c.attempt.value.executions
    requires Fades(z.c.runs, z'.c.runs, z.c.attempt.value.executions)
    requires z'.c.attempt.value.status != Submitting && StatusFits(OpennessOf(z'.log), z'.c.attempt.value.status)
    requires z'.c.item.Some? && InHand(z'.c.item.value) ==> Unheld(z')
    ensures Good(z')
  {
    forall i, j | Top(z'.c, i) && Top(z'.c, j) ensures i == j {
      assert Top(z.c, i) && Top(z.c, j);
    }
  }

  /** Away from SUBMITTING a held item has no session of the latest claim. */
  lemma HeldOnlyWhileSubmitting(z: Slot)
    requires Workers(z) && z.c.item.Some? && InHand(z.c.item.value)
    requires z.c.attempt.None? || z.c.attempt.value.status != Submitting
    ensures Unheld(z)
  {
  }

  /** The same run goes on, its worker perhaps one phase further. */
  lemma Continues(z: Slot, z': Slot)
    requires Good(z) && z.c.attempt.Some? && z'.c.attempt.Some?
    requires z'.c.attempt.value.executions == z.c.attempt.value.executions
    requires z'.c.attempt.value.status == z.c.attempt.value.status
    requires z'.c.item == z.c.item && z'.claims == z.claims && z'.sessions.Keys == z.sessions.Keys
    requires |z'.c.runs| == |z.c.runs|
    requires forall i :: 0 <= i < |z.c.runs| ==>
      z'.c.runs[i].number == z.c.runs[i].number && z'.c.runs[i].worker == z.c.runs[i].worker
      && (z'.c.runs[i].status.Running? <==> z.c.runs[i].status.Running?)
    requires forall w :: w in z.sessions ==>
      && z'.sessions[w].claim == z.sessions[w].claim && z'.sessions[w].run == z.sessions[w].run
      && (Latest(z, w) ==> z'.sessions[w].phase.Opened? || z'.c.runs[z.sessions[w].run].submitInvoked)
    requires History(z')
    ensures Good(z')
  {
    forall i ensures Top(z'.c, i) <==> Top(z.c, i) {}
    if z'.c.attempt.value.status == Submitting {
      var i :| Top(z.c, i);
      assert Top(z'.c, i);
    }
  }

  /** Only the item changed, and no worker gained it. */
  lemma ItemMoves(z: Slot, it: Item)
    requires Good(z)
    requires !InHand(it) || (z.c.item.Some? && InHand(z.c.item.value) && it.state == z.c.item.value.state
                             && it.owner == z.c.item.value.owner)
    ensures Good(z.(c := SetItem(z.c, it)))
  {
    var z' := z.(c := SetItem(z.c, it));
    forall i ensures Top(z'.c, i) <==> Top(z.c, i) {}
  }

  lemma ClaimMoves(z: Slot, w: Worker, until: int)
    requires Good(z) && z.c.item.Some?
    ensures Good(z.(c := SetItem(z.c, Claim(z.c.item.value, w, until)), claims := z.claims + 1))
  {
    var z' := z.(c := SetItem(z.c, Claim(z.c.item.value, w, until)), claims := z.claims + 1);
    forall i ensures Top(z'.c, i) <==> Top(z.c, i) {}
  }

  lemma SessionsDropped(z: Slot, z': Slot)
    requires Good(z) && FewerSessions(z, z') && z'.c == z.c && z'.log == z.log
    ensures Good(z')
  {
  }

  // ---------------------------------------------------------------- recovery

  lemma RecoverGood(z: Slot, now: int)
    requires Good(z)
    ensures Good(z.(c := RecoverOp(z.c, now)))
  {
    if WorkerMayLive(z.c, now) {
      LiveUntouched(z.c, 0, now);
    } else {
      LoopShape(z.c, 0, now);
      if i :| RunningFrom(z.c.runs, 0, i) {
        var z' := z.(c := RecoverOp(z.c, now));
        if z.c.attempt.value.status == Submitting {
          var t :| Top(z.c, t);
          assert RunningFrom(z.c.runs, 0, t);
          if OpennessOf(z.log).Open? {
            assert InvokedFrom(z.c.runs, 0, t);
          }
        }
        Leaves(z, z');
      }
    }
  }

  // ------------------------------------------------- verdicts, human actions

  /** A verdict on a closed run: it changes the attempt and takes the item out of hand, or leaves both alone. */
  lemma VerdictEffect(c: Case, l: Ledger, r: nat, v: Verdict)
    requires c.attempt.Some? && r < |c.runs| && !c.runs[r].status.Running?
    requires ApplyVerdict(c, l, r, v, true).Done?
    ensures var c' := ApplyVerdict(c, l, r, v, true).c;
      && |c'.runs| == |c.runs| && c'.runs == c.runs[r := c'.runs[r]]
      && !c'.runs[r].status.Running? && c'.runs[r].number == c.runs[r].number && c'.runs[r].worker == c.runs[r].worker
      && c'.attempt.Some? && c'.attempt.value.executions == c.attempt.value.executions
      && (match v
          case VerdictVerified => c'.attempt.value.status == Verified && (c'.item.Some? ==> !InHand(c'.item.value))
          case VerdictFailed =>
            c'.attempt.value.status == Status.NeedsReview && (c'.item.Some? ==> !InHand(c'.item.value))
          case VerdictLikely =>
            if c.attempt.value.status == Uncertain
            then c'.attempt.value.status == Status.Submitted && (c'.item.Some? ==> !InHand(c'.item.value))
            else c'.attempt == c.attempt && c'.item == c.item
          case _ => c'.attempt == c.attempt && c'.item == c.item)
  {
  }

  /** Something about a closed run changed, and nothing else. */
  lemma ClosedRunGood(z: Slot, z': Slot, r: nat)
    requires Good(z) && z.c.attempt.Some? && r < |z.c.runs| && !z.c.runs[r].status.Running?
    requires z' == z.(c := z.c.(runs := z'.c.runs))
    requires |z'.c.runs| == |z.c.runs| && z'.c.runs == z.c.runs[r := z'.c.runs[r]]
    requires !z'.c.runs[r].status.Running? && z'.c.runs[r].number == z.c.runs[r].number
    requires z'.c.runs[r].worker == z.c.runs[r].worker
    ensures Good(z')
  {
    forall i ensures Top(z'.c, i) <==> Top(z.c, i) {}
    Continues(z, z');
  }

  lemma VerdictGood(z: Slot, c: Case, l: Ledger, r: nat, v: Verdict)
    requires Good(z) && z.c.attempt.Some? && c.attempt.Some?
    requires c.attempt.value.executions == z.c.attempt.value.executions
    requires c.attempt == z.c.attempt || v.VerdictVerified?
    requires c.item == z.c.item && |c.runs| == |z.c.runs| && r < |c.runs| && c.runs == z.c.runs[r := c.runs[r]]
    requires !c.runs[r].status.Running? && !z.c.runs[r].status.Running?
    requires c.runs[r].number == z.c.runs[r].number && c.runs[r].worker == z.c.runs[r].worker
    requires ApplyVerdict(c, l, r, v, true).Done?
    ensures Good(z.(c := ApplyVerdict(c, l, r, v, true).c,
                    log := if v.VerdictFailed? then z.log + [Denied(r)] else z.log))
  {
    var c' := ApplyVerdict(c, l, r, v, true).c;
    var z' := z.(c := c', log := if v.VerdictFailed? then z.log + [Denied(r)] else z.log);
    VerdictEffect(c, l, r, v);
    Extend(z.log, Denied(r));
    if c'.attempt.value.status == Submitting {
      assert c'.attempt == z.c.attempt && c'.item == z.c.item && z'.log == z.log;
      ClosedRunGood(z, z', r);
    } else {
      if c'.item.Some? && InHand(c'.item.value) {
        HeldOnlyWhileSubmitting(z);
      }
      Leaves(z, z');
    }
  }

  lemma VerifyGood(h: Hyps, z: Slot, l: Ledger, r: nat, v: Verdict)
    requires Good(z)
    ensures Good(ActVerify(h, z, l, r, v).slot)
  {
    if MayJudge(h, z) && VerifyOp(z.c, l, r, v).Done? {
      VerdictGood(z, z.c, l, r, v);
    }
  }

  lemma ConfirmGood(h: Hyps, z: Slot, l: Ledger, r: nat, submitted: bool)
    requires Good(z)
    ensures Good(ActConfirm(h, z, l, r, submitted).slot)
  {
    if MayJudge(h, z) && ConfirmOp(z.c, l, r, submitted).Done? {
      var v := if submitted then VerdictVerified else VerdictFailed;
      if submitted && z.c.runs[r].status.HandedOff? {
        var c := SetAttempt(SetRun(z.c, r, z.c.runs[r].(submitInvoked := true, status := RunSubmitted)),
                            z.c.attempt.value.(status := Status.Submitted));
        VerdictGood(z, c, l, r, v);
      } else {
        VerdictGood(z, z.c, l, r, v);
      }
    }
  }

  /** An accepted retry opens the attempt again, and leaves runs and a held item alone. */
  lemma RetryEffect(c: Case, l: Ledger, now: int)
    requires RetryOp(c, l, now).Done?
    ensures var c' := RetryOp(c, l, now).c;
      && c.attempt.Some? && c'.attempt.Some? && c'.runs == c.runs
      && c.attempt.value.status in {Blocked, Status.NeedsUserInput, Status.NeedsReview, Ready, Failed, Cancelled}
      && c'.attempt.value.executions == c.attempt.value.executions && c'.attempt.value.status == Ready
      && (c'.item.Some? && InHand(c'.item.value) ==> c'.item == c.item)
  {
  }

  lemma RetryGood(h: Hyps, z: Slot, l: Ledger, now: int)
    requires Good(z)
    ensures Good(OfReported(z, l, RetryOp(z.c, l, now), z.log + [Retried]).slot)
  {
    var rep := RetryOp(z.c, l, now);
    if rep.Done? {
      RetryEffect(z.c, l, now);
      Extend(z.log, Retried);
      if z.c.item.Some? && InHand(z.c.item.value) {
        HeldOnlyWhileSubmitting(z);
      }
      Leaves(z, z.(c := rep.c, log := z.log + [Retried]));
    }
  }

  lemma CancelGood(h: Hyps, z: Slot, l: Ledger)
    requires Good(z)
    ensures Good(OfReported(z, l, CancelOp(z.c, l), z.log).slot)
  {
    var rep := CancelOp(z.c, l);
    if rep.Done? {
      Leaves(z, z.(c := rep.c));
    }
  }

  // ---------------------------------------------------------- worker's steps

  lemma ActorIsTop(h: Hyps, z: Slot, w: Worker)
    requires Good(z) && h.claimHolders && MayAct(h, z, w)
    ensures Latest(z, w) && Top(z.c, z.sessions[w].run) && z.c.attempt.value.status == Submitting
    ensures forall i :: Top(z.c, i) ==> i == z.sessions[w].run
    ensures forall v :: Latest(z, v) ==> v == w
    ensures !z.sessions[w].phase.Opened? ==> z.c.runs[z.sessions[w].run].submitInvoked
    ensures OpennessOf(z.log).Open? ==> z.sessions[w].phase.Pressed?
    ensures !OpennessOf(z.log).Doubted?
  {
  }

  lemma PressGood(h: Hyps, z: Slot, l: Ledger, w: Worker)
    requires Good(z) && h.claimHolders
    ensures Good(ActPress(h, z, l, w).slot)
  {
    if MayAct(h, z, w) && z.sessions[w].phase.Granted? {
      ActorIsTop(h, z, w);
      assert OpennessOf(z.log).Clear?;
      Extend(z.log, Press(z.sessions[w].run));
      AdvanceGood(h, z, z.c, w, Pressed);
      PressOpens(z.(sessions := Advanced(z, w, Pressed)), w, z.sessions[w].run);
    }
  }

  /** The only worker at work has pressed: the history opens. */
  lemma PressOpens(z: Slot, w: Worker, r: nat)
    requires Good(z) && OpennessOf(z.log).Clear? && Latest(z, w) && z.sessions[w] == Session(r, z.claims, Pressed)
    ensures Good(z.(log := z.log + [Press(r)]))
  {
    Extend(z.log, Press(r));
    var z' := z.(log := z.log + [Press(r)]);
    forall v ensures Latest(z', v) <==> Latest(z, v) {}
  }

  /** Arming and the gate: records and phase advance, nothing is pressed. */
  lemma AdvanceGood(h: Hyps, z: Slot, c: Case, w: Worker, phase: Phase)
    requires Good(z) && h.claimHolders && MayAct(h, z, w) && !z.sessions[w].phase.Pressed?
    requires c.item == z.c.item && c.attempt.Some?
    requires c.attempt.value.status == z.c.attempt.value.status
    requires c.attempt.value.executions == z.c.attempt.value.executions
    requires c.runs == z.c.runs || c.runs == Marked(z.c, z.sessions[w].run).runs
    requires phase.Opened? || c.runs[z.sessions[w].run].submitInvoked
    ensures Good(z.(c := c, sessions := Advanced(z, w, phase)))
  {
    ActorIsTop(h, z, w);
    var z' := z.(c := c, sessions := Advanced(z, w, phase));
    forall i ensures Top(z'.c, i) <==> Top(z.c, i) {}
    Continues(z, z');
  }

  lemma ArmGood(h: Hyps, z: Slot, l: Ledger, w: Worker)
    requires Good(z) && h.claimHolders
    ensures Good(ActArm(h, z, l, w).slot)
  {
    if MayAct(h, z, w) && z.sessions[w].phase.Opened? {
      AdvanceGood(h, z, Marked(z.c, z.sessions[w].run), w, Armed);
    }
  }

  lemma GateGood(h: Hyps, z: Slot, l: Ledger, w: Worker, call: Call)
    requires Good(z) && h.claimHolders
    ensures Good(ActGate(h, z, l, w, call).slot)
  {
    if MayAct(h, z, w) && z.sessions[w].phase.Armed? {
      ActorIsTop(h, z, w);
      GateOpKeeps(z.c, l, call);
      AdvanceGood(h, z, GateOp(z.c, l, call).c, w, if GateOp(z.c, l, call).ok then Granted else Armed);
      assert Advanced(z, w, Armed) == z.sessions;
    }
  }

  /** A gate passes only for an attempt that is SUBMITTING. */
  lemma GateNeedsSubmitting(c: Case, l: Ledger, call: Call)
    requires c.attempt.Some? && GateOp(c, l, call).ok
    ensures c.attempt.value.status == Submitting
  {
    FindingsMeaning(call.facts, c.attempt.value, true);
  }

  /** The run that the extension is let through to press in is the latest execution, with no open press. */
  lemma ExtensionIsTop(z: Slot, l: Ledger, w: Worker, call: Call)
    requires Good(z) && z.c.item.Some? && z.c.attempt.Some? && ExtensionGateOp(z.c, l, w, call).ok
    ensures z.c.attempt.value.status == Submitting && Owns(z.c.item.value, w) && !OpennessOf(z.log).Open?
    ensures CrashedRun(z.c.runs).Some? && Top(z.c, CrashedRun(z.c.runs).value)
  {
    GateNeedsSubmitting(z.c, l, call);
    var t :| Top(z.c, t);
    assert z.c.runs[CrashedRun(z.c.runs).value].number >= z.c.runs[t].number;
  }

  lemma ExtensionGateGood(z: Slot, l: Ledger, w: Worker, call: Call)
    requires Good(z)
    ensures Good(ActExtensionGate(z, l, w, call).slot)
  {
    var running := CrashedRun(z.c.runs);
    if z.c.item.Some? && z.c.attempt.Some? && running.Some? {
      ExtensionGateOpKeeps(z.c, l, w, call);
      var g := ExtensionGateOp(z.c, l, w, call);
      MarkGood(z, g.c, running.value);
      if g.ok {
        ExtensionPassedGood(z, l, w, call);
      } else {
        assert ActExtensionGate(z, l, w, call).slot == z.(c := g.c);
      }
    }
  }

  lemma ExtensionPassedGood(z: Slot, l: Ledger, w: Worker, call: Call)
    requires Good(z) && z.c.item.Some? && z.c.attempt.Some? && CrashedRun(z.c.runs).Some?
    requires ExtensionGateOp(z.c, l, w, call).ok && Good(z.(c := ExtensionGateOp(z.c, l, w, call).c))
    ensures Good(ActExtensionGate(z, l, w, call).slot)
  {
    var r := CrashedRun(z.c.runs).value;
    var z1 := z.(c := ExtensionGateOp(z.c, l, w, call).c);
    ExtensionGateOpKeeps(z.c, l, w, call);
    ExtensionIsTop(z, l, w, call);
    LetThroughGood(z1, w, r);
    assert ActExtensionGate(z, l, w, call).slot == z1.(sessions := z1.sessions[w := Session(r, z1.claims, Granted)]);
  }

  /** The owner gets a session on the latest execution. */
  lemma LetThroughGood(z: Slot, w: Worker, r: nat)
    requires Good(z) && z.c.item.Some? && Owns(z.c.item.value, w) && !OpennessOf(z.log).Open?
    requires Top(z.c, r) && z.c.attempt.value.status == Submitting && z.c.runs[r].submitInvoked
    ensures Good(z.(sessions := z.sessions[w := Session(r, z.claims, Granted)]))
  {
    var z' := z.(sessions := z.sessions[w := Session(r, z.claims, Granted)]);
    forall v | v != w ensures Latest(z', v) <==> Latest(z, v) {}
  }

  /** A possible click goes on record; nobody moves. */
  lemma MarkGood(z: Slot, c: Case, r: nat)
    requires Good(z) && z.c.attempt.Some? && c.attempt.Some? && c.item == z.c.item && r < |z.c.runs|
    requires c.attempt.value.status == z.c.attempt.value.status
    requires c.attempt.value.executions == z.c.attempt.value.executions
    requires c.runs == z.c.runs || c.runs == z.c.runs[r := z.c.runs[r].(submitInvoked := true)]
    ensures Good(z.(c := c))
  {
    var z' := z.(c := c);
    forall i ensures Top(z'.c, i) <==> Top(z.c, i) {}
    Continues(z, z');
  }

  /** The holder's run closes and the attempt leaves SUBMITTING with a status its history allows. */
  lemma ClosedGood(h: Hyps, z: Slot, c0: Case, z': Slot, w: Worker)
    requires Good(z) && h.claimHolders && MayAct(h, z, w)
    requires z'.sessions == z.sessions - {w} && z'.claims == z.claims
    requires c0 == z.c || c0 == Unmarked(z.c, z.sessions[w].run)
    requires Closes(c0, z'.c, z.sessions[w].run)
    requires StatusFits(OpennessOf(z'.log), z'.c.attempt.value.status)
    ensures Good(z')
  {
    var r := z.sessions[w].run;
    assert z'.c.runs == z.c.runs[r := z'.c.runs[r]];
    Leaves(z, z');
  }

  lemma ReportGood(h: Hyps, z: Slot, l: Ledger, w: Worker, res: Result, disowned: bool, now: int)
    requires Good(z) && Honest(h)
    ensures Good(ActReport(h, z, l, w, res, disowned, now).slot)
  {
    var z' := ActReport(h, z, l, w, res, disowned, now).slot;
    if z' != z {
      var c0 := if disowned then Unmarked(z.c, z.sessions[w].run) else z.c;
      ReportStatusFits(h, z, c0, l, w, res, now);
      ClosedGood(h, z, c0, z', w);
    }
  }

  /** What a report leaves: the run closed and a status that fits the history. */
  lemma ReportStatusFits(h: Hyps, z: Slot, c0: Case, l: Ledger, w: Worker, res: Result, now: int)
    requires Good(z) && h.claimHolders && MayAct(h, z, w)
    requires z.sessions[w].phase.Pressed? ==> res.outcome.Submitted? || res.outcome.Unknown?
    requires c0 == z.c || c0 == Unmarked(z.c, z.sessions[w].run)
    requires ReportOp(c0, l, w, z.sessions[w].run, res, now).Done?
    ensures var r := z.sessions[w].run; var c' := ReportOp(c0, l, w, r, res, now).c;
      && Closes(c0, c', r)
      && StatusFits(OpennessOf(if DenialIn(res) then z.log + [Denied(r)] else z.log), c'.attempt.value.status)
  {
    ActorIsTop(h, z, w);
    Extend(z.log, Denied(z.sessions[w].run));
    ReportEffect(c0, l, w, z.sessions[w].run, res, now);
  }

  // ------------------------------------------------------------------- start

  /** `start` from READY, whatever else is on record: it opens the next execution, loses the race,
      or settles the item. */
  ghost predicate Outcomes(orig: Case, c: Case, w: Worker, step: StartStep)
    requires c.attempt.Some?
  {
    match step.outcome
    case Started(r) =>
      && r == |c.runs| && |step.c.runs| == r + 1 && step.c.runs[..r] == c.runs
      && step.c.runs[r].status.Running? && step.c.runs[r].worker == w
      && step.c.attempt.Some? && step.c.attempt.value.status == Submitting
      && step.c.attempt.value.executions == c.attempt.value.executions + 1 == step.c.runs[r].number
      && step.c.item == c.item
    case LostRace =>
      step.c.attempt == orig.attempt && step.c.runs == orig.runs && step.c.item.Some? && !InHand(step.c.item.value)
    case _ =>
      && step.c.attempt.Some? && step.c.attempt.value.status != Submitting
      && step.c.attempt.value.executions == c.attempt.value.executions
      && Fades(c.runs, step.c.runs, c.attempt.value.executions)
      && step.c.item.Some? && !InHand(step.c.item.value)
  }

  lemma StartReadyOutcomes(orig: Case, c: Case, l: Ledger, w: Worker, call: Call, kit: Kit)
    requires orig.item.Some? && c.item.Some? && c.attempt.Some? && c.attempt.value.status == Ready
    ensures Outcomes(orig, c, w, StartReady(orig, c, l, w, call, kit))
  {
    var report := Evaluate(call.facts, c.attempt.value, l, call.policy, call.keys, true, false);
    EvaluateKeeps(call.facts, c.attempt.value, l, call.policy, call.keys, false);
    if !call.paused && report.failures != [] {
      SettlementOutcome(SetAttempt(c, report.attempt), report.ledger, w, call, report.failures);
    }
  }

  lemma SettlementOutcome(c: Case, l: Ledger, w: Worker, call: Call, codes: seq<Code>)
    requires c.attempt.Some? && c.item.Some? && c.attempt.value.status == Ready
    ensures var c' := SettlePreconditions(c, l, w, call, codes).0;
      && c'.attempt.Some? && c'.attempt.value.status != Submitting
      && c'.attempt.value.executions == c.attempt.value.executions
      && Fades(c.runs, c'.runs, c.attempt.value.executions)
      && c'.item.Some? && !InHand(c'.item.value)
  {
  }

  lemma RemainingBelow(z: Slot, w: Worker)
    requires Good(z) && z.c.item.Some? && HeldBy(z.c.item.value, w)
    ensures forall v :: v in z.sessions && v != w ==> z.sessions[v].claim < z.claims
  {
  }

  /** A new execution opens on a history with no open press. `c` is the case with the crashed run, if any, closed. */
  lemma OpenedGood(z: Slot, c: Case, w: Worker, step: StartStep)
    requires Good(z) && z.c.item.Some? && HeldBy(z.c.item.value, w) && z.c.attempt.Some? && OpennessOf(z.log).Clear?
    requires c.attempt.Some? && c.attempt.value.executions == z.c.attempt.value.executions && |c.runs| == |z.c.runs|
    requires Fades(z.c.runs, c.runs, z.c.attempt.value.executions)
    requires c.item == Some(z.c.item.value.(state := Processing))
    requires step.outcome.Started? && Outcomes(z.c, c, w, step)
    ensures Good(AfterStart(z, w, step).slot)
  {
    RemainingBelow(z, w);
    var z' := AfterStart(z, w, step).slot;
    var r := step.outcome.run;
    forall i | 0 <= i < r ensures step.c.runs[i] == c.runs[i] {
      assert step.c.runs[..r][i] == c.runs[i];
    }
    forall i ensures Top(z'.c, i) <==> i == r {}
    assert Top(z'.c, r);
  }

  lemma ReclaimEffect(c: Case)
    requires Numbered(c) && c.attempt.Some? && c.attempt.value.status == Submitting
    ensures var t := CrashedRun(c.runs); var c' := Reclaim(c);
      && t.Some? && Top(c, t.value)
      && c'.attempt.Some? && c'.attempt.value.executions == c.attempt.value.executions && c'.item == c.item
      && |c'.runs| == |c.runs| && Fades(c.runs, c'.runs, c.attempt.value.executions)
      && c'.attempt.value.status == (if c.runs[t.value].submitInvoked then Uncertain else Ready)
  {
    var i :| Top(c, i);
  }

  lemma StartGood(z: Slot, l: Ledger, w: Worker, call: Call, kit: Kit)
    requires Good(z) && z.c.item.Some?
    ensures Good(AfterStart(z, w, StartOp(z.c, l, w, call, kit)).slot)
  {
    var step := StartOp(z.c, l, w, call, kit);
    var z0 := z.(sessions := z.sessions - {w});
    SessionsDropped(z, z0);
    if !HeldBy(z.c.item.value, w) {
      assert AfterStart(z, w, step).slot == z0;
    } else if z.c.attempt.None? || z.c.attempt.value.status !in {Ready, Submitting} {
      ItemMoves(z0, step.c.item.value);
    } else if z.c.attempt.value.status == Submitting {
      StartReclaimsGood(z, l, w, call, kit);
    } else {
      StartFromReady(z, SetItem(z.c, z.c.item.value.(state := Processing)), l, w, call, kit);
    }
  }

  lemma StartReclaimsGood(z: Slot, l: Ledger, w: Worker, call: Call, kit: Kit)
    requires Good(z) && z.c.item.Some? && HeldBy(z.c.item.value, w) && z.c.attempt.Some?
    requires z.c.attempt.value.status == Submitting
    ensures Good(AfterStart(z, w, StartOp(z.c, l, w, call, kit)).slot)
  {
    var c1 := SetItem(z.c, z.c.item.value.(state := Processing));
    forall i ensures Top(c1, i) <==> Top(z.c, i) {}
    var t :| Top(z.c, t);
    assert Top(c1, t);
    ReclaimEffect(c1);
    if z.c.runs[CrashedRun(c1.runs).value].submitInvoked {
      var z0 := z.(sessions := z.sessions - {w});
      SessionsDropped(z, z0);
      Leaves(z0, AfterStart(z, w, StartOp(z.c, l, w, call, kit)).slot);
    } else {
      StartFromReady(z, Reclaim(c1), l, w, call, kit);
    }
  }

  lemma StartFromReady(z: Slot, c: Case, l: Ledger, w: Worker, call: Call, kit: Kit)
    requires Good(z) && z.c.item.Some? && HeldBy(z.c.item.value, w) && z.c.attempt.Some?
    requires z.c.attempt.value.status == Ready ||
      (z.c.attempt.value.status == Submitting && exists t :: Top(z.c, t) && !z.c.runs[t].submitInvoked)
    requires c.attempt.Some? && c.attempt.value.status == Ready
    requires c.attempt.value.executions == z.c.attempt.value.executions
    requires |c.runs| == |z.c.runs| && Fades(z.c.runs, c.runs, z.c.attempt.value.executions)
    requires c.item == Some(z.c.item.value.(state := Processing))
    ensures Good(AfterStart(z, w, StartReady(z.c, c, l, w, call, kit)).slot)
  {
    var step := StartReady(z.c, c, l, w, call, kit);
    StartReadyOutcomes(z.c, c, l, w, call, kit);
    if step.outcome.Started? {
      assert OpennessOf(z.log).Clear?;
      OpenedGood(z, c, w, step);
    } else if step.outcome.LostRace? {
      LostRaceGood(z, w, step);
    } else {
      assert !OpennessOf(z.log).Open? && !OpennessOf(z.log).Doubted?;
      SettledGood(z, c, w, step);
    }
  }

  /** The race was lost: only the item changed, and it is in nobody's hands. */
  lemma LostRaceGood(z: Slot, w: Worker, step: StartStep)
    requires Good(z) && step.outcome.LostRace?
    requires step.c.attempt == z.c.attempt && step.c.runs == z.c.runs
    requires step.c.item.Some? && !InHand(step.c.item.value)
    ensures Good(AfterStart(z, w, step).slot)
  {
    var z0 := z.(sessions := z.sessions - {w});
    SessionsDropped(z, z0);
    ItemMoves(z0, step.c.item.value);
    assert step.c == SetItem(z0.c, step.c.item.value);
  }

  /** The item was settled without a run. */
  lemma SettledGood(z: Slot, c: Case, w: Worker, step: StartStep)
    requires Good(z) && z.c.attempt.Some? && c.attempt.Some? && OpennessOf(z.log).Clear?
    requires c.attempt.value.executions == z.c.attempt.value.executions
    requires |c.runs| == |z.c.runs| && Fades(z.c.runs, c.runs, z.c.attempt.value.executions)
    requires !step.outcome.Started? && !step.outcome.LostRace? && Outcomes(z.c, c, w, step)
    ensures Good(AfterStart(z, w, step).slot)
  {
    var z0 := z.(sessions := z.sessions - {w});
    SessionsDropped(z, z0);
    Leaves(z0, AfterStart(z, w, step).slot);
  }

  lemma StartStaleGood(z: Slot, l: Ledger, w: Worker)
    requires Good(z)
    ensures Good(ActStartStale(z, l, w).slot)
  {
    if z.c.item.Some? && z.c.attempt.Some? && HeldBy(z.c.item.value, w) {
      var c := SetItem(z.c, z.c.item.value.(state := Processing));
      var step := TakeMutex(z.c, c, l, l, w);
      if step.outcome.Started? {
        OpenedGood(z, c, w, step);
      } else {
        var z0 := z.(sessions := z.sessions - {w});
        SessionsDropped(z, z0);
        ItemMoves(z0, step.c.item.value);
      }
    }
  }

  // ------------------------------------------------------------ every action

  lemma AttemptGood(z: Slot, a: Attempt)
    requires Good(z) && a.status in {Qualified, Preparing, Ready}
    requires z.c.attempt.None?
      || (z.c.attempt.value.status in {Qualified, Preparing} && a.executions == z.c.attempt.value.executions)
    ensures Good(z.(c := SetAttempt(z.c, a)))
  {
    var z' := z.(c := SetAttempt(z.c, a));
    if z.c.attempt.Some? {
      if z.c.item.Some? && InHand(z.c.item.value) {
        HeldOnlyWhileSubmitting(z);
      }
      Leaves(z, z');
    }
  }

  lemma QueueActGood(z: Slot, l: Ledger, action: Action)
    requires Good(z)
    ensures Good(ActQueue(z, l, action).slot)
  {
    if z.c.item.None? {
      if action.Enqueue? {
        ItemMoves(z, Fresh(MAX_ATTEMPTS, action.now));
      }
    } else if action.ClaimItem? && Claimable(z.c.item.value, action.now) {
      ClaimMoves(z, action.w, action.until);
    } else {
      ItemMoves(z, QueueStep(z.c.item.value, action));
    }
  }

  lemma PrepareGood(z: Slot, l: Ledger, from: Status, to: Status)
    requires Good(z) && from in {Qualified, Preparing} && to in {Qualified, Preparing, Ready}
    ensures Good(ActPrepare(z, l, from, to).slot)
  {
    if z.c.attempt.Some? && z.c.attempt.value.status == from {
      AttemptGood(z, z.c.attempt.value.(status := to));
    }
  }

  lemma SchedulingGood(h: Hyps, z: Slot, l: Ledger, action: Action)
    requires Good(z) && Scheduling(action)
    ensures Good(Act(h, z, l, action).slot)
  {
    match action
    case Admit(call) =>
      if z.c.attempt.None? {
        AttemptGood(z, Attempt(Qualified, None, 1, 0, true, false, Some(call.keys.day), Some(call.keys.week)));
      }
    case BeginPreparing => PrepareGood(z, l, Qualified, Preparing);
    case MarkReady => PrepareGood(z, l, Preparing, Ready);
  }

  lemma StartingGood(h: Hyps, z: Slot, l: Ledger, action: Action)
    requires Good(z) && Starting(action)
    ensures Good(Act(h, z, l, action).slot)
  {
    match action
    case Start(w, call, kit) => if z.c.item.Some? { StartGood(z, l, w, call, kit); }
    case StartStale(w) => StartStaleGood(z, l, w);
    case Recover(now) => RecoverGood(z, now);
  }

  lemma InRunGood(h: Hyps, z: Slot, l: Ledger, action: Action)
    requires Good(z) && Honest(h) && InRun(action)
    ensures Good(Act(h, z, l, action).slot)
  {
    match action
    case Arm(w) => ArmGood(h, z, l, w);
    case Gate(w, call) => GateGood(h, z, l, w, call);
    case PressSubmit(w) => PressGood(h, z, l, w);
  }

  lemma JoiningGood(h: Hyps, z: Slot, l: Ledger, action: Action)
    requires Good(z) && Honest(h) && Joining(action)
    ensures Good(Act(h, z, l, action).slot)
  {
    match action
    case ExtensionGate(w, call) => ExtensionGateGood(z, l, w, call);
    case ReportResult(w, res, disowned, now) => ReportGood(h, z, l, w, res, disowned, now);
    case ForeignReport(w, res, now) => assert Act(h, z, l, action).slot == z;
    case Crash(w) => SessionsDropped(z, z.(sessions := z.sessions - {w}));
  }

  lemma JudgingGood(h: Hyps, z: Slot, l: Ledger, action: Action)
    requires Good(z) && Judging(action)
    ensures Good(Act(h, z, l, action).slot)
  {
    match action
    case Verify(r, v) =>
      VerifyGood(h, z, l, r, v);
      assert Act(h, z, l, action) == ActVerify(h, z, l, r, v);
    case Confirm(r, submitted) =>
      ConfirmGood(h, z, l, r, submitted);
      assert Act(h, z, l, action) == ActConfirm(h, z, l, r, submitted);
  }

  lemma ReopeningGood(h: Hyps, z: Slot, l: Ledger, action: Action)
    requires Good(z) && Reopening(action)
    ensures Good(Act(h, z, l, action).slot)
  {
    match action
    case Retry(now) =>
      RetryGood(h, z, l, now);
      assert Act(h, z, l, action) == OfReported(z, l, RetryOp(z.c, l, now), z.log + [Retried]);
    case CancelAttempt =>
      CancelGood(h, z, l);
      assert Act(h, z, l, action) == OfReported(z, l, CancelOp(z.c, l), z.log);
  }

  lemma ActGood(h: Hyps, z: Slot, l: Ledger, action: Action)
    requires Good(z) && Honest(h)
    ensures Good(Act(h, z, l, action).slot)
  {
    if Scheduling(action) {
      SchedulingGood(h, z, l, action);
    } else if Queueing(action) {
      QueueActGood(z, l, action);
    } else if Starting(action) {
      StartingGood(h, z, l, action);
    } else if InRun(action) {
      InRunGood(h, z, l, action);
    } else if Joining(action) {
      JoiningGood(h, z, l, action);
    } else if Judging(action) {
      JudgingGood(h, z, l, action);
    } else {
      ReopeningGood(h, z, l, action);
    }
  }

  ghost predicate AllGood(s: State) {
    forall o :: o in s.slots ==> Good(s.slots[o])
  }

  lemma {:induction false} AlwaysGood(h: Hyps, steps: seq<Label>)
    requires Honest(h)
    ensures AllGood(After(h, steps))
  {
    if steps != [] {
      var n := |steps| - 1;
      AlwaysGood(h, steps[..n]);
      var s := After(h, steps[..n]);
      assert Good(EmptySlot);
      ActGood(h, At(s, steps[n].opp), s.ledger, steps[n].action);
    }
  }

  // ------------------------------------------------------------ at most once

  /** Between two presses of one attempt lies a FAILED verdict on that attempt, then a person's retry. */
  ghost predicate DeniedThenRetried(log: seq<Event>, i: int, j: int) {
    exists k, m :: i < k < m < j && j <= |log| && 0 <= i && log[k].Denied? && log[m].Retried?
  }

  /** What an unbroken history says about its last press. */
  lemma {:induction false} SinceLastPress(log: seq<Event>, i: nat)
    requires i < |log| && log[i].Press? && !OpennessOf(log).Broken?
    ensures OpennessOf(log).Clear? ==> DeniedThenRetried(log, i, |log|)
    ensures OpennessOf(log).Doubted? ==> exists k :: i < k < |log| && log[k].Denied?
  {
    var n := |log| - 1;
    var before := log[..n];
    if i < n {
      SinceLastPress(before, i);
      match OpennessOf(log) {
        case Clear =>
          if OpennessOf(before).Doubted? {
            var k :| i < k < n && before[k].Denied?;
            assert log[k].Denied? && log[n].Retried?;
          } else {
            var k, m :| i < k < m < n && before[k].Denied? && before[m].Retried?;
            assert log[k].Denied? && log[m].Retried?;
          }
        case Doubted =>
          if OpennessOf(before).Doubted? {
            var k :| i < k < n && before[k].Denied?;
            assert log[k].Denied?;
          } else {
            assert log[n].Denied?;
          }
        case _ =>
      }
    }
  }

  lemma {:induction false} UnbrokenPrefix(log: seq<Event>, j: nat)
    requires j <= |log| && !OpennessOf(log).Broken?
    ensures !OpennessOf(log[..j]).Broken?
  {
    if j < |log| {
      UnbrokenPrefix(log[..|log| - 1], j);
      assert log[..|log| - 1][..j] == log[..j];
    } else {
      assert log[..j] == log;
    }
  }

  lemma UnbrokenMeansOnce(log: seq<Event>, i: nat, j: nat)
    requires !OpennessOf(log).Broken? && i < j < |log| && log[i].Press? && log[j].Press?
    ensures DeniedThenRetried(log, i, j)
  {
    UnbrokenPrefix(log, j + 1);
    var upTo := log[..j + 1];
    assert upTo[..j] == log[..j] && upTo[j] == log[j];
    SinceLastPress(log[..j], i);
    var k, m :| i < k < m < j && log[..j][k].Denied? && log[..j][m].Retried?;
    assert log[k].Denied? && log[m].Retried?;
  }

  /** AT MOST ONCE. In every interleaving of workers, crashes, lapsed leases, reports, recoveries,
      verdicts and human actions, two presses of one attempt are separated by a FAILED verdict on
      that attempt followed by a person's retry. */
  lemma AtMostOnePress(h: Hyps, steps: seq<Label>, o: Opp, i: nat, j: nat)
    requires Honest(h)
    requires var log := At(After(h, steps), o).log; i < j < |log| && log[i].Press? && log[j].Press?
    ensures DeniedThenRetried(At(After(h, steps), o).log, i, j)
  {
    AlwaysGood(h, steps);
    UnbrokenMeansOnce(At(After(h, steps), o).log, i, j);
  }
}
