/** Crash recovery: `recover_lost_runs` settles a lost run eagerly, `start` lazily when the item is next
    claimed. What both do, on any records whatsoever. */
module Recovery {
  import opened Base
  import opened Lifecycle
  import opened WorkQueue
  import opened Caps
  import opened Execution
  import opened Protocol
  import opened Coupling

  predicate WorkerMayLive(c: Case, now: int) {
    c.item.Some? && Live(c.item.value, now)
  }

  predicate RunningFrom(runs: seq<Run>, from: nat, i: int) {
    from <= i && IsRunning(runs, i)
  }

  predicate InvokedFrom(runs: seq<Run>, from: nat, i: int) {
    RunningFrom(runs, from, i) && runs[i].submitInvoked
  }

  /** A run as it was, except that it may have been closed and its verdict marked. */
  predicate SameButClosed(x: Run, y: Run) {
    y == x || (!y.status.Running? && y.(status := x.status, verification := x.verification) == x)
  }

  /** A live lease: nothing is touched. */
  lemma {:induction false} LiveUntouched(c: Case, from: nat, now: int)
    requires from <= |c.runs| && WorkerMayLive(c, now)
    ensures RecoverFrom(c, from, now) == c
    decreases |c.runs| - from
  {
    if from < |c.runs| {
      LiveUntouched(c, from + 1, now);
    }
  }

  /** One turn of the loop on a lost case. */
  lemma TurnShape(c: Case, r: nat, now: int)
    requires r < |c.runs| && !WorkerMayLive(c, now)
    ensures var c1 := RecoverRun(c, r, now);
      && |c1.runs| == |c.runs| && !c1.runs[r].status.Running? && !WorkerMayLive(c1, now)
      && (forall i :: 0 <= i < |c.runs| && i != r ==> c1.runs[i] == c.runs[i]) && SameButClosed(c.runs[r], c1.runs[r])
      && (!c.runs[r].status.Running? ==> c1 == c)
      && (c1.attempt.Some? <==> c.attempt.Some?)
      && (c.runs[r].status.Running? && c.attempt.Some? ==>
            && (c1.item.Some? ==> !InHand(c1.item.value))
            && c1.attempt.value.executions == c.attempt.value.executions
            && (if c.runs[r].submitInvoked then c1.attempt.value.status == Uncertain
                else if c.attempt.value.status == Submitting
                  then c1.attempt.value.status == Ready && c1.attempt.value.key.None?
                else c1.attempt == c.attempt))
  {
  }

  /** The whole loop on a lost case, from run `from` on, the earlier ones being over already. */
  lemma {:induction false} LoopShape(c: Case, from: nat, now: int)
    requires from <= |c.runs| && !WorkerMayLive(c, now)
    requires forall i :: 0 <= i < from ==> !c.runs[i].status.Running?
    ensures var c' := RecoverFrom(c, from, now);
      && !WorkerMayLive(c', now)
      && (forall i :: 0 <= i < |c.runs| ==> !c'.runs[i].status.Running? && SameButClosed(c.runs[i], c'.runs[i]))
      && ((forall i :: !RunningFrom(c.runs, from, i)) ==> c' == c)
      && (c'.attempt.Some? <==> c.attempt.Some?)
      && (c.attempt.Some? ==> c'.attempt.value.executions == c.attempt.value.executions)
      && (c.attempt.Some? && (exists i :: RunningFrom(c.runs, from, i)) ==> (c'.item.Some? ==> !InHand(c'.item.value)))
      && (c.attempt.Some? && (exists i :: InvokedFrom(c.runs, from, i)) ==> c'.attempt.value.status == Uncertain)
      && (c.attempt.Some? && (forall i :: !InvokedFrom(c.runs, from, i)) ==>
            if c.attempt.value.status == Submitting && exists i :: RunningFrom(c.runs, from, i)
            then c'.attempt.value.status == Ready && c'.attempt.value.key.None?
            else c'.attempt == c.attempt)
    decreases |c.runs| - from
  {
    if from < |c.runs| {
      var c1, next := RecoverRun(c, from, now), from + 1;
      TurnShape(c, from, now);
      forall i ensures RunningFrom(c1.runs, next, i) <==> RunningFrom(c.runs, from, i) && i != from {}
      forall i ensures InvokedFrom(c1.runs, next, i) <==> InvokedFrom(c.runs, from, i) && i != from {}
      LoopShape(c1, next, now);
      UncertainStays(c1, next, now);
      if IsRunning(c.runs, from) {
        assert RunningFrom(c.runs, from, from) && (InvokedFrom(c.runs, from, from) <==> c.runs[from].submitInvoked);
        ItemStaysDown(c1, next, now);
      }
    }
  }

  lemma {:induction false} UncertainStays(c: Case, from: nat, now: int)
    requires from <= |c.runs|
    ensures c.attempt.Some? && c.attempt.value.status == Uncertain ==>
      RecoverFrom(c, from, now).attempt.Some? && RecoverFrom(c, from, now).attempt.value.status == Uncertain
    decreases |c.runs| - from
  {
    if from < |c.runs| {
      UncertainStays(RecoverRun(c, from, now), from + 1, now);
    }
  }

  lemma {:induction false} ItemStaysDown(c: Case, from: nat, now: int)
    requires from <= |c.runs|
    ensures (c.item.Some? ==> !InHand(c.item.value)) ==>
      (RecoverFrom(c, from, now).item.Some? ==> !InHand(RecoverFrom(c, from, now).item.value))
    decreases |c.runs| - from
  {
    if from < |c.runs| {
      ItemStaysDown(RecoverRun(c, from, now), from + 1, now);
    }
  }

  // --------------------------------------------------------------- theorems

  /** After recovery no RUNNING run is without a live lease. */
  lemma NothingLostRemains(c: Case, now: int, r: int)
    ensures !LostAt(RecoverOp(c, now), r, now)
  {
    if WorkerMayLive(c, now) {
      LiveUntouched(c, 0, now);
    } else {
      LoopShape(c, 0, now);
    }
  }

  /** At a fixed clock a second recovery changes nothing. */
  lemma RecoveryIsIdempotent(c: Case, now: int)
    ensures RecoverOp(RecoverOp(c, now), now) == RecoverOp(c, now)
  {
    var c' := RecoverOp(c, now);
    if WorkerMayLive(c', now) {
      LiveUntouched(c', 0, now);
    } else {
      forall i ensures !RunningFrom(c'.runs, 0, i) {
        NothingLostRemains(c, now, i);
      }
      LoopShape(c', 0, now);
    }
  }

  /** Whatever the records look like, a lost run with `submit_invoked` leaves its attempt UNCERTAIN:
      recovery never returns it to READY. */
  lemma InvokedNeverReady(c: Case, now: int, r: nat)
    requires LostAt(c, r, now) && c.runs[r].submitInvoked && c.attempt.Some?
    ensures RecoverOp(c, now).attempt.Some? && RecoverOp(c, now).attempt.value.status == Uncertain
  {
    assert InvokedFrom(c.runs, 0, r);
    LoopShape(c, 0, now);
  }

  lemma {:induction false} OneTurnIsEnough(c: Case, from: nat, r: nat, now: int)
    requires Coupled(c) && from <= r < |c.runs| && LostAt(c, r, now)
    ensures RecoverFrom(c, from, now) == RecoverRun(c, r, now)
    decreases r - from
  {
    if from < r {
      assert !IsRunning(c.runs, from);
      OneTurnIsEnough(c, from + 1, r, now);
    } else {
      var c1, next := RecoverRun(c, r, now), r + 1;
      TurnShape(c, r, now);
      Closing(c, r, c1.runs[r]);
      assert c1.runs == c.runs[r := c1.runs[r]];
      forall i ensures !RunningFrom(c1.runs, next, i) {
        assert !IsRunning(c1.runs, i);
      }
      forall i | 0 <= i < next ensures !c1.runs[i].status.Running? {
        assert !IsRunning(c1.runs, i);
      }
      LoopShape(c1, next, now);
    }
  }

  /** EAGER VERSUS LAZY. On coupled records, for a lost run, `recover_lost_runs` and the reclaim path of
      `start` reach the same attempt and the same runs, except that only recovery marks the run's
      verdict as pending. */
  lemma EagerAgreesWithLazy(c: Case, r: nat, now: int)
    requires Coupled(c) && LostAt(c, r, now)
    ensures var eager := RecoverOp(c, now); var lazy := Reclaim(c);
      && eager.attempt == lazy.attempt
      && |eager.runs| == |lazy.runs| == |c.runs|
      && (forall i :: 0 <= i < |c.runs| && i != r ==> eager.runs[i] == lazy.runs[i] == c.runs[i])
      && eager.runs[r].(verification := lazy.runs[r].verification) == lazy.runs[r]
      && eager.runs[r].verification == (if c.runs[r].submitInvoked then VerdictPending else lazy.runs[r].verification)
  {
    OneTurnIsEnough(c, 0, r, now);
    var crashed := CrashedRun(c.runs);
    assert IsRunning(c.runs, r) && crashed == Some(r);
  }

  /** The missing mark matters: a retry refuses to pass over a run eagerly marked pending, and is blind
      to the same run when it was settled lazily. */
  lemma OnlyEagerRecoveryGuardsRetry(c: Case, r: nat, now: int)
    requires Coupled(c) && LostAt(c, r, now) && c.runs[r].submitInvoked
    requires forall i :: 0 <= i < |c.runs| && i != r ==> !c.runs[i].status.RunUnknown?
    ensures AwaitsVerdict(RecoverOp(c, now).runs)
    ensures AwaitsVerdict(Reclaim(c).runs) <==>
      c.runs[r].verification.VerdictPending? || c.runs[r].verification.VerdictUnknown?
  {
    EagerAgreesWithLazy(c, r, now);
    assert CrashedRun(c.runs) == Some(r);
    var eager := RecoverOp(c, now);
    OneTurnIsEnough(c, 0, r, now);
    assert eager.runs[r].status.RunUnknown?;
    var lazy := Reclaim(c);
    assert lazy.runs[r].status.RunUnknown? && lazy.runs[r].verification == c.runs[r].verification;
  }
}
