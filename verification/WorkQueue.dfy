/** The SUBMIT queue item: app/pipeline/queue.py. One owner, one lease; settling an
    item as a worker needs ownership (`Owns`), parking it for a person does not. */
module WorkQueue {
  import opened Base

  type Worker = nat

  datatype QueueState =
    | Pending | Claimed | Processing | Succeeded | FailedItem | RetryWait
    | BlockedItem | ReviewItem | CancelledItem

  datatype Item = Item(
    state: QueueState,
    owner: Option<Worker>,
    lease: Option<int>,
    attempts: nat,
    maxAttempts: nat,
    availableAt: int)

  /** `_assert_owner`. */
  predicate Owns(it: Item, w: Worker) {
    it.owner == Some(w)
  }

  predicate InHand(it: Item) {
    it.state.Claimed? || it.state.Processing?
  }

  predicate HeldBy(it: Item, w: Worker) {
    InHand(it) && Owns(it, w)
  }

  /** A worker may still be acting: the test of `recover_lost_runs`. */
  predicate Live(it: Item, now: int) {
    InHand(it) && it.lease.Some? && it.lease.value >= now
  }

  predicate Lapsed(it: Item, now: int) {
    InHand(it) && it.lease.Some? && it.lease.value < now
  }

  predicate Parked(it: Item) {
    it.state.BlockedItem? || it.state.ReviewItem? || it.state.FailedItem? || it.state.CancelledItem?
  }

  function Fresh(maxAttempts: nat, now: int): Item {
    Item(Pending, None, None, 0, maxAttempts, now)
  }

  predicate Claimable(it: Item, now: int) {
    || ((it.state.Pending? || it.state.RetryWait?) && it.availableAt <= now)
    || (Lapsed(it, now) && it.attempts < it.maxAttempts)
  }

  function Claim(it: Item, w: Worker, until: int): Item {
    it.(state := Claimed, owner := Some(w), lease := Some(until), attempts := it.attempts + 1)
  }

  /** Given back without counting as a failure. */
  function Release(it: Item): Item {
    it.(state := Pending, owner := None, lease := None, attempts := if it.attempts == 0 then 0 else it.attempts - 1)
  }

  function Succeed(it: Item): Item {
    it.(state := Succeeded, lease := None)
  }

  function Fail(it: Item, retryable: bool, now: int): Item {
    if retryable && it.attempts < it.maxAttempts
    then it.(state := RetryWait, owner := None, lease := None, availableAt := now + Backoff(it.attempts))
    else it.(state := FailedItem, lease := None)
  }

  /** 60 seconds, doubled for every attempt after the first. */
  function Backoff(attempts: nat): int {
    if attempts <= 1 then 60 else 2 * Backoff(attempts - 1)
  }

  function Block(it: Item): Item {
    it.(state := BlockedItem, lease := None)
  }

  function Review(it: Item): Item {
    it.(state := ReviewItem, owner := None, lease := None)
  }

  function Resolve(it: Item): Item {
    it.(state := Succeeded, owner := None, lease := None)
  }

  function Cancel(it: Item): Item {
    it.(state := CancelledItem, owner := None, lease := None)
  }

  function Requeue(it: Item, now: int): Item {
    it.(state := Pending, owner := None, lease := None, attempts := 0, availableAt := now)
  }

  /** A lapsed lease: back to PENDING, or to a person once every attempt was used. */
  function Expire(it: Item): Item {
    if it.attempts >= it.maxAttempts then Review(it) else it.(state := Pending, owner := None, lease := None)
  }

  // ------------------------------------------------------------- what it means

  /** One owner at a time: nobody takes an item whose lease is live, and a claim makes it live for its new
      owner up to the end of the lease. */
  lemma OneOwnerAtATime(it: Item, w: Worker, now: int, until: int, later: int)
    ensures Live(it, now) ==> !Claimable(it, now)
    ensures var c := Claim(it, w, until); HeldBy(c, w) && (later <= until ==> Live(c, later) && !Claimable(c, later))
    ensures var c := Claim(it, w, until);
      c.attempts == it.attempts + 1 && c.maxAttempts == it.maxAttempts && c.availableAt == it.availableAt
  {
  }

  /** Giving an item back undoes the claim: it waits unowned with the attempts it had. */
  lemma ReleaseUndoesClaim(it: Item, w: Worker, until: int, now: int)
    ensures var r := Release(Claim(it, w, until));
      r.attempts == it.attempts && r.owner.None? && r.lease.None? && (Claimable(r, now) <==> it.availableAt <= now)
  {
  }

  /** Every way a worker or a person settles an item takes it out of all hands, and nothing that is parked,
      failed or done can be claimed. */
  lemma SettledIsOutOfReach(it: Item, now: int, later: int)
    ensures forall x :: x in {Succeed(it), Fail(it, false, now), Block(it), Review(it), Resolve(it), Cancel(it)} ==>
      !InHand(x) && !Claimable(x, later)
    ensures !InHand(Expire(it)) && !InHand(Requeue(it, now)) && !InHand(Release(it)) && !InHand(Fail(it, true, now))
    ensures Claimable(Requeue(it, now), later) <==> now <= later
    ensures Claimable(Expire(it), later) <==> it.attempts < it.maxAttempts && it.availableAt <= later
  {
  }

  function Pow2(n: nat): nat {
    if n == 0 then 1 else 2 * Pow2(n - 1)
  }

  lemma {:induction false} BackoffIsExponential(attempts: nat)
    ensures Backoff(attempts) == 60 * Pow2(if attempts == 0 then 0 else attempts - 1)
  {
    if attempts > 1 {
      BackoffIsExponential(attempts - 1);
    }
  }

  /** The item after `rounds` claims that each ended in a retryable failure. */
  function Rounds(it: Item, w: Worker, rounds: nat, now: int): Item {
    if rounds == 0 then it else Fail(Claim(Rounds(it, w, rounds - 1, now), w, now), true, now)
  }

  /** A fresh item is executed at most `maxAttempts` times: until then a failure waits out its backoff, and
      with the last one the item is FAILED and stays out of reach. */
  lemma {:induction false} RetriesAreBounded(maxAttempts: nat, w: Worker, rounds: nat, now: int, later: int)
    requires 0 < rounds <= maxAttempts
    ensures var it := Rounds(Fresh(maxAttempts, now), w, rounds, now);
      && it.attempts == rounds && it.maxAttempts == maxAttempts && !InHand(it)
      && (Claimable(it, later) <==> rounds < maxAttempts && now + 60 * Pow2(rounds - 1) <= later)
      && (it.state.FailedItem? <==> rounds == maxAttempts)
  {
    BackoffIsExponential(rounds);
    if rounds > 1 {
      RetriesAreBounded(maxAttempts, w, rounds - 1, now, later);
    }
  }
}
