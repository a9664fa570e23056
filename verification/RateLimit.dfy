/** The token bucket: app/jobs/ratelimit.py, in exact reals. The clock is a sequence of readings: the first
    on entry, one more after every sleep. */
module RateLimit {
  import opened Base

  datatype Grant = Grant(at: real, amount: real)

  /** What grants `i` up to, not including, `j` handed out. */
  function Sum(log: seq<Grant>, i: nat, j: nat): real
    requires i <= j <= |log|
  {
    if i == j then 0.0 else Sum(log, i, j - 1) + log[j - 1].amount
  }

  predicate Ascending(clock: seq<real>) {
    forall i, j :: 0 <= i <= j < |clock| ==> clock[i] <= clock[j]
  }

  predicate InOrder(log: seq<Grant>) {
    forall i, j :: 0 <= i <= j < |log| ==> log[i].at <= log[j].at
  }

  /** What drips in over a span of time. */
  function Dripped(rate: real, span: real): real {
    rate * span
  }

  /** Between any two grants, what was handed out is at most a full bucket plus what dripped in meanwhile. */
  ghost predicate Bounded(log: seq<Grant>, capacity: real, rate: real) {
    forall i, j :: 0 <= i < j <= |log| ==> Sum(log, i, j) <= capacity + Dripped(rate, log[j - 1].at - log[i].at)
  }

  /** What has been handed out since grant `i` is missing from the bucket, up to what dripped in. */
  ghost predicate Accounted(log: seq<Grant>, capacity: real, rate: real, tokens: real, updated: real) {
    forall i :: 0 <= i < |log| ==> Sum(log, i, |log|) <= capacity - tokens + Dripped(rate, updated - log[i].at)
  }

  lemma {:induction false} SamePrefix(log: seq<Grant>, g: Grant, i: nat, j: nat)
    requires i <= j <= |log|
    ensures Sum(log + [g], i, j) == Sum(log, i, j)
  {
    if i < j {
      SamePrefix(log, g, i, j - 1);
    }
  }

  lemma DripAdds(rate: real, x: real, y: real, z: real)
    ensures Dripped(rate, z - x) == Dripped(rate, y - x) + Dripped(rate, z - y)
  {
  }

  lemma DripGrows(rate: real, x: real, y: real)
    requires 0.0 < rate && x <= y
    ensures Dripped(rate, x) <= Dripped(rate, y) && Dripped(rate, 0.0) == 0.0
  {
    assert 0.0 <= rate * (y - x);
  }

  lemma RefillAccounted(log: seq<Grant>, capacity: real, rate: real, tokens: real, updated: real, now: real,
                        level: real)
    requires Accounted(log, capacity, rate, tokens, updated)
    requires level == capacity || level == tokens + Dripped(rate, now - updated)
    requires level <= tokens + Dripped(rate, now - updated)
    ensures Accounted(log, capacity, rate, level, now)
  {
    forall i | 0 <= i < |log| ensures Sum(log, i, |log|) <= capacity - level + Dripped(rate, now - log[i].at) {
      DripAdds(rate, log[i].at, updated, now);
    }
  }

  lemma GrantAccounted(log: seq<Grant>, capacity: real, rate: real, level: real, now: real, amount: real)
    requires Accounted(log, capacity, rate, level, now) && level <= capacity
    ensures Accounted(log + [Grant(now, amount)], capacity, rate, level - amount, now)
  {
    var after := log + [Grant(now, amount)];
    forall i | 0 <= i < |after|
      ensures Sum(after, i, |after|) <= capacity - (level - amount) + Dripped(rate, now - after[i].at) {
      SamePrefix(log, Grant(now, amount), i, |log|);
      assert Sum(after, i, |after|) == Sum(log, i, |log|) + amount;
      if i < |log| {
        assert after[i] == log[i];
        assert Sum(log, i, |log|) <= capacity - level + Dripped(rate, now - log[i].at);
      } else {
        assert now - after[i].at == 0.0 && Dripped(rate, 0.0) == 0.0;
      }
    }
  }

  lemma GrantBounded(log: seq<Grant>, capacity: real, rate: real, left: real, g: Grant)
    requires Bounded(log, capacity, rate) && Accounted(log + [g], capacity, rate, left, g.at) && 0.0 <= left
    ensures Bounded(log + [g], capacity, rate)
  {
    var after := log + [g];
    forall i, j | 0 <= i < j <= |after|
      ensures Sum(after, i, j) <= capacity + Dripped(rate, after[j - 1].at - after[i].at) {
      if j < |after| {
        SamePrefix(log, g, i, j);
      }
    }
  }

  lemma Slept(rate: real, short: real, delay: real, slept: real)
    requires 0.0 < rate && delay == short / rate && delay <= slept
    ensures short <= Dripped(rate, slept)
  {
    assert rate * (short / rate) == short;
    DripGrows(rate, delay, slept);
  }

  function Total(delays: seq<real>): real {
    if delays == [] then 0.0 else Total(delays[..|delays| - 1]) + delays[|delays| - 1]
  }

  class TokenBucket {
    const rate: real
    const capacity: real
    var tokens: real
    var updated: real
    ghost var log: seq<Grant>

    ghost predicate Valid()
      reads this
    {
      && 0.0 < rate
      && InOrder(log) && (forall i :: 0 <= i < |log| ==> log[i].at <= updated)
      && Accounted(log, capacity, rate, tokens, updated)
      && Bounded(log, capacity, rate)
    }

    constructor (ratePerMinute: int, burst: Option<int>, now: real)
      ensures Valid() && log == [] && updated == now && tokens == capacity
      ensures rate == Max(ratePerMinute, 1) as real / 60.0
      ensures capacity == if burst.Some? then burst.value as real else Max(ratePerMinute, 1) as real
    {
      rate := Max(ratePerMinute, 1) as real / 60.0;
      capacity := if burst.Some? then burst.value as real else Max(ratePerMinute, 1) as real;
      tokens := if burst.Some? then burst.value as real else Max(ratePerMinute, 1) as real;
      updated := now;
      log := [];
    }

    method Refill(now: real)
      requires Valid() && updated <= now
      modifies this`tokens, this`updated
      ensures Valid() && updated == now
      ensures var full := old(tokens) + Dripped(rate, now - old(updated));
        tokens == if capacity < full then capacity else full
    {
      ghost var before, since := tokens, updated;
      var elapsed := now - updated;
      updated := now;
      tokens := if capacity < tokens + elapsed * rate then capacity else tokens + elapsed * rate;
      RefillAccounted(log, capacity, rate, before, since, now, tokens);
    }

    method Take(amount: real)
      requires Valid() && amount <= tokens <= capacity
      modifies this`tokens, this`log
      ensures Valid() && log == old(log) + [Grant(updated, amount)]
    {
      GrantAccounted(log, capacity, rate, tokens, updated, amount);
      GrantBounded(log, capacity, rate, tokens - amount, Grant(updated, amount));
      log := log + [Grant(updated, amount)];
      tokens := tokens - amount;
    }

    /** `acquire`. Without a grant the clock readings ran out while it was still waiting. */
    method Acquire(amount: real, clock: seq<real>)
      returns (granted: bool, waited: real, ghost used: nat, ghost delays: seq<real>)
      requires Valid() && Ascending(clock) && (forall i :: 0 <= i < |clock| ==> updated <= clock[i])
      modifies this
      ensures Valid() && used <= |clock| && |delays| == if granted then used - 1 else used
      ensures granted ==> 0 < used && log == old(log) + [Grant(clock[used - 1], amount)]
      ensures !granted ==> used == |clock| && log == old(log)
      ensures waited == Total(delays) && forall i :: 0 <= i < |delays| ==> 0.0 < delays[i]
      // one sleep of at least the computed length is enough
      ensures amount <= capacity && 2 <= |clock| && (delays != [] ==> delays[0] <= clock[1] - clock[0]) ==>
        granted && used <= 2
      // more than a full bucket is never granted: the source waits for ever
      ensures capacity < amount ==> !granted
    {
      granted, waited, used, delays := false, 0.0, 0, [];
      var i := 0;
      while i < |clock|
        invariant used == i && waited == Total(delays)
        invariant used <= |clock| && |delays| == used && Valid() && log == old(log)
        invariant forall i :: used <= i < |clock| ==> updated <= clock[i]
        invariant forall i :: 0 <= i < |delays| ==> 0.0 < delays[i]
        invariant used == 1 ==> updated == clock[0] && delays[0] == (amount - tokens) / rate
        invariant amount <= capacity && 1 < used ==> clock[1] - clock[0] < delays[0]
      {
        var now := clock[i];
        if used == 1 && delays[0] <= now - updated {
          Slept(rate, amount - tokens, delays[0], now - updated);
        }
        Refill(now);
        i, used := i + 1, used + 1;
        if amount <= tokens {
          Take(amount);
          granted := true;
          return;
        }
        var delay := (amount - tokens) / rate;
        PositiveDelay(rate, amount - tokens);
        ghost var longer := delays + [delay];
        assert longer[..|longer| - 1] == delays;
        delays := longer;
        waited := waited + delay;
      }
    }
  }

  lemma PositiveDelay(rate: real, short: real)
    requires 0.0 < rate && 0.0 < short
    ensures 0.0 < short / rate
  {
  }

  // ----------------------------------------------------------------- windows

  /** What the first `n` grants handed out within a window. */
  function InWindow(log: seq<Grant>, n: nat, from: real, to: real): real
    requires n <= |log|
  {
    if n == 0 then 0.0
    else
      var last := log[n - 1];
      InWindow(log, n - 1, from, to) + if from <= last.at <= to then last.amount else 0.0
  }

  /** The grants of a window are consecutive. */
  lemma {:induction false} WindowIsSegment(log: seq<Grant>, n: nat, from: real, to: real) returns (i: nat, j: nat)
    requires n <= |log| && InOrder(log)
    ensures i <= j <= n && InWindow(log, n, from, to) == Sum(log, i, j)
    ensures forall k :: i <= k < j ==> from <= log[k].at <= to
    ensures i == j || j == n || to < log[j].at
  {
    if n == 0 {
      i, j := 0, 0;
    } else {
      var m := n - 1;
      i, j := WindowIsSegment(log, m, from, to);
      if from <= log[m].at <= to {
        if i == j {
          i := m;
        }
        j := n;
      }
    }
  }

  /** In any window of length t at most capacity + rate * t tokens are granted, whatever was asked for. */
  lemma RateBound(log: seq<Grant>, capacity: real, rate: real, from: real, to: real)
    requires InOrder(log) && Bounded(log, capacity, rate) && 0.0 <= capacity && 0.0 < rate && from <= to
    ensures InWindow(log, |log|, from, to) <= capacity + Dripped(rate, to - from)
  {
    var i, j := WindowIsSegment(log, |log|, from, to);
    if i < j {
      DripGrows(rate, log[j - 1].at - log[i].at, to - from);
    } else {
      DripGrows(rate, 0.0, to - from);
    }
  }
}
