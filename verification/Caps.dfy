/** The daily / weekly cap ledger (app/scheduler/caps.py) and the cap fields of an
    attempt (app/scheduler/attempts.py). */
module Caps {
  import opened Base
  import opened Lifecycle

  type Day = nat
  type Week = nat

  datatype Row = Row(reserved: int, released: int)
  datatype Ledger = Ledger(days: map<Day, Row>, weeks: map<Week, Row>)

  datatype CapRefusal = DailyCapReached | WeeklyCapReached

  /** The idempotency key a run carries and its attempt's `submission_key` repeats. */
  datatype RunKey = SubmitKey(number: nat, run: nat) | PreKey(number: nat, at: int)

  /** The columns of `applications` the submission workflow reads or writes.
      `reserved` / `released` say whether the two timestamps are set. */
  datatype Attempt = Attempt(
    status: Status,
    key: Option<RunKey>,
    number: nat,
    executions: nat,
    reserved: bool,
    released: bool,
    capDay: Option<Day>,
    capWeek: Option<Week>)

  predicate HoldsSlot(a: Attempt) {
    a.reserved && !a.released
  }

  // ------------------------------------------------------------------ ledger

  function Net<K>(m: map<K, Row>, k: K): int {
    if k in m then m[k].reserved - m[k].released else 0
  }

  function Usage<K>(m: map<K, Row>, k: K): int {
    Max(0, Net(m, k))
  }

  function Ensured<K>(m: map<K, Row>, k: K): map<K, Row> {
    if k in m then m else m[k := Row(0, 0)]
  }

  function Bump<K>(m: map<K, Row>, k: K, delta: int): map<K, Row>
    requires k in m
  {
    m[k := m[k].(reserved := m[k].reserved + delta)]
  }

  function GiveBackOne<K>(m: map<K, Row>, k: K): map<K, Row> {
    var m1 := Ensured(m, k);
    m1[k := m1[k].(released := m1[k].released + 1)]
  }

  /** `CapLedger.reserve`: a day slot, then a week slot, the day handed back when the week is full. */
  function Reserve(l: Ledger, day: Day, week: Week, dailyCap: int, weeklyCap: int): (Ledger, Option<CapRefusal>) {
    if dailyCap <= 0 then (l, Some(DailyCapReached))
    else if weeklyCap <= 0 then (l, Some(WeeklyCapReached))
    else
      var l1 := Ledger(Ensured(l.days, day), Ensured(l.weeks, week));
      if Net(l1.days, day) >= dailyCap then (l1, Some(DailyCapReached))
      else
        var l2 := l1.(days := Bump(l1.days, day, 1));
        if Net(l2.weeks, week) >= weeklyCap
        then (l2.(days := Bump(l2.days, day, -1)), Some(WeeklyCapReached))
        else (l2.(weeks := Bump(l2.weeks, week, 1)), None)
  }

  /** `CapLedger.release`. */
  function GiveBack(l: Ledger, day: Option<Day>, week: Option<Week>): Ledger {
    Ledger(
      if day.Some? then GiveBackOne(l.days, day.value) else l.days,
      if week.Some? then GiveBackOne(l.weeks, week.value) else l.weeks)
  }

  /** `AttemptRepository.release`: end the attempt in `status`, handing the slot back if it holds one. */
  function ReleaseAttempt(a: Attempt, l: Ledger, status: Status): (Attempt, Ledger) {
    if HoldsSlot(a)
    then (a.(status := status, released := true), GiveBack(l, a.capDay, a.capWeek))
    else (a.(status := status), l)
  }

  // ------------------------------------------------------------ _check_caps

  datatype Policy = Policy(dailyCap: int, weeklyCap: int)
  datatype Keys = Keys(day: Day, week: Week)

  datatype CapCheck = CapCheck(refusal: Option<CapRefusal>, attempt: Attempt, ledger: Ledger)

  predicate SamePeriod(a: Attempt, k: Keys) {
    HoldsSlot(a) && a.capDay == Some(k.day) && a.capWeek == Some(k.week)
  }

  /** `PreconditionChecker._check_caps`. */
  function CheckCaps(a: Attempt, l: Ledger, p: Policy, k: Keys, reserve: bool): CapCheck {
    if p.dailyCap <= 0 then CapCheck(Some(DailyCapReached), a, l)
    else if p.weeklyCap <= 0 then CapCheck(Some(WeeklyCapReached), a, l)
    else if SamePeriod(a, k) then CapCheck(None, a, l)
    else if !reserve then
      if Usage(l.days, k.day) >= p.dailyCap then CapCheck(Some(DailyCapReached), a, l)
      else if Usage(l.weeks, k.week) >= p.weeklyCap then CapCheck(Some(WeeklyCapReached), a, l)
      else CapCheck(None, a, l)
    else
      var (l1, refusal) := Reserve(l, k.day, k.week, p.dailyCap, p.weeklyCap);
      if refusal.Some? then CapCheck(refusal, a, l1)
      else
        var l2 := if HoldsSlot(a) then GiveBack(l1, a.capDay, a.capWeek) else l1;
        CapCheck(None, a.(capDay := Some(k.day), capWeek := Some(k.week), reserved := true, released := false), l2)
  }

  // ---------------------------------------------------------------- meaning

  function DayBit(a: Option<Attempt>, d: Day): nat {
    if a.Some? && HoldsSlot(a.value) && a.value.capDay == Some(d) then 1 else 0
  }

  function WeekBit(a: Option<Attempt>, w: Week): nat {
    if a.Some? && HoldsSlot(a.value) && a.value.capWeek == Some(w) then 1 else 0
  }

  /** Every slot is taken for a definite day and week, and an ended attempt holds none. */
  predicate CapFields(a: Option<Attempt>) {
    a.Some? ==>
      && (HoldsSlot(a.value) ==> a.value.capDay.Some? && a.value.capWeek.Some?)
      && (a.value.status in {Failed, Cancelled, Closed} ==> !HoldsSlot(a.value))
  }

  /** Double-entry: the ledger moves exactly as the attempt's own slot does. */
  ghost predicate Balanced(a: Option<Attempt>, l: Ledger, a': Option<Attempt>, l': Ledger) {
    && (forall d: Day :: Net(l'.days, d) - Net(l.days, d) == DayBit(a', d) - DayBit(a, d))
    && (forall w: Week :: Net(l'.weeks, w) - Net(l.weeks, w) == WeekBit(a', w) - WeekBit(a, w))
  }

  /** No period's usage rises above the larger of its cap and what it was. */
  ghost predicate WithinCaps(l: Ledger, l': Ledger, p: Policy) {
    && (forall d: Day :: Net(l'.days, d) <= Max(p.dailyCap, Net(l.days, d)))
    && (forall w: Week :: Net(l'.weeks, w) <= Max(p.weeklyCap, Net(l.weeks, w)))
  }

  lemma BalancedTrans(a: Option<Attempt>, l: Ledger, a1: Option<Attempt>, l1: Ledger, a2: Option<Attempt>, l2: Ledger)
    requires Balanced(a, l, a1, l1) && Balanced(a1, l1, a2, l2)
    ensures Balanced(a, l, a2, l2)
  {
    forall d: Day ensures Net(l2.days, d) - Net(l.days, d) == DayBit(a2, d) - DayBit(a, d) {
      assert Net(l1.days, d) - Net(l.days, d) == DayBit(a1, d) - DayBit(a, d);
    }
    forall w: Week ensures Net(l2.weeks, w) - Net(l.weeks, w) == WeekBit(a2, w) - WeekBit(a, w) {
      assert Net(l1.weeks, w) - Net(l.weeks, w) == WeekBit(a1, w) - WeekBit(a, w);
    }
  }

  /** A reservation takes one unit of the day and one of the week, or nothing at all. */
  lemma ReserveMeaning(l: Ledger, day: Day, week: Week, dailyCap: int, weeklyCap: int)
    ensures var (l', refusal) := Reserve(l, day, week, dailyCap, weeklyCap);
      && (refusal.None? <==>
            dailyCap > 0 && weeklyCap > 0 && Net(l.days, day) < dailyCap && Net(l.weeks, week) < weeklyCap)
      && (forall d: Day :: Net(l'.days, d) == Net(l.days, d) + (if refusal.None? && d == day then 1 else 0))
      && (forall w: Week :: Net(l'.weeks, w) == Net(l.weeks, w) + (if refusal.None? && w == week then 1 else 0))
  {
  }

  lemma GiveBackMeaning(l: Ledger, day: Day, week: Week)
    ensures var l' := GiveBack(l, Some(day), Some(week));
      && (forall d: Day :: Net(l'.days, d) == Net(l.days, d) - (if d == day then 1 else 0))
      && (forall w: Week :: Net(l'.weeks, w) == Net(l.weeks, w) - (if w == week then 1 else 0))
  {
  }

  /** A preview writes nothing and says yes exactly when a reservation from the same state would. */
  lemma PreviewAgrees(a: Attempt, l: Ledger, p: Policy, k: Keys)
    ensures var preview := CheckCaps(a, l, p, k, false);
      && preview.attempt == a && preview.ledger == l
      && preview.refusal == CheckCaps(a, l, p, k, true).refusal
  {
    ReserveMeaning(l, k.day, k.week, p.dailyCap, p.weeklyCap);
  }

  /** Taking or refreshing the slot keeps the books balanced and the caps respected,
      and a granted check leaves the attempt holding a slot of the current periods. */
  lemma CheckCapsBalanced(a: Attempt, l: Ledger, p: Policy, k: Keys)
    requires CapFields(Some(a))
    ensures var r := CheckCaps(a, l, p, k, true);
      && Balanced(Some(a), l, Some(r.attempt), r.ledger)
      && WithinCaps(l, r.ledger, p)
      && (r.refusal.None? ==> SamePeriod(r.attempt, k))
      && (r.refusal.Some? ==> r.attempt == a)
      && r.attempt.(capDay := a.capDay, capWeek := a.capWeek, reserved := a.reserved, released := a.released) == a
  {
    if p.dailyCap > 0 && p.weeklyCap > 0 && !SamePeriod(a, k) {
      var (l1, refusal) := Reserve(l, k.day, k.week, p.dailyCap, p.weeklyCap);
      ReserveMeaning(l, k.day, k.week, p.dailyCap, p.weeklyCap);
      if refusal.None? {
        MovedSlotBalances(a, l, l1, p, k);
      }
    }
  }

  /** The new slot is in the ledger; the old one, if any, goes back. */
  lemma MovedSlotBalances(a: Attempt, l: Ledger, l1: Ledger, p: Policy, k: Keys)
    requires CapFields(Some(a)) && Net(l.days, k.day) < p.dailyCap && Net(l.weeks, k.week) < p.weeklyCap
    requires forall d: Day :: Net(l1.days, d) == Net(l.days, d) + (if d == k.day then 1 else 0)
    requires forall w: Week :: Net(l1.weeks, w) == Net(l.weeks, w) + (if w == k.week then 1 else 0)
    ensures var l2 := if HoldsSlot(a) then GiveBack(l1, a.capDay, a.capWeek) else l1;
      var a2 := a.(capDay := Some(k.day), capWeek := Some(k.week), reserved := true, released := false);
      Balanced(Some(a), l, Some(a2), l2) && WithinCaps(l, l2, p)
  {
    if HoldsSlot(a) {
      GiveBackMeaning(l1, a.capDay.value, a.capWeek.value);
    }
  }

  lemma ReleaseBalanced(a: Attempt, l: Ledger, status: Status, p: Policy)
    requires CapFields(Some(a))
    ensures var (a', l') := ReleaseAttempt(a, l, status);
      Balanced(Some(a), l, Some(a'), l') && WithinCaps(l, l', p) && CapFields(Some(a')) && !HoldsSlot(a')
  {
    if HoldsSlot(a) {
      GiveBackMeaning(l, a.capDay.value, a.capWeek.value);
    }
  }

  /** The refresh takes the new slot before it returns the old one, so an attempt that already
      owns one of a full week's slots cannot move to the next day of that same week: it is
      refused although the week's usage would not have changed. */
  lemma OwnWeekBlocksRefresh(a: Attempt, l: Ledger, p: Policy, k: Keys)
    requires p.dailyCap > 0 && p.weeklyCap > 0
    requires HoldsSlot(a) && a.capWeek == Some(k.week) && a.capDay != Some(k.day)
    requires Net(l.days, k.day) < p.dailyCap
    ensures CheckCaps(a, l, p, k, true).refusal.Some? <==> Net(l.weeks, k.week) >= p.weeklyCap
  {
    ReserveMeaning(l, k.day, k.week, p.dailyCap, p.weeklyCap);
  }
}
