/** Submission-time preconditions: app/execution/preconditions.py. */
module Preconditions {
  import opened Base
  import opened Lifecycle
  import opened Caps

  datatype Code =
    | AttemptNotReady | PreparationMissing | TenantMismatch | OpportunityMismatch
    | PreparationNotReady | PreparationInvalidated | PreparationNotCurrent | PreparationStale
    | ValidationFailed | UserInputRequired | OpportunityClosed | CompanyBlocked
    | CooldownActive | AlreadySubmitted | DuplicateApplication | DuplicateOpportunity
    | SlotReleased | CapReached(cap: CapRefusal)

  datatype PreparationStatus = PrepReady | PrepInvalidated | PrepSuperseded | PrepOther

  datatype PreparedAnswer = PreparedAnswer(required: bool, needsInput: bool)

  datatype Preparation = Preparation(
    ownTenant: bool,
    sameOpportunity: bool,
    status: PreparationStatus,
    validationPassed: bool,
    answers: seq<PreparedAnswer>)

  /** The opening and the company history behind it; the history queries are read as three findings. */
  datatype Opening = Opening(
    closed: bool,
    candidateEnded: bool,
    companyBlocked: bool,
    cooldown: bool,
    duplicateTitle: bool,
    repostBlocked: bool)

  /** Everything the check reads besides the attempt and the ledger. */
  datatype Facts = Facts(
    ownTenant: bool,
    preparation: Option<Preparation>,
    staleInputs: seq<string>,
    opening: Option<Opening>)

  // ---------------------------------------------------- the findings, in order

  function Expected(executing: bool): Status {
    if executing then Submitting else Ready
  }

  function If(c: bool, code: Code): seq<Code> {
    if c then [code] else []
  }

  predicate Unanswered(p: Preparation) {
    exists i :: 0 <= i < |p.answers| && p.answers[i].required && p.answers[i].needsInput
  }

  function PreparationFindings(p: Preparation, stale: seq<string>): seq<Code> {
    If(!p.ownTenant, TenantMismatch)
    + If(!p.sameOpportunity, OpportunityMismatch)
    + (match p.status
       case PrepInvalidated => [PreparationInvalidated]
       case PrepSuperseded => [PreparationNotCurrent]
       case PrepOther => [PreparationNotReady]
       case PrepReady => [])
    + If(!p.validationPassed, ValidationFailed)
    + If(Unanswered(p), UserInputRequired)
    + If(stale != [], PreparationStale)
  }

  function OpeningFindings(o: Opening): seq<Code> {
    If(o.closed, OpportunityClosed) + If(o.candidateEnded, OpportunityClosed) + If(o.companyBlocked, CompanyBlocked)
    + If(o.cooldown, CooldownActive) + If(o.duplicateTitle, DuplicateApplication)
      + If(o.repostBlocked, DuplicateOpportunity)
  }

  function Findings(f: Facts, a: Attempt, executing: bool): seq<Code> {
    if !f.ownTenant then [TenantMismatch]
    else if a.status in SUBMITTED_STATUSES && a.status != Expected(executing) then [AlreadySubmitted]
    else
      If(a.status != Expected(executing), AttemptNotReady)
      + If(a.released, SlotReleased)
      + (if f.preparation.None? then [PreparationMissing] else PreparationFindings(f.preparation.value, f.staleInputs))
      + (if f.opening.None? then [OpportunityClosed] else OpeningFindings(f.opening.value))
  }

  datatype Report = Report(failures: seq<Code>, attempt: Attempt, ledger: Ledger)

  function Evaluate(f: Facts, a: Attempt, l: Ledger, p: Policy, k: Keys, reserve: bool, executing: bool): Report {
    var found := Findings(f, a, executing);
    if found != [] then Report(found, a, l)
    else
      var c := CheckCaps(a, l, p, k, reserve);
      Report(if c.refusal.Some? then [CapReached(c.refusal.value)] else [], c.attempt, c.ledger)
  }

  // ------------------------------------------------------------- the meaning

  /** The preparation is this tenant's current, validated, complete and fresh one. */
  predicate PreparationSound(p: Preparation, stale: seq<string>) {
    && p.ownTenant && p.sameOpportunity && p.status.PrepReady? && p.validationPassed
    && (forall i :: 0 <= i < |p.answers| && p.answers[i].required ==> !p.answers[i].needsInput)
    && stale == []
  }

  /** The opening is open, the candidate still wants it, and no history speaks against it. */
  predicate OpeningClear(o: Opening) {
    && !o.closed && !o.candidateEnded && !o.companyBlocked
    && !o.cooldown && !o.duplicateTitle && !o.repostBlocked
  }

  /** The failure about the preparation that a code stands for. */
  predicate PreparationFails(p: Preparation, stale: seq<string>, code: Code) {
    match code
    case TenantMismatch => !p.ownTenant
    case OpportunityMismatch => !p.sameOpportunity
    case PreparationInvalidated => p.status.PrepInvalidated?
    case PreparationNotCurrent => p.status.PrepSuperseded?
    case PreparationNotReady => p.status.PrepOther?
    case ValidationFailed => !p.validationPassed
    case UserInputRequired => exists i :: 0 <= i < |p.answers| && p.answers[i].required && p.answers[i].needsInput
    case PreparationStale => stale != []
    case _ => false
  }

  /** The failure about the opening that a code stands for. */
  predicate OpeningFails(o: Opening, code: Code) {
    match code
    case OpportunityClosed => o.closed || o.candidateEnded
    case CompanyBlocked => o.companyBlocked
    case CooldownActive => o.cooldown
    case DuplicateApplication => o.duplicateTitle
    case DuplicateOpportunity => o.repostBlocked
    case _ => false
  }

  lemma PreparationFindingsMeaning(p: Preparation, stale: seq<string>)
    ensures forall code :: code in PreparationFindings(p, stale) <==> PreparationFails(p, stale, code)
    ensures PreparationFindings(p, stale) == [] <==> PreparationSound(p, stale)
  {
    assert Unanswered(p) <==> PreparationFails(p, stale, UserInputRequired);
    if PreparationFindings(p, stale) == [] {
      assert forall code :: code !in PreparationFindings(p, stale);
    }
  }

  lemma OpeningFindingsMeaning(o: Opening)
    ensures forall code :: code in OpeningFindings(o) <==> OpeningFails(o, code)
    ensures OpeningFindings(o) == [] <==> OpeningClear(o)
  {
  }

  /** What must hold of the world, as one conjunction. */
  predicate Eligible(f: Facts, a: Attempt, executing: bool) {
    && f.ownTenant
    && a.status == Expected(executing)
    && !a.released
    && f.preparation.Some? && PreparationSound(f.preparation.value, f.staleInputs)
    && f.opening.Some? && OpeningClear(f.opening.value)
  }

  /** A slot of the current periods is held already, or one can still be taken. */
  predicate SlotAvailable(a: Attempt, l: Ledger, p: Policy, k: Keys) {
    && p.dailyCap > 0 && p.weeklyCap > 0
    && (SamePeriod(a, k) || (Net(l.days, k.day) < p.dailyCap && Net(l.weeks, k.week) < p.weeklyCap))
  }

  lemma FindingsMeaning(f: Facts, a: Attempt, executing: bool)
    ensures Findings(f, a, executing) == [] <==> Eligible(f, a, executing)
  {
    if f.preparation.Some? {
      PreparationFindingsMeaning(f.preparation.value, f.staleInputs);
    }
    if f.opening.Some? {
      OpeningFindingsMeaning(f.opening.value);
    }
  }

  /** The check passes exactly when every condition holds and a slot is available; with `reserve`
      the slot is then held in the current periods, and without it nothing is written at all. */
  lemma CheckMeaning(f: Facts, a: Attempt, l: Ledger, p: Policy, k: Keys, executing: bool)
    requires CapFields(Some(a))
    ensures Evaluate(f, a, l, p, k, true, executing).failures == [] <==>
      Eligible(f, a, executing) && SlotAvailable(a, l, p, k)
    ensures Evaluate(f, a, l, p, k, false, executing) == Report(Evaluate(f, a, l, p, k, true, executing).failures, a, l)
    ensures var r := Evaluate(f, a, l, p, k, true, executing);
      && Balanced(Some(a), l, Some(r.attempt), r.ledger) && WithinCaps(l, r.ledger, p)
      && (r.failures == [] ==> SamePeriod(r.attempt, k))
      && (r.failures != [] ==> r.attempt == a)
      && r.attempt.(capDay := a.capDay, capWeek := a.capWeek, reserved := a.reserved, released := a.released) == a
  {
    FindingsMeaning(f, a, executing);
    ReserveMeaning(l, k.day, k.week, p.dailyCap, p.weeklyCap);
    PreviewAgrees(a, l, p, k);
    CheckCapsBalanced(a, l, p, k);
  }

  /** The codes found before the caps are looked at. */
  predicate FoundBeforeCaps(f: Facts, a: Attempt, executing: bool, code: Code) {
    match code
    case AttemptNotReady => a.status != if executing then Submitting else Ready
    case SlotReleased => a.released
    case PreparationMissing => f.preparation.None?
    case CapReached(_) => false
    case _ =>
      || (f.preparation.Some? && PreparationFails(f.preparation.value, f.staleInputs, code))
      || (if f.opening.Some? then OpeningFails(f.opening.value, code) else code == OpportunityClosed)
  }

  /** When a code is reported: another tenant's attempt, or one that was submitted already, is reported alone;
      a cap only when nothing else is wrong, and the day's before the week's. */
  predicate Found(f: Facts, a: Attempt, l: Ledger, p: Policy, k: Keys, executing: bool, code: Code) {
    var expected := if executing then Submitting else Ready;
    var elsewhere := a.status != expected && a.status in {Submitting, Submitted, Verified, Uncertain, Interviewing};
    var dayFull := p.dailyCap <= 0 || (p.weeklyCap > 0 && !SamePeriod(a, k) && Net(l.days, k.day) >= p.dailyCap);
    var weekFull := p.weeklyCap <= 0 || (!SamePeriod(a, k) && Net(l.weeks, k.week) >= p.weeklyCap);
    if !f.ownTenant then code == TenantMismatch
    else if elsewhere then code == AlreadySubmitted
    else if code.CapReached? then
      Eligible(f, a, executing) && if code.cap.DailyCapReached? then dayFull else !dayFull && weekFull
    else FoundBeforeCaps(f, a, executing, code)
  }

  /** Which codes a check reports, on any records and with or without a reservation. */
  lemma CodesMeaning(f: Facts, a: Attempt, l: Ledger, p: Policy, k: Keys, reserve: bool, executing: bool)
    ensures forall code :: code in Evaluate(f, a, l, p, k, reserve, executing).failures <==>
      Found(f, a, l, p, k, executing, code)
  {
    if f.ownTenant && !(a.status in SUBMITTED_STATUSES && a.status != Expected(executing)) {
      forall code ensures code in Evaluate(f, a, l, p, k, reserve, executing).failures <==>
        Found(f, a, l, p, k, executing, code)
      {
        CodeMeaning(f, a, l, p, k, reserve, executing, code);
      }
    }
  }

  lemma CodeMeaning(f: Facts, a: Attempt, l: Ledger, p: Policy, k: Keys, reserve: bool, executing: bool, code: Code)
    requires f.ownTenant && !(a.status in SUBMITTED_STATUSES && a.status != Expected(executing))
    ensures code in Evaluate(f, a, l, p, k, reserve, executing).failures <==> Found(f, a, l, p, k, executing, code)
  {
    FindingsMeaning(f, a, executing);
    FindingMeaning(f, a, executing, code);
    FoundIn(f, a, l, p, k, reserve, executing, Findings(f, a, executing), code);
  }

  /** Caps are looked at when nothing was found before. */
  lemma FoundIn(f: Facts, a: Attempt, l: Ledger, p: Policy, k: Keys, reserve: bool, executing: bool, found: seq<Code>,
                code: Code)
    requires f.ownTenant && !(a.status in SUBMITTED_STATUSES && a.status != Expected(executing))
    requires found == [] <==> Eligible(f, a, executing)
    requires code in found <==> FoundBeforeCaps(f, a, executing, code)
    ensures var refusal := CheckCaps(a, l, p, k, reserve).refusal;
      Found(f, a, l, p, k, executing, code) <==>
        if found != [] then code in found else refusal.Some? && code == CapReached(refusal.value)
  {
    RefusalMeaning(a, l, p, k, reserve);
  }

  lemma FindingMeaning(f: Facts, a: Attempt, executing: bool, code: Code)
    requires f.ownTenant && !(a.status in SUBMITTED_STATUSES && a.status != Expected(executing))
    ensures code in Findings(f, a, executing) <==> FoundBeforeCaps(f, a, executing, code)
  {
    PreparationPart(f, code);
    OpeningPart(f, code);
    InFour(If(a.status != Expected(executing), AttemptNotReady), If(a.released, SlotReleased),
           if f.preparation.None? then [PreparationMissing]
           else PreparationFindings(f.preparation.value, f.staleInputs),
           if f.opening.None? then [OpportunityClosed] else OpeningFindings(f.opening.value), code);
  }

  lemma PreparationPart(f: Facts, code: Code)
    ensures f.preparation.None? ==> (code in [PreparationMissing] <==> code == PreparationMissing)
    ensures f.preparation.Some? ==>
      (code in PreparationFindings(f.preparation.value, f.staleInputs) <==>
         PreparationFails(f.preparation.value, f.staleInputs, code))
  {
    if f.preparation.Some? {
      PreparationFindingsMeaning(f.preparation.value, f.staleInputs);
    }
  }

  lemma OpeningPart(f: Facts, code: Code)
    ensures f.opening.None? ==> (code in [OpportunityClosed] <==> code == OpportunityClosed)
    ensures f.opening.Some? ==> (code in OpeningFindings(f.opening.value) <==> OpeningFails(f.opening.value, code))
  {
    if f.opening.Some? {
      OpeningFindingsMeaning(f.opening.value);
    }
  }

  lemma InFour(s: seq<Code>, t: seq<Code>, u: seq<Code>, v: seq<Code>, code: Code)
    ensures code in s + t + u + v <==> code in s || code in t || code in u || code in v
  {
  }

  lemma RefusalMeaning(a: Attempt, l: Ledger, p: Policy, k: Keys, reserve: bool)
    ensures var refusal := CheckCaps(a, l, p, k, reserve).refusal;
      var dayFull := p.dailyCap <= 0 || (p.weeklyCap > 0 && !SamePeriod(a, k) && Net(l.days, k.day) >= p.dailyCap);
      var weekFull := p.weeklyCap <= 0 || (!SamePeriod(a, k) && Net(l.weeks, k.week) >= p.weeklyCap);
      && (refusal == Some(DailyCapReached) <==> dayFull)
      && (refusal == Some(WeeklyCapReached) <==> !dayFull && weekFull)
  {
    PreviewAgrees(a, l, p, k);
  }

  // -------------------------------------------------- the checker, as written

  /** `PreconditionChecker`: failures are appended as they are found; with `reserve` the ledger and the
      attempt's cap columns are updated in place. */
  class PreconditionChecker {
    const policy: Policy
    var ledger: Ledger
    var attempt: Attempt

    constructor (policy: Policy, attempt: Attempt, ledger: Ledger)
      ensures this.policy == policy && this.attempt == attempt && this.ledger == ledger
    {
      this.policy := policy;
      this.attempt := attempt;
      this.ledger := ledger;
    }

    method CountUnanswered(p: Preparation) returns (n: nat)
      ensures n > 0 <==> Unanswered(p)
    {
      n := 0;
      for i := 0 to |p.answers|
        invariant n > 0 <==> exists j :: 0 <= j < i && p.answers[j].required && p.answers[j].needsInput
      {
        if p.answers[i].required && p.answers[i].needsInput {
          n := n + 1;
        }
      }
    }

    method Check(f: Facts, k: Keys, reserve: bool, executing: bool) returns (failures: seq<Code>)
      modifies this
      ensures Report(failures, attempt, ledger) == Evaluate(f, old(attempt), old(ledger), policy, k, reserve, executing)
    {
      if !f.ownTenant {
        return [TenantMismatch];
      }
      var expected := if executing then Submitting else Ready;
      if attempt.status in SUBMITTED_STATUSES && attempt.status != expected {
        return [AlreadySubmitted];
      }
      failures := If(attempt.status != expected, AttemptNotReady);
      failures := failures + If(attempt.released, SlotReleased);
      var found := [PreparationMissing];
      if f.preparation.Some? {
        found := CheckPreparation(f.preparation.value, f.staleInputs);
      }
      failures := failures + found;
      found := [OpportunityClosed];
      if f.opening.Some? {
        found := CheckOpening(f.opening.value);
      }
      failures := failures + found;
      if failures != [] {
        return;
      }
      var refusal := CheckCaps(k, reserve);
      if refusal.Some? {
        failures := [CapReached(refusal.value)];
      }
    }

    method CheckPreparation(p: Preparation, stale: seq<string>) returns (failures: seq<Code>)
      ensures forall code :: code in failures <==> PreparationFails(p, stale, code)
      ensures failures == [] <==> PreparationSound(p, stale)
      ensures failures == PreparationFindings(p, stale)
    {
      PreparationFindingsMeaning(p, stale);
      failures := If(!p.ownTenant, TenantMismatch);
      failures := failures + If(!p.sameOpportunity, OpportunityMismatch);
      match p.status {
        case PrepInvalidated => failures := failures + [PreparationInvalidated];
        case PrepSuperseded => failures := failures + [PreparationNotCurrent];
        case PrepOther => failures := failures + [PreparationNotReady];
        case PrepReady => failures := failures + [];
      }
      failures := failures + If(!p.validationPassed, ValidationFailed);
      var unanswered := CountUnanswered(p);
      failures := failures + If(unanswered > 0, UserInputRequired);
      failures := failures + If(stale != [], PreparationStale);
    }

    method CheckOpening(o: Opening) returns (failures: seq<Code>)
      ensures forall code :: code in failures <==> OpeningFails(o, code)
      ensures failures == [] <==> OpeningClear(o)
      ensures failures == OpeningFindings(o)
    {
      OpeningFindingsMeaning(o);
      failures := If(o.closed, OpportunityClosed);
      failures := failures + If(o.candidateEnded, OpportunityClosed);
      failures := failures + If(o.companyBlocked, CompanyBlocked);
      failures := failures + If(o.cooldown, CooldownActive);
      failures := failures + If(o.duplicateTitle, DuplicateApplication);
      failures := failures + If(o.repostBlocked, DuplicateOpportunity);
    }

    method CheckCaps(k: Keys, reserve: bool) returns (refusal: Option<CapRefusal>)
      modifies this
      ensures CapCheck(refusal, attempt, ledger) == Caps.CheckCaps(old(attempt), old(ledger), policy, k, reserve)
    {
      if policy.dailyCap <= 0 { return Some(DailyCapReached); }
      if policy.weeklyCap <= 0 { return Some(WeeklyCapReached); }
      if SamePeriod(attempt, k) { return None; }
      if !reserve {
        if Usage(ledger.days, k.day) >= policy.dailyCap { return Some(DailyCapReached); }
        if Usage(ledger.weeks, k.week) >= policy.weeklyCap { return Some(WeeklyCapReached); }
        return None;
      }
      refusal := ReserveSlot(k);
      if refusal.Some? { return; }
      if HoldsSlot(attempt) {
        ledger := GiveBack(ledger, attempt.capDay, attempt.capWeek);
      }
      attempt := attempt.(capDay := Some(k.day), capWeek := Some(k.week));
      attempt := attempt.(reserved := true, released := false);
    }

    /** `CapLedger.reserve` with its two conditional updates. */
    method ReserveSlot(k: Keys) returns (refusal: Option<CapRefusal>)
      modifies this`ledger
      ensures (ledger, refusal) == Reserve(old(ledger), k.day, k.week, policy.dailyCap, policy.weeklyCap)
    {
      if policy.dailyCap <= 0 { return Some(DailyCapReached); }
      if policy.weeklyCap <= 0 { return Some(WeeklyCapReached); }
      ledger := Ledger(Ensured(ledger.days, k.day), Ensured(ledger.weeks, k.week));
      if Net(ledger.days, k.day) >= policy.dailyCap { return Some(DailyCapReached); }
      ledger := ledger.(days := Bump(ledger.days, k.day, 1));
      if Net(ledger.weeks, k.week) >= policy.weeklyCap {
        ledger := ledger.(days := Bump(ledger.days, k.day, -1));
        return Some(WeeklyCapReached);
      }
      ledger := ledger.(weeks := Bump(ledger.weeks, k.week, 1));
      return None;
    }
  }
}
