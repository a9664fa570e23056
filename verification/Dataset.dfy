/** The learning dataset: app/learning/dataset.py. Tables are read in the order their queries return them;
    times are integers. */
module Dataset {
  import opened Base
  import opened Lifecycle
  import opened Execution

  type Id = nat
  type Tenant = nat

  datatype Quality = Strong | Moderate | Weak | NoEvidence

  function Rank(q: Quality): nat {
    match q case Strong => 3 case Moderate => 2 case Weak => 1 case NoEvidence => 0
  }

  datatype Kind =
    | SubmittedEvent | ApplicationReceived | UnderReview | AssessmentRequested | RecruiterContact | InterviewRequested
    | InterviewScheduled | RejectedEvent | Withdrawn | ClosedWithoutApplication | NeedsReviewEvent | UnknownEvent

  /** `STAGE`; 0 where the table has no entry. */
  function Stage(k: Kind): nat {
    match k
    case SubmittedEvent => 1
    case ApplicationReceived => 2
    case UnderReview => 3
    case RecruiterContact => 4
    case AssessmentRequested => 4
    case InterviewRequested => 5
    case InterviewScheduled => 6
    case _ => 0
  }

  /** An attempt; `features` stands for the columns taken over from the joined tables. */
  datatype Attempted = Attempted(tenant: Tenant, id: Id, createdAt: int, status: Status, submittedAt: Option<int>,
    reservedAt: Option<int>, verifiedAt: Option<int>, features: string)

  datatype RunRecord = RunRecord(tenant: Tenant, app: Id, startedAt: int, finishedAt: Option<int>, status: RunStatus,
    verification: Verdict, kind: string)

  datatype Event = Event(tenant: Tenant, app: Id, observedAt: int, eventAt: int, retracted: bool, superseded: bool,
    evidence: Quality, outcome: Kind)

  datatype Db = Db(attempts: seq<Attempted>, runs: seq<RunRecord>, events: seq<Event>)

  datatype Query = Query(tenant: Tenant, cutoff: int, window: Option<int>, threshold: nat)

  datatype Completeness = Unverified | SubmittedOnly | Progress | Terminal

  datatype Row = Row(
    id: Id, submittedAt: int, attemptStatus: Status, verificationStatus: Option<Verdict>, features: string,
    executedBy: string, verified: bool, uncertain: bool, needsReview: bool,
    responded: bool, interviewed: bool, rejected: bool, assessed: bool, withdrawn: bool,
    toResponse: Option<int>, toRejection: Option<int>,
    quality: nat, evidenceCounts: map<Quality, nat>, completeness: Completeness, counted: nat, below: nat)

  // ------------------------------------------------------------------- queries

  predicate AttemptVisible(q: Query, a: Attempted) {
    a.tenant == q.tenant && a.createdAt <= q.cutoff && (a.submittedAt.Some? || a.status == Uncertain)
  }

  predicate RunVisible(q: Query, id: Id, r: RunRecord) {
    r.tenant == q.tenant && r.app == id && r.startedAt <= q.cutoff
  }

  predicate EventVisible(q: Query, id: Id, e: Event) {
    e.tenant == q.tenant && e.app == id && e.observedAt <= q.cutoff && !e.retracted && !e.superseded
  }

  function AttemptsIn(s: seq<Attempted>, q: Query): seq<Attempted> {
    if s == [] then []
    else AttemptsIn(s[..|s| - 1], q) + if AttemptVisible(q, s[|s| - 1]) then [s[|s| - 1]] else []
  }

  function RunsIn(s: seq<RunRecord>, q: Query, id: Id): seq<RunRecord> {
    if s == [] then []
    else RunsIn(s[..|s| - 1], q, id) + if RunVisible(q, id, s[|s| - 1]) then [s[|s| - 1]] else []
  }

  function EventsIn(s: seq<Event>, q: Query, id: Id): seq<Event> {
    if s == [] then []
    else EventsIn(s[..|s| - 1], q, id) + if EventVisible(q, id, s[|s| - 1]) then [s[|s| - 1]] else []
  }

  // ----------------------------------------------------------------- one row

  predicate Enough(e: Event, threshold: nat) {
    Rank(e.evidence) >= threshold
  }

  function CountedIn(s: seq<Event>, threshold: nat): (r: seq<Event>)
    ensures |r| <= |s|
  {
    if s == [] then []
    else CountedIn(s[..|s| - 1], threshold) + if Enough(s[|s| - 1], threshold) then [s[|s| - 1]] else []
  }

  datatype Test = Response | Rejection | Interview | Assessment | Withdrawal

  predicate Is(e: Event, t: Test) {
    match t
    case Response => Stage(e.outcome) >= 2 || e.outcome.RejectedEvent?
    case Rejection => e.outcome.RejectedEvent?
    case Interview => e.outcome.InterviewRequested? || e.outcome.InterviewScheduled?
    case Assessment => e.outcome.AssessmentRequested?
    case Withdrawal => e.outcome.Withdrawn?
  }

  function Earlier(t: Option<int>, u: int): Option<int> {
    if t.Some? && t.value <= u then t else Some(u)
  }

  /** The earliest event time among the events that pass a test. */
  function First(events: seq<Event>, t: Test): Option<int> {
    if events == [] then None
    else
      var n := |events| - 1;
      var before := First(events[..n], t);
      if Is(events[n], t) then Earlier(before, events[n].eventAt) else before
  }

  predicate Any(events: seq<Event>, t: Test) {
    exists i :: 0 <= i < |events| && Is(events[i], t)
  }

  function Best(events: seq<Event>): nat {
    if events == [] then 0
    else
      var n := |events| - 1;
      var before := Best(events[..n]);
      if before < Rank(events[n].evidence) then Rank(events[n].evidence) else before
  }

  function EvidenceCounts(events: seq<Event>): map<Quality, nat> {
    if events == [] then map[]
    else
      var n := |events| - 1;
      Tally(EvidenceCounts(events[..n]), events[n].evidence)
  }

  function Tally(counts: map<Quality, nat>, q: Quality): map<Quality, nat> {
    counts[q := (if q in counts then counts[q] else 0) + 1]
  }

  function Days(later: Option<int>, earlier: int): Option<int> {
    if later.None? then None else Some(Max(0, later.value - earlier))
  }

  function OrElse(a: Option<int>, b: Option<int>): Option<int> {
    if a.Some? then a else b
  }

  function SubmittedAt(a: Attempted, runs: seq<RunRecord>): int {
    var started := if runs == [] then None else Some(runs[|runs| - 1].startedAt);
    OrElse(a.submittedAt, OrElse(started, OrElse(a.reservedAt, Some(a.createdAt)))).value
  }

  predicate InScope(q: Query, at: int) {
    at <= q.cutoff && (q.window.Some? ==> q.cutoff - q.window.value <= at)
  }

  predicate IsVerified(q: Query, a: Attempted, runs: seq<RunRecord>) {
    || (a.verifiedAt.Some? && a.verifiedAt.value <= q.cutoff)
    || exists i ::
         && 0 <= i < |runs| && runs[i].verification.VerdictVerified?
         && OrElse(runs[i].finishedAt, Some(runs[i].startedAt)).value <= q.cutoff
  }

  predicate Reviewable(s: RunStatus) {
    s.RunNeedsReview? || s.VerificationFailed? || s.HandedOff? || s.RunNeedsUserInput?
  }

  /** The execution method of a run, by the kind of its executor. */
  function MethodOf(r: RunRecord): string {
    if r.kind == "" then "UNKNOWN" else r.kind
  }

  function CompletenessOf(counted: seq<Event>, verified: bool): Completeness {
    if Any(counted, Rejection) || Any(counted, Withdrawal) then Terminal
    else if Any(counted, Response) then Progress
    else if verified then SubmittedOnly else Unverified
  }

  function RowFrom(q: Query, a: Attempted, runs: seq<RunRecord>, counted: seq<Event>, below: nat,
                   counts: map<Quality, nat>): Row {
    var last := if runs == [] then None else Some(runs[|runs| - 1]);
    var at := SubmittedAt(a, runs);
    var verified := IsVerified(q, a, runs);
    Row(
      a.id, at, a.status, if last.Some? then Some(last.value.verification) else None, a.features,
      if last.Some? then MethodOf(last.value) else "UNKNOWN", verified,
      !verified && (if last.Some? then last.value.status.RunUnknown? else a.status == Uncertain),
      last.Some? && Reviewable(last.value.status),
      Any(counted, Response), Any(counted, Interview), Any(counted, Rejection), Any(counted, Assessment),
      Any(counted, Withdrawal),
      Days(First(counted, Response), at), Days(First(counted, Rejection), at),
      Best(counted), counts, CompletenessOf(counted, verified), |counted|, below)
  }

  function RowFor(q: Query, a: Attempted, runs: seq<RunRecord>, events: seq<Event>): Row {
    var counted := CountedIn(events, q.threshold);
    RowFrom(q, a, runs, counted, |events| - |counted|, EvidenceCounts(events))
  }

  /** The rows from the first `n` visible attempts. */
  function Rows(db: Db, q: Query, attempts: seq<Attempted>): seq<Row> {
    if attempts == [] then []
    else
      var n := |attempts| - 1;
      var a := attempts[n];
      var before := Rows(db, q, attempts[..n]);
      var runs := RunsIn(db.runs, q, a.id);
      if InScope(q, SubmittedAt(a, runs)) then before + [RowFor(q, a, runs, EventsIn(db.events, q, a.id))] else before
  }

  function Collected(db: Db, q: Query): seq<Row> {
    Rows(db, q, AttemptsIn(db.attempts, q))
  }

  /** The sort key: time of submission, then the application. */
  predicate Before(x: Row, y: Row) {
    x.submittedAt < y.submittedAt || (x.submittedAt == y.submittedAt && x.id <= y.id)
  }

  function Insert(rows: seq<Row>, r: Row): seq<Row> {
    if rows == [] then [r]
    else
      var n := |rows| - 1;
      if Before(rows[n], r) then rows + [r] else Insert(rows[..n], r) + [rows[n]]
  }

  /** The final, stable sort. */
  function Ordered(rows: seq<Row>): seq<Row> {
    if rows == [] then [] else Insert(Ordered(rows[..|rows| - 1]), rows[|rows| - 1])
  }

  /** `build_dataset`. */
  function Build(db: Db, q: Query): seq<Row> {
    Ordered(Collected(db, q))
  }

  // ---------------------------------------------------------------- the sort

  ghost predicate InOrder(rows: seq<Row>) {
    forall i, j :: 0 <= i < j < |rows| ==> Before(rows[i], rows[j])
  }

  lemma {:induction false} InsertOrders(rows: seq<Row>, r: Row)
    requires InOrder(rows)
    ensures InOrder(Insert(rows, r))
    ensures forall x :: x in Insert(rows, r) <==> x in rows || x == r
  {
    if rows != [] {
      var n := |rows| - 1;
      assert rows == rows[..n] + [rows[n]];
      if !Before(rows[n], r) {
        InsertOrders(rows[..n], r);
        var front := Insert(rows[..n], r);
        forall i | 0 <= i < |front| ensures Before(front[i], rows[n]) {
          assert front[i] in front;
        }
      } else {
        forall i | 0 <= i < n ensures Before(rows[i], r) {
          assert Before(rows[i], rows[n]);
        }
      }
    }
  }

  lemma {:induction false} InsertAdds(rows: seq<Row>, r: Row)
    ensures multiset(Insert(rows, r)) == multiset(rows) + multiset{r}
  {
    if rows != [] {
      var n := |rows| - 1;
      assert rows == rows[..n] + [rows[n]];
      if !Before(rows[n], r) {
        InsertAdds(rows[..n], r);
      }
    }
  }

  lemma {:induction false} OrderedInOrder(rows: seq<Row>)
    ensures InOrder(Ordered(rows))
  {
    if rows != [] {
      var n := |rows| - 1;
      OrderedInOrder(rows[..n]);
      InsertOrders(Ordered(rows[..n]), rows[n]);
    }
  }

  lemma {:induction false} OrderedHolds(rows: seq<Row>)
    ensures multiset(Ordered(rows)) == multiset(rows)
  {
    if rows != [] {
      var n := |rows| - 1;
      OrderedHolds(rows[..n]);
      InsertAdds(Ordered(rows[..n]), rows[n]);
      LastApart(rows);
      assert Ordered(rows) == Insert(Ordered(rows[..n]), rows[n]);
    }
  }

  lemma LastApart(rows: seq<Row>)
    requires rows != []
    ensures multiset(rows) == multiset(rows[..|rows| - 1]) + multiset{rows[|rows| - 1]}
  {
    assert rows == rows[..|rows| - 1] + [rows[|rows| - 1]];
  }

  /** The result is in order and holds the collected rows. */
  lemma OrderedIsSort(rows: seq<Row>)
    ensures InOrder(Ordered(rows)) && multiset(Ordered(rows)) == multiset(rows)
  {
    OrderedInOrder(rows);
    OrderedHolds(rows);
  }

  predicate SameKey(x: Row, y: Row) {
    x.submittedAt == y.submittedAt && x.id == y.id
  }

  ghost predicate SameKeys(x: seq<Row>, y: seq<Row>) {
    |x| == |y| && forall i :: 0 <= i < |x| ==> SameKey(x[i], y[i])
  }

  lemma {:induction false} InsertSame(x: seq<Row>, y: seq<Row>, r: Row, r': Row)
    requires SameKeys(x, y) && SameKey(r, r')
    ensures SameKeys(Insert(x, r), Insert(y, r'))
    ensures Insert(x, r) == Insert(y, r') <==> x == y && r == r'
  {
    if x != [] {
      var n := |x| - 1;
      assert x == x[..n] + [x[n]] && y == y[..n] + [y[n]];
      if Before(x[n], r) {
        InsertedLast(x, y, r, r');
      } else {
        InsertSame(x[..n], y[..n], r, r');
        InsertedEarlier(x, y, r, r');
      }
    }
  }

  lemma InsertedLast(x: seq<Row>, y: seq<Row>, r: Row, r': Row)
    requires SameKeys(x, y) && SameKey(r, r') && x != [] && Before(x[|x| - 1], r)
    ensures SameKeys(Insert(x, r), Insert(y, r'))
    ensures Insert(x, r) == Insert(y, r') <==> x == y && r == r'
  {
    assert Insert(x, r) == x + [r] && Insert(y, r') == y + [r'];
    SplitEqual(x, y, [r], [r']);
  }

  lemma InsertedEarlier(x: seq<Row>, y: seq<Row>, r: Row, r': Row)
    requires SameKeys(x, y) && SameKey(r, r') && x != [] && !Before(x[|x| - 1], r)
    requires var n := |x| - 1;
      && SameKeys(Insert(x[..n], r), Insert(y[..n], r'))
      && (Insert(x[..n], r) == Insert(y[..n], r') <==> x[..n] == y[..n] && r == r')
    ensures SameKeys(Insert(x, r), Insert(y, r'))
    ensures Insert(x, r) == Insert(y, r') <==> x == y && r == r'
  {
    var n := |x| - 1;
    assert x == x[..n] + [x[n]] && y == y[..n] + [y[n]];
    assert Insert(x, r) == Insert(x[..n], r) + [x[n]] && Insert(y, r') == Insert(y[..n], r') + [y[n]];
    SplitEqual(Insert(x[..n], r), Insert(y[..n], r'), [x[n]], [y[n]]);
    SplitEqual(x[..n], y[..n], [x[n]], [y[n]]);
  }

  /** Rows with the same keys are sorted alike, so sorting hides no difference between them. */
  lemma {:induction false} OrderedSame(x: seq<Row>, y: seq<Row>)
    requires SameKeys(x, y)
    ensures SameKeys(Ordered(x), Ordered(y)) && (Ordered(x) == Ordered(y) <==> x == y)
  {
    if x != [] {
      var n := |x| - 1;
      OrderedSame(x[..n], y[..n]);
      InsertSame(Ordered(x[..n]), Ordered(y[..n]), x[n], y[n]);
      SplitLast(x, y);
    }
  }

  lemma SplitLast(x: seq<Row>, y: seq<Row>)
    requires |x| == |y| && x != []
    ensures var n := |x| - 1; x == y <==> x[..n] == y[..n] && x[n] == y[n]
  {
    var n := |x| - 1;
    assert x == x[..n] + [x[n]] && y == y[..n] + [y[n]];
  }

  lemma SplitEqual(x: seq<Row>, y: seq<Row>, e: seq<Row>, f: seq<Row>)
    requires |x| == |y|
    ensures x + e == y + f <==> x == y && e == f
  {
    if x + e == y + f {
      assert x == (x + e)[..|x|] && y == (y + f)[..|y|];
      assert e == (x + e)[|x|..] && f == (y + f)[|y|..];
    }
  }

  // ------------------------------------------------------------ no look-ahead

  function Inserted<T>(s: seq<T>, k: nat, x: T): seq<T>
    requires k <= |s|
  {
    s[..k] + [x] + s[k..]
  }

  lemma InsertedFront<T>(s: seq<T>, k: nat, x: T)
    requires k <= |s|
    ensures var t := Inserted(s, k, x);
      if k == |s| then t[..|t| - 1] == s && t[|t| - 1] == x
      else t[..|t| - 1] == Inserted(s[..|s| - 1], k, x) && t[|t| - 1] == s[|s| - 1]
  {
  }

  lemma {:induction false} AttemptsInserted(s: seq<Attempted>, k: nat, x: Attempted, q: Query)
    requires k <= |s| && !AttemptVisible(q, x)
    ensures AttemptsIn(Inserted(s, k, x), q) == AttemptsIn(s, q)
  {
    InsertedFront(s, k, x);
    if k < |s| {
      AttemptsInserted(s[..|s| - 1], k, x, q);
    }
  }

  lemma {:induction false} RunsInserted(s: seq<RunRecord>, k: nat, x: RunRecord, q: Query, id: Id)
    requires k <= |s| && !RunVisible(q, id, x)
    ensures RunsIn(Inserted(s, k, x), q, id) == RunsIn(s, q, id)
  {
    InsertedFront(s, k, x);
    if k < |s| {
      RunsInserted(s[..|s| - 1], k, x, q, id);
    }
  }

  lemma {:induction false} EventsInserted(s: seq<Event>, k: nat, x: Event, q: Query, id: Id)
    requires k <= |s| && !EventVisible(q, id, x)
    ensures EventsIn(Inserted(s, k, x), q, id) == EventsIn(s, q, id)
  {
    InsertedFront(s, k, x);
    if k < |s| {
      EventsInserted(s[..|s| - 1], k, x, q, id);
    }
  }

  lemma {:induction false} SameRows(db: Db, db': Db, q: Query, attempts: seq<Attempted>)
    requires forall id: Id :: RunsIn(db'.runs, q, id) == RunsIn(db.runs, q, id)
    requires forall id: Id :: EventsIn(db'.events, q, id) == EventsIn(db.events, q, id)
    ensures Rows(db', q, attempts) == Rows(db, q, attempts)
  {
    if attempts != [] {
      SameRows(db, db', q, attempts[..|attempts| - 1]);
    }
  }

  /** A record CareerOS did not have at the cutoff. */
  datatype Late = LateAttempt(a: Attempted) | LateRun(r: RunRecord) | LateEvent(e: Event)

  predicate After(q: Query, x: Late) {
    match x
    case LateAttempt(a) => a.createdAt > q.cutoff
    case LateRun(r) => r.startedAt > q.cutoff
    case LateEvent(e) => e.observedAt > q.cutoff
  }

  predicate Fits(db: Db, k: nat, x: Late) {
    match x
    case LateAttempt(_) => k <= |db.attempts|
    case LateRun(_) => k <= |db.runs|
    case LateEvent(_) => k <= |db.events|
  }

  function Add(db: Db, k: nat, x: Late): Db
    requires Fits(db, k, x)
  {
    match x
    case LateAttempt(a) => db.(attempts := Inserted(db.attempts, k, a))
    case LateRun(r) => db.(runs := Inserted(db.runs, k, r))
    case LateEvent(e) => db.(events := Inserted(db.events, k, e))
  }

  function AddAll(db: Db, late: seq<(nat, Late)>): Option<Db> {
    if late == [] then Some(db)
    else
      var n := |late| - 1;
      var before := AddAll(db, late[..n]);
      if before.Some? && Fits(before.value, late[n].0, late[n].1) then Some(Add(before.value, late[n].0, late[n].1))
      else None
  }

  lemma AddOne(db: Db, q: Query, k: nat, x: Late)
    requires Fits(db, k, x) && After(q, x)
    ensures Build(Add(db, k, x), q) == Build(db, q)
  {
    var db' := Add(db, k, x);
    match x {
      case LateAttempt(a) => AttemptsInserted(db.attempts, k, a, q);
      case LateRun(r) =>
        forall id: Id ensures RunsIn(db'.runs, q, id) == RunsIn(db.runs, q, id) {
          RunsInserted(db.runs, k, r, q, id);
        }
      case LateEvent(e) =>
        forall id: Id ensures EventsIn(db'.events, q, id) == EventsIn(db.events, q, id) {
          EventsInserted(db.events, k, e, q, id);
        }
    }
    SameRows(db, db', q, AttemptsIn(db.attempts, q));
  }

  /** No look-ahead: any number of attempts created, runs started and events observed after the cutoff,
      anywhere in the tables, leave every row as it was. */
  lemma {:induction false} NoLookAhead(db: Db, q: Query, late: seq<(nat, Late)>)
    requires AddAll(db, late).Some? && forall i :: 0 <= i < |late| ==> After(q, late[i].1)
    ensures Build(AddAll(db, late).value, q) == Build(db, q)
  {
    if late != [] {
      var n := |late| - 1;
      NoLookAhead(db, q, late[..n]);
      AddOne(AddAll(db, late[..n]).value, q, late[n].0, late[n].1);
    }
  }

  // ----------------------------------------------------------- updates in place

  /** What one attempt contributes: its row, or nothing. */
  function Effect(db: Db, q: Query, a: Attempted): seq<Row> {
    var runs := RunsIn(db.runs, q, a.id);
    if AttemptVisible(q, a) && InScope(q, SubmittedAt(a, runs)) then [RowFor(q, a, runs, EventsIn(db.events, q, a.id))]
    else []
  }

  function Effects(db: Db, q: Query, attempts: seq<Attempted>): seq<Row> {
    if attempts == [] then [] else Effects(db, q, attempts[..|attempts| - 1]) + Effect(db, q, attempts[|attempts| - 1])
  }

  lemma {:induction false} BuildIsEffects(db: Db, q: Query, attempts: seq<Attempted>)
    ensures Rows(db, q, AttemptsIn(attempts, q)) == Effects(db, q, attempts)
  {
    if attempts != [] {
      var n := |attempts| - 1;
      BuildIsEffects(db, q, attempts[..n]);
      var front := AttemptsIn(attempts[..n], q);
      if AttemptVisible(q, attempts[n]) {
        assert (front + [attempts[n]])[..|front|] == front;
      } else {
        assert front + [] == front;
      }
    }
  }

  ghost predicate SameEach(db: Db, db': Db, q: Query, attempts: seq<Attempted>) {
    forall i :: 0 <= i < |attempts| ==> Effect(db', q, attempts[i]) == Effect(db, q, attempts[i])
  }

  lemma SameEachFront(db: Db, db': Db, q: Query, attempts: seq<Attempted>)
    requires attempts != []
    ensures var n := |attempts| - 1;
      SameEach(db, db', q, attempts) <==>
        SameEach(db, db', q, attempts[..n]) && Effect(db', q, attempts[n]) == Effect(db, q, attempts[n])
  {
    AllButLast(attempts, (a: Attempted) => Effect(db', q, a) == Effect(db, q, a));
  }

  lemma AllButLast<T>(s: seq<T>, p: T -> bool)
    requires s != []
    ensures var n := |s| - 1;
      (forall i :: 0 <= i < |s| ==> p(s[i])) <==> (forall i :: 0 <= i < n ==> p(s[..n][i])) && p(s[n])
  {
    var n := |s| - 1;
    if (forall i :: 0 <= i < n ==> p(s[..n][i])) && p(s[n]) {
      forall i | 0 <= i < |s| ensures p(s[i]) {
        assert i < n ==> p(s[..n][i]);
      }
    }
  }

  /** Tables in which every attempt contributes as much: the rows are the same exactly when each one's is. */
  lemma {:induction false} SameEffects(db: Db, db': Db, q: Query, attempts: seq<Attempted>)
    requires forall i :: 0 <= i < |attempts| ==> SameKeys(Effect(db', q, attempts[i]), Effect(db, q, attempts[i]))
    ensures SameKeys(Effects(db', q, attempts), Effects(db, q, attempts))
    ensures |Effects(db', q, attempts)| == |Effects(db, q, attempts)|
    ensures Effects(db', q, attempts) == Effects(db, q, attempts) <==> SameEach(db, db', q, attempts)
  {
    if attempts != [] {
      var n := |attempts| - 1;
      SameEffects(db, db', q, attempts[..n]);
      SplitEqual(Effects(db', q, attempts[..n]), Effects(db, q, attempts[..n]), Effect(db', q, attempts[n]),
                 Effect(db, q, attempts[n]));
      SameEachFront(db, db', q, attempts);
    }
  }

  /** `y` holds what `x` holds, with `e` exchanged for `f`. */
  ghost predicate Exchanged(x: seq<Row>, y: seq<Row>, e: seq<Row>, f: seq<Row>) {
    forall r: Row :: multiset(y)[r] + multiset(e)[r] == multiset(x)[r] + multiset(f)[r]
  }

  lemma ExchangedThen(x: seq<Row>, y: seq<Row>, e: seq<Row>, f: seq<Row>, more: seq<Row>)
    requires Exchanged(x, y, e, f)
    ensures Exchanged(x + more, y + more, e, f)
  {
    assert multiset(x + more) == multiset(x) + multiset(more) && multiset(y + more) == multiset(y) + multiset(more);
    forall r: Row ensures multiset(y + more)[r] + multiset(e)[r] == multiset(x + more)[r] + multiset(f)[r] {
      assert multiset(y)[r] + multiset(e)[r] == multiset(x)[r] + multiset(f)[r];
    }
  }

  lemma ExchangedLast(x: seq<Row>, e: seq<Row>, f: seq<Row>)
    ensures Exchanged(x + e, x + f, e, f)
  {
    assert multiset(x + e) == multiset(x) + multiset(e) && multiset(x + f) == multiset(x) + multiset(f);
  }

  lemma NothingExchanged(x: seq<Row>, y: seq<Row>, e: seq<Row>, f: seq<Row>)
    requires Exchanged(x, y, e, f) && multiset(x) == multiset(y) && |e| <= 1 && |f| <= 1
    ensures e == f
  {
    forall r: Row ensures multiset(e)[r] == multiset(f)[r] {
      assert multiset(y)[r] + multiset(e)[r] == multiset(x)[r] + multiset(f)[r];
    }
    assert multiset(e) == multiset(f);
    assert |e| == |multiset(e)| == |multiset(f)| == |f|;
    if e != [] {
      assert e[0] in multiset(f);
    }
  }

  lemma {:induction false} EffectsAppend(db: Db, q: Query, s: seq<Attempted>, t: seq<Attempted>)
    ensures Effects(db, q, s + t) == Effects(db, q, s) + Effects(db, q, t)
  {
    if t == [] {
      assert s + t == s;
    } else {
      var n := |t| - 1;
      var front, e := t[..n], Effect(db, q, t[n]);
      assert (s + t)[..|s| + n] == s + front;
      EffectsAppend(db, q, s, front);
      EffectsLast(db, q, s + t, s + front, t[n]);
      EffectsLast(db, q, t, front, t[n]);
      Regrouped(Effects(db, q, s), Effects(db, q, front), e);
    }
  }

  lemma EffectsLast(db: Db, q: Query, s: seq<Attempted>, front: seq<Attempted>, a: Attempted)
    requires s != [] && s[..|s| - 1] == front && s[|s| - 1] == a
    ensures Effects(db, q, s) == Effects(db, q, front) + Effect(db, q, a)
  {
  }

  lemma Regrouped(x: seq<Row>, y: seq<Row>, z: seq<Row>)
    ensures (x + y) + z == x + (y + z)
  {
  }

  /** One attempt's contribution among the others'. */
  lemma EffectsAround(db: Db, q: Query, s: seq<Attempted>, k: nat)
    requires k < |s|
    ensures Effects(db, q, s) == Effects(db, q, s[..k]) + Effect(db, q, s[k]) + Effects(db, q, s[k + 1..])
  {
    assert s == s[..k + 1] + s[k + 1..] && s[..k + 1][..k] == s[..k];
    EffectsAppend(db, q, s[..k + 1], s[k + 1..]);
  }

  /** Replacing one attempt's contribution changes the sorted rows exactly when the contribution changes. */
  lemma OneEffectShows(db: Db, q: Query, s: seq<Attempted>, k: nat, a': Attempted)
    requires k < |s|
    ensures Ordered(Effects(db, q, s[k := a'])) == Ordered(Effects(db, q, s)) <==>
      Effect(db, q, a') == Effect(db, q, s[k])
  {
    var t := s[k := a'];
    EffectsAround(db, q, s, k);
    EffectsAround(db, q, t, k);
    assert t[..k] == s[..k] && t[k + 1..] == s[k + 1..];
    OneExchanged(Effects(db, q, s[..k]), Effect(db, q, s[k]), Effect(db, q, a'), Effects(db, q, s[k + 1..]));
  }

  lemma OneExchanged(before: seq<Row>, e: seq<Row>, f: seq<Row>, rest: seq<Row>)
    requires |e| <= 1 && |f| <= 1
    ensures Ordered(before + f + rest) == Ordered(before + e + rest) <==> f == e
  {
    var x, y := before + e + rest, before + f + rest;
    if Ordered(y) == Ordered(x) {
      OrderedIsSort(x);
      OrderedIsSort(y);
      ExchangedLast(before, e, f);
      ExchangedThen(before + e, before + f, e, f, rest);
      NothingExchanged(x, y, e, f);
    }
  }

  // ..................................................................... runs

  /** The dated part of a run: it verifies the attempt from the cutoff's point of view. */
  predicate Verifies(q: Query, r: RunRecord) {
    r.verification.VerdictVerified? && OrElse(r.finishedAt, Some(r.startedAt)).value <= q.cutoff
  }

  /** The row reads the same after run `i` became `r'`: verified as before, and if it is the last run, the same
      method, the same verdict, the same need for review, and the same open end unless verified. */
  predicate RunReadsSame(q: Query, a: Attempted, runs: seq<RunRecord>, i: nat, r': RunRecord)
    requires i < |runs|
  {
    var r, verified := runs[i], IsVerified(q, a, runs);
    && (verified <==> IsVerified(q, a, runs[i := r']))
    && (i == |runs| - 1 ==>
          && MethodOf(r') == MethodOf(r) && r'.verification == r.verification
          && (Reviewable(r'.status) <==> Reviewable(r.status))
          && (verified || (r'.status.RunUnknown? <==> r.status.RunUnknown?)))
  }

  lemma RunRow(q: Query, a: Attempted, runs: seq<RunRecord>, i: nat, r': RunRecord, events: seq<Event>)
    requires i < |runs| && r'.startedAt == runs[i].startedAt
    ensures SubmittedAt(a, runs[i := r']) == SubmittedAt(a, runs)
    ensures RowFor(q, a, runs[i := r'], events) == RowFor(q, a, runs, events) <==> RunReadsSame(q, a, runs, i, r')
  {
    var x, y := RowFor(q, a, runs, events), RowFor(q, a, runs[i := r'], events);
    assert RunReadsSame(q, a, runs, i, r') <==>
      && x.verified == y.verified && x.verificationStatus == y.verificationStatus
      && x.needsReview == y.needsReview && x.uncertain == y.uncertain && x.executedBy == y.executedBy;
  }

  /** The same run of the same attempt, settled differently. */
  predicate SettledAnew(r: RunRecord, r': RunRecord) {
    r'.tenant == r.tenant && r'.app == r.app && r'.startedAt == r.startedAt
  }

  lemma {:induction false} RunReplaced(s: seq<RunRecord>, k: nat, r': RunRecord, q: Query, id: Id)
    requires k < |s| && SettledAnew(s[k], r')
    ensures var i := |RunsIn(s[..k], q, id)|;
      if RunVisible(q, id, s[k])
      then i < |RunsIn(s, q, id)| && RunsIn(s, q, id)[i] == s[k]
        && RunsIn(s[k := r'], q, id) == RunsIn(s, q, id)[i := r']
      else RunsIn(s[k := r'], q, id) == RunsIn(s, q, id)
  {
    var n := |s| - 1;
    if k < n {
      RunReplaced(s[..n], k, r', q, id);
      assert s[k := r'][..n] == s[..n][k := r'] && s[..n][..k] == s[..k];
    } else {
      assert s[k := r'][..n] == s[..n];
    }
  }

  /** The rows do not see that run `k` became `r'`. */
  ghost predicate RunUnseen(db: Db, q: Query, k: nat, r': RunRecord)
    requires k < |db.runs| && SettledAnew(db.runs[k], r')
  {
    forall j ::
      0 <= j < |db.attempts| && Effect(db, q, db.attempts[j]) != [] && RunVisible(q, db.attempts[j].id, db.runs[k]) ==>
        RunUnseenBy(db, q, db.attempts[j], k, r')
  }

  ghost predicate RunUnseenBy(db: Db, q: Query, a: Attempted, k: nat, r': RunRecord)
    requires k < |db.runs|
  {
    var runs, i := RunsIn(db.runs, q, a.id), |RunsIn(db.runs[..k], q, a.id)|;
    i < |runs| && RunReadsSame(q, a, runs, i, r')
  }

  lemma RunEffect(db: Db, q: Query, k: nat, r': RunRecord, a: Attempted)
    requires k < |db.runs| && SettledAnew(db.runs[k], r')
    ensures var db' := db.(runs := db.runs[k := r']);
      && SameKeys(Effect(db', q, a), Effect(db, q, a))
      && (Effect(db', q, a) == Effect(db, q, a) <==>
            (Effect(db, q, a) != [] && RunVisible(q, a.id, db.runs[k]) ==> RunUnseenBy(db, q, a, k, r')))
  {
    RunReplaced(db.runs, k, r', q, a.id);
    if RunVisible(q, a.id, db.runs[k]) {
      RunRow(q, a, RunsIn(db.runs, q, a.id), |RunsIn(db.runs[..k], q, a.id)|, r', EventsIn(db.events, q, a.id));
    }
  }

  /** For arbitrary tables: settling run `k` anew leaves the dataset as it was exactly when no row that shows the
      run reads the change. */
  lemma RunUpdateLeaksExactly(db: Db, q: Query, k: nat, r': RunRecord)
    requires k < |db.runs| && SettledAnew(db.runs[k], r')
    ensures Build(db.(runs := db.runs[k := r']), q) == Build(db, q) <==> RunUnseen(db, q, k, r')
  {
    var db' := db.(runs := db.runs[k := r']);
    BuildIsEffects(db, q, db.attempts);
    BuildIsEffects(db', q, db.attempts);
    forall a: Attempted ensures SameKeys(Effect(db', q, a), Effect(db, q, a))
      ensures Effect(db', q, a) == Effect(db, q, a) <==>
        (Effect(db, q, a) != [] && RunVisible(q, a.id, db.runs[k]) ==> RunUnseenBy(db, q, a, k, r'))
    {
      RunEffect(db, q, k, r', a);
    }
    SameEffects(db, db', q, db.attempts);
    OrderedSame(Collected(db', q), Collected(db, q));
  }

  /** A run that is not the attempt's last is read for its dated verification only, and so may be settled in any
      way that is verified after the cutoff or not at all. */
  lemma EarlierRunsAreDated(db: Db, q: Query, k: nat, r': RunRecord)
    requires k < |db.runs| && SettledAnew(db.runs[k], r') && (Verifies(q, r') <==> Verifies(q, db.runs[k]))
    requires exists m :: k < m < |db.runs| && RunVisible(q, db.runs[k].app, db.runs[m])
    ensures Build(db.(runs := db.runs[k := r']), q) == Build(db, q)
  {
    RunUpdateLeaksExactly(db, q, k, r');
    forall j | 0 <= j < |db.attempts| && Effect(db, q, db.attempts[j]) != []
      && RunVisible(q, db.attempts[j].id, db.runs[k])
      ensures RunUnseenBy(db, q, db.attempts[j], k, r')
    {
      var a := db.attempts[j];
      var runs, i := RunsIn(db.runs, q, a.id), |RunsIn(db.runs[..k], q, a.id)|;
      RunReplaced(db.runs, k, r', q, a.id);
      var m :| k < m < |db.runs| && RunVisible(q, db.runs[k].app, db.runs[m]);
      LaterRunFollows(db.runs, q, a.id, k, m);
      SameVerified(q, a, runs, i, r');
    }
  }

  lemma SameVerified(q: Query, a: Attempted, runs: seq<RunRecord>, i: nat, r': RunRecord)
    requires i < |runs| && (Verifies(q, r') <==> Verifies(q, runs[i]))
    ensures IsVerified(q, a, runs[i := r']) <==> IsVerified(q, a, runs)
  {
    var runs' := runs[i := r'];
    assert forall j :: 0 <= j < |runs| ==> (Verifies(q, runs'[j]) <==> Verifies(q, runs[j]));
    assert IsVerified(q, a, runs) <==>
      (a.verifiedAt.Some? && a.verifiedAt.value <= q.cutoff) || exists j :: 0 <= j < |runs| && Verifies(q, runs[j]);
    assert IsVerified(q, a, runs') <==>
      (a.verifiedAt.Some? && a.verifiedAt.value <= q.cutoff) || exists j :: 0 <= j < |runs| && Verifies(q, runs'[j]);
  }

  lemma {:induction false} LaterRunFollows(s: seq<RunRecord>, q: Query, id: Id, k: nat, m: nat)
    requires k < m < |s| && RunVisible(q, id, s[k]) && RunVisible(q, id, s[m])
    ensures |RunsIn(s[..k], q, id)| + 1 < |RunsIn(s, q, id)|
  {
    var n := |s| - 1;
    if m < n {
      LaterRunFollows(s[..n], q, id, k, m);
      assert s[..n][..k] == s[..k];
    } else {
      MoreRuns(s[..n], q, id, k);
      assert s[..n][..k] == s[..k];
    }
  }

  lemma {:induction false} MoreRuns(s: seq<RunRecord>, q: Query, id: Id, k: nat)
    requires k < |s| && RunVisible(q, id, s[k])
    ensures |RunsIn(s[..k], q, id)| < |RunsIn(s, q, id)|
  {
    var n := |s| - 1;
    if k < n {
      MoreRuns(s[..n], q, id, k);
      assert s[..n][..k] == s[..k];
    }
  }

  // ................................................................. attempts

  /** What a row reads of its attempt: whether it counts at all, the status as it is now, the columns taken over,
      the time of submission, and the dated verification. */
  predicate AttemptReadsSame(q: Query, a: Attempted, a': Attempted, runs: seq<RunRecord>) {
    var counts := AttemptVisible(q, a) && InScope(q, SubmittedAt(a, runs));
    && (counts <==> AttemptVisible(q, a') && InScope(q, SubmittedAt(a', runs)))
    && (counts ==>
          && a'.status == a.status && a'.features == a.features && SubmittedAt(a', runs) == SubmittedAt(a, runs)
          && (IsVerified(q, a', runs) <==> IsVerified(q, a, runs)))
  }

  /** For arbitrary tables: changing an attempt leaves the dataset as it was exactly when its row reads the same. */
  lemma AttemptUpdateLeaksExactly(db: Db, q: Query, k: nat, a': Attempted)
    requires k < |db.attempts| && a'.id == db.attempts[k].id
    ensures Build(db.(attempts := db.attempts[k := a']), q) == Build(db, q) <==>
      AttemptReadsSame(q, db.attempts[k], a', RunsIn(db.runs, q, a'.id))
  {
    var db' := db.(attempts := db.attempts[k := a']);
    BuildIsEffects(db, q, db.attempts);
    BuildIsEffects(db', q, db'.attempts);
    SameTables(db, db', q, db'.attempts);
    OneEffectShows(db, q, db.attempts, k, a');
    AttemptRow(q, db.attempts[k], a', RunsIn(db.runs, q, a'.id), EventsIn(db.events, q, a'.id));
  }

  lemma AttemptRow(q: Query, a: Attempted, a': Attempted, runs: seq<RunRecord>, events: seq<Event>)
    requires a'.id == a.id
    ensures RowFor(q, a', runs, events) == RowFor(q, a, runs, events) <==>
      && a'.status == a.status && a'.features == a.features && SubmittedAt(a', runs) == SubmittedAt(a, runs)
      && (IsVerified(q, a', runs) <==> IsVerified(q, a, runs))
  {
    var x, y := RowFor(q, a, runs, events), RowFor(q, a', runs, events);
    assert x == y ==>
      && x.attemptStatus == y.attemptStatus && x.features == y.features
      && x.submittedAt == y.submittedAt && x.verified == y.verified;
  }

  lemma {:induction false} SameTables(db: Db, db': Db, q: Query, attempts: seq<Attempted>)
    requires db'.runs == db.runs && db'.events == db.events
    ensures Effects(db', q, attempts) == Effects(db, q, attempts)
  {
    if attempts != [] {
      SameTables(db, db', q, attempts[..|attempts| - 1]);
    }
  }

  /** A verification dated after the cutoff, put in, moved or taken out, is not seen. */
  lemma LateVerifiedAtIsHarmless(db: Db, q: Query, k: nat, at: Option<int>)
    requires k < |db.attempts| && (at.Some? ==> at.value > q.cutoff)
    requires db.attempts[k].verifiedAt.Some? ==> db.attempts[k].verifiedAt.value > q.cutoff
    ensures Build(db.(attempts := db.attempts[k := db.attempts[k].(verifiedAt := at)]), q) == Build(db, q)
  {
    AttemptUpdateLeaksExactly(db, q, k, db.attempts[k].(verifiedAt := at));
  }

  // ................................................................... events

  /** Retracted or superseded. */
  predicate Withdraws(e: Event, e': Event) {
    && e'.(retracted := e.retracted, superseded := e.superseded) == e
    && (e'.retracted || e'.superseded)
  }

  lemma {:induction false} EventWithdrawn(s: seq<Event>, k: nat, e': Event, q: Query, id: Id)
    requires k < |s| && Withdraws(s[k], e')
    ensures |EventsIn(s[k := e'], q, id)| == |EventsIn(s, q, id)| - if EventVisible(q, id, s[k]) then 1 else 0
    ensures !EventVisible(q, id, s[k]) ==> EventsIn(s[k := e'], q, id) == EventsIn(s, q, id)
  {
    var n := |s| - 1;
    if k < n {
      EventWithdrawn(s[..n], k, e', q, id);
      assert s[k := e'][..n] == s[..n][k := e'];
    } else {
      assert s[k := e'][..n] == s[..n];
    }
  }

  lemma WithdrawnEffect(db: Db, q: Query, k: nat, e': Event, a: Attempted)
    requires k < |db.events| && Withdraws(db.events[k], e')
    ensures var db' := db.(events := db.events[k := e']);
      && SameKeys(Effect(db', q, a), Effect(db, q, a))
      && (Effect(db', q, a) == Effect(db, q, a) <==> (EventVisible(q, a.id, db.events[k]) ==> Effect(db, q, a) == []))
  {
    var db' := db.(events := db.events[k := e']);
    EventWithdrawn(db.events, k, e', q, a.id);
    if Effect(db, q, a) != [] {
      var x, y := Effect(db, q, a)[0], Effect(db', q, a)[0];
      assert x.counted + x.below == |EventsIn(db.events, q, a.id)|
        && y.counted + y.below == |EventsIn(db'.events, q, a.id)|;
    }
  }

  /** An event withdrawn after the cutoff leaks always: the dataset stays as it was exactly when no row showed the
      event, because every row that did loses one from its counts, and perhaps a label. */
  lemma WithdrawnEventLeaksExactly(db: Db, q: Query, k: nat, e': Event)
    requires k < |db.events| && Withdraws(db.events[k], e')
    ensures Build(db.(events := db.events[k := e']), q) == Build(db, q) <==>
      forall j :: 0 <= j < |db.attempts| && EventVisible(q, db.attempts[j].id, db.events[k]) ==>
        Effect(db, q, db.attempts[j]) == []
  {
    var db' := db.(events := db.events[k := e']);
    BuildIsEffects(db, q, db.attempts);
    BuildIsEffects(db', q, db.attempts);
    forall a: Attempted ensures SameKeys(Effect(db', q, a), Effect(db, q, a))
      ensures Effect(db', q, a) == Effect(db, q, a) <==>
        (EventVisible(q, a.id, db.events[k]) ==> Effect(db, q, a) == [])
    {
      WithdrawnEffect(db, q, k, e', a);
    }
    SameEffects(db, db', q, db.attempts);
    OrderedSame(Collected(db', q), Collected(db, q));
  }

  // ................................................................ and inputs

  const Pressed := Attempted(0, 7, 0, Uncertain, None, None, None, "")
  const Hanging := RunRecord(0, 7, 1, None, Running, NotAttempted, "HTTP")
  const Rejected := Event(0, 7, 2, 2, false, false, Strong, RejectedEvent)

  const Known := Db([Pressed], [Hanging], [Rejected])

  lemma KnownEffect(q: Query)
    requires q.tenant == 0 && q.cutoff == 5 && q.window.None?
    ensures RunsIn(Known.runs, q, 7) == [Hanging] && Effect(Known, q, Pressed) != []
  {
    assert Known.runs[..0] == [];
  }

  lemma LateUnknownLeaks(q: Query)
    requires q.tenant == 0 && q.cutoff == 5 && q.window.None?
    ensures Build(Known.(runs := [Hanging.(finishedAt := Some(9), status := RunUnknown)]), q) != Build(Known, q)
  {
    var late := Hanging.(finishedAt := Some(9), status := RunUnknown);
    KnownEffect(q);
    RunUpdateLeaksExactly(Known, q, 0, late);
    assert [Hanging][0 := late] == [late];
    assert Known.runs[..0] == [];
    assert !RunUnseenBy(Known, q, Known.attempts[0], 0, late);
  }

  lemma LateSubmissionLeaks(q: Query)
    requires q.tenant == 0 && q.cutoff == 5 && q.window.None?
    ensures Build(Known.(attempts := [Pressed.(status := Status.Submitted, submittedAt := Some(9))]), q)
      != Build(Known, q)
  {
    var moved := Pressed.(status := Status.Submitted, submittedAt := Some(9));
    KnownEffect(q);
    AttemptUpdateLeaksExactly(Known, q, 0, moved);
    assert [Pressed][0 := moved] == [moved];
  }

  lemma LateRetractionLeaks(q: Query)
    requires q.tenant == 0 && q.cutoff == 5 && q.window.None?
    ensures Build(Known.(events := [Rejected.(retracted := true)]), q) != Build(Known, q)
  {
    KnownEffect(q);
    WithdrawnEventLeaksExactly(Known, q, 0, Rejected.(retracted := true));
    assert [Rejected][0 := Rejected.(retracted := true)] == [Rejected.(retracted := true)];
    assert EventVisible(q, Known.attempts[0].id, Known.events[0]);
  }

  /** Rows that existed at the cutoff are read as they are now: a run settled as UNKNOWN after it makes the row
      uncertain, a `submitted_at` set after it removes the row, and a rejection retracted after it is no label. */
  lemma LateUpdatesLeak(q: Query)
    requires q.tenant == 0 && q.cutoff == 5 && q.window.None?
    ensures Build(Known.(runs := [Hanging.(finishedAt := Some(9), status := RunUnknown)]), q) != Build(Known, q)
    ensures Build(Known.(attempts := [Pressed.(status := Status.Submitted, submittedAt := Some(9))]), q)
      != Build(Known, q)
    ensures Build(Known.(events := [Rejected.(retracted := true)]), q) != Build(Known, q)
  {
    LateUnknownLeaks(q);
    LateSubmissionLeaks(q);
    LateRetractionLeaks(q);
  }

  // ------------------------------------------------------ the evidence threshold

  predicate Sooner(x: Option<int>, y: Option<int>) {
    y.Some? ==> x.Some? && x.value <= y.value
  }

  function Degree(c: Completeness): nat {
    match c case Unverified => 0 case SubmittedOnly => 1 case Progress => 2 case Terminal => 3
  }

  /** `x` says everything `y` says, and possibly more, about the same attempt. */
  predicate Richer(x: Row, y: Row) {
    && x.id == y.id && x.submittedAt == y.submittedAt && x.verified == y.verified && x.uncertain == y.uncertain
    && x.evidenceCounts == y.evidenceCounts
    && (y.responded ==> x.responded) && (y.interviewed ==> x.interviewed) && (y.rejected ==> x.rejected)
    && (y.assessed ==> x.assessed) && (y.withdrawn ==> x.withdrawn)
    && Sooner(x.toResponse, y.toResponse) && Sooner(x.toRejection, y.toRejection)
    && x.quality >= y.quality && x.counted >= y.counted && x.counted + x.below == y.counted + y.below
    && Degree(x.completeness) >= Degree(y.completeness)
  }

  ghost predicate Covers(big: seq<Event>, small: seq<Event>) {
    && |small| <= |big| && Best(small) <= Best(big)
    && forall t: Test :: (Any(small, t) ==> Any(big, t)) && Sooner(First(big, t), First(small, t))
  }

  lemma AnyLast(s: seq<Event>, e: Event, t: Test)
    ensures Any(s + [e], t) <==> Any(s, t) || Is(e, t)
  {
    if Any(s, t) {
      var i :| 0 <= i < |s| && Is(s[i], t);
      assert (s + [e])[i] == s[i];
    }
    assert (s + [e])[|s|] == e;
  }

  lemma CoversExtended(big: seq<Event>, small: seq<Event>, e: Event)
    requires Covers(big, small)
    ensures Covers(big + [e], small + [e]) && Covers(big + [e], small)
  {
    assert (big + [e])[..|big|] == big && (small + [e])[..|small|] == small;
    forall t: Test
      ensures (Any(small + [e], t) ==> Any(big + [e], t)) && Sooner(First(big + [e], t), First(small + [e], t))
      ensures (Any(small, t) ==> Any(big + [e], t)) && Sooner(First(big + [e], t), First(small, t))
    {
      AnyLast(big, e, t);
      AnyLast(small, e, t);
    }
  }

  lemma {:induction false} LowerCovers(events: seq<Event>, low: nat, high: nat)
    requires low <= high
    ensures Covers(CountedIn(events, low), CountedIn(events, high))
  {
    if events != [] {
      var n := |events| - 1;
      LowerCovers(events[..n], low, high);
      var x, y := CountedIn(events[..n], low), CountedIn(events[..n], high);
      CoversExtended(x, y, events[n]);
      assert x + [] == x && y + [] == y;
    }
  }

  lemma RowGetsRicher(q: Query, low: nat, a: Attempted, runs: seq<RunRecord>, events: seq<Event>)
    requires low <= q.threshold
    ensures Richer(RowFor(q.(threshold := low), a, runs, events), RowFor(q, a, runs, events))
  {
    LowerCovers(events, low, q.threshold);
  }

  lemma {:induction false} SameRuns(s: seq<RunRecord>, q: Query, low: nat, id: Id)
    ensures RunsIn(s, q.(threshold := low), id) == RunsIn(s, q, id)
  {
    if s != [] {
      SameRuns(s[..|s| - 1], q, low, id);
    }
  }

  lemma {:induction false} SameEvents(s: seq<Event>, q: Query, low: nat, id: Id)
    ensures EventsIn(s, q.(threshold := low), id) == EventsIn(s, q, id)
  {
    if s != [] {
      SameEvents(s[..|s| - 1], q, low, id);
    }
  }

  lemma {:induction false} SameAttempts(s: seq<Attempted>, q: Query, low: nat)
    ensures AttemptsIn(s, q.(threshold := low)) == AttemptsIn(s, q)
  {
    if s != [] {
      SameAttempts(s[..|s| - 1], q, low);
    }
  }

  lemma {:induction false} ThresholdRows(db: Db, q: Query, low: nat, attempts: seq<Attempted>)
    requires low <= q.threshold
    ensures var x, y := Rows(db, q.(threshold := low), attempts), Rows(db, q, attempts);
      |x| == |y| && forall i :: 0 <= i < |x| ==> Richer(x[i], y[i])
  {
    if attempts != [] {
      var n := |attempts| - 1;
      var a := attempts[n];
      ThresholdRows(db, q, low, attempts[..n]);
      SameRuns(db.runs, q, low, a.id);
      SameEvents(db.events, q, low, a.id);
      RowGetsRicher(q, low, a, RunsIn(db.runs, q, a.id), EventsIn(db.events, q, a.id));
    }
  }

  ghost predicate AllRicher(x: seq<Row>, y: seq<Row>) {
    |x| == |y| && forall i :: 0 <= i < |x| ==> Richer(x[i], y[i])
  }

  lemma {:induction false} InsertRicher(x: seq<Row>, y: seq<Row>, r: Row, r': Row)
    requires AllRicher(x, y) && Richer(r, r')
    ensures AllRicher(Insert(x, r), Insert(y, r'))
  {
    if x != [] {
      InsertRicher(x[..|x| - 1], y[..|y| - 1], r, r');
    }
  }

  lemma {:induction false} OrderedRicher(x: seq<Row>, y: seq<Row>)
    requires AllRicher(x, y)
    ensures AllRicher(Ordered(x), Ordered(y))
  {
    if x != [] {
      OrderedRicher(x[..|x| - 1], y[..|y| - 1]);
      InsertRicher(Ordered(x[..|x| - 1]), Ordered(y[..|y| - 1]), x[|x| - 1], y[|y| - 1]);
    }
  }

  /** Lowering the evidence threshold keeps the rows, can only turn labels on, and never increases the days
      to a response or a rejection. */
  lemma LowerThresholdOnlyAdds(db: Db, q: Query, low: nat)
    requires low <= q.threshold
    ensures var x, y := Build(db, q.(threshold := low)), Build(db, q);
      |x| == |y| && forall i :: 0 <= i < |x| ==> Richer(x[i], y[i])
  {
    SameAttempts(db.attempts, q, low);
    ThresholdRows(db, q, low, AttemptsIn(db.attempts, q));
    OrderedRicher(Collected(db, q.(threshold := low)), Collected(db, q));
  }

  // ------------------------------------------------------- what a row says

  /** Event `j` belongs to the attempt, was observed by the cutoff and still stands. */
  predicate Seen(events: seq<Event>, q: Query, id: Id, j: int) {
    && 0 <= j < |events| && events[j].tenant == q.tenant && events[j].app == id && events[j].observedAt <= q.cutoff
    && !events[j].retracted && !events[j].superseded
  }

  /** It is seen and its evidence is strong enough. */
  predicate Weighs(events: seq<Event>, q: Query, id: Id, j: int) {
    Seen(events, q, id, j) && Rank(events[j].evidence) >= q.threshold
  }

  predicate WeighsAs(events: seq<Event>, q: Query, id: Id, kinds: set<Kind>, j: int) {
    Weighs(events, q, id, j) && events[j].outcome in kinds
  }

  ghost predicate Occurs(events: seq<Event>, q: Query, id: Id, kinds: set<Kind>) {
    exists j :: WeighsAs(events, q, id, kinds, j)
  }

  /** The time of the earliest event of these kinds that counts. */
  ghost predicate EarliestIs(events: seq<Event>, q: Query, id: Id, kinds: set<Kind>, at: Option<int>) {
    match at
    case None => !Occurs(events, q, id, kinds)
    case Some(t) =>
      && (exists j :: WeighsAs(events, q, id, kinds, j) && events[j].eventAt == t)
      && forall j :: WeighsAs(events, q, id, kinds, j) ==> t <= events[j].eventAt
  }

  /** From the submission to the earliest event of these kinds that counts, at least nothing. */
  ghost predicate Elapsed(events: seq<Event>, q: Query, id: Id, kinds: set<Kind>, from: int, days: Option<int>) {
    exists at: Option<int> :: EarliestIs(events, q, id, kinds, at)
      && days == if at.None? then None else Some(if at.value < from then 0 else at.value - from)
  }

  /** The best evidence that counts. */
  ghost predicate BestIs(events: seq<Event>, q: Query, id: Id, quality: nat) {
    && (forall j :: Weighs(events, q, id, j) ==> Rank(events[j].evidence) <= quality)
    && (quality == 0 || exists j :: Weighs(events, q, id, j) && Rank(events[j].evidence) == quality)
  }

  function SeenWith(events: seq<Event>, q: Query, id: Id, x: Quality): set<int> {
    set j | 0 <= j < |events| && Seen(events, q, id, j) && events[j].evidence == x
  }

  function AllSeen(events: seq<Event>, q: Query, id: Id): set<int> {
    set j | 0 <= j < |events| && Seen(events, q, id, j)
  }

  function AllWeighing(events: seq<Event>, q: Query, id: Id): set<int> {
    set j | 0 <= j < |events| && Weighs(events, q, id, j)
  }

  /** Run `j` belongs to the attempt and was started by the cutoff. */
  predicate RunSeen(runs: seq<RunRecord>, q: Query, id: Id, j: int) {
    0 <= j < |runs| && runs[j].tenant == q.tenant && runs[j].app == id && runs[j].startedAt <= q.cutoff
  }

  ghost predicate LastRunIs(runs: seq<RunRecord>, q: Query, id: Id, last: Option<RunRecord>) {
    match last
    case None => forall j :: !RunSeen(runs, q, id, j)
    case Some(r) =>
      exists j :: RunSeen(runs, q, id, j) && runs[j] == r && forall k :: RunSeen(runs, q, id, k) ==> k <= j
  }

  /** A run was verified, and that is dated by the cutoff. */
  ghost predicate VerifiedByRun(runs: seq<RunRecord>, q: Query, id: Id) {
    exists j :: RunSeen(runs, q, id, j) && runs[j].verification == VerdictVerified
      && (if runs[j].finishedAt.Some? then runs[j].finishedAt.value else runs[j].startedAt) <= q.cutoff
  }

  /** The time of the submission: the attempt's own, or the start of its last run, or its reservation, or its
      creation. */
  function SubmissionTime(a: Attempted, last: Option<RunRecord>): int {
    if a.submittedAt.Some? then a.submittedAt.value
    else if last.Some? then last.value.startedAt
    else if a.reservedAt.Some? then a.reservedAt.value
    else a.createdAt
  }

  /** The attempt is the tenant's, existed at the cutoff, was or may have been submitted, and that within the window. */
  ghost predicate HasRow(db: Db, q: Query, a: Attempted) {
    && a.tenant == q.tenant && a.createdAt <= q.cutoff && (a.submittedAt.Some? || a.status == Uncertain)
    && exists last :: LastRunIs(db.runs, q, a.id, last)
                      && SubmissionTime(a, last) <= q.cutoff
                      && (q.window.Some? ==> SubmissionTime(a, last) >= q.cutoff - q.window.value)
  }

  const RESPONSES: set<Kind> := {RejectedEvent, ApplicationReceived, UnderReview, RecruiterContact, AssessmentRequested,
    InterviewRequested, InterviewScheduled}

  /** The labels: an event of one of the kinds counts, and how long the first took. */
  ghost predicate LabelsTell(events: seq<Event>, q: Query, id: Id, row: Row) {
    && (row.responded <==> Occurs(events, q, id, RESPONSES))
    && (row.interviewed <==> Occurs(events, q, id, {InterviewRequested, InterviewScheduled}))
    && (row.rejected <==> Occurs(events, q, id, {RejectedEvent}))
    && (row.assessed <==> Occurs(events, q, id, {AssessmentRequested}))
    && (row.withdrawn <==> Occurs(events, q, id, {Withdrawn}))
    && Elapsed(events, q, id, RESPONSES, row.submittedAt, row.toResponse)
    && Elapsed(events, q, id, {RejectedEvent}, row.submittedAt, row.toRejection)
  }

  /** The evidence: the best that counts, and how much of each there is. */
  ghost predicate EvidenceTells(events: seq<Event>, q: Query, id: Id, row: Row) {
    && BestIs(events, q, id, row.quality)
    && row.counted == |AllWeighing(events, q, id)| && row.counted + row.below == |AllSeen(events, q, id)|
    && forall x: Quality ::
         (if x in row.evidenceCounts then row.evidenceCounts[x] else 0) == |SeenWith(events, q, id, x)|
  }

  /** What the last visible run, the attempt and the labels say. */
  ghost predicate RunTells(db: Db, q: Query, a: Attempted, last: Option<RunRecord>, row: Row) {
    && row.id == a.id && row.attemptStatus == a.status && row.features == a.features
    && row.submittedAt == SubmissionTime(a, last)
    && row.verificationStatus == (if last.Some? then Some(last.value.verification) else None)
    && row.executedBy == (if last.None? || last.value.kind == "" then "UNKNOWN" else last.value.kind)
    && (row.verified <==>
          (a.verifiedAt.Some? && a.verifiedAt.value <= q.cutoff) || VerifiedByRun(db.runs, q, a.id))
    && (row.uncertain <==>
          !row.verified && if last.Some? then last.value.status == RunUnknown else a.status == Uncertain)
    && (row.needsReview <==>
          last.Some? && last.value.status in {RunNeedsReview, VerificationFailed, HandedOff, RunNeedsUserInput})
    && row.completeness ==
       if row.rejected || row.withdrawn then Terminal else if row.responded then Progress
       else if row.verified then SubmittedOnly else Unverified
  }

  /** The row of an attempt, on the tables themselves. */
  ghost predicate Tells(db: Db, q: Query, a: Attempted, row: Row) {
    && LabelsTell(db.events, q, a.id, row) && EvidenceTells(db.events, q, a.id, row)
    && exists last :: LastRunIs(db.runs, q, a.id, last) && RunTells(db, q, a, last, row)
  }

  /** The events of one attempt that count, in order. */
  function Counted(events: seq<Event>, q: Query, id: Id): seq<Event> {
    CountedIn(EventsIn(events, q, id), q.threshold)
  }

  lemma CountedStep(events: seq<Event>, q: Query, id: Id)
    requires events != []
    ensures var n := |events| - 1;
      && Weighs(events, q, id, n) == (EventVisible(q, id, events[n]) && Enough(events[n], q.threshold))
      && Counted(events, q, id) ==
         if Weighs(events, q, id, n) then Counted(events[..n], q, id) + [events[n]] else Counted(events[..n], q, id)
  {
    var n := |events| - 1;
    var front := EventsIn(events[..n], q, id);
    assert (front + [events[n]])[..|front|] == front;
    assert front + [] == front && CountedIn(front, q.threshold) + [] == CountedIn(front, q.threshold);
  }

  predicate TestFor(t: Test, kinds: set<Kind>) {
    match t
    case Response => kinds == RESPONSES
    case Rejection => kinds == {RejectedEvent}
    case Interview => kinds == {InterviewRequested, InterviewScheduled}
    case Assessment => kinds == {AssessmentRequested}
    case Withdrawal => kinds == {Withdrawn}
  }

  lemma TestedExactly(e: Event, t: Test, kinds: set<Kind>)
    requires TestFor(t, kinds)
    ensures Is(e, t) <==> e.outcome in kinds
  {
  }

  /** The last event adds itself if it counts. */
  lemma WeighsStep(events: seq<Event>, q: Query, id: Id, kinds: set<Kind>, j: int)
    requires events != []
    ensures var n := |events| - 1;
      WeighsAs(events, q, id, kinds, j) <==>
        WeighsAs(events[..n], q, id, kinds, j) || (j == n && WeighsAs(events, q, id, kinds, n))
  {
  }

  lemma EarliestStep(events: seq<Event>, q: Query, id: Id, kinds: set<Kind>, at: Option<int>)
    requires events != [] && EarliestIs(events[..|events| - 1], q, id, kinds, at)
    ensures var n := |events| - 1;
      && (Occurs(events, q, id, kinds) <==> Occurs(events[..n], q, id, kinds) || WeighsAs(events, q, id, kinds, n))
      && EarliestIs(events, q, id, kinds,
                    if WeighsAs(events, q, id, kinds, n) then Earlier(at, events[n].eventAt) else at)
  {
    var n := |events| - 1;
    forall j
      ensures WeighsAs(events, q, id, kinds, j) <==>
        WeighsAs(events[..n], q, id, kinds, j) || (j == n && WeighsAs(events, q, id, kinds, n))
      ensures WeighsAs(events[..n], q, id, kinds, j) ==> events[..n][j] == events[j]
    {
      WeighsStep(events, q, id, kinds, j);
    }
    if at.Some? {
      var j :| WeighsAs(events[..n], q, id, kinds, j) && events[..n][j].eventAt == at.value;
      assert WeighsAs(events, q, id, kinds, j) && events[j].eventAt == at.value;
    }
  }

  /** A test holds of some event that counts exactly when one of its kinds occurs, and first when the earliest does. */
  lemma {:induction false} LabelsMean(events: seq<Event>, q: Query, id: Id, t: Test, kinds: set<Kind>)
    requires TestFor(t, kinds)
    ensures Any(Counted(events, q, id), t) <==> Occurs(events, q, id, kinds)
    ensures EarliestIs(events, q, id, kinds, First(Counted(events, q, id), t))
  {
    if events != [] {
      var n := |events| - 1;
      LabelsMean(events[..n], q, id, t, kinds);
      CountedStep(events, q, id);
      var c := Counted(events[..n], q, id);
      EarliestStep(events, q, id, kinds, First(c, t));
      TestedExactly(events[n], t, kinds);
      AnyLast(c, events[n], t);
      assert (c + [events[n]])[..|c|] == c;
    }
  }

  lemma BestStep(events: seq<Event>, q: Query, id: Id, quality: nat)
    requires events != [] && BestIs(events[..|events| - 1], q, id, quality)
    ensures var n := |events| - 1;
      BestIs(events, q, id, if Weighs(events, q, id, n) then Max(quality, Rank(events[n].evidence)) else quality)
  {
    var n := |events| - 1;
    forall j
      ensures Weighs(events, q, id, j) <==> Weighs(events[..n], q, id, j) || (j == n && Weighs(events, q, id, n))
      ensures Weighs(events[..n], q, id, j) ==> events[..n][j] == events[j] {}
    if quality > 0 {
      var j :| Weighs(events[..n], q, id, j) && Rank(events[..n][j].evidence) == quality;
      assert Weighs(events, q, id, j) && Rank(events[j].evidence) == quality;
    }
  }

  lemma {:induction false} BestMeans(events: seq<Event>, q: Query, id: Id)
    ensures BestIs(events, q, id, Best(Counted(events, q, id)))
  {
    if events != [] {
      var n := |events| - 1;
      BestMeans(events[..n], q, id);
      CountedStep(events, q, id);
      var c := Counted(events[..n], q, id);
      BestStep(events, q, id, Best(c));
      assert (c + [events[n]])[..|c|] == c;
    }
  }

  lemma OneMore(s: set<int>, s': set<int>, n: int, grown: bool)
    requires n !in s
    requires forall j :: j in s' <==> j in s || (grown && j == n)
    ensures |s'| == |s| + if grown then 1 else 0
  {
    var all := if grown then s + {n} else s;
    forall j ensures j in s' <==> j in all {}
    assert s' == all;
  }

  lemma SeenStep(events: seq<Event>, q: Query, id: Id, j: int)
    requires events != []
    ensures var n := |events| - 1;
      && (Seen(events, q, id, j) <==> Seen(events[..n], q, id, j) || (j == n && EventVisible(q, id, events[n])))
      && (Weighs(events, q, id, j) <==> Weighs(events[..n], q, id, j) || (j == n && Weighs(events, q, id, n)))
      && (Seen(events[..n], q, id, j) ==> events[..n][j] == events[j])
  {
  }

  /** Counting the events one by one. */
  lemma {:induction false} WeighingMean(events: seq<Event>, q: Query, id: Id)
    ensures |Counted(events, q, id)| == |AllWeighing(events, q, id)|
  {
    if events != [] {
      var n := |events| - 1;
      WeighingMean(events[..n], q, id);
      CountedStep(events, q, id);
      forall j ensures j in AllWeighing(events, q, id) <==>
        j in AllWeighing(events[..n], q, id) || (Weighs(events, q, id, n) && j == n)
      {
        SeenStep(events, q, id, j);
      }
      OneMore(AllWeighing(events[..n], q, id), AllWeighing(events, q, id), n, Weighs(events, q, id, n));
    }
  }

  lemma {:induction false} SeenMean(events: seq<Event>, q: Query, id: Id)
    ensures |EventsIn(events, q, id)| == |AllSeen(events, q, id)|
  {
    if events != [] {
      var n := |events| - 1;
      SeenMean(events[..n], q, id);
      forall j ensures j in AllSeen(events, q, id) <==>
        j in AllSeen(events[..n], q, id) || (EventVisible(q, id, events[n]) && j == n)
      {
        SeenStep(events, q, id, j);
      }
      OneMore(AllSeen(events[..n], q, id), AllSeen(events, q, id), n, EventVisible(q, id, events[n]));
    }
  }

  function TallyOf(counts: map<Quality, nat>, x: Quality): nat {
    if x in counts then counts[x] else 0
  }

  lemma {:induction false} EvidenceMeans(events: seq<Event>, q: Query, id: Id, x: Quality)
    ensures TallyOf(EvidenceCounts(EventsIn(events, q, id)), x) == |SeenWith(events, q, id, x)|
  {
    if events != [] {
      var n := |events| - 1;
      EvidenceMeans(events[..n], q, id, x);
      var front := EventsIn(events[..n], q, id);
      assert (front + [events[n]])[..|front|] == front && front + [] == front;
      var grown := EventVisible(q, id, events[n]) && events[n].evidence == x;
      forall j ensures j in SeenWith(events, q, id, x) <==> j in SeenWith(events[..n], q, id, x) || (grown && j == n) {
        SeenStep(events, q, id, j);
      }
      OneMore(SeenWith(events[..n], q, id, x), SeenWith(events, q, id, x), n, grown);
    }
  }

  function LastOf(runs: seq<RunRecord>): Option<RunRecord> {
    if runs == [] then None else Some(runs[|runs| - 1])
  }

  lemma {:induction false} LastRunMeans(runs: seq<RunRecord>, q: Query, id: Id)
    ensures LastRunIs(runs, q, id, LastOf(RunsIn(runs, q, id)))
  {
    if runs != [] {
      var n := |runs| - 1;
      LastRunMeans(runs[..n], q, id);
      forall j
        ensures RunSeen(runs, q, id, j) <==> RunSeen(runs[..n], q, id, j) || (j == n && RunSeen(runs, q, id, n))
        ensures RunSeen(runs[..n], q, id, j) ==> runs[..n][j] == runs[j] {}
      if RunVisible(q, id, runs[n]) {
        assert RunSeen(runs, q, id, n);
      } else {
        assert RunsIn(runs, q, id) == RunsIn(runs[..n], q, id);
      }
    }
  }

  /** The run was verified, and that is dated by the cutoff. */
  predicate Dated(q: Query, r: RunRecord) {
    r.verification.VerdictVerified? && OrElse(r.finishedAt, Some(r.startedAt)).value <= q.cutoff
  }

  ghost predicate AnyDated(q: Query, runs: seq<RunRecord>) {
    exists i :: 0 <= i < |runs| && Dated(q, runs[i])
  }

  lemma DatedLast(q: Query, runs: seq<RunRecord>, r: RunRecord)
    ensures AnyDated(q, runs + [r]) <==> AnyDated(q, runs) || Dated(q, r)
  {
    assert (runs + [r])[|runs|] == r;
    forall i | 0 <= i < |runs| ensures (runs + [r])[i] == runs[i] {}
  }

  lemma VerifiedStep(runs: seq<RunRecord>, q: Query, id: Id)
    requires runs != []
    ensures var n := |runs| - 1;
      VerifiedByRun(runs, q, id) <==>
        VerifiedByRun(runs[..n], q, id) || (RunVisible(q, id, runs[n]) && Dated(q, runs[n]))
  {
    var n := |runs| - 1;
    forall j
      ensures RunSeen(runs, q, id, j) <==> RunSeen(runs[..n], q, id, j) || (j == n && RunVisible(q, id, runs[n]))
      ensures RunSeen(runs[..n], q, id, j) ==> runs[..n][j] == runs[j] {}
    if VerifiedByRun(runs[..n], q, id) {
      var j :| RunSeen(runs[..n], q, id, j) && Dated(q, runs[..n][j]);
      assert RunSeen(runs, q, id, j) && Dated(q, runs[j]);
    }
  }

  lemma {:induction false} VerifiedMeans(runs: seq<RunRecord>, q: Query, id: Id)
    ensures AnyDated(q, RunsIn(runs, q, id)) <==> VerifiedByRun(runs, q, id)
  {
    if runs != [] {
      var n := |runs| - 1;
      VerifiedMeans(runs[..n], q, id);
      VerifiedStep(runs, q, id);
      DatedLast(q, RunsIn(runs[..n], q, id), runs[n]);
      assert RunsIn(runs[..n], q, id) + [] == RunsIn(runs[..n], q, id);
    }
  }

  lemma LastIsUnique(runs: seq<RunRecord>, q: Query, id: Id, last: Option<RunRecord>, last': Option<RunRecord>)
    requires LastRunIs(runs, q, id, last) && LastRunIs(runs, q, id, last')
    ensures last == last'
  {
  }

  lemma HasRowExactly(db: Db, q: Query, a: Attempted)
    ensures HasRow(db, q, a) <==> AttemptVisible(q, a) && InScope(q, SubmittedAt(a, RunsIn(db.runs, q, a.id)))
  {
    var last := LastOf(RunsIn(db.runs, q, a.id));
    LastRunMeans(db.runs, q, a.id);
    forall other | LastRunIs(db.runs, q, a.id, other) ensures other == last {
      LastIsUnique(db.runs, q, a.id, other, last);
    }
  }

  lemma LabelsOfRow(db: Db, q: Query, a: Attempted)
    ensures LabelsTell(db.events, q, a.id, RowFor(q, a, RunsIn(db.runs, q, a.id), EventsIn(db.events, q, a.id)))
  {
    LabelsMean(db.events, q, a.id, Response, RESPONSES);
    LabelsMean(db.events, q, a.id, Interview, {InterviewRequested, InterviewScheduled});
    LabelsMean(db.events, q, a.id, Rejection, {RejectedEvent});
    LabelsMean(db.events, q, a.id, Assessment, {AssessmentRequested});
    LabelsMean(db.events, q, a.id, Withdrawal, {Withdrawn});
    assert EarliestIs(db.events, q, a.id, RESPONSES, First(Counted(db.events, q, a.id), Response));
    assert EarliestIs(db.events, q, a.id, {RejectedEvent}, First(Counted(db.events, q, a.id), Rejection));
  }

  lemma EvidenceOfRow(db: Db, q: Query, a: Attempted)
    ensures EvidenceTells(db.events, q, a.id, RowFor(q, a, RunsIn(db.runs, q, a.id), EventsIn(db.events, q, a.id)))
  {
    BestMeans(db.events, q, a.id);
    WeighingMean(db.events, q, a.id);
    SeenMean(db.events, q, a.id);
    forall x: Quality
      ensures TallyOf(EvidenceCounts(EventsIn(db.events, q, a.id)), x) == |SeenWith(db.events, q, a.id, x)|
    {
      EvidenceMeans(db.events, q, a.id, x);
    }
  }

  lemma RunOfRow(db: Db, q: Query, a: Attempted)
    ensures var runs := RunsIn(db.runs, q, a.id);
      RunTells(db, q, a, LastOf(runs), RowFor(q, a, runs, EventsIn(db.events, q, a.id)))
  {
    VerifiedMeans(db.runs, q, a.id);
    var runs := RunsIn(db.runs, q, a.id);
    assert IsVerified(q, a, runs) <==> (a.verifiedAt.Some? && a.verifiedAt.value <= q.cutoff) || AnyDated(q, runs);
  }

  lemma RowTells(db: Db, q: Query, a: Attempted)
    ensures Tells(db, q, a, RowFor(q, a, RunsIn(db.runs, q, a.id), EventsIn(db.events, q, a.id)))
  {
    LabelsOfRow(db, q, a);
    EvidenceOfRow(db, q, a);
    RunOfRow(db, q, a);
    LastRunMeans(db.runs, q, a.id);
  }

  ghost function RowIndices(db: Db, q: Query, s: seq<Attempted>): set<int> {
    set i | 0 <= i < |s| && HasRow(db, q, s[i])
  }

  /** The row tells of one of the attempts that have one. */
  ghost predicate TellsOfOne(db: Db, q: Query, s: seq<Attempted>, row: Row) {
    exists a :: a in s && HasRow(db, q, a) && Tells(db, q, a, row)
  }

  ghost predicate IsTold(db: Db, q: Query, a: Attempted, rows: seq<Row>) {
    exists row :: row in rows && Tells(db, q, a, row)
  }

  /** Every row tells of an attempt that has one, every such attempt has a row, and there are no more. */
  ghost predicate RowsTell(db: Db, q: Query, s: seq<Attempted>, rows: seq<Row>) {
    && |rows| == |RowIndices(db, q, s)|
    && (forall row :: row in rows ==> TellsOfOne(db, q, s, row))
    && (forall a :: a in s && HasRow(db, q, a) ==> IsTold(db, q, a, rows))
  }

  lemma StillTells(db: Db, q: Query, s: seq<Attempted>, row: Row)
    requires s != [] && TellsOfOne(db, q, s[..|s| - 1], row)
    ensures TellsOfOne(db, q, s, row)
  {
    var a :| a in s[..|s| - 1] && HasRow(db, q, a) && Tells(db, q, a, row);
    assert a in s;
  }

  lemma StillTold(db: Db, q: Query, a: Attempted, rows: seq<Row>, rows': seq<Row>)
    requires IsTold(db, q, a, rows) && forall row :: row in rows ==> row in rows'
    ensures IsTold(db, q, a, rows')
  {
    var row :| row in rows && Tells(db, q, a, row);
    assert row in rows';
  }

  lemma NextTells(db: Db, q: Query, s: seq<Attempted>, rows: seq<Row>, rows': seq<Row>)
    requires s != [] && forall row :: row in rows ==> TellsOfOne(db, q, s[..|s| - 1], row)
    requires forall row :: row in rows' && row !in rows ==> HasRow(db, q, s[|s| - 1]) && Tells(db, q, s[|s| - 1], row)
    ensures forall row :: row in rows' ==> TellsOfOne(db, q, s, row)
  {
    forall row | row in rows' ensures TellsOfOne(db, q, s, row) {
      if row in rows {
        StillTells(db, q, s, row);
      } else {
        assert s[|s| - 1] in s;
      }
    }
  }

  lemma NextTold(db: Db, q: Query, s: seq<Attempted>, rows: seq<Row>, rows': seq<Row>)
    requires s != [] && forall a :: a in s[..|s| - 1] && HasRow(db, q, a) ==> IsTold(db, q, a, rows)
    requires forall row :: row in rows ==> row in rows'
    requires HasRow(db, q, s[|s| - 1]) ==> IsTold(db, q, s[|s| - 1], rows')
    ensures forall a :: a in s && HasRow(db, q, a) ==> IsTold(db, q, a, rows')
  {
    assert s == s[..|s| - 1] + [s[|s| - 1]];
    forall a | a in s && HasRow(db, q, a) ensures IsTold(db, q, a, rows') {
      if a in s[..|s| - 1] {
        StillTold(db, q, a, rows, rows');
      }
    }
  }

  /** One attempt more, with a row and without. */
  lemma RowAdded(db: Db, q: Query, s: seq<Attempted>, rows: seq<Row>, row: Row)
    requires s != [] && RowsTell(db, q, s[..|s| - 1], rows)
    requires HasRow(db, q, s[|s| - 1]) && Tells(db, q, s[|s| - 1], row)
    ensures RowsTell(db, q, s, rows + [row])
  {
    RowIndicesStep(db, q, s);
    assert IsTold(db, q, s[|s| - 1], rows + [row]) by {
      assert row in rows + [row];
    }
    NextTells(db, q, s, rows, rows + [row]);
    NextTold(db, q, s, rows, rows + [row]);
  }

  lemma RowSkipped(db: Db, q: Query, s: seq<Attempted>, rows: seq<Row>)
    requires s != [] && RowsTell(db, q, s[..|s| - 1], rows) && !HasRow(db, q, s[|s| - 1])
    ensures RowsTell(db, q, s, rows)
  {
    RowIndicesStep(db, q, s);
    NextTells(db, q, s, rows, rows);
    NextTold(db, q, s, rows, rows);
  }

  lemma RowIndicesStep(db: Db, q: Query, s: seq<Attempted>)
    requires s != []
    ensures var n := |s| - 1;
      |RowIndices(db, q, s)| == |RowIndices(db, q, s[..n])| + if HasRow(db, q, s[n]) then 1 else 0
  {
    var n := |s| - 1;
    forall j ensures j in RowIndices(db, q, s) <==>
      j in RowIndices(db, q, s[..n]) || (HasRow(db, q, s[n]) && j == n) {}
    OneMore(RowIndices(db, q, s[..n]), RowIndices(db, q, s), n, HasRow(db, q, s[n]));
  }

  lemma {:induction false} RowsMean(db: Db, q: Query, s: seq<Attempted>)
    ensures RowsTell(db, q, s, Rows(db, q, AttemptsIn(s, q)))
  {
    if s != [] {
      var n := |s| - 1;
      RowsMean(db, q, s[..n]);
      HasRowExactly(db, q, s[n]);
      var front := AttemptsIn(s[..n], q);
      assert (front + [s[n]])[..|front|] == front && front + [] == front;
      if HasRow(db, q, s[n]) {
        RowTells(db, q, s[n]);
        RowAdded(db, q, s, Rows(db, q, front),
                 RowFor(q, s[n], RunsIn(db.runs, q, s[n].id), EventsIn(db.events, q, s[n].id)));
      } else {
        RowSkipped(db, q, s, Rows(db, q, front));
      }
    }
  }

  /** What every row of the dataset says, on the tables themselves, and which attempts have one. */
  lemma DatasetTells(db: Db, q: Query)
    ensures RowsTell(db, q, db.attempts, Build(db, q))
  {
    var rows := Collected(db, q);
    RowsMean(db, q, db.attempts);
    OrderedIsSort(rows);
    assert |Build(db, q)| == |multiset(Build(db, q))| == |rows|;
    forall row ensures row in Build(db, q) <==> row in rows {
      assert row in multiset(Build(db, q)) <==> row in multiset(rows);
    }
    forall a | a in db.attempts && HasRow(db, q, a) ensures IsTold(db, q, a, Build(db, q)) {
      StillTold(db, q, a, rows, Build(db, q));
    }
  }

  // --------------------------------------------------------- as it is written

  function Group<T>(groups: map<Id, seq<T>>, id: Id): seq<T> {
    if id in groups then groups[id] else []
  }

  /** The two grouping loops. */
  method GroupRuns(db: Db, q: Query) returns (groups: map<Id, seq<RunRecord>>)
    ensures forall id: Id :: Group(groups, id) == RunsIn(db.runs, q, id)
  {
    groups := map[];
    for i := 0 to |db.runs|
      invariant forall id: Id :: Group(groups, id) == RunsIn(db.runs[..i], q, id)
    {
      var run := db.runs[i];
      assert db.runs[..i + 1][..i] == db.runs[..i];
      if run.tenant == q.tenant && run.startedAt <= q.cutoff {
        groups := groups[run.app := Group(groups, run.app) + [run]];
      }
    }
    assert db.runs[..|db.runs|] == db.runs;
  }

  method GroupEvents(db: Db, q: Query) returns (groups: map<Id, seq<Event>>)
    ensures forall id: Id :: Group(groups, id) == EventsIn(db.events, q, id)
  {
    groups := map[];
    for i := 0 to |db.events|
      invariant forall id: Id :: Group(groups, id) == EventsIn(db.events[..i], q, id)
    {
      var event := db.events[i];
      assert db.events[..i + 1][..i] == db.events[..i];
      if event.tenant == q.tenant && event.observedAt <= q.cutoff && !event.retracted && !event.superseded {
        groups := groups[event.app := Group(groups, event.app) + [event]];
      }
    }
    assert db.events[..|db.events|] == db.events;
  }

  /** The event loop of one row. */
  method CountEvidence(events: seq<Event>, threshold: nat)
    returns (counted: seq<Event>, below: nat, counts: map<Quality, nat>)
    ensures counted == CountedIn(events, threshold) && below == |events| - |counted| && counts == EvidenceCounts(events)
  {
    counted, below, counts := [], 0, map[];
    for i := 0 to |events|
      invariant counted == CountedIn(events[..i], threshold)
      invariant below == i - |counted| && counts == EvidenceCounts(events[..i])
    {
      var event := events[i];
      assert events[..i + 1][..i] == events[..i];
      counts := counts[event.evidence := (if event.evidence in counts then counts[event.evidence] else 0) + 1];
      if Rank(event.evidence) >= threshold {
        counted := counted + [event];
      } else {
        below := below + 1;
      }
    }
    assert events[..|events|] == events;
  }

  /** The row loop, over the groups. */
  method CollectRows(db: Db, q: Query, attempts: seq<Attempted>, runsByApp: map<Id, seq<RunRecord>>,
                     eventsByApp: map<Id, seq<Event>>)
    returns (rows: seq<Row>)
    requires forall id: Id :: Group(runsByApp, id) == RunsIn(db.runs, q, id)
    requires forall id: Id :: Group(eventsByApp, id) == EventsIn(db.events, q, id)
    ensures rows == Rows(db, q, attempts)
  {
    rows := [];
    for i := 0 to |attempts|
      invariant rows == Rows(db, q, attempts[..i])
    {
      var attempt := attempts[i];
      assert attempts[..i + 1][..i] == attempts[..i];
      var runs := Group(runsByApp, attempt.id);
      var submittedAt := SubmittedAt(attempt, runs);
      if submittedAt > q.cutoff { continue; }
      if q.window.Some? && submittedAt < q.cutoff - q.window.value { continue; }
      var row := BuildRow(q, attempt, runs, Group(eventsByApp, attempt.id));
      rows := rows + [row];
    }
    assert attempts[..|attempts|] == attempts;
  }

  method BuildRow(q: Query, a: Attempted, runs: seq<RunRecord>, events: seq<Event>) returns (row: Row)
    ensures row == RowFor(q, a, runs, events)
  {
    var counted, below, counts := CountEvidence(events, q.threshold);
    row := RowFrom(q, a, runs, counted, below, counts);
  }

  method BuildDataset(db: Db, q: Query) returns (rows: seq<Row>)
    ensures rows == Build(db, q) && InOrder(rows) && multiset(rows) == multiset(Collected(db, q))
    ensures RowsTell(db, q, db.attempts, rows)
  {
    DatasetTells(db, q);
    var runsByApp := GroupRuns(db, q);
    var eventsByApp := GroupEvents(db, q);
    rows := CollectRows(db, q, AttemptsIn(db.attempts, q), runsByApp, eventsByApp);
    OrderedIsSort(rows);
    rows := Ordered(rows);
  }
}
