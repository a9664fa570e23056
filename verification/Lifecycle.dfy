/** The attempt life cycle: app/application/models.py and the status groups of
    app/application/engine.py. */
module Lifecycle {

  datatype Status =
    | Discovered | Qualified | Shortlisted | Preparing | Ready | AwaitingApproval
    | Submitting | Submitted | Verified | Uncertain | Blocked | NeedsUserInput
    | NeedsReview | Failed | Cancelled | Interviewing | Rejected | Closed

  /** Attempts that have, or may have, reached the employer. */
  const SUBMITTED_STATUSES: set<Status> := {Submitting, Submitted, Verified, Uncertain, Interviewing}

  /** The guarded transition table. */
  function Successors(s: Status): set<Status> {
    match s
    case Discovered => {Qualified, Ready, Closed, Cancelled}
    case Qualified => {Preparing, Ready, Failed, Closed, Cancelled}
    case Shortlisted => {Qualified, Preparing, Ready, Closed, Cancelled}
    case Preparing => {Ready, NeedsUserInput, NeedsReview, Failed, Closed, Cancelled}
    case Ready => {Submitting, Preparing, NeedsUserInput, NeedsReview, Blocked, Failed, Closed, Cancelled}
    case AwaitingApproval => {Submitting, Ready, Cancelled}
    case Submitting => {Submitted, Uncertain, Ready, Blocked, NeedsUserInput, NeedsReview, Failed}
    case Submitted => {Verified, NeedsReview, Interviewing, Rejected, Closed}
    case Verified => {Interviewing, Rejected, Closed}
    case Uncertain => {Submitted, Verified, NeedsReview}
    case Blocked => {Ready, Cancelled, Closed}
    case NeedsUserInput => {Ready, Preparing, Cancelled, Closed}
    case NeedsReview => {Ready, Preparing, Submitted, Verified, Failed, Cancelled, Closed}
    case Failed => {Qualified, Ready, Closed}
    case Cancelled => {Qualified}
    case Interviewing => {Rejected, Closed}
    case Rejected => {Closed}
    case Closed => {Qualified}
  }

  /** What an unforced transition accepts: staying put, or an entry of the table. */
  predicate MayMove(current: Status, next: Status) {
    current == next || next in Successors(current)
  }

  // ------------------------------------------------- what the table never allows

  /** Statuses of an application the employer has, or may have, or has answered. */
  const AFTER_SUBMISSION: set<Status> := {Submitted, Verified, Uncertain, Interviewing, Rejected}

  ghost predicate IsPath(path: seq<Status>) {
    forall i, j :: 0 <= i < j < |path| && j == i + 1 ==> MayMove(path[i], path[j])
  }

  /** Along the table an application leaves these statuses only through NEEDS_REVIEW or CLOSED, so it cannot
      be READY again without one of the two. */
  lemma {:induction false} BackOnlyThroughReviewOrClosing(path: seq<Status>)
    requires path != [] && IsPath(path) && path[0] in AFTER_SUBMISSION
    ensures path[|path| - 1] in AFTER_SUBMISSION || exists i :: 0 <= i < |path| && path[i] in {NeedsReview, Closed}
  {
    var n := |path| - 1;
    if n > 0 {
      BackOnlyThroughReviewOrClosing(path[..n]);
      if path[..n][n - 1] in AFTER_SUBMISSION {
        assert MayMove(path[n - 1], path[n]);
        assert path[n] in AFTER_SUBMISSION || path[n] in {NeedsReview, Closed};
      } else {
        var i :| 0 <= i < n && path[..n][i] in {NeedsReview, Closed};
        assert path[i] in {NeedsReview, Closed};
      }
    }
  }
}
