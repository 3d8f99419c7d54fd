/** The invoice lifecycle: the statuses and the legal moves between them. */
module Lifecycle {
  import opened Options

  datatype Status =
    | Received
    | Extracting
    | Extracted
    | Matching
    | Validating
    | Validated
    | NeedsReview
    | AutoApproved
    | Approved
    | Rejected
    | Exporting
    | Exported
    | Failed

  /** The transition table. A status without an entry is terminal. */
  function Transitions(current: Status): Option<set<Status>> {
    match current
    case Received => Some({Extracting, Failed})
    case Extracting => Some({Extracted, Failed})
    case Extracted => Some({Matching, Failed})
    case Matching => Some({Validating, Failed})
    case Validating => Some({Validated, Failed})
    case Validated => Some({AutoApproved, NeedsReview})
    case NeedsReview => Some({Approved, Rejected})
    case AutoApproved => Some({Exporting})
    case Approved => Some({Exporting})
    case Exporting => Some({Exported, Failed})
    case Rejected => None
    case Exported => None
    case Failed => None
  }

  function AllowedTransitions(current: Status): set<Status> {
    if Transitions(current).Some? then Transitions(current).value else {}
  }

  predicate CanTransition(current: Status, target: Status) {
    target in AllowedTransitions(current)
  }

  /** Where each status can be entered from. */
  lemma EnteredFrom(s: Status)
    ensures !CanTransition(s, Received)
    ensures CanTransition(s, Extracting) <==> s == Received
    ensures CanTransition(s, Extracted) <==> s == Extracting
    ensures CanTransition(s, Matching) <==> s == Extracted
    ensures CanTransition(s, Validating) <==> s == Matching
    ensures CanTransition(s, Validated) <==> s == Validating
    ensures CanTransition(s, AutoApproved) <==> s == Validated
    ensures CanTransition(s, NeedsReview) <==> s == Validated
    ensures CanTransition(s, Approved) <==> s == NeedsReview
    ensures CanTransition(s, Rejected) <==> s == NeedsReview
    ensures CanTransition(s, Exporting) <==> s == AutoApproved || s == Approved
    ensures CanTransition(s, Exported) <==> s == Exporting
    ensures CanTransition(s, Failed) <==>
              s == Received || s == Extracting || s == Extracted || s == Matching || s == Validating || s == Exporting
  {
    match s case _ =>
  }

  predicate IsTerminal(status: Status) {
    Transitions(status).None?
  }

  /** The length of the longest legal path that leaves a status. */
  function Rank(status: Status): nat {
    match status
    case Received => 9
    case Extracting => 8
    case Extracted => 7
    case Matching => 6
    case Validating => 5
    case Validated => 4
    case NeedsReview => 3
    case AutoApproved => 2
    case Approved => 2
    case Exporting => 1
    case Rejected => 0
    case Exported => 0
    case Failed => 0
  }

  lemma TransitionDescends(current: Status, target: Status)
    requires CanTransition(current, target)
    ensures Rank(target) < Rank(current)
  {
    match current case _ =>
  }

  lemma TerminalExactlyWhenNoExit(status: Status)
    ensures IsTerminal(status) <==> AllowedTransitions(status) == {}
    ensures IsTerminal(status) <==> Rank(status) == 0
    ensures IsTerminal(status) <==> status in {Rejected, Exported, Failed}
  {
    if !IsTerminal(status) {
      assert Failed in AllowedTransitions(status) || AutoApproved in AllowedTransitions(status)
             || Approved in AllowedTransitions(status) || Exporting in AllowedTransitions(status);
    }
  }

  /** A walk through the table, one legal move at a time. */
  predicate LegalPath(path: seq<Status>) {
    && |path| > 0
    && forall i :: 0 < i < |path| ==> CanTransition(path[i - 1], path[i])
  }

  /** Every hop costs at least one rank, so no walk has more than nine hops. */
  lemma {:induction false} LegalPathBound(path: seq<Status>)
    requires LegalPath(path)
    ensures |path| - 1 + Rank(path[|path| - 1]) <= Rank(path[0]) <= 9
  {
    if |path| > 1 {
      TransitionDescends(path[0], path[1]);
      assert forall i :: 0 < i < |path[1..]| ==> path[1..][i - 1] == path[i];
      LegalPathBound(path[1..]);
    }
  }

  /** No status is ever visited twice. */
  lemma LegalPathNeverRepeats(path: seq<Status>, i: nat, j: nat)
    requires LegalPath(path) && i < j < |path|
    ensures path[i] != path[j]
  {
    var part := path[i..j + 1];
    assert LegalPath(part) by {
      forall k | 0 < k < |part| ensures CanTransition(part[k - 1], part[k]) {
        assert part[k - 1] == path[i + k - 1] && part[k] == path[i + k];
      }
    }
    LegalPathBound(part);
  }

  /** Nine hops are reached: the bound above is the best one. */
  lemma LegalPathBoundIsAttained() returns (path: seq<Status>)
    ensures LegalPath(path) && |path| == 10 && path[0] == Received && path[9] == Exported
  {
    path := [Received, Extracting, Extracted, Matching, Validating, Validated,
             NeedsReview, Approved, Exporting, Exported];
  }
}
