/**
 The pull-request review gate of VESSEL: the latest review per reviewer, the filter by rework
 evidence, the aggregation and the classifier. Commit ids are only ever compared for equality.
 */
module ReviewGate {
  import opened Text
  import opened Directive

  type Sha = nat

  /** A timestamp as GitHub sends it: the text, and the instant it parses to under RFC 3339, if it parses. */
  datatype Stamp = Stamp(text: string, instant: Option<int>)

  /** `PrReviewState`: APPROVED, CHANGES_REQUESTED, COMMENTED, anything else. */
  datatype Verdict = Approval | ChangeRequest | Remark | NoVerdict

  /** `author_association`; only the first three carry authority. */
  datatype Association = Owner | Member | Collaborator | Outsider

  datatype Review = Review(
    user: Option<string>, state: Verdict, commit: Option<Sha>, submitted: Option<Stamp>, association: Association)

  datatype Comment = Comment(commit: Option<Sha>, created: Option<Stamp>)

  datatype CiStatus = Pending | Success | Failure | Error

  /** What `/address_review` was last dispatched for. */
  datatype Evidence = Evidence(sha: Option<Sha>, at: Option<Stamp>)

  predicate HasVerdict(r: Review) {
    r.state.Approval? || r.state.ChangeRequest?
  }

  predicate Authorized(r: Review) {
    !r.association.Outsider?
  }

  // ----- latest review per reviewer -----

  /** Rust's `<` on strings. */
  predicate TextLess(a: string, b: string) {
    b != "" && (a == "" || a[0] < b[0] || (a[0] == b[0] && TextLess(a[1..], b[1..])))
  }

  lemma TextLessOrders(a: string, b: string, c: string)
    ensures !TextLess(a, a)
    ensures TextLess(a, b) || TextLess(b, a) || a == b
    ensures TextLess(a, b) ==> !TextLess(b, a)
    ensures TextLess(a, b) && TextLess(b, c) ==> TextLess(a, c)
  {
    if a != "" && b != "" {
      assert a == [a[0]] + a[1..] && b == [b[0]] + b[1..];
      TextLessOrders(a[1..], b[1..], if c == "" then "" else c[1..]);
    } else if a != "" {
      TextLessOrders(a[1..], "", "");
    }
  }

  /** At position `k` the texts differ for the first time, and there `a` ends or has the smaller character. */
  ghost predicate DiffersAt(a: string, b: string, k: nat) {
    k <= |a| && k < |b| && a[..k] == b[..k] && (k == |a| || a[k] < b[k])
  }

  /** Texts are compared lexicographically. */
  lemma {:induction false} TextLessIff(a: string, b: string)
    ensures TextLess(a, b) <==> exists k: nat :: DiffersAt(a, b, k)
  {
    if a == "" || b == "" || a[0] != b[0] {
      if TextLess(a, b) { assert DiffersAt(a, b, 0); }
      forall k: nat | 0 < k <= |a| && k < |b| ensures a[..k] != b[..k] {
        assert a[..k][0] == a[0] && b[..k][0] == b[0];
      }
    } else {
      TextLessIff(a[1..], b[1..]);
      if k: nat :| DiffersAt(a[1..], b[1..], k) {
        assert a[..k + 1] == [a[0]] + a[1..][..k] && b[..k + 1] == [b[0]] + b[1..][..k];
        assert DiffersAt(a, b, k + 1);
      }
      if k: nat :| DiffersAt(a, b, k) {
        assert k > 0;
        assert a[1..][..k - 1] == a[..k][1..] && b[1..][..k - 1] == b[..k][1..];
        assert DiffersAt(a[1..], b[1..], k - 1);
      }
    }
  }

  predicate Newer(existing: Review, review: Review) {
    match (existing.submitted, review.submitted)
    case (Some(a), Some(b)) => TextLess(a.text, b.text)
    case (None, Some(_)) => true
    case (Some(_), None) => false
    case (None, None) => true
  }

  predicate Replaces(existing: Review, review: Review) {
    match (HasVerdict(existing), HasVerdict(review))
    case (true, true) => Newer(existing, review)
    case (false, true) => true
    case (true, false) => false
    case (false, false) => Newer(existing, review)
  }

  predicate Named(r: Review) {
    r.user.Some? && r.user.value != ""
  }

  function Position(latest: seq<Review>, user: Option<string>): (i: Option<nat>)
    ensures i.Some? ==> i.value < |latest| && latest[i.value].user == user
    ensures i.None? ==> forall k :: 0 <= k < |latest| ==> latest[k].user != user
  {
    if latest == [] then None
    else if latest[0].user == user then Some(0)
    else match Position(latest[1..], user) case None => None case Some(k) => Some(k + 1)
  }

  function Upsert(latest: seq<Review>, r: Review): seq<Review> {
    if !Named(r) then latest
    else
      match Position(latest, r.user)
      case None => latest + [r]
      case Some(i) => if Replaces(latest[i], r) then latest[i := r] else latest
  }

  /** The value computed by `latest_review_per_user`. */
  function Latest(reviews: seq<Review>): seq<Review> {
    if reviews == [] then [] else Upsert(Latest(reviews[..|reviews| - 1]), reviews[|reviews| - 1])
  }

  method LatestReviewPerUser(reviews: seq<Review>) returns (latest: seq<Review>)
    ensures latest == Latest(reviews)
  {
    latest := [];
    for n := 0 to |reviews|
      invariant latest == Latest(reviews[..n])
    {
      var review := reviews[n];
      assert reviews[..n + 1][..n] == reviews[..n];
      if !Named(review) {
        continue;
      }
      var idx := Position(latest, review.user);
      match idx
      case Some(i) =>
        if Replaces(latest[i], review) {
          latest := latest[i := review];
        }
      case None =>
        latest := latest + [review];
    }
    assert reviews[..|reviews|] == reviews;
  }

  /** One reviewer's history folded with the replacement rule: the review that counts for `u`. */
  function Winner(reviews: seq<Review>, u: string): Option<Review> {
    if reviews == [] then None
    else
      var w, r := Winner(reviews[..|reviews| - 1], u), reviews[|reviews| - 1];
      if r.user == Some(u) && (w.None? || Replaces(w.value, r)) then Some(r) else w
  }

  function Lookup(latest: seq<Review>, u: string): Option<Review> {
    match Position(latest, Some(u)) case None => None case Some(i) => Some(latest[i])
  }

  lemma PositionAfterUpdate(latest: seq<Review>, i: nat, r: Review, user: Option<string>)
    requires i < |latest| && latest[i].user == r.user
    ensures Position(latest[i := r], user) == Position(latest, user)
  {
    if i > 0 {
      assert latest[i := r][1..] == latest[1..][i - 1 := r];
      PositionAfterUpdate(latest[1..], i - 1, r, user);
    }
  }

  lemma PositionAfterAppend(latest: seq<Review>, r: Review, user: Option<string>)
    ensures Position(latest + [r], user) ==
            if Position(latest, user).Some? then Position(latest, user)
            else if r.user == user then Some(|latest|) else None
  {
    if latest != [] {
      assert (latest + [r])[1..] == latest[1..] + [r];
      PositionAfterAppend(latest[1..], r, user);
    }
  }

  /**
   `latest_review_per_user` keeps for each named reviewer the one review that wins among that
   reviewer's own reviews, whatever the other reviewers did, and nothing else.
   */
  lemma {:induction false} LatestHoldsWinners(reviews: seq<Review>, u: string)
    requires u != ""
    ensures Lookup(Latest(reviews), u) == Winner(reviews, u)
  {
    if reviews != [] {
      var before, review := reviews[..|reviews| - 1], reviews[|reviews| - 1];
      LatestHoldsWinners(before, u);
      var kept := Latest(before);
      if Named(review) {
        var at := Position(kept, review.user);
        if at.Some? {
          PositionAfterUpdate(kept, at.value, review, Some(u));
        } else {
          PositionAfterAppend(kept, review, Some(u));
        }
      }
    }
  }

  lemma {:induction false} LatestIsOnePerUser(reviews: seq<Review>, i: nat)
    requires i < |Latest(reviews)|
    ensures Named(Latest(reviews)[i]) && Position(Latest(reviews), Latest(reviews)[i].user) == Some(i)
    ensures Latest(reviews)[i] in reviews
  {
    var before, review := reviews[..|reviews| - 1], reviews[|reviews| - 1];
    var kept := Latest(before);
    if i < |kept| {
      LatestIsOnePerUser(before, i);
    }
    if Named(review) {
      var at := Position(kept, review.user);
      if at.Some? {
        PositionAfterUpdate(kept, at.value, review, Latest(reviews)[i].user);
      } else {
        PositionAfterAppend(kept, review, Latest(reviews)[i].user);
      }
    }
  }

  lemma InLatestIffWins(reviews: seq<Review>, r: Review)
    ensures r in Latest(reviews) <==> Named(r) && Winner(reviews, r.user.value) == Some(r)
  {
    if r in Latest(reviews) {
      var i :| 0 <= i < |Latest(reviews)| && Latest(reviews)[i] == r;
      LatestIsOnePerUser(reviews, i);
    }
    if Named(r) {
      LatestHoldsWinners(reviews, r.user.value);
    }
  }

  // ----- which review wins, and when the order of the list matters -----

  /** `a` takes precedence over `b` whatever their order: a verdict over none, then the later timestamp. */
  predicate Above(a: Review, b: Review) {
    if HasVerdict(a) != HasVerdict(b) then HasVerdict(a)
    else a.submitted.Some? && (b.submitted.None? || TextLess(b.submitted.value.text, a.submitted.value.text))
  }

  ghost predicate Top(reviews: seq<Review>, u: string, r: Review) {
    r in reviews && r.user == Some(u) && forall q :: q in reviews && q.user == Some(u) ==> !Above(q, r)
  }

  lemma AboveIsWeakOrder(a: Review, b: Review, c: Review)
    ensures !Above(a, a)
    ensures Above(a, b) ==> !Above(b, a)
    ensures !Above(a, b) && !Above(b, c) ==> !Above(a, c)
  {
    if a.submitted.Some? && b.submitted.Some? && c.submitted.Some? {
      var x, y, z := a.submitted.value.text, b.submitted.value.text, c.submitted.value.text;
      TextLessOrders(z, y, x);
      TextLessOrders(y, x, z);
      TextLessOrders(z, x, y);
    }
    if a.submitted.Some? {
      TextLessOrders(a.submitted.value.text, if b.submitted.Some? then b.submitted.value.text else "", "");
    }
  }

  lemma ReplacesAgreesWithAbove(a: Review, b: Review)
    ensures Above(b, a) ==> Replaces(a, b)
    ensures Replaces(a, b) ==> !Above(a, b)
    ensures !Above(a, b) && !Above(b, a) ==> (Replaces(a, b) <==> b.submitted.None?)
  {
    AboveIsWeakOrder(a, b, a);
    if a.submitted.Some? && b.submitted.Some? {
      TextLessOrders(a.submitted.value.text, b.submitted.value.text, "");
    }
  }

  /** The review that counts is one of the reviewer's own, and none of them takes precedence over it. */
  lemma {:induction false} WinnerIsTop(reviews: seq<Review>, u: string)
    ensures Winner(reviews, u).Some? ==> Top(reviews, u, Winner(reviews, u).value)
    ensures Winner(reviews, u).None? ==> forall r :: r in reviews ==> r.user != Some(u)
  {
    if reviews != [] {
      var before, review := reviews[..|reviews| - 1], reviews[|reviews| - 1];
      WinnerIsTop(before, u);
      assert reviews == before + [review];
      var w := Winner(before, u);
      if review.user == Some(u) && w.Some? {
        ReplacesAgreesWithAbove(w.value, review);
        forall q | q in reviews && q.user == Some(u) ensures !Above(q, Winner(reviews, u).value) {
          AboveIsWeakOrder(q, w.value, review);
        }
      } else if review.user == Some(u) {
        AboveIsWeakOrder(review, review, review);
      }
    }
  }

  ghost predicate UniqueTop(reviews: seq<Review>, u: string) {
    forall q, r :: Top(reviews, u, q) && Top(reviews, u, r) ==> q == r
  }

  ghost predicate Reordering(a: seq<Review>, b: seq<Review>) {
    multiset(a) == multiset(b)
  }

  lemma TopIgnoresOrder(a: seq<Review>, b: seq<Review>, u: string, r: Review)
    requires Reordering(a, b) && Top(a, u, r)
    ensures Top(b, u, r)
  {
    assert forall q :: q in a <==> q in multiset(a);
    assert forall q :: q in b <==> q in multiset(b);
  }

  /** A tied review wins when it is listed first, if it carries a timestamp, and when listed last, if it does not. */
  lemma {:induction false} TiedWinsByPlace(rest: seq<Review>, u: string, r: Review)
    requires r.user == Some(u) && forall q :: q in rest && q.user == Some(u) ==> !Above(q, r)
    ensures r.submitted.Some? ==> Winner([r] + rest, u) == Some(r)
    ensures r.submitted.None? ==> Winner(rest + [r], u) == Some(r)
  {
    if rest == [] {
      assert [r] + rest == [r] && rest + [r] == [r] && [r][..0] == [];
    } else {
      var before, last := rest[..|rest| - 1], rest[|rest| - 1];
      TiedWinsByPlace(before, u, r);
      var front, back := [r] + rest, rest + [r];
      assert front[..|front| - 1] == [r] + before && back[..|back| - 1] == rest;
      assert last in rest;
      ReplacesAgreesWithAbove(r, last);
      WinnerIsTop(rest, u);
      if Winner(rest, u).Some? {
        ReplacesAgreesWithAbove(Winner(rest, u).value, r);
      }
    }
  }

  lemma {:induction false} MoveOut(reviews: seq<Review>, r: Review) returns (rest: seq<Review>)
    requires r in reviews
    ensures Reordering([r] + rest, reviews) && Reordering(rest + [r], reviews)
    ensures forall q :: q in rest ==> q in reviews
  {
    var i :| 0 <= i < |reviews| && reviews[i] == r;
    rest := reviews[..i] + reviews[i + 1..];
    assert reviews == reviews[..i] + [r] + reviews[i + 1..];
  }

  lemma SomeOrderPicks(reviews: seq<Review>, u: string, r: Review) returns (listed: seq<Review>)
    requires Top(reviews, u, r)
    ensures Reordering(listed, reviews) && Winner(listed, u) == Some(r)
  {
    var rest := MoveOut(reviews, r);
    TiedWinsByPlace(rest, u, r);
    listed := if r.submitted.Some? then [r] + rest else rest + [r];
  }

  /**
   The review that counts for a reviewer does not depend on the order GitHub lists reviews in, exactly
   when one review (value) stands on top of that reviewer's history.
   */
  lemma OrderMattersOnlyForTies(reviews: seq<Review>, u: string)
    ensures (forall listed :: Reordering(listed, reviews) ==> Winner(listed, u) == Winner(reviews, u))
            <==> UniqueTop(reviews, u)
  {
    if UniqueTop(reviews, u) {
      forall listed | Reordering(listed, reviews) ensures Winner(listed, u) == Winner(reviews, u) {
        SameWinner(listed, reviews, u);
      }
    } else {
      var q, r :| Top(reviews, u, q) && Top(reviews, u, r) && q != r;
      var first := SomeOrderPicks(reviews, u, q);
      var second := SomeOrderPicks(reviews, u, r);
      assert Winner(first, u) != Winner(second, u);
    }
  }

  lemma SameWinner(listed: seq<Review>, reviews: seq<Review>, u: string)
    requires Reordering(listed, reviews) && UniqueTop(reviews, u)
    ensures Winner(listed, u) == Winner(reviews, u)
  {
    WinnerIsTop(listed, u);
    WinnerIsTop(reviews, u);
    if Winner(listed, u).Some? {
      TopIgnoresOrder(listed, reviews, u, Winner(listed, u).value);
    }
    if Winner(reviews, u).Some? {
      TopIgnoresOrder(reviews, listed, u, Winner(reviews, u).value);
    }
  }

  // ----- rework evidence, aggregation and classification -----

  /** `is_feedback_addressed`. */
  predicate Addressed(commit: Option<Sha>, stamp: Option<Stamp>, head: Sha, evidence: Option<Evidence>) {
    if commit == Some(head) then false
    else if evidence.None? then false
    else if evidence.value.sha.None? || evidence.value.at.None? then false
    else if evidence.value.sha.value == head then false
    else if stamp.Some? && stamp.value.instant.Some? && evidence.value.at.value.instant.Some?
    then stamp.value.instant.value <= evidence.value.at.value.instant.value
    else commit == evidence.value.sha
  }

  predicate ReviewAddressed(r: Review, head: Sha, evidence: Option<Evidence>) {
    Addressed(r.commit, r.submitted, head, evidence)
  }

  function Keep(latest: seq<Review>, head: Sha, evidence: Option<Evidence>): (kept: seq<Review>)
    ensures forall r :: r in kept <==>
              r in latest && (r.state.ChangeRequest? ==> !ReviewAddressed(r, head, evidence))
  {
    if latest == [] then []
    else
      var rest := Keep(latest[1..], head, evidence);
      if !latest[0].state.ChangeRequest? || !ReviewAddressed(latest[0], head, evidence)
      then [latest[0]] + rest else rest
  }

  function Applicable(reviews: seq<Review>, head: Sha, evidence: Option<Evidence>): seq<Review> {
    Keep(Latest(reviews), head, evidence)
  }

  predicate HeadApproval(r: Review, head: Sha) {
    r.state.Approval? && Authorized(r) && r.commit == Some(head)
  }

  function CandidateState(applicable: seq<Review>, head: Sha): Verdict {
    if exists r :: r in applicable && r.state.ChangeRequest? then ChangeRequest
    else if exists r :: r in applicable && HeadApproval(r, head) then Approval
    else NoVerdict
  }

  function ClassifyFromParts(
    mergeable: Option<bool>, ci: CiStatus, review: Verdict, unaddressedComments: bool): MonitorState {
    if mergeable == Some(false) then Conflicts
    else
      match ci
      case Failure => CiFailed
      case Error => CiFailed
      case Pending => CiRunning
      case Success =>
        if review.ChangeRequest? then ChangesRequested
        else if unaddressedComments && !review.Approval? then Comments
        else if review.Approval? then ReadyForMerge
        else NeedsReview
  }

  /** `classify`, after both lists were fetched; a failed fetch gives the empty list. */
  function Classify(
    mergeable: Option<bool>, ci: CiStatus, reviews: seq<Review>, comments: seq<Comment>,
    head: Sha, evidence: Option<Evidence>
  ): MonitorState {
    var review := CandidateState(Applicable(reviews, head, evidence), head);
    var unaddressed := (exists c :: c in comments && !Addressed(c.commit, c.created, head, evidence))
      && !review.Approval?;
    ClassifyFromParts(mergeable, ci, review, unaddressed)
  }

  /** No reviewer's latest review still asks for changes that rework has not addressed. */
  ghost predicate NothingRequested(reviews: seq<Review>, head: Sha, evidence: Option<Evidence>) {
    forall u :: u != "" && Winner(reviews, u).Some? && Winner(reviews, u).value.state.ChangeRequest? ==>
      ReviewAddressed(Winner(reviews, u).value, head, evidence)
  }

  ghost predicate ApprovedAt(reviews: seq<Review>, head: Sha) {
    exists u :: u != "" && Winner(reviews, u).Some? && HeadApproval(Winner(reviews, u).value, head)
  }

  lemma WinnerNamesUser(reviews: seq<Review>, u: string)
    requires u != "" && Winner(reviews, u).Some?
    ensures Winner(reviews, u).value in Latest(reviews) && Winner(reviews, u).value.user == Some(u)
  {
    WinnerIsTop(reviews, u);
    InLatestIffWins(reviews, Winner(reviews, u).value);
  }

  lemma RequestsInTermsOfWinners(reviews: seq<Review>, head: Sha, evidence: Option<Evidence>)
    ensures NothingRequested(reviews, head, evidence)
            <==> !exists r :: r in Applicable(reviews, head, evidence) && r.state.ChangeRequest?
  {
    forall r | r in Latest(reviews) ensures Named(r) && Winner(reviews, r.user.value) == Some(r) {
      InLatestIffWins(reviews, r);
    }
    forall u | u != "" && Winner(reviews, u).Some? ensures Winner(reviews, u).value in Latest(reviews) {
      WinnerNamesUser(reviews, u);
    }
  }

  lemma ApprovalInTermsOfWinners(reviews: seq<Review>, head: Sha, evidence: Option<Evidence>)
    ensures ApprovedAt(reviews, head)
            <==> exists r :: r in Applicable(reviews, head, evidence) && HeadApproval(r, head)
  {
    forall r | r in Latest(reviews) ensures Named(r) && Winner(reviews, r.user.value) == Some(r) {
      InLatestIffWins(reviews, r);
    }
    forall u | u != "" && Winner(reviews, u).Some? ensures Winner(reviews, u).value in Latest(reviews) {
      WinnerNamesUser(reviews, u);
    }
  }

  // ----- the whole classification, in terms of reviewers and commits -----

  /** Both timestamps parse, and the feedback is the later one. */
  predicate LaterThan(stamp: Option<Stamp>, at: Option<Stamp>) {
    && stamp.Some? && stamp.value.instant.Some? && at.Some? && at.value.instant.Some?
    && stamp.value.instant.value > at.value.instant.value
  }

  /** One of the timestamps is missing or does not parse. */
  predicate Unordered(stamp: Option<Stamp>, at: Option<Stamp>) {
    stamp.None? || stamp.value.instant.None? || at.None? || at.value.instant.None?
  }

  /**
   Feedback that no rework has answered: it is on the head itself, or nothing was dispatched, or nothing was pushed
   since, or it came after the dispatch, or its time is unknown and it is on another commit than the dispatched one.
   */
  predicate StillOpen(commit: Option<Sha>, stamp: Option<Stamp>, head: Sha, evidence: Option<Evidence>) {
    || commit == Some(head)
    || evidence.None? || evidence.value.sha.None? || evidence.value.at.None?
    || evidence.value.sha == Some(head)
    || LaterThan(stamp, evidence.value.at)
    || (Unordered(stamp, evidence.value.at) && commit != evidence.value.sha)
  }

  /** The latest review of `u` asks for changes that no rework has answered. */
  ghost predicate Requests(u: string, reviews: seq<Review>, head: Sha, evidence: Option<Evidence>) {
    && u != "" && Winner(reviews, u).Some?
    && var r := Winner(reviews, u).value;
       r.state == ChangeRequest && StillOpen(r.commit, r.submitted, head, evidence)
  }

  /** The latest review of `u` approves this very head, and `u` has authority. */
  ghost predicate Approves(u: string, reviews: seq<Review>, head: Sha) {
    && u != "" && Winner(reviews, u).Some?
    && var r := Winner(reviews, u).value;
       r.state == Approval && r.commit == Some(head) && r.association in {Owner, Member, Collaborator}
  }

  lemma RequestsAreUnaddressed(reviews: seq<Review>, head: Sha, evidence: Option<Evidence>)
    ensures (exists u :: Requests(u, reviews, head, evidence))
            <==> exists r :: r in Applicable(reviews, head, evidence) && r.state.ChangeRequest?
  {
    RequestsInTermsOfWinners(reviews, head, evidence);
    if u :| Requests(u, reviews, head, evidence) {
      assert !ReviewAddressed(Winner(reviews, u).value, head, evidence);
    }
    if !NothingRequested(reviews, head, evidence) {
      var u :| u != "" && Winner(reviews, u).Some? && Winner(reviews, u).value.state.ChangeRequest?
               && !ReviewAddressed(Winner(reviews, u).value, head, evidence);
      assert Requests(u, reviews, head, evidence);
    }
  }

  lemma ApprovesIsApplicable(reviews: seq<Review>, head: Sha, evidence: Option<Evidence>)
    ensures (exists u :: Approves(u, reviews, head))
            <==> exists r :: r in Applicable(reviews, head, evidence) && HeadApproval(r, head)
  {
    ApprovalInTermsOfWinners(reviews, head, evidence);
    if u :| Approves(u, reviews, head) {
      assert HeadApproval(Winner(reviews, u).value, head);
    }
    if ApprovedAt(reviews, head) {
      var u :| u != "" && Winner(reviews, u).Some? && HeadApproval(Winner(reviews, u).value, head);
      assert Approves(u, reviews, head);
    }
  }

  /**
   The gate opens exactly when there is no known conflict, CI succeeded, no reviewer's latest change request is
   still open, and some authorized reviewer's latest review approves this very head. Inline comments never hold an
   approved head back.
   */
  lemma ReadyForMergeIff(
    mergeable: Option<bool>, ci: CiStatus, reviews: seq<Review>, comments: seq<Comment>,
    head: Sha, evidence: Option<Evidence>)
    ensures Classify(mergeable, ci, reviews, comments, head, evidence) == ReadyForMerge <==>
              && mergeable != Some(false) && ci == Success
              && (forall u :: !Requests(u, reviews, head, evidence))
              && (exists u :: Approves(u, reviews, head))
  {
    RequestsAreUnaddressed(reviews, head, evidence);
    ApprovesIsApplicable(reviews, head, evidence);
  }

  /** Every other answer of the classifier has its exact condition as well. */
  lemma ClassificationTable(
    mergeable: Option<bool>, ci: CiStatus, reviews: seq<Review>, comments: seq<Comment>,
    head: Sha, evidence: Option<Evidence>)
    ensures
      var answer := Classify(mergeable, ci, reviews, comments, head, evidence);
      var green := mergeable != Some(false) && ci == Success;
      var requested := exists u :: Requests(u, reviews, head, evidence);
      var approved := exists u :: Approves(u, reviews, head);
      var commented := exists c :: c in comments && StillOpen(c.commit, c.created, head, evidence);
      && (answer == Conflicts <==> mergeable == Some(false))
      && (answer == CiFailed <==> mergeable != Some(false) && ci in {Failure, Error})
      && (answer == CiRunning <==> mergeable != Some(false) && ci == Pending)
      && (answer == ChangesRequested <==> green && requested)
      && (answer == Comments <==> green && !requested && !approved && commented)
      && (answer == NeedsReview <==> green && !requested && !approved && !commented)
  {
    RequestsAreUnaddressed(reviews, head, evidence);
    ApprovesIsApplicable(reviews, head, evidence);
    assert forall c :: c in comments ==>
        (StillOpen(c.commit, c.created, head, evidence) <==> !Addressed(c.commit, c.created, head, evidence));
  }

  /**
   Rework never hides what was said after it was asked for: a latest change request given after the dispatch keeps
   the gate shut, whoever approves, and is what the gate reports once CI is green.
   */
  lemma LaterRequestBlocks(
    mergeable: Option<bool>, ci: CiStatus, reviews: seq<Review>, comments: seq<Comment>,
    head: Sha, evidence: Evidence, u: string)
    requires u != "" && Winner(reviews, u).Some? && Winner(reviews, u).value.state == ChangeRequest
    requires LaterThan(Winner(reviews, u).value.submitted, evidence.at)
    ensures
      var answer := Classify(mergeable, ci, reviews, comments, head, Some(evidence));
      answer != ReadyForMerge && (mergeable != Some(false) && ci == Success ==> answer == ChangesRequested)
  {
    assert Requests(u, reviews, head, Some(evidence));
    ClassificationTable(mergeable, ci, reviews, comments, head, Some(evidence));
  }

  /** The same holds of a change request on the head itself, and of any while nothing was pushed since a dispatch. */
  lemma HeadRequestBlocks(
    mergeable: Option<bool>, ci: CiStatus, reviews: seq<Review>, comments: seq<Comment>,
    head: Sha, evidence: Option<Evidence>, u: string)
    requires u != "" && Winner(reviews, u).Some? && Winner(reviews, u).value.state == ChangeRequest
    requires
      || Winner(reviews, u).value.commit == Some(head)
      || evidence.None? || evidence.value.sha.None? || evidence.value.at.None? || evidence.value.sha == Some(head)
    ensures
      var answer := Classify(mergeable, ci, reviews, comments, head, evidence);
      answer != ReadyForMerge && (mergeable != Some(false) && ci == Success ==> answer == ChangesRequested)
  {
    assert Requests(u, reviews, head, evidence);
    ClassificationTable(mergeable, ci, reviews, comments, head, evidence);
  }

  /** Without ties in a reviewer's history, the whole classification ignores the order reviews are listed in. */
  lemma ClassificationIgnoresOrder(
    mergeable: Option<bool>, ci: CiStatus, reviews: seq<Review>, listed: seq<Review>, comments: seq<Comment>,
    head: Sha, evidence: Option<Evidence>)
    requires Reordering(listed, reviews) && forall u :: u != "" ==> UniqueTop(reviews, u)
    ensures Classify(mergeable, ci, listed, comments, head, evidence)
            == Classify(mergeable, ci, reviews, comments, head, evidence)
  {
    forall u | u != "" ensures Winner(listed, u) == Winner(reviews, u) {
      SameWinner(listed, reviews, u);
    }
    RequestsInTermsOfWinners(reviews, head, evidence);
    ApprovalInTermsOfWinners(reviews, head, evidence);
    RequestsInTermsOfWinners(listed, head, evidence);
    ApprovalInTermsOfWinners(listed, head, evidence);
  }

  lemma TieKeepsFirst(first: Review, second: Review)
    requires Named(first) && second.user == first.user && HasVerdict(first) && HasVerdict(second)
    requires first.submitted.Some? && second.submitted == first.submitted
    ensures Latest([first, second]) == [first]
  {
    TextLessOrders(first.submitted.value.text, first.submitted.value.text, "");
    assert !Replaces(first, second);
    assert [first, second][..1] == [first];
    assert Latest([first]) == [first] by { assert [first][..0] == []; }
    assert Latest([first, second]) == Upsert([first], second);
  }

  /** With a tie it does: two reviews of one second, and the listing decides whether the head may merge. */
  lemma TiedReviewsDecideByOrder(u: string, at: Stamp, head: Sha)
    requires u != ""
    ensures var yes := Review(Some(u), Approval, Some(head), Some(at), Owner);
            var no := yes.(state := ChangeRequest);
            && Reordering([no, yes], [yes, no])
            && Classify(None, Success, [yes, no], [], head, None) == ReadyForMerge
            && Classify(None, Success, [no, yes], [], head, None) == ChangesRequested
  {
    var yes := Review(Some(u), Approval, Some(head), Some(at), Owner);
    var no := yes.(state := ChangeRequest);
    assert Reordering([no, yes], [yes, no]);
    ApprovalFirstMerges(yes, no, head);
    RequestFirstBlocks(no, yes, head);
  }

  lemma ApprovalFirstMerges(yes: Review, no: Review, head: Sha)
    requires Named(yes) && no == yes.(state := ChangeRequest) && yes.submitted.Some? && HeadApproval(yes, head)
    ensures Classify(None, Success, [yes, no], [], head, None) == ReadyForMerge
  {
    TieKeepsFirst(yes, no);
    assert Applicable([yes, no], head, None) == Keep([yes], head, None) == [yes];
  }

  lemma RequestFirstBlocks(no: Review, yes: Review, head: Sha)
    requires Named(no) && no.state.ChangeRequest? && HasVerdict(yes) && yes.user == no.user
    requires no.submitted.Some? && yes.submitted == no.submitted
    ensures Classify(None, Success, [no, yes], [], head, None) == ChangesRequested
  {
    TieKeepsFirst(no, yes);
    assert no in Applicable([no, yes], head, None);
  }

  /** After a push, the gate opens only for an approval of the new head; nothing said about older heads suffices. */
  lemma PushNeedsNewApproval(
    mergeable: Option<bool>, ci: CiStatus, before: seq<Review>, since: seq<Review>, comments: seq<Comment>,
    head: Sha, evidence: Option<Evidence>)
    requires forall r :: r in before ==> r.commit != Some(head)
    requires Classify(mergeable, ci, before + since, comments, head, evidence) == ReadyForMerge
    ensures exists r ::
      r in since && Named(r) && HeadApproval(r, head) && Winner(before + since, r.user.value) == Some(r)
  {
    ReadyForMergeIff(mergeable, ci, before + since, comments, head, evidence);
    var u :| Approves(u, before + since, head);
    WinnerIsTop(before + since, u);
    assert Winner(before + since, u).value in since;
  }
}
