/**
 The rework loop around the review gate: reviewers leave feedback, FORGE pushes fresh heads, and
 VESSEL dispatches `/address_review` at most once per head while the gate reports unaddressed feedback.
 */
module ReworkLoop {
  import opened Text
  import opened Directive
  import opened ReviewGate

  /** `dispatches` counts `/address_review` dispatches; `clears` counts resets of the dispatch evidence. */
  datatype State = State(
    now: int, head: Sha, pushed: set<Sha>, reviews: seq<Review>, comments: seq<Comment>,
    evidence: Option<Evidence>, dispatches: nat, clears: nat)

  datatype Event =
    | Tick(seconds: nat)
    | GiveReview(review: Review)
    | GiveComment(comment: Comment)
    | Push(sha: Sha)
    | Dispatch(text: string, mergeable: Option<bool>, ci: CiStatus)
    | Clear

  function Initial(head: Sha, now: int): State {
    State(now, head, {head}, [], [], None, 0, 0)
  }

  function FeedbackCount(s: State): nat {
    |s.reviews| + |s.comments|
  }

  /** Feedback names a commit of the branch and is not stamped in the future. */
  predicate Plausible(s: State, commit: Option<Sha>, stamp: Option<Stamp>) {
    && (commit.Some? ==> commit.value in s.pushed)
    && (stamp.Some? && stamp.value.instant.Some? ==> stamp.value.instant.value <= s.now)
  }

  /** Dispatch is due: not yet dispatched for this head, and the gate asks for rework by review or comment. */
  predicate Due(s: State, mergeable: Option<bool>, ci: CiStatus) {
    && !(s.evidence.Some? && s.evidence.value.sha == Some(s.head))
    && Classify(mergeable, ci, s.reviews, s.comments, s.head, s.evidence) in {ChangesRequested, Comments}
  }

  function Step(s: State, e: Event): State {
    match e
    case Tick(seconds) => s.(now := s.now + seconds)
    case GiveReview(r) =>
      if Plausible(s, r.commit, r.submitted) then s.(reviews := s.reviews + [r]) else s
    case GiveComment(c) =>
      if Plausible(s, c.commit, c.created) then s.(comments := s.comments + [c]) else s
    case Push(sha) =>
      if sha in s.pushed then s else s.(head := sha, pushed := s.pushed + {sha})
    case Dispatch(text, mergeable, ci) =>
      if !Due(s, mergeable, ci) then s
      else s.(evidence := Some(Evidence(Some(s.head), Some(Stamp(text, Some(s.now))))), dispatches := s.dispatches + 1)
    case Clear => s.(evidence := None, clears := s.clears + 1)
  }

  function Run(s: State, events: seq<Event>): State
    decreases |events|
  {
    if events == [] then s else Run(Step(s, events[0]), events[1..])
  }

  predicate Stamped(stamp: Option<Stamp>) {
    stamp.Some? && stamp.value.instant.Some?
  }

  ghost predicate AllStamped(s: State) {
    && (forall r :: r in s.reviews ==> Stamped(r.submitted))
    && (forall c :: c in s.comments ==> Stamped(c.created))
  }

  // ----- the bound -----

  /** Where the loop stood at the last dispatch since the evidence was last cleared. */
  datatype Mark = Mark(reviews: nat, comments: nat, heads: set<Sha>, since: nat)

  /** Feedback the last dispatch covers: stamped no later, on a head that existed then. */
  ghost predicate Covered(s: State, m: Mark, commit: Option<Sha>, stamp: Option<Stamp>) {
    && (commit.Some? ==> commit.value in m.heads)
    && (Stamped(stamp) ==>
          && s.evidence.Some? && Stamped(s.evidence.value.at)
          && stamp.value.instant.value <= s.evidence.value.at.value.instant.value)
  }

  ghost predicate Marks(s: State, m: Mark) {
    && m.reviews <= |s.reviews| && m.comments <= |s.comments|
    && m.since <= m.reviews + m.comments
    && s.dispatches <= s.clears * FeedbackCount(s) + m.since
    && (s.evidence.None? ==> m.reviews == 0 && m.comments == 0)
    && (s.evidence.Some? ==>
          && s.evidence.value.sha.Some? && s.evidence.value.sha.value in m.heads
          && Stamped(s.evidence.value.at)
          && (s.head == s.evidence.value.sha.value || s.head !in m.heads)
          && m.heads <= s.pushed)
    && (forall i :: 0 <= i < m.reviews ==> Covered(s, m, s.reviews[i].commit, s.reviews[i].submitted))
    && (forall i :: 0 <= i < m.comments ==> Covered(s, m, s.comments[i].commit, s.comments[i].created))
  }

  ghost predicate Sane(s: State) {
    && s.head in s.pushed
    && (forall r :: r in s.reviews ==> Plausible(s, r.commit, r.submitted))
    && (forall c :: c in s.comments ==> Plausible(s, c.commit, c.created))
  }

  /**
   On every later head, feedback covered by the last dispatch is addressed exactly if it is stamped or names the
   dispatched commit.
   */
  lemma CoveredIsAddressedIff(s: State, m: Mark, commit: Option<Sha>, stamp: Option<Stamp>)
    requires Marks(s, m) && s.evidence.Some? && s.evidence.value.sha != Some(s.head)
    requires Covered(s, m, commit, stamp)
    ensures Addressed(commit, stamp, s.head, s.evidence) <==> Stamped(stamp) || commit == s.evidence.value.sha
  {
  }

  /** A due dispatch is caused by feedback that is not addressed. */
  lemma DueHasCause(s: State, mergeable: Option<bool>, ci: CiStatus)
    requires Due(s, mergeable, ci)
    ensures (exists i :: 0 <= i < |s.reviews| && !ReviewAddressed(s.reviews[i], s.head, s.evidence))
            || (exists i ::
                  0 <= i < |s.comments| && !Addressed(s.comments[i].commit, s.comments[i].created, s.head, s.evidence))
  {
    var applicable := Applicable(s.reviews, s.head, s.evidence);
    if r :| r in applicable && r.state.ChangeRequest? {
      var k :| 0 <= k < |Latest(s.reviews)| && Latest(s.reviews)[k] == r;
      LatestIsOnePerUser(s.reviews, k);
      var i :| 0 <= i < |s.reviews| && s.reviews[i] == r;
      assert !ReviewAddressed(s.reviews[i], s.head, s.evidence);
    } else {
      var c :| c in s.comments && !Addressed(c.commit, c.created, s.head, s.evidence);
      var i :| 0 <= i < |s.comments| && s.comments[i] == c;
      assert !Addressed(s.comments[i].commit, s.comments[i].created, s.head, s.evidence);
    }
  }

  /** Every dispatch answers at least one item of feedback given since the previous dispatch. */
  lemma DispatchAnswersNewFeedback(s: State, m: Mark, mergeable: Option<bool>, ci: CiStatus)
    requires Marks(s, m) && AllStamped(s) && Due(s, mergeable, ci)
    ensures m.reviews + m.comments < FeedbackCount(s)
  {
    DueHasCause(s, mergeable, ci);
    if m.reviews + m.comments == FeedbackCount(s) && s.evidence.Some? {
      if i :| 0 <= i < |s.reviews| && !ReviewAddressed(s.reviews[i], s.head, s.evidence) {
        CoveredIsAddressedIff(s, m, s.reviews[i].commit, s.reviews[i].submitted);
      } else {
        var i :| 0 <= i < |s.comments| && !Addressed(s.comments[i].commit, s.comments[i].created, s.head, s.evidence);
        CoveredIsAddressedIff(s, m, s.comments[i].commit, s.comments[i].created);
      }
    }
  }

  lemma StepKeepsMarks(s: State, m: Mark, e: Event) returns (m': Mark)
    requires Sane(s) && Marks(s, m) && AllStamped(Step(s, e))
    ensures Marks(Step(s, e), m')
  {
    var s' := Step(s, e);
    assert AllStamped(s) by {
      forall r | r in s.reviews ensures Stamped(r.submitted) { assert r in s'.reviews; }
      forall c | c in s.comments ensures Stamped(c.created) { assert c in s'.comments; }
    }
    m' := m;
    if e.Dispatch? && Due(s, e.mergeable, e.ci) {
      DispatchAnswersNewFeedback(s, m, e.mergeable, e.ci);
      m' := Mark(|s.reviews|, |s.comments|, s.pushed, m.since + 1);
    } else if e.Clear? {
      m' := Mark(0, 0, {}, 0);
      ClearIsPaidFor(s.dispatches, s.clears, FeedbackCount(s), m.since);
    } else {
      MoreFeedback(s.clears, FeedbackCount(s), FeedbackCount(s'));
    }
  }

  lemma ClearIsPaidFor(dispatches: nat, clears: nat, feedback: nat, since: nat)
    requires dispatches <= clears * feedback + since && since <= feedback
    ensures dispatches <= (clears + 1) * feedback
  {
  }

  lemma MoreFeedback(clears: nat, before: nat, after: nat)
    requires before <= after
    ensures clears * before <= clears * after
  {
  }

  lemma {:induction false} StampsAccumulate(s: State, events: seq<Event>)
    requires AllStamped(Run(s, events))
    ensures AllStamped(s)
    decreases |events|
  {
    if events != [] {
      var s' := Step(s, events[0]);
      StampsAccumulate(s', events[1..]);
      forall r | r in s.reviews ensures Stamped(r.submitted) { assert r in s'.reviews; }
      forall c | c in s.comments ensures Stamped(c.created) { assert c in s'.comments; }
    }
  }

  lemma {:induction false} RunKeepsMarks(s: State, m: Mark, events: seq<Event>) returns (m': Mark)
    requires Sane(s) && Marks(s, m) && AllStamped(Run(s, events))
    ensures Marks(Run(s, events), m')
    decreases |events|
  {
    if events == [] {
      m' := m;
    } else {
      var s' := Step(s, events[0]);
      StampsAccumulate(s', events[1..]);
      var next := StepKeepsMarks(s, m, events[0]);
      m' := RunKeepsMarks(s', next, events[1..]);
    }
  }

  /**
   The loop terminates: if all feedback carries a readable timestamp, a run never dispatches more often
   than it received feedback, counted anew after every reset of the evidence.
   */
  lemma DispatchesBoundedByFeedback(head: Sha, now: int, events: seq<Event>)
    requires AllStamped(Run(Initial(head, now), events))
    ensures var s := Run(Initial(head, now), events);
            s.dispatches <= (s.clears + 1) * FeedbackCount(s)
  {
    var m := RunKeepsMarks(Initial(head, now), Mark(0, 0, {}, 0), events);
    var s := Run(Initial(head, now), events);
    ClearIsPaidFor(s.dispatches, s.clears, FeedbackCount(s), m.since);
  }

  // ----- exactly when the loop goes on without new feedback -----

  /**
   Everything said so far is older than the last dispatch and about heads of that time; the head is the
   dispatched one or newer.
   */
  ghost predicate AllCovered(s: State, heads: set<Sha>) {
    && s.evidence.Some? && s.evidence.value.sha.Some? && s.evidence.value.sha.value in heads
    && Stamped(s.evidence.value.at)
    && heads <= s.pushed && (s.head == s.evidence.value.sha.value || s.head !in heads)
    && (forall r :: r in s.reviews ==> Answered(s, heads, r.commit, r.submitted))
    && (forall c :: c in s.comments ==> Answered(s, heads, c.commit, c.created))
  }

  ghost predicate Answered(s: State, heads: set<Sha>, commit: Option<Sha>, stamp: Option<Stamp>)
    requires s.evidence.Some? && Stamped(s.evidence.value.at)
  {
    && (commit.Some? ==> commit.value in heads)
    && (Stamped(stamp) ==> stamp.value.instant.value <= s.evidence.value.at.value.instant.value)
  }

  /** Feedback without a readable timestamp, about another commit than the last dispatched one. */
  predicate NeverAddressed(s: State, commit: Option<Sha>, stamp: Option<Stamp>) {
    s.evidence.Some? && !Stamped(stamp) && commit != s.evidence.value.sha
  }

  ghost predicate OpenRequest(s: State, u: string) {
    u != "" && Winner(s.reviews, u).Some? && Winner(s.reviews, u).value.state.ChangeRequest?
    && NeverAddressed(s, Winner(s.reviews, u).value.commit, Winner(s.reviews, u).value.submitted)
  }

  predicate OpenComment(s: State, c: Comment) {
    c in s.comments && NeverAddressed(s, c.commit, c.created)
  }

  /** Some user's winning change request, or some comment, that no dispatch will ever address. */
  ghost predicate HasOpen(s: State) {
    (exists u :: OpenRequest(s, u)) || (exists c :: OpenComment(s, c))
  }

  lemma AnsweredIsAddressedIff(s: State, heads: set<Sha>, commit: Option<Sha>, stamp: Option<Stamp>)
    requires AllCovered(s, heads) && s.evidence.value.sha != Some(s.head) && Answered(s, heads, commit, stamp)
    ensures Addressed(commit, stamp, s.head, s.evidence) <==> !NeverAddressed(s, commit, stamp)
  {
  }

  /** On a newer head, the only change requests that still count are the open ones, and nothing approves the head. */
  lemma OpenRequestsCount(s: State, heads: set<Sha>)
    requires AllCovered(s, heads) && s.evidence.value.sha != Some(s.head)
    ensures NothingRequested(s.reviews, s.head, s.evidence) <==> !exists u :: OpenRequest(s, u)
    ensures !ApprovedAt(s.reviews, s.head)
  {
    forall u | u != "" && Winner(s.reviews, u).Some?
      ensures var r := Winner(s.reviews, u).value;
        && !HeadApproval(r, s.head)
        && (ReviewAddressed(r, s.head, s.evidence) <==> !NeverAddressed(s, r.commit, r.submitted))
    {
      WinnerIsTop(s.reviews, u);
      var r := Winner(s.reviews, u).value;
      AnsweredIsAddressedIff(s, heads, r.commit, r.submitted);
    }
    if u :| OpenRequest(s, u) {
      assert !ReviewAddressed(Winner(s.reviews, u).value, s.head, s.evidence);
    } else {
      assert forall u :: u != "" && Winner(s.reviews, u).Some? ==> !OpenRequest(s, u);
    }
  }

  /** With everything covered, the gate asks for rework on a newer head exactly when something open is left. */
  lemma DueIffOpen(s: State, heads: set<Sha>, mergeable: Option<bool>, ci: CiStatus)
    requires AllCovered(s, heads) && s.evidence.value.sha != Some(s.head)
    ensures Due(s, mergeable, ci) <==> mergeable != Some(false) && ci == Success && HasOpen(s)
  {
    OpenRequestsCount(s, heads);
    RequestsInTermsOfWinners(s.reviews, s.head, s.evidence);
    ApprovalInTermsOfWinners(s.reviews, s.head, s.evidence);
    forall c | c in s.comments
      ensures Addressed(c.commit, c.created, s.head, s.evidence) <==> !OpenComment(s, c)
    {
      AnsweredIsAddressedIff(s, heads, c.commit, c.created);
    }
  }

  /** No feedback and no reset of the evidence. */
  predicate Quiet(e: Event) {
    e.Tick? || e.Push? || e.Dispatch?
  }

  ghost predicate AllQuiet(events: seq<Event>) {
    forall e :: e in events ==> Quiet(e)
  }

  lemma {:induction false} NothingOpenStaysQuiet(s: State, heads: set<Sha>, events: seq<Event>)
    requires AllCovered(s, heads) && !HasOpen(s) && AllQuiet(events)
    ensures Run(s, events).dispatches == s.dispatches
    decreases |events|
  {
    if events != [] {
      var e := events[0];
      assert Quiet(e) by { assert e in events; }
      var n := Step(s, e);
      if e.Dispatch? {
        if s.evidence.value.sha != Some(s.head) { DueIffOpen(s, heads, e.mergeable, e.ci); }
        assert n == s;
      } else {
        SameOpen(s, n);
      }
      NothingOpenStaysQuiet(n, heads, events[1..]);
    }
  }

  lemma SameOpen(s: State, n: State)
    requires n.reviews == s.reviews && n.comments == s.comments && n.evidence == s.evidence
    ensures HasOpen(n) <==> HasOpen(s)
  {
    assert forall u :: OpenRequest(n, u) <==> OpenRequest(s, u);
    assert forall c :: OpenComment(n, c) <==> OpenComment(s, c);
  }

  lemma FreshSha(pushed: set<Sha>) returns (sha: Sha)
    ensures sha !in pushed && forall h :: h in pushed ==> h < sha
  {
    if pushed == {} {
      sha := 0;
    } else {
      var h :| h in pushed;
      var rest := FreshSha(pushed - {h});
      sha := if h < rest then rest else h + 1;
      assert forall x :: x in pushed ==> x == h || x in pushed - {h};
    }
  }

  /** A push and a dispatch: everything is covered again, and what was open stays open. */
  lemma OpenDispatchesAgain(s: State, heads: set<Sha>, sha: Sha)
    requires Sane(s) && AllCovered(s, heads) && HasOpen(s) && sha !in s.pushed
    ensures
      var n := Step(Step(s, Push(sha)), Dispatch("", None, Success));
      Sane(n) && AllCovered(n, n.pushed) && HasOpen(n) && n.dispatches == s.dispatches + 1
  {
    var p := Step(s, Push(sha));
    SameOpen(s, p);
    DueIffOpen(p, heads, None, Success);
    var n := Step(p, Dispatch("", None, Success));
    OpenOutlivesDispatch(p, n, heads);
  }

  lemma OpenOutlivesDispatch(p: State, n: State, heads: set<Sha>)
    requires AllCovered(p, heads) && HasOpen(p) && p.evidence.value.sha != Some(p.head)
    requires n.reviews == p.reviews && n.comments == p.comments
    && n.evidence.Some? && n.evidence.value.sha == Some(p.head)
    ensures HasOpen(n)
  {
    if u :| OpenRequest(p, u) {
      WinnerIsTop(p.reviews, u);
      assert OpenRequest(n, u);
    } else {
      var c :| OpenComment(p, c);
      assert OpenComment(n, c);
    }
  }

  lemma {:induction false} OpenLoopsForever(s: State, heads: set<Sha>, n: nat) returns (events: seq<Event>)
    requires Sane(s) && AllCovered(s, heads) && HasOpen(s)
    ensures AllQuiet(events) && Run(s, events).dispatches == s.dispatches + n
    decreases n
  {
    if n == 0 {
      events := [];
    } else {
      var sha := FreshSha(s.pushed);
      OpenDispatchesAgain(s, heads, sha);
      var p := Step(s, Push(sha));
      var d := Step(p, Dispatch("", None, Success));
      var rest := OpenLoopsForever(d, d.pushed, n - 1);
      events := [Push(sha), Dispatch("", None, Success)] + rest;
      assert events[1..][0] == Dispatch("", None, Success) && events[1..][1..] == rest;
      assert Run(s, events) == Run(p, events[1..]);
    }
  }

  ghost predicate CanDispatch(s: State, n: nat) {
    exists events :: AllQuiet(events) && Run(s, events).dispatches >= s.dispatches + n
  }

  /**
   Without new feedback and without resets, a state whose feedback is all covered can be dispatched again, and
   then any number of times, exactly when something open is left.
   */
  lemma LoopsForeverIffOpen(s: State, heads: set<Sha>)
    requires Sane(s) && AllCovered(s, heads)
    ensures (forall n: nat :: CanDispatch(s, n)) <==> HasOpen(s)
    ensures CanDispatch(s, 1) <==> HasOpen(s)
  {
    if HasOpen(s) {
      forall n: nat ensures CanDispatch(s, n) {
        var events := OpenLoopsForever(s, heads, n);
      }
    } else {
      forall events | AllQuiet(events) ensures Run(s, events).dispatches == s.dispatches {
        NothingOpenStaysQuiet(s, heads, events);
      }
      assert !CanDispatch(s, 1);
    }
  }

  /** Every due dispatch covers everything said before it. */
  lemma DispatchCoversAll(s: State, text: string, mergeable: Option<bool>, ci: CiStatus)
    requires Sane(s) && Due(s, mergeable, ci)
    ensures var n := Step(s, Dispatch(text, mergeable, ci)); Sane(n) && AllCovered(n, n.pushed)
  {
  }

  // ----- both conditions are needed -----

  lemma LoneRequestIsDue(s: State, r: Review)
    requires s.reviews == [r] && Named(r) && r.state.ChangeRequest? && s.evidence.None?
    ensures Due(s, None, Success)
  {
    LoneReviewWins(r);
    assert r in Applicable(s.reviews, s.head, s.evidence);
  }

  lemma LoneReviewWins(r: Review)
    requires Named(r)
    ensures Latest([r]) == [r] && Winner([r], r.user.value) == Some(r)
  {
    assert [r][..0] == [];
    assert Latest([r]) == [r];
    assert Winner([], r.user.value) == None;
  }

  /** One change request without a timestamp is enough for any number of dispatches. */
  lemma UnstampedFeedbackLoops(u: string, n: nat)
    requires u != ""
    ensures
      var r := Review(Some(u), ChangeRequest, None, None, Owner);
      var s := Step(Step(Initial(0, 0), GiveReview(r)), Dispatch("", None, Success));
      FeedbackCount(s) == 1 && s.clears == 0 && CanDispatch(s, n)
  {
    var r := Review(Some(u), ChangeRequest, None, None, Owner);
    var g := Step(Initial(0, 0), GiveReview(r));
    assert g.reviews == [r];
    LoneRequestIsDue(g, r);
    DispatchCoversAll(g, "", None, Success);
    var s := Step(g, Dispatch("", None, Success));
    LoneReviewWins(r);
    assert OpenRequest(s, u);
    LoopsForeverIffOpen(s, s.pushed);
  }

  /** One reset of the evidence makes a single stamped change request cause two dispatches. */
  lemma ResetRepeatsDispatch(u: string)
    requires u != ""
    ensures
      var r := Review(Some(u), ChangeRequest, Some(0), Some(Stamp("", Some(0))), Owner);
      var s := Step(Step(Initial(0, 0), GiveReview(r)), Dispatch("", None, Success));
      var e := Step(Step(Step(s, Push(1)), Clear), Dispatch("", None, Success));
      AllStamped(e) && e.dispatches == 2 && FeedbackCount(e) == 1 && e.clears == 1
  {
    var r := Review(Some(u), ChangeRequest, Some(0), Some(Stamp("", Some(0))), Owner);
    var g := Step(Initial(0, 0), GiveReview(r));
    assert g.reviews == [r];
    LoneRequestIsDue(g, r);
    var s := Step(g, Dispatch("", None, Success));
    var c := Step(Step(s, Push(1)), Clear);
    LoneRequestIsDue(c, r);
  }

  // ----- nothing said after a dispatch is lost -----

  /**
   Whatever happens between, a change request stamped after a dispatch makes the next one due on a later head, once
   CI is green, as long as it is its reviewer's latest review.
   */
  lemma RequestAfterDispatchIsDue(
    s: State, text: string, mergeable: Option<bool>, ci: CiStatus, n: State, u: string, later: Option<bool>)
    requires Due(s, mergeable, ci) && later != Some(false)
    requires n.evidence == Step(s, Dispatch(text, mergeable, ci)).evidence && n.head != s.head
    requires u != "" && Winner(n.reviews, u).Some?
    requires
      var r := Winner(n.reviews, u).value;
      r.state == ChangeRequest && Stamped(r.submitted) && r.submitted.value.instant.value > s.now
    ensures Due(n, later, Success)
  {
    LaterRequestBlocks(later, Success, n.reviews, n.comments, n.head, n.evidence.value, u);
  }

  /** So does a comment stamped after it, as long as nobody approves the head. */
  lemma CommentAfterDispatchIsDue(
    s: State, text: string, mergeable: Option<bool>, ci: CiStatus, n: State, c: Comment, later: Option<bool>)
    requires Due(s, mergeable, ci) && later != Some(false)
    requires n.evidence == Step(s, Dispatch(text, mergeable, ci)).evidence && n.head != s.head
    requires c in n.comments && Stamped(c.created) && c.created.value.instant.value > s.now
    requires forall u :: !Approves(u, n.reviews, n.head)
    ensures Due(n, later, Success)
  {
    assert StillOpen(c.commit, c.created, n.head, n.evidence);
    ClassificationTable(later, Success, n.reviews, n.comments, n.head, n.evidence);
  }
}
