/**
 Plan approvals and rejections reported to FORGE: pollers hold the per-ticket scheduling lease, read the
 phase, re-read the lifecycle, check the notification key, send, and only then set the key. One step per
 store operation or remote call.
 */
module NotifyOnce {
  import opened Text
  import L = Lifecycle

  datatype Notice =
    | PlanApproved(ticket: string, revision: nat, round: nat)
    | Rejected(ticket: string, revision: nat, round: nat)

  /** What a freshly read lifecycle in the phases `building` and `plan_rejected` has to report. */
  function Due(ticket: string, l: L.State): Option<Notice> {
    if l.phase != L.Building && l.phase != L.PlanRejected then None
    else if l.feedback.Some? then Some(Rejected(ticket, l.revision, l.round))
    else if l.phase == L.Building && L.Approves(l.planDecision) && l.planDecision.value.revision == l.revision
    then Some(PlanApproved(ticket, l.planDecision.value.revision, l.planDecision.value.round))
    else None
  }

  datatype Pc =
    | Claimed
    | Polled(phase: L.Phase)
    | Checking(notice: Notice, phase: L.Phase, seen: L.State)
    | Sending(notice: Notice, phase: L.Phase, seen: L.State)
    | Marking(notice: Notice)
    | Finished

  datatype Poll = Poll(ticket: string, pc: Pc)

  /** `sent` lists the notices whose send succeeded; a lost one reached FORGE but its reply did not come back. */
  datatype State = State(
    lease: map<string, nat>, polls: map<nat, Poll>, lifecycle: map<string, L.State>, chats: set<string>,
    notified: set<Notice>, sent: seq<Notice>, lost: seq<Notice>)

  datatype Outcome = Delivered | Failed | Lost

  datatype Action =
    | Claim(p: nat, ticket: string)
    | ReadPhase(p: nat)
    | ReadState(p: nat)
    | CheckKey(p: nat)
    | Send(p: nat, outcome: Outcome)
    | Mark(p: nat)
    | Release(p: nat)
    | Advance(ticket: string, actor: L.Actor, event: L.Event)
    | SetChat(ticket: string, present: bool)

  function Of(s: State, ticket: string): L.State {
    if ticket in s.lifecycle then s.lifecycle[ticket] else L.INITIAL
  }

  function At(s: State, p: nat, pc: Pc): State
    requires p in s.polls
  {
    s.(polls := s.polls[p := s.polls[p].(pc := pc)])
  }

  function PollStep(s: State, a: Action, p: nat): State
    requires p in s.polls
  {
    var Poll(ticket, pc) := s.polls[p];
    match pc
    case Claimed => if a.ReadPhase? then At(s, p, Polled(Of(s, ticket).phase)) else s
    case Polled(phase) =>
      if !a.ReadState? then s
      else
        var l := Of(s, ticket);
        var due := Due(ticket, l);
        if l.phase == phase && due.Some? then At(s, p, Checking(due.value, phase, l)) else At(s, p, Finished)
    case Checking(notice, phase, seen) =>
      if !a.CheckKey? then s
      else if notice !in s.notified && ticket in s.chats then At(s, p, Sending(notice, phase, seen))
      else At(s, p, Finished)
    case Sending(notice, _, _) =>
      if !a.Send? then s
      else if a.outcome.Delivered? then At(s, p, Marking(notice)).(sent := s.sent + [notice])
      else if a.outcome.Lost? then At(s, p, Finished).(lost := s.lost + [notice])
      else At(s, p, Finished)
    case Marking(notice) => if a.Mark? then At(s, p, Finished).(notified := s.notified + {notice}) else s
    case Finished =>
      if a.Release? then s.(lease := s.lease - {ticket}, polls := s.polls - {p}) else s
  }

  function Step(s: State, a: Action): State {
    match a
    case Claim(p, ticket) =>
      if p in s.polls || ticket in s.lease then s
      else s.(lease := s.lease[ticket := p], polls := s.polls[p := Poll(ticket, Claimed)])
    case Advance(ticket, actor, event) =>
      s.(lifecycle := s.lifecycle[ticket := L.Step(Of(s, ticket), actor, event)])
    case SetChat(ticket, present) => s.(chats := if present then s.chats + {ticket} else s.chats - {ticket})
    case _ => if a.p in s.polls then PollStep(s, a, a.p) else s
  }

  function Run(s: State, actions: seq<Action>): State
    decreases |actions|
  {
    if actions == [] then s else Run(Step(s, actions[0]), actions[1..])
  }

  const EMPTY := State(map[], map[], map[], {}, {}, [], [])

  // ----- invariant -----

  predicate PollOk(s: State, poll: Poll) {
    match poll.pc
    case Checking(n, phase, seen) => n.ticket == poll.ticket && seen.phase == phase && Due(poll.ticket, seen) == Some(n)
    case Sending(n, phase, seen) =>
      n.ticket == poll.ticket && seen.phase == phase && Due(poll.ticket, seen) == Some(n) && n !in s.sent
    case Marking(n) => n.ticket == poll.ticket && n in s.sent
    case _ => true
  }

  /** The notice is recorded, or the lease holder of its ticket is about to record it. */
  predicate Accounted(s: State, n: Notice) {
    n in s.notified
    || (n.ticket in s.lease && s.lease[n.ticket] in s.polls && s.polls[s.lease[n.ticket]].pc == Marking(n))
  }

  ghost predicate LeasesMatch(s: State) {
    forall p :: p in s.polls ==> s.polls[p].ticket in s.lease && s.lease[s.polls[p].ticket] == p
  }

  ghost predicate Inv(s: State) {
    && LeasesMatch(s)
    && (forall p :: p in s.polls ==> PollOk(s, s.polls[p]))
    && (forall n :: n in s.sent ==> Accounted(s, n))
    && (forall n :: n in s.notified ==> n in s.sent)
    && (forall i, j :: 0 <= i < j < |s.sent| ==> s.sent[i] != s.sent[j])
  }

  lemma PollStepFrame(s: State, a: Action, p: nat)
    requires p in s.polls
    ensures
      var n := PollStep(s, a, p);
      && (p in n.polls ==>
            n.polls == s.polls[p := n.polls[p]] && n.polls[p].ticket == s.polls[p].ticket && n.lease == s.lease)
      && (p !in n.polls ==> s.polls[p].pc.Finished? && n.polls == s.polls - {p}
                            && n.lease == s.lease - {s.polls[p].ticket} && n.sent == s.sent && n.notified == s.notified)
  {
  }

  lemma OthersKeepPollOk(s: State, n: State, poll: Poll, sender: string)
    requires PollOk(s, poll) && poll.ticket != sender
    requires forall x :: x in s.sent ==> x in n.sent
    requires forall x :: x in n.sent ==> x in s.sent || x.ticket == sender
    ensures PollOk(n, poll)
  {
  }

  lemma PollStepKeepsPolls(s: State, a: Action, p: nat, q: nat)
    requires Inv(s) && p in s.polls && q in PollStep(s, a, p).polls
    ensures PollOk(PollStep(s, a, p), PollStep(s, a, p).polls[q])
  {
    if q == p {
    } else {
      PollStepFrame(s, a, p);
      assert PollOk(s, s.polls[p]) && PollOk(s, s.polls[q]);
      OthersKeepPollOk(s, PollStep(s, a, p), s.polls[q], s.polls[p].ticket);
    }
  }

  lemma PollStepKeepsAccounts(s: State, a: Action, p: nat, n: Notice)
    requires Inv(s) && p in s.polls && n in PollStep(s, a, p).sent
    ensures Accounted(PollStep(s, a, p), n)
  {
    assert PollOk(s, s.polls[p]);
    PollStepFrame(s, a, p);
    if n in s.sent {
      assert Accounted(s, n);
    }
  }

  lemma PollStepKeepsInv(s: State, a: Action, p: nat)
    requires Inv(s) && p in s.polls
    ensures Inv(PollStep(s, a, p))
  {
    var s' := PollStep(s, a, p);
    assert PollOk(s, s.polls[p]);
    PollStepFrame(s, a, p);
    forall q | q in s'.polls ensures PollOk(s', s'.polls[q]) {
      PollStepKeepsPolls(s, a, p, q);
    }
    forall n | n in s'.sent ensures Accounted(s', n) {
      PollStepKeepsAccounts(s, a, p, n);
    }
  }

  lemma StepKeepsInv(s: State, a: Action)
    requires Inv(s)
    ensures Inv(Step(s, a))
  {
    if a.Claim? || a.Advance? || a.SetChat? {
      var s' := Step(s, a);
      forall q | q in s'.polls ensures PollOk(s', s'.polls[q]) {
        if q in s.polls { assert PollOk(s, s.polls[q]); }
      }
      forall n | n in s'.sent ensures Accounted(s', n) {
        assert Accounted(s, n);
      }
    } else if a.p in s.polls {
      PollStepKeepsInv(s, a, a.p);
    }
  }

  lemma {:induction false} RunKeepsInv(s: State, actions: seq<Action>)
    requires Inv(s)
    ensures Inv(Run(s, actions))
    decreases |actions|
  {
    if actions != [] {
      StepKeepsInv(s, actions[0]);
      RunKeepsInv(Step(s, actions[0]), actions[1..]);
    }
  }

  // ----- theorems -----

  /** In every run, with any pollers and any failing sends, each approval and each rejection is sent at most once. */
  lemma SentAtMostOnce(actions: seq<Action>, i: nat, j: nat)
    requires i < j < |Run(EMPTY, actions).sent|
    ensures Run(EMPTY, actions).sent[i] != Run(EMPTY, actions).sent[j]
  {
    RunKeepsInv(EMPTY, actions);
  }

  /** A notice is sent only for a lifecycle read after the poll, still in the polled phase, that calls for it. */
  lemma SentOnlyWhenPhaseMatches(actions: seq<Action>, a: Action)
    ensures var s := Run(EMPTY, actions);
            Step(s, a).sent != s.sent ==>
              && a.Send? && a.p in s.polls && s.polls[a.p].pc.Sending?
              && var Poll(ticket, Sending(notice, phase, seen)) := s.polls[a.p];
                 Step(s, a).sent == s.sent + [notice] && seen.phase == phase && Due(ticket, seen) == Some(notice)
  {
    RunKeepsInv(EMPTY, actions);
    var s := Run(EMPTY, actions);
    if !a.Claim? && !a.Advance? && !a.SetChat? && a.p in s.polls {
      assert PollOk(s, s.polls[a.p]);
    }
  }

  function WholePoll(p: nat, ticket: string, outcome: Outcome): seq<Action> {
    [Claim(p, ticket), ReadPhase(p), ReadState(p), CheckKey(p), Send(p, outcome), Mark(p), Release(p)]
  }

  lemma RunSplit(s: State, a: Action, rest: seq<Action>)
    ensures Run(s, [a] + rest) == Run(Step(s, a), rest)
  {
    assert ([a] + rest)[1..] == rest;
  }

  lemma PollSendsDue(s: State, p: nat, ticket: string, n: Notice, outcome: Outcome)
    requires Inv(s) && p in s.polls && s.polls[p] == Poll(ticket, Checking(n, Of(s, ticket).phase, Of(s, ticket)))
    requires ticket in s.chats && n !in s.sent
    ensures var s' := Step(Step(Step(Step(s, CheckKey(p)), Send(p, outcome)), Mark(p)), Release(p));
            && s'.sent == (if outcome.Delivered? then s.sent + [n] else s.sent)
            && s'.notified == (if outcome.Delivered? then s.notified + {n} else s.notified)
            && s'.lost == (if outcome.Lost? then s.lost + [n] else s.lost)
  {
    assert n !in s.notified;
    var s1 := Step(s, CheckKey(p));
    assert s1.polls[p].pc.Sending?;
    var s2 := Step(s1, Send(p, outcome));
    var s3 := Step(s2, Mark(p));
    assert s3.polls[p].pc.Finished?;
  }

  /**
   A notice is retried until it succeeds: as long as it is due and was not sent, the next undisturbed poll
   sends it, and it counts as sent exactly when that send succeeds.
   */
  lemma RetriedUntilSent(actions: seq<Action>, p: nat, ticket: string, n: Notice, outcome: Outcome)
    requires var s := Run(EMPTY, actions);
             && p !in s.polls && ticket !in s.lease && ticket in s.chats
             && Due(ticket, Of(s, ticket)) == Some(n) && n !in s.sent
    ensures
      var s := Run(EMPTY, actions);
      var s' := Run(s, WholePoll(p, ticket, outcome));
      && s'.sent == (if outcome.Delivered? then s.sent + [n] else s.sent)
      && s'.lost == (if outcome.Lost? then s.lost + [n] else s.lost)
  {
    RunKeepsInv(EMPTY, actions);
    var s := Run(EMPTY, actions);
    var s1 := Step(s, Claim(p, ticket));
    var s2 := Step(s1, ReadPhase(p));
    var s3 := Step(s2, ReadState(p));
    StepKeepsInv(s, Claim(p, ticket));
    StepKeepsInv(s1, ReadPhase(p));
    StepKeepsInv(s2, ReadState(p));
    PollSendsDue(s3, p, ticket, n, outcome);
    WholePollUnfolds(s, p, ticket, outcome);
  }

  lemma RunThree(s: State, a: Action, b: Action, c: Action, rest: seq<Action>)
    ensures Run(s, [a, b, c] + rest) == Run(Step(Step(Step(s, a), b), c), rest)
  {
    assert [a, b, c] + rest == [a] + ([b] + ([c] + rest));
    RunSplit(s, a, [b] + ([c] + rest));
    RunSplit(Step(s, a), b, [c] + rest);
    RunSplit(Step(Step(s, a), b), c, rest);
  }

  lemma WholePollUnfolds(s: State, p: nat, ticket: string, outcome: Outcome)
    ensures var s3 := Step(Step(Step(s, Claim(p, ticket)), ReadPhase(p)), ReadState(p));
            Run(s, WholePoll(p, ticket, outcome))
            == Step(Step(Step(Step(s3, CheckKey(p)), Send(p, outcome)), Mark(p)), Release(p))
  {
    var s3 := Step(Step(Step(s, Claim(p, ticket)), ReadPhase(p)), ReadState(p));
    var s6 := Step(Step(Step(s3, CheckKey(p)), Send(p, outcome)), Mark(p));
    var last := [Release(p)];
    assert WholePoll(p, ticket, outcome)
        == [Claim(p, ticket), ReadPhase(p), ReadState(p)] + ([CheckKey(p), Send(p, outcome), Mark(p)] + last);
    RunThree(s, Claim(p, ticket), ReadPhase(p), ReadState(p), [CheckKey(p), Send(p, outcome), Mark(p)] + last);
    RunThree(s3, CheckKey(p), Send(p, outcome), Mark(p), last);
    assert last == [Release(p)] + [];
    RunSplit(s6, Release(p), []);
  }

  // ----- every decision is reported -----

  /** A review round that no later review can repeat. */
  predicate Spent(l: L.State, round: nat) {
    round <= l.round && (L.UnderReview(l) ==> round < l.round)
  }

  function Carried(pc: Pc): Option<Notice> {
    match pc
    case Checking(n, _, _) => Some(n)
    case Sending(n, _, _) => Some(n)
    case Marking(n) => Some(n)
    case _ => None
  }

  predicate PlanRoundPast(l: L.State) {
    l.planDecision.Some? ==> l.planDecision.value.round <= l.round
  }

  /** The rounds of all notices sent or on their way are spent. */
  ghost predicate RoundsSpent(s: State) {
    && (forall n :: n in s.sent ==> Spent(Of(s, n.ticket), n.round))
    && (forall p :: p in s.polls && Carried(s.polls[p].pc).Some? ==>
          var n := Carried(s.polls[p].pc).value; Spent(Of(s, n.ticket), n.round))
    && (forall t :: t in s.lifecycle ==> PlanRoundPast(s.lifecycle[t]))
  }

  lemma LifecycleSpends(l: L.State, actor: L.Actor, event: L.Event)
    ensures PlanRoundPast(l) ==> PlanRoundPast(L.Step(l, actor, event))
    ensures forall round: nat :: Spent(l, round) ==> Spent(L.Step(l, actor, event), round)
  {
  }

  lemma DueIsSpent(ticket: string, l: L.State)
    requires PlanRoundPast(l) && Due(ticket, l).Some?
    ensures Spent(l, Due(ticket, l).value.round) && Due(ticket, l).value.ticket == ticket
  {
  }

  lemma AdvanceKeepsSpent(s: State, ticket: string, actor: L.Actor, event: L.Event)
    requires RoundsSpent(s)
    ensures RoundsSpent(Step(s, Advance(ticket, actor, event)))
  {
    var l := Of(s, ticket);
    LifecycleSpends(l, actor, event);
    var s' := Step(s, Advance(ticket, actor, event));
    assert forall t :: t != ticket ==> Of(s', t) == Of(s, t);
    assert Of(s', ticket) == L.Step(l, actor, event);
  }

  /** What a poll carries or sends, it carried before or read just now. */
  ghost predicate CarriesOn(s: State, n: State, p: nat)
    requires p in s.polls
  {
    var Poll(ticket, pc) := s.polls[p];
    && n.lifecycle == s.lifecycle
    && (forall x :: x in n.sent ==> x in s.sent || Carried(pc) == Some(x))
    && (forall q :: q in n.polls && q != p ==> q in s.polls && n.polls[q] == s.polls[q])
    && (p in n.polls && Carried(n.polls[p].pc).Some? ==>
          Carried(n.polls[p].pc) == Carried(pc) || Carried(n.polls[p].pc) == Due(ticket, Of(s, ticket)))
  }

  lemma PollStepCarriesOn(s: State, a: Action, p: nat)
    requires p in s.polls
    ensures CarriesOn(s, PollStep(s, a, p), p)
  {
  }

  lemma CarryingKeepsSpent(s: State, n: State, p: nat)
    requires RoundsSpent(s) && p in s.polls && CarriesOn(s, n, p)
    ensures RoundsSpent(n)
  {
    var ticket := s.polls[p].ticket;
    if Due(ticket, Of(s, ticket)).Some? {
      DueIsSpent(ticket, Of(s, ticket));
    }
  }

  lemma StepKeepsSpent(s: State, a: Action)
    requires RoundsSpent(s)
    ensures RoundsSpent(Step(s, a))
  {
    if a.Advance? {
      AdvanceKeepsSpent(s, a.ticket, a.actor, a.event);
    } else if a.Claim? || a.SetChat? {
      assert forall t :: Of(Step(s, a), t) == Of(s, t);
    } else if a.p in s.polls {
      PollStepCarriesOn(s, a, a.p);
      CarryingKeepsSpent(s, Step(s, a), a.p);
    }
  }

  lemma {:induction false} RunKeepsSpent(s: State, actions: seq<Action>)
    requires RoundsSpent(s)
    ensures RoundsSpent(Run(s, actions))
    decreases |actions|
  {
    if actions != [] {
      StepKeepsSpent(s, actions[0]);
      RunKeepsSpent(Step(s, actions[0]), actions[1..]);
    }
  }

  lemma {:induction false} RunAppends(s: State, a: seq<Action>, b: seq<Action>)
    ensures Run(s, a + b) == Run(Run(s, a), b)
    decreases |a|
  {
    if a == [] {
      assert a + b == b;
    } else {
      assert (a + b)[1..] == a[1..] + b;
      RunAppends(Step(s, a[0]), a[1..], b);
    }
  }

  /** A verdict that `actor` may give on what is under review: the plan, or a rejection of the tested head. */
  predicate MayReport(l: L.State, actor: L.Actor, approved: bool, report: string, head: Option<string>) {
    && !l.mergePending && !L.Blank(report)
    && if l.phase == L.PlanReady then actor == L.Sentinel
       else
         && l.phase in {L.Testing, L.Submit} && !approved && actor in {L.Sentinel, L.Human}
         && head.Some? && head == l.head && (l.phase == L.Submit ==> l.pr.Some?)
  }

  lemma VerdictIsDue(
    ticket: string, l: L.State, actor: L.Actor, approved: bool, report: string, head: Option<string>)
    requires MayReport(l, actor, approved, report, head)
    ensures
      var next := L.Step(l, actor, L.Decide(l.round, l.phase, approved, report, l.revision, head));
      Due(ticket, next)
      == Some(if approved then PlanApproved(ticket, l.revision, l.round) else Rejected(ticket, l.revision, l.round))
  {
  }

  /**
   Every verdict is reported as what it is: in every run, once SENTINEL approves or rejects a plan, or SENTINEL or a
   human rejects a tested head or a pull request, the next undisturbed poll tells FORGE exactly that, for that
   revision and round.
   */
  lemma VerdictIsReported(
    actions: seq<Action>, p: nat, ticket: string, actor: L.Actor, approved: bool, report: string, head: Option<string>)
    requires
      var s := Run(EMPTY, actions);
      && p !in s.polls && ticket !in s.lease && ticket in s.chats
      && MayReport(Of(s, ticket), actor, approved, report, head)
    ensures
      var s := Run(EMPTY, actions);
      var l := Of(s, ticket);
      var verdict := Advance(ticket, actor, L.Decide(l.round, l.phase, approved, report, l.revision, head));
      Run(Step(s, verdict), WholePoll(p, ticket, Delivered)).sent
      == s.sent + [if approved then PlanApproved(ticket, l.revision, l.round)
                   else Rejected(ticket, l.revision, l.round)]
  {
    var s := Run(EMPTY, actions);
    var l := Of(s, ticket);
    var verdict := Advance(ticket, actor, L.Decide(l.round, l.phase, approved, report, l.revision, head));
    var n := if approved then PlanApproved(ticket, l.revision, l.round) else Rejected(ticket, l.revision, l.round);
    RunKeepsSpent(EMPTY, actions);
    assert n !in s.sent;
    VerdictIsDue(ticket, l, actor, approved, report, head);
    RunAppends(EMPTY, actions, [verdict]);
    assert Run(s, [verdict]) == Run(Step(s, verdict), [verdict][1..]);
    RetriedUntilSent(actions + [verdict], p, ticket, n, Delivered);
  }

  lemma FinishedIsSilent(s: State, p: nat, ticket: string, outcome: Outcome)
    requires p in s.polls && s.polls[p] == Poll(ticket, Finished)
    ensures var n := Step(Step(Step(s, Send(p, outcome)), Mark(p)), Release(p)); n.sent == s.sent && n.lost == s.lost
  {
    assert Step(Step(s, Send(p, outcome)), Mark(p)) == s;
  }

  lemma CheckStopsUnreachable(s: State, p: nat, ticket: string)
    requires p in s.polls && s.polls[p].ticket == ticket
    requires s.polls[p].pc == Finished || (s.polls[p].pc.Checking? && ticket !in s.chats)
    ensures
      var n := Step(s, CheckKey(p));
      p in n.polls && n.polls[p] == Poll(ticket, Finished) && n.sent == s.sent && n.lost == s.lost
  {
  }

  /** In every other phase, and while FORGE has no chat, a poll reports nothing. */
  lemma OtherwiseSilent(s: State, p: nat, ticket: string, outcome: Outcome)
    requires p !in s.polls && ticket !in s.lease
    requires Of(s, ticket).phase !in {L.Building, L.PlanRejected} || ticket !in s.chats
    ensures Run(s, WholePoll(p, ticket, outcome)).sent == s.sent
    ensures Run(s, WholePoll(p, ticket, outcome)).lost == s.lost
  {
    WholePollUnfolds(s, p, ticket, outcome);
    var s1 := Step(s, Claim(p, ticket));
    var s2 := Step(s1, ReadPhase(p));
    var s3 := Step(s2, ReadState(p));
    CheckStopsUnreachable(s3, p, ticket);
    FinishedIsSilent(Step(s3, CheckKey(p)), p, ticket, outcome);
  }

  ghost predicate LifecyclesFit(s: State) {
    forall t :: t in s.lifecycle ==> L.Inv(s.lifecycle[t])
  }

  lemma {:induction false} RunKeepsLifecycles(s: State, actions: seq<Action>)
    requires LifecyclesFit(s)
    ensures LifecyclesFit(Run(s, actions))
    decreases |actions|
  {
    if actions != [] {
      var a := actions[0];
      if a.Advance? { L.StepKeepsInv(Of(s, a.ticket), a.actor, a.event); }
      RunKeepsLifecycles(Step(s, a), actions[1..]);
    }
  }

  /**
   In every run, building without feedback means that the plan was approved, and FORGE is told so once, for the round
   in which it was approved: work that comes back from testing or submission does not report the approval again.
   */
  lemma ApprovalIsReportedOnce(actions: seq<Action>, p: nat, ticket: string)
    requires
      var s := Run(EMPTY, actions);
      && p !in s.polls && ticket !in s.lease && ticket in s.chats
      && Of(s, ticket).phase == L.Building && Of(s, ticket).feedback.None?
    ensures
      var s := Run(EMPTY, actions);
      var l := Of(s, ticket);
      && l.planDecision.Some?
      && var n := PlanApproved(ticket, l.revision, l.planDecision.value.round);
         Run(s, WholePoll(p, ticket, Delivered)).sent == if n in s.sent then s.sent else s.sent + [n]
  {
    RunKeepsLifecycles(EMPTY, actions);
    RunKeepsInv(EMPTY, actions);
    var s := Run(EMPTY, actions);
    var l := Of(s, ticket);
    assert L.Inv(l);
    var n := PlanApproved(ticket, l.revision, l.planDecision.value.round);
    assert Due(ticket, l) == Some(n);
    if n in s.sent {
      SentStaysSilent(s, p, ticket, n, Delivered);
    } else {
      RetriedUntilSent(actions, p, ticket, n, Delivered);
    }
  }

  lemma SentStaysSilent(s: State, p: nat, ticket: string, n: Notice, outcome: Outcome)
    requires Inv(s) && p !in s.polls && ticket !in s.lease && Due(ticket, Of(s, ticket)) == Some(n) && n in s.sent
    ensures Run(s, WholePoll(p, ticket, outcome)).sent == s.sent
  {
    WholePollUnfolds(s, p, ticket, outcome);
    assert Accounted(s, n) && n.ticket == ticket;
    var s1 := Step(s, Claim(p, ticket));
    var s2 := Step(s1, ReadPhase(p));
    var s3 := Step(s2, ReadState(p));
    SentIsSkipped(s3, p, ticket);
    FinishedIsSilent(Step(s3, CheckKey(p)), p, ticket, outcome);
  }

  lemma SentIsSkipped(s: State, p: nat, ticket: string)
    requires p in s.polls && s.polls[p].ticket == ticket
    requires s.polls[p].pc.Checking? && s.polls[p].pc.notice in s.notified
    ensures
      var n := Step(s, CheckKey(p));
      p in n.polls && n.polls[p] == Poll(ticket, Finished) && n.sent == s.sent
  {
  }
}
