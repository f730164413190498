/**
 What the lifecycle lets happen: every ticket that is not finished can still be replanned, built, tested, reviewed
 and merged, and every verdict, block and retreat leaves exactly the record it should.
 */
module LifecycleProgress {
  import opened Text
  import opened Lifecycle

  /** Events can be given to the record: it is not finished and no merge is pending. */
  predicate Free(s: State) {
    s.phase != Done && !s.mergePending
  }

  /** No trace of built, tested or reviewed work. */
  function WithoutWork(s: State): State {
    s.(head := None, verifiedHead := None, verificationTask := None, testDecision := None, testHuman := None,
       prDecision := None, prHuman := None)
  }

  // ----- going back -----

  /** FORGE can always replan: the plan, its approval, all work and all feedback are gone; the counters stay. */
  lemma ReplanningClearsAll(s: State)
    requires Free(s) && s.phase != Planning
    ensures Apply(s, Forge, Move(Planning, None))
         == Some(WithoutWork(s).(version := s.version + 1, phase := Planning, plan := "", planDecision := None,
                                 prDelivery := None, feedback := None))
  {
  }

  /** FORGE and VESSEL can take tested or submitted work back to building: the plan and its approval stay. */
  lemma ReworkKeepsPlan(s: State, actor: Actor)
    requires Free(s) && s.phase in {Testing, Submit} && actor in {Forge, Vessel}
    ensures Apply(s, actor, Move(Building, None))
         == Some(WithoutWork(s).(version := s.version + 1, phase := Building, prDelivery := None, feedback := None))
  {
  }

  /** Anybody can block a ticket, with a reason, from every phase; work and approvals are gone and the plan stays. */
  lemma BlockingClearsApprovals(s: State, actor: Actor, reason: string)
    requires Free(s) && !Blank(reason)
    ensures Apply(s, actor, Block(reason))
         == Some(WithoutWork(s).(version := s.version + 1, phase := Blocked, planDecision := None, prDelivery := None,
                                 feedback := Some(reason)))
  {
  }

  /** The verdict about what is under review, by whoever may give it. */
  predicate MayJudge(s: State, actor: Actor, report: string, head: Option<string>) {
    && Free(s) && !Blank(report)
    && if s.phase == PlanReady then actor == Sentinel
       else
         && s.phase in {Testing, Submit} && actor in {Sentinel, Human}
         && head.Some? && head == s.head && (s.phase == Submit ==> s.pr.Some?)
  }

  function Verdict(s: State, approved: bool, report: string, head: Option<string>): Event {
    Decide(s.round, s.phase, approved, report, s.revision, head)
  }

  /**
   Every rejection sends the ticket back with the report as feedback and without any work: a plan to be revised,
   anything else to be built again. A human's veto also withdraws a review that waits for its delivery.
   */
  lemma RejectionSendsBack(s: State, actor: Actor, report: string, head: Option<string>)
    requires MayJudge(s, actor, report, head)
    ensures
      var n := Apply(s, actor, Verdict(s, false, report, head));
      var d := Decision(if s.phase == Submit then s.pr else None, s.round, actor, false, report, s.revision, head);
      && n.Some?
      && n.value == WithoutWork(s).(
           version := s.version + 1, feedback := Some(report),
           phase := if s.phase == PlanReady then PlanRejected else Building,
           planDecision := if s.phase == PlanReady then Some(d) else s.planDecision,
           prDelivery := if actor == Human then None else if s.phase == Submit then Some(d) else s.prDelivery)
  {
  }

  // ----- going on -----

  lemma RunThree(s: State, a: Actor, x: Event, s1: State, b: Actor, y: Event, s2: State, c: Actor, z: Event, s3: State)
    requires Step(s, a, x) == s1 && Step(s1, b, y) == s2 && Step(s2, c, z) == s3
    ensures Run(s, [(a, x), (b, y), (c, z)]) == s3
  {
    var events := [(a, x), (b, y), (c, z)];
    assert events[1..][1..][1..] == [];
    assert Run(s2, events[1..][1..]) == s3;
    assert Run(s, events) == Run(s1, events[1..]);
  }

  lemma PlanIsUploaded(s: State, content: string)
    requires Free(s) && s.phase == Planning && !Blank(content)
    ensures Step(s, Forge, Plan(content))
         == WithoutWork(s).(version := s.version + 1, plan := content, revision := s.revision + 1, planDecision := None)
  {
  }

  lemma PlanIsReady(s: State)
    requires Free(s) && s.phase == Planning && !Blank(s.plan) && s.revision > 0
    ensures Step(s, Forge, Move(PlanReady, None))
         == s.(version := s.version + 1, phase := PlanReady, round := s.round + 1, prDelivery := None, feedback := None)
  {
  }

  lemma ApprovedPlanIsBuilt(s: State, report: string)
    requires Free(s) && s.phase == PlanReady && !Blank(report)
    ensures Step(s, Sentinel, Decide(s.round, PlanReady, true, report, s.revision, None))
         == WithoutWork(s).(
              version := s.version + 1, phase := Building, feedback := None,
              planDecision := Some(Decision(None, s.round, Sentinel, true, report, s.revision, None)))
  {
  }

  lemma PlanIsApproved(s: State, content: string, report: string)
    requires Free(s) && s.phase == Planning && !Blank(content) && !Blank(report)
    ensures
      Run(s, [(Forge, Plan(content)), (Forge, Move(PlanReady, None)),
              (Sentinel, Decide(s.round + 1, PlanReady, true, report, s.revision + 1, None))])
      == WithoutWork(s).(
        version := s.version + 3, phase := Building, plan := content, revision := s.revision + 1, round := s.round + 1,
        planDecision := Some(Decision(None, s.round + 1, Sentinel, true, report, s.revision + 1, None)),
        prDelivery := None, feedback := None)
  {
    PlanIsUploaded(s, content);
    var s1 := WithoutWork(s).(version := s.version + 1, plan := content, revision := s.revision + 1,
      planDecision := None);
    PlanIsReady(s1);
    var s2 := s1.(version := s.version + 2, phase := PlanReady, round := s.round + 1, prDelivery := None,
      feedback := None);
    ApprovedPlanIsBuilt(s2, report);
    var verdict := Decide(s.round + 1, PlanReady, true, report, s.revision + 1, None);
    RunThree(s, Forge, Plan(content), s1, Forge, Move(PlanReady, None), s2, Sentinel, verdict,
             Step(s2, Sentinel, verdict));
  }

  lemma HeadIsHandedIn(s: State, head: string)
    requires Free(s) && s.phase == Building && !Blank(head)
    ensures Step(s, Forge, Move(Testing, Some(head)))
         == s.(version := s.version + 1, phase := Testing, head := Some(head), round := s.round + 1,
               prDelivery := None, feedback := None)
  {
  }

  lemma HeadIsVerified(s: State, head: string, task: string)
    requires Free(s) && s.phase == Testing && s.head == Some(head) && task != ""
    ensures Step(s, Sentinel, Verified(head, task))
         == s.(version := s.version + 1, verifiedHead := Some(head), verificationTask := Some(task))
  {
  }

  lemma VerifiedIsSubmitted(s: State, head: string, report: string)
    requires Free(s) && s.phase == Testing && s.head == Some(head) && !Blank(report)
    requires s.verifiedHead == Some(head) && s.verificationTask.Some?
    ensures Step(s, Sentinel, Decide(s.round, Testing, true, report, s.revision, Some(head)))
         == s.(version := s.version + 1, phase := Submit, round := s.round + 1, prDelivery := None, feedback := None,
               testDecision := Some(Decision(None, s.round, Sentinel, true, report, s.revision, Some(head))))
  {
  }

  lemma HeadIsTested(s: State, head: string, task: string, report: string)
    requires Free(s) && s.phase == Building && !Blank(head) && task != "" && !Blank(report)
    ensures
      Run(s, [(Forge, Move(Testing, Some(head))), (Sentinel, Verified(head, task)),
              (Sentinel, Decide(s.round + 1, Testing, true, report, s.revision, Some(head)))])
      == s.(
        version := s.version + 3, phase := Submit, head := Some(head), round := s.round + 2,
        verifiedHead := Some(head), verificationTask := Some(task),
        testDecision := Some(Decision(None, s.round + 1, Sentinel, true, report, s.revision, Some(head))),
        prDelivery := None, feedback := None)
  {
    HeadIsHandedIn(s, head);
    var s1 := s.(version := s.version + 1, phase := Testing, head := Some(head), round := s.round + 1,
      prDelivery := None, feedback := None);
    HeadIsVerified(s1, head, task);
    var s2 := s1.(version := s.version + 2, verifiedHead := Some(head), verificationTask := Some(task));
    VerifiedIsSubmitted(s2, head, report);
    var verdict := Decide(s.round + 1, Testing, true, report, s.revision, Some(head));
    RunThree(s, Forge, Move(Testing, Some(head)), s1, Sentinel, Verified(head, task), s2, Sentinel, verdict,
             Step(s2, Sentinel, verdict));
  }

  /** A new pull request starts a round without decisions; the recorded one again changes nothing but the version. */
  function Published(s: State, number: nat): State {
    if s.pr == Some(number) then s.(version := s.version + 1)
    else s.(version := s.version + 1, pr := Some(number), round := s.round + 1,
            prDelivery := None, prDecision := None, prHuman := None)
  }

  lemma PublicationIsRecorded(s: State, number: nat)
    requires Free(s) && s.phase == Submit && number > 0
    ensures Step(s, Forge, Pr(number)) == Published(s, number)
  {
  }

  lemma SubmissionIsApproved(s: State, actor: Actor, head: string, report: string)
    requires Free(s) && s.phase == Submit && s.pr.Some? && s.head == Some(head) && !Blank(report)
    requires actor in {Sentinel, Human}
    ensures
      var d := Decision(s.pr, s.round, actor, true, report, s.revision, Some(head));
      Step(s, actor, Decide(s.round, Submit, true, report, s.revision, Some(head)))
      == if actor == Sentinel then s.(version := s.version + 1, prDecision := Some(d), prDelivery := Some(d))
         else s.(version := s.version + 1, prHuman := Some(d))
  {
  }

  lemma ReviewIsDelivered(s: State)
    requires Free(s) && s.prDelivery.Some? && s.prDelivery.value.round == s.round
    ensures Step(s, Sentinel, ReviewDelivered(s.round)) == s.(version := s.version + 1, prDelivery := None)
  {
  }

  lemma PrIsApproved(s: State, number: nat, head: string, report: string)
    requires Free(s) && s.phase == Submit && s.pr == Some(number) && s.head == Some(head) && !Blank(report)
    ensures
      Run(s, [(Sentinel, Decide(s.round, Submit, true, report, s.revision, Some(head))),
              (Sentinel, ReviewDelivered(s.round)),
              (Human, Decide(s.round, Submit, true, report, s.revision, Some(head)))])
      == s.(
        version := s.version + 3, prDelivery := None,
        prDecision := Some(Decision(Some(number), s.round, Sentinel, true, report, s.revision, Some(head))),
        prHuman := Some(Decision(Some(number), s.round, Human, true, report, s.revision, Some(head))))
  {
    var verdict := Decide(s.round, Submit, true, report, s.revision, Some(head));
    var d := Decision(Some(number), s.round, Sentinel, true, report, s.revision, Some(head));
    SubmissionIsApproved(s, Sentinel, head, report);
    var s1 := s.(version := s.version + 1, prDecision := Some(d), prDelivery := Some(d));
    ReviewIsDelivered(s1);
    var s2 := s1.(version := s.version + 2, prDelivery := None);
    SubmissionIsApproved(s2, Human, head, report);
    RunThree(s, Sentinel, verdict, s1, Sentinel, ReviewDelivered(s.round), s2, Human, verdict,
             Step(s2, Human, verdict));
  }

  lemma ApprovedIsMerged(s: State, number: nat, head: string, sha: string)
    requires Free(s) && s.phase == Submit && s.pr == Some(number) && s.head == Some(head) && sha != ""
    requires s.prDelivery.None? && Approves(s.prDecision) && Approves(s.prHuman)
    ensures
      Run(s, [(Vessel, BeginMerge(head)), (Vessel, Merged(number, head, sha))])
      == s.(version := s.version + 2, phase := Done, mergeSha := Some(sha))
  {
    var events := [(Vessel, BeginMerge(head)), (Vessel, Merged(number, head, sha))];
    var n := Step(s, Vessel, BeginMerge(head));
    assert Run(n, events[1..]) == Step(n, Vessel, Merged(number, head, sha)) by { assert events[1..][1..] == []; }
  }

  /** What a full pass through the gates is about. */
  datatype Work = Work(plan: string, head: string, task: string, report: string, number: nat, sha: string)

  predicate Complete(w: Work) {
    !Blank(w.plan) && !Blank(w.head) && w.task != "" && !Blank(w.report) && w.number > 0 && w.sha != ""
  }

  lemma {:induction false} RunAppends(s: State, a: seq<(Actor, Event)>, b: seq<(Actor, Event)>)
    ensures Run(s, a + b) == Run(Run(s, a), b)
    decreases |a|
  {
    if a == [] {
      assert a + b == b;
    } else {
      assert (a + b)[1..] == a[1..] + b;
      RunAppends(Step(s, a[0].0, a[0].1), a[1..], b);
    }
  }

  /** Whatever happened before, a ticket that is not finished can be brought back to planning. */
  lemma CanReplan(s: State) returns (events: seq<(Actor, Event)>)
    requires s.phase != Done
    ensures var n := Run(s, events); n.phase == Planning && Free(n) && n.revision == s.revision && n.round == s.round
  {
    var n := Step(s, Vessel, CancelMerge);
    events := [(Vessel, CancelMerge), (Forge, Move(Planning, None))];
    assert n == s.(version := s.version + 1, mergePending := false);
    if n.phase != Planning { ReplanningClearsAll(n); }
    assert Run(n, events[1..]) == Step(n, Forge, Move(Planning, None)) by { assert events[1..][1..] == []; }
  }

  lemma CanSubmit(s: State, w: Work) returns (events: seq<(Actor, Event)>)
    requires s.phase == Planning && Free(s) && Complete(w)
    ensures
      var n := Run(s, events);
      && n.phase == Submit && Free(n) && n.plan == w.plan && n.head == Some(w.head) && n.pr == Some(w.number)
      && n.revision == s.revision + 1
  {
    PlanIsApproved(s, w.plan, w.report);
    var plan := [(Forge, Plan(w.plan)), (Forge, Move(PlanReady, None)),
                 (Sentinel, Decide(s.round + 1, PlanReady, true, w.report, s.revision + 1, None))];
    var b := Run(s, plan);
    HeadIsTested(b, w.head, w.task, w.report);
    var test := [(Forge, Move(Testing, Some(w.head))), (Sentinel, Verified(w.head, w.task)),
                 (Sentinel, Decide(b.round + 1, Testing, true, w.report, b.revision, Some(w.head)))];
    var t := Run(b, test);
    PublicationIsRecorded(t, w.number);
    RunAppends(s, plan, test);
    RunAppends(s, plan + test, [(Forge, Pr(w.number))]);
    assert Run(t, [(Forge, Pr(w.number))]) == Step(t, Forge, Pr(w.number));
    events := plan + test + [(Forge, Pr(w.number))];
  }

  /**
   No ticket is ever stuck: from every state that is not finished, a merge in progress included, the actors can
   plan, build, test, publish, review and merge any work, and the ticket then records exactly that work.
   */
  lemma EveryTicketCanFinish(s: State, w: Work) returns (events: seq<(Actor, Event)>)
    requires s.phase != Done && Complete(w)
    ensures
      var n := Run(s, events);
      && n.phase == Done && n.plan == w.plan && n.head == Some(w.head) && n.pr == Some(w.number)
      && n.mergeSha == Some(w.sha) && n.revision == s.revision + 1
  {
    var replan := CanReplan(s);
    var submit := CanSubmit(Run(s, replan), w);
    var p := Run(Run(s, replan), submit);
    PrIsApproved(p, w.number, w.head, w.report);
    var review := [(Sentinel, Decide(p.round, Submit, true, w.report, p.revision, Some(w.head))),
                   (Sentinel, ReviewDelivered(p.round)),
                   (Human, Decide(p.round, Submit, true, w.report, p.revision, Some(w.head)))];
    var merge := [(Vessel, BeginMerge(w.head)), (Vessel, Merged(w.number, w.head, w.sha))];
    ApprovedIsMerged(Run(p, review), w.number, w.head, w.sha);
    RunAppends(s, replan, submit);
    RunAppends(s, replan + submit, review);
    RunAppends(s, replan + submit + review, merge);
    events := replan + submit + review + merge;
  }

  /** A merge seen on GitHub finishes a ticket from every phase and past every gate. */
  lemma SeenMergeFinishes(s: State, number: nat, sha: string)
    requires s.phase != Done && number > 0 && sha != ""
    ensures Apply(s, Vessel, ReconcileMerged(number, sha))
         == Some(s.(version := s.version + 1, phase := Done, pr := Some(number), mergeSha := Some(sha),
                    mergePending := false))
  {
  }

  // ----- who may do what -----

  /** Every event that is accepted came from an actor with the authority for it, and gave what it must give. */
  lemma OnlyItsActor(s: State, actor: Actor, e: Event)
    requires Apply(s, actor, e).Some?
    ensures Free(s) || (s.phase != Done && (e.Merged? || e.CancelMerge? || e.ReconcileMerged?))
    ensures
      match e
      case Plan(content) => actor == Forge && s.phase == Planning && !Blank(content)
      case Move(phase, _) =>
        || actor == Forge
        || (actor == Vessel && phase == Building)
        || (actor == Sentinel && s.phase == Testing && phase == Blocked)
      case Block(reason) => !Blank(reason)
      case Decide(round, phase, _, report, revision, head) =>
        && actor in {Sentinel, Human} && (s.phase == PlanReady ==> actor == Sentinel) && !Blank(report)
        && UnderReview(s) && (phase, round, revision) == (s.phase, s.round, s.revision)
        && (s.phase != PlanReady ==> head.Some? && head == s.head)
      case Verified(verified, task) => actor == Sentinel && s.phase == Testing && s.head == Some(verified) && task != ""
      case Pr(number) => actor == Forge && s.phase == Submit && number > 0
      case ReviewDelivered(round) => actor == Sentinel && s.prDelivery.Some? && s.prDelivery.value.round == round
      case _ => actor == Vessel
  {
  }

  /** SENTINEL can stop a test by blocking the ticket. */
  lemma SentinelStopsTest(s: State)
    requires Free(s) && s.phase == Testing
    ensures Apply(s, Sentinel, Move(Blocked, None))
         == Some(WithoutWork(s).(version := s.version + 1, phase := Blocked, planDecision := None, prDelivery := None,
                                 feedback := None))
  {
  }

  /** A human's approval of a verified head is recorded, but only SENTINEL's moves the ticket on. */
  lemma HumanTestApprovalIsNoted(s: State, report: string, head: string)
    requires MayJudge(s, Human, report, Some(head)) && s.phase == Testing
    requires s.verifiedHead == s.head && s.verificationTask.Some?
    ensures Apply(s, Human, Verdict(s, true, report, Some(head)))
         == Some(s.(version := s.version + 1,
                    testHuman := Some(Decision(None, s.round, Human, true, report, s.revision, Some(head)))))
  {
  }
}
