/**
 The authoritative ticket lifecycle: phases, gates and decisions, and the guarantee they give together:
 nothing is merged through the gates without the whole chain of approvals for that very candidate.
 */
module Lifecycle {
  import opened Text

  datatype Phase = Planning | PlanReady | PlanRejected | Building | Testing | Submit | Done | Blocked

  /** Actors after lower-casing. */
  datatype Actor = Forge | Sentinel | Vessel | Human | Other

  datatype Decision = Decision(
    pr: Option<nat>, round: nat, actor: Actor, approved: bool, report: string, revision: nat, head: Option<string>)

  datatype State = State(
    version: nat, phase: Phase, plan: string, revision: nat, round: nat, head: Option<string>,
    planDecision: Option<Decision>, testDecision: Option<Decision>, testHuman: Option<Decision>,
    prDecision: Option<Decision>, prHuman: Option<Decision>, prDelivery: Option<Decision>,
    verifiedHead: Option<string>, verificationTask: Option<string>,
    pr: Option<nat>, mergePending: bool, mergeSha: Option<string>, feedback: Option<string>)

  datatype Event =
    | Plan(content: string)
    | Move(phase: Phase, head: Option<string>)
    | Block(reason: string)
    | Decide(round: nat, phase: Phase, approved: bool, report: string, revision: nat, head: Option<string>)
    | Verified(verified: string, task: string)
    | Pr(number: nat)
    | BeginMerge(candidate: string)
    | CancelMerge
    | ReviewDelivered(round: nat)
    | ReconcileMerged(number: nat, sha: string)
    | Merged(number: nat, candidate: string, sha: string)

  const INITIAL := State(
    0, Planning, "", 0, 0, None, None, None, None, None, None, None, None, None, None, false, None, None)

  predicate Blank(s: string) {
    Trim(s) == ""
  }

  function ClearWork(s: State): State {
    s.(head := None, verifiedHead := None, verificationTask := None,
       testDecision := None, testHuman := None, prDecision := None, prHuman := None)
  }

  predicate Approves(d: Option<Decision>) {
    d.Some? && d.value.approved
  }

  predicate MergeReady(s: State, candidate: string) {
    s.prDelivery.None? && s.phase.Submit? && s.head == Some(candidate) && Approves(s.prDecision) && Approves(s.prHuman)
  }

  predicate MayMove(s: State, phase: Phase, head: Option<string>) {
    match (s.phase, phase)
    case (_, Blocked) => true
    case (Planning, PlanReady) => !Blank(s.plan) && s.revision > 0
    case (PlanReady, Building) => Approves(s.planDecision) && s.planDecision.value.revision == s.revision
    case (Building, Testing) => head.Some? && !Blank(head.value)
    case (Testing, Submit) =>
      && Approves(s.testDecision) && s.testDecision.value.revision == s.revision
      && s.testDecision.value.round == s.round && s.testDecision.value.head == s.head
      && s.verifiedHead == s.head && s.verificationTask.Some? && s.head.Some?
    case (Testing, Building) => true
    case (Submit, Building) => true
    case (from, Planning) => !from.Planning? && !from.Done?
    case _ => false
  }

  function Moved(s: State, phase: Phase, head: Option<string>): State {
    var cleared :=
      if phase.Planning? then ClearWork(s).(planDecision := None, plan := "")
      else if phase.Blocked? then ClearWork(s).(planDecision := None)
      else if phase.Building? then ClearWork(s)
      else s;
    cleared.(
      head := if phase.Testing? then head else cleared.head,
      round := if phase in {PlanReady, Testing, Submit} then s.round + 1 else s.round,
      prDelivery := None, feedback := None, phase := phase)
  }

  predicate MayDecide(s: State, actor: Actor, e: Event)
    requires e.Decide?
  {
    && e.phase == s.phase && e.round == s.round && e.revision == s.revision && !Blank(e.report)
    && actor in {Sentinel, Human} && (s.phase.PlanReady? ==> actor.Sentinel?)
    && s.phase in {PlanReady, Testing, Submit}
    && (!s.phase.PlanReady? ==>
          && e.head.Some? && e.head == s.head
          && (e.approved && s.phase.Testing? ==> s.verifiedHead == s.head && s.verificationTask.Some?)
          && (s.phase.Submit? ==> s.pr.Some?))
  }

  function Recorded(s: State, d: Decision): State {
    match s.phase
    case PlanReady => s.(planDecision := Some(d))
    case Testing => if d.actor.Sentinel? then s.(testDecision := Some(d)) else s.(testHuman := Some(d))
    case _ =>
      if d.actor.Sentinel? then s.(prDecision := Some(d), prDelivery := Some(d)) else s.(prHuman := Some(d))
  }

  function Decided(s: State, actor: Actor, e: Event): State
    requires e.Decide?
  {
    var d := Decision(if s.phase.Submit? then s.pr else None, e.round, actor, e.approved, e.report, e.revision, e.head);
    var next := Recorded(s, d);
    if e.approved && s.phase.PlanReady? then ClearWork(next).(phase := Building, feedback := None)
    else if e.approved && s.phase.Testing? && actor.Sentinel?
    then next.(phase := Submit, round := s.round + 1, prDelivery := None, feedback := None)
    else if e.approved then next
    else
      ClearWork(next).(
        prDelivery := if actor.Human? then None else next.prDelivery,
        feedback := Some(e.report),
        phase := if s.phase.PlanReady? then PlanRejected else Building)
  }

  /** `apply`: the next state, or None when the event is refused. */
  function Apply(s: State, actor: Actor, e: Event): Option<State> {
    if s.phase.Done? then None
    else if s.mergePending && !(e.Merged? || e.CancelMerge? || e.ReconcileMerged?) then None
    else
      match e
      case Plan(content) =>
        if actor.Forge? && s.phase.Planning? && !Blank(content)
        then Next(ClearWork(s).(plan := content, revision := s.revision + 1, planDecision := None)) else None
      case Move(phase, head) =>
        if !(actor.Forge? || (actor.Vessel? && phase.Building?)
             || (actor.Sentinel? && s.phase.Testing? && phase.Blocked?))
        then None
        else if s.phase == phase then Some(s)
        else if MayMove(s, phase, head) then Next(Moved(s, phase, head)) else None
      case Block(reason) =>
        if Blank(reason) then None
        else Next(ClearWork(s).(planDecision := None, prDelivery := None, feedback := Some(reason), phase := Blocked))
      case Decide(_, _, _, _, _, _) =>
        if MayDecide(s, actor, e) then Next(Decided(s, actor, e)) else None
      case Verified(verified, task) =>
        if actor.Sentinel? && s.phase.Testing? && s.head == Some(verified) && task != ""
        then Next(s.(verifiedHead := Some(verified), verificationTask := Some(task))) else None
      case Pr(number) =>
        if !(actor.Forge? && s.phase.Submit? && number > 0) then None
        else if s.pr == Some(number) then Next(s)
        else Next(s.(prDelivery := None, prDecision := None, prHuman := None, round := s.round + 1, pr := Some(number)))
      case ReviewDelivered(round) =>
        if actor.Sentinel? && s.prDelivery.Some? && s.prDelivery.value.round == round
        then Next(s.(prDelivery := None)) else None
      case BeginMerge(candidate) =>
        if actor.Vessel? && MergeReady(s, candidate) then Next(s.(mergePending := true)) else None
      case CancelMerge => if actor.Vessel? then Next(s.(mergePending := false)) else None
      case ReconcileMerged(number, sha) =>
        if actor.Vessel? && number > 0 && sha != ""
        then Next(s.(phase := Done, pr := Some(number), mergeSha := Some(sha), mergePending := false)) else None
      case Merged(number, candidate, sha) =>
        if actor.Vessel? && MergeReady(s, candidate) && s.pr == Some(number) && sha != ""
        then Next(s.(phase := Done, mergeSha := Some(sha), mergePending := false)) else None
  }

  function Next(s: State): Option<State> {
    Some(s.(version := s.version + 1))
  }

  /** A refused event leaves the record as it is. */
  function Step(s: State, actor: Actor, e: Event): State {
    match Apply(s, actor, e) case None => s case Some(next) => next
  }

  function Run(s: State, events: seq<(Actor, Event)>): State
    decreases |events|
  {
    if events == [] then s else Run(Step(s, events[0].0, events[0].1), events[1..])
  }

  // ----- the gates hold in every reachable state -----

  /** A decision that approves the current revision, by the given actor. */
  predicate ApprovedBy(s: State, d: Option<Decision>, actor: Actor) {
    Approves(d) && d.value.actor == actor && d.value.revision == s.revision
  }

  predicate PlanGate(s: State) {
    ApprovedBy(s, s.planDecision, Sentinel) && s.revision > 0 && !Blank(s.plan)
  }

  /** The testing decision and the verification both name exactly the recorded head. */
  predicate TestGate(s: State) {
    && s.head.Some? && s.verifiedHead == s.head && s.verificationTask.Some?
    && ApprovedBy(s, s.testDecision, Sentinel) && s.testDecision.value.head == s.head
  }

  /** A PR decision speaks about the current candidate, round and pull request. */
  predicate PrDecisionOk(s: State, d: Option<Decision>, actor: Actor) {
    d.Some? ==> d.value.actor == actor && d.value.revision == s.revision && d.value.round == s.round
                && d.value.head == s.head && d.value.pr == s.pr && s.pr.Some?
  }

  predicate Inv(s: State) {
    && (s.phase in {Building, Testing, Submit} ==> PlanGate(s))
    && (s.phase in {Planning, PlanReady} ==> s.planDecision.None?)
    && (s.phase == PlanReady ==> s.revision > 0 && !Blank(s.plan))
    && (s.phase == Submit ==>
          TestGate(s) && PrDecisionOk(s, s.prDecision, Sentinel) && PrDecisionOk(s, s.prHuman, Human))
    && (s.phase !in {Submit, Done} ==> s.prDecision.None? && s.prHuman.None? && s.testDecision.None?)
    && (s.phase == Testing ==> s.verifiedHead.None? || s.verifiedHead == s.head)
    && (s.phase !in {Testing, Submit, Done} ==> s.verifiedHead.None? && s.head.None?)
    && (s.mergePending ==> s.phase == Submit && s.head.Some? && MergeReady(s, s.head.value))
  }

  lemma MoveKeepsInv(s: State, actor: Actor, phase: Phase, head: Option<string>)
    requires Inv(s)
    ensures Inv(Step(s, actor, Move(phase, head)))
  {
  }

  lemma DecidedKeepsInv(s: State, actor: Actor, e: Event)
    requires Inv(s) && e.Decide? && !s.mergePending && MayDecide(s, actor, e)
    ensures Inv(Decided(s, actor, e))
  {
  }

  lemma DecideKeepsInv(s: State, actor: Actor, e: Event)
    requires Inv(s) && e.Decide?
    ensures Inv(Step(s, actor, e))
  {
    if !s.mergePending && MayDecide(s, actor, e) { DecidedKeepsInv(s, actor, e); }
  }

  lemma StepKeepsInv(s: State, actor: Actor, e: Event)
    requires Inv(s)
    ensures Inv(Step(s, actor, e))
  {
    if e.Move? {
      MoveKeepsInv(s, actor, e.phase, e.head);
    } else if e.Decide? {
      DecideKeepsInv(s, actor, e);
    }
  }

  lemma {:induction false} RunKeepsInv(s: State, events: seq<(Actor, Event)>)
    requires Inv(s)
    ensures Inv(Run(s, events))
    decreases |events|
  {
    if events != [] {
      StepKeepsInv(s, events[0].0, events[0].1);
      RunKeepsInv(Step(s, events[0].0, events[0].1), events[1..]);
    }
  }

  /**
   Whatever the actors try, a merge through the gates succeeds only for a candidate whose current plan
   revision SENTINEL approved, whose head was verified and approved in testing by SENTINEL, and whose pull
   request SENTINEL and a human approved in the current round, all naming this revision and this head.
   */
  lemma MergeHasFullApprovalChain(
    events: seq<(Actor, Event)>, actor: Actor, number: nat, candidate: string, sha: string)
    requires Apply(Run(INITIAL, events), actor, Merged(number, candidate, sha)).Some?
    ensures var s := Run(INITIAL, events);
            && s.phase == Submit && s.head == Some(candidate) && s.pr == Some(number)
            && PlanGate(s) && TestGate(s)
            && ApprovedBy(s, s.prDecision, Sentinel) && PrDecisionOk(s, s.prDecision, Sentinel)
            && ApprovedBy(s, s.prHuman, Human) && PrDecisionOk(s, s.prHuman, Human)
  {
    RunKeepsInv(INITIAL, events);
  }

  /** Work starts only on an approved plan, and reaches submission only with testing approved and the head verified. */
  lemma GatesHold(events: seq<(Actor, Event)>)
    ensures var s := Run(INITIAL, events);
            && (s.phase in {Building, Testing, Submit} ==> PlanGate(s))
            && (s.phase == Submit ==> TestGate(s))
  {
    RunKeepsInv(INITIAL, events);
  }

  /** The same candidate with the same decisions about it. */
  predicate SameCandidate(s: State, n: State) {
    && n.revision == s.revision && n.head == s.head && n.round == s.round && n.plan == s.plan
    && n.planDecision == s.planDecision && n.testDecision == s.testDecision && n.testHuman == s.testHuman
    && n.prDecision == s.prDecision && n.prHuman == s.prHuman && n.verifiedHead == s.verifiedHead
  }

  lemma PendingStep(s: State, actor: Actor, e: Event)
    requires Inv(s) && s.mergePending
    ensures
      var n := Step(s, actor, e);
      SameCandidate(s, n) && (n.mergePending ==> n == s) && (n.phase == Submit || n.phase == Done)
  {
  }

  /** How many events it takes until no merge is pending, or None while it stays pending. */
  function MergeEnd(s: State, events: seq<(Actor, Event)>): (k: Option<nat>)
    ensures k.Some? ==> k.value <= |events|
    decreases |events|
  {
    if !s.mergePending then Some(0)
    else if events == [] then None
    else
      var k := MergeEnd(Step(s, events[0].0, events[0].1), events[1..]);
      if k.None? then None else Some(k.value + 1)
  }

  /**
   Whatever the actors try while a merge is pending: nothing at all changes until it ends, and when it ends the
   candidate and every decision about it are still those the merge began with.
   */
  lemma {:induction false} PendingMergeFreezesCandidate(s: State, events: seq<(Actor, Event)>)
    requires Inv(s) && s.mergePending
    ensures MergeEnd(s, events).None? ==> Run(s, events) == s
    ensures MergeEnd(s, events).Some? ==>
      var n := Run(s, events[..MergeEnd(s, events).value]);
      SameCandidate(s, n) && !n.mergePending && (n.phase == Submit || n.phase == Done)
    decreases |events|
  {
    if events != [] {
      var n := Step(s, events[0].0, events[0].1);
      PendingStep(s, events[0].0, events[0].1);
      if n.mergePending {
        PendingMergeFreezesCandidate(s, events[1..]);
        var k := MergeEnd(s, events[1..]);
        if k.Some? { assert events[..k.value + 1][1..] == events[1..][..k.value]; }
      } else {
        assert events[..1][1..] == [] && Run(s, events[..1]) == Run(n, []);
      }
    }
  }

  predicate NotBefore(a: State, b: State) {
    a.version <= b.version && a.revision <= b.revision && a.round <= b.round
  }

  lemma StepNeverGoesBack(s: State, actor: Actor, e: Event)
    ensures NotBefore(s, Step(s, actor, e))
  {
  }

  /** Versions, revisions and rounds never go back, and a finished ticket never changes again. */
  lemma {:induction false} CountersOnlyGrow(s: State, events: seq<(Actor, Event)>)
    ensures NotBefore(s, Run(s, events))
    ensures s.phase.Done? ==> Run(s, events) == s
    decreases |events|
  {
    if events != [] {
      var n := Step(s, events[0].0, events[0].1);
      StepNeverGoesBack(s, events[0].0, events[0].1);
      CountersOnlyGrow(n, events[1..]);
    }
  }

  predicate UnderReview(s: State) {
    s.phase in {PlanReady, Testing, Submit}
  }

  /**
   Outside a review phase the round is spent: whenever a later state is under review again, its round is
   strictly larger. So no two rejections, and no two approvals of a plan, share a round.
   */
  lemma {:induction false} NextReviewIsLaterRound(s: State, round: nat, events: seq<(Actor, Event)>)
    requires s.round >= round && (UnderReview(s) ==> s.round > round)
    ensures UnderReview(Run(s, events)) ==> Run(s, events).round > round
    decreases |events|
  {
    if events != [] {
      NextReviewIsLaterRound(Step(s, events[0].0, events[0].1), round, events[1..]);
    }
  }
}
