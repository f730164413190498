/**
 Names of review conversations. NEXUS stores a reviewer's chat under a name built from the lifecycle, and
 SENTINEL, a separate program, rebuilds the name from the lifecycle to find the chat it has to watch.
 */
module ReviewNamespace {
  import opened Text
  import L = Lifecycle

  function Joined(kind: string, revision: nat, head: string, round: nat): string {
    kind + ":" + (Decimal(revision) + ":" + (head + ":" + Decimal(round)))
  }

  function HeadOr(head: Option<string>, default: string): string {
    if head.Some? then head.value else default
  }

  /** `monitor_namespace` of SENTINEL. */
  function Monitored(s: L.State): Option<string> {
    match s.phase
    case PlanReady => Some(Joined("planning_gate", s.revision, HeadOr(s.head, "plan"), s.round))
    case Testing => Some(Joined("testing", s.revision, HeadOr(s.head, "plan"), s.round))
    case Submit => Some(Joined("pr_review", s.revision, HeadOr(s.head, ""), s.round))
    case _ => None
  }

  /**
   The name NEXUS requests a review under when its polled phase still matches the lifecycle. A plan or test
   that is approved, a PR that is not recorded yet and a decided PR get no request.
   */
  function Requested(polled: L.Phase, s: L.State): Option<string> {
    if s.phase != polled then None
    else if polled.PlanReady? || polled.Testing? then
      var testing := s.phase.Testing?;
      if L.Approves(if testing then s.testDecision else s.planDecision) then None
      else Some(Joined(if testing then "testing" else "planning_gate", s.revision, HeadOr(s.head, "plan"), s.round))
    else if polled.Submit? && s.pr.Some? && s.prDecision.None?
    then Some(Joined("pr_review", s.revision, HeadOr(s.head, ""), s.round))
    else None
  }

  predicate Plain(s: string) {
    ':' !in s
  }

  lemma FirstColonSplits(a: string, x: string, b: string, y: string)
    requires Plain(a) && Plain(b) && a + ":" + x == b + ":" + y
    ensures a == b && x == y
  {
    var s, t := a + ":" + x, b + ":" + y;
    assert s[|a|] == ':' && t[|b|] == ':';
    assert forall i :: 0 <= i < |a| ==> s[i] == a[i] && a[i] in a;
    assert forall i :: 0 <= i < |b| ==> t[i] == b[i] && b[i] in b;
    assert |a| == |b|;
    assert a == s[..|a|] == t[..|b|] == b;
    assert x == s[|a| + 1..] == t[|b| + 1..] == y;
  }

  lemma LastColonSplits(x: string, a: string, y: string, b: string)
    requires Plain(a) && Plain(b) && x + ":" + a == y + ":" + b
    ensures a == b && x == y
  {
    var s, t := x + ":" + a, y + ":" + b;
    assert s[|x|] == ':' && t[|y|] == ':';
    assert forall i :: |x| < i < |s| ==> s[i] == a[i - |x| - 1] && a[i - |x| - 1] in a;
    assert forall i :: |y| < i < |t| ==> t[i] == b[i - |y| - 1] && b[i - |y| - 1] in b;
    assert |x| == |y|;
    assert x == s[..|x|] == t[..|y|] == y;
    assert a == s[|x| + 1..] == t[|y| + 1..] == b;
  }

  lemma DecimalIsInjective(m: nat, n: nat)
    requires Decimal(m) == Decimal(n)
    ensures m == n
  {
    DigitsValueOfDecimal(m);
    DigitsValueOfDecimal(n);
  }

  /** A joined name gives back all its parts, even when the head contains colons. */
  lemma JoinedIsInjective(a: string, m: nat, x: string, i: nat, b: string, n: nat, y: string, j: nat)
    requires Plain(a) && Plain(b) && Joined(a, m, x, i) == Joined(b, n, y, j)
    ensures a == b && m == n && x == y && i == j
  {
    FirstColonSplits(a, Decimal(m) + ":" + (x + ":" + Decimal(i)), b, Decimal(n) + ":" + (y + ":" + Decimal(j)));
    FirstColonSplits(Decimal(m), x + ":" + Decimal(i), Decimal(n), y + ":" + Decimal(j));
    LastColonSplits(x, Decimal(i), y, Decimal(j));
    DecimalIsInjective(m, n);
    DecimalIsInjective(i, j);
  }

  /**
   Whatever review NEXUS requests, SENTINEL watches under the same name. In every reachable lifecycle under
   review a request is made, except in submission without a recorded PR or with a decided one.
   */
  lemma SentinelWatchesRequested(events: seq<(L.Actor, L.Event)>, polled: L.Phase)
    ensures
      var s := L.Run(L.INITIAL, events);
      && (Requested(polled, s).Some? ==> Monitored(s) == Requested(polled, s))
      && (Requested(polled, s).Some? <==>
            L.UnderReview(s) && s.phase == polled && (s.phase.Submit? ==> s.pr.Some? && s.prDecision.None?))
  {
    L.RunKeepsInv(L.INITIAL, events);
  }

  function Label(phase: L.Phase): (r: string)
    ensures Plain(r)
  {
    if phase.PlanReady? then "planning_gate" else if phase.Testing? then "testing" else "pr_review"
  }

  /** Two lifecycles share a name exactly when they ask for the same review of the same candidate. */
  lemma NameIdentifiesReview(s: L.State, t: L.State)
    requires L.UnderReview(s) && L.UnderReview(t)
    ensures Monitored(s) == Monitored(t) <==>
      && s.phase == t.phase && s.revision == t.revision && s.round == t.round
      && var default := if s.phase.Submit? then "" else "plan";
         HeadOr(s.head, default) == HeadOr(t.head, default)
  {
    if Monitored(s) == Monitored(t) {
      var ds, dt := if s.phase.Submit? then "" else "plan", if t.phase.Submit? then "" else "plan";
      JoinedIsInjective(Label(s.phase), s.revision, HeadOr(s.head, ds), s.round,
                        Label(t.phase), t.revision, HeadOr(t.head, dt), t.round);
      assert "planning_gate"[1] == 'l' && "pr_review"[1] == 'r' && "testing"[1] == 'e';
    }
  }

  /** Once a review is left, no later review of the ticket is ever given its name again. */
  lemma NamesAreNotReused(s: L.State, toLeave: seq<(L.Actor, L.Event)>, later: seq<(L.Actor, L.Event)>)
    requires
      var left := L.Run(s, toLeave);
      L.UnderReview(s) && !L.UnderReview(left) && L.UnderReview(L.Run(left, later))
    ensures Monitored(L.Run(L.Run(s, toLeave), later)) != Monitored(s)
  {
    var left := L.Run(s, toLeave);
    L.CountersOnlyGrow(s, toLeave);
    L.NextReviewIsLaterRound(left, s.round, later);
    NameIdentifiesReview(s, L.Run(left, later));
  }

  /** The format of a name, as both programs store and read it. */
  lemma NameFormat(s: L.State)
    requires s.head.Some?
    ensures
      var rest := ":" + Decimal(s.revision) + ":" + s.head.value + ":" + Decimal(s.round);
      && (s.phase == L.PlanReady ==> Monitored(s) == Some("planning_gate" + rest))
      && (s.phase == L.Testing ==> Monitored(s) == Some("testing" + rest))
      && (s.phase == L.Submit ==> Monitored(s) == Some("pr_review" + rest))
  {
    var m, h, n := Decimal(s.revision), s.head.value, Decimal(s.round);
    var rest := ":" + m + ":" + h + ":" + n;
    assert forall kind: string :: kind + ":" + (m + ":" + (h + ":" + n)) == kind + rest;
  }
}
