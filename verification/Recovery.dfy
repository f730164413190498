/**
 Bounded automatic recovery: a crashed workspace and a busy slot without a workspace share one counter per
 ticket, which decides between another repair and handing the ticket to a human.
 */
module Recovery {
  import opened Text
  import opened Fleet

  datatype Notice = Notice(ticket: string, worker: string, reason: string, link: Option<string>)

  datatype Mark = Repair(id: string) | Reset(id: string)

  /**
   `shown` holds the tickets whose flat status key reads awaiting_human; `log` records repairs and resets, and
   `failures` the failures VESSEL put down to a ticket.
   */
  datatype State = State(
    tickets: seq<Ticket>, counters: map<string, nat>, shown: set<string>, notices: seq<Notice>, log: seq<Mark>,
    failures: seq<string>)

  function Counter(s: State, id: string): nat {
    if id in s.counters then s.counters[id] else 0
  }

  /** The position of the first ticket with the id, or the length. */
  function Place(tickets: seq<Ticket>, id: string): (k: nat)
    ensures k <= |tickets|
    ensures k < |tickets| ==> tickets[k].id == id
    ensures forall i :: 0 <= i < k ==> tickets[i].id != id
  {
    if tickets == [] || tickets[0].id == id then 0 else 1 + Place(tickets[1..], id)
  }

  lemma PlaceIs(tickets: seq<Ticket>, id: string, k: nat)
    requires k <= |tickets| && (k < |tickets| ==> tickets[k].id == id) && forall i :: 0 <= i < k ==> tickets[i].id != id
    ensures Place(tickets, id) == k
  {
  }

  predicate Known(s: State, id: string) {
    Place(s.tickets, id) < |s.tickets|
  }

  function TicketOf(s: State, id: string): Ticket
    requires Known(s, id)
  {
    s.tickets[Place(s.tickets, id)]
  }

  predicate Awaiting(s: State, id: string) {
    Known(s, id) && TicketOf(s, id).status.AwaitingHuman?
  }

  function WasReset(s: State, id: string): State {
    s.(counters := s.counters[id := 0], log := s.log + [Reset(id)])
  }

  function Escalated(t: Ticket, worker: string, reason: string): Ticket {
    t.(attempts := t.attempts + 1, status := AwaitingHuman(worker, reason, t.attempts + 1))
  }

  /** `mark_ticket_awaiting_human` without the release of the slot. */
  function Marked(s: State, id: string, worker: string, reason: string): State {
    if Awaiting(s, id) then s
    else
      var k := Place(s.tickets, id);
      var s' := if k < |s.tickets| then s.(tickets := s.tickets[k := Escalated(s.tickets[k], worker, reason)]) else s;
      var link := if k < |s.tickets| then s.tickets[k].issueUrl else None;
      WasReset(s'.(shown := s.shown + {id}, notices := s.notices + [Notice(id, worker, reason, link)]), id)
  }

  /** Counts an attempt; below the limit it is a repair, which resets the counter if it brings the workspace back. */
  function Tried(s: State, id: string, worker: string, reason: string, works: bool): State {
    var n := Counter(s, id) + 1;
    var c := s.(counters := s.counters[id := n]);
    if n >= MAX_ATTEMPTS then Marked(c, id, worker, reason)
    else
      var r := c.(log := c.log + [Repair(id)]);
      if works then WasReset(r, id) else r
  }

  // ------------------------------------------------------------------- the controller

  class Desk {
    var tickets: seq<Ticket>
    var counters: map<string, nat>
    var shown: set<string>
    var notices: seq<Notice>
    ghost var log: seq<Mark>
    ghost var failures: seq<string>

    ghost function Store(): State
      reads this
    {
      State(tickets, counters, shown, notices, log, failures)
    }

    constructor (tickets: seq<Ticket>)
      ensures Store() == State(tickets, map[], {}, [], [], [])
    {
      this.tickets, counters, shown, notices, log, failures := tickets, map[], {}, [], [], [];
    }

    method ResetRecoveryAttempts(id: string)
      modifies this
      ensures Store() == WasReset(old(Store()), id)
    {
      counters := counters[id := 0];
      log := log + [Reset(id)];
    }

    method IncrementRecoveryAttempts(id: string) returns (next: nat)
      modifies this
      ensures next == Counter(old(Store()), id) + 1
      ensures Store() == old(Store()).(counters := old(counters)[id := next])
    {
      next := (if id in counters then counters[id] else 0) + 1;
      counters := counters[id := next];
    }

    method MarkTicketAwaitingHuman(id: string, worker: string, reason: string)
      modifies this
      ensures Store() == Marked(old(Store()), id, worker, reason)
    {
      var ts, link := tickets, None;
      var i := 0;
      while i < |ts|
        invariant i <= |ts| && ts == tickets && link == None && unchanged(this)
        invariant forall j :: 0 <= j < i ==> ts[j].id != id
        invariant i == |ts| ==> Place(tickets, id) == |tickets|
        decreases |ts| - i
      {
        if ts[i].id == id {
          PlaceIs(tickets, id, i);
          if ts[i].status.AwaitingHuman? {
            return;
          }
          link := ts[i].issueUrl;
          var attempts := ts[i].attempts + 1;
          ts := ts[i := ts[i].(attempts := attempts, status := AwaitingHuman(worker, reason, attempts))];
          break;
        }
        i := i + 1;
        if i == |ts| { PlaceIs(tickets, id, i); }
      }
      tickets := ts;
      shown := shown + {id};
      ResetRecoveryAttempts(id);
      notices := notices + [Notice(id, worker, reason, link)];
    }

    /** The part shared by both recovery paths; `works` says whether the repair it may call succeeds. */
    method TryRecovery(id: string, worker: string, reason: string, works: bool) returns (repaired: bool)
      modifies this
      ensures Store() == Tried(old(Store()), id, worker, reason, works)
      ensures repaired <==> Counter(old(Store()), id) + 1 < MAX_ATTEMPTS
    {
      var attempts := IncrementRecoveryAttempts(id);
      if attempts >= MAX_ATTEMPTS {
        MarkTicketAwaitingHuman(id, worker, reason);
        return false;
      }
      log := log + [Repair(id)];
      if works { ResetRecoveryAttempts(id); }
      return true;
    }
  }

  // ------------------------------------------------------------------- runs

  datatype Event =
    | Crashed(id: string, worker: string, reason: string, works: bool)
    | Unprovisioned(id: string, worker: string, reason: string, works: bool)
    | Healthy(id: string)
    | Moved(id: string, status: TicketStatus)
    | VesselFails(id: string, why: string)
    | VesselEscalates(id: string, why: string)

  /** The worker a ticket names, for VESSEL's own escalation. */
  function WorkerOf(status: TicketStatus): string {
    match status case Open => "vessel" case _ => status.worker
  }

  /** VESSEL's `mark_ticket_failed`, and its own `mark_ticket_awaiting_human`, which does not look at the status. */
  function ByVessel(t: Ticket, why: string, escalate: bool): Ticket {
    t.(attempts := t.attempts + 1,
       status := if escalate then AwaitingHuman(WorkerOf(t.status), why, t.attempts + 1)
                 else Failed("vessel", why, t.attempts + 1))
  }

  function Vessel(s: State, id: string, why: string, escalate: bool): State {
    var k := Place(s.tickets, id);
    var found := k < |s.tickets|;
    var worker := if found then WorkerOf(s.tickets[k].status) else "vessel";
    s.(tickets := if found then s.tickets[k := ByVessel(s.tickets[k], why, escalate)] else s.tickets,
       notices := if escalate then s.notices + [Notice(id, worker, why, if found then s.tickets[k].issueUrl else None)]
                  else s.notices,
       failures := if escalate then s.failures else s.failures + [id])
  }

  function Step(s: State, e: Event): State {
    match e
    case VesselFails(id, why) => Vessel(s, id, why, false)
    case VesselEscalates(id, why) => Vessel(s, id, why, true)
    case Crashed(id, worker, reason, works) => if id == "" then s else Tried(s, id, worker, reason, works)
    case Unprovisioned(id, worker, reason, works) => Tried(s, id, worker, reason, works)
    case Healthy(id) => if id != "" && Counter(s, id) > 0 then WasReset(s, id) else s
    case Moved(id, status) =>
      var k := Place(s.tickets, id);
      if k < |s.tickets| then s.(tickets := s.tickets[k := s.tickets[k].(status := status)]) else s
  }

  function Run(s: State, events: seq<Event>): State
    decreases |events|
  {
    if events == [] then s else Run(Step(s, events[0]), events[1..])
  }

  function Fresh(tickets: seq<Ticket>): State {
    State(tickets, map[], {}, [], [], [])
  }

  // ------------------------------------------------------------------- repairs are bounded

  function Repairs(log: seq<Mark>, id: string): nat {
    if log == [] then 0
    else Repairs(log[..|log| - 1], id) + if log[|log| - 1] == Repair(id) then 1 else 0
  }

  function SinceReset(log: seq<Mark>, id: string): nat {
    if log == [] || log[|log| - 1] == Reset(id) then 0
    else SinceReset(log[..|log| - 1], id) + if log[|log| - 1] == Repair(id) then 1 else 0
  }

  ghost predicate Spent(s: State, id: string) {
    && SinceReset(s.log, id) <= Counter(s, id)
    && forall j :: 0 <= j <= |s.log| ==> SinceReset(s.log[..j], id) < MAX_ATTEMPTS
  }

  lemma AppendKeepsSpent(s: State, n: State, m: Mark, id: string)
    requires Spent(s, id) && n.log == s.log + [m]
    requires SinceReset(n.log, id) <= Counter(n, id) && SinceReset(n.log, id) < MAX_ATTEMPTS
    ensures Spent(n, id)
  {
    forall j | 0 <= j <= |n.log| ensures SinceReset(n.log[..j], id) < MAX_ATTEMPTS {
      if j <= |s.log| {
        assert n.log[..j] == s.log[..j];
      } else {
        assert n.log[..j] == n.log;
      }
    }
  }

  lemma ResetKeepsSpent(s: State, other: string, id: string)
    requires Spent(s, id)
    ensures Spent(WasReset(s, other), id)
  {
    assert s.log[..|s.log|] == s.log;
    AppendKeepsSpent(s, WasReset(s, other), Reset(other), id);
  }

  lemma TriedKeepsSpent(s: State, other: string, worker: string, reason: string, works: bool, id: string)
    requires Spent(s, id)
    ensures Spent(Tried(s, other, worker, reason, works), id)
  {
    var c := s.(counters := s.counters[other := Counter(s, other) + 1]);
    assert Spent(c, id);
    if Counter(s, other) + 1 >= MAX_ATTEMPTS {
      if !Awaiting(c, other) {
        var k := Place(c.tickets, other);
        ResetKeepsSpent(Marked(c, other, worker, reason).(counters := c.counters, log := c.log), other, id);
      }
    } else {
      var r := c.(log := c.log + [Repair(other)]);
      assert s.log[..|s.log|] == s.log;
      AppendKeepsSpent(c, r, Repair(other), id);
      ResetKeepsSpent(r, other, id);
    }
  }

  lemma StepKeepsSpent(s: State, e: Event, id: string)
    requires Spent(s, id)
    ensures Spent(Step(s, e), id)
  {
    match e
    case Crashed(other, worker, reason, works) => TriedKeepsSpent(s, other, worker, reason, works, id);
    case Unprovisioned(other, worker, reason, works) => TriedKeepsSpent(s, other, worker, reason, works, id);
    case Healthy(other) => ResetKeepsSpent(s, other, id);
    case _ =>
  }

  lemma {:induction false} RunKeepsSpent(s: State, events: seq<Event>, id: string)
    requires Spent(s, id)
    ensures Spent(Run(s, events), id)
    decreases |events|
  {
    if events != [] {
      StepKeepsSpent(s, events[0], id);
      RunKeepsSpent(Step(s, events[0]), events[1..], id);
    }
  }

  lemma {:induction false} WindowIsSpent(log: seq<Mark>, i: nat, id: string)
    requires i <= |log| && Reset(id) !in log[i..]
    ensures Repairs(log[i..], id) <= SinceReset(log, id)
    decreases |log| - i
  {
    if i < |log| {
      var last := |log| - 1;
      assert log[i..][..last - i] == log[..last][i..];
      assert log[i..][last - i] == log[last];
      assert log[..last][i..] <= log[i..];
      WindowIsSpent(log[..last], i, id);
    }
  }

  /** Over both paths, a stretch without a reset of the ticket's counter has fewer repairs than MAX_ATTEMPTS. */
  lemma RepairsAreBounded(tickets: seq<Ticket>, events: seq<Event>, id: string, i: nat, j: nat)
    requires var log := Run(Fresh(tickets), events).log; i <= j <= |log| && Reset(id) !in log[i..j]
    ensures var log := Run(Fresh(tickets), events).log; Repairs(log[i..j], id) <= MAX_ATTEMPTS - 1
  {
    var s := Run(Fresh(tickets), events);
    RunKeepsSpent(Fresh(tickets), events, id);
    assert s.log[..j][i..] == s.log[i..j];
    WindowIsSpent(s.log[..j], i, id);
  }

  // ------------------------------------------------------------------- escalations, attempts and notices

  function Notices(notices: seq<Notice>, id: string): nat {
    if notices == [] then 0
    else Notices(notices[..|notices| - 1], id) + if notices[|notices| - 1].ticket == id then 1 else 0
  }

  lemma NoticesAppend(notices: seq<Notice>, n: Notice, id: string)
    ensures Notices(notices + [n], id) == Notices(notices, id) + if n.ticket == id then 1 else 0
  {
    assert (notices + [n])[..|notices|] == notices;
  }

  /** Changing one ticket in place, but for its id, leaves every ticket where it was. */
  lemma PlaceAfterUpdate(tickets: seq<Ticket>, k: nat, t: Ticket, id: string)
    requires k < |tickets| && t.id == tickets[k].id
    ensures Place(tickets[k := t], id) == Place(tickets, id)
  {
    PlaceIs(tickets[k := t], id, Place(tickets, id));
  }

  function Failures(failures: seq<string>, id: string): nat {
    if failures == [] then 0
    else Failures(failures[..|failures| - 1], id) + if failures[|failures| - 1] == id then 1 else 0
  }

  /** What was said about a ticket: notices sent and failures put down to it. */
  function Said(s: State, id: string): nat {
    Notices(s.notices, id) + Failures(s.failures, id)
  }

  /** The ticket's attempts grow by what is said about it. */
  ghost predicate Conserves(s: State, n: State, id: string) {
    Known(s, id) && Known(n, id) && TicketOf(n, id).attempts + Said(s, id) == TicketOf(s, id).attempts + Said(n, id)
  }

  lemma VesselConserves(s: State, other: string, why: string, escalate: bool, id: string)
    requires Known(s, id)
    ensures Conserves(s, Vessel(s, other, why, escalate), id)
  {
    var k := Place(s.tickets, other);
    var n := Vessel(s, other, why, escalate);
    if escalate {
      NoticesAppend(s.notices, n.notices[|s.notices|], id);
    } else {
      assert (s.failures + [other])[..|s.failures|] == s.failures;
    }
    if k < |s.tickets| {
      PlaceAfterUpdate(s.tickets, k, ByVessel(s.tickets[k], why, escalate), id);
    }
  }

  lemma StepConserves(s: State, e: Event, id: string)
    requires Known(s, id)
    ensures Conserves(s, Step(s, e), id)
  {
    match e
    case Moved(other, status) =>
      var k := Place(s.tickets, other);
      if k < |s.tickets| { PlaceAfterUpdate(s.tickets, k, s.tickets[k].(status := status), id); }
    case VesselFails(other, why) => VesselConserves(s, other, why, false, id);
    case VesselEscalates(other, why) => VesselConserves(s, other, why, true, id);
    case Healthy(_) =>
    case Crashed(other, worker, reason, works) => TriedConserves(s, other, worker, reason, works, id);
    case Unprovisioned(other, worker, reason, works) => TriedConserves(s, other, worker, reason, works, id);
  }

  lemma MarkedConserves(s: State, other: string, worker: string, reason: string, id: string)
    requires Known(s, id) && !Awaiting(s, other)
    ensures Conserves(s, Marked(s, other, worker, reason), id)
  {
    var k := Place(s.tickets, other);
    var link := if k < |s.tickets| then s.tickets[k].issueUrl else None;
    NoticesAppend(s.notices, Notice(other, worker, reason, link), id);
    if k < |s.tickets| {
      PlaceAfterUpdate(s.tickets, k, Escalated(s.tickets[k], worker, reason), id);
    }
  }

  lemma TriedConserves(s: State, other: string, worker: string, reason: string, works: bool, id: string)
    requires Known(s, id)
    ensures Conserves(s, Tried(s, other, worker, reason, works), id)
  {
    var c := s.(counters := s.counters[other := Counter(s, other) + 1]);
    if !Awaiting(c, other) {
      MarkedConserves(c, other, worker, reason, id);
    }
  }

  /** Over every run, VESSEL's part included, a ticket's attempts grow by exactly the notices and failures about it. */
  lemma {:induction false} AttemptsCountNotices(s: State, events: seq<Event>, id: string)
    requires Known(s, id)
    ensures Conserves(s, Run(s, events), id)
    decreases |events|
  {
    if events != [] {
      StepConserves(s, events[0], id);
      AttemptsCountNotices(Step(s, events[0]), events[1..], id);
    }
  }

  lemma OtherUpdateKeepsTicket(s: State, n: State, k: nat, t: Ticket, id: string)
    requires Known(s, id) && k < |s.tickets| && t.id == s.tickets[k].id != id && n.tickets == s.tickets[k := t]
    ensures Known(n, id) && TicketOf(n, id) == TicketOf(s, id)
  {
    PlaceAfterUpdate(s.tickets, k, t, id);
  }

  lemma OthersLeaveTicket(s: State, e: Event, id: string)
    requires Known(s, id) && e.id != id
    ensures Known(Step(s, e), id) && TicketOf(Step(s, e), id) == TicketOf(s, id)
  {
    var k := Place(s.tickets, e.id);
    if k < |s.tickets| && Step(s, e).tickets != s.tickets {
      OtherUpdateKeepsTicket(s, Step(s, e), k, Step(s, e).tickets[k], id);
    }
  }

  /** Somebody other than the recovery of NEXUS deals with the ticket. */
  predicate Touches(e: Event, id: string) {
    e.id == id && (e.Moved? || e.VesselFails? || e.VesselEscalates?)
  }

  lemma AwaitingStepIsFrozen(s: State, e: Event, id: string)
    requires Awaiting(s, id) && !Touches(e, id)
    ensures var n := Step(s, e);
      Awaiting(n, id) && TicketOf(n, id) == TicketOf(s, id) && Said(n, id) == Said(s, id)
  {
    StepConserves(s, e, id);
    if e.id != id {
      OthersLeaveTicket(s, e, id);
    }
  }

  /** Until somebody moves it on, a ticket awaiting a human is neither changed nor reported again. */
  lemma {:induction false} AwaitingIsFrozen(s: State, events: seq<Event>, id: string)
    requires Awaiting(s, id) && forall i :: 0 <= i < |events| ==> !Touches(events[i], id)
    ensures var e := Run(s, events);
      Awaiting(e, id) && TicketOf(e, id) == TicketOf(s, id) && Said(e, id) == Said(s, id)
    decreases |events|
  {
    if events != [] {
      AwaitingStepIsFrozen(s, events[0], id);
      AwaitingIsFrozen(Step(s, events[0]), events[1..], id);
    }
  }

  lemma VesselEscalatesOnce(s: State, id: string, why: string)
    requires Known(s, id)
    ensures var n := Step(s, VesselEscalates(id, why));
      && Awaiting(n, id) && TicketOf(n, id).attempts == TicketOf(s, id).attempts + 1
      && Notices(n.notices, id) == Notices(s.notices, id) + 1
  {
    var k := Place(s.tickets, id);
    var n := Vessel(s, id, why, true);
    NoticesAppend(s.notices, n.notices[|s.notices|], id);
    PlaceAfterUpdate(s.tickets, k, ByVessel(s.tickets[k], why, true), id);
  }

  /** How often VESSEL escalates the ticket. */
  function Escalations(events: seq<Event>, id: string): nat {
    if events == [] then 0
    else Escalations(events[1..], id) + if events[0].VesselEscalates? && events[0].id == id then 1 else 0
  }

  /**
   VESSEL's own escalation is not so careful: in a run in which nothing else touches a waiting ticket, each of
   its escalations counts another attempt and sends another notice.
   */
  lemma {:induction false} VesselRepeatsNotice(s: State, events: seq<Event>, id: string)
    requires Awaiting(s, id) && forall i :: 0 <= i < |events| ==> !Touches(events[i], id) || events[i].VesselEscalates?
    ensures
      var e := Run(s, events);
      && Awaiting(e, id) && TicketOf(e, id).attempts == TicketOf(s, id).attempts + Escalations(events, id)
      && Notices(e.notices, id) == Notices(s.notices, id) + Escalations(events, id)
    decreases |events|
  {
    if events != [] {
      if events[0].VesselEscalates? && events[0].id == id {
        VesselEscalatesOnce(s, id, events[0].why);
      } else {
        AwaitingStepIsFrozen(s, events[0], id);
        NoticesFrozen(s, events[0], id);
      }
      VesselRepeatsNotice(Step(s, events[0]), events[1..], id);
    }
  }

  /** Recovery sends no notice about a waiting ticket. */
  lemma NoticesFrozen(s: State, e: Event, id: string)
    requires Awaiting(s, id) && !Touches(e, id)
    ensures Notices(Step(s, e).notices, id) == Notices(s.notices, id)
  {
    var n := Step(s, e);
    if n.notices != s.notices {
      NoticesAppend(s.notices, n.notices[|s.notices|], id);
    }
  }

  // ------------------------------------------------------------------- every failing ticket is escalated

  predicate FailsFor(e: Event, id: string) {
    (e.Crashed? || e.Unprovisioned?) && e.id == id && !e.works
  }

  lemma FailureIsCounted(s: State, e: Event, id: string)
    requires id != "" && FailsFor(e, id) && Counter(s, id) + 1 < MAX_ATTEMPTS
    ensures var n := Step(s, e);
      Counter(n, id) == Counter(s, id) + 1 && n.tickets == s.tickets && n.notices == s.notices
  {
  }

  /** What the ticket, its status key, its counter and the outbox look like after an escalation for `e`. */
  ghost predicate HandedOver(s: State, n: State, e: Event, id: string)
    requires Known(s, id) && FailsFor(e, id)
  {
    var t := TicketOf(s, id);
    && Known(n, id)
    && TicketOf(n, id) == t.(attempts := t.attempts + 1, status := AwaitingHuman(e.worker, e.reason, t.attempts + 1))
    && n.notices == s.notices + [Notice(id, e.worker, e.reason, t.issueUrl)]
    && id in n.shown && Counter(n, id) == 0
  }

  lemma LastFailureEscalates(s: State, e: Event, id: string)
    requires id != "" && FailsFor(e, id) && Counter(s, id) + 1 >= MAX_ATTEMPTS && Known(s, id) && !Awaiting(s, id)
    ensures HandedOver(s, Step(s, e), e, id)
  {
    PlaceAfterUpdate(s.tickets, Place(s.tickets, id), Escalated(TicketOf(s, id), e.worker, e.reason), id);
  }

  /**
   Failures in a row hand the ticket over at the MAX_ATTEMPTS-th count, with one more attempt and one notice,
   for the last failure.
   */
  lemma {:induction false} FailuresEscalate(s: State, events: seq<Event>, id: string)
    requires id != "" && Known(s, id) && !Awaiting(s, id)
    requires 0 < |events|
    && (Counter(s, id) + |events| == MAX_ATTEMPTS || (Counter(s, id) >= MAX_ATTEMPTS && |events| == 1))
    requires forall i :: 0 <= i < |events| ==> FailsFor(events[i], id)
    ensures HandedOver(s, Run(s, events), events[|events| - 1], id)
    decreases |events|
  {
    if |events| == 1 {
      assert Run(s, events) == Step(s, events[0]);
      LastFailureEscalates(s, events[0], id);
    } else {
      FailureIsCounted(s, events[0], id);
      FailuresEscalate(Step(s, events[0]), events[1..], id);
    }
  }

  lemma {:induction false} WaitingFailuresCount(s: State, events: seq<Event>, id: string)
    requires id != "" && Awaiting(s, id) && forall i :: 0 <= i < |events| ==> FailsFor(events[i], id)
    ensures var e := Run(s, events); Awaiting(e, id) && Counter(e, id) == Counter(s, id) + |events|
    decreases |events|
  {
    if events != [] {
      AwaitingStepIsFrozen(s, events[0], id);
      WaitingFailuresCount(Step(s, events[0]), events[1..], id);
    }
  }

  /**
   Failures counted while a ticket already waits are never reset: once it is moved on, its next failure is
   repaired only if fewer than MAX_ATTEMPTS - 1 were counted; otherwise it is escalated again at once.
   */
  lemma WaitingSpendsTheBudget(s: State, events: seq<Event>, next: Event, id: string, status: TicketStatus)
    requires id != "" && Awaiting(s, id) && !status.AwaitingHuman? && FailsFor(next, id)
    requires forall i :: 0 <= i < |events| ==> FailsFor(events[i], id)
    ensures
      var moved := Step(Run(s, events), Moved(id, status));
      var n := Step(moved, next);
      && !Awaiting(moved, id)
      && (Awaiting(n, id) <==> Counter(s, id) + |events| >= MAX_ATTEMPTS - 1)
  {
    WaitingFailuresCount(s, events, id);
    var e := Run(s, events);
    var k := Place(e.tickets, id);
    PlaceAfterUpdate(e.tickets, k, e.tickets[k].(status := status), id);
    var moved := Step(e, Moved(id, status));
    PlaceAfterUpdate(moved.tickets, k, Escalated(moved.tickets[k], next.worker, next.reason), id);
  }

  // ------------------------------------------------------------------- what one event does

  /** Below the limit a failure is repaired: nobody is told, and a repair that works starts the count anew. */
  lemma RepairIsTried(s: State, e: Event, id: string)
    requires id != "" && (e.Crashed? || e.Unprovisioned?) && e.id == id && Counter(s, id) + 1 < MAX_ATTEMPTS
    ensures
      var n := Step(s, e);
      && n.tickets == s.tickets && n.notices == s.notices && n.shown == s.shown
      && n.log == s.log + (if e.works then [Repair(id), Reset(id)] else [Repair(id)])
      && Counter(n, id) == (if e.works then 0 else Counter(s, id) + 1)
      && forall other :: other != id ==> Counter(n, other) == Counter(s, other)
  {
    assert s.log + [Repair(id)] + [Reset(id)] == s.log + [Repair(id), Reset(id)];
  }

  /** A workspace seen healthy starts the ticket's count anew, and nothing else changes. */
  lemma HealthResetsCounter(s: State, id: string)
    requires id != ""
    ensures
      var n := Step(s, Healthy(id));
      && Counter(n, id) == 0 && n.tickets == s.tickets && n.notices == s.notices && n.shown == s.shown
      && forall other :: other != id ==> Counter(n, other) == Counter(s, other)
  {
  }

  /** What VESSEL makes of a ticket it fails or escalates, and whom its notice names. */
  lemma VesselMarks(s: State, id: string, why: string)
    requires Known(s, id)
    ensures
      var t := TicketOf(s, id);
      var worker := if t.status.Open? then "vessel" else t.status.worker;
      var failed, escalated := Step(s, VesselFails(id, why)), Step(s, VesselEscalates(id, why));
      && Known(failed, id) && Known(escalated, id)
      && TicketOf(failed, id) == Ticket(id, Failed("vessel", why, t.attempts + 1), t.issueUrl, t.attempts + 1)
      && TicketOf(escalated, id)
         == Ticket(id, AwaitingHuman(worker, why, t.attempts + 1), t.issueUrl, t.attempts + 1)
      && failed.notices == s.notices && escalated.notices == s.notices + [Notice(id, worker, why, t.issueUrl)]
  {
    var k := Place(s.tickets, id);
    PlaceAfterUpdate(s.tickets, k, ByVessel(s.tickets[k], why, true), id);
    PlaceAfterUpdate(s.tickets, k, ByVessel(s.tickets[k], why, false), id);
  }
}
