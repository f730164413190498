/**
 The ticket and worker-slot scheduler of NEXUS: orphan recovery, detection of inconsistencies,
 the scheduling decision and its commit.
 */
module Scheduler {
  import opened Text
  import opened Fleet

  // ----- recover_orphans, as a function of the store and of what the outside world answers -----

  /** `done`: tickets whose lifecycle reads as finished. `stuck`: workspaces whose deletion fails in this pass. */
  datatype World = World(done: set<string>, stuck: set<string>)

  predicate WorkerMissing(t: Ticket, slots: Slots) {
    (t.status.Assigned? || t.status.InProgress?) && t.status.worker !in slots
  }

  function RecoveredTicket(t: Ticket, slots: Slots): Ticket {
    if WorkerMissing(t, slots) then t.(status := Open) else t
  }

  function RecoveredTickets(tickets: seq<Ticket>, slots: Slots): seq<Ticket> {
    seq(|tickets|, i requires 0 <= i < |tickets| => RecoveredTicket(tickets[i], slots))
  }

  predicate HasTerminal(tickets: seq<Ticket>, id: string) {
    exists t :: t in tickets && t.id == id && IsTerminal(t.status)
  }

  predicate HasOpen(tickets: seq<Ticket>, id: string) {
    exists t :: t in tickets && t.id == id && t.status.Open?
  }

  /** The slot's ticket is finished, or a busy slot's ticket went back to Open. */
  predicate Recyclable(status: WorkerStatus, tickets: seq<Ticket>, done: set<string>) {
    match status
    case Suspended(id, _, _) => HasTerminal(tickets, id) || id in done
    case Reserved(id, _) => HasTerminal(tickets, id) || id in done || HasOpen(tickets, id)
    case Working(id, _) => HasTerminal(tickets, id) || id in done || HasOpen(tickets, id)
    case _ => false
  }

  predicate Deletable(workspace: Option<string>, w: World) {
    workspace.None? || workspace.value !in w.stuck
  }

  function RecoveredSlot(slot: WorkerSlot, tickets: seq<Ticket>, w: World): WorkerSlot {
    if Recyclable(slot.status, tickets, w.done) && Deletable(slot.workspace, w)
    then slot.(status := Idle, workspace := None) else slot
  }

  function RecoveredSlots(slots: Slots, tickets: seq<Ticket>, w: World): Slots {
    map id | id in slots :: RecoveredSlot(slots[id], tickets, w)
  }

  datatype State = State(tickets: seq<Ticket>, slots: Slots)

  /** The slot loop sees the tickets already reset by the ticket loop. */
  function Recovered(s: State, w: World): State {
    var tickets := RecoveredTickets(s.tickets, s.slots);
    State(tickets, RecoveredSlots(s.slots, tickets, w))
  }

  // ----- exec and post -----

  datatype Decision =
    | WorkAssigned(ticket: string, worker: string, url: Option<string>)
    | ReworkAssigned(ticket: string, worker: string)
    | SentinelSpawned
    | MergePrs
    | NoWork
    | Pause

  /** What `prep` hands to `exec`; `slots` lists the slot values in the map's arbitrary order. */
  datatype Context = Context(
    assignable: seq<Ticket>, slots: seq<WorkerSlot>, rework: Option<(string, string)>,
    reviewPending: bool, openPrs: bool)

  function Workers(slots: seq<WorkerSlot>, busy: bool): (ids: seq<string>)
    ensures forall id :: id in ids <==> exists s ::
              s in slots && s.id == id && IsForge(s.id) && (if busy then Bound(s.status).Some? else s.status.Idle?)
  {
    if slots == [] then []
    else
      var rest := Workers(slots[1..], busy);
      if IsForge(slots[0].id) && (if busy then Bound(slots[0].status).Some? else slots[0].status.Idle?)
      then [slots[0].id] + rest else rest
  }

  function Exec(c: Context): Decision {
    var idle, busy := Workers(c.slots, false), Workers(c.slots, true);
    if c.rework.Some? then ReworkAssigned(c.rework.value.0, c.rework.value.1)
    else if c.reviewPending then SentinelSpawned
    else if c.openPrs then MergePrs
    else if c.assignable == [] && idle == [] && busy == [] then NoWork
    else if idle == [] || c.assignable == [] then Pause
    else WorkAssigned(c.assignable[0].id, idle[0], c.assignable[0].issueUrl)
  }

  function TicketIndex(tickets: seq<Ticket>, id: string): (i: Option<nat>)
    ensures i.Some? ==> i.value < |tickets| && tickets[i.value].id == id
    ensures i.None? ==> forall t :: t in tickets ==> t.id != id
  {
    if tickets == [] then None
    else if tickets[0].id == id then Some(0)
    else match TicketIndex(tickets[1..], id) case None => None case Some(k) => Some(k + 1)
  }

  function Committed(s: State, d: Decision): State {
    match d
    case WorkAssigned(id, worker, url) =>
      var i := TicketIndex(s.tickets, id);
      State(
        if i.Some? then
          var t := s.tickets[i.value];
          s.tickets[i.value := t.(status := Assigned(worker), issueUrl := if url.Some? then url else t.issueUrl)]
        else s.tickets + [Ticket(id, Assigned(worker), url, 0)],
        if worker in s.slots then s.slots[worker := s.slots[worker].(status := Reserved(id, url))] else s.slots)
    case ReworkAssigned(id, worker) =>
      var i := TicketIndex(s.tickets, id);
      State(
        if i.Some? then s.tickets[i.value := s.tickets[i.value].(status := Assigned(worker))] else s.tickets,
        if worker in s.slots then s.slots[worker := s.slots[worker].(status := Reserved(id, None))] else s.slots)
    case _ => s
  }

  /** `post`: orphan recovery on every pass, then the commit of the decision taken before it. */
  function Posted(s: State, w: World, d: Decision): State {
    Committed(Recovered(s, w), d)
  }

  // ----- reconcile -----

  datatype Orphan = Orphan(ticket: string, worker: string, missing: bool)

  datatype StaleReason = TicketGone | TicketTerminal | TicketTerminalSuspended

  datatype Stale = Stale(worker: string, ticket: string, reason: StaleReason)

  /** Ticket `t` names a worker that has no slot, or whose slot is idle, and `o` says so. */
  predicate ReportsOrphan(t: Ticket, slots: Slots, o: Orphan) {
    && (t.status.Assigned? || t.status.InProgress?)
    && o.ticket == t.id && o.worker == t.status.worker
    && if o.missing then o.worker !in slots else o.worker in slots && slots[o.worker].status.Idle?
  }

  function OrphanOf(t: Ticket, slots: Slots): (r: Option<Orphan>)
    ensures forall o :: r == Some(o) <==> ReportsOrphan(t, slots, o)
  {
    if !(t.status.Assigned? || t.status.InProgress?) then None
    else if t.status.worker !in slots then Some(Orphan(t.id, t.status.worker, true))
    else if slots[t.status.worker].status.Idle? then Some(Orphan(t.id, t.status.worker, false))
    else None
  }

  /** The first ticket with this id has finished. */
  ghost predicate FirstIsTerminal(tickets: seq<Ticket>, id: string) {
    exists i :: 0 <= i < |tickets| && tickets[i].id == id && IsTerminal(tickets[i].status)
                && forall k :: 0 <= k < i ==> tickets[k].id != id
  }

  /** The slot works on a ticket that is gone or finished, or waits for one that is finished, and `x` says so. */
  ghost predicate ReportsStale(slot: WorkerSlot, tickets: seq<Ticket>, x: Stale) {
    && x.worker == slot.id
    && match x.reason
       case TicketGone => Bound(slot.status) == Some(x.ticket) && forall t :: t in tickets ==> t.id != x.ticket
       case TicketTerminal => Bound(slot.status) == Some(x.ticket) && FirstIsTerminal(tickets, x.ticket)
       case TicketTerminalSuspended =>
         slot.status.Suspended? && slot.status.ticket == x.ticket
         && exists t :: t in tickets && t.id == x.ticket && IsTerminal(t.status)
  }

  function StaleOf(slot: WorkerSlot, tickets: seq<Ticket>): Option<Stale> {
    match slot.status
    case Suspended(id, _, _) =>
      if HasTerminal(tickets, id) then Some(Stale(slot.id, id, TicketTerminalSuspended)) else None
    case _ =>
      if Bound(slot.status).None? then None
      else
        var id := Bound(slot.status).value;
        var i := TicketIndex(tickets, id);
        if i.None? then Some(Stale(slot.id, id, TicketGone))
        else if IsTerminal(tickets[i.value].status) then Some(Stale(slot.id, id, TicketTerminal))
        else None
  }

  lemma TicketIndexIsFirst(tickets: seq<Ticket>, id: string)
    requires TicketIndex(tickets, id).Some?
    ensures forall k :: 0 <= k < TicketIndex(tickets, id).value ==> tickets[k].id != id
  {
    if tickets[0].id != id {
      TicketIndexIsFirst(tickets[1..], id);
    }
  }

  lemma TerminalIsFirst(tickets: seq<Ticket>, id: string)
    ensures FirstIsTerminal(tickets, id)
            <==> TicketIndex(tickets, id).Some? && IsTerminal(tickets[TicketIndex(tickets, id).value].status)
  {
    if TicketIndex(tickets, id).Some? {
      TicketIndexIsFirst(tickets, id);
    } else {
      assert forall i :: 0 <= i < |tickets| ==> tickets[i] in tickets;
    }
  }

  lemma StaleIsReported(slot: WorkerSlot, tickets: seq<Ticket>, x: Stale)
    ensures StaleOf(slot, tickets) == Some(x) <==> ReportsStale(slot, tickets, x)
  {
    TerminalIsFirst(tickets, x.ticket);
    if Bound(slot.status) == Some(x.ticket) && TicketIndex(tickets, x.ticket).Some? {
      assert tickets[TicketIndex(tickets, x.ticket).value] in tickets;
    }
  }

  method Reconcile(tickets: seq<Ticket>, slots: Slots) returns (orphans: seq<Orphan>, stale: set<Stale>)
    ensures forall o :: o in orphans <==> exists t :: t in tickets && ReportsOrphan(t, slots, o)
    ensures forall x :: x in stale <==> exists w :: w in slots && ReportsStale(slots[w], tickets, x)
  {
    orphans := [];
    for i := 0 to |tickets|
      invariant forall o :: o in orphans <==> exists k :: 0 <= k < i && OrphanOf(tickets[k], slots) == Some(o)
    {
      var o := OrphanOf(tickets[i], slots);
      if o.Some? {
        orphans := orphans + [o.value];
      }
    }
    stale := {};
    var todo := slots.Keys;
    while todo != {}
      invariant todo <= slots.Keys
      invariant forall x :: x in stale <==> exists w :: w in slots.Keys - todo && StaleOf(slots[w], tickets) == Some(x)
      decreases todo
    {
      var w :| w in todo;
      var x := StaleOf(slots[w], tickets);
      todo := todo - {w};
      if x.Some? {
        stale := stale + {x.value};
      }
    }
    forall w, x | w in slots ensures StaleOf(slots[w], tickets) == Some(x) <==> ReportsStale(slots[w], tickets, x) {
      StaleIsReported(slots[w], tickets, x);
    }
  }

  // ----- the controller's store operations -----

  class Controller {
    var tickets: seq<Ticket>
    var slots: Slots

    ghost function Store(): State
      reads this
    {
      State(tickets, slots)
    }

    constructor (tickets: seq<Ticket>, slots: Slots)
      ensures Store() == State(tickets, slots)
    {
      this.tickets, this.slots := tickets, slots;
    }

    method RecoverOrphans(w: World)
      modifies this
      ensures Store() == Recovered(old(Store()), w)
    {
      var ts, ss := tickets, slots;
      var changedTickets, changedSlots := false, false;
      for i := 0 to |ts|
        invariant |ts| == |tickets| && ss == slots && unchanged(this)
        invariant forall k :: 0 <= k < i ==> ts[k] == RecoveredTicket(tickets[k], slots)
        invariant forall k :: i <= k < |ts| ==> ts[k] == tickets[k]
        invariant !changedTickets ==> ts == tickets
      {
        if WorkerMissing(ts[i], ss) {
          ts := ts[i := ts[i].(status := Open)];
          changedTickets := true;
        }
      }
      assert ts == RecoveredTickets(tickets, slots);

      var todo := ss.Keys;
      while todo != {}
        invariant todo <= ss.Keys == slots.Keys && unchanged(this)
        invariant forall id :: id in slots ==>
                    ss[id] == if id in todo then slots[id] else RecoveredSlot(slots[id], ts, w)
        invariant !changedSlots ==> ss == slots
        decreases todo
      {
        var id :| id in todo;
        todo := todo - {id};
        var slot := ss[id];
        if Recyclable(slot.status, ts, w.done) {
          if slot.workspace.Some? && slot.workspace.value in w.stuck {
            continue;
          }
          ss := ss[id := slot.(status := Idle, workspace := None)];
          changedSlots := true;
        }
      }

      if changedTickets {
        tickets := ts;
      }
      if changedSlots {
        slots := ss;
      }
    }

    method Post(w: World, d: Decision)
      modifies this
      ensures Store() == Posted(old(Store()), w, d)
    {
      RecoverOrphans(w);
      match d
      case WorkAssigned(id, worker, url) =>
        var i := TicketIndex(tickets, id);
        if i.Some? {
          var t := tickets[i.value];
          tickets := tickets[i.value := t.(status := Assigned(worker),
             issueUrl := if url.Some? then url else t.issueUrl)];
        } else {
          tickets := tickets + [Ticket(id, Assigned(worker), url, 0)];
        }
        if worker in slots {
          slots := slots[worker := slots[worker].(status := Reserved(id, url))];
        }
      case ReworkAssigned(id, worker) =>
        var i := TicketIndex(tickets, id);
        if i.Some? {
          tickets := tickets[i.value := tickets[i.value].(status := Assigned(worker))];
        }
        if worker in slots {
          slots := slots[worker := slots[worker].(status := Reserved(id, None))];
        }
      case _ =>
    }

    /**
     `release_worker_slot`. `meanwhile` is the slot map re-read after the deletion call returned; it may
     already carry a replacement workspace, which must survive.
     */
    method ReleaseWorkerSlot(worker: string, w: World, meanwhile: Slots) returns (deleted: Option<string>)
      modifies this
      ensures tickets == old(tickets)
      ensures deleted == if worker in old(slots) && Deletable(old(slots)[worker].workspace, w)
                         then old(slots)[worker].workspace else None
      ensures worker !in old(slots)
              || (old(slots)[worker].status.Idle? && old(slots)[worker].workspace.None?)
              || !Deletable(old(slots)[worker].workspace, w)
              ==> slots == old(slots)
      ensures worker in old(slots)
              && !(old(slots)[worker].status.Idle? && old(slots)[worker].workspace.None?)
              && Deletable(old(slots)[worker].workspace, w)
              ==> slots == Released(meanwhile, worker, old(slots)[worker].workspace)
    {
      deleted := None;
      if worker !in slots {
        return;
      }
      var slot := slots[worker];
      if slot.status.Idle? && slot.workspace.None? {
        return;
      }
      if slot.workspace.Some? {
        if slot.workspace.value in w.stuck {
          return;
        }
        deleted := slot.workspace;
      }
      slots := meanwhile;
      if worker in slots {
        var now := slots[worker];
        if now.workspace == slot.workspace || (slot.workspace.Some? && now.workspace.None?) {
          slots := slots[worker := now.(status := Idle, workspace := None)];
        }
      }
    }
  }

  function Released(slots: Slots, worker: string, expected: Option<string>): (r: Slots)
    ensures r.Keys == slots.Keys && forall v :: v in slots && v != worker ==> r[v] == slots[v]
    ensures worker in slots && slots[worker].workspace.Some? && slots[worker].workspace != expected ==> r == slots
    ensures worker in slots && slots[worker].workspace == expected ==>
              r[worker] == WorkerSlot(slots[worker].id, Idle, None)
    ensures worker in slots && slots[worker].workspace.None? && expected.Some? ==>
              r[worker] == WorkerSlot(slots[worker].id, Idle, None)
  {
    if worker in slots && (slots[worker].workspace == expected || (expected.Some? && slots[worker].workspace.None?))
    then slots[worker := slots[worker].(status := Idle, workspace := None)] else slots
  }
}
