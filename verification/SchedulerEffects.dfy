/** What one pass of the scheduler does to each ticket and slot, said of the store it found. */
module SchedulerEffects {
  import opened Text
  import opened Fleet
  import opened Scheduler
  import opened Assignment

  // ----- recovery repairs what is broken and leaves the rest alone -----

  /** The ticket is handed out to a worker that has no slot. */
  predicate Orphaned(t: Ticket, slots: Slots) {
    (t.status.Assigned? || t.status.InProgress?) && t.status.worker !in slots
  }

  /** A ticket is reset to Open exactly if its worker has no slot; every other ticket stays as it is. */
  lemma RecoveryResetsOnlyOrphans(s: State, w: World)
    ensures
      var tickets := Recovered(s, w).tickets;
      && |tickets| == |s.tickets|
      && forall i :: 0 <= i < |tickets| ==>
           var t := s.tickets[i];
           tickets[i] == if (t.status.Assigned? || t.status.InProgress?) && t.status.worker !in s.slots
                         then Ticket(t.id, Open, t.issueUrl, t.attempts) else t
  {
  }

  /** Nothing more will happen to the ticket: merged, exhausted, failed for good, or completed without a PR. */
  predicate Over(t: Ticket) {
    match t.status
    case Merged(_, _) => true
    case Exhausted(_, _) => true
    case Failed(_, _, attempts) => attempts >= 3
    case Completed(_, outcome) => outcome != "pr_opened"
    case _ => false
  }

  /** The ticket the slot is kept for is over, or, if the slot works on it, Open or orphaned. */
  ghost predicate KeptInVain(slot: WorkerSlot, s: State, done: set<string>) {
    && (slot.status.Reserved? || slot.status.Working? || slot.status.Suspended?)
    && (|| slot.status.ticket in done
        || (exists t :: t in s.tickets && t.id == slot.status.ticket && Over(t))
        || (!slot.status.Suspended?
            && exists t :: t in s.tickets && t.id == slot.status.ticket && (t.status.Open? || Orphaned(t, s.slots))))
  }

  lemma TerminalBefore(s: State, w: World, id: string)
    ensures HasTerminal(Recovered(s, w).tickets, id) <==> exists t :: t in s.tickets && t.id == id && Over(t)
  {
    var tickets := Recovered(s, w).tickets;
    if t :| t in s.tickets && t.id == id && Over(t) {
      var i :| 0 <= i < |s.tickets| && s.tickets[i] == t;
      assert tickets[i] == t;
    }
    if HasTerminal(tickets, id) {
      var t :| t in tickets && t.id == id && IsTerminal(t.status);
      var i :| 0 <= i < |tickets| && tickets[i] == t;
      assert s.tickets[i] == t && s.tickets[i] in s.tickets;
    }
  }

  lemma OpenBefore(s: State, w: World, id: string)
    ensures HasOpen(Recovered(s, w).tickets, id)
            <==> exists t :: t in s.tickets && t.id == id && (t.status.Open? || Orphaned(t, s.slots))
  {
    var tickets := Recovered(s, w).tickets;
    if t :| t in s.tickets && t.id == id && (t.status.Open? || Orphaned(t, s.slots)) {
      var i :| 0 <= i < |s.tickets| && s.tickets[i] == t;
      assert tickets[i].id == id && tickets[i].status.Open? && tickets[i] in tickets;
    }
    if HasOpen(tickets, id) {
      var t :| t in tickets && t.id == id && t.status.Open?;
      var i :| 0 <= i < |tickets| && tickets[i] == t;
      assert s.tickets[i] in s.tickets;
    }
  }

  /** A slot becomes idle and empty exactly if it is kept in vain and its workspace, if any, could be deleted. */
  lemma RecoveryFreesExactly(s: State, w: World, id: string)
    requires id in s.slots
    ensures
      var slot := s.slots[id];
      && Recovered(s, w).slots.Keys == s.slots.Keys
      && Recovered(s, w).slots[id]
         == if KeptInVain(slot, s, w.done) && (slot.workspace.Some? ==> slot.workspace.value !in w.stuck)
            then WorkerSlot(slot.id, Idle, None) else slot
  {
    var slot := s.slots[id];
    if !slot.status.Idle? {
      TerminalBefore(s, w, slot.status.ticket);
      OpenBefore(s, w, slot.status.ticket);
    }
  }

  /** Healthy work is left alone: a busy slot stays as it is while its ticket is handed out to an existing slot. */
  lemma RecoveryKeepsHealthyWork(s: State, w: World, id: string)
    requires id in s.slots && (s.slots[id].status.Reserved? || s.slots[id].status.Working?)
    requires s.slots[id].status.ticket !in w.done
    requires forall t :: t in s.tickets && t.id == s.slots[id].status.ticket ==>
               (t.status.Assigned? || t.status.InProgress?) && t.status.worker in s.slots
    ensures Recovered(s, w).slots[id] == s.slots[id]
    ensures forall i :: 0 <= i < |s.tickets| && s.tickets[i].id == s.slots[id].status.ticket ==>
              Recovered(s, w).tickets[i] == s.tickets[i]
  {
    RecoveryFreesExactly(s, w, id);
    RecoveryResetsOnlyOrphans(s, w);
    assert forall i :: 0 <= i < |s.tickets| ==> s.tickets[i] in s.tickets;
  }

  // ----- the decision -----

  ghost predicate HasForge(slots: seq<WorkerSlot>, busy: bool) {
    exists x :: x in slots && IsForge(x.id)
                && if busy then x.status.Reserved? || x.status.Working? else x.status.Idle?
  }

  lemma WorkersExist(slots: seq<WorkerSlot>, busy: bool)
    ensures Workers(slots, busy) != [] <==> HasForge(slots, busy)
  {
    if Workers(slots, busy) != [] {
      assert Workers(slots, busy)[0] in Workers(slots, busy);
    }
    if HasForge(slots, busy) {
      var x :| x in slots && IsForge(x.id)
               && if busy then x.status.Reserved? || x.status.Working? else x.status.Idle?;
      assert x.id in Workers(slots, busy);
    }
  }

  /**
   The decision of a pass: rework first, then a review to deliver, then pull requests; otherwise the first
   assignable ticket goes to some idle forge slot as soon as there is one of each, and a pass without any ticket
   and without any forge at work or idle is the only one that finds no work.
   */
  lemma DecisionTable(c: Context)
    ensures
      var d := Exec(c);
      var free := c.rework.None? && !c.reviewPending && !c.openPrs;
      && (c.rework.Some? <==> d.ReworkAssigned?)
      && (d.ReworkAssigned? ==> (d.ticket, d.worker) == c.rework.value)
      && (d.SentinelSpawned? <==> c.rework.None? && c.reviewPending)
      && (d.MergePrs? <==> c.rework.None? && !c.reviewPending && c.openPrs)
      && (d.WorkAssigned? <==> free && c.assignable != [] && HasForge(c.slots, false))
      && (d.WorkAssigned? ==>
            && d.ticket == c.assignable[0].id && d.url == c.assignable[0].issueUrl
            && exists x :: x in c.slots && x.id == d.worker && IsForge(x.id) && x.status.Idle?)
      && (d.NoWork? <==> free && c.assignable == [] && !HasForge(c.slots, false) && !HasForge(c.slots, true))
  {
    WorkersExist(c.slots, false);
    WorkersExist(c.slots, true);
    if Workers(c.slots, false) != [] {
      assert Workers(c.slots, false)[0] in Workers(c.slots, false);
    }
  }

  // ----- the commit -----

  /**
   A commit hands its first ticket of that id and its slot to each other, and changes nothing else in the store
   that recovery left; an unknown ticket is added by new work and ignored by rework.
   */
  lemma CommitChangesOnlyItsPair(s: State, w: World, d: Decision)
    requires d.WorkAssigned? || d.ReworkAssigned?
    ensures
      var m, n := Recovered(s, w), Posted(s, w, d);
      var url := if d.WorkAssigned? then d.url else None;
      && n.slots.Keys == m.slots.Keys
      && (forall v :: v in m.slots ==>
            n.slots[v] == if v == d.worker then m.slots[v].(status := Reserved(d.ticket, url)) else m.slots[v])
      && (forall i :: 0 <= i < |m.tickets| ==>
            i < |n.tickets|
            && if m.tickets[i].id == d.ticket && (forall k :: 0 <= k < i ==> m.tickets[k].id != d.ticket)
               then n.tickets[i] == m.tickets[i].(status := Assigned(d.worker),
                                                 issueUrl := if url.Some? then url else m.tickets[i].issueUrl)
               else n.tickets[i] == m.tickets[i])
      && n.tickets[|m.tickets|..]
         == if d.WorkAssigned? && (forall t :: t in m.tickets ==> t.id != d.ticket)
            then [Ticket(d.ticket, Assigned(d.worker), d.url, 0)] else []
  {
    var m := Recovered(s, w);
    var k := TicketIndex(m.tickets, d.ticket);
    if k.Some? {
      TicketIndexIsFirst(m.tickets, d.ticket);
      assert m.tickets[k.value] in m.tickets;
    } else {
      assert forall i :: 0 <= i < |m.tickets| ==> m.tickets[i] in m.tickets;
    }
  }

  /** Every other decision leaves the store as recovery left it. */
  lemma OtherDecisionsOnlyRecover(s: State, w: World, d: Decision)
    requires !d.WorkAssigned? && !d.ReworkAssigned?
    ensures Posted(s, w, d) == Recovered(s, w)
  {
  }

  /**
   An idle forge slot and an assignable ticket are brought together: unless rework, a review or pull requests come
   first, the pass assigns the first assignable ticket to an idle forge slot, and the store says so on both sides.
   */
  lemma IdleForgeGetsWork(s: State, c: Context, w: World, v: string)
    requires Keyed(s.slots) && ContextOf(s, c) && c.rework.None? && !c.reviewPending && !c.openPrs
    requires c.assignable != [] && v in s.slots && IsForge(v) && s.slots[v].status.Idle?
    ensures
      var n := Posted(s, w, Exec(c));
      var t := c.assignable[0];
      exists x :: x in s.slots && IsForge(x) && s.slots[x].status.Idle?
                  && n.slots[x].status == Reserved(t.id, t.issueUrl)
                  && exists i :: 0 <= i < |n.tickets| && n.tickets[i].id == t.id && n.tickets[i].status == Assigned(x)
  {
    assert s.slots[v] in c.slots;
    DecisionTable(c);
    AssignmentIsMutual(s, c, w);
    DecisionSurvivesRecovery(s, c, w);
    var d := Exec(c);
    var n := Posted(s, w, d);
    assert n.tickets[TicketIndex(n.tickets, d.ticket).value].id == d.ticket;
  }

  // ----- tickets that failed, and the other writers -----

  /** A failed ticket is handed out again below three attempts and is over from then on; no ticket is ever both. */
  lemma FailedIsRetriedOrOver(t: Ticket)
    ensures t.status.Failed? ==> (IsAssignable(t) <==> t.status.attempts < 3) && (Over(t) <==> !IsAssignable(t))
    ensures IsTerminal(t.status) <==> Over(t)
    ensures IsAssignable(t) ==> !Over(t) && (t.status.Open? || t.status.Failed?)
    ensures t.status.Open? ==> IsAssignable(t)
  {
  }

  /**
   After a merge, every busy or done slot of the merged ticket is idle and empty, a suspended one only loses its
   workspace, and every slot of another ticket stays as it is.
   */
  lemma MergeFreesItsSlots(s: State, ticket: string, worker: Option<string>, w: string)
    requires w in s.slots && !s.slots[w].status.Idle?
    ensures
      var n := Step(s, AfterMerge(Some(ticket), worker));
      var slot := s.slots[w];
      && n.tickets == s.tickets && w in n.slots
      && n.slots[w] == if slot.status.ticket != ticket then slot
                       else WorkerSlot(slot.id, if slot.status.Suspended? then slot.status else Idle, None)
  {
  }

  /** A workspace that is forgotten is in no slot, and one that is provisioned is in its worker's. */
  lemma WorkspacesComeAndGo(s: State, workspace: string, w: string)
    requires w in s.slots
    ensures
      var n := Step(s, Forget(workspace));
      && n.tickets == s.tickets && w in n.slots && n.slots[w].workspace != Some(workspace)
      && n.slots[w] == WorkerSlot(s.slots[w].id, s.slots[w].status,
                                  if s.slots[w].workspace == Some(workspace) then None else s.slots[w].workspace)
    ensures !s.slots[w].status.Idle? ==>
              Step(s, Provision(w, workspace))
              == State(s.tickets, s.slots[w := WorkerSlot(s.slots[w].id, s.slots[w].status, Some(workspace))])
  {
  }

  /**
   The slot VESSEL takes keeps its workspace and is reserved for the ticket, with the link of the ticket it was
   idle for or done with; only a CI fix marks the ticket.
   */
  lemma VesselReserves(s: State, recorded: string, branch: string, pick: string, i: nat, ciFix: bool)
    requires VesselPicks(s.slots, NamedWorker(recorded, branch), pick) && s.slots[pick].status.Idle?
    requires i < |s.tickets| && forall k :: 0 <= k < i ==> s.tickets[k].id != s.tickets[i].id
    ensures
      var t := s.tickets[i];
      Step(s, Vessel(recorded, branch, pick, t.id, ciFix))
      == State(if ciFix && !t.status.InProgress? then s.tickets[i := t.(status := InProgress(pick))] else s.tickets,
               s.slots[pick := s.slots[pick].(status := Reserved(t.id, t.issueUrl))])
  {
    var t := s.tickets[i];
    assert t in s.tickets;
    TicketIndexIsFirst(s.tickets, t.id);
  }

  /** Without a named slot VESSEL also takes a forge slot that is done, with the link of the ticket it was done with. */
  lemma VesselTakesDoneSlot(s: State, branch: string, pick: string, ticket: string, i: nat)
    requires '/' !in branch && pick in s.slots && "forge-" <= pick && s.slots[pick].status.Done?
    requires i < |s.tickets| && s.tickets[i].id == s.slots[pick].status.ticket
    requires forall k :: 0 <= k < i ==> s.tickets[k].id != s.tickets[i].id
    ensures Step(s, Vessel("", branch, pick, ticket, false)).slots
         == s.slots[pick := s.slots[pick].(status := Reserved(ticket, s.tickets[i].issueUrl))]
  {
    assert s.tickets[i] in s.tickets;
    TicketIndexIsFirst(s.tickets, s.tickets[i].id);
  }

  /**
   At the command gate, a suspended slot that is approved goes on with its own ticket and link, and any slot that is
   rejected is idle and keeps its workspace.
   */
  lemma GateDecides(s: State, w: string)
    requires w in s.slots
    ensures
      var slot := s.slots[w];
      && (slot.status.Suspended? ==>
            Step(s, Approve(w))
            == State(s.tickets, s.slots[w := slot.(status := Reserved(slot.status.ticket, slot.status.url))]))
      && Step(s, Reject(w)) == State(s.tickets, s.slots[w := WorkerSlot(slot.id, Idle, slot.workspace)])
  {
  }

  /** After a merge, an idle slot loses its workspace exactly if it is the worker of the merged branch. */
  lemma MergeEmptiesItsIdleWorker(s: State, ticket: Option<string>, worker: Option<string>, w: string)
    requires w in s.slots && s.slots[w].status.Idle?
    ensures
      var n := Step(s, AfterMerge(ticket, worker)).slots;
      w in n && n[w] == if worker == Some(s.slots[w].id) then s.slots[w].(workspace := None) else s.slots[w]
  {
  }

  /** VESSEL's worker is the recorded one; without a record the branch names it before its first slash. */
  lemma WorkerIsNamed(recorded: string, prefix: string, rest: string)
    requires '/' !in prefix
    ensures recorded != "" ==> NamedWorker(recorded, prefix + "/" + rest) == Some(recorded)
    ensures NamedWorker("", prefix + "/" + rest) == Some(prefix) && NamedWorker("", prefix) == None
  {
    var branch := prefix + "/" + rest;
    assert branch[|prefix|] == '/' && branch[..|prefix|] == prefix;
    SlashIsFirst(branch, |prefix|);
  }
}
