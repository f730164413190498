/** What the scheduler guarantees: repair agrees with detection, and no ticket is worked on by two forges. */
module Assignment {
  import opened Text
  import opened Fleet
  import opened Scheduler

  // ----- repair agrees with detection -----

  /** After recovery, detection finds no ticket whose worker slot is missing. */
  lemma NoMissingWorkerAfterRecovery(s: State, w: World, t: Ticket)
    requires t in Recovered(s, w).tickets
    ensures var o := OrphanOf(t, Recovered(s, w).slots); o.Some? ==> !o.value.missing
  {
    var i :| 0 <= i < |s.tickets| && t == RecoveredTicket(s.tickets[i], s.slots);
  }

  /**
   After recovery, the only stale workers detection reports are those whose ticket no longer exists and
   those that recovery wanted to recycle but whose workspace could not be deleted.
   */
  lemma StaleAfterRecoveryIff(s: State, w: World, id: string)
    requires id in s.slots
    ensures var s' := Recovered(s, w);
            var reported := StaleOf(s'.slots[id], s'.tickets);
            (reported.Some? && reported.value.reason != TicketGone)
            <==> (StaleOf(s.slots[id], s'.tickets).Some?
                  && StaleOf(s.slots[id], s'.tickets).value.reason != TicketGone
                  && !Deletable(s.slots[id].workspace, w))
  {
    var tickets := Recovered(s, w).tickets;
    if Bound(s.slots[id].status).Some? {
      var i := TicketIndex(tickets, Bound(s.slots[id].status).value);
      if i.Some? {
        assert tickets[i.value] in tickets;
      }
    }
  }

  /** A failed deletion leaves the slot exactly as it was: same status, same workspace. */
  lemma FailedDeletionKeepsSlot(s: State, w: World, id: string)
    requires id in s.slots && !Deletable(s.slots[id].workspace, w)
    ensures Recovered(s, w).slots[id] == s.slots[id]
  {
  }

  /** Recovering twice against the same outside world changes nothing more. */
  lemma RecoveryIsIdempotent(s: State, w: World)
    ensures Recovered(Recovered(s, w), w) == Recovered(s, w)
  {
    var s' := Recovered(s, w);
    forall id | id in s.slots ensures RecoveredSlot(s'.slots[id], s'.tickets, w) == s'.slots[id] {
    }
  }

  // ----- assignment exclusivity -----

  ghost predicate BoundForge(slots: Slots, w: string, ticket: string) {
    w in slots && IsForge(w) && Bound(slots[w].status) == Some(ticket)
  }

  /** No ticket is bound to two forge slots. */
  ghost predicate Exclusive(slots: Slots) {
    forall v, w, t :: BoundForge(slots, v, t) && BoundForge(slots, w, t) ==> v == w
  }

  ghost predicate DistinctIds(tickets: seq<Ticket>) {
    forall i, j :: 0 <= i < j < |tickets| ==> tickets[i].id != tickets[j].id
  }

  /** A ticket that still holds a forge slot is assignable only if it went back to Open. */
  ghost predicate HeldOnlyOpen(s: State) {
    forall t, w :: t in s.tickets && BoundForge(s.slots, w, t.id) && IsAssignable(t) ==> t.status.Open?
  }

  /** What `prep` may hand over for store `s`: assignable tickets of the store, its slots, a rework choice. */
  ghost predicate ContextOf(s: State, c: Context) {
    && (forall t :: t in c.assignable ==> t in s.tickets && IsAssignable(t))
    && (forall x :: x in c.slots <==> x.id in s.slots && s.slots[x.id] == x)
    && (c.rework.Some? ==>
          var (t, w) := c.rework.value;
          w in s.slots && IsForge(w)
          && (BoundForge(s.slots, w, t) || (s.slots[w].status.Idle? && forall v :: !BoundForge(s.slots, v, t))))
  }

  ghost predicate Inv(s: State) {
    Keyed(s.slots) && DistinctIds(s.tickets) && Exclusive(s.slots) && HeldOnlyOpen(s)
  }

  lemma RecoveryOnlyUnbinds(s: State, w: World, v: string, t: string)
    requires BoundForge(Recovered(s, w).slots, v, t)
    ensures BoundForge(s.slots, v, t) && Recovered(s, w).slots[v] == s.slots[v]
  {
  }

  lemma RecoveryKeepsExclusive(s: State, w: World)
    requires Exclusive(s.slots)
    ensures Exclusive(Recovered(s, w).slots)
  {
    var s' := Recovered(s, w);
    forall u, v, t | BoundForge(s'.slots, u, t) && BoundForge(s'.slots, v, t) ensures u == v {
      RecoveryOnlyUnbinds(s, w, u, t);
      RecoveryOnlyUnbinds(s, w, v, t);
    }
  }

  lemma RecoveryKeepsHeld(s: State, w: World)
    requires HeldOnlyOpen(s)
    ensures HeldOnlyOpen(Recovered(s, w))
  {
    var s' := Recovered(s, w);
    forall t, v | t in s'.tickets && BoundForge(s'.slots, v, t.id) && IsAssignable(t) ensures t.status.Open? {
      var i :| 0 <= i < |s.tickets| && t == RecoveredTicket(s.tickets[i], s.slots);
      RecoveryOnlyUnbinds(s, w, v, t.id);
      assert s.tickets[i] in s.tickets;
    }
  }

  lemma RecoveryKeepsInv(s: State, w: World)
    requires Inv(s)
    ensures Inv(Recovered(s, w))
  {
    RecoveryKeepsExclusive(s, w);
    RecoveryKeepsHeld(s, w);
    var s' := Recovered(s, w);
    forall i, j | 0 <= i < j < |s'.tickets| ensures s'.tickets[i].id != s'.tickets[j].id {
      assert s.tickets[i].id != s.tickets[j].id;
    }
  }

  /** The decision hands an assignable ticket to an idle forge slot, and both are still so after recovery. */
  lemma DecisionSurvivesRecovery(s: State, c: Context, w: World)
    requires Keyed(s.slots) && ContextOf(s, c) && Exec(c).WorkAssigned?
    ensures var d := Exec(c);
            && d.worker in s.slots && IsForge(d.worker) && s.slots[d.worker].status.Idle?
            && Recovered(s, w).slots[d.worker] == s.slots[d.worker]
            && c.assignable[0].id == d.ticket && c.assignable[0] in Recovered(s, w).tickets
  {
    var d := Exec(c);
    assert d.worker in Workers(c.slots, false);
    var x :| x in c.slots && x.id == d.worker && IsForge(x.id) && x.status.Idle?;
    var t := c.assignable[0];
    assert t in c.assignable && t in s.tickets;
    var i :| 0 <= i < |s.tickets| && s.tickets[i] == t;
    assert Recovered(s, w).tickets[i] == t;
  }

  /** Every `work_assigned` pass leaves ticket and slot pointing at each other. */
  lemma AssignmentIsMutual(s: State, c: Context, w: World)
    requires Keyed(s.slots) && ContextOf(s, c) && Exec(c).WorkAssigned?
    ensures var d := Exec(c);
            var s' := Posted(s, w, d);
            && d.worker in s'.slots && TicketIndex(s'.tickets, d.ticket).Some?
            && s'.tickets[TicketIndex(s'.tickets, d.ticket).value].status == Assigned(d.worker)
            && s'.slots[d.worker].status == Reserved(d.ticket, d.url)
  {
    DecisionSurvivesRecovery(s, c, w);
    var d := Exec(c);
    var tickets := Recovered(s, w).tickets;
    var i := TicketIndex(tickets, d.ticket).value;
    IndexAfterUpdate(tickets, i, Posted(s, w, d).tickets[i], d.ticket);
  }

  lemma IndexAfterUpdate(tickets: seq<Ticket>, i: nat, t: Ticket, id: string)
    requires i < |tickets| && t.id == tickets[i].id
    ensures TicketIndex(tickets[i := t], id) == TicketIndex(tickets, id)
  {
    if i > 0 {
      assert tickets[i := t][1..] == tickets[1..][i - 1 := t];
      IndexAfterUpdate(tickets[1..], i - 1, t, id);
    }
  }

  /** After recovery, no other forge slot is still bound to the ticket about to be committed. */
  ghost predicate Frees(s: State, w: World, d: Decision)
    requires d.WorkAssigned? || d.ReworkAssigned?
  {
    forall v :: v != d.worker && BoundForge(s.slots, v, d.ticket) ==>
      Recyclable(s.slots[v].status, Recovered(s, w).tickets, w.done) && Deletable(s.slots[v].workspace, w)
  }

  /** Whatever happened since the decision, a commit keeps tickets exclusive exactly when recovery frees its ticket. */
  lemma CommitIsExclusiveIff(s: State, w: World, d: Decision)
    requires Exclusive(s.slots) && (d.WorkAssigned? || d.ReworkAssigned?) && d.worker in s.slots && IsForge(d.worker)
    ensures Exclusive(Posted(s, w, d).slots) <==> Frees(s, w, d)
  {
    var mid, n := Recovered(s, w), Posted(s, w, d);
    assert BoundForge(n.slots, d.worker, d.ticket);
    forall v, t | v != d.worker ensures BoundForge(n.slots, v, t) <==> BoundForge(mid.slots, v, t) {
    }
    forall v, t | BoundForge(mid.slots, v, t) ensures BoundForge(s.slots, v, t) {
      RecoveryOnlyUnbinds(s, w, v, t);
    }
    forall v | BoundForge(s.slots, v, d.ticket)
      ensures BoundForge(mid.slots, v, d.ticket)
              <==> !(Recyclable(s.slots[v].status, mid.tickets, w.done) && Deletable(s.slots[v].workspace, w))
    {
    }
  }

  /**
   One pass keeps exclusivity exactly when recovery could free every forge slot still bound to the ticket
   being assigned: its ticket is finished or Open again, and its workspace could be deleted.
   */
  lemma PassIsExclusiveIff(s: State, c: Context, w: World)
    requires Keyed(s.slots) && ContextOf(s, c) && Exclusive(s.slots) && Exec(c).WorkAssigned?
    ensures Exclusive(Posted(s, w, Exec(c)).slots) <==>
            forall v :: BoundForge(s.slots, v, Exec(c).ticket) ==>
              Recyclable(s.slots[v].status, Recovered(s, w).tickets, w.done) && Deletable(s.slots[v].workspace, w)
  {
    DecisionSurvivesRecovery(s, c, w);
    CommitIsExclusiveIff(s, w, Exec(c));
  }

  lemma WorkKeepsInv(s: State, c: Context, w: World)
    requires Inv(s) && ContextOf(s, c) && Exec(c).WorkAssigned? && w.stuck == {}
    ensures Inv(Posted(s, w, Exec(c)))
  {
    DecisionSurvivesRecovery(s, c, w);
    RecoveryKeepsInv(s, w);
    var d := Exec(c);
    var mid, s' := Recovered(s, w), Posted(s, w, d);
    var ticket := c.assignable[0];
    forall v | BoundForge(s.slots, v, d.ticket)
      ensures Recyclable(s.slots[v].status, mid.tickets, w.done) && Deletable(s.slots[v].workspace, w)
    {
      assert ticket in s.tickets && ticket.status.Open?;
      assert HasOpen(mid.tickets, d.ticket);
    }
    PassIsExclusiveIff(s, c, w);
    CommitKeepsHeld(mid, d);
  }

  /** Committing an assignment marks the ticket Assigned, so the newly held slot never holds an assignable ticket. */
  lemma CommitKeepsHeld(s: State, d: Decision)
    requires Keyed(s.slots) && DistinctIds(s.tickets) && HeldOnlyOpen(s) && (d.WorkAssigned? || d.ReworkAssigned?)
    ensures var s' := Committed(s, d); Keyed(s'.slots) && DistinctIds(s'.tickets) && HeldOnlyOpen(s')
  {
    var s' := Committed(s, d);
    var i := TicketIndex(s.tickets, d.ticket);
    forall t, v | t in s'.tickets && BoundForge(s'.slots, v, t.id) && IsAssignable(t) ensures t.status.Open? {
      assert t in s.tickets && t.id != d.ticket;
      assert BoundForge(s.slots, v, t.id);
    }
  }

  lemma ReworkKeepsInv(s: State, c: Context, w: World)
    requires Inv(s) && ContextOf(s, c) && c.rework.Some?
    ensures Inv(Posted(s, w, Exec(c)))
  {
    RecoveryKeepsInv(s, w);
    var (t, worker) := c.rework.value;
    var mid, s' := Recovered(s, w), Posted(s, w, Exec(c));
    CommitKeepsHeld(mid, Exec(c));
    forall v, u, id | BoundForge(s'.slots, v, id) && BoundForge(s'.slots, u, id) ensures v == u {
      if v != worker { assert BoundForge(mid.slots, v, id); RecoveryOnlyUnbinds(s, w, v, id); }
      if u != worker { assert BoundForge(mid.slots, u, id); RecoveryOnlyUnbinds(s, w, u, id); }
    }
  }

  // ----- the other writers of slots -----

  /** The worker VESSEL derives for a pull request: the recorded one, or the branch up to its first slash. */
  function NamedWorker(recorded: string, branch: string): Option<string> {
    if recorded != "" then Some(recorded)
    else match IndexOf(branch, '/') case None => None case Some(k) => Some(branch[..k])
  }

  /** VESSEL takes the named slot whatever it does, and without such a slot some idle or done forge slot. */
  predicate VesselPicks(slots: Slots, named: Option<string>, pick: string) {
    if named.Some? && named.value in slots then pick == named.value
    else pick in slots && "forge-" <= pick && (slots[pick].status.Idle? || slots[pick].status.Done?)
  }

  function UrlOf(tickets: seq<Ticket>, id: string): Option<string> {
    match TicketIndex(tickets, id) case None => None case Some(i) => tickets[i].issueUrl
  }

  /** `assign_worker_for_conflict_rework`, and with `ciFix` `assign_worker_for_ci_fix`. */
  function Rebound(s: State, pick: string, ticket: string, ciFix: bool): State
    requires pick in s.slots
  {
    var status := s.slots[pick].status;
    var url := if status.Done? then UrlOf(s.tickets, status.ticket)
      else if status.Idle? then UrlOf(s.tickets, ticket) else None;
    var i := TicketIndex(s.tickets, ticket);
    State(
      if ciFix && i.Some? && !s.tickets[i.value].status.InProgress?
      then s.tickets[i.value := s.tickets[i.value].(status := InProgress(pick))] else s.tickets,
      s.slots[pick := s.slots[pick].(status := Reserved(ticket, url))])
  }

  /** The ticket a slot names, busy or not. */
  function Names(status: WorkerStatus): Option<string> {
    if status.Idle? then None else Some(status.ticket)
  }

  /** `recycle_worker`, after a merge. */
  function RecycledSlot(slot: WorkerSlot, ticket: Option<string>, worker: Option<string>): WorkerSlot {
    var names := Names(slot.status);
    if names.Some? && names != ticket then slot
    else if names.Some? || worker == Some(slot.id) then
      if slot.status.Done? || Bound(slot.status).Some? then slot.(status := Idle, workspace := None)
      else slot.(workspace := None)
    else slot
  }

  function Recycled(slots: Slots, ticket: Option<string>, worker: Option<string>): Slots {
    map id | id in slots :: RecycledSlot(slots[id], ticket, worker)
  }

  // ----- whole runs -----

  datatype Action =
    | Pass(c: Context, w: World)
    | Vessel(recorded: string, branch: string, pick: string, ticket: string, ciFix: bool)
    | Approve(worker: string)                     // a suspended slot resumes its ticket
    | Reject(worker: string)                      // a slot at the command gate is set idle, whatever it does
    | Release(worker: string, expected: Option<string>)
    | AfterMerge(merged: Option<string>, derived: Option<string>)
    | Provision(worker: string, workspace: string)
    | Forget(workspace: string)
    | Environment(next: State)

  /** Anything else rewrites tickets and the slots of other roles, and registers new forge slots, idle and empty. */
  ghost predicate EnvironmentMay(s: State, next: State) {
    && Keyed(next.slots)
    && forall w :: w in next.slots && IsForge(w) ==>
         if w in s.slots then next.slots[w] == s.slots[w]
         else next.slots[w].status.Idle? && next.slots[w].workspace.None?
  }

  function WithStatus(s: State, w: string, status: WorkerStatus): State
    requires w in s.slots
  {
    s.(slots := s.slots[w := s.slots[w].(status := status)])
  }

  function Forgotten(slots: Slots, workspace: string): Slots {
    map id | id in slots :: if slots[id].workspace == Some(workspace) then slots[id].(workspace := None) else slots[id]
  }

  ghost function Step(s: State, a: Action): State {
    match a
    case Pass(c, w) => if ContextOf(s, c) then Posted(s, w, Exec(c)) else s
    case Vessel(recorded, branch, pick, ticket, ciFix) =>
      if VesselPicks(s.slots, NamedWorker(recorded, branch), pick) then Rebound(s, pick, ticket, ciFix) else s
    case Approve(w) =>
      if w in s.slots && s.slots[w].status.Suspended?
      then WithStatus(s, w, Reserved(s.slots[w].status.ticket, s.slots[w].status.url)) else s
    case Reject(w) => if w in s.slots then WithStatus(s, w, Idle) else s
    case Release(w, expected) => s.(slots := Released(s.slots, w, expected))
    case AfterMerge(ticket, worker) => s.(slots := Recycled(s.slots, ticket, worker))
    case Provision(w, workspace) =>
      if w in s.slots && (IsForge(w) ==> !s.slots[w].status.Idle?)
      then s.(slots := s.slots[w := s.slots[w].(workspace := Some(workspace))]) else s
    case Forget(workspace) => s.(slots := Forgotten(s.slots, workspace))
    case Environment(next) => if EnvironmentMay(s, next) then next else s
  }

  ghost function Run(s: State, actions: seq<Action>): State
    decreases |actions|
  {
    if actions == [] then s else Run(Step(s, actions[0]), actions[1..])
  }

  /** The slot and ticket a step of another writer binds. */
  function Binding(s: State, a: Action): Option<(string, string)> {
    if a.Vessel? && VesselPicks(s.slots, NamedWorker(a.recorded, a.branch), a.pick) then Some((a.pick, a.ticket))
    else if a.Approve? && a.worker in s.slots && s.slots[a.worker].status.Suspended?
    then Some((a.worker, s.slots[a.worker].status.ticket))
    else None
  }

  /** The guard of such a step: no other forge slot is bound to the ticket. */
  ghost predicate BindsFree(s: State, a: Action) {
    var b := Binding(s, a);
    b.Some? && IsForge(b.value.0) ==> forall v :: v != b.value.0 ==> !BoundForge(s.slots, v, b.value.1)
  }

  lemma BindingEffect(s: State, a: Action, v: string, t: string)
    requires Binding(s, a).Some?
    ensures BoundForge(Step(s, a).slots, v, t) <==>
      var (w, ticket) := Binding(s, a).value;
      if v == w then IsForge(w) && t == ticket else BoundForge(s.slots, v, t)
  {
  }

  /**
   VESSEL and the command gate bind slots without looking at the others. When a forge slot is bound so, tickets
   stay exclusive exactly when no other forge slot is bound to the ticket.
   */
  lemma BindingIsExclusiveIff(s: State, a: Action)
    requires Exclusive(s.slots) && Binding(s, a).Some? && IsForge(Binding(s, a).value.0)
    ensures Exclusive(Step(s, a).slots) <==> BindsFree(s, a)
  {
    var (w, ticket) := Binding(s, a).value;
    var n := Step(s, a);
    forall v, t ensures BoundForge(n.slots, v, t) <==> if v == w then t == ticket else BoundForge(s.slots, v, t) {
      BindingEffect(s, a, v, t);
    }
    assert BoundForge(n.slots, w, ticket);
  }

  /** It takes the slot away from another ticket exactly when the slot was bound to one. */
  lemma BindingDisplacesIff(s: State, a: Action, u: string)
    requires Binding(s, a).Some? && u != Binding(s, a).value.1
    ensures (exists v :: BoundForge(s.slots, v, u) && !BoundForge(Step(s, a).slots, v, u))
            <==> BoundForge(s.slots, Binding(s, a).value.0, u)
  {
    forall v ensures BoundForge(Step(s, a).slots, v, u) <==> v != Binding(s, a).value.0 && BoundForge(s.slots, v, u) {
      BindingEffect(s, a, v, u);
    }
  }

  /** Every other step of another writer binds no forge slot. */
  lemma OthersBindNothing(s: State, a: Action, v: string, t: string)
    requires !a.Pass? && Binding(s, a).None? && BoundForge(Step(s, a).slots, v, t)
    ensures BoundForge(s.slots, v, t)
  {
  }

  lemma OtherKeepsExclusive(s: State, a: Action)
    requires Exclusive(s.slots) && !a.Pass? && BindsFree(s, a)
    ensures Exclusive(Step(s, a).slots)
  {
    var n := Step(s, a);
    forall u, v, t | BoundForge(n.slots, u, t) && BoundForge(n.slots, v, t) ensures u == v {
      if Binding(s, a).Some? {
        BindingEffect(s, a, u, t);
        BindingEffect(s, a, v, t);
      } else {
        OthersBindNothing(s, a, u, t);
        OthersBindNothing(s, a, v, t);
      }
    }
  }

  /**
   Other writers make a ticket that holds a forge slot assignable only by turning it Open, and VESSEL binds no
   assignable ticket for conflict rework; a CI fix marks its ticket InProgress.
   */
  ghost predicate HoldsOpen(s: State, a: Action) {
    && (a.Environment? && EnvironmentMay(s, a.next) ==> DistinctIds(a.next.tickets) && HeldOnlyOpen(a.next))
    && (Binding(s, a).Some? && IsForge(Binding(s, a).value.0) && !(a.Vessel? && a.ciFix) ==>
          forall t :: t in s.tickets && t.id == Binding(s, a).value.1 && IsAssignable(t) ==> t.status.Open?)
  }

  lemma BindingKeepsHeld(s: State, a: Action)
    requires Inv(s) && Binding(s, a).Some? && HoldsOpen(s, a)
    ensures Keyed(Step(s, a).slots) && DistinctIds(Step(s, a).tickets) && HeldOnlyOpen(Step(s, a))
  {
    var n := Step(s, a);
    var (w, ticket) := Binding(s, a).value;
    forall t, v | t in n.tickets && BoundForge(n.slots, v, t.id) && IsAssignable(t) ensures t.status.Open? {
      BindingEffect(s, a, v, t.id);
      if t !in s.tickets || (a.Vessel? && a.ciFix && t.id == ticket) { CiFixMarksTicket(s, a, t); }
    }
  }

  /** After a CI fix was handed out, its ticket is InProgress. */
  lemma CiFixMarksTicket(s: State, a: Action, t: Ticket)
    requires DistinctIds(s.tickets) && Binding(s, a).Some? && t in Step(s, a).tickets
    requires t !in s.tickets || (a.Vessel? && a.ciFix && t.id == Binding(s, a).value.1)
    ensures t.status.InProgress?
  {
    var i :| 0 <= i < |Step(s, a).tickets| && Step(s, a).tickets[i] == t;
    var k := TicketIndex(s.tickets, a.ticket);
    assert k.Some? by { assert s.tickets[i] in s.tickets; }
  }

  lemma OtherKeepsInv(s: State, a: Action)
    requires Inv(s) && !a.Pass? && BindsFree(s, a) && HoldsOpen(s, a)
    ensures Inv(Step(s, a))
  {
    OtherKeepsExclusive(s, a);
    if Binding(s, a).Some? {
      BindingKeepsHeld(s, a);
    } else {
      var n := Step(s, a);
      forall t, v | t in n.tickets && BoundForge(n.slots, v, t.id) && IsAssignable(t) ensures t.status.Open? {
        OthersBindNothing(s, a, v, t.id);
      }
    }
  }

  ghost predicate Fits(s: State, a: Action) {
    (a.Pass? ==> a.w.stuck == {}) && BindsFree(s, a) && HoldsOpen(s, a)
  }

  ghost predicate AlwaysFits(s: State, actions: seq<Action>)
    decreases |actions|
  {
    actions == [] || (Fits(s, actions[0]) && AlwaysFits(Step(s, actions[0]), actions[1..]))
  }

  lemma StepKeepsInv(s: State, a: Action)
    requires Inv(s) && Fits(s, a)
    ensures Inv(Step(s, a))
  {
    if !a.Pass? {
      OtherKeepsInv(s, a);
    } else if ContextOf(s, a.c) {
      if a.c.rework.Some? {
        ReworkKeepsInv(s, a.c, a.w);
      } else if Exec(a.c).WorkAssigned? {
        WorkKeepsInv(s, a.c, a.w);
      } else {
        RecoveryKeepsInv(s, a.w);
      }
    }
  }

  /**
   In every run of passes and of all other writers of slots, with successful deletions, no reachable store binds
   one ticket to two forge slots, as long as VESSEL and the command gate bind only tickets that no other forge
   slot holds.
   */
  lemma {:induction false} AssignmentStaysExclusive(s: State, actions: seq<Action>)
    requires Inv(s) && AlwaysFits(s, actions)
    ensures Inv(Run(s, actions)) && Exclusive(Run(s, actions).slots)
    decreases |actions|
  {
    if actions != [] {
      StepKeepsInv(s, actions[0]);
      AssignmentStaysExclusive(Step(s, actions[0]), actions[1..]);
    }
  }

  // ----- what idle slots hold -----

  /** An idle forge slot holds no workspace. Sentinel slots are provisioned while idle, so they may. */
  ghost predicate IdleIsEmpty(slots: Slots) {
    forall v :: v in slots && IsForge(v) && slots[v].status.Idle? ==> slots[v].workspace.None?
  }

  /** A rejection sets the slot idle and keeps its workspace: the one step that can leave an idle slot with one. */
  ghost predicate StrandsNothing(s: State, a: Action) {
    a.Reject? && a.worker in s.slots && IsForge(a.worker) ==> s.slots[a.worker].workspace.None?
  }

  lemma PostKeepsEmpty(s: State, w: World, d: Decision)
    requires IdleIsEmpty(s.slots)
    ensures IdleIsEmpty(Posted(s, w, d).slots)
  {
    var mid := Recovered(s, w).slots;
    forall v | v in mid && IsForge(v) && mid[v].status.Idle? ensures mid[v].workspace.None? {
      assert mid[v] == RecoveredSlot(s.slots[v], Recovered(s, w).tickets, w);
    }
  }

  lemma OtherKeepsEmpty(s: State, a: Action)
    requires IdleIsEmpty(s.slots) && !a.Pass?
    ensures IdleIsEmpty(Step(s, a).slots) <==> StrandsNothing(s, a)
  {
    var n := Step(s, a).slots;
    forall v | v in n && IsForge(v) && n[v].status.Idle? && !(a.Reject? && a.worker == v) ensures n[v].workspace.None? {
    }
  }

  ghost predicate NeverStrands(s: State, actions: seq<Action>)
    decreases |actions|
  {
    actions == [] || (StrandsNothing(s, actions[0]) && NeverStrands(Step(s, actions[0]), actions[1..]))
  }

  /** In every run in which no forge slot is rejected with a workspace, idle forge slots hold none. */
  lemma {:induction false} IdleSlotsStayEmpty(s: State, actions: seq<Action>)
    requires IdleIsEmpty(s.slots) && NeverStrands(s, actions)
    ensures IdleIsEmpty(Run(s, actions).slots)
    decreases |actions|
  {
    if actions != [] {
      var a := actions[0];
      if a.Pass? { PostKeepsEmpty(s, a.w, Exec(a.c)); } else { OtherKeepsEmpty(s, a); }
      IdleSlotsStayEmpty(Step(s, a), actions[1..]);
    }
  }

  /** So in such a run a newly assigned slot never brings along the workspace of an earlier ticket. */
  lemma AssignedSlotStartsEmpty(s: State, actions: seq<Action>, c: Context, w: World)
    requires IdleIsEmpty(s.slots) && NeverStrands(s, actions)
    requires var e := Run(s, actions); Keyed(e.slots) && ContextOf(e, c) && Exec(c).WorkAssigned?
    ensures
      var n := Posted(Run(s, actions), w, Exec(c));
      Exec(c).worker in n.slots && n.slots[Exec(c).worker].workspace.None?
  {
    IdleSlotsStayEmpty(s, actions);
    DecisionSurvivesRecovery(Run(s, actions), c, w);
  }

  // ----- decision and commit apart -----

  /**
   The store, a decision that is not committed yet, and the slot maps read so far. Every writer of slots reads
   the whole map, changes its copy and writes all of it back, possibly much later.
   */
  datatype System = System(store: State, pending: Option<Decision>, copies: map<nat, Slots>)

  datatype Move =
    | Decide(c: Context)
    | Read(k: nat)
    | Commit(k: nat, w: World)
    | Write(k: nat, a: Action)

  /** The store as a writer sees it that read the slots earlier. */
  function View(s: System, k: nat): State
    requires k in s.copies
  {
    s.store.(slots := s.copies[k])
  }

  ghost function Moved(s: System, m: Move): System {
    match m
    case Decide(c) => if s.pending.None? && ContextOf(s.store, c) then s.(pending := Some(Exec(c))) else s
    case Read(k) => if k in s.copies then s else s.(copies := s.copies[k := s.store.slots])
    case Commit(k, w) =>
      if k in s.copies && s.pending.Some?
      then System(Posted(View(s, k), w, s.pending.value), None, s.copies - {k}) else s
    case Write(k, a) =>
      if k in s.copies && !a.Pass? then s.(store := Step(View(s, k), a), copies := s.copies - {k}) else s
  }

  ghost function Moves(s: System, moves: seq<Move>): System
    decreases |moves|
  {
    if moves == [] then s else Moves(Moved(s, moves[0]), moves[1..])
  }

  /** The guards of a commit and of another writer's binding, judged on the slots the writer read. */
  ghost predicate MoveFits(s: System, m: Move) {
    match m
    case Commit(k, w) =>
      k in s.copies && s.pending.Some? && (s.pending.value.WorkAssigned? || s.pending.value.ReworkAssigned?) ==>
        Frees(View(s, k), w, s.pending.value)
    case Write(k, a) => k in s.copies ==> BindsFree(View(s, k), a)
    case _ => true
  }

  ghost predicate MovesFit(s: System, moves: seq<Move>)
    decreases |moves|
  {
    moves == [] || (MoveFits(s, moves[0]) && MovesFit(Moved(s, moves[0]), moves[1..]))
  }

  ghost predicate AllExclusive(s: System) {
    Exclusive(s.store.slots) && forall k :: k in s.copies ==> Exclusive(s.copies[k])
  }

  lemma CommitKeepsExclusive(s: State, w: World, d: Decision)
    requires Exclusive(s.slots) && ((d.WorkAssigned? || d.ReworkAssigned?) ==> Frees(s, w, d))
    ensures Exclusive(Posted(s, w, d).slots)
  {
    RecoveryKeepsExclusive(s, w);
    if d.WorkAssigned? || d.ReworkAssigned? {
      if d.worker in s.slots && IsForge(d.worker) {
        CommitIsExclusiveIff(s, w, d);
      } else {
        assert forall v, t :: BoundForge(Posted(s, w, d).slots, v, t) ==> BoundForge(Recovered(s, w).slots, v, t);
      }
    }
  }

  /**
   With every other writer acting between decision and commit, and whole maps written back late, no reachable
   store binds a ticket to two forge slots as long as every commit and every other binding finds its ticket free
   in the map it writes.
   */
  lemma {:induction false} CommitsStayExclusive(s: System, moves: seq<Move>)
    requires AllExclusive(s) && MovesFit(s, moves)
    ensures AllExclusive(Moves(s, moves))
    decreases |moves|
  {
    if moves != [] {
      var m := moves[0];
      if m.Commit? && m.k in s.copies && s.pending.Some? {
        CommitKeepsExclusive(View(s, m.k), m.w, s.pending.value);
      }
      if m.Write? && m.k in s.copies && !m.a.Pass? { OtherKeepsExclusive(View(s, m.k), m.a); }
      CommitsStayExclusive(Moved(s, m), moves[1..]);
    }
  }

  /** A commit finds its ticket free if deletions succeed and the ticket is still Open, or no other slot holds it. */
  lemma OpenTicketIsFreed(s: State, w: World, d: Decision)
    requires (d.WorkAssigned? || d.ReworkAssigned?) && w.stuck == {}
    requires HasOpen(s.tickets, d.ticket) || forall v :: v != d.worker ==> !BoundForge(s.slots, v, d.ticket)
    ensures Frees(s, w, d)
  {
    if HasOpen(s.tickets, d.ticket) {
      var t :| t in s.tickets && t.id == d.ticket && t.status.Open?;
      var i :| 0 <= i < |s.tickets| && s.tickets[i] == t;
      assert Recovered(s, w).tickets[i] == t;
    }
  }

  /** Both conditions are needed: a failed ticket still holding its slot, or a failed deletion, is booked twice. */
  lemma DoubleBooking(t: Ticket, busy: WorkerSlot, idle: WorkerSlot)
    requires IsForge(busy.id) && IsForge(idle.id) && busy.id != idle.id && idle.status.Idle?
    requires Bound(busy.status) == Some(t.id) && busy.workspace.Some?
    ensures var slots := map[busy.id := busy, idle.id := idle];
            var d := WorkAssigned(t.id, idle.id, t.issueUrl);
            && (t.status.Failed? && t.status.attempts < MAX_ATTEMPTS ==>
                  !Exclusive(Posted(State([t], slots), World({}, {}), d).slots))
            && (t.status.Open? ==>
                  !Exclusive(Posted(State([t], slots), World({}, {busy.workspace.value}), d).slots))
  {
    var s := State([t], map[busy.id := busy, idle.id := idle]);
    var d := WorkAssigned(t.id, idle.id, t.issueUrl);
    var stuck := World({}, {busy.workspace.value});
    assert Recovered(s, stuck).slots[busy.id] == busy;
    assert BoundForge(Posted(s, stuck, d).slots, busy.id, t.id) && BoundForge(Posted(s, stuck, d).slots, idle.id, t.id);
    if t.status.Failed? && t.status.attempts < MAX_ATTEMPTS {
      var fine := World({}, {});
      assert RecoveredTickets([t], s.slots) == [t];
      assert Recovered(s, fine).slots[busy.id] == busy;
      assert BoundForge(Posted(s, fine, d).slots, busy.id, t.id) && BoundForge(Posted(s, fine, d).slots, idle.id, t.id);
    }
  }

  /**
   VESSEL alone books a ticket twice: the branch names no slot, so the idle forge slot is taken for a ticket
   that another forge slot still works on.
   */
  lemma VesselDoubleBooks(t: Ticket, busy: WorkerSlot, idle: WorkerSlot, ciFix: bool)
    requires IsForge(busy.id) && IsForge(idle.id) && busy.id != idle.id && "forge-" <= idle.id && idle.status.Idle?
    requires Bound(busy.status) == Some(t.id) && !IsAssignable(t)
    ensures
      var s := State([t], map[busy.id := busy, idle.id := idle]);
      var n := Step(s, Vessel("", "feature/" + t.id, idle.id, t.id, ciFix));
      Inv(s) && BoundForge(n.slots, busy.id, t.id) && BoundForge(n.slots, idle.id, t.id)
  {
    TwoSlotsFit(t, busy, idle);
    var s := State([t], map[busy.id := busy, idle.id := idle]);
    FeatureBranchNamesNoSlot(t.id);
    assert VesselPicks(s.slots, Some("feature"), idle.id);
  }

  lemma TwoSlotsFit(t: Ticket, busy: WorkerSlot, idle: WorkerSlot)
    requires busy.id != idle.id && idle.status.Idle? && !IsAssignable(t)
    ensures Inv(State([t], map[busy.id := busy, idle.id := idle]))
  {
  }

  lemma FeatureBranchNamesNoSlot(ticket: string)
    ensures NamedWorker("", "feature/" + ticket) == Some("feature") && !IsForge("feature")
  {
    var branch := "feature/" + ticket;
    assert branch[7] == '/' && branch[..7] == "feature";
    SlashIsFirst(branch, 7);
  }

  lemma SlashIsFirst(s: string, k: nat)
    requires k < |s| && s[k] == '/' && '/' !in s[..k]
    ensures IndexOf(s, '/') == Some(k)
  {
    assert forall i :: 0 <= i < k ==> s[i] == s[..k][i] != '/';
    assert forall n :: k < n <= |s| ==> s[..n][k] == '/';
  }
}
