/**
 Which sentinel slot reviews a ticket, and how the choice turns into a binding. A poll picks a slot,
 makes remote calls, and binds the picked slot later; the scheduling lease allows one such poll per
 ticket at a time. Map iteration order is arbitrary.
 */
module ReviewerOwnership {
  import opened Text
  import opened Fleet

  predicate Reviews(slots: Slots, w: string, ticket: string) {
    w in slots && IsSentinel(w) && Bound(slots[w].status) == Some(ticket)
  }

  predicate IdleSentinel(slots: Slots, w: string) {
    w in slots && IsSentinel(w) && slots[w].status.Idle?
  }

  /** The first slot in iteration order that reviews `ticket`, or that is idle when `ticket` is None. */
  function First(slots: Slots, order: seq<string>, ticket: Option<string>): (r: Option<string>)
    ensures r.Some? ==> if ticket.Some? then Reviews(slots, r.value, ticket.value) else IdleSentinel(slots, r.value)
    ensures r.None? ==> forall w :: w in order ==>
              if ticket.Some? then !Reviews(slots, w, ticket.value) else !IdleSentinel(slots, w)
  {
    if order == [] then None
    else if (if ticket.Some? then Reviews(slots, order[0], ticket.value) else IdleSentinel(slots, order[0]))
    then Some(order[0])
    else First(slots, order[1..], ticket)
  }

  /** `review_sentinel_for_ticket` for one iteration order of the slot map. */
  function Select(slots: Slots, order: seq<string>, ticket: string, forge: string): Option<string> {
    var owner := First(slots, order, Some(ticket));
    if owner.Some? then owner
    else
      var pair := PairedSentinel(forge);
      if pair.Some? && pair.value in slots && slots[pair.value].status.Idle? then pair
      else First(slots, order, None)
  }

  ghost predicate Enumerates(order: seq<string>, slots: Slots) {
    forall w :: w in order <==> w in slots
  }

  /**
   For any iteration order: selection fails exactly when no sentinel reviews the ticket and none is idle;
   a reviewing sentinel wins over everything, then the idle pair, then any idle sentinel; and a slot busy
   on another ticket is never returned.
   */
  lemma SelectionIsExact(slots: Slots, order: seq<string>, ticket: string, forge: string)
    requires Enumerates(order, slots)
    ensures var r := Select(slots, order, ticket, forge);
            && (r.None? <==> forall w :: !Reviews(slots, w, ticket) && !IdleSentinel(slots, w))
            && (r.Some? ==> Reviews(slots, r.value, ticket) || IdleSentinel(slots, r.value))
            && ((exists w :: Reviews(slots, w, ticket)) ==> r.Some? && Reviews(slots, r.value, ticket))
    ensures (forall w :: !Reviews(slots, w, ticket)) ==>
              var pair := PairedSentinel(forge);
              pair.Some? && IdleSentinel(slots, pair.value) ==> Select(slots, order, ticket, forge) == pair
  {
    if PairedSentinel(forge).Some? {
      PairIsSentinel(forge);
    }
  }

  // ----- picks, and writes of whole slot maps -----

  /**
   `picks`: per leased ticket, the slot its poll picked and has not bound yet. Every write of a slot reads the
   whole slot map, changes its copy and writes all of it back later: `copies` holds the maps read so far.
   */
  datatype State = State(slots: Slots, picks: map<string, string>, copies: map<nat, Slots>)

  /** What a writer changes in its copy. */
  datatype Edit =
    | BindPick(ticket: string, url: Option<string>)
    | Start(w: string)                          // a reserved sentinel starts working on its ticket
    | Free(ws: set<string>)                     // slots released, by recovery or after a review
    | Change(w: string, slot: WorkerSlot)       // any change to a slot of another role

  datatype Action =
    | Pick(ticket: string, forge: string, order: seq<string>)
    | Abandon(ticket: string)
    | Read(writer: nat)
    | Write(writer: nat, edit: Edit)

  /**
   An edit applies if it binds a picked slot, or changes slots of the map, sentinels only by freeing or starting.
   `Free({})` writes the copy back with the sentinels' tickets as read: it stands for writes of other fields,
   such as the workspace id of a provisioned sentinel.
   */
  predicate Applies(s: State, e: Edit) {
    match e
    case BindPick(t, _) => t in s.picks && s.picks[t] in s.slots
    case Start(w) => w in s.slots
    case Free(ws) => ws <= s.slots.Keys
    case Change(w, _) => w in s.slots && !IsSentinel(w)
  }

  function Freed(slot: WorkerSlot): WorkerSlot {
    slot.(status := Idle, workspace := None)
  }

  function Started(slot: WorkerSlot): WorkerSlot {
    if slot.status.Reserved? then slot.(status := Working(slot.status.ticket, slot.status.url)) else slot
  }

  function Edited(copy: Slots, picks: map<string, string>, e: Edit): Slots {
    match e
    case BindPick(t, url) =>
      if t in picks && picks[t] in copy then copy[picks[t] := copy[picks[t]].(status := Reserved(t, url))] else copy
    case Start(w) => if w in copy then copy[w := Started(copy[w])] else copy
    case Free(ws) => map w | w in copy :: if w in ws then Freed(copy[w]) else copy[w]
    case Change(w, slot) => if w in copy then copy[w := slot] else copy
  }

  function PicksAfter(picks: map<string, string>, e: Edit): map<string, string> {
    if e.BindPick? then picks - {e.ticket} else picks
  }

  ghost function Step(s: State, a: Action): State {
    match a
    case Pick(t, forge, order) =>
      if t in s.picks || !Enumerates(order, s.slots) then s
      else
        var r := Select(s.slots, order, t, forge);
        if r.None? then s else s.(picks := s.picks[t := r.value])
    case Abandon(t) => s.(picks := s.picks - {t})
    case Read(k) => if k in s.copies then s else s.(copies := s.copies[k := s.slots])
    case Write(k, e) =>
      if k !in s.copies || !Applies(s, e) then s
      else State(Edited(s.copies[k], s.picks, e), PicksAfter(s.picks, e), s.copies - {k})
  }

  ghost function Run(s: State, actions: seq<Action>): State
    decreases |actions|
  {
    if actions == [] then s else Run(Step(s, actions[0]), actions[1..])
  }

  /** At most one sentinel reviews a ticket. */
  ghost predicate Sole(slots: Slots) {
    forall t, v, w :: Reviews(slots, v, t) && Reviews(slots, w, t) ==> v == w
  }

  /** A ticket with a pending pick is reviewed by no other slot than the picked one. */
  ghost predicate PicksAgree(slots: Slots, picks: map<string, string>) {
    forall t, v :: t in picks && Reviews(slots, v, t) ==> v == picks[t]
  }

  /** What every copy shares with the store: its slots, and one reviewing sentinel per ticket. */
  ghost predicate Plausible(s: State, copy: Slots) {
    copy.Keys == s.slots.Keys && Sole(copy)
  }

  ghost predicate SoleReviewer(s: State) {
    && Sole(s.slots) && PicksAgree(s.slots, s.picks)
    && (forall t :: t in s.picks ==> s.picks[t] in s.slots && IsSentinel(s.picks[t]))
    && (forall k :: k in s.copies ==> Plausible(s, s.copies[k]))
  }

  /** The edit takes slot `v` from the ticket it reviews in the copy. */
  predicate Takes(s: State, e: Edit, v: string) {
    (e.Free? && v in e.ws) || (e.BindPick? && e.ticket in s.picks && v == s.picks[e.ticket])
  }

  /**
   The guard of a write: besides slots it takes away, its copy shows no sentinel reviewing a leased ticket
   other than the one picked for that ticket. A copy read before that sentinel was released fails it.
   */
  ghost predicate UpToDate(s: State, a: Action) {
    a.Write? && a.writer in s.copies && Applies(s, a.edit) ==>
      forall t, v :: t in s.picks && Reviews(s.copies[a.writer], v, t) && !Takes(s, a.edit, v) ==> v == s.picks[t]
  }

  ghost predicate AlwaysUpToDate(s: State, actions: seq<Action>)
    decreases |actions|
  {
    actions == [] || (UpToDate(s, actions[0]) && AlwaysUpToDate(Step(s, actions[0]), actions[1..]))
  }

  lemma PickKeepsSoleReviewer(s: State, t: string, forge: string, order: seq<string>)
    requires SoleReviewer(s)
    ensures SoleReviewer(Step(s, Pick(t, forge, order)))
  {
    if t !in s.picks && Enumerates(order, s.slots) {
      SelectionIsExact(s.slots, order, t, forge);
      var n := Step(s, Pick(t, forge, order));
      assert n.slots == s.slots && n.copies == s.copies;
      forall u, v | u in n.picks && Reviews(n.slots, v, u) ensures v == n.picks[u] {
        if u != t { assert Reviews(s.slots, v, u); }
      }
      forall k | k in n.copies ensures Plausible(n, n.copies[k]) { assert Plausible(s, s.copies[k]); }
    }
  }

  /** Who reviews what after an edit of a copy. */
  lemma EditedReviews(s: State, copy: Slots, e: Edit, v: string, t: string)
    requires SoleReviewer(s) && Plausible(s, copy) && Applies(s, e)
    ensures Reviews(Edited(copy, s.picks, e), v, t) <==>
      (Reviews(copy, v, t) && !Takes(s, e, v)) || (e.BindPick? && t == e.ticket && v == s.picks[t])
  {
  }

  lemma EditedIsSoleIff(s: State, copy: Slots, e: Edit)
    requires SoleReviewer(s) && Plausible(s, copy) && Applies(s, e)
    ensures Sole(Edited(copy, s.picks, e)) && PicksAgree(Edited(copy, s.picks, e), PicksAfter(s.picks, e)) <==>
      forall t, v :: t in s.picks && Reviews(copy, v, t) && !Takes(s, e, v) ==> v == s.picks[t]
  {
    var n := Edited(copy, s.picks, e);
    forall v, t ensures Reviews(n, v, t) <==>
      (Reviews(copy, v, t) && !Takes(s, e, v)) || (e.BindPick? && t == e.ticket && v == s.picks[t])
    {
      EditedReviews(s, copy, e, v, t);
    }
    if e.BindPick? {
      assert Reviews(n, s.picks[e.ticket], e.ticket);
    }
  }

  /**
   A write keeps one reviewing sentinel per ticket, in agreement with the pending picks, exactly when its copy
   is up to date in this sense.
   */
  lemma WriteIsSoleIff(s: State, k: nat, e: Edit)
    requires SoleReviewer(s) && k in s.copies && Applies(s, e)
    ensures SoleReviewer(Step(s, Write(k, e))) <==> UpToDate(s, Write(k, e))
  {
    EditedIsSoleIff(s, s.copies[k], e);
  }

  lemma StepKeepsSoleReviewer(s: State, a: Action)
    requires SoleReviewer(s) && UpToDate(s, a)
    ensures SoleReviewer(Step(s, a))
  {
    match a
    case Pick(t, forge, order) => PickKeepsSoleReviewer(s, t, forge, order);
    case Abandon(_) =>
    case Read(_) =>
    case Write(k, e) => if k in s.copies && Applies(s, e) { WriteIsSoleIff(s, k, e); }
  }

  /**
   For any number of controllers interleaving under the per-ticket lease, with any number of whole-map writes
   in flight: as long as no write brings back a released sentinel, a ticket never has two reviewing sentinels.
   */
  lemma {:induction false} OneReviewerPerTicket(s: State, actions: seq<Action>)
    requires SoleReviewer(s) && AlwaysUpToDate(s, actions)
    ensures SoleReviewer(Run(s, actions))
    decreases |actions|
  {
    if actions != [] {
      StepKeepsSoleReviewer(s, actions[0]);
      OneReviewerPerTicket(Step(s, actions[0]), actions[1..]);
    }
  }

  /** A fresh copy, written at once, binds a pending pick. */
  ghost function BoundAfresh(s: State, k: nat, t: string): State {
    Step(Step(s, Read(k)), Write(k, BindPick(t, None)))
  }

  /**
   A write that is not up to date does give a ticket two reviewing sentinels: at once if it binds that ticket,
   and otherwise when the poll that holds its lease binds the slot it picked.
   */
  lemma StaleWriteDoubles(s: State, k: nat, e: Edit, t: string, v: string)
    requires SoleReviewer(s) && k in s.copies && Applies(s, e)
    requires t in s.picks && Reviews(s.copies[k], v, t) && !Takes(s, e, v) && v != s.picks[t]
    ensures
      var n := Step(s, Write(k, e));
      var end := if e.BindPick? && e.ticket == t then n else BoundAfresh(n, k, t);
      Reviews(end.slots, v, t) && Reviews(end.slots, s.picks[t], t)
  {
    EditedReviews(s, s.copies[k], e, v, t);
    EditedReviews(s, s.copies[k], e, s.picks[t], t);
    var n := Step(s, Write(k, e));
    if !(e.BindPick? && e.ticket == t) {
      var m := Step(n, Read(k));
      assert m.slots == n.slots && m.copies[k] == n.slots && m.picks[t] == s.picks[t];
    }
  }

  /** The current reviewing sentinel is returned by every selection, in any order, idle pair or not. */
  lemma ReviewerIsReselected(s: State, w: string, ticket: string, forge: string, order: seq<string>)
    requires SoleReviewer(s) && Reviews(s.slots, w, ticket) && Enumerates(order, s.slots)
    ensures Select(s.slots, order, ticket, forge) == Some(w)
  {
    SelectionIsExact(s.slots, order, ticket, forge);
  }

  // ----- a busy slot is never taken -----

  /** No pending pick names a slot that is busy on another ticket. */
  ghost predicate PicksAreFree(slots: Slots, picks: map<string, string>) {
    forall t :: t in picks && picks[t] in slots ==> Bound(slots[picks[t]].status) in {None, Some(t)}
  }

  /**
   The lease is per ticket, so two controllers may pick the same idle sentinel for different tickets, and a
   stale copy may still show a picked slot busy. Binding a ticket leaves the other picks harmless exactly when
   no other pick names the slot just bound and the written copy shows none of the other picked slots busy.
   */
  lemma BindIsHarmlessIff(s: State, k: nat, ticket: string, url: Option<string>)
    requires SoleReviewer(s) && k in s.copies && Applies(s, BindPick(ticket, url))
    ensures
      var n := Step(s, Write(k, BindPick(ticket, url)));
      PicksAreFree(n.slots, n.picks) <==>
        forall t :: t in s.picks && t != ticket ==>
          s.picks[t] != s.picks[ticket] && Bound(s.copies[k][s.picks[t]].status) in {None, Some(t)}
  {
    var n := Step(s, Write(k, BindPick(ticket, url)));
    forall t | t in s.picks && t != ticket
      ensures t in n.picks && n.picks[t] in n.slots
      ensures Bound(n.slots[n.picks[t]].status) ==
        if s.picks[t] == s.picks[ticket] then Some(ticket) else Bound(s.copies[k][s.picks[t]].status)
    {
    }
  }

  // ----- one controller -----

  /** One controller works through its tickets and writes in turn: one pick and one copy at a time. */
  ghost predicate Sequential(s: State, actions: seq<Action>)
    decreases |actions|
  {
    || actions == []
    || (&& (actions[0].Pick? ==> s.picks == map[] && s.copies == map[])
        && (actions[0].Read? ==> s.copies == map[])
        && Sequential(Step(s, actions[0]), actions[1..]))
  }

  ghost predicate OneController(s: State) {
    && SoleReviewer(s) && PicksAreFree(s.slots, s.picks)
    && (forall t, u :: t in s.picks && u in s.picks ==> t == u)
    && (forall k :: k in s.copies ==> s.copies[k] == s.slots)
    && (forall j, k :: j in s.copies && k in s.copies ==> j == k)
  }

  lemma WriteKeepsOneController(s: State, k: nat, e: Edit)
    requires OneController(s) && k in s.copies && Applies(s, e)
    ensures UpToDate(s, Write(k, e)) && OneController(Step(s, Write(k, e)))
  {
    var n := Step(s, Write(k, e));
    WriteIsSoleIff(s, k, e);
    assert n.copies == map[];
    forall t | t in n.picks && n.picks[t] in n.slots ensures Bound(n.slots[n.picks[t]].status) in {None, Some(t)} {
      assert Bound(s.slots[s.picks[t]].status) in {None, Some(t)};
    }
  }

  lemma StepKeepsOneController(s: State, a: Action)
    requires OneController(s)
    requires (a.Pick? ==> s.picks == map[] && s.copies == map[]) && (a.Read? ==> s.copies == map[])
    ensures UpToDate(s, a) && OneController(Step(s, a))
  {
    match a
    case Pick(t, forge, order) =>
      PickKeepsSoleReviewer(s, t, forge, order);
      if Enumerates(order, s.slots) { SelectionIsExact(s.slots, order, t, forge); }
    case Abandon(_) =>
    case Read(_) =>
    case Write(k, e) => if k in s.copies && Applies(s, e) { WriteKeepsOneController(s, k, e); }
  }

  /** A sequential controller never writes a stale copy. */
  lemma {:induction false} RunKeepsOneController(s: State, actions: seq<Action>)
    requires OneController(s) && Sequential(s, actions)
    ensures OneController(Run(s, actions)) && AlwaysUpToDate(s, actions)
    decreases |actions|
  {
    if actions != [] {
      StepKeepsOneController(s, actions[0]);
      RunKeepsOneController(Step(s, actions[0]), actions[1..]);
    }
  }

  /**
   With one controller, a reviewing sentinel keeps its ticket until it is released: no step of any run moves a
   busy sentinel to another ticket, and no ticket has two.
   */
  lemma ReviewerStaysUntilReleased(s: State, actions: seq<Action>, a: Action, w: string, ticket: string)
    requires OneController(s) && Sequential(s, actions)
    requires Reviews(Run(s, actions).slots, w, ticket) && !(a.Write? && a.edit.Free? && w in a.edit.ws)
    ensures Sole(Run(s, actions).slots) && Reviews(Step(Run(s, actions), a).slots, w, ticket)
  {
    RunKeepsOneController(s, actions);
    var e := Run(s, actions);
    if a.Write? && a.writer in e.copies && Applies(e, a.edit) {
      EditedReviews(e, e.copies[a.writer], a.edit, w, ticket);
    }
  }

  // ----- two controllers -----

  lemma LoneSlotIsPicked(slot: WorkerSlot, t: string, picks: map<string, string>)
    requires IsSentinel(slot.id) && slot.status.Idle? && t !in picks
    ensures
      var s := State(map[slot.id := slot], picks, map[]);
      Step(s, Pick(t, "", [slot.id])) == s.(picks := picks[t := slot.id])
  {
    var slots, order := map[slot.id := slot], [slot.id];
    assert Enumerates(order, slots) && PairedSentinel("") == None;
    assert order[0] == slot.id && IdleSentinel(slots, slot.id) && !Reviews(slots, slot.id, t);
    assert First(slots, order, Some(t)) == None && First(slots, order, None) == Some(slot.id);
  }

  /** Both pick the idle slot, and the second binding takes it over. */
  lemma TwoControllersDisplace(slot: WorkerSlot, t: string, u: string)
    requires IsSentinel(slot.id) && slot.status.Idle? && t != u
    ensures
      var w := slot.id;
      var s0 := State(map[w := slot], map[], map[]);
      var s1 := Step(Step(s0, Pick(t, "", [w])), Pick(u, "", [w]));
      var s2 := BoundAfresh(s1, 0, t);
      SoleReviewer(s0) && Reviews(s2.slots, w, t) && !Reviews(BoundAfresh(s2, 0, u).slots, w, t)
  {
    LoneSlotIsPicked(slot, t, map[]);
    LoneSlotIsPicked(slot, u, map[t := slot.id]);
    var picks := map[t := slot.id][u := slot.id];
  }

  /** Two sentinels, the first of them reviewing `u`. */
  function Pair(x: WorkerSlot, y: WorkerSlot): Slots {
    map[x.id := x, y.id := y]
  }

  /** While writer 1 keeps its copy, writer 2 releases the first sentinel and `u` is given the second. */
  ghost function ReleasedAndPicked(x: WorkerSlot, y: WorkerSlot, u: string): State {
    var s := Step(Step(State(Pair(x, y), map[], map[]), Read(1)), Read(2));
    Step(Step(s, Write(2, Free({x.id}))), Pick(u, "", [y.id, x.id]))
  }

  lemma ReleaseFirst(x: WorkerSlot, y: WorkerSlot)
    requires x.id != y.id
    ensures
      var s := Step(Step(State(Pair(x, y), map[], map[]), Read(1)), Read(2));
      Step(s, Write(2, Free({x.id}))) == State(Pair(Freed(x), y), map[], map[1 := Pair(x, y)])
  {
    var s := Step(Step(State(Pair(x, y), map[], map[]), Read(1)), Read(2));
    assert s.copies == map[1 := Pair(x, y), 2 := Pair(x, y)];
    assert Edited(Pair(x, y), map[], Free({x.id})) == Pair(Freed(x), y);
  }

  lemma ReleaseThenPick(x: WorkerSlot, y: WorkerSlot, u: string)
    requires IsSentinel(y.id) && x.id != y.id && y.status.Idle?
    ensures ReleasedAndPicked(x, y, u) == State(Pair(Freed(x), y), map[u := y.id], map[1 := Pair(x, y)])
  {
    ReleaseFirst(x, y);
    assert Enumerates([y.id, x.id], Pair(Freed(x), y));
  }

  /** Both before and after that, no ticket has two reviewing sentinels. */
  lemma PairIsSole(x: WorkerSlot, y: WorkerSlot, u: string)
    requires IsSentinel(y.id) && x.id != y.id && y.status.Idle?
    ensures SoleReviewer(State(Pair(x, y), map[], map[]))
    ensures SoleReviewer(State(Pair(Freed(x), y), map[u := y.id], map[1 := Pair(x, y)]))
  {
    assert forall v, t :: Reviews(Pair(x, y), v, t) ==> v == x.id;
    assert forall v, t :: !Reviews(Pair(Freed(x), y), v, t);
    assert Sole(Pair(x, y)) && Sole(Pair(Freed(x), y));
    assert Pair(x, y).Keys == {x.id, y.id} == Pair(Freed(x), y).Keys;
  }

  /**
   One controller reads the map, for a recovery that waits for remote deletions; meanwhile the other releases
   the ticket's sentinel and picks a new one; the first writes its copy back, and the ticket ends with two.
   */
  lemma StaleRecoveryDoubles(x: WorkerSlot, y: WorkerSlot, u: string)
    requires IsSentinel(x.id) && IsSentinel(y.id) && x.id != y.id && Bound(x.status) == Some(u) && y.status.Idle?
    ensures
      var end := BoundAfresh(Step(ReleasedAndPicked(x, y, u), Write(1, Free({}))), 1, u);
      SoleReviewer(State(Pair(x, y), map[], map[])) && Reviews(end.slots, x.id, u) && Reviews(end.slots, y.id, u)
  {
    ReleaseThenPick(x, y, u);
    PairIsSole(x, y, u);
    var s := State(Pair(Freed(x), y), map[u := y.id], map[1 := Pair(x, y)]);
    assert Reviews(s.copies[1], x.id, u) && Applies(s, Free({}));
    StaleWriteDoubles(s, 1, Free({}), u, x.id);
  }

  /** A sentinel that starts working keeps its ticket, and every other slot stays as it is. */
  lemma StartKeepsTicket(copy: Slots, picks: map<string, string>, w: string)
    requires w in copy && copy[w].status.Reserved?
    ensures Edited(copy, picks, Start(w))
         == copy[w := WorkerSlot(copy[w].id, Working(copy[w].status.ticket, copy[w].status.url), copy[w].workspace)]
  {
  }

  /** Giving up a pick lets the ticket pick again: the next poll gets what selection finds then. */
  lemma AbandonedTicketPicksAgain(s: State, t: string, forge: string, order: seq<string>)
    requires Enumerates(order, s.slots)
    ensures
      var n := Step(Step(s, Abandon(t)), Pick(t, forge, order));
      var r := Select(s.slots, order, t, forge);
      n.slots == s.slots && n.picks == if r.Some? then s.picks[t := r.value] else s.picks - {t}
  {
  }
}
