/**
 Managed workspaces: the controller asks the Manager for a worker's workspace under a persisted idempotency
 key, and forgets the key when it deletes the workspace. The controller does one operation at a time, one
 step per store write or remote call; any reply may be lost and a restart may come between any two steps.
 */
module Provisioning {
  import opened Text

  type Pair = (string, string)          // a worker and a ticket

  datatype Slot = Slot(ticket: Option<string>, workspace: Option<nat>)

  /** A workspace row of the Manager: what it was requested for, and under which key. */
  datatype Row = Row(pair: Pair, key: nat)

  datatype Pc =
    | Quiet
    | Requesting(pair: Pair, key: nat)
    | Storing(worker: string, workspace: nat)
    | Deleting(workspace: nat, drop: Option<Pair>, release: Option<string>)
    | Dropping(workspace: nat, drop: Option<Pair>, release: Option<string>)
    | Clearing(workspace: nat, worker: string)

  /**
   `keys` is the controller's store, `issued` lists the pair each fresh key was made for (a key is its index),
   `rows` and `byKey` are the Manager's tables (a workspace id is its row's index).
   */
  datatype State = State(
    slots: map<string, Slot>, keys: map<Pair, nat>, issued: seq<Pair>,
    rows: seq<Row>, byKey: map<nat, nat>, deleted: set<nat>, pc: Pc)

  const EMPTY := State(map[], map[], [], [], map[], {}, Quiet)

  datatype Reply = Done | Refused | Lost

  datatype Action =
    | AddSlot(worker: string)
    | Bind(worker: string, ticket: Option<string>)
    | Detach(worker: string)
    | StartProvision(worker: string, wanted: string)
    | Request(reply: Reply)
    | Store
    | StartDelete(workspace: nat, via: Option<string>, release: Option<string>)
    | Delete(reply: Reply)
    | Drop
    | Clear
    | Restart

  predicate Holds(s: State, worker: string, workspace: nat) {
    worker in s.slots && s.slots[worker].workspace == Some(workspace)
  }

  predicate HoldsBound(s: State, worker: string, workspace: nat) {
    Holds(s, worker, workspace) && s.slots[worker].ticket.Some?
  }

  /**
   The lookup before a deletion walks the slot map in any order and stops at a bound slot holding the
   workspace, so `via` may be any such slot, and is absent exactly when there is none.
   */
  ghost predicate Finds(s: State, workspace: nat, via: Option<string>) {
    match via
    case Some(w) => HoldsBound(s, w, workspace)
    case None => forall w :: w in s.slots ==> !HoldsBound(s, w, workspace)
  }

  /** `request_worker` on the Manager: one workspace for each key, whatever happened to it since. */
  function Granted(s: State, pair: Pair, key: nat): State {
    if key in s.byKey then s
    else s.(rows := s.rows + [Row(pair, key)], byKey := s.byKey[key := |s.rows|])
  }

  function KeyFor(s: State, pair: Pair): nat {
    if pair in s.keys then s.keys[pair] else |s.issued|
  }

  /** Writing one slot ends the operation in progress. */
  function WithSlot(s: State, w: string, slot: Slot): State {
    s.(slots := s.slots[w := slot], pc := Quiet)
  }

  /** The slot a step writes, if it writes one. */
  function SlotWritten(s: State, a: Action): Option<(string, Slot)> {
    match a
    case AddSlot(w) => if s.pc.Quiet? && w !in s.slots then Some((w, Slot(None, None))) else None
    case Bind(w, t) => if s.pc.Quiet? && w in s.slots then Some((w, s.slots[w].(ticket := t))) else None
    case Detach(w) => if s.pc.Quiet? && w in s.slots then Some((w, s.slots[w].(workspace := None))) else None
    case Store =>
      if s.pc.Storing? && s.pc.worker in s.slots
      then Some((s.pc.worker, s.slots[s.pc.worker].(workspace := Some(s.pc.workspace)))) else None
    case Clear =>
      if s.pc.Clearing? && Holds(s, s.pc.worker, s.pc.workspace) then Some((s.pc.worker, Slot(None, None))) else None
    case _ => None
  }

  function Provision(s: State, w: string, t: string): State {
    if s.pc.Quiet? && w in s.slots && s.slots[w].workspace.None? then
      var key := KeyFor(s, (w, t));
      s.(keys := s.keys[(w, t) := key], issued := if (w, t) in s.keys then s.issued else s.issued + [(w, t)],
         pc := Requesting((w, t), key))
    else s
  }

  function Requested(s: State, reply: Reply): State {
    if !s.pc.Requesting? then s
    else if reply == Refused then s.(pc := Quiet)
    else
      var g := Granted(s, s.pc.pair, s.pc.key);
      g.(pc := if reply == Done then Storing(s.pc.pair.0, g.byKey[s.pc.key]) else Quiet)
  }

  ghost function Lookup(s: State, ws: nat, via: Option<string>, release: Option<string>): State {
    if s.pc.Quiet? && ws < |s.rows| && Finds(s, ws, via) && (release.Some? ==> Holds(s, release.value, ws)) then
      s.(pc := Deleting(ws, if via.Some? then Some((via.value, s.slots[via.value].ticket.value)) else None, release))
    else s
  }

  function Deleted(s: State, reply: Reply): State {
    if !s.pc.Deleting? then s
    else if reply == Refused then s.(pc := Quiet)
    else s.(deleted := s.deleted + {s.pc.workspace},
            pc := if reply == Done then Dropping(s.pc.workspace, s.pc.drop, s.pc.release) else Quiet)
  }

  function Dropped(s: State): State {
    if !s.pc.Dropping? then s
    else s.(keys := if s.pc.drop.Some? then s.keys - {s.pc.drop.value} else s.keys,
            pc := if s.pc.release.Some? then Clearing(s.pc.workspace, s.pc.release.value) else Quiet)
  }

  ghost function Step(s: State, a: Action): State {
    match a
    case StartProvision(w, t) => Provision(s, w, t)
    case Request(reply) => Requested(s, reply)
    case StartDelete(ws, via, release) => Lookup(s, ws, via, release)
    case Delete(reply) => Deleted(s, reply)
    case Drop => Dropped(s)
    case Restart => s.(pc := Quiet)
    case _ =>
      var written := SlotWritten(s, a);
      if written.Some? then WithSlot(s, written.value.0, written.value.1)
      else if a.Clear? && s.pc.Clearing? then s.(pc := Quiet)
      else s
  }

  ghost function Run(s: State, actions: seq<Action>): State
    decreases |actions|
  {
    if actions == [] then s else Run(Step(s, actions[0]), actions[1..])
  }

  // ------------------------------------------------------------------- invariant

  ghost predicate TablesAgree(s: State) {
    && (forall k :: k in s.byKey ==> s.byKey[k] < |s.rows| && s.rows[s.byKey[k]].key == k)
    && (forall ws :: 0 <= ws < |s.rows| ==>
          && s.rows[ws].key in s.byKey && s.byKey[s.rows[ws].key] == ws
          && s.rows[ws].key < |s.issued| && s.issued[s.rows[ws].key] == s.rows[ws].pair)
    && (forall ws :: ws in s.deleted ==> ws < |s.rows|)
  }

  ghost predicate KeysAreOwn(s: State) {
    forall p :: p in s.keys ==> s.keys[p] < |s.issued| && s.issued[s.keys[p]] == p
  }

  /** The key a workspace was requested under is still the pair's key. */
  ghost predicate Current(s: State, ws: nat)
    requires ws < |s.rows|
  {
    s.rows[ws].pair in s.keys && s.keys[s.rows[ws].pair] == s.rows[ws].key
  }

  ghost predicate LiveAreCurrent(s: State) {
    forall ws :: 0 <= ws < |s.rows| && ws !in s.deleted ==> Current(s, ws)
  }

  ghost predicate TablesFit(s: State) {
    TablesAgree(s) && KeysAreOwn(s) && LiveAreCurrent(s)
  }

  /** Apart from `ws`, the pair has no undeleted workspace. */
  ghost predicate NoOtherLive(s: State, pair: Pair, ws: nat) {
    forall x :: 0 <= x < |s.rows| && x != ws && x !in s.deleted ==> s.rows[x].pair != pair
  }

  /**
   The guard of a deletion: the key it will drop, that of the slot's worker and its ticket of the moment, is
   not the key of another undeleted workspace. Slots may be bound, unbound and bound anew at will.
   */
  ghost predicate DropsNoLiveKey(s: State, a: Action) {
    a.StartDelete? && a.via.Some? && HoldsBound(s, a.via.value, a.workspace) ==>
      NoOtherLive(s, (a.via.value, s.slots[a.via.value].ticket.value), a.workspace)
  }

  ghost predicate NeverDropsLiveKey(s: State, actions: seq<Action>)
    decreases |actions|
  {
    actions == [] || (DropsNoLiveKey(s, actions[0]) && NeverDropsLiveKey(Step(s, actions[0]), actions[1..]))
  }

  ghost predicate PcFits(s: State) {
    match s.pc
    case Requesting(p, k) => p in s.keys && s.keys[p] == k
    case Deleting(ws, drop, _) => ws < |s.rows| && (drop.Some? ==> NoOtherLive(s, drop.value, ws))
    case Dropping(ws, drop, _) => ws < |s.rows| && ws in s.deleted && (drop.Some? ==> NoOtherLive(s, drop.value, ws))
    case _ => true
  }

  ghost predicate Inv(s: State) {
    TablesFit(s) && PcFits(s)
  }

  lemma TablesFrame(s: State, n: State)
    requires TablesFit(s) && n.keys == s.keys && n.issued == s.issued && n.rows == s.rows && n.byKey == s.byKey
    requires s.deleted <= n.deleted && forall ws :: ws in n.deleted ==> ws < |s.rows|
    ensures TablesFit(n)
  {
    assert forall ws :: 0 <= ws < |s.rows| && Current(s, ws) ==> Current(n, ws);
  }

  lemma ProvisionKeepsTables(s: State, w: string, t: string)
    requires TablesAgree(s) && KeysAreOwn(s)
    ensures TablesAgree(Provision(s, w, t)) && KeysAreOwn(Provision(s, w, t))
  {
  }

  lemma ProvisionKeepsInv(s: State, w: string, t: string)
    requires Inv(s)
    ensures Inv(Provision(s, w, t))
  {
    var n := Provision(s, w, t);
    ProvisionKeepsTables(s, w, t);
    assert forall ws :: 0 <= ws < |s.rows| && Current(s, ws) ==> Current(n, ws);
  }

  lemma GrantKeepsTables(s: State, pair: Pair, key: nat)
    requires TablesAgree(s) && KeysAreOwn(s) && pair in s.keys && s.keys[pair] == key
    ensures TablesAgree(Granted(s, pair, key)) && KeysAreOwn(Granted(s, pair, key))
    ensures s.rows <= Granted(s, pair, key).rows
    ensures
      var g := Granted(s, pair, key);
      key in g.byKey && g.byKey[key] < |g.rows| && g.rows[g.byKey[key]] == Row(pair, key)
  {
    var g := Granted(s, pair, key);
    if key !in s.byKey {
      forall ws | 0 <= ws < |g.rows|
        ensures g.rows[ws].key in g.byKey && g.byKey[g.rows[ws].key] == ws
        ensures g.rows[ws].key < |g.issued| && g.issued[g.rows[ws].key] == g.rows[ws].pair
      {
        if ws < |s.rows| { assert g.rows[ws] == s.rows[ws]; }
      }
    }
  }

  lemma GrantKeepsLive(s: State, pair: Pair, key: nat)
    requires TablesFit(s) && pair in s.keys && s.keys[pair] == key
    ensures TablesFit(Granted(s, pair, key))
  {
    GrantKeepsTables(s, pair, key);
    var g := Granted(s, pair, key);
    forall ws | 0 <= ws < |g.rows| && ws !in g.deleted ensures Current(g, ws) {
      if ws < |s.rows| { assert Current(s, ws) && g.rows[ws] == s.rows[ws]; }
    }
  }

  lemma RequestKeepsInv(s: State, reply: Reply)
    requires Inv(s)
    ensures Inv(Requested(s, reply))
  {
    if s.pc.Requesting? && reply != Refused {
      GrantKeepsLive(s, s.pc.pair, s.pc.key);
      TablesFrame(Granted(s, s.pc.pair, s.pc.key), Requested(s, reply));
    } else {
      TablesFrame(s, Requested(s, reply));
    }
  }

  lemma LookupKeepsInv(s: State, ws: nat, via: Option<string>, release: Option<string>)
    requires Inv(s) && DropsNoLiveKey(s, StartDelete(ws, via, release))
    ensures Inv(Lookup(s, ws, via, release))
  {
    TablesFrame(s, Lookup(s, ws, via, release));
  }

  lemma SlotStepKeepsInv(s: State, a: Action)
    requires Inv(s) && SlotStep(a)
    ensures Inv(Step(s, a))
  {
    TablesFrame(s, Step(s, a));
  }

  lemma DeleteKeepsInv(s: State, reply: Reply)
    requires Inv(s)
    ensures Inv(Deleted(s, reply))
  {
    if s.pc.Deleting? {
      TablesFrame(s, Deleted(s, reply));
    }
  }

  lemma DropKeepsInv(s: State)
    requires Inv(s)
    ensures Inv(Dropped(s))
  {
    var n := Dropped(s);
    forall ws | 0 <= ws < |n.rows| && ws !in n.deleted ensures Current(n, ws) {
      assert Current(s, ws);
    }
  }

  predicate SlotStep(a: Action) {
    a.AddSlot? || a.Bind? || a.Detach? || a.Store? || a.Clear? || a.Restart?
  }

  lemma StepKeepsInv(s: State, a: Action)
    requires Inv(s) && DropsNoLiveKey(s, a)
    ensures Inv(Step(s, a))
  {
    match a
    case StartProvision(w, t) => ProvisionKeepsInv(s, w, t);
    case Request(reply) => RequestKeepsInv(s, reply);
    case StartDelete(ws, via, release) => LookupKeepsInv(s, ws, via, release);
    case Delete(reply) => DeleteKeepsInv(s, reply);
    case Drop => DropKeepsInv(s);
    case _ => SlotStepKeepsInv(s, a);
  }

  lemma {:induction false} RunKeepsInv(s: State, actions: seq<Action>)
    requires Inv(s) && NeverDropsLiveKey(s, actions)
    ensures Inv(Run(s, actions))
    decreases |actions|
  {
    if actions != [] {
      StepKeepsInv(s, actions[0]);
      RunKeepsInv(Step(s, actions[0]), actions[1..]);
    }
  }

  /** Two workspaces of one worker and ticket, neither deleted. */
  ghost predicate BothLive(s: State, a: nat, b: nat) {
    a < |s.rows| && b < |s.rows| && a !in s.deleted && b !in s.deleted && s.rows[a].pair == s.rows[b].pair
  }

  /**
   A worker and ticket never have two undeleted workspaces, whatever is lost, retried, rebound or restarted,
   as long as no deletion drops the key of another undeleted workspace.
   */
  lemma OneLiveWorkspacePerPair(actions: seq<Action>, a: nat, b: nat)
    requires NeverDropsLiveKey(EMPTY, actions) && BothLive(Run(EMPTY, actions), a, b)
    ensures a == b
  {
    RunKeepsInv(EMPTY, actions);
  }

  // ------------------------------------------------------------------- fresh keys

  /** A slot only ever holds workspaces of its own worker. */
  ghost predicate SlotsOwn(s: State) {
    forall w, ws: nat :: Holds(s, w, ws) ==> ws < |s.rows| && s.rows[ws].pair.0 == w
  }

  /** No workspace is requested or stored for a slot that holds one. */
  ghost predicate RequestFits(s: State) {
    match s.pc
    case Requesting(p, key) =>
      p in s.keys && s.keys[p] == key && p.0 in s.slots && s.slots[p.0].workspace.None?
    case Storing(w, ws) =>
      w in s.slots && s.slots[w].workspace.None? && ws < |s.rows| && s.rows[ws].pair.0 == w
    case _ => true
  }

  /** The pair's stored key names a workspace that was deleted. */
  ghost predicate Spent(s: State, p: Pair, ws: nat) {
    p in s.keys && s.keys[p] in s.byKey && s.byKey[s.keys[p]] == ws && ws in s.deleted
  }

  /** A pair whose key is spent still shows the deleted workspace in the worker's slot, so it asks for none. */
  ghost predicate SpentKeysAreHeld(s: State) {
    forall p, ws: nat :: Spent(s, p, ws) ==> Holds(s, p.0, ws)
  }

  /**
   The guard of a deletion and of a detachment: the key forgotten is the workspace's own, if that is still in
   use, and a deleted workspace is not detached while its key is.
   */
  ghost predicate ForgetsOwnKey(s: State, a: Action) {
    match a
    case StartDelete(ws, via, _) =>
      ws < |s.rows| && Current(s, ws) ==>
        via == Some(s.rows[ws].pair.0) && HoldsBound(s, via.value, ws)
        && s.slots[via.value].ticket.value == s.rows[ws].pair.1
    case Detach(w) => forall ws: nat :: ws in s.deleted && ws < |s.rows| && Holds(s, w, ws) ==> !Current(s, ws)
    case _ => true
  }

  ghost predicate AlwaysForgetsOwnKey(s: State, actions: seq<Action>)
    decreases |actions|
  {
    actions == [] || (ForgetsOwnKey(s, actions[0]) && AlwaysForgetsOwnKey(Step(s, actions[0]), actions[1..]))
  }

  ghost predicate DeletionFits(s: State) {
    match s.pc
    case Deleting(ws, drop, _) =>
      ws < |s.rows| && (Current(s, ws) ==> drop == Some(s.rows[ws].pair) && Holds(s, s.rows[ws].pair.0, ws))
    case Dropping(ws, drop, _) =>
      ws < |s.rows| && (Current(s, ws) ==> drop == Some(s.rows[ws].pair) && Holds(s, s.rows[ws].pair.0, ws))
    case Clearing(ws, _) => ws < |s.rows| && !Current(s, ws)
    case _ => true
  }

  ghost predicate SpentInv(s: State) {
    TablesAgree(s) && KeysAreOwn(s) && SlotsOwn(s) && RequestFits(s) && SpentKeysAreHeld(s) && DeletionFits(s)
  }

  lemma SpentIsCurrent(s: State, p: Pair, ws: nat)
    requires TablesAgree(s) && KeysAreOwn(s) && Spent(s, p, ws)
    ensures ws < |s.rows| && s.rows[ws].pair == p && Current(s, ws)
  {
  }

  /** With the slots unchanged and nothing newly spent, what is spent is still held. */
  lemma SpentFrame(s: State, n: State)
    requires SlotsOwn(s) && SpentKeysAreHeld(s) && n.slots == s.slots && s.rows <= n.rows
    requires forall p, ws: nat :: Spent(n, p, ws) ==> Spent(s, p, ws) || Holds(s, p.0, ws)
    ensures SlotsOwn(n) && SpentKeysAreHeld(n)
  {
    forall w, ws: nat | Holds(n, w, ws) ensures ws < |n.rows| && n.rows[ws].pair.0 == w {
      assert Holds(s, w, ws) && n.rows[ws] == s.rows[ws];
    }
    forall p, ws: nat | Spent(n, p, ws) ensures Holds(n, p.0, ws) {
      assert Holds(s, p.0, ws);
    }
  }

  lemma SlotStepKeepsOwn(s: State, a: Action)
    requires SlotsOwn(s) && RequestFits(s) && SlotStep(a)
    ensures SlotsOwn(Step(s, a)) && RequestFits(Step(s, a))
  {
    var n := Step(s, a);
    forall w, ws: nat | Holds(n, w, ws) ensures ws < |n.rows| && n.rows[ws].pair.0 == w {
      assert Holds(s, w, ws) || (a.Store? && w == s.pc.worker && ws == s.pc.workspace);
    }
  }

  lemma SlotStepKeepsSpent(s: State, a: Action)
    requires SpentInv(s) && ForgetsOwnKey(s, a) && SlotStep(a)
    ensures SpentKeysAreHeld(Step(s, a))
  {
    var n := Step(s, a);
    forall p, ws: nat | Spent(n, p, ws) ensures Holds(n, p.0, ws) {
      assert Spent(s, p, ws) && Holds(s, p.0, ws);
      SpentIsCurrent(s, p, ws);
    }
  }

  lemma SlotStepKeepsDeletion(s: State, a: Action)
    requires DeletionFits(s) && SlotStep(a)
    ensures DeletionFits(Step(s, a))
  {
  }

  lemma ProvisionKeepsSpent(s: State, w: string, t: string)
    requires SpentInv(s)
    ensures SpentInv(Provision(s, w, t))
  {
    ProvisionKeepsTables(s, w, t);
    SpentFrame(s, Provision(s, w, t));
  }

  lemma RequestKeepsSpent(s: State, reply: Reply)
    requires SpentInv(s) && s.pc.Requesting?
    ensures SpentInv(Requested(s, reply))
  {
    GrantKeepsTables(s, s.pc.pair, s.pc.key);
    SpentFrame(s, Requested(s, reply));
  }

  lemma LookupKeepsSpent(s: State, ws: nat, via: Option<string>, release: Option<string>)
    requires SpentInv(s) && ForgetsOwnKey(s, StartDelete(ws, via, release))
    ensures SpentInv(Lookup(s, ws, via, release))
  {
    var n := Lookup(s, ws, via, release);
    SpentFrame(s, n);
    if n.pc != s.pc && Current(s, ws) {
      assert s.rows[ws].pair == (via.value, s.slots[via.value].ticket.value);
    }
  }

  lemma DeleteKeepsSpent(s: State, reply: Reply)
    requires SpentInv(s) && s.pc.Deleting?
    ensures SpentInv(Deleted(s, reply))
  {
    var n := Deleted(s, reply);
    assert TablesAgree(n);
    forall p, x: nat | Spent(n, p, x) ensures Spent(s, p, x) || Holds(s, p.0, x) {
      SpentIsCurrent(n, p, x);
    }
    SpentFrame(s, n);
  }

  lemma DropKeepsSpent(s: State)
    requires SpentInv(s) && s.pc.Dropping?
    ensures SpentInv(Dropped(s))
  {
    SpentFrame(s, Dropped(s));
  }

  lemma StepKeepsSpent(s: State, a: Action)
    requires SpentInv(s) && ForgetsOwnKey(s, a)
    ensures SpentInv(Step(s, a))
  {
    match a
    case StartProvision(w, t) => ProvisionKeepsSpent(s, w, t);
    case Request(reply) => if s.pc.Requesting? { RequestKeepsSpent(s, reply); }
    case StartDelete(ws, via, release) => LookupKeepsSpent(s, ws, via, release);
    case Delete(reply) => if s.pc.Deleting? { DeleteKeepsSpent(s, reply); }
    case Drop => if s.pc.Dropping? { DropKeepsSpent(s); }
    case _ =>
      SlotStepKeepsOwn(s, a);
      SlotStepKeepsSpent(s, a);
      SlotStepKeepsDeletion(s, a);
  }

  lemma {:induction false} RunKeepsSpent(s: State, actions: seq<Action>)
    requires SpentInv(s) && AlwaysForgetsOwnKey(s, actions)
    ensures SpentInv(Run(s, actions))
    decreases |actions|
  {
    if actions != [] {
      StepKeepsSpent(s, actions[0]);
      RunKeepsSpent(Step(s, actions[0]), actions[1..]);
    }
  }

  /**
   As long as deletions forget the workspace's own key, a request never gets a deleted workspace back: it
   carries either a key the Manager has not seen, or the key of a workspace that still lives.
   */
  lemma RequestNeverGetsDeleted(actions: seq<Action>)
    requires AlwaysForgetsOwnKey(EMPTY, actions) && Run(EMPTY, actions).pc.Requesting?
    ensures
      var s := Run(EMPTY, actions);
      s.pc.key in s.byKey ==> s.byKey[s.pc.key] !in s.deleted
  {
    RunKeepsSpent(EMPTY, actions);
    var s := Run(EMPTY, actions);
    assert s.pc.key in s.byKey ==> !Spent(s, s.pc.pair, s.byKey[s.pc.key]);
  }

  /** Then, once every workspace of a pair is deleted, the pair's next request carries a key never sent before. */
  lemma DeletionFreshensKey(actions: seq<Action>, w: string, t: string)
    requires AlwaysForgetsOwnKey(EMPTY, actions)
    requires
      var s := Run(EMPTY, actions);
      && s.pc.Quiet? && w in s.slots && s.slots[w].workspace.None?
      && forall ws :: 0 <= ws < |s.rows| && s.rows[ws].pair == (w, t) ==> ws in s.deleted
    ensures
      var s := Run(EMPTY, actions);
      var n := Step(s, StartProvision(w, t));
      && n.pc.Requesting? && n.pc.pair == (w, t) && n.pc.key !in s.byKey
      && forall reply :: reply != Refused ==>
           Step(n, Request(reply)).rows == s.rows + [Row((w, t), n.pc.key)]
  {
    RunKeepsSpent(EMPTY, actions);
    var s := Run(EMPTY, actions);
    assert (w, t) in s.keys && s.keys[(w, t)] in s.byKey ==> !Spent(s, (w, t), s.byKey[s.keys[(w, t)]]);
  }

  // ------------------------------------------------------------------- exactly when a deletion does harm

  ghost function Deletion(s: State, w: string, ws: nat, via: Option<string>): State {
    Step(Step(Step(Step(s, StartDelete(ws, via, Some(w))), Delete(Done)), Drop), Clear)
  }

  /** What a successful deletion does to the only slot holding the workspace, whatever ticket it is bound to. */
  lemma DeletionEffect(s: State, w: string, ws: nat, via: Option<string>)
    requires s.pc.Quiet? && ws < |s.rows| && Holds(s, w, ws) && via == if s.slots[w].ticket.Some? then Some(w) else None
    requires forall v :: v in s.slots && Holds(s, v, ws) ==> v == w
    ensures Deletion(s, w, ws, via) ==
      s.(slots := s.slots[w := Slot(None, None)], deleted := s.deleted + {ws},
         keys := if via.Some? then s.keys - {(w, s.slots[w].ticket.value)} else s.keys)
  {
    assert Finds(s, ws, via);
    var drop := if via.Some? then Some((w, s.slots[w].ticket.value)) else None;
    assert Step(s, StartDelete(ws, via, Some(w))) == s.(pc := Deleting(ws, drop, Some(w)));
  }

  /** A request under a key the Manager knows gets that key's workspace back, deleted or not. */
  lemma RequestWithKey(s: State, w: string, t: string)
    requires s.pc.Quiet? && w in s.slots && s.slots[w].workspace.None? && (w, t) in s.keys && s.keys[(w, t)] in s.byKey
    ensures Requested(Provision(s, w, t), Done).pc == Storing(w, s.byKey[s.keys[(w, t)]])
  {
  }

  /** A request whose pair has no key creates a workspace. */
  lemma RequestWithoutKey(s: State, w: string, t: string)
    requires s.pc.Quiet? && w in s.slots && s.slots[w].workspace.None? && (w, t) !in s.keys && |s.issued| !in s.byKey
    ensures Step(Step(s, StartProvision(w, t)), Request(Done)) ==
      s.(keys := s.keys[(w, t) := |s.issued|], issued := s.issued + [(w, t)],
         rows := s.rows + [Row((w, t), |s.issued|)],
         byKey := s.byKey[|s.issued| := |s.rows|], pc := Storing(w, |s.rows|))
  {
  }

  /**
   A successful deletion forgets the workspace's own key exactly when the slot is still bound to the ticket
   the workspace was requested for; exactly otherwise the next request for that ticket gets the deleted
   workspace back.
   */
  lemma DeletionForgetsKeyIff(s: State, w: string, ws: nat, via: Option<string>)
    requires s.pc.Quiet? && TablesAgree(s) && ws < |s.rows| && s.rows[ws].pair.0 == w && Current(s, ws)
    requires Holds(s, w, ws) && Finds(s, ws, via) && forall v :: v in s.slots && Holds(s, v, ws) ==> v == w
    ensures
      var t := s.rows[ws].pair.1;
      var d := Deletion(s, w, ws, via);
      && ((w, t) !in d.keys <==> s.slots[w].ticket == Some(t))
      && d.pc.Quiet? && w in d.slots && d.slots[w] == Slot(None, None) && ws in d.deleted
      && (Step(Step(d, StartProvision(w, t)), Request(Done)).pc == Storing(w, ws) <==> s.slots[w].ticket != Some(t))
  {
    var t := s.rows[ws].pair.1;
    assert s.rows[ws].pair == (w, t);
    assert s.slots[w].ticket.Some? <==> HoldsBound(s, w, ws);
    DeletionEffect(s, w, ws, via);
    var d := Deletion(s, w, ws, via);
    if s.slots[w].ticket != Some(t) {
      RequestWithKey(d, w, t);
    } else {
      RequestWithoutKey(d, w, t);
    }
  }

  /** The deletion of a workspace that no bound slot holds, as the retry for finished tickets does it. */
  ghost function UnheldDeletion(s: State, ws: nat): State {
    Step(Step(Step(s, StartDelete(ws, None, None)), Delete(Done)), Drop)
  }

  /** It forgets no key, so the next request of the workspace's pair returns it exactly if its key is in use. */
  lemma UnheldDeletionReturnsDeletedIff(s: State, w: string, t: string, ws: nat)
    requires TablesAgree(s) && KeysAreOwn(s) && s.pc.Quiet? && ws < |s.rows| && s.rows[ws].pair == (w, t)
    requires Finds(s, ws, None) && w in s.slots && s.slots[w].workspace.None?
    ensures
      var d := UnheldDeletion(s, ws);
      var r := Step(Step(d, StartProvision(w, t)), Request(Done));
      ws in d.deleted && r.pc.Storing? && (r.pc.workspace == ws <==> Current(s, ws))
  {
    var d := UnheldDeletion(s, ws);
    assert Step(s, StartDelete(ws, None, None)) == s.(pc := Deleting(ws, None, None));
    assert d == s.(deleted := s.deleted + {ws});
    if (w, t) in s.keys && s.keys[(w, t)] in s.byKey {
      RequestWithKey(d, w, t);
    } else if (w, t) !in s.keys {
      RequestWithoutKey(d, w, t);
    }
  }

  /** Detaching a workspace makes the next request return a deleted one exactly if it was deleted and its key kept. */
  lemma DetachReturnsDeletedIff(s: State, w: string, ws: nat)
    requires SpentInv(s) && s.pc.Quiet? && ws < |s.rows| && Holds(s, w, ws)
    ensures
      var t := s.rows[ws].pair.1;
      var r := Step(Step(Step(s, Detach(w)), StartProvision(w, t)), Request(Done));
      r.pc.Storing? && (r.pc.workspace in s.deleted <==> ws in s.deleted && Current(s, ws))
  {
    var t := s.rows[ws].pair.1;
    var d := Step(s, Detach(w));
    assert s.rows[ws].pair == (w, t);
    if (w, t) in s.keys && s.keys[(w, t)] in s.byKey {
      RequestWithKey(d, w, t);
      var x := s.byKey[s.keys[(w, t)]];
      if x in s.deleted { assert Spent(s, (w, t), x); }
    } else if (w, t) !in s.keys {
      RequestWithoutKey(d, w, t);
    }
  }

  /** The slot's ticket asks for a workspace right after the deletion. */
  ghost function Replaced(s: State, w: string, ws: nat): State
    requires Holds(s, w, ws) && s.slots[w].ticket.Some?
  {
    Step(Step(Deletion(s, w, ws, Some(w)), StartProvision(w, s.slots[w].ticket.value)), Request(Done))
  }

  ghost predicate SomeBothLive(s: State) {
    exists a: nat, b: nat :: a != b && BothLive(s, a, b)
  }

  lemma ReplacedEffect(s: State, w: string, ws: nat)
    requires TablesFit(s) && s.pc.Quiet? && ws < |s.rows| && HoldsBound(s, w, ws)
    requires forall v :: v in s.slots && Holds(s, v, ws) ==> v == w
    ensures
      var p := (w, s.slots[w].ticket.value);
      Replaced(s, w, ws).rows == s.rows + [Row(p, |s.issued|)] && Replaced(s, w, ws).deleted == s.deleted + {ws}
  {
    DeletionEffect(s, w, ws, Some(w));
    RequestWithoutKey(Deletion(s, w, ws, Some(w)), w, s.slots[w].ticket.value);
  }

  /**
   Deleting a workspace and asking for a new one leaves two live workspaces of one pair exactly when the pair
   of the slot's worker and ticket has another undeleted workspace: the guard of the deletion is exact.
   */
  lemma DeletionDuplicatesIff(s: State, w: string, ws: nat)
    requires TablesFit(s) && s.pc.Quiet? && ws < |s.rows| && HoldsBound(s, w, ws)
    requires forall v :: v in s.slots && Holds(s, v, ws) ==> v == w
    ensures SomeBothLive(Replaced(s, w, ws)) <==> !DropsNoLiveKey(s, StartDelete(ws, Some(w), Some(w)))
    ensures LiveAreCurrent(Deletion(s, w, ws, Some(w))) <==> DropsNoLiveKey(s, StartDelete(ws, Some(w), Some(w)))
  {
    var p := (w, s.slots[w].ticket.value);
    if x :| 0 <= x < |s.rows| && x != ws && x !in s.deleted && s.rows[x].pair == p {
      OtherLiveDuplicates(s, w, ws, x);
    } else {
      assert NoOtherLive(s, p, ws);
      NoOtherLiveIsSafe(s, w, ws);
    }
  }

  lemma OtherLiveDuplicates(s: State, w: string, ws: nat, x: nat)
    requires TablesFit(s) && s.pc.Quiet? && ws < |s.rows| && HoldsBound(s, w, ws)
    requires forall v :: v in s.slots && Holds(s, v, ws) ==> v == w
    requires x < |s.rows| && x != ws && x !in s.deleted && s.rows[x].pair == (w, s.slots[w].ticket.value)
    ensures BothLive(Replaced(s, w, ws), x, |s.rows|) && !LiveAreCurrent(Deletion(s, w, ws, Some(w)))
  {
    ReplacedEffect(s, w, ws);
    DeletionEffect(s, w, ws, Some(w));
    assert !Current(Deletion(s, w, ws, Some(w)), x);
  }

  lemma NoOtherLiveIsSafe(s: State, w: string, ws: nat)
    requires TablesFit(s) && s.pc.Quiet? && ws < |s.rows| && HoldsBound(s, w, ws)
    requires forall v :: v in s.slots && Holds(s, v, ws) ==> v == w
    requires NoOtherLive(s, (w, s.slots[w].ticket.value), ws)
    ensures !SomeBothLive(Replaced(s, w, ws)) && LiveAreCurrent(Deletion(s, w, ws, Some(w)))
  {
    ReplacedEffect(s, w, ws);
    DeletionEffect(s, w, ws, Some(w));
    var r := Replaced(s, w, ws);
    var d := Deletion(s, w, ws, Some(w));
    forall a: nat, b: nat | BothLive(r, a, b) ensures a == b {
      if a < |s.rows| { assert r.rows[a] == s.rows[a] && Current(s, a); }
      if b < |s.rows| { assert r.rows[b] == s.rows[b] && Current(s, b); }
    }
    forall x | 0 <= x < |d.rows| && x !in d.deleted ensures Current(d, x) {
      assert Current(s, x);
    }
  }

  /** A slot bound to a ticket, whose first workspace exists although its reply was lost. */
  function AfterLostReply(w: string, t: string): State {
    State(map[w := Slot(Some(t), None)], map[(w, t) := 0], [(w, t)], [Row((w, t), 0)], map[0 := 0], {}, Quiet)
  }

  /** The slot then serves a second ticket. */
  function AfterSecondTicket(w: string, t: string, u: string): State {
    State(map[w := Slot(Some(u), Some(1))], map[(w, t) := 0, (w, u) := 1], [(w, t), (w, u)],
          [Row((w, t), 0), Row((w, u), 1)], map[0 := 0, 1 := 1], {}, Quiet)
  }

  lemma LoseFirstReply(w: string, t: string)
    ensures Run(EMPTY, [AddSlot(w), Bind(w, Some(t)), StartProvision(w, t), Request(Lost)]) == AfterLostReply(w, t)
  {
    RunFour(EMPTY, AddSlot(w), Bind(w, Some(t)), StartProvision(w, t), Request(Lost));
    assert Step(Step(EMPTY, AddSlot(w)), Bind(w, Some(t))) == EMPTY.(slots := map[w := Slot(Some(t), None)]);
  }

  lemma SecondTicketIsGranted(w: string, t: string, u: string)
    requires t != u
    ensures
      var b := AfterLostReply(w, t).(slots := map[w := Slot(Some(u), None)]);
      var q := Step(Step(b, StartProvision(w, u)), Request(Done));
      q == AfterSecondTicket(w, t, u).(slots := b.slots, pc := Storing(w, 1))
  {
    var b := AfterLostReply(w, t).(slots := map[w := Slot(Some(u), None)]);
    RequestWithoutKey(b, w, u);
    assert b.keys[(w, u) := 1] == map[(w, t) := 0, (w, u) := 1];
    assert b.byKey[1 := 1] == map[0 := 0, 1 := 1];
  }

  lemma ServeSecondTicket(w: string, t: string, u: string)
    requires t != u
    ensures Run(AfterLostReply(w, t), [Bind(w, Some(u)), StartProvision(w, u), Request(Done), Store])
         == AfterSecondTicket(w, t, u)
  {
    var s := AfterLostReply(w, t);
    RunFour(s, Bind(w, Some(u)), StartProvision(w, u), Request(Done), Store);
    assert Step(s, Bind(w, Some(u))) == s.(slots := map[w := Slot(Some(u), None)]);
    SecondTicketIsGranted(w, t, u);
  }

  lemma ServeTwoTickets(w: string, t: string, u: string) returns (actions: seq<Action>)
    requires t != u
    ensures Run(EMPTY, actions) == AfterSecondTicket(w, t, u)
  {
    LoseFirstReply(w, t);
    ServeSecondTicket(w, t, u);
    var first := [AddSlot(w), Bind(w, Some(t)), StartProvision(w, t), Request(Lost)];
    var second := [Bind(w, Some(u)), StartProvision(w, u), Request(Done), Store];
    RunAppends(EMPTY, first, second);
    actions := first + second;
  }

  lemma RebindAndReplace(s: State, w: string, t: string, u: string)
    requires t != u && s == AfterSecondTicket(w, t, u)
    ensures
      var d := Deletion(Step(s, Bind(w, Some(t))), w, 1, Some(w));
      BothLive(Step(Step(d, StartProvision(w, t)), Request(Done)), 0, 2)
  {
    var b := Step(s, Bind(w, Some(t)));
    assert b.slots == map[w := Slot(Some(t), Some(1))];
    DeletionEffect(b, w, 1, Some(w));
    RequestWithoutKey(Deletion(b, w, 1, Some(w)), w, t);
  }

  /** Handing a slot with a workspace to another ticket lets that ticket get two live workspaces. */
  lemma ReboundSlotDuplicates(w: string, t: string, u: string)
    requires t != u
    ensures exists actions :: BothLive(Run(EMPTY, actions), 0, 2)
  {
    var start := ServeTwoTickets(w, t, u);
    var s := Run(EMPTY, start);
    RebindAndReplace(s, w, t, u);
    var b := Step(s, Bind(w, Some(t)));
    var deletion := [StartDelete(1, Some(w), Some(w)), Delete(Done), Drop, Clear];
    RunFour(b, StartDelete(1, Some(w), Some(w)), Delete(Done), Drop, Clear);
    RunExtends(EMPTY, start, Bind(w, Some(t)));
    RunAppends(EMPTY, start + [Bind(w, Some(t))], deletion);
    RunExtends(EMPTY, start + [Bind(w, Some(t))] + deletion, StartProvision(w, t));
    RunExtends(EMPTY, start + [Bind(w, Some(t))] + deletion + [StartProvision(w, t)], Request(Done));
  }

  lemma RunExtends(s: State, actions: seq<Action>, a: Action)
    ensures Run(s, actions + [a]) == Step(Run(s, actions), a)
  {
    RunAppends(s, actions, [a]);
  }

  lemma RunFour(s: State, a: Action, b: Action, c: Action, d: Action)
    ensures Run(s, [a, b, c, d]) == Step(Step(Step(Step(s, a), b), c), d)
  {
    RunAppends(s, [a], [b, c, d]);
    RunAppends(Step(s, a), [b], [c, d]);
    RunAppends(Step(Step(s, a), b), [c], [d]);
    assert [a] + [b, c, d] == [a, b, c, d] && [b] + [c, d] == [b, c, d] && [c] + [d] == [c, d];
  }

  lemma {:induction false} RunAppends(s: State, a: seq<Action>, b: seq<Action>)
    ensures Run(s, a + b) == Run(Run(s, a), b)
    decreases |a|
  {
    if a == [] {
      assert a + b == b;
    } else {
      assert (a + b)[1..] == a[1..] + b;
      RunAppends(Step(s, a[0]), a[1..], b);
    }
  }

  // ------------------------------------------------------------------- calls that fail are repeated safely

  ghost function Provisioned(s: State, w: string, t: string): State {
    Step(Step(Step(s, StartProvision(w, t)), Request(Done)), Store)
  }

  /** Asking for a workspace whose key the Manager knows leaves the slot holding that key's workspace. */
  lemma ProvisionWithKey(s: State, w: string, t: string)
    requires s.pc.Quiet? && w in s.slots && s.slots[w].workspace.None? && (w, t) in s.keys && s.keys[(w, t)] in s.byKey
    ensures Provisioned(s, w, t)
         == s.(slots := s.slots[w := s.slots[w].(workspace := Some(s.byKey[s.keys[(w, t)]]))])
  {
    assert s.keys[(w, t) := s.keys[(w, t)]] == s.keys;
  }

  /** Asking for the first workspace of a pair creates one under a fresh key, and the slot holds it. */
  lemma ProvisionWithoutKey(s: State, w: string, t: string)
    requires TablesAgree(s) && s.pc.Quiet? && w in s.slots && s.slots[w].workspace.None? && (w, t) !in s.keys
    ensures Provisioned(s, w, t) ==
      s.(keys := s.keys[(w, t) := |s.issued|], issued := s.issued + [(w, t)],
         rows := s.rows + [Row((w, t), |s.issued|)], byKey := s.byKey[|s.issued| := |s.rows|],
         slots := s.slots[w := s.slots[w].(workspace := Some(|s.rows|))])
  {
    RequestWithoutKey(s, w, t);
  }

  /**
   A request whose reply is lost costs nothing: repeating it gives the same workspace, and leaves the very state
   that an undisturbed request would have left. One that is refused leaves at most a key behind.
   */
  lemma FailedRequestIsRepeated(s: State, w: string, t: string)
    requires TablesAgree(s) && s.pc.Quiet? && w in s.slots && s.slots[w].workspace.None? && (w, t) !in s.keys
    ensures
      var lost := Step(Step(s, StartProvision(w, t)), Request(Lost));
      var refused := Step(Step(s, StartProvision(w, t)), Request(Refused));
      && Provisioned(lost, w, t) == Provisioned(s, w, t)
      && refused == s.(keys := s.keys[(w, t) := |s.issued|], issued := s.issued + [(w, t)])
      && Provisioned(refused, w, t) == Provisioned(s, w, t)
  {
    ProvisionWithoutKey(s, w, t);
    var lost := Step(Step(s, StartProvision(w, t)), Request(Lost));
    assert lost == s.(keys := s.keys[(w, t) := |s.issued|], issued := s.issued + [(w, t)],
      rows := s.rows + [Row((w, t), |s.issued|)], byKey := s.byKey[|s.issued| := |s.rows|]);
    ProvisionWithKey(lost, w, t);
    RefusedRequestIsRepeated(s, w, t);
  }

  lemma RefusedRequestIsRepeated(s: State, w: string, t: string)
    requires TablesAgree(s) && s.pc.Quiet? && w in s.slots && s.slots[w].workspace.None? && (w, t) !in s.keys
    ensures
      var refused := Step(Step(s, StartProvision(w, t)), Request(Refused));
      && refused == s.(keys := s.keys[(w, t) := |s.issued|], issued := s.issued + [(w, t)])
      && Provisioned(refused, w, t) == Provisioned(s, w, t)
  {
    ProvisionWithoutKey(s, w, t);
    var refused := s.(keys := s.keys[(w, t) := |s.issued|], issued := s.issued + [(w, t)]);
    var key := |s.issued|;
    assert refused.keys[(w, t) := key] == refused.keys;
    assert key !in s.byKey;
    var q := Step(refused, StartProvision(w, t));
    assert q == refused.(pc := Requesting((w, t), key));
    var g := Step(q, Request(Done));
    assert g == refused.(rows := s.rows + [Row((w, t), key)], byKey := s.byKey[key := |s.rows|],
      pc := Storing(w, |s.rows|));
  }

  /**
   A deletion that is refused changes nothing. One whose reply is lost keeps the key and the slot, and the repeated
   deletion then leaves the state that an undisturbed one would have left.
   */
  lemma FailedDeletionIsRepeated(s: State, w: string, ws: nat, via: Option<string>)
    requires s.pc.Quiet? && ws < |s.rows| && Holds(s, w, ws) && via == if s.slots[w].ticket.Some? then Some(w) else None
    requires forall v :: v in s.slots && Holds(s, v, ws) ==> v == w
    ensures Step(Step(s, StartDelete(ws, via, Some(w))), Delete(Refused)) == s
    ensures
      var lost := Step(Step(s, StartDelete(ws, via, Some(w))), Delete(Lost));
      lost == s.(deleted := s.deleted + {ws}) && Deletion(lost, w, ws, via) == Deletion(s, w, ws, via)
  {
    assert Finds(s, ws, via);
    DeletionEffect(s, w, ws, via);
    var lost := s.(deleted := s.deleted + {ws});
    DeletionEffect(lost, w, ws, via);
    assert lost.deleted + {ws} == s.deleted + {ws};
  }
}
