/**
 The reviewer session protocol: any number of pollers, each holding the per-ticket scheduling lease
 while it continues, adopts or replaces the ticket's one SENTINEL conversation. One step per store
 operation or remote call; every remote call may fail.
 */
module ReviewerSession {
  import opened Text

  type ChatId = nat
  type Poller = nat

  /** `active` stands for the Running, Pending and RequiresAction states. A deleted chat answers 404. */
  datatype Chat = Chat(ticket: string, workspace: string, active: bool, archived: bool, deleted: bool)

  /** What a poller was asked to do: review `ticket` in `round`, from `workspace`. */
  datatype Job = Job(ticket: string, round: string, workspace: string)

  datatype Pc =
    | Claimed                                   // lease held, nothing read yet
    | Adopting(todo: seq<string>)               // no session key: trying older round aliases
    | Checking(id: ChatId)
    | Interrupting(id: ChatId)
    | Rechecking(id: ChatId)
    | Archiving(id: ChatId)
    | Unbinding                                 // old chat archived or confirmed gone; session key to be deleted
    | Creating
    | BindingNew(id: ChatId)
    | BindingOld(id: ChatId, active: bool)
    | Sending(id: ChatId)
    | BindingRound(id: ChatId)
    | Finished(result: Option<ChatId>)

  datatype Poll = Poll(job: Job, pc: Pc)

  /** A request for review that a chat got, at its creation or as an accepted message. */
  datatype Request = Request(chat: ChatId, job: Job)

  /**
   What happened so far: the requests chats got, the chats a poller found at rest or gone, and those a poller
   archived, with the workspace it wanted instead.
   */
  datatype History = History(requests: set<Request>, rested: set<ChatId>, retired: set<(ChatId, string)>)

  datatype State = State(
    history: History,
    lease: map<string, Poller>,
    session: map<string, ChatId>,
    rounds: map<(string, string), ChatId>,
    pendingInstructions: set<string>,
    chats: map<ChatId, Chat>,
    polls: map<Poller, Poll>)

  datatype Action =
    | Claim(p: Poller, job: Job)
    | ForgetRound(p: Poller)
    | Begin(p: Poller, listing: seq<string>)
    | TryAlias(p: Poller, failed: bool)
    | Check(p: Poller, failed: bool)
    | Interrupt(p: Poller, failed: bool)
    | Recheck(p: Poller, failed: bool)
    | Archive(p: Poller, failed: bool)
    | Unbind(p: Poller)
    | Create(p: Poller, made: Option<ChatId>)     // None: the call failed and created nothing
    | CreateLost(p: Poller, id: ChatId)         // the call created a chat but its reply was lost
    | Bind(p: Poller)
    | Send(p: Poller, failed: bool)
    | BindRound(p: Poller)
    | Release(p: Poller)
    | Outside(id: ChatId, chat: Chat)           // the chat changes on its own
    | Instructions(pending: set<string>)

  function Empty(): State {
    State(History({}, {}, {}), map[], map[], map[], {}, map[], map[])
  }

  predicate Gone(s: State, id: ChatId) {
    id !in s.chats || s.chats[id].deleted
  }

  /** The chat exists and is not archived. */
  predicate Live(s: State, id: ChatId) {
    !Gone(s, id) && !s.chats[id].archived
  }

  /** A chat keeps its ticket and workspace, and neither archiving nor deletion is undone. */
  predicate MayBecome(old': Chat, new': Chat) {
    new'.ticket == old'.ticket && new'.workspace == old'.workspace
    && (old'.archived ==> new'.archived) && (old'.deleted ==> new'.deleted)
  }

  function NewChat(job: Job): Chat {
    Chat(job.ticket, job.workspace, true, false, false)
  }

  /** The server hands out an id that nothing refers to yet. */
  predicate FreshId(s: State, id: ChatId) {
    id !in s.chats && forall t :: t in s.session ==> s.session[t] != id
  }

  function CheckOutcome(s: State, job: Job, id: ChatId): Pc {
    if Gone(s, id) then Unbinding
    else if s.chats[id].workspace == job.workspace then BindingOld(id, s.chats[id].active)
    else if s.chats[id].active then Interrupting(id)
    else Archiving(id)
  }

  datatype KeyOp = Keep | Delete | Set(id: ChatId)

  /** What a step adds to the history. */
  datatype Note = Nothing | Asked(id: ChatId) | Rested(id: ChatId) | Retired(id: ChatId)

  /** What one step of a poller does: its next point, the session key, its round key, one chat, and its note. */
  datatype Effect = Effect(pc: Pc, session: KeyOp, round: KeyOp, chat: Option<(ChatId, Chat)>, note: Note)

  /** A step that only moves on. */
  function Goto(pc: Pc): Effect {
    Effect(pc, Keep, Keep, None, Nothing)
  }

  /** A step that moves on after reading the chat; what is noted depends on the chat alone, not on where to. */
  function Looked(s: State, id: ChatId, pc: Pc): Effect {
    Effect(pc, Keep, Keep, None, if Gone(s, id) || !s.chats[id].active then Rested(id) else Nothing)
  }

  function Noted(h: History, job: Job, note: Note): History {
    match note
    case Nothing => h
    case Asked(id) => h.(requests := h.requests + {Request(id, job)})
    case Rested(id) => h.(rested := h.rested + {id})
    case Retired(id) => h.(retired := h.retired + {(id, job.workspace)})
  }

  /** The next step of a poll at `pc`, if action `a` is the one it waits for. */
  function Next(s: State, a: Action, job: Job, pc: Pc): Option<Effect> {
    match pc
    case Claimed =>
      if a.ForgetRound? then Some(Effect(Claimed, Keep, Delete, None, Nothing))
      else if !a.Begin? then None
      else if job.workspace in s.pendingInstructions then Some(Goto(Finished(None)))
      else if job.ticket in s.session then Some(Goto(Checking(s.session[job.ticket])))
      else Some(Goto(Adopting(a.listing)))
    case Adopting(todo) =>
      if !a.TryAlias? then None
      else if todo == [] then Some(Goto(Creating))
      else if (job.ticket, todo[0]) !in s.rounds then Some(Goto(Adopting(todo[1..])))
      else if a.failed then Some(Goto(Finished(None)))
      else
        var id := s.rounds[(job.ticket, todo[0])];
        Some(Goto(if !Gone(s, id) && s.chats[id].workspace == job.workspace then Checking(id) else Adopting(todo[1..])))
    case Checking(id) =>
      if !a.Check? then None
      else Some(if a.failed then Goto(Finished(None)) else Looked(s, id, CheckOutcome(s, job, id)))
    case Interrupting(id) =>
      if !a.Interrupt? then None else Some(Goto(if a.failed then Finished(None) else Rechecking(id)))
    case Rechecking(id) =>
      if !a.Recheck? then None
      else if a.failed then Some(Goto(Finished(None)))
      else Some(Looked(s, id, if !Gone(s, id) && s.chats[id].active then Finished(None) else Archiving(id)))
    case Archiving(id) =>
      if !a.Archive? then None
      else if a.failed then Some(Goto(Finished(None)))
      else Some(Effect(Unbinding, Keep, Keep,
                       if id in s.chats then Some((id, s.chats[id].(archived := true))) else None, Retired(id)))
    case Unbinding =>
      if !a.Unbind? then None else Some(Effect(Creating, Delete, Keep, None, Nothing))
    case Creating =>
      if a.Create? && a.made.None? then Some(Goto(Finished(None)))
      else if a.Create? && FreshId(s, a.made.value)
      then Some(Effect(BindingNew(a.made.value), Keep, Keep, Some((a.made.value, NewChat(job))), Asked(a.made.value)))
      else if a.CreateLost? && FreshId(s, a.id)
      then Some(Effect(Finished(None), Keep, Keep, Some((a.id, NewChat(job))), Asked(a.id)))
      else None
    case BindingNew(id) =>
      if !a.Bind? then None else Some(Effect(BindingRound(id), Set(id), Keep, None, Nothing))
    case BindingOld(id, active) =>
      if !a.Bind? then None
      else Some(Effect(if active then Finished(None) else Sending(id), Set(id), Keep, None, Nothing))
    case Sending(id) =>
      if !a.Send? then None
      else if a.failed then Some(Goto(Finished(None)))
      else Some(Effect(BindingRound(id), Keep, Keep, None, Asked(id)))
    case BindingRound(id) =>
      if !a.BindRound? then None else Some(Effect(Finished(Some(id)), Keep, Set(id), None, Nothing))
    case Finished(_) => None
  }

  function Write<K>(m: map<K, ChatId>, k: K, op: KeyOp): map<K, ChatId> {
    match op
    case Keep => m
    case Delete => m - {k}
    case Set(id) => m[k := id]
  }

  function Apply(s: State, p: Poller, job: Job, e: Effect): State {
    s.(history := Noted(s.history, job, e.note),
       session := Write(s.session, job.ticket, e.session),
       rounds := Write(s.rounds, (job.ticket, job.round), e.round),
       chats := if e.chat.Some? then s.chats[e.chat.value.0 := e.chat.value.1] else s.chats,
       polls := s.polls[p := Poll(job, e.pc)])
  }

  predicate ByPoller(a: Action) {
    !a.Claim? && !a.Release? && !a.Outside? && !a.Instructions?
  }

  function WithClaim(s: State, p: Poller, job: Job): State {
    if p in s.polls || job.ticket in s.lease then s
    else s.(lease := s.lease[job.ticket := p], polls := s.polls[p := Poll(job, Claimed)])
  }

  function Released(s: State, p: Poller): State {
    if p in s.polls && s.polls[p].pc.Finished?
    then s.(lease := s.lease - {s.polls[p].job.ticket}, polls := s.polls - {p}) else s
  }

  function Polled(s: State, a: Action): State
    requires ByPoller(a)
  {
    if a.p !in s.polls then s
    else
      var Poll(job, pc) := s.polls[a.p];
      var e := Next(s, a, job, pc);
      if e.None? then s else Apply(s, a.p, job, e.value)
  }

  function Step(s: State, a: Action): State {
    if ByPoller(a) then Polled(s, a)
    else
      match a
      case Claim(p, job) => WithClaim(s, p, job)
      case Release(p) => Released(s, p)
      case Outside(id, chat) =>
        if id in s.chats && MayBecome(s.chats[id], chat) then s.(chats := s.chats[id := chat]) else s
      case Instructions(pending) => s.(pendingInstructions := pending)
  }

  function Run(s: State, actions: seq<Action>): State
    decreases |actions|
  {
    if actions == [] then s else Run(Step(s, actions[0]), actions[1..])
  }

  // ----- invariant -----

  /** The store, or the poller about to record it, knows chat `c` as the ticket's session. */
  predicate Named(s: State, ticket: string, c: ChatId) {
    (ticket in s.session && s.session[ticket] == c)
    || (ticket in s.lease && s.lease[ticket] in s.polls && s.polls[s.lease[ticket]].pc == BindingNew(c))
  }

  function Get<K>(m: map<K, ChatId>, k: K): Option<ChatId> {
    if k in m then Some(m[k]) else None
  }

  /** What a poll at `pc` knows about its ticket's session, whether that session is live, and its round. */
  predicate PcOk(pc: Pc, session: Option<ChatId>, live: bool, round: Option<ChatId>) {
    match pc
    case Adopting(_) => session.None?
    case Checking(id) => session.Some? ==> session.value == id
    case Interrupting(id) => session.Some? ==> session.value == id
    case Rechecking(id) => session.Some? ==> session.value == id
    case Archiving(id) => session.Some? ==> session.value == id
    case BindingOld(id, _) => session.Some? ==> session.value == id
    case Unbinding => session.Some? ==> !live
    case Creating => session.None?
    case BindingNew(_) => session.None?
    case Sending(id) => session == Some(id)
    case BindingRound(id) => session == Some(id)
    case Finished(Some(id)) => session == Some(id) && round == Some(id)
    case _ => true
  }

  predicate SessionLive(s: State, t: string) {
    t in s.session && Live(s, s.session[t])
  }

  predicate PollOk(s: State, poll: Poll) {
    var t := poll.job.ticket;
    PcOk(poll.pc, Get(s.session, t), SessionLive(s, t), Get(s.rounds, (t, poll.job.round)))
  }

  ghost predicate LeasesMatch(s: State) {
    && (forall t :: t in s.lease ==> s.lease[t] in s.polls && s.polls[s.lease[t]].job.ticket == t)
    && (forall p :: p in s.polls ==> s.polls[p].job.ticket in s.lease && s.lease[s.polls[p].job.ticket] == p)
  }

  ghost predicate PollsOk(s: State) {
    forall p :: p in s.polls ==> PollOk(s, s.polls[p])
  }

  ghost predicate LiveAreNamed(s: State) {
    forall c :: c in s.chats && Live(s, c) ==> Named(s, s.chats[c].ticket, c)
  }

  ghost predicate Inv(s: State) {
    LeasesMatch(s) && PollsOk(s) && LiveAreNamed(s)
  }

  /** The value of a key after an operation on it. */
  function After(v: Option<ChatId>, op: KeyOp): Option<ChatId> {
    match op case Keep => v case Delete => None case Set(id) => Some(id)
  }

  /**
   What makes an effect safe for the poll's ticket: it only unbinds a session that is not live, only
   rebinds the recorded session, and a chat it creates is the one it records next.
   */
  ghost predicate Legal(s: State, job: Job, pc: Pc, e: Effect) {
    var session := Get(s.session, job.ticket);
    && (e.session.Delete? ==> !SessionLive(s, job.ticket))
    && (e.session.Set? ==> if pc.BindingNew? then pc.id == e.session.id && session.None?
                           else session.Some? ==> session.value == e.session.id)
    && (pc.BindingNew? ==> e.session == Set(pc.id))
    && (e.pc.BindingNew? ==> e.chat.Some? && e.chat.value.0 == e.pc.id)
    && (e.chat.Some? ==>
          var (id, chat) := e.chat.value;
          if id in s.chats then MayBecome(s.chats[id], chat)
          else FreshId(s, id) && e.pc == BindingNew(id) && chat.ticket == job.ticket && e.session.Keep?)
  }

  lemma NextIsLegal(s: State, a: Action, job: Job, pc: Pc)
    requires PollOk(s, Poll(job, pc)) && !a.CreateLost? && Next(s, a, job, pc).Some?
    ensures Legal(s, job, pc, Next(s, a, job, pc).value)
  {
  }

  /** Whether the session chat can still be live once the effect is applied. */
  predicate LiveAfter(s: State, job: Job, e: Effect) {
    SessionLive(s, job.ticket) && !(e.chat.Some? && e.chat.value.0 == s.session[job.ticket] && e.chat.value.1.archived)
  }

  lemma NextPcOk(s: State, a: Action, job: Job, pc: Pc, live: bool)
    requires PollOk(s, Poll(job, pc)) && !a.CreateLost? && Next(s, a, job, pc).Some?
    requires var e := Next(s, a, job, pc).value; e.session.Keep? && live ==> LiveAfter(s, job, e)
    ensures var e := Next(s, a, job, pc).value;
            PcOk(e.pc, After(Get(s.session, job.ticket), e.session), live,
                 After(Get(s.rounds, (job.ticket, job.round)), e.round))
  {
  }

  lemma LiveStaysNamed(s: State, p: Poller, e: Effect, c: ChatId)
    requires Inv(s) && p in s.polls && Legal(s, s.polls[p].job, s.polls[p].pc, e)
    requires Live(Apply(s, p, s.polls[p].job, e), c)
    ensures var s' := Apply(s, p, s.polls[p].job, e); Named(s', s'.chats[c].ticket, c)
  {
    if c in s.chats {
      assert Live(s, c) && Named(s, s.chats[c].ticket, c);
    }
  }

  /** An effect that is legal and leads to a point the poll may be at. */
  ghost predicate Sound(s: State, p: Poller, e: Effect)
    requires p in s.polls
  {
    var Poll(job, pc) := s.polls[p];
    Legal(s, job, pc, e) && PollOk(Apply(s, p, job, e), Poll(job, e.pc))
  }

  lemma ApplyKeepsInv(s: State, p: Poller, e: Effect)
    requires Inv(s) && p in s.polls && Sound(s, p, e)
    ensures Inv(Apply(s, p, s.polls[p].job, e))
  {
    var Poll(job, pc) := s.polls[p];
    var s' := Apply(s, p, job, e);
    forall q | q in s'.polls ensures PollOk(s', s'.polls[q]) {
    }
    forall c | c in s'.chats && Live(s', c) ensures Named(s', s'.chats[c].ticket, c) {
      LiveStaysNamed(s, p, e, c);
    }
  }

  lemma EffectIsSound(s: State, p: Poller, e: Effect)
    requires p in s.polls && Legal(s, s.polls[p].job, s.polls[p].pc, e)
    requires
      var job := s.polls[p].job;
      PcOk(e.pc, After(Get(s.session, job.ticket), e.session), SessionLive(Apply(s, p, job, e), job.ticket),
           After(Get(s.rounds, (job.ticket, job.round)), e.round))
    ensures Sound(s, p, e)
  {
    var job := s.polls[p].job;
    var n := Apply(s, p, job, e);
    assert Get(n.session, job.ticket) == After(Get(s.session, job.ticket), e.session);
    assert Get(n.rounds, (job.ticket, job.round)) == After(Get(s.rounds, (job.ticket, job.round)), e.round);
  }

  lemma PollerStepIsSound(s: State, a: Action) returns (e: Effect)
    requires ByPoller(a) && !a.CreateLost? && a.p in s.polls && PollOk(s, s.polls[a.p]) && Polled(s, a) != s
    ensures Step(s, a) == Apply(s, a.p, s.polls[a.p].job, e) && Sound(s, a.p, e)
  {
    var Poll(job, pc) := s.polls[a.p];
    assert s.polls[a.p] == Poll(job, pc);
    e := Next(s, a, job, pc).value;
    NextIsLegal(s, a, job, pc);
    NextPcOk(s, a, job, pc, SessionLive(Apply(s, a.p, job, e), job.ticket));
    EffectIsSound(s, a.p, e);
  }

  lemma ChatChangeKeepsInv(s: State, id: ChatId, chat: Chat)
    requires Inv(s) && id in s.chats && MayBecome(s.chats[id], chat)
    ensures Inv(s.(chats := s.chats[id := chat]))
  {
    var s' := s.(chats := s.chats[id := chat]);
    forall q | q in s'.polls ensures PollOk(s', s'.polls[q]) {
      assert PollOk(s, s.polls[q]);
    }
    forall c | c in s'.chats && Live(s', c) ensures Named(s', s'.chats[c].ticket, c) {
      assert Live(s, c);
    }
  }

  lemma ClaimKeepsLeases(s: State, p: Poller, job: Job)
    requires LeasesMatch(s)
    ensures LeasesMatch(WithClaim(s, p, job))
  {
  }

  lemma ClaimKeepsNamed(s: State, p: Poller, job: Job)
    requires LeasesMatch(s) && LiveAreNamed(s)
    ensures LiveAreNamed(WithClaim(s, p, job))
  {
  }

  lemma ReleaseKeepsNamed(s: State, p: Poller)
    requires LeasesMatch(s) && LiveAreNamed(s)
    ensures LiveAreNamed(Released(s, p))
  {
  }

  lemma ClaimKeepsInv(s: State, p: Poller, job: Job)
    requires Inv(s)
    ensures Inv(WithClaim(s, p, job))
  {
    ClaimKeepsLeases(s, p, job);
    ClaimKeepsNamed(s, p, job);
  }

  lemma ReleaseKeepsInv(s: State, p: Poller)
    requires Inv(s)
    ensures Inv(Released(s, p))
  {
    ReleaseKeepsNamed(s, p);
  }

  lemma PolledKeepsInv(s: State, a: Action)
    requires Inv(s) && ByPoller(a) && !a.CreateLost?
    ensures Inv(Polled(s, a))
  {
    if a.p in s.polls && Polled(s, a) != s {
      var e := PollerStepIsSound(s, a);
      ApplyKeepsInv(s, a.p, e);
    }
  }

  lemma StepKeepsInv(s: State, a: Action)
    requires Inv(s) && !a.CreateLost?
    ensures Inv(Step(s, a))
  {
    if ByPoller(a) {
      PolledKeepsInv(s, a);
    } else {
      match a
      case Claim(p, job) => ClaimKeepsInv(s, p, job);
      case Release(p) => ReleaseKeepsInv(s, p);
      case Outside(id, chat) => if id in s.chats && MayBecome(s.chats[id], chat) { ChatChangeKeepsInv(s, id, chat); }
      case Instructions(_) =>
    }
  }

  ghost predicate NoLostCreate(actions: seq<Action>) {
    forall a :: a in actions ==> !a.CreateLost?
  }

  lemma {:induction false} RunKeepsInv(s: State, actions: seq<Action>)
    requires Inv(s) && NoLostCreate(actions)
    ensures Inv(Run(s, actions))
    decreases |actions|
  {
    if actions != [] {
      assert actions[0] in actions;
      StepKeepsInv(s, actions[0]);
      RunKeepsInv(Step(s, actions[0]), actions[1..]);
    }
  }

  // ----- theorems -----

  /** At most one live conversation per ticket, in every interleaving of any number of pollers. */
  lemma OneLiveChatPerTicket(actions: seq<Action>, c: ChatId, d: ChatId)
    requires NoLostCreate(actions)
    requires var s := Run(Empty(), actions); Live(s, c) && Live(s, d) && s.chats[c].ticket == s.chats[d].ticket
    ensures c == d
  {
    RunKeepsInv(Empty(), actions);
    var s := Run(Empty(), actions);
    assert Named(s, s.chats[c].ticket, c) && Named(s, s.chats[d].ticket, d);
    var t := s.chats[c].ticket;
    if t in s.lease {
      assert PollOk(s, s.polls[s.lease[t]]);
    }
  }

  /** A chat is created only when every earlier chat of the ticket is archived or gone, and no session is recorded. */
  lemma CreatesOnlyReplacements(actions: seq<Action>, p: Poller, id: ChatId)
    requires NoLostCreate(actions)
    requires var s := Run(Empty(), actions); id !in s.chats && id in Step(s, Create(p, Some(id))).chats
    ensures var s := Run(Empty(), actions);
            p in s.polls && s.polls[p].job.ticket !in s.session
            && forall c :: c in s.chats && s.chats[c].ticket == s.polls[p].job.ticket ==> !Live(s, c)
  {
    RunKeepsInv(Empty(), actions);
    var s := Run(Empty(), actions);
    assert PollOk(s, s.polls[p]);
  }

  // ----- what chats got and why they were archived -----

  /** The chat exists and was created for the ticket. */
  ghost predicate OwnChat(s: State, ticket: string, id: ChatId) {
    id in s.chats && s.chats[id].ticket == ticket
  }

  ghost predicate InPlace(s: State, job: Job, id: ChatId) {
    OwnChat(s, job.ticket, id) && s.chats[id].workspace == job.workspace
  }

  ghost predicate Elsewhere(s: State, job: Job, id: ChatId) {
    OwnChat(s, job.ticket, id) && s.chats[id].workspace != job.workspace
  }

  ghost predicate PcFits(s: State, job: Job, pc: Pc) {
    match pc
    case Checking(id) => OwnChat(s, job.ticket, id)
    case Interrupting(id) => Elsewhere(s, job, id)
    case Rechecking(id) => Elsewhere(s, job, id)
    case Archiving(id) => Elsewhere(s, job, id) && id in s.history.rested
    case BindingOld(id, active) => InPlace(s, job, id) && (!active ==> id in s.history.rested)
    case Sending(id) => InPlace(s, job, id) && id in s.history.rested
    case BindingNew(id) => Request(id, job) in s.history.requests
    case BindingRound(id) => Request(id, job) in s.history.requests
    case _ => true
  }

  /** The chat bound to a round got the request of that round. */
  ghost predicate RoundFits(s: State, ticket: string, round: string, id: ChatId) {
    exists workspace :: Request(id, Job(ticket, round, workspace)) in s.history.requests
  }

  ghost predicate HistoryFits(s: State) {
    && (forall r :: r in s.history.requests ==> InPlace(s, r.job, r.chat))
    && (forall id, ws :: (id, ws) in s.history.retired ==>
          id in s.history.rested && id in s.chats && s.chats[id].workspace != ws)
    && (forall t :: t in s.session ==> OwnChat(s, t, s.session[t]))
    && (forall t, r :: (t, r) in s.rounds ==> RoundFits(s, t, r, s.rounds[(t, r)]))
    && (forall p :: p in s.polls ==> PcFits(s, s.polls[p].job, s.polls[p].pc))
  }

  /** Chats keep their ticket and workspace, and the history only grows. */
  ghost predicate Later(s: State, n: State) {
    && (forall id :: id in s.chats ==>
          id in n.chats && n.chats[id].ticket == s.chats[id].ticket && n.chats[id].workspace == s.chats[id].workspace)
    && s.history.requests <= n.history.requests && s.history.rested <= n.history.rested
  }

  lemma RoundFitsLater(s: State, n: State, ticket: string, round: string, id: ChatId)
    requires Later(s, n) && RoundFits(s, ticket, round, id)
    ensures RoundFits(n, ticket, round, id)
  {
    var workspace :| Request(id, Job(ticket, round, workspace)) in s.history.requests;
    assert Request(id, Job(ticket, round, workspace)) in n.history.requests;
  }

  /** A step of a poll from a point that fits: where it goes, what it notes and which keys it writes. */
  ghost predicate EffectFits(s: State, n: State, job: Job, e: Effect) {
    && PcFits(n, job, e.pc)
    && (e.note.Asked? ==> InPlace(n, job, e.note.id))
    && (e.note.Retired? ==> Elsewhere(n, job, e.note.id) && e.note.id in s.history.rested)
    && (e.session.Set? ==> OwnChat(n, job.ticket, e.session.id))
    && (e.round.Set? ==> Request(e.round.id, job) in s.history.requests)
  }

  lemma NextKeepsChats(s: State, a: Action, job: Job, pc: Pc)
    requires Next(s, a, job, pc).Some?
    ensures
      var e := Next(s, a, job, pc).value;
      e.chat.Some? && e.chat.value.0 in s.chats ==> MayBecome(s.chats[e.chat.value.0], e.chat.value.1)
  {
  }

  lemma ApplyIsLater(s: State, p: Poller, job: Job, e: Effect)
    requires e.chat.Some? && e.chat.value.0 in s.chats ==> MayBecome(s.chats[e.chat.value.0], e.chat.value.1)
    ensures Later(s, Apply(s, p, job, e))
  {
  }

  lemma NextIsLater(s: State, a: Action, p: Poller, job: Job, pc: Pc)
    requires Next(s, a, job, pc).Some?
    ensures Later(s, Apply(s, p, job, Next(s, a, job, pc).value))
  {
    NextKeepsChats(s, a, job, pc);
    ApplyIsLater(s, p, job, Next(s, a, job, pc).value);
  }

  /** A chat found under an older round of the ticket was created for the ticket. */
  lemma AliasIsOwn(s: State, ticket: string, round: string)
    requires HistoryFits(s) && (ticket, round) in s.rounds
    ensures OwnChat(s, ticket, s.rounds[(ticket, round)])
  {
    var id := s.rounds[(ticket, round)];
    assert RoundFits(s, ticket, round, id);
    var workspace :| Request(id, Job(ticket, round, workspace)) in s.history.requests;
    assert InPlace(s, Job(ticket, round, workspace), id);
  }

  lemma NextFits(s: State, a: Action, p: Poller, job: Job, pc: Pc)
    requires HistoryFits(s) && PcFits(s, job, pc) && Next(s, a, job, pc).Some?
    ensures var e := Next(s, a, job, pc).value; EffectFits(s, Apply(s, p, job, e), job, e)
  {
    if pc.Adopting? && pc.todo != [] && (job.ticket, pc.todo[0]) in s.rounds {
      AliasIsOwn(s, job.ticket, pc.todo[0]);
    }
  }

  lemma ApplyKeepsHistory(s: State, p: Poller, job: Job, e: Effect)
    requires HistoryFits(s) && p in s.polls && s.polls[p].job == job
    requires var n := Apply(s, p, job, e); Later(s, n) && EffectFits(s, n, job, e)
    ensures HistoryFits(Apply(s, p, job, e))
  {
    var n := Apply(s, p, job, e);
    forall q | q in n.polls ensures PcFits(n, n.polls[q].job, n.polls[q].pc) {
    }
    forall t, r | (t, r) in n.rounds ensures RoundFits(n, t, r, n.rounds[(t, r)]) {
      if (t, r) in s.rounds && n.rounds[(t, r)] == s.rounds[(t, r)] {
        RoundFitsLater(s, n, t, r, s.rounds[(t, r)]);
      } else {
        assert (t, r) == (job.ticket, job.round);
        assert Request(e.round.id, Job(t, r, job.workspace)) in n.history.requests;
      }
    }
  }

  lemma HistoryFrame(s: State, n: State)
    requires HistoryFits(s) && Later(s, n) && n.history == s.history && n.session == s.session && n.rounds == s.rounds
    requires forall q :: q in n.polls ==> n.polls[q].pc.Claimed? || (q in s.polls && n.polls[q] == s.polls[q])
    ensures HistoryFits(n)
  {
    forall q | q in n.polls ensures PcFits(n, n.polls[q].job, n.polls[q].pc) {
    }
    forall t, r | (t, r) in n.rounds ensures RoundFits(n, t, r, n.rounds[(t, r)]) {
      RoundFitsLater(s, n, t, r, s.rounds[(t, r)]);
    }
  }

  lemma OtherStepKeepsHistory(s: State, a: Action)
    requires HistoryFits(s) && !ByPoller(a)
    ensures HistoryFits(Step(s, a))
  {
    match a
    case Claim(p, job) =>
    case Release(p) => ReleaseKeepsHistory(s, p);
    case Outside(id, chat) => if id in s.chats && MayBecome(s.chats[id], chat) { OutsideKeepsHistory(s, id, chat); }
    case Instructions(pending) => HistoryFrame(s, s.(pendingInstructions := pending));
  }

  lemma ReleaseKeepsHistory(s: State, p: Poller)
    requires HistoryFits(s)
    ensures HistoryFits(Released(s, p))
  {
    HistoryFrame(s, Released(s, p));
  }

  lemma OutsideKeepsHistory(s: State, id: ChatId, chat: Chat)
    requires HistoryFits(s) && id in s.chats && MayBecome(s.chats[id], chat)
    ensures HistoryFits(s.(chats := s.chats[id := chat]))
  {
    HistoryFrame(s, s.(chats := s.chats[id := chat]));
  }

  lemma StepKeepsHistory(s: State, a: Action)
    requires HistoryFits(s)
    ensures HistoryFits(Step(s, a))
  {
    if !ByPoller(a) {
      OtherStepKeepsHistory(s, a);
    } else if a.p in s.polls && Next(s, a, s.polls[a.p].job, s.polls[a.p].pc).Some? {
      var Poll(job, pc) := s.polls[a.p];
      NextIsLater(s, a, a.p, job, pc);
      NextFits(s, a, a.p, job, pc);
      ApplyKeepsHistory(s, a.p, job, Next(s, a, job, pc).value);
    }
  }

  lemma {:induction false} RunKeepsHistory(s: State, actions: seq<Action>)
    requires HistoryFits(s)
    ensures HistoryFits(Run(s, actions))
    decreases |actions|
  {
    if actions != [] {
      StepKeepsHistory(s, actions[0]);
      RunKeepsHistory(Step(s, actions[0]), actions[1..]);
    }
  }

  /**
   In every run, lost replies included, whenever a round key names a chat, that chat was created for the ticket
   in the workspace of a poll of that round, and got the request of that round.
   */
  lemma RoundFollowsDelivery(actions: seq<Action>, ticket: string, round: string) returns (workspace: string)
    requires (ticket, round) in Run(Empty(), actions).rounds
    ensures
      var s := Run(Empty(), actions);
      var id := s.rounds[(ticket, round)];
      var job := Job(ticket, round, workspace);
      Request(id, job) in s.history.requests && InPlace(s, job, id)
  {
    RunKeepsHistory(Empty(), actions);
    var s := Run(Empty(), actions);
    var id := s.rounds[(ticket, round)];
    assert RoundFits(s, ticket, round, id);
    workspace :| Request(id, Job(ticket, round, workspace)) in s.history.requests;
  }

  /** In every run, a request is sent as a message only to a chat of the poll's workspace that was found at rest. */
  lemma MessagesOnlyAtRest(actions: seq<Action>, p: Poller, id: ChatId)
    requires var s := Run(Empty(), actions); p in s.polls && s.polls[p].pc == Sending(id)
    ensures var s := Run(Empty(), actions); InPlace(s, s.polls[p].job, id) && id in s.history.rested
  {
    RunKeepsHistory(Empty(), actions);
    var s := Run(Empty(), actions);
    assert PcFits(s, s.polls[p].job, s.polls[p].pc);
  }

  /** Outside the pollers, chats may do anything but be archived. */
  ghost predicate OnlyPollersArchive(actions: seq<Action>) {
    forall a :: a in actions && a.Outside? ==> !a.chat.archived
  }

  ghost predicate ArchivedAreRetired(s: State) {
    forall id :: id in s.chats && s.chats[id].archived ==> WasRetired(s, id)
  }

  ghost predicate WasRetired(s: State, id: ChatId) {
    exists ws :: (id, ws) in s.history.retired
  }

  lemma NextRetires(s: State, a: Action, job: Job, pc: Pc)
    requires Next(s, a, job, pc).Some?
    ensures
      var e := Next(s, a, job, pc).value;
      e.chat.Some? && e.chat.value.1.archived ==> e.note == Retired(e.chat.value.0)
  {
  }

  lemma ApplyKeepsRetired(s: State, p: Poller, job: Job, e: Effect)
    requires ArchivedAreRetired(s)
    requires e.chat.Some? && e.chat.value.1.archived ==> e.note == Retired(e.chat.value.0)
    ensures ArchivedAreRetired(Apply(s, p, job, e))
  {
    var n := Apply(s, p, job, e);
    forall id | id in n.chats && n.chats[id].archived ensures WasRetired(n, id) {
      if e.chat.Some? && e.chat.value.0 == id {
        assert (id, job.workspace) in n.history.retired;
      } else {
        var ws :| (id, ws) in s.history.retired;
        assert (id, ws) in n.history.retired;
      }
    }
  }

  lemma StepKeepsRetired(s: State, a: Action)
    requires ArchivedAreRetired(s) && (a.Outside? ==> !a.chat.archived)
    ensures ArchivedAreRetired(Step(s, a))
  {
    if ByPoller(a) && a.p in s.polls && Next(s, a, s.polls[a.p].job, s.polls[a.p].pc).Some? {
      var Poll(job, pc) := s.polls[a.p];
      NextRetires(s, a, job, pc);
      ApplyKeepsRetired(s, a.p, job, Next(s, a, job, pc).value);
    } else {
      RetiredFrame(s, Step(s, a));
    }
  }

  lemma RetiredFrame(s: State, n: State)
    requires ArchivedAreRetired(s) && n.history == s.history
    requires forall id :: id in n.chats && n.chats[id].archived ==> id in s.chats && s.chats[id].archived
    ensures ArchivedAreRetired(n)
  {
    forall id | id in n.chats && n.chats[id].archived ensures WasRetired(n, id) {
      assert WasRetired(s, id);
    }
  }

  lemma {:induction false} RunKeepsRetired(s: State, actions: seq<Action>)
    requires ArchivedAreRetired(s) && OnlyPollersArchive(actions)
    ensures ArchivedAreRetired(Run(s, actions))
    decreases |actions|
  {
    if actions != [] {
      assert actions[0] in actions;
      StepKeepsRetired(s, actions[0]);
      RunKeepsRetired(Step(s, actions[0]), actions[1..]);
    }
  }

  /**
   In every run in which only pollers archive, each archived chat had been found at rest or gone, and was
   archived by a poll that wanted another workspace than the chat's own.
   */
  lemma ArchivesOnlyQuiesced(actions: seq<Action>, id: ChatId) returns (wanted: string)
    requires OnlyPollersArchive(actions)
    requires var s := Run(Empty(), actions); id in s.chats && s.chats[id].archived
    ensures
      var s := Run(Empty(), actions);
      (id, wanted) in s.history.retired && id in s.history.rested && s.chats[id].workspace != wanted
  {
    RunKeepsHistory(Empty(), actions);
    RunKeepsRetired(Empty(), actions);
    var s := Run(Empty(), actions);
    assert WasRetired(s, id);
    wanted :| (id, wanted) in s.history.retired;
  }

  lemma StepKeepsSession(s: State, a: Action, ticket: string)
    requires Inv(s) && !a.CreateLost? && SessionLive(s, ticket)
    ensures ticket in Step(s, a).session && Step(s, a).session[ticket] == s.session[ticket]
  {
    if ByPoller(a) && a.p in s.polls && Polled(s, a) != s {
      var e := PollerStepIsSound(s, a);
      SoundKeepsSession(s, a.p, e, ticket);
    }
  }

  lemma SoundKeepsSession(s: State, p: Poller, e: Effect, ticket: string)
    requires Inv(s) && p in s.polls && Sound(s, p, e) && SessionLive(s, ticket)
    ensures
      var n := Apply(s, p, s.polls[p].job, e);
      ticket in n.session && n.session[ticket] == s.session[ticket]
  {
  }

  /** No step changes or loses the session binding of a live chat, whatever call fails. */
  lemma LiveSessionIsNeverLost(actions: seq<Action>, a: Action, ticket: string)
    requires NoLostCreate(actions + [a])
    requires var s := Run(Empty(), actions); SessionLive(s, ticket)
    ensures var s := Run(Empty(), actions);
            ticket in Step(s, a).session && Step(s, a).session[ticket] == s.session[ticket]
  {
    assert NoLostCreate(actions) by {
      assert forall b :: b in actions ==> b in actions + [a];
    }
    assert a in actions + [a];
    RunKeepsInv(Empty(), actions);
    StepKeepsSession(Run(Empty(), actions), a, ticket);
  }

  /** A poll that reports success leaves the session key and the round key naming the chat it returns. */
  lemma SuccessBindsBothKeys(actions: seq<Action>, p: Poller, id: ChatId)
    requires NoLostCreate(actions)
    requires var s := Run(Empty(), actions); p in s.polls && s.polls[p].pc == Finished(Some(id))
    ensures var s := Run(Empty(), actions); var job := s.polls[p].job;
            && job.ticket in s.session && s.session[job.ticket] == id
            && (job.ticket, job.round) in s.rounds && s.rounds[(job.ticket, job.round)] == id
  {
    RunKeepsInv(Empty(), actions);
    var s := Run(Empty(), actions);
    assert PollOk(s, s.polls[p]);
  }

  lemma RunTwo(s: State, a: Action, b: Action)
    ensures Run(s, [a, b]) == Step(Step(s, a), b)
  {
    assert [a, b][1..] == [b] && [b][1..] == [];
    assert Run(Step(s, a), [b]) == Run(Step(Step(s, a), b), []);
  }

  // ----- adoption, and the need of the assumption on creation -----

  /** The first chat of the listed rounds that exists in the poll's workspace. */
  function FirstUsable(s: State, job: Job, todo: seq<string>): Option<ChatId> {
    if todo == [] then None
    else if (job.ticket, todo[0]) in s.rounds && !Gone(s, s.rounds[(job.ticket, todo[0])])
            && s.chats[s.rounds[(job.ticket, todo[0])]].workspace == job.workspace
    then Some(s.rounds[(job.ticket, todo[0])])
    else FirstUsable(s, job, todo[1..])
  }

  function Tries(p: Poller, n: nat): seq<Action> {
    if n == 0 then [] else [TryAlias(p, false)] + Tries(p, n - 1)
  }

  lemma OneTry(s: State, p: Poller, n: nat)
    ensures Run(s, Tries(p, n + 1)) == Run(Step(s, TryAlias(p, false)), Tries(p, n))
  {
    assert Tries(p, n + 1)[1..] == Tries(p, n);
  }

  lemma {:induction false} TriesStay(s: State, p: Poller, n: nat)
    requires p in s.polls && (s.polls[p].pc.Checking? || s.polls[p].pc.Creating?)
    ensures Run(s, Tries(p, n)) == s
    decreases n
  {
    if n > 0 {
      OneTry(s, p, n - 1);
      TriesStay(s, p, n - 1);
    }
  }

  function AtPc(s: State, p: Poller, job: Job, pc: Pc): State {
    s.(polls := s.polls[p := Poll(job, pc)])
  }

  /** Where the listing leaves a poll. */
  function Adopted(s: State, job: Job, todo: seq<string>): Pc {
    var found := FirstUsable(s, job, todo);
    if found.Some? then Checking(found.value) else Creating
  }

  lemma TryMoves(s: State, p: Poller, job: Job, todo: seq<string>)
    requires p in s.polls && s.polls[p] == Poll(job, Adopting(todo))
    ensures
      var n := Step(s, TryAlias(p, false));
      n == AtPc(s, p, job,
           if todo == [] || FirstUsable(s, job, todo[..1]).Some? then Adopted(s, job, todo) else Adopting(todo[1..]))
  {
    var e := Next(s, TryAlias(p, false), job, Adopting(todo));
    assert e.Some? && e.value == Goto(e.value.pc);
    assert Step(s, TryAlias(p, false)) == Apply(s, p, job, e.value);
    if todo != [] { assert todo[..1][0] == todo[0] && todo[..1][1..] == []; }
  }

  /**
   Going through any listing of older rounds, a poll adopts the first chat that exists in its workspace, and
   gets to the creation of a new one exactly when there is none.
   */
  lemma {:induction false} ReachesCreation(s: State, p: Poller, job: Job, todo: seq<string>)
    requires p in s.polls && s.polls[p] == Poll(job, Adopting(todo))
    ensures Run(s, Tries(p, |todo| + 1)) == AtPc(s, p, job, Adopted(s, job, todo))
    decreases |todo|
  {
    var n := Step(s, TryAlias(p, false));
    OneTry(s, p, |todo|);
    TryMoves(s, p, job, todo);
    if todo == [] || FirstUsable(s, job, todo[..1]).Some? {
      TriesStay(n, p, |todo|);
    } else {
      ReachesCreation(n, p, job, todo[1..]);
      SkipsUnusable(s, n, p, job, todo);
    }
  }

  lemma SkipsUnusable(s: State, n: State, p: Poller, job: Job, todo: seq<string>)
    requires todo != [] && FirstUsable(s, job, todo[..1]).None? && n == AtPc(s, p, job, Adopting(todo[1..]))
    ensures AtPc(n, p, job, Adopted(n, job, todo[1..])) == AtPc(s, p, job, Adopted(s, job, todo))
  {
    assert todo[..1][0] == todo[0] && todo[..1][1..] == [];
    assert FirstUsable(s, job, todo) == FirstUsable(s, job, todo[1..]);
    SameUsable(s, n, job, todo[1..]);
  }

  lemma {:induction false} SameUsable(s: State, n: State, job: Job, todo: seq<string>)
    requires n.rounds == s.rounds && n.chats == s.chats
    ensures FirstUsable(n, job, todo) == FirstUsable(s, job, todo)
  {
    if todo != [] { SameUsable(s, n, job, todo[1..]); }
  }

  /** A poller about to create the ticket's chat, with nothing recorded for the ticket. */
  function AboutToCreate(h: History, p: Poller, job: Job, chats: map<ChatId, Chat>): State {
    State(h, map[job.ticket := p], map[], map[], {}, chats, map[p := Poll(job, Creating)])
  }

  /** A poll up to the creation of a chat, with no older rounds listed. */
  function Approach(p: Poller, job: Job): seq<Action> {
    [Claim(p, job), Begin(p, [])] + Tries(p, 1)
  }

  lemma GetsToCreate(h: History, p: Poller, job: Job, chats: map<ChatId, Chat>)
    ensures Run(State(h, map[], map[], map[], {}, chats, map[]), Approach(p, job)) == AboutToCreate(h, p, job, chats)
  {
    var s := State(h, map[], map[], map[], {}, chats, map[]);
    RunAppends(s, [Claim(p, job), Begin(p, [])], Tries(p, 1));
    RunTwo(s, Claim(p, job), Begin(p, []));
    var s1 := Step(s, Claim(p, job));
    assert s1.polls == map[p := Poll(job, Claimed)] && s1.lease == map[job.ticket := p];
    var s2 := Step(s1, Begin(p, []));
    assert s2 == s1.(polls := map[p := Poll(job, Adopting([]))]);
    ReachesCreation(s2, p, job, []);
  }

  lemma {:induction false} RunAppends(s: State, a: seq<Action>, b: seq<Action>)
    ensures Run(s, a + b) == Run(Run(s, a), b)
    decreases |a|
  {
    if a == [] {
      assert a + b == b;
    } else {
      assert (a + b)[1..] == a[1..] + b;
      RunAppends(Step(s, a[0]), a[1..], b);
    }
  }

  /** A poll whose creation succeeded although its reply was lost. */
  function LosingPoll(job: Job): seq<Action> {
    Approach(1, job) + [CreateLost(1, 1), Release(1)]
  }

  /** The assumption on creation is needed: a lost reply leaves a second live chat behind at the next poll. */
  lemma LostCreateDuplicates(job: Job)
    ensures
      var s := Run(Run(Empty(), LosingPoll(job)), Approach(2, job) + [Create(2, Some(2)), Bind(2)]);
      Live(s, 1) && Live(s, 2) && s.chats[1].ticket == s.chats[2].ticket == job.ticket
  {
    CreateIsLost(job);
    var s1 := Run(Empty(), LosingPoll(job));
    GetsToCreate(s1.history, 2, job, s1.chats);
    RunAppends(s1, Approach(2, job), [Create(2, Some(2)), Bind(2)]);
    SecondChat(s1.history, job);
  }

  lemma SecondChat(h: History, job: Job)
    ensures
      var s := Run(AboutToCreate(h, 2, job, map[1 := NewChat(job)]), [Create(2, Some(2)), Bind(2)]);
      s.chats == map[1 := NewChat(job), 2 := NewChat(job)]
  {
    var s := AboutToCreate(h, 2, job, map[1 := NewChat(job)]);
    RunTwo(s, Create(2, Some(2)), Bind(2));
    assert FreshId(s, 2);
    var n := Step(s, Create(2, Some(2)));
    assert n.polls == map[2 := Poll(job, BindingNew(2))] && n.chats == map[1 := NewChat(job), 2 := NewChat(job)];
  }

  lemma CreateIsLost(job: Job)
    ensures Run(Empty(), LosingPoll(job))
         == State(History({Request(1, job)}, {}, {}), map[], map[], map[], {}, map[1 := NewChat(job)], map[])
  {
    var s0 := AboutToCreate(Empty().history, 1, job, map[]);
    GetsToCreate(Empty().history, 1, job, map[]);
    RunAppends(Empty(), Approach(1, job), [CreateLost(1, 1), Release(1)]);
    RunTwo(s0, CreateLost(1, 1), Release(1));
    assert Next(s0, CreateLost(1, 1), job, Creating)
        == Some(Effect(Finished(None), Keep, Keep, Some((1, NewChat(job))), Asked(1)));
    var s1 := Step(s0, CreateLost(1, 1));
    assert s1.polls == map[1 := Poll(job, Finished(None))] && s1.chats == map[1 := NewChat(job)];
  }
}
