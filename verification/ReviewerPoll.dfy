/**
 What one undisturbed poll of the reviewer session does, for every store it may find: which chat ends up with the
 request, which keys name it, and which chats change. An action a poll does not wait for changes nothing, so one
 script drives every poll to its end.
 */
module ReviewerPoll {
  import opened Text
  import opened ReviewerSession

  function Four(a: Action, b: Action, c: Action, d: Action): seq<Action> {
    [a] + ([b] + ([c] + [d]))
  }

  /** Stopping and archiving a chat of another workspace. */
  function Quiesce(p: Poller): seq<Action> {
    Four(Interrupt(p, false), Recheck(p, false), Archive(p, false), Unbind(p))
  }

  /** Creating a chat or messaging the old one, and recording it. */
  function Deliver(p: Poller, made: ChatId): seq<Action> {
    Four(Create(p, Some(made)), Bind(p), Send(p, false), BindRound(p))
  }

  /** A poll none of whose calls fails, up to reading the chat it found. */
  function LookUp(p: Poller, listing: seq<string>): seq<Action> {
    [Begin(p, listing)] + (Tries(p, |listing| + 1) + [Check(p, false)])
  }

  /** A whole poll none of whose calls fails; `made` is the id the server gives a chat, if one is created. */
  function Script(p: Poller, listing: seq<string>, made: ChatId): seq<Action> {
    LookUp(p, listing) + (Quiesce(p) + Deliver(p, made))
  }

  /** The same poll when the old chat `id` changes to `chat` while the poll interrupts it. */
  function StoppingScript(p: Poller, listing: seq<string>, id: ChatId, chat: Chat, made: ChatId): seq<Action> {
    LookUp(p, listing) + ([Interrupt(p, false)] + ([Outside(id, chat)] + (Quiesce(p) + Deliver(p, made))))
  }

  predicate Polls(s: State, p: Poller, job: Job, pc: Pc) {
    p in s.polls && s.polls[p] == Poll(job, pc)
  }

  /** The chat a poll looks at: the recorded session, or else the first usable chat of an older round. */
  function Candidate(s: State, job: Job, listing: seq<string>): Option<ChatId> {
    if job.ticket in s.session then Some(s.session[job.ticket]) else FirstUsable(s, job, listing)
  }

  /** The poll reports chat `id`, which got the request and is named by both keys. */
  function Asks(s: State, p: Poller, job: Job, id: ChatId): State {
    AtPc(s, p, job, Finished(Some(id)))
      .(history := s.history.(requests := s.history.requests + {Request(id, job)}),
        session := s.session[job.ticket := id],
        rounds := s.rounds[(job.ticket, job.round) := id])
  }

  /** The poll created chat `made` in its workspace with the request, and reports it. */
  function Makes(s: State, p: Poller, job: Job, made: ChatId): State {
    Asks(s, p, job, made).(chats := s.chats[made := Chat(job.ticket, job.workspace, true, false, false)])
  }

  function Rest(s: State, id: ChatId): State {
    s.(history := s.history.(rested := s.history.rested + {id}))
  }

  /** Chat `id` is archived in favour of one in `workspace`. */
  function Retire(s: State, id: ChatId, workspace: string): State
    requires id in s.chats
  {
    s.(chats := s.chats[id := s.chats[id].(archived := true)],
       history := s.history.(retired := s.history.retired + {(id, workspace)}))
  }

  function Unbound(s: State, ticket: string): State {
    s.(session := s.session - {ticket})
  }

  // ----- running the script -----

  lemma Moves(s: State, a: Action, n: State, rest: seq<Action>)
    requires Step(s, a) == n
    ensures Run(s, [a] + rest) == Run(n, rest)
  {
    assert ([a] + rest)[1..] == rest;
  }

  lemma RunOne(s: State, a: Action)
    ensures Run(s, [a]) == Step(s, a)
  {
    assert Run(Step(s, a), [a][1..]) == Step(s, a);
  }

  lemma RunFour(s: State, a: Action, s1: State, b: Action, s2: State, c: Action, s3: State, d: Action, s4: State)
    requires Step(s, a) == s1 && Step(s1, b) == s2 && Step(s2, c) == s3 && Step(s3, d) == s4
    ensures Run(s, Four(a, b, c, d)) == s4
  {
    Moves(s, a, s1, [b] + ([c] + [d]));
    Moves(s1, b, s2, [c] + [d]);
    Moves(s2, c, s3, [d]);
    RunOne(s3, d);
  }

  /** The actions of the script that a poll at `pc` waits for. */
  predicate Awaits(pc: Pc, a: Action) {
    match pc
    case Claimed => a.Begin? || a.ForgetRound?
    case Adopting(_) => a.TryAlias?
    case Checking(_) => a.Check?
    case Interrupting(_) => a.Interrupt?
    case Rechecking(_) => a.Recheck?
    case Archiving(_) => a.Archive?
    case Unbinding => a.Unbind?
    case Creating => a.Create? || a.CreateLost?
    case BindingNew(_) => a.Bind?
    case BindingOld(_, _) => a.Bind?
    case Sending(_) => a.Send?
    case BindingRound(_) => a.BindRound?
    case Finished(_) => false
  }

  lemma Ignored(s: State, a: Action, job: Job, pc: Pc)
    requires ByPoller(a) && Polls(s, a.p, job, pc) && !Awaits(pc, a)
    ensures Step(s, a) == s
  {
  }

  lemma Interrupts(s: State, p: Poller, job: Job, id: ChatId)
    requires Polls(s, p, job, Interrupting(id))
    ensures Step(s, Interrupt(p, false)) == AtPc(s, p, job, Rechecking(id))
  {
  }

  lemma Rechecks(s: State, p: Poller, job: Job, id: ChatId)
    requires Polls(s, p, job, Rechecking(id)) && !Gone(s, id)
    ensures Step(s, Recheck(p, false))
         == if s.chats[id].active then AtPc(s, p, job, Finished(None)) else Rest(AtPc(s, p, job, Archiving(id)), id)
  {
  }

  lemma Archives(s: State, p: Poller, job: Job, id: ChatId)
    requires Polls(s, p, job, Archiving(id)) && id in s.chats
    ensures Step(s, Archive(p, false)) == Retire(AtPc(s, p, job, Unbinding), id, job.workspace)
  {
  }

  lemma Unbinds(s: State, p: Poller, job: Job)
    requires Polls(s, p, job, Unbinding)
    ensures Step(s, Unbind(p)) == Unbound(AtPc(s, p, job, Creating), job.ticket)
  {
  }

  lemma Creates(s: State, p: Poller, job: Job, made: ChatId)
    requires Polls(s, p, job, Creating) && FreshId(s, made)
    ensures Step(s, Create(p, Some(made)))
         == AtPc(s, p, job, BindingNew(made))
              .(history := s.history.(requests := s.history.requests + {Request(made, job)}),
                chats := s.chats[made := Chat(job.ticket, job.workspace, true, false, false)])
  {
  }

  lemma Binds(s: State, p: Poller, job: Job, pc: Pc)
    requires Polls(s, p, job, pc) && (pc.BindingOld? || pc.BindingNew?)
    ensures Step(s, Bind(p))
         == AtPc(s, p, job, if pc.BindingNew? then BindingRound(pc.id)
                            else if pc.active then Finished(None) else Sending(pc.id))
              .(session := s.session[job.ticket := pc.id])
  {
  }

  lemma Sends(s: State, p: Poller, job: Job, id: ChatId)
    requires Polls(s, p, job, Sending(id))
    ensures Step(s, Send(p, false))
         == AtPc(s, p, job, BindingRound(id))
              .(history := s.history.(requests := s.history.requests + {Request(id, job)}))
  {
  }

  lemma BindsRound(s: State, p: Poller, job: Job, id: ChatId)
    requires Polls(s, p, job, BindingRound(id))
    ensures Step(s, BindRound(p))
         == AtPc(s, p, job, Finished(Some(id))).(rounds := s.rounds[(job.ticket, job.round) := id])
  {
  }

  lemma Checks(s: State, p: Poller, job: Job, id: ChatId)
    requires Polls(s, p, job, Checking(id))
    ensures
      Step(s, Check(p, false))
      == if Gone(s, id) then Rest(AtPc(s, p, job, Unbinding), id)
         else var chat := s.chats[id];
           var n := AtPc(s, p, job, if chat.workspace == job.workspace then BindingOld(id, chat.active)
                                    else if chat.active then Interrupting(id) else Archiving(id));
           if chat.active then n else Rest(n, id)
  {
  }

  // ----- the two halves of the script -----

  lemma QuiesceIgnored(s: State, p: Poller, job: Job, pc: Pc)
    requires Polls(s, p, job, pc) && (pc.BindingOld? || pc.Creating? || pc.Finished?)
    ensures Run(s, Quiesce(p)) == s
  {
    Ignored(s, Interrupt(p, false), job, pc);
    Ignored(s, Recheck(p, false), job, pc);
    Ignored(s, Archive(p, false), job, pc);
    Ignored(s, Unbind(p), job, pc);
    RunFour(s, Interrupt(p, false), s, Recheck(p, false), s, Archive(p, false), s, Unbind(p), s);
  }

  lemma QuiesceUnbinds(s: State, p: Poller, job: Job)
    requires Polls(s, p, job, Unbinding)
    ensures Run(s, Quiesce(p)) == Unbound(AtPc(s, p, job, Creating), job.ticket)
  {
    Ignored(s, Interrupt(p, false), job, Unbinding);
    Ignored(s, Recheck(p, false), job, Unbinding);
    Ignored(s, Archive(p, false), job, Unbinding);
    Unbinds(s, p, job);
    RunFour(s, Interrupt(p, false), s, Recheck(p, false), s, Archive(p, false), s, Unbind(p), Step(s, Unbind(p)));
  }

  lemma QuiesceArchives(s: State, p: Poller, job: Job, id: ChatId)
    requires Polls(s, p, job, Archiving(id)) && id in s.chats
    ensures Run(s, Quiesce(p)) == Unbound(Retire(AtPc(s, p, job, Creating), id, job.workspace), job.ticket)
  {
    Ignored(s, Interrupt(p, false), job, Archiving(id));
    Ignored(s, Recheck(p, false), job, Archiving(id));
    Archives(s, p, job, id);
    var n := Retire(AtPc(s, p, job, Unbinding), id, job.workspace);
    Unbinds(n, p, job);
    RunFour(s, Interrupt(p, false), s, Recheck(p, false), s, Archive(p, false), n, Unbind(p), Step(n, Unbind(p)));
  }

  lemma QuiesceWaits(s: State, p: Poller, job: Job, id: ChatId)
    requires Polls(s, p, job, Interrupting(id)) && !Gone(s, id) && s.chats[id].active
    ensures Run(s, Quiesce(p)) == AtPc(s, p, job, Finished(None))
  {
    Interrupts(s, p, job, id);
    var n := AtPc(s, p, job, Rechecking(id));
    Rechecks(n, p, job, id);
    var m := AtPc(n, p, job, Finished(None));
    Ignored(m, Archive(p, false), job, Finished(None));
    Ignored(m, Unbind(p), job, Finished(None));
    RunFour(s, Interrupt(p, false), n, Recheck(p, false), m, Archive(p, false), m, Unbind(p), m);
  }

  /** A chat found at rest after its interruption is archived. */
  lemma QuiesceStops(s: State, p: Poller, job: Job, id: ChatId)
    requires Polls(s, p, job, Rechecking(id)) && !Gone(s, id) && !s.chats[id].active
    ensures Run(s, Quiesce(p)) == Unbound(Retire(Rest(AtPc(s, p, job, Creating), id), id, job.workspace), job.ticket)
  {
    Ignored(s, Interrupt(p, false), job, Rechecking(id));
    Rechecks(s, p, job, id);
    var n := Rest(AtPc(s, p, job, Archiving(id)), id);
    Archives(n, p, job, id);
    var m := Retire(AtPc(n, p, job, Unbinding), id, job.workspace);
    Unbinds(m, p, job);
    RunFour(s, Interrupt(p, false), s, Recheck(p, false), n, Archive(p, false), m, Unbind(p), Step(m, Unbind(p)));
  }

  lemma DeliverIgnored(s: State, p: Poller, job: Job, made: ChatId)
    requires Polls(s, p, job, Finished(None))
    ensures Run(s, Deliver(p, made)) == s
  {
    Ignored(s, Create(p, Some(made)), job, Finished(None));
    Ignored(s, Bind(p), job, Finished(None));
    Ignored(s, Send(p, false), job, Finished(None));
    Ignored(s, BindRound(p), job, Finished(None));
    RunFour(s, Create(p, Some(made)), s, Bind(p), s, Send(p, false), s, BindRound(p), s);
  }

  lemma DeliverWaits(s: State, p: Poller, job: Job, id: ChatId, made: ChatId)
    requires Polls(s, p, job, BindingOld(id, true))
    ensures Run(s, Deliver(p, made)) == AtPc(s, p, job, Finished(None)).(session := s.session[job.ticket := id])
  {
    Ignored(s, Create(p, Some(made)), job, BindingOld(id, true));
    Binds(s, p, job, BindingOld(id, true));
    var n := Step(s, Bind(p));
    Ignored(n, Send(p, false), job, Finished(None));
    Ignored(n, BindRound(p), job, Finished(None));
    RunFour(s, Create(p, Some(made)), s, Bind(p), n, Send(p, false), n, BindRound(p), n);
  }

  lemma DeliverMessages(s: State, p: Poller, job: Job, id: ChatId, made: ChatId)
    requires Polls(s, p, job, BindingOld(id, false))
    ensures Run(s, Deliver(p, made)) == Asks(s, p, job, id)
  {
    Ignored(s, Create(p, Some(made)), job, BindingOld(id, false));
    Binds(s, p, job, BindingOld(id, false));
    var n := AtPc(s, p, job, Sending(id)).(session := s.session[job.ticket := id]);
    Sends(n, p, job, id);
    var m := AtPc(n, p, job, BindingRound(id))
      .(history := s.history.(requests := s.history.requests + {Request(id, job)}));
    BindsRound(m, p, job, id);
    RunFour(s, Create(p, Some(made)), s, Bind(p), n, Send(p, false), m, BindRound(p), Step(m, BindRound(p)));
  }

  lemma DeliverCreates(s: State, p: Poller, job: Job, made: ChatId)
    requires Polls(s, p, job, Creating) && FreshId(s, made)
    ensures Run(s, Deliver(p, made)) == Makes(s, p, job, made)
  {
    Creates(s, p, job, made);
    var n := AtPc(s, p, job, BindingNew(made))
      .(history := s.history.(requests := s.history.requests + {Request(made, job)}),
        chats := s.chats[made := Chat(job.ticket, job.workspace, true, false, false)]);
    Binds(n, p, job, BindingNew(made));
    var m := AtPc(n, p, job, BindingRound(made)).(session := s.session[job.ticket := made]);
    Ignored(m, Send(p, false), job, BindingRound(made));
    BindsRound(m, p, job, made);
    RunFour(s, Create(p, Some(made)), n, Bind(p), m, Send(p, false), m, BindRound(p), Step(m, BindRound(p)));
  }

  /** A poll starts looking: at the candidate, or at creation if there is none. */
  function Looks(s: State, p: Poller, job: Job, listing: seq<string>): State {
    var c := Candidate(s, job, listing);
    AtPc(s, p, job, if c.Some? then Checking(c.value) else Creating)
  }

  lemma Begins(s: State, p: Poller, job: Job, listing: seq<string>)
    requires Polls(s, p, job, Claimed) && job.workspace !in s.pendingInstructions
    ensures
      Step(s, Begin(p, listing))
      == AtPc(s, p, job, if job.ticket in s.session then Checking(s.session[job.ticket]) else Adopting(listing))
  {
  }

  lemma TriesFindCandidate(s: State, p: Poller, job: Job, listing: seq<string>)
    requires Polls(s, p, job, Claimed)
    ensures
      var n := AtPc(s, p, job, if job.ticket in s.session then Checking(s.session[job.ticket]) else Adopting(listing));
      Run(n, Tries(p, |listing| + 1)) == Looks(s, p, job, listing)
  {
    if job.ticket in s.session {
      TriesStay(AtPc(s, p, job, Checking(s.session[job.ticket])), p, |listing| + 1);
    } else {
      var n := AtPc(s, p, job, Adopting(listing));
      ReachesCreation(n, p, job, listing);
      SameUsable(s, n, job, listing);
      assert AtPc(n, p, job, Adopted(n, job, listing)).polls == Looks(s, p, job, listing).polls;
    }
  }

  lemma LooksUp(s: State, p: Poller, job: Job, listing: seq<string>)
    requires Polls(s, p, job, Claimed) && job.workspace !in s.pendingInstructions
    ensures Run(s, LookUp(p, listing)) == Step(Looks(s, p, job, listing), Check(p, false))
  {
    var n := AtPc(s, p, job, if job.ticket in s.session then Checking(s.session[job.ticket]) else Adopting(listing));
    Begins(s, p, job, listing);
    Moves(s, Begin(p, listing), n, Tries(p, |listing| + 1) + [Check(p, false)]);
    RunAppends(n, Tries(p, |listing| + 1), [Check(p, false)]);
    TriesFindCandidate(s, p, job, listing);
    RunOne(Looks(s, p, job, listing), Check(p, false));
  }

  lemma RunPhases(s: State, a: seq<Action>, n: State, b: seq<Action>, m: State, c: seq<Action>, k: State)
    requires Run(s, a) == n && Run(n, b) == m && Run(m, c) == k
    ensures Run(s, a + (b + c)) == k
  {
    RunAppends(s, a, b + c);
    RunAppends(n, b, c);
  }

  lemma CheckIsIgnored(s: State, p: Poller, job: Job, listing: seq<string>)
    requires Candidate(s, job, listing).None?
    ensures Step(Looks(s, p, job, listing), Check(p, false)) == AtPc(s, p, job, Creating)
  {
    Ignored(AtPc(s, p, job, Creating), Check(p, false), job, Creating);
  }

  // ----- what a poll brings about -----

  /** A poll may start, and `chat` is what it finds under its candidate `id`. */
  ghost predicate Finds(s: State, p: Poller, job: Job, listing: seq<string>, id: ChatId, chat: Chat) {
    && Polls(s, p, job, Claimed) && job.workspace !in s.pendingInstructions
    && Candidate(s, job, listing) == Some(id) && id in s.chats && s.chats[id] == chat && !chat.deleted
  }

  lemma FindsChat(s: State, p: Poller, job: Job, listing: seq<string>, id: ChatId, chat: Chat)
    requires Finds(s, p, job, listing, id, chat)
    ensures
      var n := AtPc(s, p, job, if chat.workspace == job.workspace then BindingOld(id, chat.active)
                               else if chat.active then Interrupting(id) else Archiving(id));
      Run(s, LookUp(p, listing)) == if chat.active then n else Rest(n, id)
  {
    LooksUp(s, p, job, listing);
    var n := Looks(s, p, job, listing);
    assert n.polls[p] == Poll(job, Checking(id));
    Checks(n, p, job, id);
  }

  /** Where a poll was before does not matter to where it ends. */
  lemma EndsAlike(s: State, p: Poller, job: Job, pc: Pc, id: ChatId)
    ensures Asks(AtPc(s, p, job, pc), p, job, id) == Asks(s, p, job, id)
    ensures Makes(AtPc(s, p, job, pc), p, job, id) == Makes(s, p, job, id)
    ensures Makes(Unbound(AtPc(s, p, job, pc), job.ticket), p, job, id) == Makes(s, p, job, id)
    ensures AtPc(AtPc(s, p, job, pc), p, job, Finished(None)) == AtPc(s, p, job, Finished(None))
  {
    assert Asks(AtPc(s, p, job, pc), p, job, id).polls == Asks(s, p, job, id).polls;
    assert (s.session - {job.ticket})[job.ticket := id] == s.session[job.ticket := id];
  }

  /** A chat at rest in the poll's workspace gets the next round, and both keys name it; no chat is created. */
  lemma RestingChatGetsTheRound(s: State, p: Poller, job: Job, listing: seq<string>, id: ChatId, made: ChatId)
    requires id in s.chats && Finds(s, p, job, listing, id, s.chats[id])
    requires s.chats[id].workspace == job.workspace && !s.chats[id].active
    ensures Run(s, Script(p, listing, made)) == Asks(Rest(s, id), p, job, id)
  {
    FindsChat(s, p, job, listing, id, s.chats[id]);
    var n := Rest(AtPc(s, p, job, BindingOld(id, false)), id);
    QuiesceIgnored(n, p, job, BindingOld(id, false));
    DeliverMessages(n, p, job, id, made);
    RunPhases(s, LookUp(p, listing), n, Quiesce(p), n, Deliver(p, made), Asks(n, p, job, id));
    EndsAlike(Rest(s, id), p, job, BindingOld(id, false), id);
  }

  /** A chat still working in the poll's workspace is recorded as the session, and gets nothing. */
  lemma WorkingChatIsLeftAlone(s: State, p: Poller, job: Job, listing: seq<string>, id: ChatId, made: ChatId)
    requires id in s.chats && Finds(s, p, job, listing, id, s.chats[id])
    requires s.chats[id].workspace == job.workspace && s.chats[id].active
    ensures Run(s, Script(p, listing, made))
         == AtPc(s, p, job, Finished(None)).(session := s.session[job.ticket := id])
  {
    FindsChat(s, p, job, listing, id, s.chats[id]);
    var n := AtPc(s, p, job, BindingOld(id, true));
    QuiesceIgnored(n, p, job, BindingOld(id, true));
    DeliverWaits(n, p, job, id, made);
    var k := AtPc(n, p, job, Finished(None)).(session := s.session[job.ticket := id]);
    RunPhases(s, LookUp(p, listing), n, Quiesce(p), n, Deliver(p, made), k);
    EndsAlike(s, p, job, BindingOld(id, true), id);
  }

  /** With no chat recorded or usable, the poll creates one with the request, and both keys name it. */
  lemma FirstChatIsCreated(s: State, p: Poller, job: Job, listing: seq<string>, made: ChatId)
    requires Polls(s, p, job, Claimed) && job.workspace !in s.pendingInstructions
    requires Candidate(s, job, listing).None? && FreshId(s, made)
    ensures Run(s, Script(p, listing, made)) == Makes(s, p, job, made)
  {
    LooksUp(s, p, job, listing);
    CheckIsIgnored(s, p, job, listing);
    var n := AtPc(s, p, job, Creating);
    QuiesceIgnored(n, p, job, Creating);
    DeliverCreates(n, p, job, made);
    RunPhases(s, LookUp(p, listing), n, Quiesce(p), n, Deliver(p, made), Makes(n, p, job, made));
    EndsAlike(s, p, job, Creating, made);
  }

  lemma FindsNothing(s: State, p: Poller, job: Job, listing: seq<string>)
    requires Polls(s, p, job, Claimed) && job.workspace !in s.pendingInstructions
    requires job.ticket in s.session && Gone(s, s.session[job.ticket])
    ensures Run(s, LookUp(p, listing)) == AtPc(Rest(s, s.session[job.ticket]), p, job, Unbinding)
  {
    var id := s.session[job.ticket];
    LooksUp(s, p, job, listing);
    Checks(Looks(s, p, job, listing), p, job, id);
    var n := Looks(s, p, job, listing);
    assert AtPc(n, p, job, Unbinding).polls == AtPc(s, p, job, Unbinding).polls;
  }

  lemma CreatesAfterUnbinding(s: State, p: Poller, job: Job, made: ChatId)
    requires FreshId(s, made)
    ensures Run(Unbound(AtPc(s, p, job, Creating), job.ticket), Deliver(p, made)) == Makes(s, p, job, made)
  {
    DeliverCreates(Unbound(AtPc(s, p, job, Creating), job.ticket), p, job, made);
    EndsAlike(s, p, job, Creating, made);
  }

  /** A session chat that is confirmed gone is replaced by a created one that gets the request. */
  lemma GoneChatIsReplaced(s: State, p: Poller, job: Job, listing: seq<string>, made: ChatId)
    requires Polls(s, p, job, Claimed) && job.workspace !in s.pendingInstructions
    requires job.ticket in s.session && Gone(s, s.session[job.ticket]) && FreshId(s, made)
    ensures Run(s, Script(p, listing, made)) == Makes(Rest(s, s.session[job.ticket]), p, job, made)
  {
    FindsNothing(s, p, job, listing);
    var r := Rest(s, s.session[job.ticket]);
    var n := AtPc(r, p, job, Unbinding);
    QuiesceUnbinds(n, p, job);
    var m := Unbound(AtPc(n, p, job, Creating), job.ticket);
    CreatesAfterUnbinding(n, p, job, made);
    RunPhases(s, LookUp(p, listing), n, Quiesce(p), m, Deliver(p, made), Makes(n, p, job, made));
    EndsAlike(r, p, job, Unbinding, made);
  }

  /** A chat at rest in another workspace is archived and replaced by a created one that gets the request. */
  lemma MovedChatIsReplaced(s: State, p: Poller, job: Job, listing: seq<string>, id: ChatId, made: ChatId)
    requires id in s.chats && Finds(s, p, job, listing, id, s.chats[id]) && FreshId(s, made)
    requires s.chats[id].workspace != job.workspace && !s.chats[id].active
    ensures Run(s, Script(p, listing, made)) == Makes(Retire(Rest(s, id), id, job.workspace), p, job, made)
  {
    FindsChat(s, p, job, listing, id, s.chats[id]);
    var n := Rest(AtPc(s, p, job, Archiving(id)), id);
    QuiesceArchives(n, p, job, id);
    var r := Retire(n, id, job.workspace);
    var m := Unbound(AtPc(r, p, job, Creating), job.ticket);
    CreatesAfterUnbinding(r, p, job, made);
    RunPhases(s, LookUp(p, listing), n, Quiesce(p), m, Deliver(p, made), Makes(r, p, job, made));
    EndsAlike(Retire(Rest(s, id), id, job.workspace), p, job, Archiving(id), made);
  }

  /** A chat of another workspace that is still working after its interruption keeps everything as it was. */
  lemma MovedWorkingChatIsKept(s: State, p: Poller, job: Job, listing: seq<string>, id: ChatId, made: ChatId)
    requires id in s.chats && Finds(s, p, job, listing, id, s.chats[id])
    requires s.chats[id].workspace != job.workspace && s.chats[id].active
    ensures Run(s, Script(p, listing, made)) == AtPc(s, p, job, Finished(None))
  {
    FindsChat(s, p, job, listing, id, s.chats[id]);
    var n := AtPc(s, p, job, Interrupting(id));
    QuiesceWaits(n, p, job, id);
    var m := AtPc(n, p, job, Finished(None));
    DeliverIgnored(m, p, job, made);
    RunPhases(s, LookUp(p, listing), n, Quiesce(p), m, Deliver(p, made), m);
    EndsAlike(s, p, job, Interrupting(id), made);
  }

  /** Chat `id` has come to rest. */
  function Stopped(s: State, id: ChatId): State
    requires id in s.chats
  {
    s.(chats := s.chats[id := s.chats[id].(active := false)])
  }

  lemma ChatStops(s: State, id: ChatId)
    requires id in s.chats
    ensures Step(s, Outside(id, s.chats[id].(active := false))) == Stopped(s, id)
  {
  }

  lemma StopsAfterInterrupt(s: State, p: Poller, job: Job, id: ChatId, rest: seq<Action>)
    requires id in s.chats && Polls(s, p, job, Interrupting(id))
    ensures
      Run(s, [Interrupt(p, false)] + ([Outside(id, s.chats[id].(active := false))] + rest))
      == Run(Stopped(AtPc(s, p, job, Rechecking(id)), id), rest)
  {
    var n := AtPc(s, p, job, Rechecking(id));
    var a := Outside(id, s.chats[id].(active := false));
    Interrupts(s, p, job, id);
    Moves(s, Interrupt(p, false), n, [a] + rest);
    ChatStops(n, id);
    Moves(n, a, Stopped(n, id), rest);
  }

  /** A working chat of another workspace that stops when interrupted is archived and replaced in the same poll. */
  lemma StoppedChatIsReplaced(s: State, p: Poller, job: Job, listing: seq<string>, id: ChatId, made: ChatId)
    requires id in s.chats && Finds(s, p, job, listing, id, s.chats[id]) && FreshId(s, made)
    requires s.chats[id].workspace != job.workspace && s.chats[id].active
    ensures Run(s, StoppingScript(p, listing, id, s.chats[id].(active := false), made))
         == Makes(Retire(Rest(Stopped(s, id), id), id, job.workspace), p, job, made)
  {
    var tail := Quiesce(p) + Deliver(p, made);
    var n := AtPc(s, p, job, Interrupting(id));
    RunAppends(s, LookUp(p, listing), [Interrupt(p, false)] + ([Outside(id, s.chats[id].(active := false))] + tail));
    FindsChat(s, p, job, listing, id, s.chats[id]);
    StopsAfterInterrupt(n, p, job, id, tail);
    ReplacesStopped(AtPc(n, p, job, Rechecking(id)), p, job, id, made);
    EndsAlike(Retire(Rest(Stopped(s, id), id), id, job.workspace), p, job, Interrupting(id), made);
    EndsAlike(Retire(Rest(Stopped(n, id), id), id, job.workspace), p, job, Rechecking(id), made);
  }

  lemma ReplacesStopped(s: State, p: Poller, job: Job, id: ChatId, made: ChatId)
    requires Polls(s, p, job, Rechecking(id)) && id in s.chats && !s.chats[id].deleted && FreshId(s, made)
    ensures Run(Stopped(s, id), Quiesce(p) + Deliver(p, made))
         == Makes(Retire(Rest(Stopped(s, id), id), id, job.workspace), p, job, made)
  {
    var n := Stopped(s, id);
    RunAppends(n, Quiesce(p), Deliver(p, made));
    QuiesceStops(n, p, job, id);
    CreatesAfterUnbinding(Retire(Rest(n, id), id, job.workspace), p, job, made);
  }

  /** The remote call a poll makes fails. */
  predicate Fails(s: State, a: Action, job: Job, pc: Pc) {
    && Awaits(pc, a)
    && match a
       case TryAlias(_, failed) => failed && pc.Adopting? && pc.todo != [] && (job.ticket, pc.todo[0]) in s.rounds
       case Check(_, failed) => failed
       case Interrupt(_, failed) => failed
       case Recheck(_, failed) => failed
       case Archive(_, failed) => failed
       case Create(_, result) => result.None?
       case Send(_, failed) => failed
       case Begin(_, _) => job.workspace in s.pendingInstructions
       case _ => false
  }

  /** A call that fails, or a workspace still waiting for its instructions, ends the poll and changes nothing else. */
  lemma FailureEndsPoll(s: State, a: Action, job: Job, pc: Pc)
    requires ByPoller(a) && Polls(s, a.p, job, pc) && Fails(s, a, job, pc)
    ensures Step(s, a) == AtPc(s, a.p, job, Finished(None))
  {
    assert Next(s, a, job, pc) == Some(Goto(Finished(None)));
  }

  /** A poll starts exactly when its poller is free and nobody holds the ticket's lease, and its end gives both back. */
  lemma LeaseIsTakenAndGivenBack(s: State, p: Poller, job: Job, result: Option<ChatId>)
    requires p !in s.polls
    ensures Step(s, Claim(p, job)) == if job.ticket in s.lease then s
                                      else AtPc(s, p, job, Claimed).(lease := s.lease[job.ticket := p])
    ensures job.ticket !in s.lease ==>
              Step(AtPc(s, p, job, Finished(result)).(lease := s.lease[job.ticket := p]), Release(p)) == s
  {
    if job.ticket !in s.lease {
      var n := AtPc(s, p, job, Finished(result)).(lease := s.lease[job.ticket := p]);
      assert Step(n, Release(p)) == Released(n, p);
      assert n.lease - {job.ticket} == s.lease && n.polls - {p} == s.polls;
    }
  }

  /** Before it begins, a poll may give up its round's key, and nothing else. */
  lemma ForgetsOwnRound(s: State, p: Poller, job: Job)
    requires Polls(s, p, job, Claimed)
    ensures Step(s, ForgetRound(p)) == s.(rounds := s.rounds - {(job.ticket, job.round)})
  {
    var n := Step(s, ForgetRound(p));
    assert n.polls == s.polls;
  }
}
