/**
 Rework directives of one ticket: VESSEL persists a directive when no live chat exists, and the controller
 delivers it through the Manager, as the first prompt of a new chat or as a message keyed by a delivery id,
 and then deletes it. One step per store access or remote call; replies may be lost and the controller may
 restart between any two steps.
 */
module ReworkDelivery {
  import opened Text

  /** A persisted directive; `n` counts the calls that persisted one, and is invisible to both services. */
  datatype Item = Item(n: nat, text: string)

  /** What a chat received. */
  datatype Turn =
    | First(chat: nat, prompt: Option<Item>)
    | Message(chat: nat, id: nat, item: Item)

  datatype Pc =
    | Quiet
    | Identifying(item: Item)
    | Creating(pending: Option<(Item, nat)>)
    | Sending(chat: nat, item: Item, id: nat)
    | Removing(item: Item, made: Option<nat>)

  /**
   `directive` and `id` are the two store keys. `unfinished` holds the chats whose creation was not followed
   by the deletion of the directive, `replaced` the directives overwritten before they were deleted.
   */
  datatype State = State(
    directive: Option<Item>, id: Option<nat>, nextItem: nat, nextId: nat, pc: Pc,
    chat: Option<nat>, nextChat: nat, turns: seq<Turn>, unfinished: set<nat>, replaced: set<nat>)

  /** A store that may hold one directive persisted before delivery ids existed. */
  function Start(legacy: Option<string>): State {
    State(if legacy.Some? then Some(Item(0, legacy.value)) else None, None, if legacy.Some? then 1 else 0, 0,
          Quiet, None, 0, [], {}, {})
  }

  datatype Reply = Done | Refused | Lost

  datatype Action =
    | Persist(text: string)
    | Begin
    | Identify
    | Create(reply: Reply)
    | Send(reply: Reply)
    | Remove
    | ChatGone
    | Restart

  predicate Delivered(s: State, chat: nat, id: nat) {
    exists i :: 0 <= i < |s.turns| && s.turns[i].Message? && s.turns[i].chat == chat && s.turns[i].id == id
  }

  /** `persist_rework_directive`: a fresh delivery id only when nothing is pending. */
  function Persisted(s: State, text: string): State {
    s.(directive := Some(Item(s.nextItem, text)), nextItem := s.nextItem + 1,
       id := if s.directive.None? then Some(s.nextId) else s.id,
       nextId := if s.directive.None? then s.nextId + 1 else s.nextId,
       replaced := if s.directive.Some? then s.replaced + {s.directive.value.n} else s.replaced)
  }

  /** `create_chat` on the Manager: the chat of the workspace and ticket if it lives, else a new one. */
  function Created(s: State, prompt: Option<Item>): State {
    if s.chat.Some? then s
    else s.(chat := Some(s.nextChat), nextChat := s.nextChat + 1, turns := s.turns + [First(s.nextChat, prompt)],
            unfinished := if prompt.Some? then s.unfinished + {s.nextChat} else s.unfinished)
  }

  /** `send_chat_message` on the Manager: one turn for each chat and key; the prompt is not compared. */
  function Sent(s: State, chat: nat, id: nat, item: Item): State {
    if Delivered(s, chat, id) then s else s.(turns := s.turns + [Message(chat, id, item)])
  }

  function Step(s: State, a: Action): State {
    match a
    case Persist(text) => Persisted(s, text)
    case Begin =>
      if !s.pc.Quiet? then s
      else s.(pc := if s.directive.Some? then Identifying(s.directive.value) else Creating(None))
    case Identify =>
      if !s.pc.Identifying? then s
      else if s.id.Some? then s.(pc := Creating(Some((s.pc.item, s.id.value))))
      else s.(id := Some(s.nextId), nextId := s.nextId + 1, pc := Creating(Some((s.pc.item, s.nextId))))
    case Create(reply) =>
      if !s.pc.Creating? then s
      else if reply == Refused then s.(pc := Quiet)
      else
        var c := Created(s, if s.pc.pending.Some? then Some(s.pc.pending.value.0) else None);
        if reply == Lost || s.pc.pending.None? then c.(pc := Quiet)
        else if s.chat.Some? then c.(pc := Sending(s.chat.value, s.pc.pending.value.0, s.pc.pending.value.1))
        else c.(pc := Removing(s.pc.pending.value.0, Some(s.nextChat)))
    case Send(reply) =>
      if !s.pc.Sending? then s
      else if reply == Refused then s.(pc := Quiet)
      else Sent(s, s.pc.chat, s.pc.id, s.pc.item).(pc := if reply == Done then Removing(s.pc.item, None) else Quiet)
    case Remove =>
      if !s.pc.Removing? then s
      else s.(directive := None, pc := Quiet,
              unfinished := if s.pc.made.Some? then s.unfinished - {s.pc.made.value} else s.unfinished)
    case ChatGone => s.(chat := None)
    case Restart => s.(pc := Quiet)
  }

  function Run(s: State, actions: seq<Action>): State
    decreases |actions|
  {
    if actions == [] then s else Run(Step(s, actions[0]), actions[1..])
  }

  // ------------------------------------------------------------------- one turn per delivery id

  ghost predicate Bounded(s: State) {
    && (s.chat.Some? ==> s.chat.value < s.nextChat)
    && (s.pc.Sending? ==> s.pc.chat < s.nextChat)
    && forall i :: 0 <= i < |s.turns| ==> s.turns[i].chat < s.nextChat
  }

  predicate SameKey(a: Turn, b: Turn) {
    a.chat == b.chat && ((a.First? && b.First?) || (a.Message? && b.Message? && a.id == b.id))
  }

  ghost predicate Once(s: State) {
    forall i, j :: 0 <= i < j < |s.turns| ==> !SameKey(s.turns[i], s.turns[j])
  }

  lemma StepKeepsOnce(s: State, a: Action)
    requires Bounded(s) && Once(s)
    ensures Bounded(Step(s, a)) && Once(Step(s, a))
  {
  }

  lemma {:induction false} RunKeepsOnce(s: State, actions: seq<Action>)
    requires Bounded(s) && Once(s)
    ensures Bounded(Run(s, actions)) && Once(Run(s, actions))
    decreases |actions|
  {
    if actions != [] {
      StepKeepsOnce(s, actions[0]);
      RunKeepsOnce(Step(s, actions[0]), actions[1..]);
    }
  }

  /** In every run, a chat has one first prompt and at most one message turn for each delivery id. */
  lemma OneTurnPerDeliveryId(legacy: Option<string>, actions: seq<Action>, i: nat, j: nat)
    requires var s := Run(Start(legacy), actions); i < |s.turns| && j < |s.turns| && SameKey(s.turns[i], s.turns[j])
    ensures i == j
  {
    RunKeepsOnce(Start(legacy), actions);
  }

  // ------------------------------------------------------------------- nothing is deleted undelivered

  function Carried(t: Turn): Option<Item> {
    match t case First(_, p) => p case Message(_, _, item) => Some(item)
  }

  ghost predicate Accepted(s: State, n: nat) {
    exists i :: 0 <= i < |s.turns| && Carried(s.turns[i]).Some? && Carried(s.turns[i]).value.n == n
  }

  predicate Pending(s: State, n: nat) {
    s.directive.Some? && s.directive.value.n == n
  }

  /**
   The guard of a persist over a pending directive: no attempt to deliver that one is under way, and the live
   chat has no message with its id. `PersistVanishesIff` shows that it is exact.
   */
  predicate HarmlessPersist(s: State, a: Action) {
    a.Persist? && s.directive.Some? ==>
      && (s.pc.Quiet? || s.pc == Creating(None))
      && (s.id.Some? && s.chat.Some? ==> !Delivered(s, s.chat.value, s.id.value))
  }

  ghost predicate AlwaysHarmless(s: State, actions: seq<Action>)
    decreases |actions|
  {
    actions == [] || (HarmlessPersist(s, actions[0]) && AlwaysHarmless(Step(s, actions[0]), actions[1..]))
  }

  ghost predicate Accounted(s: State) {
    forall n: nat :: n < s.nextItem ==> Pending(s, n) || n in s.replaced || Accepted(s, n)
  }

  /** The chat may still get a message. */
  predicate InReach(s: State, chat: nat) {
    s.chat == Some(chat) || (s.pc.Sending? && s.pc.chat == chat)
  }

  ghost predicate TurnFits(s: State, t: Turn) {
    && (t.Message? ==> t.id < s.nextId)
    && (t.Message? && s.directive.Some? && t.item == s.directive.value ==> s.id == Some(t.id))
    && (t.Message? && s.directive.Some? && s.id == Some(t.id) && InReach(s, t.chat) ==> t.item == s.directive.value)
    && (Carried(t).Some? ==> Carried(t).value.n < s.nextItem)
  }

  ghost predicate TurnsFit(s: State) {
    && (s.id.Some? ==> s.id.value < s.nextId)
    && (s.directive.Some? ==> s.directive.value.n < s.nextItem)
    && (forall n :: n in s.replaced ==> n < s.nextItem)
    && forall i :: 0 <= i < |s.turns| ==> TurnFits(s, s.turns[i])
  }

  ghost predicate PcFits(s: State) {
    match s.pc
    case Quiet => true
    case Identifying(item) => s.directive == Some(item)
    case Creating(p) => p.Some? ==> s.directive == Some(p.value.0) && s.id == Some(p.value.1)
    case Sending(_, item, id) => s.directive == Some(item) && s.id == Some(id)
    case Removing(item, _) => s.directive == Some(item) && Accepted(s, item.n)
  }

  ghost predicate Inv(s: State) {
    Bounded(s) && Accounted(s) && TurnsFit(s) && PcFits(s)
  }

  lemma AcceptedGrows(s: State, n: State)
    requires s.turns <= n.turns
    ensures forall k: nat :: Accepted(s, k) ==> Accepted(n, k)
  {
    forall k: nat | Accepted(s, k) ensures Accepted(n, k) {
      var i :| 0 <= i < |s.turns| && Carried(s.turns[i]).Some? && Carried(s.turns[i]).value.n == k;
      assert n.turns[i] == s.turns[i];
    }
  }

  lemma PersistKeepsInv(s: State, text: string)
    requires Inv(s) && HarmlessPersist(s, Persist(text))
    ensures Inv(Persisted(s, text))
  {
    var n := Persisted(s, text);
    AcceptedGrows(s, n);
    forall i | 0 <= i < |n.turns| ensures TurnFits(n, n.turns[i]) {
      var t := s.turns[i];
      assert TurnFits(s, t);
      assert t.Message? ==> Delivered(s, t.chat, t.id);
    }
  }

  lemma CreateKeepsInv(s: State, reply: Reply)
    requires Inv(s) && s.pc.Creating?
    ensures Inv(Step(s, Create(reply)))
  {
    var n := Step(s, Create(reply));
    AcceptedGrows(s, n);
    forall i | 0 <= i < |n.turns| ensures TurnFits(n, n.turns[i]) {
      if i < |s.turns| { assert TurnFits(s, s.turns[i]); }
    }
    if n.pc.Removing? {
      assert Carried(n.turns[|s.turns|]) == Some(n.pc.item);
    }
  }

  lemma SendKeepsInv(s: State, reply: Reply)
    requires Inv(s) && s.pc.Sending?
    ensures Inv(Step(s, Send(reply)))
  {
    var n := Step(s, Send(reply));
    AcceptedGrows(s, n);
    forall i | 0 <= i < |n.turns| ensures TurnFits(n, n.turns[i]) {
      if i < |s.turns| { assert TurnFits(s, s.turns[i]); }
    }
    if n.pc.Removing? {
      if Delivered(s, s.pc.chat, s.pc.id) {
        var i :| 0 <= i < |s.turns| && s.turns[i].Message? && s.turns[i].chat == s.pc.chat && s.turns[i].id == s.pc.id;
        assert TurnFits(s, s.turns[i]);
        assert Carried(s.turns[i]) == Some(s.pc.item);
      } else {
        assert Carried(n.turns[|s.turns|]) == Some(s.pc.item);
      }
    }
  }

  lemma StepKeepsInv(s: State, a: Action)
    requires Inv(s) && HarmlessPersist(s, a)
    ensures Inv(Step(s, a))
  {
    match a
    case Persist(text) => PersistKeepsInv(s, text);
    case Create(reply) => if s.pc.Creating? { CreateKeepsInv(s, reply); }
    case Send(reply) => if s.pc.Sending? { SendKeepsInv(s, reply); }
    case _ =>
      AcceptedGrows(s, Step(s, a));
      forall i | 0 <= i < |s.turns| ensures TurnFits(Step(s, a), s.turns[i]) {
        assert TurnFits(s, s.turns[i]);
      }
  }

  lemma {:induction false} RunKeepsInv(s: State, actions: seq<Action>)
    requires Inv(s) && AlwaysHarmless(s, actions)
    ensures Inv(Run(s, actions))
    decreases |actions|
  {
    if actions != [] {
      StepKeepsInv(s, actions[0]);
      RunKeepsInv(Step(s, actions[0]), actions[1..]);
    }
  }

  /**
   Whatever fails, every directive ever persisted is still pending, was overwritten by a newer one, or was
   accepted by the Manager as a first prompt or a message.
   */
  lemma DeletedOnlyAfterAccepted(legacy: Option<string>, actions: seq<Action>, n: nat)
    requires AlwaysHarmless(Start(legacy), actions)
    requires var s := Run(Start(legacy), actions); n < s.nextItem && !Pending(s, n) && n !in s.replaced
    ensures Accepted(Run(Start(legacy), actions), n)
  {
    RunKeepsInv(Start(legacy), actions);
  }

  // ------------------------------------------------------------------- copies

  /** A chat whose first prompt is the pending directive counts as unfinished. */
  ghost predicate FirstsFit(s: State) {
    forall i :: 0 <= i < |s.turns| && s.turns[i].First? && s.directive.Some? && s.turns[i].prompt == s.directive ==>
      s.turns[i].chat in s.unfinished
  }

  ghost predicate Twice(a: Turn, b: Turn) {
    a.First? && b.Message? && a.chat == b.chat && a.prompt == Some(b.item)
  }

  ghost predicate CopiesFit(s: State) {
    forall i, j :: 0 <= i < |s.turns| && 0 <= j < |s.turns| && Twice(s.turns[i], s.turns[j]) ==>
      s.turns[i].chat in s.unfinished
  }

  /** Messages that carry the same directive carry the same id. */
  ghost predicate OneIdEach(s: State) {
    forall i, j :: 0 <= i < |s.turns| && 0 <= j < |s.turns| ==>
      s.turns[i].Message? && s.turns[j].Message? && s.turns[i].item == s.turns[j].item ==>
        s.turns[i].id == s.turns[j].id
  }

  ghost predicate MadeFits(s: State) {
    s.pc.Removing? && s.pc.made.Some? ==>
      forall i :: 0 <= i < |s.turns| && s.turns[i].Message? ==> s.turns[i].chat != s.pc.made.value
  }

  ghost predicate CopyInv(s: State) {
    FirstsFit(s) && CopiesFit(s) && OneIdEach(s) && MadeFits(s)
  }

  lemma CreateKeepsCopyInv(s: State, reply: Reply)
    requires Inv(s) && CopyInv(s) && s.pc.Creating?
    ensures CopyInv(Step(s, Create(reply)))
  {
    var n := Step(s, Create(reply));
    forall i, j | 0 <= i < |n.turns| && 0 <= j < |n.turns| && Twice(n.turns[i], n.turns[j])
      ensures n.turns[i].chat in n.unfinished
    {
      assert j < |s.turns| && n.turns[j] == s.turns[j];
      if i < |s.turns| { assert Twice(s.turns[i], s.turns[j]); }
    }
  }

  lemma SendKeepsCopyInv(s: State, reply: Reply)
    requires Inv(s) && CopyInv(s) && s.pc.Sending?
    ensures CopyInv(Step(s, Send(reply)))
  {
    var n := Step(s, Send(reply));
    forall i, j | 0 <= i < |n.turns| && 0 <= j < |n.turns| && Twice(n.turns[i], n.turns[j])
      ensures n.turns[i].chat in n.unfinished
    {
      if j < |s.turns| { assert Twice(s.turns[i], s.turns[j]); }
    }
    forall i, j | 0 <= i < |n.turns| && 0 <= j < |n.turns|
      ensures n.turns[i].Message? && n.turns[j].Message? && n.turns[i].item == n.turns[j].item ==>
        n.turns[i].id == n.turns[j].id
    {
      if i < |s.turns| { assert TurnFits(s, s.turns[i]); }
      if j < |s.turns| { assert TurnFits(s, s.turns[j]); }
    }
  }

  /** A new item is carried by no turn yet, and other steps add no turn. */
  lemma OtherStepKeepsCopyInv(s: State, a: Action)
    requires Inv(s) && CopyInv(s) && !a.Create? && !a.Send?
    ensures CopyInv(Step(s, a))
  {
    var n := Step(s, a);
    assert n.turns == s.turns;
    forall i | 0 <= i < |n.turns| && n.turns[i].First? && n.directive.Some? && n.turns[i].prompt == n.directive
      ensures n.turns[i].chat in n.unfinished
    {
      assert TurnFits(s, s.turns[i]);
    }
  }

  lemma StepKeepsCopyInv(s: State, a: Action)
    requires Inv(s) && CopyInv(s)
    ensures CopyInv(Step(s, a))
  {
    if a.Create? {
      if s.pc.Creating? { CreateKeepsCopyInv(s, a.reply); }
    } else if a.Send? {
      if s.pc.Sending? { SendKeepsCopyInv(s, a.reply); }
    } else {
      OtherStepKeepsCopyInv(s, a);
    }
  }

  lemma {:induction false} RunKeepsCopyInv(s: State, actions: seq<Action>)
    requires Inv(s) && CopyInv(s) && AlwaysHarmless(s, actions)
    ensures CopyInv(Run(s, actions))
    decreases |actions|
  {
    if actions != [] {
      StepKeepsInv(s, actions[0]);
      StepKeepsCopyInv(s, actions[0]);
      RunKeepsCopyInv(Step(s, actions[0]), actions[1..]);
    }
  }

  /**
   A chat sees one directive twice only as its first prompt and then one message, and only if the reply to
   its creation was lost, or the controller stopped before deleting the directive.
   */
  lemma SecondCopyNeedsUnfinishedCreate(legacy: Option<string>, actions: seq<Action>, i: nat, j: nat)
    requires AlwaysHarmless(Start(legacy), actions)
    requires
      var s := Run(Start(legacy), actions);
      && i < j < |s.turns| && s.turns[i].chat == s.turns[j].chat
      && Carried(s.turns[i]).Some? && Carried(s.turns[i]) == Carried(s.turns[j])
    ensures
      var s := Run(Start(legacy), actions);
      && (s.turns[i].First? <==> s.turns[j].Message?)
      && s.turns[i].chat in s.unfinished
  {
    var s := Run(Start(legacy), actions);
    RunKeepsCopyInv(Start(legacy), actions);
    RunKeepsOnce(Start(legacy), actions);
    assert !SameKey(s.turns[i], s.turns[j]);
  }

  /** Message turns of one delivery id in two chats: the later chat's creation was not finished. */
  ghost predicate RepeatsFit(s: State) {
    forall i, j :: 0 <= i < j < |s.turns| ==>
      s.turns[i].Message? && s.turns[j].Message? && s.turns[i].id == s.turns[j].id ==> s.turns[j].chat in s.unfinished
  }

  /** The chat that may get the pending id next got it before, or its creation is unfinished. */
  ghost predicate NextFits(s: State, t: Turn) {
    t.Message? && s.directive.Some? && s.id == Some(t.id) ==>
      && (s.chat.Some? ==> s.chat.value == t.chat || s.chat.value in s.unfinished)
      && (s.pc.Sending? ==> s.pc.chat == t.chat || s.pc.chat in s.unfinished)
      && s.pc != Creating(None)
  }

  ghost predicate RepeatInv(s: State) {
    && RepeatsFit(s)
    && (s.pc.Sending? && s.chat.Some? ==> s.chat.value == s.pc.chat)
    && forall i :: 0 <= i < |s.turns| ==> NextFits(s, s.turns[i])
  }

  lemma SendKeepsRepeatInv(s: State, reply: Reply)
    requires Inv(s) && Once(s) && RepeatInv(s) && s.pc.Sending?
    ensures RepeatInv(Step(s, Send(reply)))
  {
    var n := Step(s, Send(reply));
    forall i | 0 <= i < |n.turns| ensures NextFits(n, n.turns[i]) {
      if i < |s.turns| { assert NextFits(s, s.turns[i]); }
    }
    forall i, j | 0 <= i < j < |n.turns| && n.turns[i].Message? && n.turns[j].Message? && n.turns[i].id == n.turns[j].id
      ensures n.turns[j].chat in n.unfinished
    {
      assert NextFits(s, s.turns[i]);
      if j == |s.turns| { assert n.turns[i].chat != s.pc.chat; }
    }
  }

  lemma CreateKeepsRepeatInv(s: State, reply: Reply)
    requires Inv(s) && RepeatInv(s) && s.pc.Creating?
    ensures RepeatInv(Step(s, Create(reply)))
  {
    var n := Step(s, Create(reply));
    forall i | 0 <= i < |n.turns| ensures NextFits(n, n.turns[i]) {
      if i < |s.turns| { assert NextFits(s, s.turns[i]); }
    }
  }

  lemma OtherStepKeepsRepeatInv(s: State, a: Action)
    requires Inv(s) && HarmlessPersist(s, a) && MadeFits(s) && RepeatInv(s) && !a.Create? && !a.Send?
    ensures RepeatInv(Step(s, a))
  {
    var n := Step(s, a);
    forall i | 0 <= i < |n.turns| ensures NextFits(n, n.turns[i]) {
      assert NextFits(s, s.turns[i]) && TurnFits(s, s.turns[i]);
    }
  }

  lemma {:induction false} RunKeepsRepeatInv(s: State, actions: seq<Action>)
    requires Inv(s) && Once(s) && CopyInv(s) && RepeatInv(s) && AlwaysHarmless(s, actions)
    ensures RepeatInv(Run(s, actions))
    decreases |actions|
  {
    if actions != [] {
      var a := actions[0];
      StepKeepsInv(s, a);
      StepKeepsOnce(s, a);
      StepKeepsCopyInv(s, a);
      if a.Create? {
        if s.pc.Creating? { CreateKeepsRepeatInv(s, a.reply); }
      } else if a.Send? {
        if s.pc.Sending? { SendKeepsRepeatInv(s, a.reply); }
      } else {
        OtherStepKeepsRepeatInv(s, a);
      }
      RunKeepsRepeatInv(Step(s, a), actions[1..]);
    }
  }

  /**
   A delivery id gives a second message turn only in another chat, created after the first was lost, and only
   if that creation was itself not finished.
   */
  lemma SecondTurnNeedsUnfinishedCreate(legacy: Option<string>, actions: seq<Action>, i: nat, j: nat)
    requires AlwaysHarmless(Start(legacy), actions)
    requires
      var s := Run(Start(legacy), actions);
      i < j < |s.turns| && s.turns[i].Message? && s.turns[j].Message? && s.turns[i].id == s.turns[j].id
    ensures
      var s := Run(Start(legacy), actions);
      s.turns[i].chat != s.turns[j].chat && s.turns[j].chat in s.unfinished
  {
    RunKeepsRepeatInv(Start(legacy), actions);
    RunKeepsOnce(Start(legacy), actions);
  }
}
