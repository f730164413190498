/**
 Single attempts to deliver a rework directive: exactly when one repeats a copy or a delivery id, and exactly
 when a directive persisted over a pending one is lost.
 */
module ReworkAttempts {
  import opened Text
  import opened ReworkDelivery

  // ------------------------------------------------------------------- one attempt

  /** One undisturbed attempt. */
  function Attempt(s: State): State {
    Step(Step(Step(Step(Step(s, Begin), Identify), Create(Done)), Send(Done)), Remove)
  }

  /** The delivery id an attempt uses. */
  function IdOf(s: State): nat {
    if s.id.Some? then s.id.value else s.nextId
  }

  /**
   An attempt through a live chat deletes the pending directive, and puts it into the chat exactly when the
   chat has no message with its delivery id yet.
   */
  lemma AttemptDeliversIff(s: State)
    requires s.pc.Quiet? && s.chat.Some? && s.directive.Some?
    ensures Attempt(s).directive.None? && Attempt(s).nextItem == s.nextItem && Attempt(s).replaced == s.replaced
    ensures var sent := [Message(s.chat.value, IdOf(s), s.directive.value)];
      Attempt(s).turns == if Delivered(s, s.chat.value, IdOf(s)) then s.turns else s.turns + sent
  {
    var id := IdOf(s);
    var s2 := Step(Step(s, Begin), Identify);
    assert s2.pc == Creating(Some((s.directive.value, id))) && s2.turns == s.turns && s2.chat == s.chat;
    var s3 := Step(s2, Create(Done));
    assert s3 == s2.(pc := Sending(s.chat.value, s.directive.value, id));
    assert Delivered(s3, s.chat.value, id) == Delivered(s, s.chat.value, id);
  }

  // ------------------------------------------------------------------- exactly when a copy is repeated

  /** How often a chat got an item. */
  function Copies(turns: seq<Turn>, chat: nat, item: Item): nat {
    if turns == [] then 0
    else
      var t := turns[|turns| - 1];
      Copies(turns[..|turns| - 1], chat, item) + if t.chat == chat && Carried(t) == Some(item) then 1 else 0
  }

  /** How often a delivery id was sent as a message, in any chat. */
  function MessageTurns(turns: seq<Turn>, id: nat): nat {
    if turns == [] then 0
    else
      var t := turns[|turns| - 1];
      MessageTurns(turns[..|turns| - 1], id) + if t.Message? && t.id == id then 1 else 0
  }

  lemma CountsAppend(turns: seq<Turn>, t: Turn, chat: nat, item: Item, id: nat)
    ensures Copies(turns + [t], chat, item) ==
      Copies(turns, chat, item) + if t.chat == chat && Carried(t) == Some(item) then 1 else 0
    ensures MessageTurns(turns + [t], id) == MessageTurns(turns, id) + if t.Message? && t.id == id then 1 else 0
  {
    assert (turns + [t])[..|turns|] == turns;
  }

  /**
   An attempt repeats the pending directive in the live chat exactly when the chat has got it already, yet not
   as a message with its delivery id.
   */
  lemma AttemptRepeatsCopyIff(s: State)
    requires s.pc.Quiet? && s.chat.Some? && s.directive.Some?
    ensures
      var before := Copies(s.turns, s.chat.value, s.directive.value);
      var after := Copies(Attempt(s).turns, s.chat.value, s.directive.value);
      after > before && after >= 2 <==> before >= 1 && !Delivered(s, s.chat.value, IdOf(s))
  {
    AttemptDeliversIff(s);
    var t := Message(s.chat.value, IdOf(s), s.directive.value);
    CountsAppend(s.turns, t, s.chat.value, s.directive.value, IdOf(s));
  }

  /** It sends the delivery id once more exactly when the id was sent before, but not to the live chat. */
  lemma AttemptRepeatsIdIff(s: State)
    requires s.pc.Quiet? && s.chat.Some? && s.directive.Some?
    ensures
      var before, after := MessageTurns(s.turns, IdOf(s)), MessageTurns(Attempt(s).turns, IdOf(s));
      after > before && after >= 2 <==> before >= 1 && !Delivered(s, s.chat.value, IdOf(s))
  {
    AttemptDeliversIff(s);
    var t := Message(s.chat.value, IdOf(s), s.directive.value);
    CountsAppend(s.turns, t, s.chat.value, s.directive.value, IdOf(s));
  }

  /** A store with one directive, persisted by VESSEL. */
  function OnePending(text: string): State {
    Step(Start(None), Persist(text))
  }

  /** No reply needs to be lost: a restart between the reply to the creation and the deletion repeats the copy. */
  lemma RestartRepeatsCopy(text: string)
    ensures
      var item := Item(0, text);
      Attempt(Run(OnePending(text), [Begin, Identify, Create(Done), Restart])).turns
        == [First(0, Some(item)), Message(0, 0, item)]
  {
    var item := Item(0, text);
    var s := OnePending(text);
    RunFour(s, Begin, Identify, Create(Done), Restart);
    var r := Run(s, [Begin, Identify, Create(Done), Restart]);
    assert r.turns == [First(0, Some(item))] && r.chat == Some(0) && r.directive == Some(item) && r.id == Some(0);
    AttemptDeliversIff(r);
    assert !Delivered(r, 0, 0);
  }

  /** The chat is lost, and the reply to the creation of the next one too. */
  lemma ReopenLost(s: State)
    requires s.pc.Quiet? && s.directive.Some? && s.id.Some?
    ensures
      var r := Run(s, [ChatGone, Begin, Identify, Create(Lost)]);
      && r.pc.Quiet? && r.chat == Some(s.nextChat) && r.directive == s.directive && r.id == s.id
      && r.turns == s.turns + [First(s.nextChat, s.directive)]
  {
    RunFour(s, ChatGone, Begin, Identify, Create(Lost));
  }

  /** A lost message reply, a lost chat and a lost create reply send one delivery id twice. */
  lemma LostRepliesRepeatId(s: State)
    requires Bounded(s) && s.pc.Quiet? && s.chat.Some? && s.directive.Some? && s.id.Some?
    requires MessageTurns(s.turns, s.id.value) == 0 && !Delivered(s, s.chat.value, s.id.value)
    ensures
      var sent := Run(s, [Begin, Identify, Create(Done), Send(Lost)]);
      MessageTurns(Attempt(Run(sent, [ChatGone, Begin, Identify, Create(Lost)])).turns, s.id.value) == 2
  {
    var c, id, item := s.chat.value, s.id.value, s.directive.value;
    SendLost(s);
    var sent := Run(s, [Begin, Identify, Create(Done), Send(Lost)]);
    ReopenLost(sent);
    var reopened := Run(sent, [ChatGone, Begin, Identify, Create(Lost)]);
    CountsAppend(s.turns, Message(c, id, item), c, item, id);
    CountsAppend(sent.turns, First(s.nextChat, Some(item)), c, item, id);
    AttemptDeliversIff(reopened);
    assert !Delivered(reopened, s.nextChat, id);
    CountsAppend(reopened.turns, Message(s.nextChat, id, item), c, item, id);
  }

  // ------------------------------------------------------------------- exactly when a persist loses its directive

  /** A directive that is gone from the store, was not overwritten, and reached no chat. */
  ghost predicate Vanished(s: State, n: nat) {
    n < s.nextItem && !Pending(s, n) && n !in s.replaced && !Accepted(s, n)
  }

  /** An attempt whose message is accepted but whose reply is lost. */
  lemma SendLost(s: State)
    requires s.pc.Quiet? && s.chat.Some? && s.directive.Some? && s.id.Some?
    requires !Delivered(s, s.chat.value, s.id.value)
    ensures Run(s, [Begin, Identify, Create(Done), Send(Lost)])
         == s.(turns := s.turns + [Message(s.chat.value, s.id.value, s.directive.value)])
  {
    var c, id, item := s.chat.value, s.id.value, s.directive.value;
    var s3 := Step(Step(Step(s, Begin), Identify), Create(Done));
    assert s3 == s.(pc := Sending(c, item, id));
    assert Delivered(s3, c, id) == Delivered(s, c, id);
    RunFour(s, Begin, Identify, Create(Done), Send(Lost));
  }

  /**
   After a lost message reply, a directive persisted over the pending one keeps its delivery id, and the next
   attempt deletes it although no chat ever gets it.
   */
  lemma OverwriteLosesDirective(s: State, newer: string)
    requires Inv(s) && s.pc.Quiet? && s.chat.Some? && s.directive.Some? && s.id.Some?
    requires !Delivered(s, s.chat.value, s.id.value)
    ensures Vanished(Attempt(Step(Run(s, [Begin, Identify, Create(Done), Send(Lost)]), Persist(newer))), s.nextItem)
  {
    var c, id, item := s.chat.value, s.id.value, s.directive.value;
    SendLost(s);
    var sent := Run(s, [Begin, Identify, Create(Done), Send(Lost)]);
    assert sent.turns[|s.turns|] == Message(c, id, item);
    var p := Step(sent, Persist(newer));
    assert Delivered(p, c, id);
    AttemptDeliversIff(p);
  }

  /** Such a loss starts from an ordinary chat and one pending directive. */
  lemma OverwriteIsReachable(older: string)
    ensures var s := Run(Start(None), [Begin, Create(Done), Restart, Persist(older)]);
      && Inv(s) && s.pc.Quiet? && s.chat.Some? && s.directive == Some(Item(0, older)) && s.id.Some?
      && !Delivered(s, s.chat.value, s.id.value)
  {
    RunFour(Start(None), Begin, Create(Done), Restart, Persist(older));
    var s := Run(Start(None), [Begin, Create(Done), Restart, Persist(older)]);
    assert s.turns == [First(0, None)];
  }

  /** The attempt under way, if any, goes on undisturbed, and another one follows. */
  function Finished(s: State): State {
    Step(Step(Step(Step(s, Identify), Create(Done)), Send(Done)), Remove)
  }

  /** An attempt under way for a directive ends by deleting whatever is stored, and adds older turns alone. */
  lemma FinishedEffect(s: State, newer: string)
    requires Inv(s) && s.directive.Some? && !s.pc.Quiet? && s.pc != Creating(None)
    ensures
      var f := Finished(Persisted(s, newer));
      && f.pc.Quiet? && f.directive.None? && f.nextItem == s.nextItem + 1
      && f.replaced == s.replaced + {s.directive.value.n}
      && (f.turns == s.turns || (|f.turns| == |s.turns| + 1 && f.turns[..|s.turns|] == s.turns
                                 && Carried(f.turns[|s.turns|]) == s.directive))
  {
  }

  lemma InFlightPersistVanishes(s: State, newer: string)
    requires Inv(s) && s.directive.Some? && !s.pc.Quiet? && s.pc != Creating(None)
    ensures Vanished(Attempt(Finished(Persisted(s, newer))), s.nextItem)
  {
    FinishedEffect(s, newer);
    var f := Finished(Persisted(s, newer));
  }

  lemma QuietPersistVanishesIff(s: State, newer: string)
    requires Inv(s) && s.directive.Some? && (s.pc.Quiet? || s.pc == Creating(None))
    ensures Vanished(Attempt(Finished(Persisted(s, newer))), s.nextItem) <==>
      s.id.Some? && s.chat.Some? && Delivered(s, s.chat.value, s.id.value)
  {
    var p := Persisted(s, newer);
    var f := Finished(p);
    if f.chat.None? {
      assert Carried(Attempt(f).turns[|f.turns|]) == f.directive;
    } else {
      AttemptDeliversIff(f);
      if Delivered(f, f.chat.value, IdOf(f)) {
      } else {
        assert Carried(Attempt(f).turns[|f.turns|]) == f.directive;
      }
    }
  }

  /**
   Persisting over a pending directive loses the new one, once the attempt under way and one more have gone
   through, exactly when the guard fails.
   */
  lemma PersistVanishesIff(s: State, newer: string)
    requires Inv(s) && s.directive.Some?
    ensures Vanished(Attempt(Finished(Persisted(s, newer))), s.nextItem) <==> !HarmlessPersist(s, Persist(newer))
  {
    if s.pc.Quiet? || s.pc == Creating(None) {
      QuietPersistVanishesIff(s, newer);
    } else {
      InFlightPersistVanishes(s, newer);
    }
  }

  /** A persist between the acceptance of a directive and its deletion: the deletion takes the new one. */
  lemma InFlightOverwriteVanishes(s: State, newer: string)
    requires Inv(s) && s.pc.Removing?
    ensures Vanished(Step(Step(s, Persist(newer)), Remove), s.nextItem)
  {
  }

  /** That moment comes in the delivery of any directive. */
  lemma RemovalIsReachable(text: string)
    ensures
      var s := Step(Step(Step(OnePending(text), Begin), Identify), Create(Done));
      Inv(s) && s.pc == Removing(Item(0, text), Some(0)) && s.directive == Some(Item(0, text))
  {
    var s := Step(Step(Step(OnePending(text), Begin), Identify), Create(Done));
    assert s.turns == [First(0, Some(Item(0, text)))];
    assert Carried(s.turns[0]) == Some(Item(0, text));
  }

  lemma RunFour(s: State, a: Action, b: Action, c: Action, d: Action)
    ensures Run(s, [a, b, c, d]) == Step(Step(Step(Step(s, a), b), c), d)
  {
    assert [a, b, c, d][1..] == [b, c, d] && [b, c, d][1..] == [c, d] && [c, d][1..] == [d] && [d][1..] == [];
    assert Run(Step(Step(s, a), b), [c, d]) == Step(Step(Step(Step(s, a), b), c), d) by {
      assert Run(Step(Step(Step(s, a), b), c), [d]) == Step(Step(Step(Step(s, a), b), c), d);
    }
  }

  // ------------------------------------------------------------------- attempts that create or fail

  /** Without a live chat, an attempt creates one with the directive as its first prompt, and deletes the directive. */
  lemma AttemptCreatesChat(s: State)
    requires s.pc.Quiet? && s.chat.None? && s.directive.Some?
    ensures
      var n := Attempt(s);
      && n.directive.None? && n.chat == Some(s.nextChat) && n.pc.Quiet?
      && n.turns == s.turns + [First(s.nextChat, s.directive)]
      && n.unfinished == s.unfinished - {s.nextChat}
  {
    var s2 := Step(Step(s, Begin), Identify);
    assert s2.pc == Creating(Some((s.directive.value, IdOf(s)))) && s2.turns == s.turns && s2.chat == s.chat;
    var s3 := Step(s2, Create(Done));
    assert s3.pc == Removing(s.directive.value, Some(s.nextChat));
  }

  /** The state an attempt leaves that stops before the Manager did anything: at most a delivery id is added. */
  function Identified(s: State): State {
    s.(id := Some(IdOf(s)), nextId := if s.id.Some? then s.nextId else s.nextId + 1)
  }

  /**
   An attempt whose creation or message is refused leaves the directive pending and the chats as they were. One whose
   reply is lost leaves the directive pending too, although a chat got it.
   */
  lemma FailedAttemptKeepsDirective(s: State)
    requires s.pc.Quiet? && s.directive.Some?
    ensures
      var ready := Step(Step(s, Begin), Identify);
      && Step(ready, Create(Refused)) == Identified(s)
      && Step(ready, Create(Lost)).directive == s.directive && Step(ready, Create(Lost)).pc.Quiet?
      && (s.chat.Some? ==>
            && Step(Step(ready, Create(Done)), Send(Refused)) == Identified(s)
            && Step(Step(ready, Create(Done)), Send(Lost)).directive == s.directive
            && Step(Step(ready, Create(Done)), Send(Lost)).pc.Quiet?)
  {
    var ready := Step(Step(s, Begin), Identify);
    assert ready == Identified(s).(pc := Creating(Some((s.directive.value, IdOf(s)))));
  }
}
