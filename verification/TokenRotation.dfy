/**
 Runtime credential rotation (`RuntimeControlClient`): any number of calls share one
 mutex-protected pair of an access token and a single-use refresh token. A call sends its
 request with the access token it read, and on a 401 refreshes and sends once more.
 */
module TokenRotation {
  import opened Text

  datatype Pair = Pair(access: string, refresh: string)

  /** How the refresh request ended, as the client sees it. A lost reply was processed by the server. */
  datatype Reply = Granted(pair: Pair) | Lost | Refused

  /** The critical section of `refresh_if_needed`: the pair afterwards, and whether the call may go on. */
  function Refreshed(current: Pair, rejected: string, reply: Reply): (Pair, bool) {
    if current.access != rejected then (current, true)
    else if reply.Granted? then (reply.pair, true)
    else (current, false)
  }

  /** The mutex-held fields. */
  class RuntimeTokens {
    var access: string
    var refresh: string

    constructor (access: string, refresh: string)
      ensures this.access == access && this.refresh == refresh
    {
      this.access, this.refresh := access, refresh;
    }

    /** Runs under the lock. `exchanged` names the refresh token put on the wire, if any. */
    method RefreshIfNeeded(rejected: string, reply: Reply) returns (ok: bool, exchanged: Option<string>)
      modifies this
      ensures (Pair(access, refresh), ok) == Refreshed(old(Pair(access, refresh)), rejected, reply)
      ensures ok <==> old(access) != rejected || reply.Granted?
      ensures Pair(access, refresh)
           == if old(access) == rejected && reply.Granted? then reply.pair else old(Pair(access, refresh))
      ensures exchanged == if old(access) == rejected then Some(old(refresh)) else None
    {
      if access != rejected {
        return true, None;
      }
      exchanged := Some(refresh);
      match reply
      case Granted(pair) =>
        access := pair.access;
        refresh := pair.refresh;
        ok := true;
      case _ =>
        ok := false;
    }
  }

  // ----- the protocol, one step per lock operation or network event -----

  datatype Pc =
    | Ready(attempt: nat)                     // about to lock, copy the access token and send
    | InFlight(attempt: nat, token: string)
    | Rejected(token: string)                 // 401 on the first attempt, waiting for the lock
    | Exchanging(token: string)               // holds the lock, refresh request on the wire
    | Returned

  /** One call of `send_retrying_refresh`, with the tokens it has sent requests with. */
  datatype Call = Call(pc: Pc, sent: seq<string>)

  /** A refresh the server processed: who asked, for which rejected token and pair, and whether the reply arrived. */
  datatype Exchange = Exchange(call: nat, rejected: string, refresh: string, generation: nat, seen: bool)

  /** `held` lists every pair the client has held, oldest first; the last one is current. */
  datatype State = State(held: seq<Pair>, lock: Option<nat>, calls: map<nat, Call>, exchanges: seq<Exchange>)

  datatype Action =
    | Start(c: nat)
    | Send(c: nat)
    | Respond(c: nat, unauthorized: bool)
    | Lock(c: nat)
    | Finish(c: nat, reply: Reply)

  function Initial(pair: Pair): State {
    State([pair], None, map[], [])
  }

  ghost predicate Fresh(held: seq<Pair>, pair: Pair) {
    forall p :: p in held ==> p.access != pair.access && p.refresh != pair.refresh
  }

  function Current(s: State): Pair
    requires s.held != []
  {
    s.held[|s.held| - 1]
  }

  function WithCall(s: State, c: nat, pc: Pc): State
    requires c in s.calls
  {
    s.(calls := s.calls[c := s.calls[c].(pc := pc)])
  }

  /** One step; an action whose guard fails leaves the state alone. */
  ghost function Step(s: State, a: Action): State
    requires s.held != []
  {
    if a.Start? then
      if a.c in s.calls then s else s.(calls := s.calls[a.c := Call(Ready(0), [])])
    else if a.c !in s.calls then s
    else
      var call := s.calls[a.c];
      match a
      case Send(c) =>
        if call.pc.Ready? && call.pc.attempt < 2 && s.lock.None? then
          var token := Current(s).access;
          s.(calls := s.calls[c := Call(InFlight(call.pc.attempt, token), call.sent + [token])])
        else s
      case Respond(c, unauthorized) =>
        if !call.pc.InFlight? then s
        else if !unauthorized || call.pc.attempt == 1 then WithCall(s, c, Returned)
        else WithCall(s, c, Rejected(call.pc.token))
      case Lock(c) =>
        if !(call.pc.Rejected? && s.lock.None?) then s
        else if Current(s).access != call.pc.token then WithCall(s, c, Ready(1))
        else WithCall(s, c, Exchanging(call.pc.token)).(lock := Some(c))
      case Finish(c, reply) =>
        if !call.pc.Exchanging? || (reply.Granted? && !Fresh(s.held, reply.pair)) then s
        else
          var (pair, ok) := Refreshed(Current(s), call.pc.token, reply);
          var log := Exchange(c, call.pc.token, Current(s).refresh, |s.held| - 1, reply.Granted?);
          WithCall(s, c, if ok then Ready(1) else Returned)
            .(lock := None,
              held := if reply.Granted? then s.held + [pair] else s.held,
              exchanges := if reply.Refused? then s.exchanges else s.exchanges + [log])
      case _ => s
  }

  ghost function Run(s: State, actions: seq<Action>): (s': State)
    requires s.held != []
    ensures s'.held != []
    decreases |actions|
  {
    if actions == [] then s else Run(Step(s, actions[0]), actions[1..])
  }

  // ----- invariant -----

  ghost predicate Distinct(held: seq<Pair>) {
    forall i, j :: 0 <= i < j < |held| ==> held[i].access != held[j].access && held[i].refresh != held[j].refresh
  }

  ghost predicate Known(s: State, token: string) {
    exists p :: p in s.held && p.access == token
  }

  ghost predicate CallOk(s: State, call: Call)
    requires s.held != []
  {
    match call.pc
    case Ready(k) =>
      |call.sent| == k < 2 && (k == 1 ==> Known(s, call.sent[0]) && call.sent[0] != Current(s).access)
    case InFlight(k, token) =>
      |call.sent| == k + 1 <= 2 && call.sent[k] == token && Known(s, token) && (k == 1 ==> call.sent[0] != token)
    case Rejected(token) => call.sent == [token] && Known(s, token)
    case Exchanging(token) => call.sent == [token] && token == Current(s).access
    case Returned => |call.sent| <= 2 && (|call.sent| == 2 ==> call.sent[0] != call.sent[1])
  }

  ghost predicate ExchangeOk(s: State, e: Exchange) {
    e.generation < |s.held|
    && s.held[e.generation] == Pair(e.rejected, e.refresh)
    && (e.seen ==> e.generation + 1 < |s.held|)
  }

  ghost predicate LogOk(s: State) {
    && s.held != [] && Distinct(s.held)
    && (forall e :: e in s.exchanges ==> ExchangeOk(s, e))
    && (forall i, j :: 0 <= i < j < |s.exchanges| ==>
          s.exchanges[i].generation <= s.exchanges[j].generation
          && (s.exchanges[i].seen ==> s.exchanges[i].generation < s.exchanges[j].generation))
  }

  ghost predicate Inv(s: State) {
    && LogOk(s)
    && (forall c :: c in s.calls ==> CallOk(s, s.calls[c]))
    && (forall c :: c in s.calls && s.calls[c].pc.Exchanging? ==> s.lock == Some(c))
    && (s.lock.Some? ==> s.lock.value in s.calls && s.calls[s.lock.value].pc.Exchanging?)
  }

  lemma FinishKeepsLog(s: State, c: nat, reply: Reply)
    requires LogOk(s) && c in s.calls && s.calls[c].pc == Exchanging(Current(s).access)
    requires reply.Granted? ==> Fresh(s.held, reply.pair)
    ensures LogOk(Step(s, Finish(c, reply)))
  {
    var s' := Step(s, Finish(c, reply));
    forall e | e in s.exchanges ensures ExchangeOk(s', e) {
      assert ExchangeOk(s, e);
    }
    forall i | 0 <= i < |s.exchanges| ensures ExchangeOk(s, s.exchanges[i]) {
      assert s.exchanges[i] in s.exchanges;
    }
  }

  ghost predicate Finishes(s: State, a: Action) {
    a.Finish? && a.c in s.calls && s.calls[a.c].pc.Exchanging? && (a.reply.Granted? ==> Fresh(s.held, a.reply.pair))
  }

  lemma FinishKeepsInv(s: State, a: Action)
    requires Inv(s) && Finishes(s, a)
    ensures Inv(Step(s, a))
  {
    var s' := Step(s, a);
    assert CallOk(s, s.calls[a.c]);
    FinishKeepsLog(s, a.c, a.reply);
    forall d | d in s'.calls ensures CallOk(s', s'.calls[d]) && !s'.calls[d].pc.Exchanging? {
    }
  }

  /** Every other step moves at most one call, and leaves the pair and the exchanges alone. */
  lemma OtherStepFrame(s: State, a: Action)
    requires Inv(s) && !Finishes(s, a)
    ensures
      var s' := Step(s, a);
      && s'.held == s.held && s'.exchanges == s.exchanges
      && (forall d :: d in s'.calls && d != a.c ==> d in s.calls && s'.calls[d] == s.calls[d])
      && (forall d :: d in s.calls ==> d in s'.calls)
      && (a.c in s'.calls ==> CallOk(s', s'.calls[a.c]))
  {
    assert Current(s) in s.held;
    if a.c in s.calls {
      assert CallOk(s, s.calls[a.c]);
    }
  }

  lemma OtherStepLock(s: State, a: Action)
    requires Inv(s) && !Finishes(s, a)
    ensures
      var s' := Step(s, a);
      && (s'.lock == s.lock || (s.lock.None? && s'.lock == Some(a.c)))
      && (a.c in s'.calls && s'.calls[a.c].pc.Exchanging? ==> s'.lock == Some(a.c))
      && (s'.lock == Some(a.c) ==> a.c in s'.calls && s'.calls[a.c].pc.Exchanging?)
  {
  }

  lemma OtherStepKeepsInv(s: State, a: Action)
    requires Inv(s) && !Finishes(s, a)
    ensures Inv(Step(s, a))
  {
    var s' := Step(s, a);
    OtherStepFrame(s, a);
    OtherStepLock(s, a);
    forall e | e in s'.exchanges ensures ExchangeOk(s', e) {
      assert ExchangeOk(s, e);
    }
  }

  lemma StepKeepsInv(s: State, a: Action)
    requires Inv(s)
    ensures Inv(Step(s, a))
  {
    if Finishes(s, a) {
      FinishKeepsInv(s, a);
    } else {
      OtherStepKeepsInv(s, a);
    }
  }

  lemma {:induction false} RunKeepsInv(s: State, actions: seq<Action>)
    requires Inv(s)
    ensures Inv(Run(s, actions))
    decreases |actions|
  {
    if actions != [] {
      StepKeepsInv(s, actions[0]);
      RunKeepsInv(Step(s, actions[0]), actions[1..]);
    }
  }

  // ----- theorems -----

  /**
   In every interleaving, once the client has received the reply to an exchange, neither that
   refresh token nor the rejected access token behind it is ever exchanged again. So each refresh
   token is successfully exchanged at most once, and all calls rejected with the same access token
   cause at most one successful exchange.
   */
  lemma ExchangedAtMostOnce(pair: Pair, actions: seq<Action>, i: nat, j: nat)
    requires i < j < |Run(Initial(pair), actions).exchanges|
    ensures var log := Run(Initial(pair), actions).exchanges;
            log[i].refresh == log[j].refresh || log[i].rejected == log[j].rejected ==> !log[i].seen
  {
    RunKeepsInv(Initial(pair), actions);
    var s := Run(Initial(pair), actions);
    assert s.exchanges[i] in s.exchanges && s.exchanges[j] in s.exchanges;
    assert ExchangeOk(s, s.exchanges[i]) && ExchangeOk(s, s.exchanges[j]);
  }

  /** A call sends at most two requests, and the second never repeats the rejected token. */
  lemma AtMostTwoRequests(pair: Pair, actions: seq<Action>, c: nat)
    requires c in Run(Initial(pair), actions).calls
    ensures var sent := Run(Initial(pair), actions).calls[c].sent;
            |sent| <= 2 && (|sent| == 2 ==> sent[0] != sent[1])
  {
    RunKeepsInv(Initial(pair), actions);
    assert CallOk(Run(Initial(pair), actions), Run(Initial(pair), actions).calls[c]);
  }

  /**
   A call is at the refresh endpoint, whatever the endpoint answers, only while it holds the lock and the token
   it was rejected with is still current; and what an exchange put on the wire was the pair of that moment.
   */
  lemma StaleRejectionNeverExchanges(pair: Pair, actions: seq<Action>, a: Action)
    ensures var s := Run(Initial(pair), actions);
            forall c :: c in s.calls && s.calls[c].pc.Exchanging? ==>
              && s.lock == Some(c) && s.calls[c].sent == [s.calls[c].pc.token]
              && s.calls[c].pc.token == Current(s).access
    ensures var s := Run(Initial(pair), actions);
            var s' := Step(s, a);
            |s'.exchanges| > |s.exchanges| ==>
              var e := s'.exchanges[|s'.exchanges| - 1];
              && s'.exchanges == s.exchanges + [e]
              && Pair(e.rejected, e.refresh) == Current(s)
              && e.call in s.calls && s.calls[e.call].sent == [e.rejected]
  {
    RunKeepsInv(Initial(pair), actions);
    var s := Run(Initial(pair), actions);
    forall c | c in s.calls && s.calls[c].pc.Exchanging?
      ensures s.lock == Some(c) && s.calls[c].sent == [s.calls[c].pc.token] && s.calls[c].pc.token == Current(s).access
    {
      assert CallOk(s, s.calls[c]);
    }
    if a.c in s.calls {
      assert CallOk(s, s.calls[a.c]);
    }
  }

  ghost function Remaining(call: Call): nat {
    match call.pc
    case Ready(k) => if k == 0 then 6 else 2
    case InFlight(k, _) => if k == 0 then 5 else 1
    case Rejected(_) => 4
    case Exchanging(_) => 3
    case Returned => 0
  }

  ghost predicate MovesOn(s: State, s': State, mover: nat, d: nat)
    requires d in s.calls
  {
    d in s'.calls && (s'.calls[d] == s.calls[d] || (d == mover && Remaining(s'.calls[d]) < Remaining(s.calls[d])))
  }

  /** The action a call waits for next. A waiting call needs the lock; its holder never does. */
  function NextAction(c: nat, call: Call): Action {
    match call.pc
    case Ready(_) => Send(c)
    case InFlight(_, _) => Respond(c, false)
    case Rejected(_) => Lock(c)
    case _ => Finish(c, Refused)
  }

  /** No deadlock: while some call has not returned, that call or the holder of the lock can move. */
  lemma NoDeadlock(pair: Pair, actions: seq<Action>, c: nat)
    requires c in Run(Initial(pair), actions).calls && !Run(Initial(pair), actions).calls[c].pc.Returned?
    ensures var s := Run(Initial(pair), actions);
            var d := if s.lock.Some? then s.lock.value else c;
            d in s.calls && Step(s, NextAction(d, s.calls[d])) != s
  {
    RunKeepsInv(Initial(pair), actions);
    var s := Run(Initial(pair), actions);
    var d := if s.lock.Some? then s.lock.value else c;
    assert CallOk(s, s.calls[d]);
    assert Step(s, NextAction(d, s.calls[d])).calls[d] != s.calls[d];
  }

  /** No endless call: a step leaves a call alone or brings the stepping call strictly closer to its end. */
  lemma StepMovesOn(pair: Pair, actions: seq<Action>, a: Action, d: nat)
    requires d in Run(Initial(pair), actions).calls
    ensures MovesOn(Run(Initial(pair), actions), Step(Run(Initial(pair), actions), a), a.c, d)
  {
    RunKeepsInv(Initial(pair), actions);
    var s := Run(Initial(pair), actions);
    if a.c in s.calls { assert CallOk(s, s.calls[a.c]); }
  }

  function RejectedCall(c: nat, reply: Reply): seq<Action> {
    [Start(c), Send(c), Respond(c, true), Lock(c), Finish(c, reply)]
  }

  lemma RunRejectedCall(s: State, c: nat)
    requires s.held != [] && s.lock.None? && c !in s.calls
    ensures var s' := Run(s, RejectedCall(c, Lost));
            s'.held == s.held && s'.lock.None? && s'.calls.Keys == s.calls.Keys + {c}
            && s'.exchanges == s.exchanges + [Exchange(c, Current(s).access, Current(s).refresh, |s.held| - 1, false)]
  {
    var first, rest := [Start(c)] + ([Send(c)] + [Respond(c, true)]), [Lock(c)] + [Finish(c, Lost)];
    assert RejectedCall(c, Lost) == first + rest;
    RunAppends(s, first, rest);
    FirstRequest(s, c, true);
    var token := Current(s).access;
    LocksAndFinishes(s.(calls := s.calls[c := Call(Rejected(token), [token])]), c, token, Lost);
  }

  /** A refresh token can reach the server twice; by `ExchangedAtMostOnce` only because a reply was lost. */
  lemma LostReplyRepeatsToken(pair: Pair)
    ensures var log := Run(Run(Initial(pair), RejectedCall(1, Lost)), RejectedCall(2, Lost)).exchanges;
            |log| == 2 && log[0].refresh == log[1].refresh == pair.refresh
  {
    RunRejectedCall(Initial(pair), 1);
    RunRejectedCall(Run(Initial(pair), RejectedCall(1, Lost)), 2);
  }

  // ----- a rejected call goes on -----

  lemma Moves(s: State, a: Action, n: State, rest: seq<Action>)
    requires s.held != [] && n.held != [] && Step(s, a) == n
    ensures Run(s, [a] + rest) == Run(n, rest)
  {
    assert ([a] + rest)[1..] == rest;
  }

  lemma RunTwo(s: State, a: Action, n: State, b: Action, m: State)
    requires s.held != [] && n.held != [] && m.held != [] && Step(s, a) == n && Step(n, b) == m
    ensures Run(s, [a] + [b]) == m
  {
    Moves(s, a, n, [b]);
    assert Run(n, [b]) == Run(m, [b][1..]);
  }

  /** Call `c` got a 401 for the only request it sent, which carried `token`. */
  predicate GotRejected(s: State, c: nat, token: string) {
    s.held != [] && s.lock.None? && c in s.calls && s.calls[c] == Call(Rejected(token), [token])
  }

  /** A call sends its first request with the current token, and only a 401 keeps it from returning. */
  lemma FirstRequest(s: State, c: nat, unauthorized: bool)
    requires s.held != [] && s.lock.None? && c !in s.calls
    ensures
      var token := Current(s).access;
      Run(s, [Start(c)] + ([Send(c)] + [Respond(c, unauthorized)]))
      == s.(calls := s.calls[c := Call(if unauthorized then Rejected(token) else Returned, [token])])
  {
    var token := Current(s).access;
    var n := s.(calls := s.calls[c := Call(Ready(0), [])]);
    var m := s.(calls := s.calls[c := Call(InFlight(0, token), [token])]);
    assert n.calls[c].sent + [token] == [token];
    Moves(s, Start(c), n, [Send(c)] + [Respond(c, unauthorized)]);
    RunTwo(n, Send(c), m, Respond(c, unauthorized), Step(m, Respond(c, unauthorized)));
  }

  /** The state after `c` exchanged the current pair for `pair`, with `call` what is left of its call. */
  ghost function Rotated(s: State, c: nat, pair: Pair, call: Call): State
    requires s.held != []
  {
    s.(held := s.held + [pair], calls := s.calls[c := call],
       exchanges := s.exchanges + [Exchange(c, Current(s).access, Current(s).refresh, |s.held| - 1, true)])
  }

  lemma LocksAndFinishes(s: State, c: nat, token: string, reply: Reply)
    requires GotRejected(s, c, token) && token == Current(s).access
    requires reply.Granted? ==> Fresh(s.held, reply.pair)
    ensures
      Run(s, [Lock(c)] + [Finish(c, reply)])
      == match reply
         case Granted(pair) => Rotated(s, c, pair, Call(Ready(1), [token]))
         case Refused => s.(calls := s.calls[c := Call(Returned, [token])])
         case Lost =>
           s.(calls := s.calls[c := Call(Returned, [token])],
              exchanges := s.exchanges + [Exchange(c, token, Current(s).refresh, |s.held| - 1, false)])
  {
    var n := s.(calls := s.calls[c := Call(Exchanging(token), [token])], lock := Some(c));
    RunTwo(s, Lock(c), n, Finish(c, reply), Step(n, Finish(c, reply)));
  }

  /**
   A call rejected with the current token exchanges the pair, and when a fresh pair is granted that pair is
   current and the call sends its request again with the new access token.
   */
  lemma GrantedCallIsResent(s: State, c: nat, token: string, pair: Pair)
    requires GotRejected(s, c, token) && token == Current(s).access && Fresh(s.held, pair)
    ensures
      Run(s, ([Lock(c)] + [Finish(c, Granted(pair))]) + [Send(c)])
      == Rotated(s, c, pair, Call(InFlight(1, pair.access), [token, pair.access]))
  {
    LocksAndFinishes(s, c, token, Granted(pair));
    var n := Rotated(s, c, pair, Call(Ready(1), [token]));
    RunAppends(s, [Lock(c)] + [Finish(c, Granted(pair))], [Send(c)]);
    assert [token] + [pair.access] == [token, pair.access];
    assert Run(n, [Send(c)]) == Run(Step(n, Send(c)), [Send(c)][1..]);
  }

  lemma {:induction false} RunAppends(s: State, a: seq<Action>, b: seq<Action>)
    requires s.held != []
    ensures Run(s, a + b) == Run(Run(s, a), b)
    decreases |a|
  {
    if a == [] {
      assert a + b == b;
    } else {
      assert (a + b)[1..] == a[1..] + b;
      RunAppends(Step(s, a[0]), a[1..], b);
    }
  }

  /** A call whose rejected token is no longer current sends again with the current one, and nothing is exchanged. */
  lemma StaleCallIsResent(s: State, c: nat, token: string)
    requires GotRejected(s, c, token) && token != Current(s).access
    ensures
      var current := Current(s).access;
      Run(s, [Lock(c)] + [Send(c)]) == s.(calls := s.calls[c := Call(InFlight(1, current), [token, current])])
  {
    var current := Current(s).access;
    var n := s.(calls := s.calls[c := Call(Ready(1), [token])]);
    assert [token] + [current] == [token, current];
    RunTwo(s, Lock(c), n, Send(c), Step(n, Send(c)));
  }

  /** One exchange serves every call rejected with the same token: the next one sends with the new token at once. */
  lemma OneExchangeServesAll(s: State, c: nat, d: nat, token: string, pair: Pair)
    requires GotRejected(s, c, token) && GotRejected(s, d, token) && c != d
    requires token == Current(s).access && Fresh(s.held, pair)
    ensures
      var n := Run(Run(s, [Lock(c)] + [Finish(c, Granted(pair))]), [Lock(d)] + [Send(d)]);
      && n.held == s.held + [pair] && |n.exchanges| == |s.exchanges| + 1 && n.lock.None?
      && n.calls == s.calls[c := Call(Ready(1), [token])]
                           [d := Call(InFlight(1, pair.access), [token, pair.access])]
  {
    LocksAndFinishes(s, c, token, Granted(pair));
    assert Current(s) in s.held;
    StaleCallIsResent(Rotated(s, c, pair, Call(Ready(1), [token])), d, token);
  }

  /** A refresh that is refused or whose reply is lost ends the call after its one request and keeps the pair. */
  lemma FailedRefreshEndsCall(s: State, c: nat, token: string, reply: Reply)
    requires GotRejected(s, c, token) && token == Current(s).access && !reply.Granted?
    ensures
      var n := Run(s, [Lock(c)] + [Finish(c, reply)]);
      n.held == s.held && n.lock.None? && n.calls == s.calls[c := Call(Returned, [token])]
  {
    LocksAndFinishes(s, c, token, reply);
  }

  /** The second answer is final, a 401 included. */
  lemma SecondAnswerIsFinal(s: State, c: nat, token: string, unauthorized: bool)
    requires s.held != [] && c in s.calls && s.calls[c].pc == InFlight(1, token)
    ensures Step(s, Respond(c, unauthorized)) == s.(calls := s.calls[c := Call(Returned, s.calls[c].sent)])
  {
  }

  /** While a refresh is on the wire, no call reads the token or starts another refresh: each waits for the lock. */
  lemma NothingSentDuringExchange(s: State, c: nat)
    requires s.held != [] && s.lock.Some?
    ensures Step(s, Send(c)) == s && Step(s, Lock(c)) == s
  {
  }
}
