/**
 The access token, the expiry notice and the proactive-refresh timer of the web client
 (apps/web/src/lib/api.ts:78-127, 306-350, 366-414, 490-531). The functions say what each operation does
 to a state; the class carries the operations out on module variables, as the client does.
 */
module Auth {
  import opened Options

  /** An access token, with the expiry its payload can be read to hold, in milliseconds. */
  datatype Token = Token(text: string, expMs: Option<int>)

  datatype Timer = Timer(token: Token, armedAt: int, due: int)

  datatype Mark = Stored | Expired

  /**
   `handle` is the client's variable; `timers` are the timeouts the browser really has pending.
   `log` records tokens stored and expiry notices, in order.
   */
  datatype State = State(
    token: Option<Token>,
    notified: bool,
    handle: Option<nat>,
    timers: map<nat, Timer>,
    nextHandle: nat,
    log: seq<Mark>)

  const LOGGED_OUT := State(None, false, None, map[], 0, [])

  const LEAD_MS := 60_000
  const MIN_MS := 10_000

  /** JavaScript's truth: an empty token is held but counts as none. */
  predicate Live(t: Option<Token>) {
    t.Some? && t.value.text != ""
  }

  function DelayMs(expMs: int, now: int): int {
    if expMs - now - LEAD_MS > MIN_MS then expMs - now - LEAD_MS else MIN_MS
  }

  function StopTimer(s: State): State {
    match s.handle
    case None => s
    case Some(h) => s.(handle := None, timers := s.timers - {h})
  }

  function Schedule(s: State, t: Token, now: int, browser: bool): State {
    var stopped := StopTimer(s);
    if !browser || t.expMs.None? then stopped
    else stopped.(
      handle := Some(stopped.nextHandle),
      timers := stopped.timers[stopped.nextHandle := Timer(t, now, now + DelayMs(t.expMs.value, now))],
      nextHandle := stopped.nextHandle + 1)
  }

  function SetTokens(s: State, t: Option<Token>, now: int, browser: bool): State {
    if Live(t) then
      Schedule(s.(token := t, notified := false, log := s.log + [Stored]), t.value, now, browser)
    else
      StopTimer(s.(token := t))
  }

  function EmitExpired(s: State): State {
    if s.notified then s else s.(notified := true, log := s.log + [Expired])
  }

  /** Somebody told of an expired session: whether it clears the session itself, and whether it throws. */
  datatype Listener = Listener(id: nat, clears: bool, throws: bool)

  datatype Outcome = Returned | Raised

  function Heard(s: State, l: Listener): State {
    if l.clears then StopTimer(s.(token := None)) else s
  }

  function HeardAll(s: State, listeners: seq<Listener>): State {
    if listeners == [] then s else Heard(HeardAll(s, listeners[..|listeners| - 1]), listeners[|listeners| - 1])
  }

  /** A session that is already over stays as it is, whatever the listeners do to it. */
  lemma {:induction false} HearingChangesNothing(s: State, listeners: seq<Listener>)
    requires s.token == None && s.handle == None
    ensures HeardAll(s, listeners) == s
  {
    if listeners != [] {
      HearingChangesNothing(s, listeners[..|listeners| - 1]);
    }
  }

  /** What `/auth/refresh` can come to: an answer, with a body that may not parse, or nothing. */
  datatype Reply = Answered(status: int, body: Body) | Unreachable
  datatype Body = Tokens(tokens: Option<Token>) | Garbled

  datatype Refresh = Succeeded | Unauthorized | Transient

  predicate IsOk(status: int) {
    200 <= status < 300
  }

  function Result(reply: Reply): Refresh {
    match reply
    case Unreachable => Transient
    case Answered(status, body) =>
      if !IsOk(status) then (if status >= 500 || status == 429 then Transient else Unauthorized)
      else if body.Garbled? then Transient
      else if Live(body.tokens) then Succeeded
      else Unauthorized
  }

  /** The effect of a settled refresh. */
  function Settle(s: State, reply: Reply, now: int, browser: bool): State {
    match Result(reply)
    case Transient => s
    case Unauthorized => EmitExpired(SetTokens(s, None, now, browser))
    case Succeeded => SetTokens(s, reply.body.tokens, now, browser)
  }

  /** The server answers, neither throttling nor failing, and gives no token. */
  predicate Rejects(reply: Reply) {
    && reply.Answered?
    && if 200 <= reply.status < 300
       then reply.body.Tokens? && (reply.body.tokens.None? || reply.body.tokens.value.text == "")
       else reply.status < 500 && reply.status != 429
  }

  /** The server answers with a token. */
  predicate Grants(reply: Reply) {
    && reply.Answered? && 200 <= reply.status < 300
    && reply.body.Tokens? && reply.body.tokens.Some? && reply.body.tokens.value.text != ""
  }

  // ---------------------------------------------------------------------------------------------
  // What every operation keeps
  // ---------------------------------------------------------------------------------------------

  /** The client's handle is the browser's only timeout, armed by the token now held. */
  predicate TimerSound(s: State) {
    && s.timers.Keys == (if s.handle.Some? then {s.handle.value} else {})
    && (s.handle.Some? ==>
          && s.handle.value < s.nextHandle
          && var t := s.timers[s.handle.value];
             && Live(s.token) && s.token.value == t.token && t.token.expMs.Some?
             && t.due == t.armedAt + DelayMs(t.token.expMs.value, t.armedAt))
  }

  /** The notice was given and no token stored since. */
  predicate NoticeStands(log: seq<Mark>) {
    exists i :: 0 <= i < |log| && log[i].Expired? && forall j :: i < j < |log| ==> log[j].Expired?
  }

  /** Between any two notices a token was stored. */
  predicate Spaced(log: seq<Mark>) {
    forall i, j :: 0 <= i < j < |log| && log[i].Expired? && log[j].Expired? ==>
      exists k :: i < k < j && log[k].Stored?
  }

  predicate LatchSound(s: State) {
    Spaced(s.log) && (s.notified <==> NoticeStands(s.log))
  }

  lemma SetTokensKeepsTimer(s: State, t: Option<Token>, now: int, browser: bool)
    requires TimerSound(s)
    ensures TimerSound(SetTokens(s, t, now, browser))
  {
  }

  /** No timeout is pending, and none is known of. */
  predicate Unarmed(s: State) {
    s.handle == None && s.timers == map[]
  }

  /** The one timeout pending was armed now, for a minute before the token expires, in ten seconds at least. */
  predicate ArmedFor(s: State, token: Token, now: int) {
    && s.handle.Some? && token.expMs.Some?
    && var wait := token.expMs.value - now - 60_000;
       s.timers == map[s.handle.value := Timer(token, now, now + if wait > 10_000 then wait else 10_000)]
  }

  /** A token is held from then on, with its timeout and without a notice; or none is, and no timeout. */
  lemma TokensExactly(s: State, t: Option<Token>, now: int, browser: bool)
    requires TimerSound(s)
    ensures var s' := SetTokens(s, t, now, browser);
            && s'.token == t
            && (if t.Some? && t.value.text != "" then !s'.notified && s'.log == s.log + [Stored]
                else s'.notified == s.notified && s'.log == s.log)
            && (if t.Some? && t.value.text != "" && browser && t.value.expMs.Some? then ArmedFor(s', t.value, now)
                else Unarmed(s'))
  {
    assert StopTimer(s).timers.Keys == {};
  }

  /**
   A refresh that is rejected ends the session, with a notice unless one stands; one that brings a token
   renews it; any other leaves everything as it was.
   */
  lemma SettlesExactly(s: State, reply: Reply, now: int, browser: bool)
    requires TimerSound(s)
    ensures Result(reply) == if Rejects(reply) then Unauthorized else if Grants(reply) then Succeeded else Transient
    ensures var s' := Settle(s, reply, now, browser);
            && (Rejects(reply) ==>
                  && s'.token == None && Unarmed(s') && s'.notified
                  && s'.log == s.log + if s.notified then [] else [Expired])
            && (Grants(reply) ==>
                  && s'.token == reply.body.tokens && !s'.notified && s'.log == s.log + [Stored]
                  && if browser && s'.token.value.expMs.Some? then ArmedFor(s', s'.token.value, now)
                     else Unarmed(s'))
            && (!Rejects(reply) && !Grants(reply) ==> s' == s)
  {
    TokensExactly(s, if Grants(reply) then reply.body.tokens else None, now, browser);
  }

  lemma LogGrows(s: State, m: Mark)
    requires LatchSound(s) && (m.Expired? ==> !s.notified)
    ensures LatchSound(s.(log := s.log + [m], notified := m.Expired?))
  {
    var log := s.log + [m];
    if m.Expired? {
      assert log[|s.log|].Expired?;
      forall i | 0 <= i < |s.log| && log[i].Expired?
        ensures exists k :: i < k < |s.log| && log[k].Stored?
      {
        assert !NoticeStands(s.log) && s.log[i].Expired?;
        var k :| i < k < |s.log| && !s.log[k].Expired?;
        assert log[k].Stored?;
      }
    } else {
      assert log[|s.log|].Stored?;
    }
    forall i, j | 0 <= i < j < |s.log| && log[i].Expired? && log[j].Expired?
      ensures exists k :: i < k < j && log[k].Stored?
    {
      assert s.log[i].Expired? && s.log[j].Expired?;
      var k :| i < k < j && s.log[k].Stored?;
      assert log[k].Stored?;
    }
  }

  lemma SetTokensKeepsLatch(s: State, t: Option<Token>, now: int, browser: bool)
    requires LatchSound(s)
    ensures LatchSound(SetTokens(s, t, now, browser))
  {
    if Live(t) {
      LogGrows(s, Stored);
    }
  }

  lemma SettleKeepsSound(s: State, reply: Reply, now: int, browser: bool)
    requires TimerSound(s) && LatchSound(s)
    ensures TimerSound(Settle(s, reply, now, browser)) && LatchSound(Settle(s, reply, now, browser))
  {
    var tokens := if Result(reply).Succeeded? then reply.body.tokens else None;
    SetTokensKeepsTimer(s, tokens, now, browser);
    SetTokensKeepsLatch(s, tokens, now, browser);
    if Result(reply).Unauthorized? && !s.notified {
      LogGrows(SetTokens(s, None, now, browser), Expired);
    }
  }

  function Count(log: seq<Mark>, m: Mark): nat {
    if log == [] then 0 else Count(log[..|log| - 1], m) + (if log[|log| - 1] == m then 1 else 0)
  }

  /** So notices outnumber stored tokens by one at most. */
  lemma {:induction false} NoticesBounded(log: seq<Mark>)
    requires Spaced(log)
    ensures Count(log, Expired) <= Count(log, Stored) + (if NoticeStands(log) then 1 else 0)
  {
    if log != [] {
      var front := log[..|log| - 1];
      assert Spaced(front) by {
        forall i, j | 0 <= i < j < |front| && front[i].Expired? && front[j].Expired?
          ensures exists k :: i < k < j && front[k].Stored?
        {
          assert log[i].Expired? && log[j].Expired?;
          var k :| i < k < j && log[k].Stored?;
          assert front[k].Stored?;
        }
      }
      NoticesBounded(front);
      if log[|log| - 1].Expired? {
        assert NoticeStands(log);
      }
    }
  }

  /** When the timer is due, as the token that armed it has it. */
  lemma TimerIsOnTime(expMs: int, armedAt: int)
    ensures var due := armedAt + DelayMs(expMs, armedAt);
            && due - armedAt >= MIN_MS
            && (due < expMs <==> expMs - armedAt > MIN_MS)
            && (due == expMs - LEAD_MS <==> expMs - armedAt >= LEAD_MS + MIN_MS)
  {
  }

  /** The module variables of the client, and the operations on them. */
  class TokenModule {
    const browser: bool
    var accessToken: Option<Token>
    var sessionExpiredNotified: bool
    const listeners: seq<Listener>
    var called: seq<Listener>         // listeners called, in order
    var proactiveRefreshTimer: Option<nat>
    var timers: map<nat, Timer>       // the browser's pending timeouts
    var nextHandle: nat
    ghost var log: seq<Mark>

    constructor (browser: bool, listeners: seq<Listener>)
      ensures AsState() == LOGGED_OUT && this.browser == browser && this.listeners == listeners && called == []
    {
      this.browser, this.listeners := browser, listeners;
      accessToken, sessionExpiredNotified, called := None, false, [];
      proactiveRefreshTimer, timers, nextHandle, log := None, map[], 0, [];
    }

    ghost function AsState(): State
      reads this
    {
      State(accessToken, sessionExpiredNotified, proactiveRefreshTimer, timers, nextHandle, log)
    }

    method StopProactiveRefresh()
      modifies this`proactiveRefreshTimer, this`timers
      ensures AsState() == StopTimer(old(AsState()))
    {
      if proactiveRefreshTimer.Some? {
        timers := timers - {proactiveRefreshTimer.value};
        proactiveRefreshTimer := None;
      }
    }

    method ScheduleProactiveRefresh(token: Token, now: int)
      modifies this`proactiveRefreshTimer, this`timers, this`nextHandle
      ensures AsState() == Schedule(old(AsState()), token, now, browser)
    {
      StopProactiveRefresh();
      if !browser || token.expMs.None? {
        return;
      }
      var delayMs := DelayMs(token.expMs.value, now);
      timers := timers[nextHandle := Timer(token, now, now + delayMs)];
      proactiveRefreshTimer := Some(nextHandle);
      nextHandle := nextHandle + 1;
    }

    method SetAuthTokens(tokens: Option<Token>, now: int)
      modifies this`accessToken, this`sessionExpiredNotified, this`proactiveRefreshTimer, this`timers,
               this`nextHandle, this`log
      ensures AsState() == SetTokens(old(AsState()), tokens, now, browser)
      ensures accessToken == tokens
    {
      accessToken := tokens;
      if Live(tokens) {
        sessionExpiredNotified := false;
        log := log + [Stored];
        ScheduleProactiveRefresh(tokens.value, now);
      } else {
        StopProactiveRefresh();
      }
    }

    /** One listener: it may end the session itself, as the repository's own does, and it may throw. */
    method CallListener(l: Listener, now: int) returns (o: Outcome)
      modifies this`accessToken, this`sessionExpiredNotified, this`proactiveRefreshTimer, this`timers,
               this`nextHandle, this`log, this`called
      ensures AsState() == Heard(old(AsState()), l) && called == old(called) + [l]
      ensures if l.clears then accessToken == None && proactiveRefreshTimer == None
              else AsState() == old(AsState())
    {
      called := called + [l];
      if l.clears {
        SetAuthTokens(None, now);
      }
      o := if l.throws then Raised else Returned;
    }

    /** Every listener is called once, in order, even when some throw. */
    method EmitSessionExpired(now: int)
      modifies this`accessToken, this`sessionExpiredNotified, this`proactiveRefreshTimer, this`timers,
               this`nextHandle, this`log, this`called
      ensures AsState() == (if old(sessionExpiredNotified) then old(AsState())
                            else HeardAll(EmitExpired(old(AsState())), listeners))
      ensures called == old(called) + (if old(sessionExpiredNotified) then [] else listeners)
    {
      if sessionExpiredNotified {
        return;
      }
      sessionExpiredNotified := true;
      log := log + [Expired];
      for i := 0 to |listeners|
        invariant called == old(called) + listeners[..i]
        invariant AsState() == HeardAll(EmitExpired(old(AsState())), listeners[..i])
      {
        assert listeners[..i + 1][..i] == listeners[..i];
        var o := CallListener(listeners[i], now);
        match o {
          case Returned =>
          case Raised =>  // must not keep the others from being called
        }
      }
      assert listeners[..|listeners|] == listeners;
    }

    /** What follows once `/auth/refresh` has been answered. */
    method FinishRefresh(reply: Reply, now: int) returns (r: Refresh)
      modifies this
      ensures AsState() == Settle(old(AsState()), reply, now, browser) && r == Result(reply)
      ensures r == if Rejects(reply) then Unauthorized else if Grants(reply) then Succeeded else Transient
      ensures Rejects(reply) ==> accessToken == None && proactiveRefreshTimer == None && sessionExpiredNotified
      ensures called == old(called) + (if Rejects(reply) && !old(sessionExpiredNotified) then listeners else [])
    {
      if reply.Unreachable? {
        return Transient;
      }
      if !IsOk(reply.status) {
        if reply.status >= 500 || reply.status == 429 {
          return Transient;
        }
        SetAuthTokens(None, now);
        HearingChangesNothing(EmitExpired(AsState()), listeners);
        EmitSessionExpired(now);
        return Unauthorized;
      }
      if reply.body.Garbled? {
        return Transient;
      }
      if !Live(reply.body.tokens) {
        SetAuthTokens(None, now);
        HearingChangesNothing(EmitExpired(AsState()), listeners);
        EmitSessionExpired(now);
        return Unauthorized;
      }
      SetAuthTokens(reply.body.tokens, now);
      r := Succeeded;
    }
  }
}
