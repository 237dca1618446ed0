/**
 What becomes of every request, and what every refresh was sent for, over whole runs of `Session`
 (apps/web/src/lib/api.ts:366-414, 449-461, 524-555, 575-642). Nothing here bounds; each result says exactly when.
 */
module Lifecycle {
  import opened Options
  import opened Auth
  import opened Session

  /** At some point of the run, `p` is true of the world, of the event that comes next, and of request `i`. */
  predicate Ever(start: World, events: seq<Event>, i: nat, p: (World, Event, nat) -> bool) {
    && events != []
    && var front, last := events[..|events| - 1], events[|events| - 1];
       Ever(start, front, i, p) || (Run(start, front).Some? && p(Run(start, front).value, last, i))
  }

  /** The token a request would carry. */
  function Held(w: World): Option<Token> {
    if w.auth.token.Some? && w.auth.token.value.text != "" then w.auth.token else None
  }

  /** The refresh in flight, or else the next. */
  function RoundOf(w: World): nat {
    if w.inFlight.Some? then w.inFlight.value else w.rounds
  }

  /** A request that would go out without a token although a session exists waits for one first. */
  predicate StartsCold(w: World, t: Task) {
    t.place.Fresh? && !t.skipAuth && Held(w) == None && w.browser && w.cookie
  }

  predicate Settled(w: World, r: nat, result: Refresh) {
    r in w.results && w.results[r] == result
  }

  // What an event can mean for request `i`.

  /** Its first send goes out. */
  predicate Goes(w: World, e: Event, i: nat) {
    && i < |w.tasks|
    && var t := w.tasks[i];
       || (e == Begin(i) && t.place.Fresh? && !StartsCold(w, t))
       || (e == Continue(i) && t.place.AwaitingToken? && t.place.round in w.results)
  }

  /** Its first send is answered by a 401, and may be repeated. */
  predicate IsRefused(w: World, e: Event, i: nat) {
    && i < |w.tasks| && e == Response(i, true)
    && w.tasks[i].place.Sending? && !w.tasks[i].skipAuth && |w.tasks[i].sends| == 1
  }

  /** The refresh it awaits has brought a token, and it goes out again. */
  predicate IsRepeated(w: World, e: Event, i: nat) {
    && i < |w.tasks| && e == Continue(i)
    && w.tasks[i].place.Refreshing? && Settled(w, w.tasks[i].place.round, Succeeded)
  }

  /** It gives up: the refresh was rejected, or failed for the third time, or its caller aborts the backoff. */
  predicate GivesUp(w: World, e: Event, i: nat) {
    && i < |w.tasks|
    && var p := w.tasks[i].place;
       || (e == Continue(i) && p.Refreshing? && Settled(w, p.round, Unauthorized))
       || (e == Continue(i) && p.Refreshing? && Settled(w, p.round, Transient) && p.tries == 2)
       || (e == Wake(i, true) && p.BackingOff?)
  }

  /** It is answered for good: by anything but a 401, or without auth, or for the second time. */
  predicate IsAnswered(w: World, e: Event, i: nat) {
    && i < |w.tasks| && w.tasks[i].place.Sending?
    && (e == Response(i, false) || (e == Response(i, true) && (w.tasks[i].skipAuth || |w.tasks[i].sends| == 2)))
  }

  /** It calls for a refresh, and waits for the one in flight if there is one. */
  predicate Calls(w: World, e: Event, i: nat) {
    && i < |w.tasks|
    && (|| (e == Begin(i) && StartsCold(w, w.tasks[i]))
        || IsRefused(w, e, i)
        || (e == Wake(i, false) && w.tasks[i].place.BackingOff?))
  }

  /** The refresh it awaits has failed for the first or second time, and it pauses before it calls again. */
  predicate Pauses(w: World, e: Event, i: nat) {
    && i < |w.tasks| && e == Continue(i)
    && var p := w.tasks[i].place; p.Refreshing? && Settled(w, p.round, Transient) && p.tries != 2
  }

  /** What a request is at once the event is over. */
  function Next(w: World, e: Event, i: nat): Task
    requires i < |w.tasks|
  {
    var t := w.tasks[i];
    var bearer := if t.skipAuth then None else Held(w);
    if Goes(w, e, i) then
      Task(t.skipAuth, Sending(false), [Sent(bearer, if t.place.Fresh? then None else Some(t.place.round))])
    else if IsRepeated(w, e, i) then
      Task(t.skipAuth, Sending(true), t.sends + [Sent(bearer, Some(t.place.round))])
    else if Calls(w, e, i) && t.place.Fresh? then t.(place := AwaitingToken(RoundOf(w)))
    else if Calls(w, e, i) then
      t.(place := Refreshing(RoundOf(w), if t.place.BackingOff? then t.place.tries + 1 else 0))
    else if Pauses(w, e, i) then t.(place := BackingOff(t.place.tries))
    else if IsAnswered(w, e, i) || GivesUp(w, e, i) then t.(place := Finished)
    else t
  }

  lemma BeginMoves(w: World, i: nat)
    requires Sound(w) && i < |w.tasks| && w.tasks[i].place.Fresh?
    ensures BeginTask(w, i).tasks[i] == Next(w, Begin(i), i)
  {
    assert TaskSound(w.tasks[i], w.rounds, w.results);
  }

  lemma ContinueMoves(w: World, i: nat)
    requires Sound(w) && i < |w.tasks| && ContinueTask(w, i).Some?
    ensures ContinueTask(w, i).value.tasks[i] == Next(w, Continue(i), i)
  {
    assert TaskSound(w.tasks[i], w.rounds, w.results);
  }

  lemma ResponseMoves(w: World, i: nat, e: Event)
    requires Sound(w) && i < |w.tasks| && e.Response? && e.task == i && TaskStep(w, i, e).Some?
    ensures TaskStep(w, i, e).value.tasks[i] == Next(w, e, i)
  {
    assert TaskSound(w.tasks[i], w.rounds, w.results);
  }

  lemma WakeMoves(w: World, i: nat, e: Event)
    requires Sound(w) && i < |w.tasks| && e.Wake? && e.task == i && TaskStep(w, i, e).Some?
    ensures TaskStep(w, i, e).value.tasks[i] == Next(w, e, i)
  {
    assert TaskSound(w.tasks[i], w.rounds, w.results);
  }

  /** The request that an event is about, if it is about one. */
  function About(e: Event): Option<nat> {
    match e
    case Begin(i) => Some(i)
    case Continue(i) => Some(i)
    case Response(i, _) => Some(i)
    case Wake(i, _) => Some(i)
    case _ => None
  }

  lemma OthersStay(w: World, e: Event, i: nat)
    requires Step(w, e).Some? && About(e) != Some(i) && i < |w.tasks|
    ensures i < |Step(w, e).value.tasks| && Step(w, e).value.tasks[i] == w.tasks[i] && Next(w, e, i) == w.tasks[i]
  {
    if About(e).Some? {
      TaskStepFrame(w, About(e).value, e);
    }
  }

  lemma NewcomersAreFresh(w: World, e: Event, i: nat)
    requires Step(w, e).Some? && |w.tasks| <= i < |Step(w, e).value.tasks|
    ensures e.Arrive? && Step(w, e).value.tasks[i] == Task(e.skipAuth, Fresh, [])
  {
    if About(e).Some? {
      TaskStepFrame(w, About(e).value, e);
    }
  }

  /** Every request moves as these say, and only the one that the event is about. */
  lemma MovesExactly(w: World, e: Event, i: nat)
    requires Sound(w) && Step(w, e).Some? && i < |Step(w, e).value.tasks|
    ensures |w.tasks| <= |Step(w, e).value.tasks|
    ensures if i < |w.tasks| then Step(w, e).value.tasks[i] == Next(w, e, i)
            else e.Arrive? && Step(w, e).value.tasks[i] == Task(e.skipAuth, Fresh, [])
  {
    if About(e).Some? {
      TaskStepFrame(w, About(e).value, e);
    }
    if i >= |w.tasks| {
      NewcomersAreFresh(w, e, i);
    } else if About(e) != Some(i) {
      OthersStay(w, e, i);
    } else {
      match e
      case Begin(_) => BeginMoves(w, i);
      case Continue(_) => ContinueMoves(w, i);
      case Response(_, _) => ResponseMoves(w, i, e);
      case Wake(_, _) => WakeMoves(w, i, e);
    }
  }

  // ---------------------------------------------------------------------------------------------
  // Over whole runs
  // ---------------------------------------------------------------------------------------------

  /** What has ever happened to a request, and what its place and its sends then are. */
  predicate Story(t: Task, went: bool, refused: bool, repeated: bool, gaveUp: bool, answered: bool) {
    && |t.sends| == (if repeated then 2 else if went then 1 else 0)
    && (refused <==> t.place.Refreshing? || t.place.BackingOff? || repeated || gaveUp)
    && (t.place.Finished? <==> gaveUp || answered)
    && !(gaveUp && (repeated || answered))
    && (refused ==> went)
  }

  lemma StoryGoesOn(w: World, e: Event, i: nat, went: bool, refused: bool, repeated: bool, gaveUp: bool, answered: bool)
    requires i < |w.tasks| && TaskSound(w.tasks[i], w.rounds, w.results)
    requires Story(w.tasks[i], went, refused, repeated, gaveUp, answered)
    ensures Story(Next(w, e, i), went || Goes(w, e, i), refused || IsRefused(w, e, i),
                  repeated || IsRepeated(w, e, i), gaveUp || GivesUp(w, e, i), answered || IsAnswered(w, e, i))
  {
  }

  lemma {:induction false} NothingYet(start: World, events: seq<Event>, i: nat, p: (World, Event, nat) -> bool)
    requires Run(start, events).Some? && |Run(start, events).value.tasks| <= i
    requires forall w, e :: p(w, e, i) ==> i < |w.tasks|
    ensures !Ever(start, events, i, p)
  {
    if events != [] {
      var n := |events| - 1;
      var w := Run(start, events[..n]).value;
      if i < |w.tasks| {
        if About(events[n]).Some? {
          TaskStepFrame(w, About(events[n]).value, events[n]);
        }
        assert false;
      }
      NothingYet(start, events[..n], i, p);
    }
  }

  /**
   In every run: a request has been sent once if it ever went out, and twice if it was ever repeated after a
   refresh; one refused by a 401 is still waiting, or was repeated, or gave up; and it is over exactly if it
   gave up or was answered for good.
   */
  lemma {:induction false} LivesExactly(start: World, events: seq<Event>, i: nat)
    requires Initial(start) && Run(start, events).Some? && i < |Run(start, events).value.tasks|
    ensures Story(Run(start, events).value.tasks[i],
                  Ever(start, events, i, Goes), Ever(start, events, i, IsRefused), Ever(start, events, i, IsRepeated),
                  Ever(start, events, i, GivesUp), Ever(start, events, i, IsAnswered))
  {
    if events != [] {
      var n := |events| - 1;
      var w, e := Run(start, events[..n]).value, events[n];
      RunKeepsSound(start, events[..n]);
      MovesExactly(w, e, i);
      if i < |w.tasks| {
        LivesExactly(start, events[..n], i);
        StoryGoesOn(w, e, i,
          Ever(start, events[..n], i, Goes), Ever(start, events[..n], i, IsRefused),
          Ever(start, events[..n], i, IsRepeated), Ever(start, events[..n], i, GivesUp),
          Ever(start, events[..n], i, IsAnswered));
      } else {
        NothingYet(start, events[..n], i, Goes);
        NothingYet(start, events[..n], i, IsRefused);
        NothingYet(start, events[..n], i, IsRepeated);
        NothingYet(start, events[..n], i, GivesUp);
        NothingYet(start, events[..n], i, IsAnswered);
      }
    }
  }

  /** `s` is a send of the request, made just now: with the token held, after the refresh it waited for. */
  predicate Posts(w: World, e: Event, i: nat, s: Sent) {
    && (Goes(w, e, i) || IsRepeated(w, e, i))
    && s.bearer == (if w.tasks[i].skipAuth then None else Held(w))
    && match w.tasks[i].place
       case AwaitingToken(r) => s.after == Some(r)
       case Refreshing(r, _) => s.after == Some(r)
       case _ => s.after == None
  }

  /** In every run, every send carries the token that was held as it went out, and none goes out otherwise. */
  lemma {:induction false} SendsCarryTheToken(start: World, events: seq<Event>, i: nat, j: nat)
    requires Initial(start) && Run(start, events).Some? && i < |Run(start, events).value.tasks|
    requires j < |Run(start, events).value.tasks[i].sends|
    ensures var s := Run(start, events).value.tasks[i].sends[j];
            Ever(start, events, i, (w: World, e: Event, k: nat) => Posts(w, e, k, s))
  {
    var n := |events| - 1;
    var w := Run(start, events[..n]).value;
    RunKeepsSound(start, events[..n]);
    MovesExactly(w, events[n], i);
    if i < |w.tasks| {
      assert TaskSound(w.tasks[i], w.rounds, w.results);
      if j < |w.tasks[i].sends| {
        SendsCarryTheToken(start, events[..n], i, j);
      }
    }
  }

  /** The backoffs of request `i` that its caller has sat out. */
  function PausesOver(events: seq<Event>, i: nat): nat {
    if events == [] then 0 else
    PausesOver(events[..|events| - 1], i) + if events[|events| - 1] == Wake(i, false) then 1 else 0
  }

  /** A request that has sat out `n` backoffs. */
  predicate Counted(t: Task, n: nat) {
    && n <= 2
    && (t.place.Refreshing? || t.place.BackingOff? ==> t.place.tries == n)
    && (t.place.BackingOff? ==> n <= 1)
    && (t.place.Fresh? || t.place.AwaitingToken? || (t.place.Sending? && |t.sends| == 1) ==> n == 0)
  }

  lemma CountGoesOn(w: World, e: Event, i: nat, n: nat)
    requires i < |w.tasks| && TaskSound(w.tasks[i], w.rounds, w.results) && Counted(w.tasks[i], n)
    requires e == Wake(i, false) ==> w.tasks[i].place.BackingOff?
    ensures Counted(Next(w, e, i), n + if e == Wake(i, false) then 1 else 0)
  {
  }

  /** In every run, the tries a request counts are the backoffs it has sat out since its 401: two at most. */
  lemma {:induction false} TriesExactly(start: World, events: seq<Event>, i: nat)
    requires Initial(start) && Run(start, events).Some? && i < |Run(start, events).value.tasks|
    ensures Counted(Run(start, events).value.tasks[i], PausesOver(events, i))
  {
    if events != [] {
      var n := |events| - 1;
      var w, e := Run(start, events[..n]).value, events[n];
      RunKeepsSound(start, events[..n]);
      MovesExactly(w, e, i);
      if i < |w.tasks| {
        TriesExactly(start, events[..n], i);
        HappensExactly(w, e);
        CountGoesOn(w, e, i, PausesOver(events[..n], i));
      } else {
        NoPauseYet(start, events[..n], i);
      }
    }
  }

  lemma {:induction false} NoPauseYet(start: World, events: seq<Event>, i: nat)
    requires Run(start, events).Some? && |Run(start, events).value.tasks| <= i
    ensures PausesOver(events, i) == 0
  {
    if events != [] {
      var n := |events| - 1;
      var w := Run(start, events[..n]).value;
      if About(events[n]).Some? {
        TaskStepFrame(w, About(events[n]).value, events[n]);
      }
      NoPauseYet(start, events[..n], i);
    }
  }

  /** Whoever calls for a refresh: a request, a timeout that is due, the tab, or the application's start. */
  predicate RefreshIsCalledFor(w: World, e: Event) {
    match e
    case TimerFires(_) => true
    case TabResumes => w.browser && w.cookie && Held(w) == None
    case BootRefresh => true
    case _ => About(e).Some? && Calls(w, e, About(e).value)
  }

  /** From `w` to `w'`, a refresh was `called` for or not. If so, that which was in flight still is, or else
      a new one is sent. */
  predicate FlewAs(w: World, w': World, called: bool) {
    && w'.results == w.results
    && if called then
         && w'.inFlight == Some(RoundOf(w)) && w'.wire == {RoundOf(w)}
         && w'.rounds == if w.inFlight.Some? then w.rounds else w.rounds + 1
       else w'.inFlight == w.inFlight && w'.wire == w.wire && w'.rounds == w.rounds
  }

  /** Once a refresh is called for one is in flight, and only its answer takes it out of flight. */
  lemma FlightsExactly(w: World, e: Event)
    requires Sound(w) && Step(w, e).Some?
    ensures var w' := Step(w, e).value;
            if !e.SettleRound? then FlewAs(w, w', RefreshIsCalledFor(w, e))
            else
              && w.inFlight == Some(e.round) && w'.inFlight == None && w'.wire == {} && w'.rounds == w.rounds
              && w'.results == w.results[e.round :=
                   if Rejects(e.reply) then Unauthorized else if Grants(e.reply) then Succeeded else Transient]
  {
    match e
    case Begin(i) => TaskFlights(w, i, e);
    case Continue(i) => TaskFlights(w, i, e);
    case Response(i, _) => TaskFlights(w, i, e);
    case Wake(i, _) => TaskFlights(w, i, e);
    case SettleRound(_, reply) => SettlesExactly(w.auth, reply, w.now, w.browser);
    case _ => OtherFlights(w, e);
  }

  lemma TaskFlights(w: World, i: nat, e: Event)
    requires Sound(w) && i < |w.tasks| && TaskStep(w, i, e).Some? && About(e) == Some(i)
    ensures FlewAs(w, TaskStep(w, i, e).value, Calls(w, e, i))
  {
    assert TaskSound(w.tasks[i], w.rounds, w.results);
  }

  lemma OtherFlights(w: World, e: Event)
    requires Sound(w) && Step(w, e).Some? && About(e) == None && !e.SettleRound?
    ensures FlewAs(w, Step(w, e).value, RefreshIsCalledFor(w, e))
  {
  }

  /** The events of a run that called for a refresh while none was in flight. */
  function FirstCalls(start: World, events: seq<Event>): nat {
    if events == [] then 0 else
    var front, last := events[..|events| - 1], events[|events| - 1];
    FirstCalls(start, front) +
    match Run(start, front)
    case Some(w) => if RefreshIsCalledFor(w, last) && w.inFlight == None then 1 else 0
    case None => 0
  }

  /** In every run, refreshes are sent for these events and for no others. */
  lemma {:induction false} RefreshesExactly(start: World, events: seq<Event>)
    requires Initial(start) && Run(start, events).Some?
    ensures Run(start, events).value.rounds == FirstCalls(start, events)
  {
    if events != [] {
      var n := |events| - 1;
      RunKeepsSound(start, events[..n]);
      RefreshesExactly(start, events[..n]);
      FlightsExactly(Run(start, events[..n]).value, events[n]);
    }
  }

  /** What can happen next: whatever is under way can come to its end, and nothing else can. */
  predicate Possible(w: World, e: Event) {
    match e
    case Begin(i) => i < |w.tasks| && w.tasks[i].place.Fresh?
    case Continue(i) =>
      && i < |w.tasks|
      && (match w.tasks[i].place
          case AwaitingToken(r) => r in w.results
          case Refreshing(r, _) => r in w.results
          case _ => false)
    case Response(i, _) => i < |w.tasks| && w.tasks[i].place.Sending?
    case Wake(i, _) => i < |w.tasks| && w.tasks[i].place.BackingOff?
    case SettleRound(r, _) => w.inFlight == Some(r)
    case TimerFires(h) => h in w.auth.timers && w.auth.handle == Some(h) && w.auth.timers[h].due <= w.now
    case _ => true
  }

  lemma HappensExactly(w: World, e: Event)
    requires Sound(w)
    ensures Step(w, e).Some? <==> Possible(w, e)
  {
    assert w.auth.handle.Some? ==> w.auth.handle.value in w.auth.timers.Keys;
    assert forall h :: h in w.auth.timers ==> h in w.auth.timers.Keys;
  }

  /** The session as it is after an event; the log and the notice are about it too. */
  lemma SessionChangesExactly(w: World, e: Event)
    requires Sound(w) && Step(w, e).Some?
    ensures var a, a' := w.auth, Step(w, e).value.auth;
            match e
            case SettleRound(_, reply) =>
              && (Rejects(reply) ==>
                    && a'.token == None && Unarmed(a') && a'.notified
                    && a'.log == a.log + if a.notified then [] else [Expired])
              && (Grants(reply) ==>
                    && a'.token == reply.body.tokens && !a'.notified && a'.log == a.log + [Stored]
                    && if w.browser && a'.token.value.expMs.Some? then ArmedFor(a', a'.token.value, w.now)
                       else Unarmed(a'))
              && (!Rejects(reply) && !Grants(reply) ==> a' == a)
            case StoreTokens(t) =>
              && a'.token == t
              && (if t.Some? && t.value.text != "" then !a'.notified && a'.log == a.log + [Stored]
                  else a'.notified == a.notified && a'.log == a.log)
              && (if t.Some? && t.value.text != "" && w.browser && t.value.expMs.Some? then ArmedFor(a', t.value, w.now)
                  else Unarmed(a'))
            case TimerFires(_) => a'.token == a.token && a'.notified == a.notified && a'.log == a.log && Unarmed(a')
            case _ => a' == a
  {
    match e
    case SettleRound(_, reply) => SettlesExactly(w.auth, reply, w.now, w.browser);
    case StoreTokens(t) => TokensExactly(w.auth, t, w.now, w.browser);
    case TimerFires(h) => assert Step(w, e).value.auth.timers.Keys == {};
    case Begin(i) => TaskStepFrame(w, i, e);
    case Continue(i) => TaskStepFrame(w, i, e);
    case Response(i, _) => TaskStepFrame(w, i, e);
    case Wake(i, _) => TaskStepFrame(w, i, e);
    case _ =>
  }

  /** The token that the events of a run leave: the last one stored or brought, unless it was taken since. */
  function TokenAfter(events: seq<Event>): Option<Token> {
    if events == [] then None else
    var before := TokenAfter(events[..|events| - 1]);
    match events[|events| - 1]
    case StoreTokens(t) => t
    case SettleRound(_, reply) => if Rejects(reply) then None else if Grants(reply) then reply.body.tokens else before
    case _ => before
  }

  /** In every run it is the token held. */
  lemma {:induction false} TokenExactly(start: World, events: seq<Event>)
    requires Initial(start) && Run(start, events).Some?
    ensures Run(start, events).value.auth.token == TokenAfter(events)
  {
    if events != [] {
      var n := |events| - 1;
      RunKeepsSound(start, events[..n]);
      TokenExactly(start, events[..n]);
      SessionChangesExactly(Run(start, events[..n]).value, events[n]);
    }
  }

  /** In every run, once a refresh has been rejected no token is held, no timeout is pending, the notice has
      been given, and whoever awaits that refresh will be told so. */
  lemma RejectionEndsSession(start: World, events: seq<Event>, r: nat, reply: Reply)
    requires Initial(start) && Rejects(reply) && Run(start, events + [SettleRound(r, reply)]).Some?
    ensures var w' := Run(start, events + [SettleRound(r, reply)]).value;
            && w'.auth.token == None && w'.auth.timers == map[] && w'.auth.handle == None
            && w'.auth.log != [] && NoticeStands(w'.auth.log)
            && r in w'.results && w'.results[r] == Unauthorized
  {
    var all := events + [SettleRound(r, reply)];
    assert all[..|all| - 1] == events;
    RunKeepsSound(start, events);
    RunKeepsSound(start, all);
    SessionChangesExactly(Run(start, events).value, SettleRound(r, reply));
    FlightsExactly(Run(start, events).value, SettleRound(r, reply));
  }

  /** The rest of the world: the clock, the cookie, and where the code runs. */
  lemma SurroundingsExactly(w: World, e: Event)
    requires Step(w, e).Some?
    ensures var w' := Step(w, e).value;
            && w'.now == (if e.Tick? then w.now + e.ms else w.now) && w'.browser == w.browser
            && w'.cookie == (if e.CookieBecomes? then e.present else w.cookie)
            && |w'.tasks| == |w.tasks| + if e.Arrive? then 1 else 0
  {
    if About(e).Some? {
      TaskStepFrame(w, About(e).value, e);
    }
  }
}
