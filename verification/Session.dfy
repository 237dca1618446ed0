/**
 Any number of requests at once, interleaved wherever the client awaits
 (apps/web/src/lib/api.ts:366-414, 423-425, 449-461, 524-548, 566-642). One event runs one stretch of code between
 two awaits. A refresh that `fetch` throws on synchronously is assumed not to happen.
 */
module Session {
  import opened Options
  import opened Auth

  datatype Place =
    | Fresh
    | AwaitingToken(round: nat)                 // the cold-start refresh before the first send
    | Sending(again: bool)
    | Refreshing(round: nat, tries: nat)        // after a 401
    | BackingOff(tries: nat)
    | Finished

  /** One request sent: the token it carried, and the refresh that was awaited just before. */
  datatype Sent = Sent(bearer: Option<Token>, after: Option<nat>)

  datatype Task = Task(skipAuth: bool, place: Place, sends: seq<Sent>)

  datatype World = World(
    auth: State,
    inFlight: Option<nat>,        // refreshInFlight, as the number of its round
    wire: set<nat>,               // rounds whose request is really outstanding
    results: map<nat, Refresh>,   // settled rounds
    rounds: nat,                  // requests to /auth/refresh sent so far
    tasks: seq<Task>,
    cookie: bool,
    browser: bool,
    now: int)

  datatype Event =
    | Arrive(skipAuth: bool)
    | Begin(task: nat)                        // up to the send, or to the cold-start await
    | Continue(task: nat)                     // after an awaited refresh
    | Response(task: nat, unauthorized: bool) // the request is answered, by a 401 or otherwise
    | Wake(task: nat, aborted: bool)          // after a backoff
    | SettleRound(round: nat, reply: Reply)
    | TimerFires(handle: nat)
    | TabResumes
    | BootRefresh                             // refreshAccessToken, on app load
    | StoreTokens(tokens: Option<Token>)      // login, logout
    | CookieBecomes(present: bool)
    | Tick(ms: nat)

  const MAX_REFRESH_RETRIES := 2

  function Bearer(w: World): Option<Token> {
    if Live(w.auth.token) then w.auth.token else None
  }

  /** `tryRefresh` up to its await: the round joined, which is new only if none is in flight. */
  function Join(w: World): (World, nat) {
    match w.inFlight
    case Some(r) => (w, r)
    case None =>
      (w.(inFlight := Some(w.rounds), wire := w.wire + {w.rounds}, rounds := w.rounds + 1), w.rounds)
  }

  function Put(w: World, i: nat, t: Task): World
    requires i < |w.tasks|
  {
    w.(tasks := w.tasks[i := t])
  }

  function SendNow(w: World, i: nat, after: Option<nat>, again: bool): World
    requires i < |w.tasks|
  {
    var t := w.tasks[i];
    var bearer := if t.skipAuth then None else Bearer(w);
    Put(w, i, t.(place := Sending(again), sends := t.sends + [Sent(bearer, after)]))
  }

  function BeginTask(w: World, i: nat): World
    requires i < |w.tasks|
  {
    if !w.tasks[i].skipAuth && Bearer(w).None? && w.browser && w.cookie then
      var (w', r) := Join(w);
      Put(w', i, w.tasks[i].(place := AwaitingToken(r)))
    else
      SendNow(w, i, None, false)
  }

  function ContinueTask(w: World, i: nat): Option<World>
    requires i < |w.tasks|
  {
    var t := w.tasks[i];
    match t.place
    case AwaitingToken(r) => if r in w.results then Some(SendNow(w, i, Some(r), false)) else None
    case Refreshing(r, tries) =>
      if r !in w.results then None
      else Some(match w.results[r]
                case Succeeded => SendNow(w, i, Some(r), true)
                case Transient => if tries < MAX_REFRESH_RETRIES then Put(w, i, t.(place := BackingOff(tries)))
                                  else Put(w, i, t.(place := Finished))
                case Unauthorized => Put(w, i, t.(place := Finished)))
    case _ => None
  }

  function TaskStep(w: World, i: nat, e: Event): Option<World>
    requires i < |w.tasks|
  {
    var t := w.tasks[i];
    match e
    case Begin(_) => if t.place.Fresh? then Some(BeginTask(w, i)) else None
    case Continue(_) => ContinueTask(w, i)
    case Response(_, unauthorized) =>
      if !t.place.Sending? then None
      else if unauthorized && !t.skipAuth && !t.place.again then
        var (w', r) := Join(w);
        Some(Put(w', i, t.(place := Refreshing(r, 0))))
      else
        Some(Put(w, i, t.(place := Finished)))
    case Wake(_, aborted) =>
      if !t.place.BackingOff? then None
      else if aborted then Some(Put(w, i, t.(place := Finished)))
      else
        var (w', r) := Join(w);
        Some(Put(w', i, t.(place := Refreshing(r, t.place.tries + 1))))
    case _ => None
  }

  function Step(w: World, e: Event): Option<World> {
    match e
    case Arrive(skipAuth) => Some(w.(tasks := w.tasks + [Task(skipAuth, Fresh, [])]))
    case Begin(i) => if i < |w.tasks| then TaskStep(w, i, e) else None
    case Continue(i) => if i < |w.tasks| then TaskStep(w, i, e) else None
    case Response(i, _) => if i < |w.tasks| then TaskStep(w, i, e) else None
    case Wake(i, _) => if i < |w.tasks| then TaskStep(w, i, e) else None
    case SettleRound(r, reply) =>
      if r !in w.wire then None
      else Some(w.(auth := Settle(w.auth, reply, w.now, w.browser),
                   inFlight := None, wire := w.wire - {r}, results := w.results[r := Result(reply)]))
    case TimerFires(h) =>
      if h !in w.auth.timers || w.now < w.auth.timers[h].due then None
      else Some(Join(w.(auth := w.auth.(timers := w.auth.timers - {h}, handle := None))).0)
    case TabResumes => Some(if w.browser && w.cookie && !Live(w.auth.token) then Join(w).0 else w)
    case BootRefresh => Some(Join(w).0)
    case StoreTokens(t) => Some(w.(auth := SetTokens(w.auth, t, w.now, w.browser)))
    case CookieBecomes(present) => Some(w.(cookie := present))
    case Tick(ms) => Some(w.(now := w.now + ms))
  }

  function Run(w: World, events: seq<Event>): Option<World> {
    if events == [] then Some(w) else
    match Run(w, events[..|events| - 1])
    case None => None
    case Some(w') => Step(w', events[|events| - 1])
  }

  predicate Initial(w: World) {
    w == World(LOGGED_OUT, None, {}, map[], 0, [], w.cookie, w.browser, w.now)
  }

  // ---------------------------------------------------------------------------------------------
  // One refresh at a time, one result a round
  // ---------------------------------------------------------------------------------------------

  /** The variable and the network agree, and every round sent is either settled or the one in flight. */
  predicate SingleFlight(w: World) {
    && w.wire == (if w.inFlight.Some? then {w.inFlight.value} else {})
    && (w.inFlight.Some? ==> w.inFlight.value < w.rounds && w.inFlight.value !in w.results)
    && (forall r :: r in w.results ==> r < w.rounds)
    && (forall r: nat :: r < w.rounds ==> r in w.results || w.inFlight == Some(r))
  }

  predicate TaskSound(t: Task, rounds: nat, results: map<nat, Refresh>) {
    && (t.skipAuth ==> forall s :: s in t.sends ==> s == Sent(None, None))
    && (forall s :: s in t.sends && s.after.Some? ==> s.after.value in results)
    && (|t.sends| == 2 ==> t.sends[1].after.Some? && results[t.sends[1].after.value] == Succeeded)
    && match t.place
       case Fresh => t.sends == []
       case AwaitingToken(r) => t.sends == [] && r < rounds && !t.skipAuth
       case Sending(again) => |t.sends| == (if again then 2 else 1)
       case Refreshing(r, tries) => |t.sends| == 1 && r < rounds && tries <= MAX_REFRESH_RETRIES && !t.skipAuth
       case BackingOff(tries) => |t.sends| == 1 && tries < MAX_REFRESH_RETRIES && !t.skipAuth
       case Finished => 1 <= |t.sends| <= 2
  }

  predicate Sound(w: World) {
    && SingleFlight(w)
    && TimerSound(w.auth) && LatchSound(w.auth)
    && forall i :: 0 <= i < |w.tasks| ==> TaskSound(w.tasks[i], w.rounds, w.results)
  }

  lemma JoinKeepsSound(w: World)
    requires Sound(w)
    ensures var (w', r) := Join(w);
            && Sound(w') && w'.inFlight == Some(r) && r < w'.rounds
            && w' == w.(inFlight := Some(r), wire := w'.wire, rounds := w'.rounds)
  {
    var (w', r) := Join(w);
    forall i | 0 <= i < |w.tasks| ensures TaskSound(w.tasks[i], w'.rounds, w'.results) {}
  }

  lemma PutKeepsSound(w: World, i: nat, t: Task)
    requires Sound(w) && i < |w.tasks| && TaskSound(t, w.rounds, w.results)
    ensures Sound(Put(w, i, t))
  {
  }

  lemma SendKeepsSound(w: World, i: nat, after: Option<nat>, again: bool)
    requires Sound(w) && i < |w.tasks| && |w.tasks[i].sends| == (if again then 1 else 0)
    requires w.tasks[i].skipAuth ==> after == None
    requires after.Some? ==> after.value in w.results
    requires again ==> after.Some? && w.results[after.value] == Succeeded
    ensures Sound(SendNow(w, i, after, again))
  {
    assert TaskSound(w.tasks[i], w.rounds, w.results);
    PutKeepsSound(w, i, SendNow(w, i, after, again).tasks[i]);
  }

  lemma JoinAndPutKeepsSound(w: World, i: nat, t: Task)
    requires Sound(w) && i < |w.tasks| && TaskSound(t, Join(w).0.rounds, w.results)
    ensures Sound(Put(Join(w).0, i, t))
  {
    JoinKeepsSound(w);
    PutKeepsSound(Join(w).0, i, t);
  }

  lemma ContinueKeepsSound(w: World, i: nat)
    requires Sound(w) && i < |w.tasks| && ContinueTask(w, i).Some?
    ensures Sound(ContinueTask(w, i).value)
  {
    var t := w.tasks[i];
    assert TaskSound(t, w.rounds, w.results);
    if t.place.AwaitingToken? {
      SendKeepsSound(w, i, Some(t.place.round), false);
    } else if w.results[t.place.round].Succeeded? {
      SendKeepsSound(w, i, Some(t.place.round), true);
    } else {
      PutKeepsSound(w, i, ContinueTask(w, i).value.tasks[i]);
    }
  }

  lemma BeginKeepsSound(w: World, i: nat)
    requires Sound(w) && i < |w.tasks| && w.tasks[i].place.Fresh?
    ensures Sound(BeginTask(w, i))
  {
    var t' := BeginTask(w, i).tasks[i];
    assert TaskSound(w.tasks[i], w.rounds, w.results);
    if t'.place.AwaitingToken? {
      JoinAndPutKeepsSound(w, i, t');
    } else {
      SendKeepsSound(w, i, None, false);
    }
  }

  lemma ResponseKeepsSound(w: World, i: nat, e: Event)
    requires Sound(w) && i < |w.tasks| && e.Response? && TaskStep(w, i, e).Some?
    ensures Sound(TaskStep(w, i, e).value)
  {
    var t' := TaskStep(w, i, e).value.tasks[i];
    assert TaskSound(w.tasks[i], w.rounds, w.results);
    if t'.place.Refreshing? {
      JoinAndPutKeepsSound(w, i, t');
    } else {
      PutKeepsSound(w, i, t');
    }
  }

  lemma WakeKeepsSound(w: World, i: nat, e: Event)
    requires Sound(w) && i < |w.tasks| && e.Wake? && TaskStep(w, i, e).Some?
    ensures Sound(TaskStep(w, i, e).value)
  {
    var t' := TaskStep(w, i, e).value.tasks[i];
    assert TaskSound(w.tasks[i], w.rounds, w.results);
    if t'.place.Refreshing? {
      JoinAndPutKeepsSound(w, i, t');
    } else {
      PutKeepsSound(w, i, t');
    }
  }

  lemma TaskStepKeepsSound(w: World, i: nat, e: Event)
    requires Sound(w) && i < |w.tasks| && TaskStep(w, i, e).Some?
    ensures Sound(TaskStep(w, i, e).value)
  {
    match e
    case Begin(_) => BeginKeepsSound(w, i);
    case Continue(_) => ContinueKeepsSound(w, i);
    case Response(_, _) => ResponseKeepsSound(w, i, e);
    case Wake(_, _) => WakeKeepsSound(w, i, e);
  }

  lemma ResultKeepsTasks(w: World, r: nat, result: Refresh)
    requires Sound(w) && r !in w.results
    ensures forall i :: 0 <= i < |w.tasks| ==> TaskSound(w.tasks[i], w.rounds, w.results[r := result])
  {
  }

  lemma SettleRoundKeepsSound(w: World, r: nat, reply: Reply)
    requires Sound(w) && r in w.wire
    ensures Sound(Step(w, SettleRound(r, reply)).value)
  {
    SettleKeepsSound(w.auth, reply, w.now, w.browser);
    ResultKeepsTasks(w, r, Result(reply));
  }

  lemma StepKeepsSound(w: World, e: Event)
    requires Sound(w) && Step(w, e).Some?
    ensures Sound(Step(w, e).value)
  {
    match e
    case Begin(i) => TaskStepKeepsSound(w, i, e);
    case Continue(i) => TaskStepKeepsSound(w, i, e);
    case Response(i, _) => TaskStepKeepsSound(w, i, e);
    case Wake(i, _) => TaskStepKeepsSound(w, i, e);
    case SettleRound(r, reply) => SettleRoundKeepsSound(w, r, reply);
    case TimerFires(h) =>
      var w1 := w.(auth := w.auth.(timers := w.auth.timers - {h}, handle := None));
      assert w1.auth.timers.Keys == {};
      JoinKeepsSound(w1);
    case TabResumes => JoinKeepsSound(w);
    case BootRefresh => JoinKeepsSound(w);
    case StoreTokens(t) =>
      SetTokensKeepsTimer(w.auth, t, w.now, w.browser);
      SetTokensKeepsLatch(w.auth, t, w.now, w.browser);
    case _ =>
  }

  lemma {:induction false} RunKeepsSound(w: World, events: seq<Event>)
    requires Sound(w) && Run(w, events).Some?
    ensures Sound(Run(w, events).value)
  {
    if events != [] {
      RunKeepsSound(w, events[..|events| - 1]);
      StepKeepsSound(Run(w, events[..|events| - 1]).value, events[|events| - 1]);
    }
  }

  /** Over every interleaving of any number of requests, one refresh at most is on the wire, and those
      sent are those settled and that one. */
  lemma OneRefreshAtATime(w: World, events: seq<Event>)
    requires Initial(w) && Run(w, events).Some?
    ensures var w' := Run(w, events).value;
            && |w'.wire| <= 1 && w'.rounds == |w'.results| + |w'.wire|
            && |w'.auth.timers| <= 1
  {
    assert Sound(w);
    RunKeepsSound(w, events);
    var w' := Run(w, events).value;
    assert w'.results.Keys !! w'.wire;
    var sent := Below(w'.rounds);
    assert sent == w'.results.Keys + w'.wire;
    assert |w'.results| == |w'.results.Keys|;
    assert w'.auth.timers.Keys <= {if w'.auth.handle.Some? then w'.auth.handle.value else 0};
    if w'.auth.handle.Some? {
      assert w'.auth.timers.Keys == {w'.auth.handle.value};
    } else {
      assert w'.auth.timers.Keys == {};
    }
    assert |w'.auth.timers| == |w'.auth.timers.Keys|;
  }

  function Below(n: nat): (s: set<nat>)
    ensures |s| == n && forall i: nat :: i in s <==> i < n
  {
    if n == 0 then {} else Below(n - 1) + {n - 1}
  }

  lemma StepKeepsResults(w: World, e: Event, r: nat)
    requires SingleFlight(w) && Step(w, e).Some? && r in w.results
    ensures r in Step(w, e).value.results && Step(w, e).value.results[r] == w.results[r]
  {
  }

  /** The result of a round never changes, so all that joined it are told the same, whenever they resume. */
  lemma {:induction false} ResultsStand(w: World, events: seq<Event>, r: nat)
    requires Sound(w) && Run(w, events).Some? && r in w.results
    ensures r in Run(w, events).value.results && Run(w, events).value.results[r] == w.results[r]
  {
    if events != [] {
      var front := events[..|events| - 1];
      ResultsStand(w, front, r);
      RunKeepsSound(w, front);
      StepKeepsResults(Run(w, front).value, events[|events| - 1], r);
    }
  }

  /** The round a task waits for, if it waits for one. */
  function Awaits(t: Task): Option<nat> {
    match t.place
    case AwaitingToken(r) => Some(r)
    case Refreshing(r, _) => Some(r)
    case _ => None
  }

  /** From `w` to `w'`, task `i` began to wait for a round. */
  predicate BeganToWait(w: World, w': World, i: nat)
    requires i < |w'.tasks|
  {
    Awaits(w'.tasks[i]).Some? && (i < |w.tasks| ==> w'.tasks[i].place != w.tasks[i].place)
  }

  /** `w'` comes of `w` by joining the round in flight, or a new one. */
  predicate Joined(w: World, w': World, r: nat) {
    w'.inFlight == Some(r) && if w.inFlight.Some? then r == w.inFlight.value else r == w.rounds
  }

  lemma TaskJoins(w: World, i: nat, e: Event, j: nat)
    requires i < |w.tasks| && TaskStep(w, i, e).Some?
    requires j < |TaskStep(w, i, e).value.tasks| && BeganToWait(w, TaskStep(w, i, e).value, j)
    ensures Joined(w, TaskStep(w, i, e).value, Awaits(TaskStep(w, i, e).value.tasks[j]).value)
  {
  }

  lemma StepJoins(w: World, e: Event, i: nat)
    requires Step(w, e).Some? && i < |Step(w, e).value.tasks| && BeganToWait(w, Step(w, e).value, i)
    ensures Joined(w, Step(w, e).value, Awaits(Step(w, e).value.tasks[i]).value)
  {
    match e
    case Begin(k) => TaskJoins(w, k, e, i);
    case Continue(k) => TaskJoins(w, k, e, i);
    case Response(k, _) => TaskJoins(w, k, e, i);
    case Wake(k, _) => TaskJoins(w, k, e, i);
    case _ =>
  }

  /** A round that is in flight before and after a run was so all along, and no other was sent. */
  lemma {:induction false} FlightIsUnbroken(w: World, events: seq<Event>, r: nat)
    requires Sound(w) && w.inFlight == Some(r) && Run(w, events).Some?
    ensures Run(w, events).value.inFlight == Some(r) || r in Run(w, events).value.results
  {
    if events != [] {
      var n := |events| - 1;
      FlightIsUnbroken(w, events[..n], r);
      RunKeepsSound(w, events[..n]);
      var s := Run(w, events[..n]).value;
      if r in s.results {
        StepKeepsResults(s, events[n], r);
      } else {
        FlightStays(s, events[n], r);
      }
    }
  }

  lemma FlightStays(w: World, e: Event, r: nat)
    requires Sound(w) && w.inFlight == Some(r) && Step(w, e).Some?
    ensures Step(w, e).value.inFlight == Some(r) || r in Step(w, e).value.results
  {
  }

  /**
   Over whole runs: whoever begins to wait while a round is in flight waits for that one, and whoever begins
   to wait after one has settled waits for a later one.
   */
  lemma {:induction false} WaitersShareTheRound(w: World, events: seq<Event>, i: nat)
    requires Sound(w) && Run(w, events).Some? && i < |Run(w, events).value.tasks|
    requires BeganToWait(w, Run(w, events).value, i)
    ensures var w' := Run(w, events).value;
            var r := Awaits(w'.tasks[i]).value;
            && r !in w.results
            && (w.inFlight.Some? && w'.inFlight == w.inFlight ==> r == w.inFlight.value)
  {
    if events != [] {
      var n := |events| - 1;
      var s, w' := Run(w, events[..n]).value, Run(w, events).value;
      RunKeepsSound(w, events[..n]);
      if i < |s.tasks| && s.tasks[i].place == w'.tasks[i].place {
        WaitersShareTheRound(w, events[..n], i);
      } else {
        StepJoins(s, events[n], i);
        WaiterIsNew(w, events[..n], Awaits(w'.tasks[i]).value, events[n]);
      }
      if w.inFlight.Some? {
        FlightIsUnbroken(w, events[..n], w.inFlight.value);
        if w.inFlight.value in s.results {
          StepKeepsResults(s, events[n], w.inFlight.value);
          RunKeepsSound(w, events);
        }
      }
    }
  }

  lemma WaiterIsNew(w: World, events: seq<Event>, r: nat, e: Event)
    requires Sound(w) && Run(w, events).Some?
    requires var s := Run(w, events).value; if s.inFlight.Some? then r == s.inFlight.value else r == s.rounds
    ensures r !in w.results
  {
    RunKeepsSound(w, events);
    if r in w.results {
      ResultsStand(w, events, r);
    }
  }

  /** A rejected refresh, or a logout. */
  predicate EndsSession(e: Event) {
    || (e.SettleRound? && Rejects(e.reply))
    || (e.StoreTokens? && !Live(e.tokens))
  }

  /** Throttled, failing, unreachable or unreadable refreshes, timers and 401s notwithstanding, a held token
      is never lost in a run without a rejection or a logout. */
  lemma {:induction false} TokenIsKept(w: World, events: seq<Event>)
    requires Live(w.auth.token) && Run(w, events).Some? && forall e :: e in events ==> !EndsSession(e)
    ensures Live(Run(w, events).value.auth.token)
  {
    if events != [] {
      var n := |events| - 1;
      TokenIsKept(w, events[..n]);
      StepKeepsToken(Run(w, events[..n]).value, events[n]);
    }
  }

  lemma StepKeepsToken(w: World, e: Event)
    requires Live(w.auth.token) && Step(w, e).Some? && !EndsSession(e)
    ensures Live(Step(w, e).value.auth.token)
  {
  }

  /** However requests interleave, each is sent twice at most, and a second time only on the strength of a
      refresh it awaited itself, whose one result was success. */
  lemma RepeatsFollowSuccess(w: World, events: seq<Event>, i: nat)
    requires Initial(w) && Run(w, events).Some? && i < |Run(w, events).value.tasks|
    ensures var w' := Run(w, events).value;
            var sends := w'.tasks[i].sends;
            && |sends| <= 2
            && (|sends| == 2 ==> sends[1].after.Some? && sends[1].after.value in w'.results
                                 && w'.results[sends[1].after.value] == Succeeded)
  {
    RunKeepsSound(w, events);
    var w' := Run(w, events).value;
    assert TaskSound(w'.tasks[i], w'.rounds, w'.results);
    if |w'.tasks[i].sends| == 2 {
      assert w'.tasks[i].sends[1] in w'.tasks[i].sends;
    }
  }

  /** Over whole runs: a pending timer was armed by the token still held, for ten seconds hence or later,
      before the token expires if that leaves it more than ten seconds, and a minute before if it can. */
  lemma TimersOverRuns(w: World, events: seq<Event>, h: nat)
    requires Initial(w) && Run(w, events).Some? && h in Run(w, events).value.auth.timers
    ensures var a := Run(w, events).value.auth;
            var t := a.timers[h];
            && a.handle == Some(h) && a.token == Some(t.token) && Live(a.token) && t.token.expMs.Some?
            && t.due >= t.armedAt + 10_000
            && (t.due < t.token.expMs.value <==> t.token.expMs.value - t.armedAt > 10_000)
            && (t.due == t.token.expMs.value - 60_000 <==> t.token.expMs.value - t.armedAt >= 70_000)
  {
    RunKeepsSound(w, events);
    var a := Run(w, events).value.auth;
    assert h in a.timers.Keys;
    TimerIsOnTime(a.timers[h].token.expMs.value, a.timers[h].armedAt);
  }

  /** Notices over whole runs: one more than the tokens stored, at most, and a store between any two. */
  lemma NoticesOverRuns(w: World, events: seq<Event>)
    requires Initial(w) && Run(w, events).Some?
    ensures var log := Run(w, events).value.auth.log;
            Spaced(log) && Count(log, Expired) <= 1 + Count(log, Stored)
  {
    RunKeepsSound(w, events);
    NoticesBounded(Run(w, events).value.auth.log);
  }

  // ---------------------------------------------------------------------------------------------
  // The first wave of requests after a reload
  // ---------------------------------------------------------------------------------------------

  /** No token, no refresh under way, no request sent. */
  predicate ColdStart(w: World) {
    && Sound(w) && !Live(w.auth.token) && w.inFlight.None? && w.browser && w.cookie
    && forall i :: 0 <= i < |w.tasks| ==> w.tasks[i].place.Fresh?
  }

  /** Everything that may happen while the first sends go out, if the refresh succeeds: requests may keep
      arriving and may be answered, but not by a 401, and nobody stores or clears a token. */
  predicate FirstWave(e: Event) {
    match e
    case Arrive(_) => true
    case Begin(_) => true
    case Continue(_) => true
    case Response(_, unauthorized) => !unauthorized
    case SettleRound(_, reply) => Result(reply).Succeeded?
    case TabResumes => true
    case Tick(_) => true
    case _ => false
  }

  predicate WaveTask(t: Task, token: Option<Token>, round: nat) {
    && (t.sends != [] ==>
          && |t.sends| == 1
          && t.sends[0].bearer == (if t.skipAuth then None else token)
          && (!t.skipAuth ==> Live(token)))
    && !t.place.Refreshing? && !t.place.BackingOff?
    && (t.place.AwaitingToken? ==> t.place.round == round && t.sends == [])
    && (t.place.Fresh? ==> t.sends == [])
    && (t.place.Sending? ==> !t.place.again && |t.sends| == 1)
  }

  /** Before, during or after the wave's one refresh, which is number `round`. */
  predicate Wave(w: World, round: nat) {
    && SingleFlight(w) && w.browser && w.cookie
    && (forall i :: 0 <= i < |w.tasks| ==> WaveTask(w.tasks[i], w.auth.token, round))
    && (|| (!Live(w.auth.token) && w.inFlight == None && w.rounds == round)
        || (!Live(w.auth.token) && w.inFlight == Some(round) && w.rounds == round + 1)
        || (Live(w.auth.token) && w.inFlight == None && w.rounds == round + 1))
  }

  lemma PutKeepsWave(w: World, i: nat, t: Task, round: nat)
    requires Wave(w, round) && i < |w.tasks| && WaveTask(t, w.auth.token, round)
    ensures Wave(Put(w, i, t), round)
  {
  }

  lemma JoinKeepsWave(w: World, round: nat)
    requires Wave(w, round) && !Live(w.auth.token)
    ensures Wave(Join(w).0, round) && Join(w).1 == round && Join(w).0.tasks == w.tasks && Join(w).0.auth == w.auth
  {
  }

  lemma StepKeepsWave(w: World, e: Event, round: nat)
    requires Wave(w, round) && FirstWave(e) && Step(w, e).Some?
    ensures Wave(Step(w, e).value, round)
  {
    var w' := Step(w, e).value;
    match e
    case Begin(i) =>
      assert WaveTask(w.tasks[i], w.auth.token, round);
      if w'.tasks[i].place.AwaitingToken? {
        JoinKeepsWave(w, round);
        PutKeepsWave(Join(w).0, i, w'.tasks[i], round);
      } else {
        PutKeepsWave(w, i, w'.tasks[i], round);
      }
    case Continue(i) =>
      assert WaveTask(w.tasks[i], w.auth.token, round);
      assert w.inFlight == None && w.rounds == round + 1;
      PutKeepsWave(w, i, w'.tasks[i], round);
    case Response(i, _) =>
      assert WaveTask(w.tasks[i], w.auth.token, round);
      PutKeepsWave(w, i, w'.tasks[i], round);
    case SettleRound(r, reply) =>
      assert r == round;
      forall i | 0 <= i < |w.tasks| ensures WaveTask(w.tasks[i], w'.auth.token, round) {
        assert WaveTask(w.tasks[i], w.auth.token, round);
      }
    case TabResumes =>
      if !Live(w.auth.token) {
        JoinKeepsWave(w, round);
      }
    case _ =>
  }

  lemma {:induction false} RunKeepsWave(w: World, events: seq<Event>, round: nat)
    requires Wave(w, round) && Run(w, events).Some? && forall e :: e in events ==> FirstWave(e)
    ensures Wave(Run(w, events).value, round)
  {
    if events != [] {
      var front := events[..|events| - 1];
      RunKeepsWave(w, front, round);
      StepKeepsWave(Run(w, front).value, events[|events| - 1], round);
    }
  }

  /**
   However many requests start cold and in whatever order they run, they cause one refresh at most, and
   each that has been sent was sent once, with the token that refresh brought.
   */
  lemma ColdStartRefreshesOnce(w: World, events: seq<Event>)
    requires ColdStart(w) && Run(w, events).Some? && forall e :: e in events ==> FirstWave(e)
    ensures var w' := Run(w, events).value;
            && w'.rounds <= w.rounds + 1
            && forall i :: 0 <= i < |w'.tasks| && !w'.tasks[i].skipAuth && w'.tasks[i].sends != [] ==>
                 && |w'.tasks[i].sends| == 1 && w'.tasks[i].sends[0].bearer == w'.auth.token && Live(w'.auth.token)
  {
    forall i | 0 <= i < |w.tasks| ensures WaveTask(w.tasks[i], w.auth.token, w.rounds) {
      assert TaskSound(w.tasks[i], w.rounds, w.results);
    }
    RunKeepsWave(w, events, w.rounds);
    var w' := Run(w, events).value;
    forall i | 0 <= i < |w'.tasks| && !w'.tasks[i].skipAuth && w'.tasks[i].sends != []
      ensures |w'.tasks[i].sends| == 1 && w'.tasks[i].sends[0].bearer == w'.auth.token && Live(w'.auth.token)
    {
      assert WaveTask(w'.tasks[i], w'.auth.token, w.rounds);
    }
  }

  // ---------------------------------------------------------------------------------------------
  // The same wave, whatever else happens
  // ---------------------------------------------------------------------------------------------

  /**
   An event after which nobody is signed out: no rejection and no logout; the session cookie stays until a
   token is held; and round `first` brings a token.
   */
  predicate Undisturbing(w: World, e: Event, first: nat) {
    && !EndsSession(e)
    && (e.CookieBecomes? && !e.present ==> Live(w.auth.token))
    && (e.SettleRound? && e.round == first ==> Result(e.reply).Succeeded?)
  }

  predicate Undisturbed(w: World, events: seq<Event>, first: nat) {
    events != [] ==>
      && Undisturbed(w, events[..|events| - 1], first)
      && Run(w, events[..|events| - 1]).Some?
      && Undisturbing(Run(w, events[..|events| - 1]).value, events[|events| - 1], first)
  }

  /** It waits for no token but the first round's, and went out with a token if at all. */
  predicate Authenticated(t: Task, first: nat) {
    && (t.place.Fresh? || t.place.AwaitingToken? ==> t.sends == [])
    && (t.place.AwaitingToken? ==> t.place.round == first)
    && (!t.skipAuth && t.sends != [] ==> Live(t.sends[0].bearer))
  }

  predicate Warming(w: World, first: nat) {
    && Sound(w) && w.browser
    && (first in w.results ==> Live(w.auth.token))
    && (!Live(w.auth.token) ==>
          && w.cookie
          && ((w.inFlight == None && w.rounds == first) || (w.inFlight == Some(first) && w.rounds == first + 1)))
    && forall i :: 0 <= i < |w.tasks| ==> Authenticated(w.tasks[i], first)
  }

  /** A step of one request changes no other, and at most joins or starts a refresh. */
  lemma TaskStepFrame(w: World, i: nat, e: Event)
    requires i < |w.tasks| && TaskStep(w, i, e).Some?
    ensures var w' := TaskStep(w, i, e).value;
            && |w'.tasks| == |w.tasks|
            && (forall j :: 0 <= j < |w.tasks| && j != i ==> w'.tasks[j] == w.tasks[j])
            && w' == w.(tasks := w'.tasks, inFlight := w'.inFlight, wire := w'.wire, rounds := w'.rounds)
            && ((w'.inFlight == w.inFlight && w'.rounds == w.rounds)
                || (w.inFlight == None && w'.inFlight == Some(w.rounds) && w'.rounds == w.rounds + 1))
  {
  }

  lemma TaskStaysAuthenticated(w: World, i: nat, e: Event, first: nat)
    requires Warming(w, first) && i < |w.tasks| && TaskStep(w, i, e).Some?
    ensures |TaskStep(w, i, e).value.tasks| == |w.tasks|
    ensures Authenticated(TaskStep(w, i, e).value.tasks[i], first)
  {
    assert Authenticated(w.tasks[i], first) && TaskSound(w.tasks[i], w.rounds, w.results);
  }

  lemma TaskEventKeepsWarming(w: World, i: nat, e: Event, first: nat)
    requires Warming(w, first) && i < |w.tasks| && TaskStep(w, i, e).Some? && Sound(TaskStep(w, i, e).value)
    ensures Warming(TaskStep(w, i, e).value, first)
  {
    TaskStepFrame(w, i, e);
    TaskStaysAuthenticated(w, i, e, first);
  }

  lemma RefreshKeepsWarming(w: World, e: Event, first: nat)
    requires e.SettleRound? || e.TimerFires? || e.TabResumes? || e.BootRefresh?
    requires Warming(w, first) && Undisturbing(w, e, first) && Step(w, e).Some? && Sound(Step(w, e).value)
    ensures Warming(Step(w, e).value, first)
  {
    assert Step(w, e).value.tasks == w.tasks;
  }

  lemma StepKeepsWarming(w: World, e: Event, first: nat)
    requires Warming(w, first) && Undisturbing(w, e, first) && Step(w, e).Some?
    ensures Warming(Step(w, e).value, first)
  {
    StepKeepsSound(w, e);
    match e
    case Begin(i) => TaskEventKeepsWarming(w, i, e, first);
    case Continue(i) => TaskEventKeepsWarming(w, i, e, first);
    case Response(i, _) => TaskEventKeepsWarming(w, i, e, first);
    case Wake(i, _) => TaskEventKeepsWarming(w, i, e, first);
    case SettleRound(_, _) => RefreshKeepsWarming(w, e, first);
    case TimerFires(_) => RefreshKeepsWarming(w, e, first);
    case TabResumes => RefreshKeepsWarming(w, e, first);
    case BootRefresh => RefreshKeepsWarming(w, e, first);
    case _ =>
  }

  lemma {:induction false} RunKeepsWarming(w: World, events: seq<Event>, first: nat)
    requires Warming(w, first) && Run(w, events).Some? && Undisturbed(w, events, first)
    ensures Warming(Run(w, events).value, first)
  {
    if events != [] {
      var n := |events| - 1;
      RunKeepsWarming(w, events[..n], first);
      StepKeepsWarming(Run(w, events[..n]).value, events[n], first);
    }
  }

  /**
   However many requests start cold, and whatever else happens (401s and repeats, timers, further refreshes
   that fail, a login): as long as nobody is signed out and the first round brings a token, every cold start
   waits for that one round, and every first send carries a live token.
   */
  lemma ColdStartSendsAuthenticated(w: World, events: seq<Event>, i: nat)
    requires ColdStart(w) && Run(w, events).Some? && Undisturbed(w, events, w.rounds)
    requires i < |Run(w, events).value.tasks|
    ensures var t := Run(w, events).value.tasks[i];
            && (t.place.AwaitingToken? ==> t.place.round == w.rounds)
            && (!t.skipAuth && t.sends != [] ==> Live(t.sends[0].bearer))
  {
    forall j | 0 <= j < |w.tasks| ensures Authenticated(w.tasks[j], w.rounds) {
      assert TaskSound(w.tasks[j], w.rounds, w.results);
    }
    RunKeepsWarming(w, events, w.rounds);
    assert Authenticated(Run(w, events).value.tasks[i], w.rounds);
  }
}
