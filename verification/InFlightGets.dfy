/**
 The map that lets concurrent callers share one request (apps/web/src/lib/api.ts:677-706), over every
 interleaving of calls, of requests coming to an end, and of the clean-up that runs after each.
 */
module InFlightGets {
  import opened Options
  import opened Requests

  datatype Ask = Ask(url: string, options: RequestOptions, hasSignal: bool, hasBody: bool, noDedupe: bool)

  predicate Dedupable(a: Ask) {
    !a.noDedupe && !a.hasSignal && !a.hasBody && Idempotent(Verb(a.options))
  }

  datatype Key = Key(verb: string, url: string)

  function KeyOf(a: Ask): Key {
    Key(Verb(a.options), a.url)
  }

  datatype Stage =
    | Running
    | Ended(outcome: Outcome)    // requestWithRetry is through; its `finally` has yet to run
    | Settled(outcome: Outcome)  // the shared promise has settled

  datatype Promise = Promise(starter: Ask, stage: Stage)

  datatype Ticket = Ticket(ask: Ask, promise: nat)

  datatype Gets = Gets(inFlight: map<Key, nat>, promises: seq<Promise>, tickets: seq<Ticket>)

  const IDLE := Gets(map[], [], [])

  /** `End` is the moment a request comes to an end, on the network it met. */
  datatype Event = Call(ask: Ask) | End(promise: nat, net: Network) | CleanUp(promise: nat)

  function Enter(g: Gets, a: Ask): Gets {
    if Dedupable(a) && KeyOf(a) in g.inFlight then
      g.(tickets := g.tickets + [Ticket(a, g.inFlight[KeyOf(a)])])
    else
      var p := |g.promises|;
      g.(inFlight := if Dedupable(a) then g.inFlight[KeyOf(a) := p] else g.inFlight,
         promises := g.promises + [Promise(a, Running)],
         tickets := g.tickets + [Ticket(a, p)])
  }

  function Step(g: Gets, e: Event): Option<Gets> {
    match e
    case Call(a) => Some(Enter(g, a))
    case End(p, net) =>
      if p >= |g.promises| || !g.promises[p].stage.Running? then None
      else
        var outcome := Request(net, g.promises[p].starter.options, 0, NOTHING).0;
        var stage := if Dedupable(g.promises[p].starter) then Ended(outcome) else Settled(outcome);
        Some(g.(promises := g.promises[p := g.promises[p].(stage := stage)]))
    case CleanUp(p) =>
      if p >= |g.promises| || !g.promises[p].stage.Ended? then None
      else Some(g.(inFlight := g.inFlight - {KeyOf(g.promises[p].starter)},
                   promises := g.promises[p := g.promises[p].(stage := Settled(g.promises[p].stage.outcome))]))
  }

  function Run(g: Gets, events: seq<Event>): Option<Gets> {
    if events == [] then Some(g) else
    match Run(g, events[..|events| - 1])
    case None => None
    case Some(g') => Step(g', events[|events| - 1])
  }

  /** The map and the calls of `request`, as the client keeps them. */
  class GetModule {
    var inFlightGets: map<Key, nat>
    var promises: seq<Promise>
    ghost var tickets: seq<Ticket>

    constructor ()
      ensures AsGets() == IDLE
    {
      inFlightGets, promises, tickets := map[], [], [];
    }

    ghost function AsGets(): Gets
      reads this
    {
      Gets(inFlightGets, promises, tickets)
    }

    method RequestShared(a: Ask) returns (promise: nat)
      modifies this
      ensures AsGets() == Enter(old(AsGets()), a) && tickets == old(tickets) + [Ticket(a, promise)]
    {
      if !Dedupable(a) {
        promise := |promises|;
        promises := promises + [Promise(a, Running)];
        tickets := tickets + [Ticket(a, promise)];
        return;
      }
      var key := KeyOf(a);
      if key in inFlightGets {
        promise := inFlightGets[key];
        tickets := tickets + [Ticket(a, promise)];
        return;
      }
      promise := |promises|;
      promises := promises + [Promise(a, Running)];
      inFlightGets := inFlightGets[key := promise];
      tickets := tickets + [Ticket(a, promise)];
    }

    method Finally(promise: nat)
      requires promise < |promises| && promises[promise].stage.Ended?
      modifies this`inFlightGets, this`promises
      ensures Some(AsGets()) == Step(old(AsGets()), CleanUp(promise))
    {
      inFlightGets := inFlightGets - {KeyOf(promises[promise].starter)};
      promises := promises[promise := promises[promise].(stage := Settled(promises[promise].stage.outcome))];
    }
  }

  predicate Shared(p: Promise) {
    Dedupable(p.starter)
  }

  /** A key is in the map exactly while the request started under it is unsettled. */
  predicate MapSound(g: Gets) {
    && (forall k :: k in g.inFlight ==>
          && g.inFlight[k] < |g.promises|
          && var p := g.promises[g.inFlight[k]];
             Shared(p) && KeyOf(p.starter) == k && !p.stage.Settled?)
    && (forall i :: 0 <= i < |g.promises| && Shared(g.promises[i]) && !g.promises[i].stage.Settled? ==>
          KeyOf(g.promises[i].starter) in g.inFlight && g.inFlight[KeyOf(g.promises[i].starter)] == i)
    && (forall i :: 0 <= i < |g.promises| && !Shared(g.promises[i]) ==> !g.promises[i].stage.Ended?)
  }

  /** Whoever holds a promise asked for what it is for; an unshared promise has one holder. */
  predicate TicketsSound(g: Gets) {
    && (forall i :: 0 <= i < |g.tickets| ==>
          && g.tickets[i].promise < |g.promises|
          && var p := g.promises[g.tickets[i].promise];
             if Shared(p) then Dedupable(g.tickets[i].ask) && KeyOf(g.tickets[i].ask) == KeyOf(p.starter)
             else g.tickets[i].ask == p.starter)
    && (forall i, j :: 0 <= i < j < |g.tickets| && g.tickets[i].promise == g.tickets[j].promise ==>
          Shared(g.promises[g.tickets[i].promise]))
  }

  lemma StartKeepsMap(g: Gets, a: Ask)
    requires MapSound(g) && !(Dedupable(a) && KeyOf(a) in g.inFlight)
    ensures MapSound(Enter(g, a))
  {
    var g', p := Enter(g, a), |g.promises|;
    assert g'.promises[p] == Promise(a, Running) && g'.promises[..p] == g.promises;
  }

  lemma EnterKeepsMap(g: Gets, a: Ask)
    requires MapSound(g)
    ensures MapSound(Enter(g, a))
  {
    if Dedupable(a) && KeyOf(a) in g.inFlight {
      assert Enter(g, a).inFlight == g.inFlight && Enter(g, a).promises == g.promises;
    } else {
      StartKeepsMap(g, a);
    }
  }

  lemma EndKeepsMap(g: Gets, e: Event)
    requires MapSound(g) && e.End? && Step(g, e).Some?
    ensures MapSound(Step(g, e).value)
  {
  }

  lemma CleanUpKeepsMap(g: Gets, e: Event)
    requires MapSound(g) && e.CleanUp? && Step(g, e).Some?
    ensures MapSound(Step(g, e).value)
  {
    var k := KeyOf(g.promises[e.promise].starter);
    assert k in g.inFlight && g.inFlight[k] == e.promise;
  }

  lemma StepKeepsMap(g: Gets, e: Event)
    requires MapSound(g) && Step(g, e).Some?
    ensures MapSound(Step(g, e).value)
  {
    match e
    case Call(a) => EnterKeepsMap(g, a);
    case End(_, _) => EndKeepsMap(g, e);
    case CleanUp(_) => CleanUpKeepsMap(g, e);
  }

  lemma EnterKeepsTickets(g: Gets, a: Ask)
    requires MapSound(g) && TicketsSound(g)
    ensures TicketsSound(Enter(g, a))
  {
    if Dedupable(a) && KeyOf(a) in g.inFlight {
      assert Enter(g, a).promises == g.promises && Shared(g.promises[g.inFlight[KeyOf(a)]]);
    }
  }

  /** Only the stages of promises change. */
  lemma EndingKeepsTickets(g: Gets, e: Event)
    requires TicketsSound(g) && !e.Call? && Step(g, e).Some?
    ensures TicketsSound(Step(g, e).value)
  {
    var g' := Step(g, e).value;
    assert g'.tickets == g.tickets && |g'.promises| == |g.promises|;
    assert forall i :: 0 <= i < |g.promises| ==> g'.promises[i].starter == g.promises[i].starter;
  }

  lemma StepKeepsTickets(g: Gets, e: Event)
    requires MapSound(g) && TicketsSound(g) && Step(g, e).Some?
    ensures TicketsSound(Step(g, e).value)
  {
    match e
    case Call(a) => EnterKeepsTickets(g, a);
    case _ => EndingKeepsTickets(g, e);
  }

  lemma {:induction false} RunKeepsSound(events: seq<Event>)
    requires Run(IDLE, events).Some?
    ensures MapSound(Run(IDLE, events).value) && TicketsSound(Run(IDLE, events).value)
  {
    if events != [] {
      RunKeepsSound(events[..|events| - 1]);
      StepKeepsMap(Run(IDLE, events[..|events| - 1]).value, events[|events| - 1]);
      StepKeepsTickets(Run(IDLE, events[..|events| - 1]).value, events[|events| - 1]);
    }
  }

  /** It may be shared: a read, with no wish, signal or body to the contrary. */
  predicate Shareable(a: Ask) {
    && !a.noDedupe && !a.hasSignal && !a.hasBody
    && (Verb(a.options) == "GET" || Verb(a.options) == "HEAD" || Verb(a.options) == "OPTIONS")
  }

  predicate AskedAlike(a: Ask, b: Ask) {
    a.url == b.url && Verb(a.options) == Verb(b.options)
  }

  /** Over every interleaving, two unsettled shared requests never ask for the same. */
  lemma OneRequestPerKey(events: seq<Event>, i: nat, j: nat)
    requires Run(IDLE, events).Some?
    requires var g := Run(IDLE, events).value;
             && i < |g.promises| && j < |g.promises|
             && Shareable(g.promises[i].starter) && Shareable(g.promises[j].starter)
             && !g.promises[i].stage.Settled? && !g.promises[j].stage.Settled?
             && AskedAlike(g.promises[i].starter, g.promises[j].starter)
    ensures i == j
  {
    RunKeepsSound(events);
  }

  /** Over every interleaving, callers who hold one promise asked for the same and were all free to share. */
  lemma SharersAskedAlike(events: seq<Event>, i: nat, j: nat)
    requires Run(IDLE, events).Some? && i < j < |Run(IDLE, events).value.tickets|
    requires var tickets := Run(IDLE, events).value.tickets; tickets[i].promise == tickets[j].promise
    ensures var tickets := Run(IDLE, events).value.tickets;
            && Shareable(tickets[i].ask) && Shareable(tickets[j].ask)
            && AskedAlike(tickets[i].ask, tickets[j].ask)
  {
    RunKeepsSound(events);
  }

  /** There is an unsettled request that a caller of `a` can share. */
  predicate Joinable(g: Gets, a: Ask, p: nat) {
    && p < |g.promises| && !g.promises[p].stage.Settled?
    && Shareable(a) && Shareable(g.promises[p].starter) && AskedAlike(a, g.promises[p].starter)
  }

  /** After every run: a caller is given the promise of the request it can share, if there is one; otherwise
      one of its own, for a request that starts now. */
  lemma CallersShareExactly(events: seq<Event>, a: Ask, p: nat)
    requires Run(IDLE, events).Some?
    ensures Run(IDLE, events + [Call(a)]).Some?
    ensures var g, g' := Run(IDLE, events).value, Run(IDLE, events + [Call(a)]).value;
            && (Joinable(g, a, p) ==> g'.promises == g.promises && g'.tickets == g.tickets + [Ticket(a, p)])
            && ((forall q: nat :: !Joinable(g, a, q)) ==>
                  && g'.promises == g.promises + [Promise(a, Running)]
                  && g'.tickets == g.tickets + [Ticket(a, |g.promises|)])
  {
    RunKeepsSound(events);
    assert (events + [Call(a)])[..|events|] == events;
    var g := Run(IDLE, events).value;
    if Dedupable(a) && KeyOf(a) in g.inFlight {
      assert Joinable(g, a, g.inFlight[KeyOf(a)]);
    }
  }

  /** Clean-up deletes by key alone, and yet takes out its own entry and nothing else. */
  lemma CleanUpIsOwn(events: seq<Event>, p: nat)
    requires Run(IDLE, events).Some? && Step(Run(IDLE, events).value, CleanUp(p)).Some?
    ensures var g := Run(IDLE, events).value;
            var g' := Step(g, CleanUp(p)).value;
            && (forall k :: k in g.inFlight ==> (k !in g'.inFlight <==> g.inFlight[k] == p))
            && (forall k :: k in g'.inFlight ==> k in g.inFlight && g'.inFlight[k] == g.inFlight[k])
            && g.inFlight != g'.inFlight
  {
    RunKeepsSound(events);
    var g := Run(IDLE, events).value;
    assert KeyOf(g.promises[p].starter) in g.inFlight;
    assert KeyOf(g.promises[p].starter) !in Step(g, CleanUp(p)).value.inFlight;
  }

  /** The request is over, and this is what it came to. */
  predicate CameTo(p: Promise, outcome: Outcome) {
    !p.stage.Running? && p.stage.outcome == outcome
  }

  /** A promise keeps its starter, and its outcome once it has one. */
  lemma StepKeepsPromises(g: Gets, e: Event, pr: nat)
    requires pr < |g.promises| && Step(g, e).Some?
    ensures var g' := Step(g, e).value;
            && pr < |g'.promises| && g'.promises[pr].starter == g.promises[pr].starter
            && (!g.promises[pr].stage.Running? ==> CameTo(g'.promises[pr], g.promises[pr].stage.outcome))
  {
  }

  lemma {:induction false} OutcomesStand(events: seq<Event>, k: nat, pr: nat)
    requires Run(IDLE, events).Some? && k <= |events|
    ensures Run(IDLE, events[..k]).Some?
    ensures var g, g' := Run(IDLE, events[..k]).value, Run(IDLE, events).value;
            pr < |g.promises| ==>
              && pr < |g'.promises| && g'.promises[pr].starter == g.promises[pr].starter
              && (!g.promises[pr].stage.Running? ==> CameTo(g'.promises[pr], g.promises[pr].stage.outcome))
  {
    if k == |events| {
      assert events[..k] == events;
    } else {
      var front := events[..|events| - 1];
      OutcomesStand(front, k, pr);
      assert front[..k] == events[..k];
      if pr < |Run(IDLE, events[..k]).value.promises| {
        StepKeepsPromises(Run(IDLE, front).value, events[|events| - 1], pr);
      }
    }
  }

  /** What a request comes to is settled as it ends, for all who hold its promise then or later. */
  lemma EndDecides(events: seq<Event>, k: nat)
    requires Run(IDLE, events).Some? && k < |events| && events[k].End?
    ensures var g, e := Run(IDLE, events).value, events[k];
            && e.promise < |g.promises|
            && CameTo(g.promises[e.promise], Request(e.net, g.promises[e.promise].starter.options, 0, NOTHING).0)
  {
    OutcomesStand(events, k + 1, events[k].promise);
    assert events[..k + 1][..k] == events[..k];
    assert Run(IDLE, events[..k + 1]) == Step(Run(IDLE, events[..k]).value, events[k]);
  }

  /**
   Whoever holds a promise, whether it joined before or after the request ended, is told what its own
   request would have come to on the network that the shared one met, if the two agree in what the key
   leaves out; and only then is that so whatever the network.
   */
  lemma JoinersAreToldTheSame(events: seq<Event>, k: nat, i: nat)
    requires Run(IDLE, events).Some? && k < |events| && events[k].End?
    requires i < |Run(IDLE, events).value.tickets| && Run(IDLE, events).value.tickets[i].promise == events[k].promise
    ensures var g := Run(IDLE, events).value;
            && events[k].promise < |g.promises|
            && var mine, p := g.tickets[i].ask.options, g.promises[events[k].promise];
            && (Interchangeable(p.starter.options, mine) <==> SameTreatment(p.starter.options, mine))
            && (SameTreatment(p.starter.options, mine) ==> CameTo(p, Request(events[k].net, mine, 0, NOTHING).0))
  {
    RunKeepsSound(events);
    EndDecides(events, k);
    var g := Run(IDLE, events).value;
    var mine, p := g.tickets[i].ask.options, g.promises[events[k].promise];
    if Shared(p) {
      SharingIsFaithfulExactly(p.starter.options, mine);
    }
    if SameTreatment(p.starter.options, mine) {
      SameRequest(events[k].net, p.starter.options, mine, 0, NOTHING);
    }
  }
}
