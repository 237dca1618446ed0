/**
 Two managers renegotiating with every call interleaved at its awaits
 (apps/web/src/lib/webrtc.ts:358-420, driven as apps/web/src/features/roulette/use-roulette.ts:534-571
 and 787-828 do).

 A call of a manager reads the signaling state at once, but what it asks of the browser is queued: a
 connection carries out one operation at a time, in order, and the signaling state changes only as each
 one settles. The policy says what the surroundings of a manager permit, because the manager checks none
 of it, and what the browser can do.
 */
module Interleaving {
  import opened Options
  import opened Signaling
  import opened Exchange

  datatype Op =
    | MakeOffer            // createOffer
    | PutOffer(id: nat)    // setLocalDescription of that offer
    | Undo(id: nat)        // rollback, to make room for this remote offer
    | TakeOffer(id: nat)   // setRemoteDescription of an offer
    | MakeAnswer           // createAnswer
    | PutAnswer(to: nat)   // setLocalDescription of that answer
    | TakeAnswer(to: nat)  // setRemoteDescription of an answer

  /** One end: the operations still to settle, and how many applied offers have yet to be answered. */
  datatype Station = Station(peer: Peer, ops: seq<Op>, owes: nat)

  datatype World = World(
    initiator: Station, answerer: Station,
    toInitiator: seq<Description>, toAnswerer: seq<Description>,
    next: nat, tally: set<Fate>)

  const START := World(
    Station(Peer(false, Stable, None), [], 0), Station(Peer(true, Stable, None), [], 0), [], [], 0, {})

  /**
   Sides that make an offer while one of their own is outstanding or in the making; that look at a remote
   offer while their own is being set; that look at one while an answer is being applied. Each side has a
   browser of its own.
   */
  datatype Policy = Policy(
    reoffers: set<Side>, overlaps: set<Side>, rushes: set<Side>,
    initiator: Browser, answerer: Browser)

  function BrowserOf(pol: Policy, w: Side): Browser {
    if w.Initiator? then pol.initiator else pol.answerer
  }

  datatype Event =
    | StartOffer(who: Side)  // createOffer is called
    | Deliver(to: Side)      // the oldest message to this side reaches setRemoteDescription
    | Reply(who: Side)       // the handler of an applied offer goes on to createAnswer
    | Resolve(who: Side)     // the oldest operation of this side's browser settles
    | HangUp(who: Side)

  function At(s: World, w: Side): Station {
    if w.Initiator? then s.initiator else s.answerer
  }

  function Inbox(s: World, w: Side): seq<Description> {
    if w.Initiator? then s.toInitiator else s.toAnswerer
  }

  function With(s: World, w: Side, st: Station): World {
    if w.Initiator? then s.(initiator := st) else s.(answerer := st)
  }

  function Dequeue(s: World, w: Side): World
    requires Inbox(s, w) != []
  {
    if w.Initiator? then s.(toInitiator := s.toInitiator[1..]) else s.(toAnswerer := s.toAnswerer[1..])
  }

  function Emit(s: World, w: Side, sent: seq<Description>): World {
    if w.Initiator? then s.(toAnswerer := s.toAnswerer + sent) else s.(toInitiator := s.toInitiator + sent)
  }

  predicate Making(ops: seq<Op>) {
    exists op :: op in ops && (op.MakeOffer? || op.PutOffer?)
  }

  predicate Putting(ops: seq<Op>) {
    exists op :: op in ops && op.PutOffer?
  }

  predicate TakingAnswer(ops: seq<Op>) {
    exists op :: op in ops && op.TakeAnswer?
  }

  function Begin(pol: Policy, s: World, w: Side): Option<World> {
    var st := At(s, w);
    if st.peer.signal.Closed? then None
    else if w !in pol.reoffers && (st.peer.signal.HaveLocalOffer? || Making(st.ops)) then None
    else Some(With(s, w, st.(ops := st.ops + [MakeOffer])))
  }

  /** The part of `setRemoteDescription` before its first await. */
  function Judge(p: Peer, d: Description): Option<Op> {
    match d
    case Answer(to) => if p.signal.HaveLocalOffer? then Some(TakeAnswer(to)) else None
    case Offer(id) =>
      if !p.signal.HaveLocalOffer? then Some(TakeOffer(id)) else if p.polite then Some(Undo(id)) else None
  }

  function Receive(pol: Policy, s: World, w: Side): Option<World> {
    var st := At(s, w);
    if Inbox(s, w) == [] then None else
    var d, rest := Inbox(s, w)[0], Dequeue(s, w);
    if st.peer.signal.Closed? then Some(rest)
    else if d.Offer? && Putting(st.ops) && w !in pol.overlaps then None
    else if d.Offer? && TakingAnswer(st.ops) && w !in pol.rushes then None
    else match Judge(st.peer, d)
         case Some(op) => Some(With(rest, w, st.(ops := st.ops + [op])))
         case None => Some(if d.Offer? then rest.(tally := s.tally + {Ignored(d.id)}) else rest)
  }

  /** What an operation does as it settles, or fails to. */
  function Perform(b: Browser, me: Peer, op: Op): Effect {
    match op
    case PutOffer(id) =>
      (match SetLocal(me, LocalOffer(id), b)
       case Some(me') => Effect(me', [Offer(id)], {})
       case None => Effect(me, [], {Abandoned(id)}))
    case Undo(_) =>
      (match SetLocal(me, Rollback, b)
       case Some(me') => Effect(me', [], {RolledBack(me.signal.offer)})
       case None => Effect(me, [], {}))
    case TakeOffer(id) =>
      (match SetRemote(me, Offer(id), b)
       case Some(me') =>
         Effect(me', [], if me.signal.HaveLocalOffer? then {RolledBack(me.signal.offer)} else {})
       case None => Effect(me, [], {Ignored(id)}))
    case PutAnswer(o) =>
      (match SetLocal(me, LocalAnswer(o), b)
       case Some(me') => Effect(me', [Answer(o)], {})
       case None => Effect(me, [], {}))
    case TakeAnswer(to) =>
      (match SetRemote(me, Answer(to), b)
       case Some(me') => Effect(me', [], {Completed(me.signal.offer)})
       case None => Effect(me, [], {}))
    case _ => Effect(me, [], {})
  }

  /** What the manager asks for next, once `op` has settled. */
  function Onward(b: Browser, me: Peer, op: Op, next: nat): seq<Op> {
    match op
    case MakeOffer => if SetLocal(me, LocalOffer(next), b).Some? then [PutOffer(next)] else []
    case Undo(id) => [TakeOffer(id)]
    case MakeAnswer => if me.signal.HaveRemoteOffer? then [PutAnswer(me.signal.offer)] else []
    case _ => []
  }

  function Progress(b: Browser, st: Station, next: nat): Station
    requires st.ops != []
  {
    var op := st.ops[0];
    Station(Perform(b, st.peer, op).peer,
            st.ops[1..] + Onward(b, st.peer, op, next),
            if op.TakeOffer? && SetRemote(st.peer, Offer(op.id), b).Some? then st.owes + 1 else st.owes)
  }

  function Settle(pol: Policy, s: World, w: Side): Option<World> {
    var st := At(s, w);
    if st.ops == [] then None else
    var b := BrowserOf(pol, w);
    var e := Perform(b, st.peer, st.ops[0]);
    var made := if st.ops[0].MakeOffer? && Onward(b, st.peer, st.ops[0], s.next) != [] then 1 else 0;
    Some(Emit(With(s, w, Progress(b, st, s.next)), w, e.sent)
         .(next := s.next + made, tally := s.tally + e.fates))
  }

  function Step(pol: Policy, s: World, e: Event): Option<World> {
    match e
    case StartOffer(w) => Begin(pol, s, w)
    case Deliver(w) => Receive(pol, s, w)
    case Reply(w) =>
      var st := At(s, w);
      if st.owes == 0 then None else Some(With(s, w, st.(ops := st.ops + [MakeAnswer], owes := st.owes - 1)))
    case Resolve(w) => Settle(pol, s, w)
    case HangUp(w) => Some(With(s, w, Station(At(s, w).peer.(signal := Closed), [], 0)))
  }

  function StepFrom(pol: Policy, s: Option<World>, e: Event): Option<World> {
    match s
    case None => None
    case Some(s') => Step(pol, s', e)
  }

  /** Run `events` in order from `s`; `None` when one of them is not possible. */
  function Run(pol: Policy, s: World, events: seq<Event>): Option<World> {
    if events == [] then Some(s) else StepFrom(pol, Run(pol, s, events[..|events| - 1]), events[|events| - 1])
  }

  predicate Open(s: World) {
    !s.initiator.peer.signal.Closed? && !s.answerer.peer.signal.Closed?
  }

  /** Nothing in flight, nothing under way, no answer owed. */
  predicate Quiescent(s: World) {
    && s.toInitiator == [] && s.toAnswerer == []
    && s.initiator.ops == [] && s.answerer.ops == []
    && s.initiator.owes == 0 && s.answerer.owes == 0
  }

  predicate BothStable(s: World) {
    s.initiator.peer.signal.Stable? && s.answerer.peer.signal.Stable?
  }

  /** Both ends are stable and hold the same offer with an answer made for it. */
  predicate Agreed(s: World) {
    BothStable(s) && s.initiator.peer.session == s.answerer.peer.session && Matched(s.initiator.peer.session)
  }

  lemma WasOpen(pol: Policy, s: World, e: Event)
    requires Step(pol, s, e).Some? && Open(Step(pol, s, e).value)
    ensures Open(s) && !e.HangUp?
  {
  }
}
