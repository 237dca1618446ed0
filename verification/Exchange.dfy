/**
 Two managers renegotiating over two first-in first-out channels, as it would be if every call of a
 manager ran whole and offers started from `stable` only (apps/web/src/lib/webrtc.ts:358-420).
 `Glare` shows which interleaved calls come to no more than this.
 */
module Exchange {
  import opened Options
  import opened Signaling

  datatype Side = Initiator | Answerer

  /** What became of an offer: answered, taken by nobody, undone by its maker, or made too late to be set. */
  datatype Fate = Completed(id: nat) | Ignored(id: nat) | RolledBack(id: nat) | Abandoned(id: nat)

  /** Both ends, both channels, and the tally of the offers made so far (`0..next`). */
  datatype Call = Call(
    initiator: Peer, answerer: Peer,
    toInitiator: seq<Description>, toAnswerer: seq<Description>,
    next: nat, tally: set<Fate>)

  const FRESH := Call(Peer(false, Stable, None), Peer(true, Stable, None), [], [], 0, {})

  datatype Turn =
    | Offers(who: Side)    // an offer is made, set and sent
    | Fails(who: Side)     // an offer is made, but a remote one comes into force before it is set
    | Receives(who: Side)  // the oldest message to this side is dealt with
    | Answers(who: Side)   // the remote offer in force is answered

  function Other(w: Side): Side {
    if w.Initiator? then Answerer else Initiator
  }

  function PeerOf(c: Call, w: Side): Peer {
    if w.Initiator? then c.initiator else c.answerer
  }

  function InboxOf(c: Call, w: Side): seq<Description> {
    if w.Initiator? then c.toInitiator else c.toAnswerer
  }

  /** What one side does: to itself, to its outgoing channel, and to the tally. */
  datatype Effect = Effect(peer: Peer, sent: seq<Description>, fates: set<Fate>)

  function Apply(c: Call, w: Side, e: Effect): Call {
    match w
    case Initiator => c.(initiator := e.peer, toAnswerer := c.toAnswerer + e.sent, tally := c.tally + e.fates)
    case Answerer => c.(answerer := e.peer, toInitiator := c.toInitiator + e.sent, tally := c.tally + e.fates)
  }

  function Take(c: Call, w: Side): Call
    requires InboxOf(c, w) != []
  {
    if w.Initiator? then c.(toInitiator := c.toInitiator[1..]) else c.(toAnswerer := c.toAnswerer[1..])
  }

  /** A browser that undoes a local offer one way or another; which way makes no difference here. */
  const WILLING := Browser(true, true)

  function Receipt(me: Peer, d: Description): Effect {
    match SetRemoteDescription(me, d, WILLING, true)
    case Applied(me') =>
      Effect(me', [], if !me.signal.HaveLocalOffer? then {}
                      else if d.Answer? then {Completed(me.signal.offer)}
                      else {RolledBack(me.signal.offer)})
    case _ => Effect(me, [], if d.Offer? then {Ignored(d.id)} else {})
  }

  function TakeTurn(c: Call, t: Turn): Option<Call> {
    var me := PeerOf(c, t.who);
    match t
    case Offers(w) =>
      if !me.signal.Stable? then None
      else Some(Apply(c, w, Effect(me.(signal := HaveLocalOffer(c.next)), [Offer(c.next)], {})).(next := c.next + 1))
    case Fails(w) =>
      if !me.signal.HaveRemoteOffer? then None
      else Some(Apply(c, w, Effect(me, [], {Abandoned(c.next)})).(next := c.next + 1))
    case Receives(w) =>
      if InboxOf(c, w) == [] then None else Some(Apply(Take(c, w), w, Receipt(me, InboxOf(c, w)[0])))
    case Answers(w) =>
      match CreateAnswer(me, WILLING)
      case None => None
      case Some(me') => Some(Apply(c, w, Effect(me', [Answer(me.signal.offer)], {})))
  }

  /** Take `turns` in order from `c`; `None` when one of them is not possible. */
  function TakeTurns(c: Call, turns: seq<Turn>): Option<Call> {
    if turns == [] then Some(c) else
    match TakeTurns(c, turns[..|turns| - 1])
    case None => None
    case Some(c') => TakeTurn(c', turns[|turns| - 1])
  }

  predicate Matched(s: Option<Session>) {
    s.Some? ==> s.value.offer == s.value.answered
  }

  /** Every combination of states and channel contents that an exchange passes through. */
  predicate Shape(c: Call) {
    var up, down := c.toInitiator, c.toAnswerer;
    var mine, theirs := c.initiator.session, c.answerer.session;
    var same := mine == theirs && Matched(mine);
    && !c.initiator.polite && c.answerer.polite
    && match c.initiator.signal
       case Closed => false
       case Stable =>
         (match c.answerer.signal
          case Stable => up == [] && down == [] && same
          case HaveLocalOffer(q) =>
            || (up == [Offer(q)] && down == [] && same)
            || (up == [] && down == [Answer(q)] && mine == Some(Session(q, q)))
          case _ => false)
       case HaveRemoteOffer(q) =>
         c.answerer.signal == HaveLocalOffer(q) && up == [] && down == [] && same
       case HaveLocalOffer(o) =>
         (match c.answerer.signal
          case Stable =>
            || (up == [] && down == [Offer(o)] && same)
            || (theirs == Some(Session(o, o)) && down == [] && DoomedThen(up, [Answer(o)]))
          case HaveRemoteOffer(o') => o' == o && down == [] && same && DoomedThen(up, [])
          case HaveLocalOffer(q) =>
            || (up == [] && down == [Answer(q), Offer(o)] && mine == Some(Session(q, q)))
            || ((up == [Offer(q)] || up == []) && down == [Offer(o)] && same)
            || (theirs == Some(Session(o, o)) && down == [] && DoomedThen(up, [Answer(o), Offer(q)]))
          case Closed => false)
  }

  /** `tail`, possibly behind one offer its sender has already rolled back. */
  predicate DoomedThen(channel: seq<Description>, tail: seq<Description>) {
    channel == tail || (channel != [] && channel[0].Offer? && channel[1..] == tail)
  }

  lemma ReceiptKeepsShape(c: Call, w: Side)
    requires Shape(c) && TakeTurn(c, Receives(w)).Some?
    ensures Shape(TakeTurn(c, Receives(w)).value)
  {
  }

  lemma StepKeepsShape(c: Call, t: Turn)
    requires Shape(c) && TakeTurn(c, t).Some?
    ensures Shape(TakeTurn(c, t).value)
  {
    if t.Receives? {
      ReceiptKeepsShape(c, t.who);
    }
  }

  lemma {:induction false} RunKeepsShape(turns: seq<Turn>)
    requires TakeTurns(FRESH, turns).Some?
    ensures Shape(TakeTurns(FRESH, turns).value)
  {
    if turns != [] {
      RunKeepsShape(turns[..|turns| - 1]);
      StepKeepsShape(TakeTurns(FRESH, turns[..|turns| - 1]).value, turns[|turns| - 1]);
    }
  }

  // ---------------------------------------------------------------------------------------------
  // Accounting: what becomes of every offer.
  // ---------------------------------------------------------------------------------------------

  /** Its maker still waits for an answer to it. */
  predicate Outstanding(c: Call, i: nat) {
    c.initiator.signal == HaveLocalOffer(i) || c.answerer.signal == HaveLocalOffer(i)
  }

  /** An offer of the answerer still on its way though it has been rolled back. */
  predicate Doomed(c: Call, i: nat) {
    c.toInitiator != [] && c.toInitiator[0] == Offer(i) && c.answerer.signal != HaveLocalOffer(i)
  }

  /** How many of four hold. */
  function HowMany(a: bool, b: bool, c: bool, d: bool): nat {
    (if a then 1 else 0) + (if b then 1 else 0) + (if c then 1 else 0) + (if d then 1 else 0)
  }

  /**
   Each offer made is one of completed, rolled back, abandoned and outstanding; and those ignored are those
   rolled back, but for what is still in flight.
   */
  predicate OfferLedger(c: Call, i: nat) {
    && HowMany(Completed(i) in c.tally, RolledBack(i) in c.tally, Abandoned(i) in c.tally, Outstanding(c, i))
       == (if i < c.next then 1 else 0)
    && (RolledBack(i) in c.tally <==> (Ignored(i) in c.tally && !Outstanding(c, i)) || Doomed(c, i))
    && (Ignored(i) in c.tally ==> Offer(i) !in c.toInitiator && c.initiator.signal != HaveLocalOffer(i))
    && (c.answerer.signal == HaveLocalOffer(i) ==>
          (Ignored(i) in c.tally <==> c.toInitiator == [] && c.toAnswerer != [] && c.toAnswerer[0].Offer?))
  }

  ghost predicate Ledger(c: Call) {
    && (forall i: nat :: OfferLedger(c, i))
    && (c.initiator.signal.HaveLocalOffer? && c.answerer.signal.HaveLocalOffer?
        ==> c.initiator.signal.offer != c.answerer.signal.offer)
    && (forall i, j :: 0 <= i < j < |c.toInitiator| ==> c.toInitiator[i] != c.toInitiator[j])
  }

  lemma OffersKeepsLedger(c: Call, w: Side)
    requires Shape(c) && Ledger(c) && TakeTurn(c, Offers(w)).Some?
    ensures Ledger(TakeTurn(c, Offers(w)).value)
  {
    var c' := TakeTurn(c, Offers(w)).value;
    assert OfferLedger(c, c.next);
    forall i: nat ensures OfferLedger(c', i) {
      assert OfferLedger(c, i);
    }
  }

  lemma FailsKeepsLedger(c: Call, w: Side)
    requires Shape(c) && Ledger(c) && TakeTurn(c, Fails(w)).Some?
    ensures Ledger(TakeTurn(c, Fails(w)).value)
  {
    var c' := TakeTurn(c, Fails(w)).value;
    assert c'.toInitiator == c.toInitiator && c'.toAnswerer == c.toAnswerer;
    assert OfferLedger(c, c.next);
    forall i: nat ensures OfferLedger(c', i) {
      assert OfferLedger(c, i);
      assert i != c.next ==> (Abandoned(i) in c'.tally <==> Abandoned(i) in c.tally);
    }
  }

  /** The message that comes next is the only one to leave its channel. */
  lemma TakenFromInitiator(c: Call, i: nat)
    requires Shape(c) && Ledger(c) && c.toInitiator != []
    ensures Offer(i) in c.toInitiator[1..] <==> Offer(i) in c.toInitiator && c.toInitiator[0] != Offer(i)
    ensures forall j, k :: 0 <= j < k < |c.toInitiator| - 1 ==> c.toInitiator[1..][j] != c.toInitiator[1..][k]
  {
    var rest := c.toInitiator[1..];
    assert forall j :: 0 <= j < |rest| ==> rest[j] == c.toInitiator[j + 1];
  }

  lemma InitiatorTakesAnswer(c: Call)
    requires Shape(c) && Ledger(c) && c.toInitiator != [] && c.toInitiator[0].Answer?
    ensures Ledger(TakeTurn(c, Receives(Initiator)).value)
  {
    var c' := TakeTurn(c, Receives(Initiator)).value;
    TakenFromInitiator(c, 0);
    forall i: nat ensures OfferLedger(c', i) {
      assert OfferLedger(c, i);
      TakenFromInitiator(c, i);
    }
  }

  lemma InitiatorIgnoresOffer(c: Call)
    requires Shape(c) && Ledger(c) && c.toInitiator != [] && c.toInitiator[0].Offer?
    requires c.initiator.signal.HaveLocalOffer?
    ensures Ledger(TakeTurn(c, Receives(Initiator)).value)
  {
    var c' := TakeTurn(c, Receives(Initiator)).value;
    TakenFromInitiator(c, 0);
    forall i: nat ensures OfferLedger(c', i) {
      assert OfferLedger(c, i);
      TakenFromInitiator(c, i);
    }
  }

  lemma InitiatorTakesOffer(c: Call)
    requires Shape(c) && Ledger(c) && c.toInitiator != [] && c.toInitiator[0].Offer?
    requires !c.initiator.signal.HaveLocalOffer?
    ensures Ledger(TakeTurn(c, Receives(Initiator)).value)
  {
    var c' := TakeTurn(c, Receives(Initiator)).value;
    assert c.initiator.signal.Stable? && c'.tally == c.tally && c'.toInitiator == [];
    forall i: nat ensures OfferLedger(c', i) {
      assert OfferLedger(c, i);
    }
  }

  lemma InitiatorKeepsLedger(c: Call)
    requires Shape(c) && Ledger(c) && TakeTurn(c, Receives(Initiator)).Some?
    ensures Ledger(TakeTurn(c, Receives(Initiator)).value)
  {
    if c.toInitiator[0].Answer? {
      InitiatorTakesAnswer(c);
    } else if c.initiator.signal.HaveLocalOffer? {
      InitiatorIgnoresOffer(c);
    } else {
      InitiatorTakesOffer(c);
    }
  }

  lemma AnswererTakesAnswer(c: Call)
    requires Shape(c) && Ledger(c) && c.toAnswerer != [] && c.toAnswerer[0].Answer?
    ensures Ledger(TakeTurn(c, Receives(Answerer)).value)
  {
    var c' := TakeTurn(c, Receives(Answerer)).value;
    assert c'.toInitiator == c.toInitiator;
    forall i: nat ensures OfferLedger(c', i) {
      assert OfferLedger(c, i);
    }
  }

  lemma AnswererTakesOffer(c: Call)
    requires Shape(c) && Ledger(c) && c.toAnswerer != [] && c.toAnswerer[0].Offer?
    ensures Ledger(TakeTurn(c, Receives(Answerer)).value)
  {
    var c' := TakeTurn(c, Receives(Answerer)).value;
    assert c'.toInitiator == c.toInitiator;
    forall i: nat ensures OfferLedger(c', i) {
      assert OfferLedger(c, i);
    }
  }

  lemma AnswererKeepsLedger(c: Call)
    requires Shape(c) && Ledger(c) && TakeTurn(c, Receives(Answerer)).Some?
    ensures Ledger(TakeTurn(c, Receives(Answerer)).value)
  {
    if c.toAnswerer[0].Answer? {
      AnswererTakesAnswer(c);
    } else {
      AnswererTakesOffer(c);
    }
  }

  lemma AnswersKeepsLedger(c: Call, w: Side)
    requires Shape(c) && Ledger(c) && TakeTurn(c, Answers(w)).Some?
    ensures Ledger(TakeTurn(c, Answers(w)).value)
  {
    var c' := TakeTurn(c, Answers(w)).value;
    forall i: nat ensures OfferLedger(c', i) {
      assert OfferLedger(c, i);
    }
  }

  lemma StepKeepsLedger(c: Call, t: Turn)
    requires Shape(c) && Ledger(c) && TakeTurn(c, t).Some?
    ensures Ledger(TakeTurn(c, t).value)
  {
    match t
    case Offers(w) => OffersKeepsLedger(c, w);
    case Fails(w) => FailsKeepsLedger(c, w);
    case Receives(Initiator) => InitiatorKeepsLedger(c);
    case Receives(Answerer) => AnswererKeepsLedger(c);
    case Answers(w) => AnswersKeepsLedger(c, w);
  }

  /** Every offer ever made is accounted for exactly once, in every state an exchange passes through. */
  lemma {:induction false} RunKeepsLedger(turns: seq<Turn>)
    requires TakeTurns(FRESH, turns).Some?
    ensures Ledger(TakeTurns(FRESH, turns).value)
  {
    if turns != [] {
      var front := turns[..|turns| - 1];
      RunKeepsLedger(front);
      RunKeepsShape(front);
      StepKeepsLedger(TakeTurns(FRESH, front).value, turns[|turns| - 1]);
    }
  }
}
