/**
 What goes wrong in undisciplined surroundings: runs, put together from calls that nothing interrupts and
 from the few events that do (apps/web/src/lib/webrtc.ts:358-420).
 */
module Mishaps {
  import opened Options
  import opened Signaling
  import opened Exchange
  import opened Interleaving

  /** Extend a run whose state is known by one event. */
  lemma Advance(pol: Policy, events: seq<Event>, s: World, e: Event) returns (s': World, events': seq<Event>)
    requires Run(pol, START, events) == Some(s) && Step(pol, s, e).Some?
    ensures Step(pol, s, e) == Some(s') && Run(pol, START, events') == Some(s')
  {
    assert (events + [e])[..|events + [e]| - 1] == events;
    s', events' := Step(pol, s, e).value, events + [e];
  }

  function Signaled(s: World, w: Side, signal: Signal): World {
    With(s, w, At(s, w).(peer := At(s, w).peer.(signal := signal)))
  }

  /** The one operation under way at side `w` settles. */
  lemma Settled(pol: Policy, before: seq<Event>, s: World, w: Side, op: Op) returns (s': World, events: seq<Event>)
    requires Run(pol, START, before) == Some(s) && At(s, w).ops == [op]
    ensures Run(pol, START, events) == Some(s')
    ensures Settle(pol, s, w) == Some(s') && At(s', w).ops == Onward(BrowserOf(pol, w), At(s, w).peer, op, s.next)
  {
    s', events := Advance(pol, before, s, Resolve(w));
    assert At(s, w).ops[1..] == [];
  }

  lemma Started(pol: Policy, before: seq<Event>, s: World, w: Side) returns (s': World, events: seq<Event>)
    requires Run(pol, START, before) == Some(s) && At(s, w).ops == []
    requires At(s, w).peer.signal.Stable? || (At(s, w).peer.signal.HaveLocalOffer? && w in pol.reoffers)
    ensures Run(pol, START, events) == Some(s') && s' == With(s, w, At(s, w).(ops := [MakeOffer]))
  {
    s', events := Advance(pol, before, s, StartOffer(w));
    assert [] + [MakeOffer] == [MakeOffer];
  }

  /** An offer is under way, but not yet set. */
  lemma OfferMade(pol: Policy, before: seq<Event>, s: World, w: Side) returns (s': World, events: seq<Event>)
    requires Run(pol, START, before) == Some(s) && At(s, w).ops == []
    requires At(s, w).peer.signal.Stable? || (At(s, w).peer.signal.HaveLocalOffer? && w in pol.reoffers)
    ensures Run(pol, START, events) == Some(s')
    ensures s' == With(s, w, At(s, w).(ops := [PutOffer(s.next)])).(next := s.next + 1)
  {
    s', events := Started(pol, before, s, w);
    s', events := Settled(pol, events, s', w, MakeOffer);
    assert s'.tally == s.tally;
    assert Inbox(s', Other(w)) == Inbox(s, Other(w));
  }

  lemma OfferGoes(pol: Policy, before: seq<Event>, s: World, w: Side) returns (s': World, events: seq<Event>)
    requires Run(pol, START, before) == Some(s) && At(s, w).ops == []
    requires At(s, w).peer.signal.Stable? || (At(s, w).peer.signal.HaveLocalOffer? && w in pol.reoffers)
    ensures Run(pol, START, events) == Some(s')
    ensures s' == Emit(Signaled(s, w, HaveLocalOffer(s.next)), w, [Offer(s.next)]).(next := s.next + 1)
  {
    s', events := OfferMade(pol, before, s, w);
    s', events := Settled(pol, events, s', w, PutOffer(s.next));
    assert At(s', w).ops == [] && s'.tally == s.tally;
    assert Inbox(s', w) == Inbox(s, w) && Inbox(s', Other(w)) == Inbox(s, Other(w)) + [Offer(s.next)];
  }

  /** The oldest message reaches a side that has nothing else to do, and sets off `op`. */
  lemma Delivered(pol: Policy, before: seq<Event>, s: World, w: Side, op: Op) returns (s': World, events: seq<Event>)
    requires Run(pol, START, before) == Some(s) && At(s, w).ops == [] && !At(s, w).peer.signal.Closed?
    requires Inbox(s, w) != [] && Judge(At(s, w).peer, Inbox(s, w)[0]) == Some(op)
    ensures Run(pol, START, events) == Some(s') && s' == With(Dequeue(s, w), w, At(s, w).(ops := [op]))
  {
    assert !Putting([]) && !TakingAnswer([]);
    s', events := Advance(pol, before, s, Deliver(w));
    assert [] + [op] == [op];
  }

  /** A side that has nothing else to do than to wait for an answer, and does not give way, ignores an offer. */
  lemma Ignored(pol: Policy, before: seq<Event>, s: World, w: Side) returns (s': World, events: seq<Event>)
    requires Run(pol, START, before) == Some(s) && At(s, w).ops == [] && At(s, w).peer.signal.HaveLocalOffer?
    requires Inbox(s, w) != [] && Inbox(s, w)[0].Offer? && !At(s, w).peer.polite
    ensures Run(pol, START, events) == Some(s')
    ensures At(s', w) == At(s, w) && At(s', Other(w)) == At(s, Other(w))
    ensures Inbox(s', w) == Inbox(s, w)[1..] && Inbox(s', Other(w)) == Inbox(s, Other(w))
  {
    assert !Putting([]) && !TakingAnswer([]);
    s', events := Advance(pol, before, s, Deliver(w));
  }

  lemma OfferTaken(pol: Policy, before: seq<Event>, s: World, w: Side) returns (s': World, events: seq<Event>)
    requires Run(pol, START, before) == Some(s) && At(s, w).ops == [] && At(s, w).peer.signal.Stable?
    requires Inbox(s, w) != [] && Inbox(s, w)[0].Offer?
    ensures Run(pol, START, events) == Some(s')
    ensures var t := Signaled(Dequeue(s, w), w, HaveRemoteOffer(Inbox(s, w)[0].id));
            s' == With(t, w, At(t, w).(owes := At(t, w).owes + 1))
  {
    var o := Inbox(s, w)[0].id;
    s', events := Delivered(pol, before, s, w, TakeOffer(o));
    s', events := Settled(pol, events, s', w, TakeOffer(o));
    assert s'.tally == s.tally;
    assert Inbox(s', Other(w)) == Inbox(s, Other(w));
  }

  lemma AnswerMade(pol: Policy, before: seq<Event>, s: World, w: Side) returns (s': World, events: seq<Event>)
    requires Run(pol, START, before) == Some(s) && At(s, w).ops == []
    requires At(s, w).peer.signal.HaveRemoteOffer? && At(s, w).owes > 0
    ensures Run(pol, START, events) == Some(s')
    ensures s' == With(s, w, Station(At(s, w).peer, [PutAnswer(At(s, w).peer.signal.offer)], At(s, w).owes - 1))
  {
    s', events := Advance(pol, before, s, Reply(w));
    assert At(s', w).ops == [MakeAnswer];
    s', events := Settled(pol, events, s', w, MakeAnswer);
    assert s'.tally == s.tally;
    assert Inbox(s', Other(w)) == Inbox(s, Other(w));
  }

  lemma AnswerGoes(pol: Policy, before: seq<Event>, s: World, w: Side) returns (s': World, events: seq<Event>)
    requires Run(pol, START, before) == Some(s) && At(s, w).ops == []
    requires At(s, w).peer.signal.HaveRemoteOffer? && At(s, w).owes > 0
    ensures Run(pol, START, events) == Some(s')
    ensures var st := At(s, w);
            var o := st.peer.signal.offer;
            var st' := Station(Peer(st.peer.polite, Stable, Some(Session(o, o))), [], st.owes - 1);
            s' == Emit(With(s, w, st'), w, [Answer(o)])
  {
    s', events := AnswerMade(pol, before, s, w);
    s', events := Settled(pol, events, s', w, PutAnswer(At(s, w).peer.signal.offer));
    assert s'.tally == s.tally;
  }

  lemma AnswerApplies(pol: Policy, s: World, w: Side, to: nat)
    requires At(s, w).ops == [TakeAnswer(to)] && At(s, w).peer.signal.HaveLocalOffer?
    ensures var st, o := At(s, w), At(s, w).peer.signal.offer;
            var st' := st.(peer := Peer(st.peer.polite, Stable, Some(Session(o, to))), ops := []);
            Settle(pol, s, w) == Some(With(s, w, st').(tally := s.tally + {Completed(o)}))
  {
    assert [TakeAnswer(to)][1..] + [] == [];
    assert Inbox(s, Other(w)) + [] == Inbox(s, Other(w));
  }

  lemma AnswerTaken(pol: Policy, before: seq<Event>, s: World, w: Side) returns (s': World, events: seq<Event>)
    requires Run(pol, START, before) == Some(s) && At(s, w).ops == [] && At(s, w).peer.signal.HaveLocalOffer?
    requires Inbox(s, w) != [] && Inbox(s, w)[0].Answer?
    ensures Run(pol, START, events) == Some(s')
    ensures var st := At(s, w);
            var p := Peer(st.peer.polite, Stable, Some(Session(st.peer.signal.offer, Inbox(s, w)[0].to)));
            s' == With(Dequeue(s, w), w, st.(peer := p)).(tally := s.tally + {Completed(st.peer.signal.offer)})
  {
    var to := Inbox(s, w)[0].to;
    s', events := Delivered(pol, before, s, w, TakeAnswer(to));
    AnswerApplies(pol, s', w, to);
    s', events := Settled(pol, events, s', w, TakeAnswer(to));
  }

  lemma OfferAnswered(pol: Policy, before: seq<Event>, s: World, w: Side) returns (s': World, events: seq<Event>)
    requires Run(pol, START, before) == Some(s)
    requires At(s, w).ops == [] && At(s, w).peer.signal.Stable? && At(s, w).owes == 0
    requires Inbox(s, w) != [] && Inbox(s, w)[0].Offer?
    ensures Run(pol, START, events) == Some(s')
    ensures var o := Inbox(s, w)[0].id;
            var st := Station(Peer(At(s, w).peer.polite, Stable, Some(Session(o, o))), [], 0);
            s' == Emit(With(Dequeue(s, w), w, st), w, [Answer(o)])
  {
    s', events := OfferTaken(pol, before, s, w);
    s', events := AnswerGoes(pol, events, s', w);
  }

  lemma FirstOffer(pol: Policy, w: Side) returns (s: World, events: seq<Event>)
    ensures Run(pol, START, events) == Some(s)
    ensures At(s, w) == Station(Peer(w.Answerer?, HaveLocalOffer(0), None), [], 0) && Inbox(s, w) == []
    ensures At(s, Other(w)) == Station(Peer(w.Initiator?, Stable, None), [], 0) && Inbox(s, Other(w)) == [Offer(0)]
    ensures s.next == 1
  {
    s, events := OfferGoes(pol, [], START, w);
  }

  lemma OfferTwice(pol: Policy, w: Side) returns (s: World, events: seq<Event>)
    requires w in pol.reoffers
    ensures Run(pol, START, events) == Some(s)
    ensures At(s, w) == Station(Peer(w.Answerer?, HaveLocalOffer(1), None), [], 0) && Inbox(s, w) == []
    ensures At(s, Other(w)) == Station(Peer(w.Initiator?, Stable, None), [], 0)
    ensures Inbox(s, Other(w)) == [Offer(0), Offer(1)]
  {
    s, events := FirstOffer(pol, w);
    s, events := OfferGoes(pol, events, s, w);
  }

  /** A second offer over an outstanding one: the answer to the first is taken for one to the second. */
  lemma ReofferMisfits(pol: Policy, w: Side) returns (s: World, events: seq<Event>)
    requires w in pol.reoffers
    ensures Run(pol, START, events) == Some(s) && Open(s)
    ensures At(s, w) == Station(Peer(w.Answerer?, Stable, Some(Session(1, 0))), [], 0) && Inbox(s, w) == []
    ensures At(s, Other(w)) == Station(Peer(w.Initiator?, Stable, Some(Session(0, 0))), [], 0)
    ensures Inbox(s, Other(w)) == [Offer(1)]
  {
    s, events := OfferTwice(pol, w);
    s, events := OfferAnswered(pol, events, s, Other(w));
    assert Inbox(s, w) == [Answer(0)] && Inbox(s, Other(w)) == [Offer(1)];
    s, events := AnswerTaken(pol, events, s, w);
  }

  /** The right answer then comes too late. */
  lemma ReofferDisagrees(pol: Policy, w: Side) returns (s: World, events: seq<Event>)
    requires w in pol.reoffers
    ensures Run(pol, START, events) == Some(s) && Open(s)
    ensures Quiescent(s) && BothStable(s) && At(s, w).peer.session == Some(Session(1, 0))
  {
    s, events := ReofferMisfits(pol, w);
    s, events := OfferAnswered(pol, events, s, Other(w));
    assert Inbox(s, w) == [Answer(1)] && Inbox(s, Other(w)) == [];
    s, events := Advance(pol, events, s, Deliver(w));
  }

  /** An offer of the answerer, right behind its answer. */
  lemma OfferFollowsAnswer(pol: Policy) returns (s: World, events: seq<Event>)
    ensures Run(pol, START, events) == Some(s)
    ensures s.initiator == Station(Peer(false, HaveLocalOffer(0), None), [], 0)
    ensures s.toInitiator == [Answer(0), Offer(1)]
    ensures s.answerer == Station(Peer(true, HaveLocalOffer(1), Some(Session(0, 0))), [], 0) && s.toAnswerer == []
  {
    s, events := FirstOffer(pol, Initiator);
    s, events := OfferAnswered(pol, events, s, Answerer);
    s, events := OfferGoes(pol, events, s, Answerer);
    assert s.toInitiator == [Answer(0), Offer(1)] && s.toAnswerer == [];
  }

  /** It reaches the initiator while the answer is still being applied. */
  lemma OfferRushes(pol: Policy) returns (s: World, events: seq<Event>)
    requires Initiator in pol.rushes
    ensures Run(pol, START, events) == Some(s)
    ensures s.initiator == Station(Peer(false, HaveLocalOffer(0), None), [TakeAnswer(0)], 0)
    ensures s.toInitiator == [Offer(1)]
    ensures s.answerer == Station(Peer(true, HaveLocalOffer(1), Some(Session(0, 0))), [], 0) && s.toAnswerer == []
  {
    s, events := OfferFollowsAnswer(pol);
    s, events := Delivered(pol, events, s, Initiator, TakeAnswer(0));
  }

  lemma RushIgnored(pol: Policy) returns (s: World, events: seq<Event>)
    requires Initiator in pol.rushes
    ensures Run(pol, START, events) == Some(s)
    ensures s.initiator == Station(Peer(false, HaveLocalOffer(0), None), [TakeAnswer(0)], 0) && s.toInitiator == []
    ensures s.answerer == Station(Peer(true, HaveLocalOffer(1), Some(Session(0, 0))), [], 0) && s.toAnswerer == []
  {
    s, events := OfferRushes(pol);
    assert !Putting(s.initiator.ops);
    s, events := Advance(pol, events, s, Deliver(Initiator));
  }

  /** An offer right behind an answer: the initiator, still applying the answer, takes it for a collision. */
  lemma RushStrands(pol: Policy) returns (s: World, events: seq<Event>)
    requires Initiator in pol.rushes
    ensures Run(pol, START, events) == Some(s) && Open(s) && Quiescent(s)
    ensures s.initiator.peer.signal.Stable? && s.answerer.peer.signal.HaveLocalOffer?
  {
    s, events := RushIgnored(pol);
    s, events := Settled(pol, events, s, Initiator, TakeAnswer(0));
  }

  lemma BothOffer(pol: Policy) returns (s: World, events: seq<Event>)
    ensures Run(pol, START, events) == Some(s)
    ensures s.initiator == Station(Peer(false, HaveLocalOffer(1), None), [], 0) && s.toInitiator == [Offer(0)]
    ensures s.answerer == Station(Peer(true, HaveLocalOffer(0), None), [], 0) && s.toAnswerer == [Offer(1)]
    ensures s.next == 2
  {
    s, events := FirstOffer(pol, Answerer);
    s, events := OfferGoes(pol, events, s, Initiator);
    assert s.toInitiator == [Offer(0)] && s.toAnswerer == [Offer(1)];
  }

  /** Both ends offer at once, and the answerer's browser cannot undo its own offer in any way. */
  lemma DeadlockWithoutRollback(pol: Policy) returns (s: World, events: seq<Event>)
    requires !pol.answerer.rollsBack && !pol.answerer.givesWay
    ensures Run(pol, START, events) == Some(s) && Open(s) && Quiescent(s)
    ensures s.initiator.peer.signal.HaveLocalOffer? && s.answerer.peer.signal.HaveLocalOffer?
  {
    s, events := BothOffer(pol);
    s, events := Ignored(pol, events, s, Initiator);
    s, events := Delivered(pol, events, s, Answerer, Undo(1));
    s, events := Settled(pol, events, s, Answerer, Undo(1));
    s, events := Settled(pol, events, s, Answerer, TakeOffer(1));
  }

  lemma OfferLetIn(pol: Policy) returns (s: World, events: seq<Event>)
    requires Initiator in pol.overlaps
    ensures Run(pol, START, events) == Some(s)
    ensures s.initiator == Station(Peer(false, Stable, None), [PutOffer(1), TakeOffer(0)], 0) && s.toInitiator == []
    ensures s.answerer == Station(Peer(true, HaveLocalOffer(0), None), [], 0) && s.toAnswerer == []
  {
    s, events := FirstOffer(pol, Answerer);
    s, events := OfferMade(pol, events, s, Initiator);
    s, events := Advance(pol, events, s, Deliver(Initiator));
    assert s.initiator.ops == [PutOffer(1), TakeOffer(0)];
  }

  /** The initiator is setting its offer when the answerer's comes in, and its browser gives way to that. */
  lemma OverlapCrosses(pol: Policy) returns (s: World, events: seq<Event>)
    requires Initiator in pol.overlaps && pol.initiator.givesWay
    ensures Run(pol, START, events) == Some(s)
    ensures s.initiator == Station(Peer(false, Stable, Some(Session(0, 0))), [], 0) && s.toInitiator == []
    ensures s.answerer == Station(Peer(true, HaveLocalOffer(0), None), [], 0) && s.toAnswerer == [Offer(1), Answer(0)]
  {
    s, events := OfferLetIn(pol);
    s, events := Advance(pol, events, s, Resolve(Initiator));
    assert s.initiator.ops == [TakeOffer(0)] && s.toAnswerer == [Offer(1)];
    s, events := Advance(pol, events, s, Resolve(Initiator));
    s, events := AnswerGoes(pol, events, s, Initiator);
  }

  lemma OfferGivesWay(pol: Policy) returns (s: World, events: seq<Event>)
    requires Initiator in pol.overlaps && pol.initiator.givesWay
    requires pol.answerer.givesWay || pol.answerer.rollsBack
    ensures Run(pol, START, events) == Some(s)
    ensures s.initiator == Station(Peer(false, Stable, Some(Session(0, 0))), [], 0) && s.toInitiator == []
    ensures s.answerer == Station(Peer(true, HaveRemoteOffer(1), None), [], 1) && s.toAnswerer == [Answer(0)]
  {
    s, events := OverlapCrosses(pol);
    s, events := Advance(pol, events, s, Deliver(Answerer));
    assert s.answerer.ops == [Undo(1)] && s.toAnswerer == [Answer(0)];
    s, events := Settled(pol, events, s, Answerer, Undo(1));
    s, events := Settled(pol, events, s, Answerer, TakeOffer(1));
  }

  /** The answerer then gives up its offer for the other's, so that each has answered the other. */
  lemma OverlapDisagrees(pol: Policy) returns (s: World, events: seq<Event>)
    requires Initiator in pol.overlaps && pol.initiator.givesWay
    requires pol.answerer.givesWay || pol.answerer.rollsBack
    ensures Run(pol, START, events) == Some(s) && Open(s)
    ensures Quiescent(s) && BothStable(s) && s.initiator.peer.session != s.answerer.peer.session
  {
    s, events := OfferGivesWay(pol);
    s, events := Advance(pol, events, s, Deliver(Answerer));
    s, events := AnswerGoes(pol, events, s, Answerer);
    assert s.toInitiator == [Answer(1)];
    s, events := Advance(pol, events, s, Deliver(Initiator));
  }

  lemma FirstMade(pol: Policy) returns (s: World, events: seq<Event>)
    ensures Run(pol, START, events) == Some(s)
    ensures s.initiator == START.initiator && s.toInitiator == [] && s.toAnswerer == [] && s.next == 1
    ensures s.answerer == Station(Peer(true, Stable, None), [PutOffer(0)], 0)
  {
    s, events := OfferMade(pol, [], START, Answerer);
  }

  lemma AnswererLetsOfferIn(pol: Policy) returns (s: World, events: seq<Event>)
    requires Answerer in pol.overlaps
    ensures Run(pol, START, events) == Some(s)
    ensures s.initiator == Station(Peer(false, HaveLocalOffer(1), None), [], 0) && s.toInitiator == []
    ensures s.answerer == Station(Peer(true, Stable, None), [PutOffer(0), TakeOffer(1)], 0) && s.toAnswerer == []
  {
    s, events := FirstMade(pol);
    s, events := OfferGoes(pol, events, s, Initiator);
    assert s.toAnswerer == [Offer(1)] && s.answerer.ops == [PutOffer(0)];
    s, events := Advance(pol, events, s, Deliver(Answerer));
    assert s.answerer.ops == [PutOffer(0), TakeOffer(1)];
  }

  /** The answerer is setting its offer when the initiator's comes in, and its browser refuses that. */
  lemma OverlapDeadlocks(pol: Policy) returns (s: World, events: seq<Event>)
    requires Answerer in pol.overlaps && !pol.answerer.givesWay
    ensures Run(pol, START, events) == Some(s) && Open(s) && Quiescent(s)
    ensures s.initiator.peer.signal.HaveLocalOffer? && s.answerer.peer.signal.HaveLocalOffer?
  {
    s, events := AnswererLetsOfferIn(pol);
    s, events := Advance(pol, events, s, Resolve(Answerer));
    assert s.answerer.ops == [TakeOffer(1)] && s.toInitiator == [Offer(0)];
    s, events := Settled(pol, events, s, Answerer, TakeOffer(1));
    s, events := Ignored(pol, events, s, Initiator);
  }

  /** A second offer is in the making when the first has to make room. */
  lemma ReofferQueued(pol: Policy) returns (s: World, events: seq<Event>)
    requires Answerer in pol.reoffers
    ensures Run(pol, START, events) == Some(s) && s.next == 2
    ensures s.initiator == Station(Peer(false, HaveLocalOffer(1), None), [], 0) && s.toInitiator == [Offer(0)]
    ensures s.answerer == Station(Peer(true, HaveLocalOffer(0), None), [MakeOffer, Undo(1)], 0) && s.toAnswerer == []
  {
    s, events := BothOffer(pol);
    s, events := Started(pol, events, s, Answerer);
    s, events := Advance(pol, events, s, Deliver(Answerer));
    assert s.answerer.ops == [MakeOffer, Undo(1)];
  }

  /** It slips in between the rollback of the first and the remote offer it makes room for. */
  lemma ReofferSlipsIn(pol: Policy) returns (s: World, events: seq<Event>)
    requires Answerer in pol.reoffers && pol.answerer.rollsBack && !pol.answerer.givesWay
    ensures Run(pol, START, events) == Some(s)
    ensures s.initiator == Station(Peer(false, HaveLocalOffer(1), None), [], 0) && s.toInitiator == [Offer(0)]
    ensures s.answerer == Station(Peer(true, Stable, None), [PutOffer(2), TakeOffer(1)], 0) && s.toAnswerer == []
  {
    s, events := ReofferQueued(pol);
    s, events := Advance(pol, events, s, Resolve(Answerer));
    assert s.answerer.ops == [Undo(1), PutOffer(2)];
    s, events := Advance(pol, events, s, Resolve(Answerer));
    assert s.answerer.ops == [PutOffer(2), TakeOffer(1)];
  }

  /** The answerer's browser then refuses the remote offer. */
  lemma ReofferRefused(pol: Policy) returns (s: World, events: seq<Event>)
    requires Answerer in pol.reoffers && pol.answerer.rollsBack && !pol.answerer.givesWay
    ensures Run(pol, START, events) == Some(s)
    ensures s.initiator == Station(Peer(false, HaveLocalOffer(1), None), [], 0)
    ensures s.toInitiator == [Offer(0), Offer(2)]
    ensures s.answerer == Station(Peer(true, HaveLocalOffer(2), None), [], 0) && s.toAnswerer == []
  {
    s, events := ReofferSlipsIn(pol);
    s, events := Advance(pol, events, s, Resolve(Answerer));
    assert s.answerer.ops == [TakeOffer(1)] && s.toInitiator == [Offer(0), Offer(2)];
    s, events := Advance(pol, events, s, Resolve(Answerer));
  }

  lemma ReofferDeadlocks(pol: Policy) returns (s: World, events: seq<Event>)
    requires Answerer in pol.reoffers && pol.answerer.rollsBack && !pol.answerer.givesWay
    ensures Run(pol, START, events) == Some(s) && Open(s) && Quiescent(s)
    ensures s.initiator.peer.signal.HaveLocalOffer? && s.answerer.peer.signal.HaveLocalOffer?
  {
    s, events := ReofferRefused(pol);
    s, events := Ignored(pol, events, s, Initiator);
    assert s.toInitiator == [Offer(2)];
    s, events := Ignored(pol, events, s, Initiator);
  }
}
