/**
 Nobody is left waiting for an answer that cannot come, under any way of starting offers
 (apps/web/src/lib/webrtc.ts:383-420).
 */
module Patience {
  import opened Signaling
  import opened Exchange
  import opened Interleaving

  predicate HasAnswer(s: seq<Description>) {
    exists d :: d in s && d.Answer?
  }

  predicate HasOffer(s: seq<Description>) {
    exists d :: d in s && d.Offer?
  }

  /** A remote offer is on its way into force. */
  predicate Taking(ops: seq<Op>) {
    exists op :: op in ops && (op.Undo? || op.TakeOffer?)
  }

  predicate TakingOffer(ops: seq<Op>) {
    exists op :: op in ops && op.TakeOffer?
  }

  /** A remote offer in force is going to be answered. */
  predicate Owing(st: Station) {
    st.peer.signal.HaveRemoteOffer? ==>
      st.owes > 0 || MakeAnswer in st.ops || PutAnswer(st.peer.signal.offer) in st.ops
  }

  /** The initiator waits only while its offer, or an answer, is being dealt with. */
  predicate InitiatorHoped(s: World) {
    s.initiator.peer.signal.HaveLocalOffer? ==>
      || HasAnswer(s.toInitiator) || TakingAnswer(s.initiator.ops)
      || s.answerer.peer.signal.HaveRemoteOffer? || Taking(s.answerer.ops) || HasOffer(s.toAnswerer)
  }

  /** Nor does the answerer; its own last offer, if it has been looked at, was taken or made way for. */
  predicate AnswererHoped(s: World) {
    s.answerer.peer.signal.HaveLocalOffer? ==>
      || s.toAnswerer != [] || TakingAnswer(s.answerer.ops) || Taking(s.answerer.ops)
      || s.initiator.peer.signal.HaveRemoteOffer?
      || (s.toInitiator != [] && s.toInitiator[|s.toInitiator| - 1].Offer?)
      || (TakingOffer(s.initiator.ops) && !HasAnswer(s.toInitiator) && !TakingAnswer(s.initiator.ops))
  }

  predicate MayPrecede(x: Op, y: Op) {
    match x
    case MakeOffer => !y.MakeOffer? && !y.PutOffer? && !y.Undo?
    case PutOffer(_) => !y.MakeOffer? && !y.PutOffer? && !y.Undo? && !y.TakeOffer?
    case Undo(_) => !y.PutOffer?
    case _ => true
  }

  predicate InOrder(ops: seq<Op>) {
    forall j, k :: 0 <= j < k < |ops| ==> MayPrecede(ops[j], ops[k])
  }

  /** A browser that does not give way is spared having to, if the answerer makes one offer at a time. */
  predicate NeverPressed(pol: Policy, st: Station) {
    !pol.answerer.givesWay ==>
      && InOrder(st.ops)
      && (st.peer.signal.HaveLocalOffer? ==> !Making(st.ops) && !TakingOffer(st.ops))
  }

  predicate Hopeful(pol: Policy, s: World) {
    && !s.initiator.peer.polite && s.answerer.peer.polite
    && Owing(s.initiator) && Owing(s.answerer)
    && InitiatorHoped(s) && AnswererHoped(s) && NeverPressed(pol, s.answerer)
  }

  predicate Relenting(pol: Policy) {
    && Initiator !in pol.rushes
    && (pol.answerer.givesWay || (pol.answerer.rollsBack && Answerer !in pol.overlaps && Answerer !in pol.reoffers))
  }

  lemma ProgressKeepsOwing(b: Browser, st: Station, next: nat)
    requires Owing(st) && st.ops != []
    ensures Owing(Progress(b, st, next))
  {
    var st' := Progress(b, st, next);
    assert forall op :: op in st.ops ==> op == st.ops[0] || op in st.ops[1..];
    assert forall op :: op in st.ops[1..] ==> op in st'.ops;
    assert forall op :: op in Onward(b, st.peer, st.ops[0], next) ==> op in st'.ops;
  }

  lemma OneMoreInOrder(ops: seq<Op>, more: seq<Op>)
    requires InOrder(ops) && |more| <= 1
    requires forall x, y :: x in ops && y in more ==> MayPrecede(x, y)
    ensures InOrder(ops + more)
  {
  }

  lemma ProgressKeepsUnpressed(pol: Policy, st: Station, next: nat)
    requires Relenting(pol) && NeverPressed(pol, st) && st.ops != []
    ensures NeverPressed(pol, Progress(pol.answerer, st, next))
  {
    if !pol.answerer.givesWay {
      var op, rest, on := st.ops[0], st.ops[1..], Onward(pol.answerer, st.peer, st.ops[0], next);
      forall x | x in rest ensures MayPrecede(op, x) {
        var k :| 0 <= k < |rest| && rest[k] == x;
        assert st.ops[k + 1] == x;
      }
      OneMoreInOrder(rest, on);
      assert op in st.ops && forall x :: x in rest ==> x in st.ops;
      assert forall x :: x in rest + on <==> x in rest || x in on;
    }
  }

  lemma OpsAppended(ops: seq<Op>, op: Op)
    ensures TakingAnswer(ops + [op]) == (TakingAnswer(ops) || op.TakeAnswer?)
    ensures Taking(ops + [op]) == (Taking(ops) || op.Undo? || op.TakeOffer?)
    ensures TakingOffer(ops + [op]) == (TakingOffer(ops) || op.TakeOffer?)
    ensures Making(ops + [op]) == (Making(ops) || op.MakeOffer? || op.PutOffer?)
  {
    assert op in ops + [op] && forall x :: x in ops ==> x in ops + [op];
  }

  lemma OpsProgress(b: Browser, st: Station, next: nat)
    requires st.ops != []
    ensures var ops, ops' := st.ops, Progress(b, st, next).ops;
            && (TakingAnswer(ops) <==> ops[0].TakeAnswer? || TakingAnswer(ops'))
            && (Taking(ops) ==> ops[0].TakeOffer? || Taking(ops'))
            && (TakingOffer(ops) ==> ops[0].TakeOffer? || TakingOffer(ops'))
  {
    var op, rest, on := st.ops[0], st.ops[1..], Onward(b, st.peer, st.ops[0], next);
    var ops' := Progress(b, st, next).ops;
    assert forall x :: x in st.ops <==> x == op || x in rest;
    assert forall x :: x in ops' <==> x in rest || x in on;
    if op.Undo? {
      assert on[0] in on;
    }
  }

  lemma ChannelAppended(s: seq<Description>, sent: seq<Description>)
    ensures HasAnswer(s + sent) == (HasAnswer(s) || HasAnswer(sent))
    ensures HasOffer(s + sent) == (HasOffer(s) || HasOffer(sent))
    ensures sent == [] ==> s + sent == s
  {
    assert forall x :: x in s + sent <==> x in s || x in sent;
  }

  /** At most one message is sent as an operation settles. */
  lemma SentAlone(b: Browser, me: Peer, op: Op)
    ensures var sent := Perform(b, me, op).sent;
            && |sent| <= 1
            && HasAnswer(sent) == (sent != [] && sent[0].Answer?) && HasOffer(sent) == (sent != [] && sent[0].Offer?)
  {
    var sent := Perform(b, me, op).sent;
    assert sent != [] ==> sent[0] in sent && forall x :: x in sent ==> x == sent[0];
  }

  lemma ChannelTaken(s: seq<Description>)
    requires s != []
    ensures HasAnswer(s) == (s[0].Answer? || HasAnswer(s[1..]))
    ensures HasOffer(s) == (s[0].Offer? || HasOffer(s[1..]))
  {
    assert forall x :: x in s <==> x == s[0] || x in s[1..];
  }

  lemma StartKeepsHope(pol: Policy, s: World, w: Side)
    requires Relenting(pol) && Hopeful(pol, s) && Begin(pol, s, w).Some?
    ensures Hopeful(pol, Begin(pol, s, w).value)
  {
    var st := At(s, w);
    OpsAppended(st.ops, MakeOffer);
    if !pol.answerer.givesWay && w.Answerer? {
      assert forall x :: x in st.ops ==> !x.MakeOffer? && !x.PutOffer?;
      OneMoreInOrder(st.ops, [MakeOffer]);
    }
  }

  lemma ReplyKeepsHope(pol: Policy, s: World, w: Side)
    requires Relenting(pol) && Hopeful(pol, s) && Step(pol, s, Reply(w)).Some?
    ensures Hopeful(pol, Step(pol, s, Reply(w)).value)
  {
    var st := At(s, w);
    OpsAppended(st.ops, MakeAnswer);
    if !pol.answerer.givesWay && w.Answerer? {
      OneMoreInOrder(st.ops, [MakeAnswer]);
    }
  }

  lemma InitiatorTakesHope(pol: Policy, s: World)
    requires Relenting(pol) && Hopeful(pol, s) && Open(s) && Receive(pol, s, Initiator).Some?
    ensures Hopeful(pol, Receive(pol, s, Initiator).value)
  {
    var st, d := s.initiator, s.toInitiator[0];
    ChannelTaken(s.toInitiator);
    if Judge(st.peer, d).Some? {
      OpsAppended(st.ops, Judge(st.peer, d).value);
    }
  }

  lemma AnswererTakesHope(pol: Policy, s: World)
    requires Relenting(pol) && Hopeful(pol, s) && Open(s) && Receive(pol, s, Answerer).Some?
    ensures Hopeful(pol, Receive(pol, s, Answerer).value)
  {
    var st, d := s.answerer, s.toAnswerer[0];
    ChannelTaken(s.toAnswerer);
    if Judge(st.peer, d).Some? {
      var op := Judge(st.peer, d).value;
      OpsAppended(st.ops, op);
      if !pol.answerer.givesWay {
        assert forall x :: x in st.ops && x.PutOffer? ==> Putting(st.ops) && Making(st.ops);
        assert forall x :: x in st.ops && x.MakeOffer? ==> Making(st.ops);
        OneMoreInOrder(st.ops, [op]);
      }
    }
  }

  lemma InitiatorSettlesOwn(pol: Policy, s: World)
    requires Relenting(pol) && Hopeful(pol, s) && Open(s) && Settle(pol, s, Initiator).Some?
    ensures InitiatorHoped(Settle(pol, s, Initiator).value)
  {
    var st := s.initiator;
    OpsProgress(pol.initiator, st, s.next);
    SentAlone(pol.initiator, st.peer, st.ops[0]);
    ChannelAppended(s.toAnswerer, Perform(pol.initiator, st.peer, st.ops[0]).sent);
  }

  lemma InitiatorSettlesOther(pol: Policy, s: World)
    requires Relenting(pol) && Hopeful(pol, s) && Open(s) && Settle(pol, s, Initiator).Some?
    ensures AnswererHoped(Settle(pol, s, Initiator).value)
  {
    var st := s.initiator;
    OpsProgress(pol.initiator, st, s.next);
    SentAlone(pol.initiator, st.peer, st.ops[0]);
    ChannelAppended(s.toAnswerer, Perform(pol.initiator, st.peer, st.ops[0]).sent);
    assert Settle(pol, s, Initiator).value.answerer == s.answerer;
    assert Settle(pol, s, Initiator).value.toInitiator == s.toInitiator;
  }

  lemma InitiatorSettlesHope(pol: Policy, s: World)
    requires Relenting(pol) && Hopeful(pol, s) && Open(s) && Settle(pol, s, Initiator).Some?
    ensures Hopeful(pol, Settle(pol, s, Initiator).value)
  {
    ProgressKeepsOwing(pol.initiator, s.initiator, s.next);
    InitiatorSettlesOwn(pol, s);
    InitiatorSettlesOther(pol, s);
  }

  lemma AnswererSettlesOwn(pol: Policy, s: World)
    requires Relenting(pol) && Hopeful(pol, s) && Open(s) && Settle(pol, s, Answerer).Some?
    ensures AnswererHoped(Settle(pol, s, Answerer).value)
  {
    var st := s.answerer;
    OpsProgress(pol.answerer, st, s.next);
    assert st.ops[0] in st.ops;
    SentAlone(pol.answerer, st.peer, st.ops[0]);
    ChannelAppended(s.toInitiator, Perform(pol.answerer, st.peer, st.ops[0]).sent);
  }

  lemma AnswererSettlesOther(pol: Policy, s: World)
    requires Relenting(pol) && Hopeful(pol, s) && Open(s) && Settle(pol, s, Answerer).Some?
    ensures InitiatorHoped(Settle(pol, s, Answerer).value)
  {
    var st := s.answerer;
    OpsProgress(pol.answerer, st, s.next);
    assert st.ops[0] in st.ops;
    SentAlone(pol.answerer, st.peer, st.ops[0]);
    ChannelAppended(s.toInitiator, Perform(pol.answerer, st.peer, st.ops[0]).sent);
  }

  lemma AnswererSettlesHope(pol: Policy, s: World)
    requires Relenting(pol) && Hopeful(pol, s) && Open(s) && Settle(pol, s, Answerer).Some?
    ensures Hopeful(pol, Settle(pol, s, Answerer).value)
  {
    ProgressKeepsOwing(pol.answerer, s.answerer, s.next);
    ProgressKeepsUnpressed(pol, s.answerer, s.next);
    AnswererSettlesOwn(pol, s);
    AnswererSettlesOther(pol, s);
  }

  lemma EventKeepsHope(pol: Policy, s: World, e: Event)
    requires Relenting(pol) && Hopeful(pol, s) && Open(s) && Step(pol, s, e).Some? && !e.HangUp?
    ensures Hopeful(pol, Step(pol, s, e).value)
  {
    match e
    case StartOffer(w) => StartKeepsHope(pol, s, w);
    case Deliver(Initiator) => InitiatorTakesHope(pol, s);
    case Deliver(Answerer) => AnswererTakesHope(pol, s);
    case Reply(w) => ReplyKeepsHope(pol, s, w);
    case Resolve(Initiator) => InitiatorSettlesHope(pol, s);
    case Resolve(Answerer) => AnswererSettlesHope(pol, s);
  }

  lemma StartIsHopeful(pol: Policy)
    ensures Hopeful(pol, START)
  {
  }

  lemma {:induction false} RunKeepsHope(pol: Policy, events: seq<Event>)
    requires Relenting(pol)
    requires Run(pol, START, events).Some? && Open(Run(pol, START, events).value)
    ensures Hopeful(pol, Run(pol, START, events).value)
  {
    if events == [] {
      StartIsHopeful(pol);
    } else {
      var n := |events| - 1;
      var s := Run(pol, START, events[..n]).value;
      WasOpen(pol, s, events[n]);
      RunKeepsHope(pol, events[..n]);
      EventKeepsHope(pol, s, events[n]);
    }
  }

  lemma HopeEndsStable(pol: Policy, s: World)
    requires Hopeful(pol, s) && Open(s) && Quiescent(s)
    ensures BothStable(s)
  {
  }
}
