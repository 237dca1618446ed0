/**
 In disciplined surroundings, interleaved calls come to no more than whole ones: every run of
 `Interleaving` refines an exchange of `Exchange` (apps/web/src/lib/webrtc.ts:376-420).
 */
module Foresight {
  import opened Options
  import opened Signaling
  import opened Exchange
  import opened Interleaving

  // What a side comes to once all its operations have settled.

  function Both(e: Effect, f: Effect): Effect {
    Effect(f.peer, e.sent + f.sent, e.fates + f.fates)
  }

  /** An operation with what is sure to follow it: only a rollback counts on to its remote offer. */
  function Foretell(b: Browser, me: Peer, op: Op): Effect {
    var e := Perform(b, me, op);
    if op.Undo? then Both(e, Perform(b, e.peer, TakeOffer(op.id))) else e
  }

  function Foresee(b: Browser, me: Peer, ops: seq<Op>): Effect
    decreases |ops|
  {
    if ops == [] then Effect(me, [], {}) else
    var e := Foretell(b, me, ops[0]);
    Both(e, Foresee(b, e.peer, ops[1..]))
  }

  /** The exchange of whole calls that a world amounts to. */
  function Foreseen(pol: Policy, s: World): Call {
    var i := Foresee(pol.initiator, s.initiator.peer, s.initiator.ops);
    var a := Foresee(pol.answerer, s.answerer.peer, s.answerer.ops);
    Call(i.peer, a.peer, s.toInitiator + a.sent, s.toAnswerer + i.sent, s.next, s.tally + (i.fates + a.fates))
  }

  /** What one side comes to. */
  function ForeseenOf(pol: Policy, s: World, w: Side): Effect {
    Foresee(BrowserOf(pol, w), At(s, w).peer, At(s, w).ops)
  }

  lemma BothJoins(e: Effect, f: Effect, g: Effect)
    ensures Both(e, Both(f, g)) == Both(Both(e, f), g)
    ensures Both(e, Effect(e.peer, [], {})) == e && Both(Effect(e.peer, [], {}), e) == e
  {
    assert e.sent + (f.sent + g.sent) == (e.sent + f.sent) + g.sent;
    assert e.fates + (f.fates + g.fates) == (e.fates + f.fates) + g.fates;
    assert e.sent + [] == e.sent == [] + e.sent;
    assert e.fates + {} == e.fates == {} + e.fates;
  }

  lemma ForeseeFirst(b: Browser, me: Peer, op: Op, ops: seq<Op>)
    ensures Foresee(b, me, [op] + ops) == Both(Foretell(b, me, op), Foresee(b, Foretell(b, me, op).peer, ops))
  {
    assert ([op] + ops)[1..] == ops;
  }

  lemma {:induction false} ForeseeMore(b: Browser, me: Peer, ops: seq<Op>, op: Op)
    ensures var e := Foresee(b, me, ops);
            Foresee(b, me, ops + [op]) == Both(e, Foretell(b, e.peer, op))
    decreases |ops|
  {
    if ops == [] {
      var f := Foretell(b, me, op);
      ForeseeFirst(b, me, op, []);
      assert [op] + [] == [op] == ops + [op];
      BothJoins(f, f, f);
    } else {
      var f := Foretell(b, me, ops[0]);
      var g := Foresee(b, f.peer, ops[1..]);
      ForeseeMore(b, f.peer, ops[1..], op);
      ForeseeFirst(b, me, ops[0], ops[1..] + [op]);
      assert [ops[0]] + (ops[1..] + [op]) == ops + [op];
      BothJoins(f, g, Foretell(b, g.peer, op));
    }
  }

  lemma Regrouped(s: set<Fate>, t: set<Fate>, f: set<Fate>, g: set<Fate>)
    ensures s + ((t + f) + g) == (s + t) + (f + g) && s + (g + (t + f)) == (s + t) + (g + f)
  {
  }

  lemma Added(s: set<Fate>, f: set<Fate>, g: set<Fate>, e: set<Fate>)
    ensures s + ((f + e) + g) == s + (f + g) + e && s + (g + (f + e)) == s + (g + f) + e
  {
  }

  lemma Rejoined(inbox: seq<Description>, sent: seq<Description>, more: seq<Description>)
    ensures inbox + (sent + more) == (inbox + sent) + more
  {
  }

  /** A step that carries out only what was foreseen. */
  lemma Unseen(pol: Policy, s: World, w: Side, st: Station, sent: seq<Description>, fates: set<Fate>)
    requires var f := Foresee(BrowserOf(pol, w), st.peer, st.ops);
             ForeseenOf(pol, s, w) == Effect(f.peer, sent + f.sent, fates + f.fates)
    ensures Foreseen(pol, Emit(With(s, w, st), w, sent).(tally := s.tally + fates)) == Foreseen(pol, s)
  {
    var f, g := Foresee(BrowserOf(pol, w), st.peer, st.ops), ForeseenOf(pol, s, Other(w));
    Regrouped(s.tally, fates, f.fates, g.fates);
    Rejoined(Inbox(s, Other(w)), sent, f.sent);
  }

  /** A step that adds `e` to what is foreseen of one side. */
  lemma Seen(pol: Policy, s: World, w: Side, st: Station, e: Effect)
    requires Foresee(BrowserOf(pol, w), st.peer, st.ops) == Both(ForeseenOf(pol, s, w), e)
    ensures Foreseen(pol, With(s, w, st)) == Apply(Foreseen(pol, s), w, e)
  {
    var f, g := ForeseenOf(pol, s, w), ForeseenOf(pol, s, Other(w));
    Added(s.tally, f.fates, g.fates, e.fates);
    Rejoined(Inbox(s, Other(w)), f.sent, e.sent);
  }

  /** A call that nothing interrupts does what `Signaling` says the whole method does. */
  lemma UninterruptedIsWhole(b: Browser, me: Peer, d: Description)
    ensures match Judge(me, d)
            case None => SetRemoteDescription(me, d, b, true) == Skipped
            case Some(op) =>
              match SetRemoteDescription(me, d, b, true)
              case Applied(p) => Foresee(b, me, [op]).peer == p
              case Rejected(p) => Foresee(b, me, [op]).peer == p && p == me
              case Skipped => false
  {
  }

  // ---------------------------------------------------------------------------------------------
  // Disciplined surroundings: interleaved calls come to no more than whole ones.
  // ---------------------------------------------------------------------------------------------

  /** No side makes a second offer, the initiator does not rush, and where offers overlap the browser sides
      with politeness. */
  predicate Disciplined(pol: Policy) {
    && pol.reoffers == {} && Initiator !in pol.rushes
    && (pol.initiator.givesWay ==> Initiator !in pol.overlaps)
    && (pol.answerer.givesWay || (pol.answerer.rollsBack && Answerer !in pol.overlaps))
  }

  /** Letting a remote offer in while an own one is being set ends as politeness would have it. */
  predicate Harmless(pol: Policy, w: Side) {
    w.Answerer? == BrowserOf(pol, w).givesWay
  }

  predicate AllTakes(ops: seq<Op>) {
    forall i :: 0 <= i < |ops| ==> ops[i].TakeOffer?
  }

  /**
   The operations a side can have before it in a disciplined call. Remote offers let in behind an own one
   come last: the answerer's browser then gives way to one, and the initiator's refuses them all.
   */
  predicate Form(pol: Policy, w: Side, st: Station) {
    var ops, n := st.ops, |st.ops|;
    && st.peer.polite == w.Answerer?
    && match st.peer.signal
       case Closed => false
       case Stable =>
         && st.owes == 0
         && (|| n == 0
             || (n == 1 && (ops[0].MakeOffer? || ops[0].TakeOffer? || ops[0].Undo?))
             || (n == 2 && ops[0].TakeOffer? && (ops[1].MakeOffer? || ops[1].PutOffer?))
             || (n == 2 && ops[0].MakeOffer? && ops[1].TakeOffer?)
             || (n == 2 && ops[0].Undo? && ops[1].MakeOffer?)
             || (n == 1 && ops[0].PutOffer?)
             || (n >= 2 && ops[0].PutOffer? && Harmless(pol, w) && AllTakes(ops[1..]) && (w.Answerer? ==> n == 2)))
       case HaveLocalOffer(_) =>
         && st.owes == 0
         && (|| n == 0
             || (n == 1 && ops[0].TakeAnswer?)
             || (n == 1 && w.Answerer? && (ops[0].Undo? || (ops[0].TakeOffer? && Harmless(pol, w))))
             || (n == 2 && w.Answerer? && ops[0].TakeAnswer? && ops[1].Undo?)
             || (n >= 1 && w.Initiator? && Harmless(pol, w) && AllTakes(ops))
             || (n >= 2 && w.Initiator? && Harmless(pol, w) && AllTakes(ops[..n - 1]) && ops[n - 1].TakeAnswer?))
       case HaveRemoteOffer(o) =>
         || (st.owes == 1 && (n == 0 || (n == 1 && (ops[0].MakeOffer? || ops[0].PutOffer?))))
         || (st.owes == 0 && n == 1 && (ops[0].MakeAnswer? || ops[0] == PutAnswer(o)))
         || (st.owes == 0 && n == 2 && (ops[0].MakeOffer? || ops[0].PutOffer?) && ops[1].MakeAnswer?)
         || (st.owes == 0 && n == 2 && ops[0].MakeOffer? && ops[1] == PutAnswer(o))
         || (st.owes == 0 && n == 2 && (ops[0].MakeAnswer? || ops[0] == PutAnswer(o)) && ops[1].MakeOffer?)
  }

  predicate Orderly(pol: Policy, s: World) {
    && Form(pol, Initiator, s.initiator) && Form(pol, Answerer, s.answerer)
    && Shape(Foreseen(pol, s))
  }

  lemma ForeseeTwo(b: Browser, me: Peer, ops: seq<Op>)
    requires |ops| <= 2
    ensures |ops| == 0 ==> Foresee(b, me, ops) == Effect(me, [], {})
    ensures |ops| == 1 ==> Foresee(b, me, ops) == Foretell(b, me, ops[0])
    ensures |ops| == 2 ==>
              var e := Foretell(b, me, ops[0]);
              Foresee(b, me, ops) == Both(e, Foretell(b, e.peer, ops[1]))
  {
    if |ops| >= 1 {
      var e := Foretell(b, me, ops[0]);
      assert Foresee(b, me, ops) == Both(e, Foresee(b, e.peer, ops[1..]));
      if |ops| == 2 {
        var f := Foretell(b, e.peer, ops[1]);
        assert Foresee(b, e.peer, ops[1..]) == Both(f, Foresee(b, f.peer, []));
      }
    }
  }

  /** Asking for a description of one's own changes nothing yet. */
  lemma AskingIsUnseen(pol: Policy, s: World, w: Side, op: Op, owes: nat)
    requires op.MakeOffer? || op.MakeAnswer?
    ensures Foreseen(pol, With(s, w, Station(At(s, w).peer, At(s, w).ops + [op], owes))) == Foreseen(pol, s)
  {
    var st, e := At(s, w), ForeseenOf(pol, s, w);
    ForeseeMore(BrowserOf(pol, w), st.peer, st.ops, op);
    BothJoins(e, e, e);
  }

  lemma StartIsUnseen(pol: Policy, s: World, w: Side)
    requires Disciplined(pol) && Form(pol, w, At(s, w)) && Begin(pol, s, w).Some?
    ensures var s' := Begin(pol, s, w).value;
            Foreseen(pol, s') == Foreseen(pol, s) && Form(pol, w, At(s', w))
  {
    AskingIsUnseen(pol, s, w, MakeOffer, At(s, w).owes);
    StartKeepsForm(pol, w, At(s, w));
  }

  lemma StartKeepsForm(pol: Policy, w: Side, st: Station)
    requires Form(pol, w, st) && !st.peer.signal.HaveLocalOffer? && !Making(st.ops)
    ensures Form(pol, w, st.(ops := st.ops + [MakeOffer]))
  {
    assert forall i :: 0 <= i < |st.ops| ==> st.ops[i] in st.ops;
  }

  lemma ReplyIsUnseen(pol: Policy, s: World, w: Side)
    requires Form(pol, w, At(s, w)) && Step(pol, s, Reply(w)).Some?
    ensures var s' := Step(pol, s, Reply(w)).value;
            Foreseen(pol, s') == Foreseen(pol, s) && Form(pol, w, At(s', w))
  {
    AskingIsUnseen(pol, s, w, MakeAnswer, At(s, w).owes - 1);
    ReplyKeepsForm(pol, w, At(s, w));
  }

  lemma ReplyKeepsForm(pol: Policy, w: Side, st: Station)
    requires Form(pol, w, st) && st.owes > 0
    ensures Form(pol, w, st.(ops := st.ops + [MakeAnswer], owes := st.owes - 1))
  {
  }

  lemma StableProgress(pol: Policy, w: Side, st: Station, next: nat)
    requires Disciplined(pol) && Form(pol, w, st) && st.ops != [] && st.peer.signal.Stable?
    ensures Form(pol, w, Progress(BrowserOf(pol, w), st, next))
  {
    var rest := st.ops[1..];
    if st.ops[0].PutOffer? {
      assert Progress(BrowserOf(pol, w), st, next).ops == rest;
    } else if |st.ops| == 1 {
      assert rest == [];
    } else {
      assert rest == [st.ops[1]];
    }
  }

  /** The answerer has at most two operations before it while it waits. */
  lemma AnswererProgress(pol: Policy, st: Station, next: nat)
    requires Disciplined(pol) && Form(pol, Answerer, st) && st.ops != [] && st.peer.signal.HaveLocalOffer?
    ensures Form(pol, Answerer, Progress(pol.answerer, st, next))
  {
    var rest := st.ops[1..];
    assert |st.ops| == 1 ==> rest == [];
    assert |st.ops| == 2 ==> rest == [st.ops[1]];
  }

  lemma RefusingProgress(pol: Policy, st: Station, next: nat)
    requires Form(pol, Initiator, st) && st.ops != [] && st.peer.signal.HaveLocalOffer?
    requires AllTakes(st.ops) && !pol.initiator.givesWay
    ensures Form(pol, Initiator, Progress(pol.initiator, st, next))
  {
    assert Progress(pol.initiator, st, next) == Station(st.peer, st.ops[1..], st.owes);
  }

  lemma AnsweredProgress(pol: Policy, st: Station, next: nat)
    requires Form(pol, Initiator, st) && st.peer.signal.HaveLocalOffer?
    requires st.ops != [] && st.ops[|st.ops| - 1].TakeAnswer?
    ensures Form(pol, Initiator, Progress(pol.initiator, st, next))
  {
    var rest, n := st.ops[1..], |st.ops|;
    if n == 1 {
      assert Progress(pol.initiator, st, next).ops == [];
    } else {
      assert st.ops[..n - 1][0] == st.ops[0];
      assert Progress(pol.initiator, st, next) == Station(st.peer, rest, st.owes);
      if n > 2 {
        assert rest[..n - 2] == st.ops[..n - 1][1..];
      }
    }
  }

  lemma WaitingProgress(pol: Policy, w: Side, st: Station, next: nat)
    requires Disciplined(pol) && Form(pol, w, st) && st.ops != [] && st.peer.signal.HaveLocalOffer?
    ensures Form(pol, w, Progress(BrowserOf(pol, w), st, next))
  {
    if w.Answerer? {
      AnswererProgress(pol, st, next);
    } else if AllTakes(st.ops) {
      RefusingProgress(pol, st, next);
    } else {
      AnsweredProgress(pol, st, next);
    }
  }

  lemma AnsweringProgress(pol: Policy, w: Side, st: Station, next: nat)
    requires Disciplined(pol) && Form(pol, w, st) && st.ops != [] && st.peer.signal.HaveRemoteOffer?
    ensures Form(pol, w, Progress(BrowserOf(pol, w), st, next))
  {
  }

  lemma ProgressKeepsForm(pol: Policy, w: Side, st: Station, next: nat)
    requires Disciplined(pol) && Form(pol, w, st) && st.ops != []
    ensures Form(pol, w, Progress(BrowserOf(pol, w), st, next))
  {
    match st.peer.signal
    case Stable => StableProgress(pol, w, st, next);
    case HaveLocalOffer(_) => WaitingProgress(pol, w, st, next);
    case HaveRemoteOffer(_) => AnsweringProgress(pol, w, st, next);
  }

  /** An operation with nothing to follow it was foreseen. */
  lemma PlainIsUnseen(pol: Policy, s: World, w: Side)
    requires At(s, w).ops != [] && !At(s, w).ops[0].Undo?
    requires Onward(BrowserOf(pol, w), At(s, w).peer, At(s, w).ops[0], s.next) == []
    ensures Foreseen(pol, Settle(pol, s, w).value) == Foreseen(pol, s)
  {
    var b, st := BrowserOf(pol, w), At(s, w);
    var e := Perform(b, st.peer, st.ops[0]);
    var st' := Progress(b, st, s.next);
    assert st'.ops == st.ops[1..];
    Unseen(pol, s, w, st', e.sent, e.fates);
  }

  /** A rollback with the remote offer it makes room for, however much is only asked for in between. */
  lemma UndoForeseen(b: Browser, me: Peer, id: nat, rest: seq<Op>)
    requires rest == [] || rest == [MakeOffer]
    ensures var e := Perform(b, me, Undo(id));
            Foresee(b, me, [Undo(id)] + rest) == Both(e, Foresee(b, e.peer, rest + [TakeOffer(id)]))
  {
    var e := Perform(b, me, Undo(id));
    var f := Perform(b, e.peer, TakeOffer(id));
    ForeseeTwo(b, e.peer, rest);
    ForeseeTwo(b, f.peer, rest);
    ForeseeFirst(b, me, Undo(id), rest);
    ForeseeMore(b, e.peer, rest, TakeOffer(id));
    BothJoins(f, f, f);
  }

  /** So was a rollback, with the remote offer it makes room for. */
  lemma UndoIsUnseen(pol: Policy, s: World, w: Side)
    requires Form(pol, w, At(s, w)) && At(s, w).ops != [] && At(s, w).ops[0].Undo?
    ensures Foreseen(pol, Settle(pol, s, w).value) == Foreseen(pol, s)
  {
    var b, st := BrowserOf(pol, w), At(s, w);
    var id, rest := st.ops[0].id, st.ops[1..];
    UndoHasRoom(pol, w, st);
    UndoForeseen(b, st.peer, id, rest);
    var e := Perform(b, st.peer, Undo(id));
    Unseen(pol, s, w, Progress(b, st, s.next), e.sent, e.fates);
  }

  lemma UndoHasRoom(pol: Policy, w: Side, st: Station)
    requires Form(pol, w, st) && st.ops != [] && st.ops[0].Undo?
    ensures st.ops == [st.ops[0]] + st.ops[1..] && (st.ops[1..] == [] || st.ops[1..] == [MakeOffer])
  {
  }

  lemma AskingOnly(pol: Policy, s: World, w: Side)
    requires At(s, w).ops != [] && (At(s, w).ops[0].MakeOffer? || At(s, w).ops[0].MakeAnswer?)
    ensures Settle(pol, s, w).Some?
    ensures var s' := Settle(pol, s, w).value;
            s' == With(s, w, Progress(BrowserOf(pol, w), At(s, w), s.next)).(next := s'.next)
  {
    assert Inbox(s, Other(w)) + [] == Inbox(s, Other(w)) && s.tally + {} == s.tally;
  }

  /** Nothing that waits its turn behind an offer in the making needs the peer to be other than it is. */
  lemma MakingIsForeseen(pol: Policy, w: Side, st: Station, next: nat)
    requires Form(pol, w, st) && st.ops != [] && st.ops[0].MakeOffer?
    requires Onward(BrowserOf(pol, w), st.peer, MakeOffer, next) != []
    ensures var f := Foresee(BrowserOf(pol, w), st.peer, st.ops);
            && Foresee(BrowserOf(pol, w), st.peer, st.ops[1..]) == f
            && (f.peer.signal.Stable? || f.peer.signal.HaveRemoteOffer?)
            && Progress(BrowserOf(pol, w), st, next).ops == st.ops[1..] + [PutOffer(next)]
  {
    ForeseeTwo(BrowserOf(pol, w), st.peer, st.ops);
    ForeseeTwo(BrowserOf(pol, w), st.peer, st.ops[1..]);
  }

  /** Setting an offer in a settled state is a turn of its own. */
  lemma PuttingIsATurn(b: Browser, c: Call, w: Side)
    requires PeerOf(c, w).signal.Stable? || PeerOf(c, w).signal.HaveRemoteOffer?
    ensures var t := if PeerOf(c, w).signal.Stable? then Offers(w) else Fails(w);
            TakeTurn(c, t) == Some(Apply(c, w, Foretell(b, PeerOf(c, w), PutOffer(c.next))).(next := c.next + 1))
  {
  }

  /** An offer made is an offer sent, unless a remote one comes into force first. */
  lemma MakingIsATurn(pol: Policy, s: World, w: Side)
    requires Form(pol, w, At(s, w)) && At(s, w).ops != [] && At(s, w).ops[0].MakeOffer?
    requires Onward(BrowserOf(pol, w), At(s, w).peer, MakeOffer, s.next) != []
    ensures var c := Foreseen(pol, s);
            var t := if PeerOf(c, w).signal.Stable? then Offers(w) else Fails(w);
            TakeTurn(c, t) == Some(Foreseen(pol, Settle(pol, s, w).value))
  {
    var b, st := BrowserOf(pol, w), At(s, w);
    var st' := Progress(b, st, s.next);
    MakingIsForeseen(pol, w, st, s.next);
    var f := Foresee(b, st.peer, st.ops);
    ForeseeMore(b, st.peer, st.ops[1..], PutOffer(s.next));
    Seen(pol, s, w, st', Foretell(b, f.peer, PutOffer(s.next)));
    AskingOnly(pol, s, w);
    MakesOne(pol, s, w);
    PuttingIsATurn(b, Foreseen(pol, s), w);
  }

  lemma MakesOne(pol: Policy, s: World, w: Side)
    requires At(s, w).ops != [] && At(s, w).ops[0].MakeOffer?
    requires Onward(BrowserOf(pol, w), At(s, w).peer, MakeOffer, s.next) != []
    ensures Settle(pol, s, w).value.next == s.next + 1
    ensures Foreseen(pol, s).next == s.next && PeerOf(Foreseen(pol, s), w) == ForeseenOf(pol, s, w).peer
  {
  }

  /** What is asked for behind an answer in the making does not change what it answers. */
  lemma AnsweringIsForeseen(pol: Policy, w: Side, st: Station, next: nat)
    requires Form(pol, w, st) && st.ops != [] && st.ops[0].MakeAnswer?
    ensures st.peer.signal.HaveRemoteOffer?
    ensures Foresee(BrowserOf(pol, w), st.peer, st.ops) == Effect(st.peer, [], {})
    ensures Foresee(BrowserOf(pol, w), st.peer, st.ops[1..]) == Effect(st.peer, [], {})
    ensures Progress(BrowserOf(pol, w), st, next).ops == st.ops[1..] + [PutAnswer(st.peer.signal.offer)]
  {
    ForeseeTwo(BrowserOf(pol, w), st.peer, st.ops);
    ForeseeTwo(BrowserOf(pol, w), st.peer, st.ops[1..]);
  }

  lemma AnsweringIsATurn(pol: Policy, s: World, w: Side)
    requires Form(pol, w, At(s, w)) && At(s, w).ops != [] && At(s, w).ops[0].MakeAnswer?
    ensures TakeTurn(Foreseen(pol, s), Answers(w)) == Some(Foreseen(pol, Settle(pol, s, w).value))
  {
    var b, st := BrowserOf(pol, w), At(s, w);
    AnsweringIsForeseen(pol, w, st, s.next);
    var answer := PutAnswer(st.peer.signal.offer);
    ForeseeMore(b, st.peer, st.ops[1..], answer);
    Seen(pol, s, w, Progress(b, st, s.next), Foretell(b, st.peer, answer));
    AskingOnly(pol, s, w);
  }

  lemma DequeueIsForeseen(pol: Policy, s: World, w: Side)
    requires Inbox(s, w) != []
    ensures InboxOf(Foreseen(pol, s), w) != [] && InboxOf(Foreseen(pol, s), w)[0] == Inbox(s, w)[0]
    ensures Foreseen(pol, Dequeue(s, w)) == Take(Foreseen(pol, s), w)
  {
    var sent := ForeseenOf(pol, s, Other(w)).sent;
    assert (Inbox(s, w) + sent)[1..] == Inbox(s, w)[1..] + sent;
  }

  // What the shape of an exchange says about the message that comes next.

  lemma NextIsAnswer(c: Call, w: Side)
    requires Shape(c) && InboxOf(c, w) != [] && InboxOf(c, w)[0].Answer?
    ensures PeerOf(c, w).signal == HaveLocalOffer(InboxOf(c, w)[0].to)
    ensures var sent := InboxOf(c, Other(w)); sent != [] ==> sent[|sent| - 1] != Offer(InboxOf(c, w)[0].to)
  {
  }

  lemma NextIsOffer(c: Call, w: Side)
    requires Shape(c) && InboxOf(c, w) != [] && InboxOf(c, w)[0].Offer?
    ensures !PeerOf(c, w).signal.HaveRemoteOffer?
    ensures var sent := InboxOf(c, Other(w)); PeerOf(c, w).signal.Stable? && sent != [] ==> !sent[|sent| - 1].Answer?
  {
  }

  /** Remote offers behind an own one are all refused by a browser that does not give way. */
  lemma {:induction false} RefusesAll(b: Browser, me: Peer, ops: seq<Op>)
    requires me.signal.HaveLocalOffer? && !b.givesWay && AllTakes(ops)
    ensures var f := Foresee(b, me, ops); f.peer == me && f.sent == []
    decreases |ops|
  {
    if ops != [] {
      RefusesAll(b, me, ops[1..]);
    }
  }

  /** What is foreseen of a side in a disciplined call. */
  predicate Expected(w: Side, st: Station, f: Effect) {
    var n := |st.ops|;
    match st.peer.signal
    case Stable =>
      if n == 0 || (n == 1 && st.ops[0].MakeOffer?) then f.peer == st.peer && f.sent == []
      else if st.ops[0].PutOffer? && (n == 1 || w.Initiator?)
      then f.peer.signal == HaveLocalOffer(st.ops[0].id) && f.sent == [Offer(st.ops[0].id)]
      else f.peer.signal.HaveRemoteOffer?
    case HaveLocalOffer(_) =>
      if n == 0 || (w.Initiator? && AllTakes(st.ops)) then f.peer == st.peer && f.sent == []
      else if st.ops[n - 1].TakeAnswer? then f.peer.signal.Stable?
      else f.peer.signal.HaveRemoteOffer?
    case HaveRemoteOffer(o) =>
      if PutAnswer(o) in st.ops then f.peer.signal.Stable? && f.sent == [Answer(o)]
      else f.peer == st.peer && f.sent == []
    case Closed => true
  }

  lemma StableIsExpected(pol: Policy, w: Side, st: Station)
    requires Disciplined(pol) && Form(pol, w, st) && |st.ops| <= 2 && st.peer.signal.Stable?
    requires w.Initiator? && |st.ops| == 2 ==> !st.ops[0].PutOffer?
    ensures Expected(w, st, Foresee(BrowserOf(pol, w), st.peer, st.ops))
  {
    ForeseeTwo(BrowserOf(pol, w), st.peer, st.ops);
  }

  lemma AnsweringIsExpected(pol: Policy, w: Side, st: Station)
    requires Disciplined(pol) && Form(pol, w, st) && st.peer.signal.HaveRemoteOffer?
    ensures Expected(w, st, Foresee(BrowserOf(pol, w), st.peer, st.ops))
  {
    ForeseeTwo(BrowserOf(pol, w), st.peer, st.ops);
  }

  lemma AnswererIsExpected(pol: Policy, st: Station)
    requires Disciplined(pol) && Form(pol, Answerer, st) && st.peer.signal.HaveLocalOffer?
    ensures Expected(Answerer, st, Foresee(pol.answerer, st.peer, st.ops))
  {
    ForeseeTwo(pol.answerer, st.peer, st.ops);
  }

  /** An answer behind refused offers is taken all the same. */
  lemma AnswerGetsThrough(b: Browser, me: Peer, front: seq<Op>, to: nat)
    requires me.signal.HaveLocalOffer? && (front == [] || (!b.givesWay && AllTakes(front)))
    ensures Foresee(b, me, front + [TakeAnswer(to)]).peer.signal.Stable?
  {
    ForeseeMore(b, me, front, TakeAnswer(to));
    if front != [] {
      RefusesAll(b, me, front);
    }
  }

  lemma WaitingIsExpected(pol: Policy, st: Station)
    requires Disciplined(pol) && Form(pol, Initiator, st) && st.peer.signal.HaveLocalOffer? && st.ops != []
    ensures Expected(Initiator, st, Foresee(pol.initiator, st.peer, st.ops))
  {
    var b, ops, n := pol.initiator, st.ops, |st.ops|;
    if AllTakes(ops) {
      RefusesAll(b, st.peer, ops);
    } else {
      var front, to := ops[..n - 1], ops[n - 1].to;
      assert front + [TakeAnswer(to)] == ops;
      AnswerGetsThrough(b, st.peer, front, to);
    }
  }

  lemma RefusingIsExpected(pol: Policy, st: Station)
    requires Disciplined(pol) && Form(pol, Initiator, st) && st.peer.signal.Stable?
    requires |st.ops| >= 2 && st.ops[0].PutOffer?
    ensures Expected(Initiator, st, Foresee(pol.initiator, st.peer, st.ops))
  {
    RefusesAll(pol.initiator, Perform(pol.initiator, st.peer, st.ops[0]).peer, st.ops[1..]);
  }

  lemma Outlook(pol: Policy, w: Side, st: Station)
    requires Disciplined(pol) && Form(pol, w, st)
    ensures Expected(w, st, Foresee(BrowserOf(pol, w), st.peer, st.ops))
  {
    if w.Initiator? && st.peer.signal.HaveLocalOffer? {
      if st.ops != [] {
        WaitingIsExpected(pol, st);
      }
    } else if w.Initiator? && st.peer.signal.Stable? && |st.ops| >= 2 && st.ops[0].PutOffer? {
      RefusingIsExpected(pol, st);
    } else {
      match st.peer.signal
      case Stable => StableIsExpected(pol, w, st);
      case HaveLocalOffer(_) => AnswererIsExpected(pol, st);
      case HaveRemoteOffer(_) => AnsweringIsExpected(pol, w, st);
    }
  }

  lemma ForeseenSent(pol: Policy, s: World, w: Side)
    ensures var f, c := ForeseenOf(pol, s, w), Foreseen(pol, s);
            && PeerOf(c, w) == f.peer
            && (f.sent != [] ==>
                  var sent := InboxOf(c, Other(w)); sent != [] && sent[|sent| - 1] == f.sent[|f.sent| - 1])
  {
  }

  /** An answer always arrives to the offer it was made for, already set and not yet given up. */
  predicate AnswerFinds(pol: Policy, w: Side, st: Station, to: nat) {
    && st.peer.signal == HaveLocalOffer(to)
    && Foresee(BrowserOf(pol, w), st.peer, st.ops).peer == st.peer
    && (st.ops == [] || (w.Initiator? && AllTakes(st.ops)))
  }

  /** An offer arrives while none is being taken; and where the state read is out of date, that is harmless. */
  predicate OfferFinds(pol: Policy, w: Side, st: Station) {
    match st.peer.signal
    case Stable =>
      || st.ops == [] || (|st.ops| == 1 && st.ops[0].MakeOffer?)
      || (st.ops[0].PutOffer? && Harmless(pol, w) && (|st.ops| == 1 || w.Initiator?))
    case HaveLocalOffer(_) =>
      if w.Initiator? then Foresee(BrowserOf(pol, w), st.peer, st.ops).peer == st.peer
      else st.ops == [] || (|st.ops| == 1 && st.ops[0].TakeAnswer?)
    case _ => false
  }

  lemma AnswerIsExpected(pol: Policy, s: World, w: Side)
    requires Disciplined(pol) && Orderly(pol, s) && Inbox(s, w) != [] && Inbox(s, w)[0].Answer?
    ensures AnswerFinds(pol, w, At(s, w), Inbox(s, w)[0].to)
  {
    var c := Foreseen(pol, s);
    DequeueIsForeseen(pol, s, w);
    ForeseenSent(pol, s, w);
    NextIsAnswer(c, w);
    Outlook(pol, w, At(s, w));
  }

  lemma OfferFindsRoom(pol: Policy, w: Side, st: Station)
    requires Disciplined(pol) && Form(pol, w, st)
    requires Expected(w, st, Foresee(BrowserOf(pol, w), st.peer, st.ops))
    requires var f := Foresee(BrowserOf(pol, w), st.peer, st.ops);
             && !f.peer.signal.HaveRemoteOffer?
             && (f.peer.signal.Stable? && f.sent != [] ==> !f.sent[|f.sent| - 1].Answer?)
    requires (Putting(st.ops) ==> w in pol.overlaps) && (TakingAnswer(st.ops) ==> w in pol.rushes)
    ensures OfferFinds(pol, w, st)
  {
    assert st.ops != [] && st.ops[0].PutOffer? ==> Putting(st.ops);
    assert st.ops != [] && st.ops[|st.ops| - 1].TakeAnswer? ==> TakingAnswer(st.ops);
  }

  lemma OfferIsWelcome(pol: Policy, s: World, w: Side)
    requires Disciplined(pol) && Orderly(pol, s) && Inbox(s, w) != [] && Inbox(s, w)[0].Offer?
    requires Receive(pol, s, w).Some?
    ensures OfferFinds(pol, w, At(s, w))
  {
    var st, c := At(s, w), Foreseen(pol, s);
    DequeueIsForeseen(pol, s, w);
    ForeseenSent(pol, s, w);
    NextIsOffer(c, w);
    Outlook(pol, w, st);
    OfferFindsRoom(pol, w, st);
  }

  predicate Finds(pol: Policy, w: Side, st: Station, d: Description) {
    if d.Answer? then AnswerFinds(pol, w, st, d.to) else OfferFinds(pol, w, st)
  }

  /** Judged by a state that may be out of date, a message yet comes to what it would at a standstill. */
  lemma JudgedAsForeseen(pol: Policy, w: Side, st: Station, d: Description)
    requires Disciplined(pol) && Form(pol, w, st) && Finds(pol, w, st, d)
    ensures var f := Foresee(BrowserOf(pol, w), st.peer, st.ops).peer;
            match Judge(st.peer, d)
            case Some(op) => Foretell(BrowserOf(pol, w), f, op) == Receipt(f, d)
            case None => d.Offer? && Receipt(f, d) == Effect(f, [], {Ignored(d.id)})
  {
    Outlook(pol, w, st);
    if |st.ops| <= 1 {
      ForeseeTwo(BrowserOf(pol, w), st.peer, st.ops);
    }
    PolitenessStays(BrowserOf(pol, w), st.peer, st.ops);
  }

  lemma {:induction false} PolitenessStays(b: Browser, me: Peer, ops: seq<Op>)
    ensures Foresee(b, me, ops).peer.polite == me.polite
    decreases |ops|
  {
    if ops != [] {
      PolitenessStays(b, Foretell(b, me, ops[0]).peer, ops[1..]);
    }
  }

  lemma AnswerKeepsForm(pol: Policy, w: Side, st: Station, to: nat)
    requires Disciplined(pol) && Form(pol, w, st) && AnswerFinds(pol, w, st, to)
    ensures Form(pol, w, st.(ops := st.ops + [TakeAnswer(to)]))
  {
    assert (st.ops + [TakeAnswer(to)])[..|st.ops|] == st.ops;
  }

  lemma OfferKeepsForm(pol: Policy, w: Side, st: Station, id: nat)
    requires Disciplined(pol) && Form(pol, w, st) && OfferFinds(pol, w, st) && Judge(st.peer, Offer(id)).Some?
    ensures Form(pol, w, st.(ops := st.ops + [Judge(st.peer, Offer(id)).value]))
  {
    if st.ops != [] && st.ops[0].PutOffer? {
      assert (st.ops + [TakeOffer(id)])[1..] == st.ops[1..] + [TakeOffer(id)];
    }
  }

  lemma DeliveryFinds(pol: Policy, s: World, w: Side)
    requires Disciplined(pol) && Orderly(pol, s) && Inbox(s, w) != [] && Receive(pol, s, w).Some?
    ensures Form(pol, w, At(s, w)) && Finds(pol, w, At(s, w), Inbox(s, w)[0])
  {
    if Inbox(s, w)[0].Answer? {
      AnswerIsExpected(pol, s, w);
    } else {
      OfferIsWelcome(pol, s, w);
    }
  }

  lemma DeliveryKeepsForm(pol: Policy, s: World, w: Side)
    requires Disciplined(pol) && Form(pol, w, At(s, w)) && Inbox(s, w) != [] && Receive(pol, s, w).Some?
    requires Finds(pol, w, At(s, w), Inbox(s, w)[0])
    ensures Form(pol, w, At(Receive(pol, s, w).value, w))
  {
    match Inbox(s, w)[0]
    case Answer(to) => AnswerKeepsForm(pol, w, At(s, w), to);
    case Offer(id) =>
      if Judge(At(s, w).peer, Offer(id)).Some? {
        OfferKeepsForm(pol, w, At(s, w), id);
      }
  }

  lemma DeliveryIsATurn(pol: Policy, s: World, w: Side)
    requires Disciplined(pol) && Form(pol, w, At(s, w)) && Inbox(s, w) != [] && Receive(pol, s, w).Some?
    requires Finds(pol, w, At(s, w), Inbox(s, w)[0])
    ensures TakeTurn(Foreseen(pol, s), Receives(w)) == Some(Foreseen(pol, Receive(pol, s, w).value))
  {
    var b, st, d, rest := BrowserOf(pol, w), At(s, w), Inbox(s, w)[0], Dequeue(s, w);
    DequeueIsForeseen(pol, s, w);
    JudgedAsForeseen(pol, w, st, d);
    var f := Foresee(b, st.peer, st.ops);
    match Judge(st.peer, d)
    case Some(op) =>
      ForeseeMore(b, st.peer, st.ops, op);
      Seen(pol, rest, w, st.(ops := st.ops + [op]), Foretell(b, f.peer, op));
    case None =>
      IgnoringIsSeen(pol, rest, w, d.id);
  }

  lemma IgnoringIsSeen(pol: Policy, s: World, w: Side, id: nat)
    ensures var c := Foreseen(pol, s);
            var c' := Foreseen(pol, s.(tally := s.tally + {Ignored(id)}));
            c' == Apply(c, w, Effect(PeerOf(c, w), [], {Ignored(id)}))
  {
    var i, a := ForeseenOf(pol, s, Initiator), ForeseenOf(pol, s, Answerer);
    assert s.tally + {Ignored(id)} + (i.fates + a.fates) == s.tally + (i.fates + a.fates) + {Ignored(id)};
    var c := Foreseen(pol, s);
    assert c.toInitiator + [] == c.toInitiator && c.toAnswerer + [] == c.toAnswerer;
  }

  /** The turns of an exchange that one event amounts to: one, or none. */
  lemma EventIsATurn(pol: Policy, s: World, e: Event) returns (turns: seq<Turn>)
    requires Disciplined(pol) && Orderly(pol, s) && Step(pol, s, e).Some? && !e.HangUp?
    ensures |turns| <= 1
    ensures var c, c' := Foreseen(pol, s), Foreseen(pol, Step(pol, s, e).value);
            if turns == [] then c' == c else TakeTurn(c, turns[0]) == Some(c')
  {
    match e
    case StartOffer(w) =>
      StartIsUnseen(pol, s, w);
      turns := [];
    case Reply(w) =>
      ReplyIsUnseen(pol, s, w);
      turns := [];
    case Deliver(w) =>
      DeliveryFinds(pol, s, w);
      DeliveryIsATurn(pol, s, w);
      turns := [Receives(w)];
    case Resolve(w) =>
      turns := SettlingIsATurn(pol, s, w);
  }

  lemma SettlingIsATurn(pol: Policy, s: World, w: Side) returns (turns: seq<Turn>)
    requires Disciplined(pol) && Orderly(pol, s) && Settle(pol, s, w).Some?
    ensures |turns| <= 1
    ensures var c, c' := Foreseen(pol, s), Foreseen(pol, Settle(pol, s, w).value);
            if turns == [] then c' == c else TakeTurn(c, turns[0]) == Some(c')
  {
    var st := At(s, w);
    var op := st.ops[0];
    turns := [];
    if op.Undo? {
      UndoIsUnseen(pol, s, w);
    } else if Onward(BrowserOf(pol, w), st.peer, op, s.next) == [] {
      PlainIsUnseen(pol, s, w);
    } else if op.MakeOffer? {
      MakingIsATurn(pol, s, w);
      turns := [if PeerOf(Foreseen(pol, s), w).signal.Stable? then Offers(w) else Fails(w)];
    } else {
      AnsweringIsATurn(pol, s, w);
      turns := [Answers(w)];
    }
  }

  lemma EventKeepsForms(pol: Policy, s: World, e: Event)
    requires Disciplined(pol) && Orderly(pol, s) && Step(pol, s, e).Some? && !e.HangUp?
    ensures var s' := Step(pol, s, e).value;
            Form(pol, Initiator, s'.initiator) && Form(pol, Answerer, s'.answerer)
  {
    match e
    case StartOffer(w) => StartIsUnseen(pol, s, w);
    case Reply(w) => ReplyIsUnseen(pol, s, w);
    case Deliver(w) =>
      DeliveryFinds(pol, s, w);
      DeliveryKeepsForm(pol, s, w);
    case Resolve(w) => ProgressKeepsForm(pol, w, At(s, w), s.next);
  }

  lemma EventExtends(pol: Policy, s: World, e: Event, before: seq<Turn>) returns (turns: seq<Turn>)
    requires Disciplined(pol) && Orderly(pol, s) && Step(pol, s, e).Some? && !e.HangUp?
    requires TakeTurns(FRESH, before) == Some(Foreseen(pol, s))
    ensures TakeTurns(FRESH, turns) == Some(Foreseen(pol, Step(pol, s, e).value))
  {
    var more := EventIsATurn(pol, s, e);
    turns := before + more;
    assert more == [] ==> turns == before;
    assert more != [] ==> turns[..|turns| - 1] == before && turns[|turns| - 1] == more[0];
  }

  lemma StartIsOrderly(pol: Policy)
    ensures Foreseen(pol, START) == FRESH && Orderly(pol, START)
  {
  }

  lemma EventKeepsOrder(pol: Policy, s: World, e: Event, before: seq<Turn>) returns (turns: seq<Turn>)
    requires Disciplined(pol) && Orderly(pol, s) && Step(pol, s, e).Some? && !e.HangUp?
    requires TakeTurns(FRESH, before) == Some(Foreseen(pol, s))
    ensures TakeTurns(FRESH, turns) == Some(Foreseen(pol, Step(pol, s, e).value))
    ensures Orderly(pol, Step(pol, s, e).value)
  {
    turns := EventExtends(pol, s, e, before);
    EventKeepsForms(pol, s, e);
    RunKeepsShape(turns);
  }

  /**
   Refinement: however the calls of both managers are interleaved, in disciplined surroundings what they
   come to is what some exchange of whole calls comes to.
   */
  lemma {:induction false} RunIsAnExchange(pol: Policy, events: seq<Event>) returns (turns: seq<Turn>)
    requires Disciplined(pol)
    requires Run(pol, START, events).Some? && Open(Run(pol, START, events).value)
    ensures TakeTurns(FRESH, turns) == Some(Foreseen(pol, Run(pol, START, events).value))
    ensures Orderly(pol, Run(pol, START, events).value)
  {
    if events == [] {
      turns := [];
      StartIsOrderly(pol);
    } else {
      var n := |events| - 1;
      var s := Run(pol, START, events[..n]).value;
      WasOpen(pol, s, events[n]);
      var before := RunIsAnExchange(pol, events[..n]);
      turns := EventKeepsOrder(pol, s, events[n], before);
    }
  }
}
