/**
 What glare resolution promises, and exactly when the promise is kept
 (apps/web/src/lib/webrtc.ts:239-248, 376-420).
 */
module Glare {
  import opened Options
  import opened Signaling
  import opened Exchange
  import opened Interleaving
  import opened Foresight
  import opened Patience
  import opened Mishaps

  /** In a run that both ends stay in, a quiet moment finds both stable. */
  ghost predicate NeverStuck(pol: Policy) {
    forall events :: var r := Run(pol, START, events);
      r.Some? && Open(r.value) && Quiescent(r.value) ==> BothStable(r.value)
  }

  /** And holding one offer with the answer made for it. */
  ghost predicate AlwaysAgrees(pol: Policy) {
    forall events :: var r := Run(pol, START, events);
      r.Some? && Open(r.value) && Quiescent(r.value) ==> Agreed(r.value)
  }

  lemma StuckRun(pol: Policy) returns (s: World, events: seq<Event>)
    requires !Relenting(pol)
    ensures Run(pol, START, events) == Some(s) && Open(s) && Quiescent(s) && !BothStable(s)
  {
    if Initiator in pol.rushes {
      s, events := RushStrands(pol);
    } else if !pol.answerer.rollsBack {
      s, events := DeadlockWithoutRollback(pol);
    } else if Answerer in pol.overlaps {
      s, events := OverlapDeadlocks(pol);
    } else {
      s, events := ReofferDeadlocks(pol);
    }
  }

  lemma DisagreeingRun(pol: Policy) returns (s: World, events: seq<Event>)
    requires !Disciplined(pol)
    ensures Run(pol, START, events) == Some(s) && Open(s) && Quiescent(s) && !Agreed(s)
  {
    if pol.reoffers != {} {
      var w :| w in pol.reoffers;
      s, events := ReofferDisagrees(pol, w);
    } else if Relenting(pol) {
      s, events := OverlapDisagrees(pol);
    } else {
      s, events := StuckRun(pol);
    }
  }

  /**
   Nobody is left waiting exactly if the initiator takes no offer while it applies an answer, and the
   answerer's browser gives way to a remote offer or can be made to in time.
   */
  lemma NeverStuckExactly(pol: Policy)
    ensures NeverStuck(pol) <==> Relenting(pol)
  {
    if Relenting(pol) {
      forall events | Run(pol, START, events).Some? && Open(Run(pol, START, events).value)
        ensures Quiescent(Run(pol, START, events).value) ==> BothStable(Run(pol, START, events).value)
      {
        RunKeepsHope(pol, events);
        if Quiescent(Run(pol, START, events).value) {
          HopeEndsStable(pol, Run(pol, START, events).value);
        }
      }
    } else {
      var s, events := StuckRun(pol);
      assert Run(pol, START, events).value == s;
    }
  }

  /** At rest a world is what it was foreseen to be. */
  lemma RestIsForeseen(pol: Policy, s: World)
    requires Quiescent(s)
    ensures Foreseen(pol, s) == Call(s.initiator.peer, s.answerer.peer, [], [], s.next, s.tally)
  {
    assert s.tally + ({} + {}) == s.tally;
  }

  lemma OrderlyRestAgrees(pol: Policy, s: World)
    requires Orderly(pol, s) && Quiescent(s)
    ensures Agreed(s)
  {
    RestIsForeseen(pol, s);
  }

  /**
   However often both sides restart at once, and however their calls interleave, a quiet call has both ends
   stable on one offer and its answer, exactly in disciplined surroundings.
   */
  lemma AlwaysAgreesExactly(pol: Policy)
    ensures AlwaysAgrees(pol) <==> Disciplined(pol)
  {
    if Disciplined(pol) {
      forall events | Run(pol, START, events).Some? && Open(Run(pol, START, events).value)
        ensures Quiescent(Run(pol, START, events).value) ==> Agreed(Run(pol, START, events).value)
      {
        var _ := RunIsAnExchange(pol, events);
        if Quiescent(Run(pol, START, events).value) {
          OrderlyRestAgrees(pol, Run(pol, START, events).value);
        }
      }
    } else {
      var s, events := DisagreeingRun(pol);
      assert Run(pol, START, events).value == s;
    }
  }

  /** In a disciplined call no answer is ever stale, and each one fits the offer it meets. */
  lemma AnswersFit(pol: Policy, events: seq<Event>, w: Side)
    requires Disciplined(pol)
    requires Run(pol, START, events).Some? && Open(Run(pol, START, events).value)
    requires var s := Run(pol, START, events).value; Inbox(s, w) != [] && Inbox(s, w)[0].Answer?
    ensures var s := Run(pol, START, events).value;
            At(s, w).peer.signal == HaveLocalOffer(Inbox(s, w)[0].to)
  {
    var _ := RunIsAnExchange(pol, events);
    AnswerIsExpected(pol, Run(pol, START, events).value, w);
  }

  lemma ShapeIsSmall(c: Call)
    requires Shape(c)
    ensures |c.toAnswerer| <= 2 && |c.toInitiator| <= 3 && |c.toAnswerer| + |c.toInitiator| <= 3
  {
  }

  /** Nor does the backlog grow: three descriptions at most are ever in flight. */
  lemma BacklogBounded(pol: Policy, events: seq<Event>)
    requires Disciplined(pol)
    requires Run(pol, START, events).Some? && Open(Run(pol, START, events).value)
    ensures var s := Run(pol, START, events).value;
            |s.toAnswerer| <= 2 && |s.toInitiator| <= 3 && |s.toAnswerer| + |s.toInitiator| <= 3
  {
    var _ := RunIsAnExchange(pol, events);
    ShapeIsSmall(Foreseen(pol, Run(pol, START, events).value));
  }

  /** Every offer ever made is accounted for once all that is under way has settled. */
  lemma EveryOfferCounted(pol: Policy, events: seq<Event>)
    requires Disciplined(pol)
    requires Run(pol, START, events).Some? && Open(Run(pol, START, events).value)
    ensures Ledger(Foreseen(pol, Run(pol, START, events).value))
  {
    var turns := RunIsAnExchange(pol, events);
    RunKeepsLedger(turns);
  }

  /**
   At rest every offer made is completed, ignored or abandoned, and never two of them; and the ones ignored
   are exactly those their maker rolled back.
   */
  lemma QuietLedger(pol: Policy, events: seq<Event>, i: nat)
    requires Disciplined(pol)
    requires Run(pol, START, events).Some? && Open(Run(pol, START, events).value)
    requires Quiescent(Run(pol, START, events).value)
    ensures var s := Run(pol, START, events).value;
            && (Ignored(i) in s.tally <==> RolledBack(i) in s.tally)
            && (i < s.next <==> Completed(i) in s.tally || Ignored(i) in s.tally || Abandoned(i) in s.tally)
            && !(Completed(i) in s.tally && Ignored(i) in s.tally)
            && !(Completed(i) in s.tally && Abandoned(i) in s.tally)
            && !(Ignored(i) in s.tally && Abandoned(i) in s.tally)
  {
    var s := Run(pol, START, events).value;
    var _ := RunIsAnExchange(pol, events);
    EveryOfferCounted(pol, events);
    RestIsForeseen(pol, s);
    OrderlyRestAgrees(pol, s);
    assert OfferLedger(Foreseen(pol, s), i);
  }

  // ---------------------------------------------------------------------------------------------
  // Convergence: once no new offers start, every step uses up some of a finite amount of work.
  // ---------------------------------------------------------------------------------------------

  function Burden(op: Op): nat {
    match op
    case MakeOffer => 10
    case PutOffer(_) => 9
    case Undo(_) => 7
    case TakeOffer(_) => 6
    case MakeAnswer => 4
    case PutAnswer(_) => 3
    case TakeAnswer(_) => 1
  }

  function OpsLoad(ops: seq<Op>): nat {
    if ops == [] then 0 else Burden(ops[0]) + OpsLoad(ops[1..])
  }

  function Load(s: seq<Description>): nat {
    if s == [] then 0 else (if s[0].Offer? then 8 else 2) + Load(s[1..])
  }

  /** Work left: each operation and each message outweighs all that it can still give rise to. */
  function Work(s: World): nat {
    Load(s.toInitiator) + Load(s.toAnswerer)
    + OpsLoad(s.initiator.ops) + OpsLoad(s.answerer.ops) + 5 * s.initiator.owes + 5 * s.answerer.owes
  }

  predicate Settling(e: Event) {
    e.Deliver? || e.Reply? || e.Resolve?
  }

  lemma {:induction false} LoadOfSent(s: seq<Description>, d: Description)
    ensures Load(s + [d]) == Load(s) + (if d.Offer? then 8 else 2)
  {
    if s == [] {
      assert [] + [d] == [d];
    } else {
      assert (s + [d])[1..] == s[1..] + [d];
      LoadOfSent(s[1..], d);
    }
  }

  lemma {:induction false} LoadOfAsked(ops: seq<Op>, op: Op)
    ensures OpsLoad(ops + [op]) == OpsLoad(ops) + Burden(op)
  {
    if ops == [] {
      assert [] + [op] == [op];
    } else {
      assert (ops + [op])[1..] == ops[1..] + [op];
      LoadOfAsked(ops[1..], op);
    }
  }

  lemma LoadOfEffect(ops: seq<Op>, on: seq<Op>, box: seq<Description>, sent: seq<Description>)
    requires |on| <= 1 && |sent| <= 1
    ensures OpsLoad(ops + on) == OpsLoad(ops) + OpsLoad(on) && Load(box + sent) == Load(box) + Load(sent)
  {
    if on == [] {
      assert ops + on == ops;
    } else {
      assert on == [on[0]];
      LoadOfAsked(ops, on[0]);
    }
    if sent == [] {
      assert box + sent == box;
    } else {
      assert sent == [sent[0]];
      LoadOfSent(box, sent[0]);
    }
  }

  /** What an operation sends, goes on with and owes is less than itself. */
  lemma EffectIsLighter(b: Browser, st: Station, next: nat)
    requires st.ops != []
    ensures var sent, on := Perform(b, st.peer, st.ops[0]).sent, Onward(b, st.peer, st.ops[0], next);
            && |sent| <= 1 && |on| <= 1
            && Load(sent) + OpsLoad(on) + 5 * Progress(b, st, next).owes < Burden(st.ops[0]) + 5 * st.owes
  {
  }

  lemma ResolvingUsesWork(pol: Policy, s: World, w: Side)
    requires Settle(pol, s, w).Some?
    ensures Work(Settle(pol, s, w).value) < Work(s)
  {
    var b, st := BrowserOf(pol, w), At(s, w);
    EffectIsLighter(b, st, s.next);
    LoadOfEffect(
      st.ops[1..], Onward(b, st.peer, st.ops[0], s.next), Inbox(s, Other(w)), Perform(b, st.peer, st.ops[0]).sent);
  }

  lemma SettlingUsesWork(pol: Policy, s: World, e: Event)
    requires Settling(e) && Step(pol, s, e).Some?
    ensures Work(Step(pol, s, e).value) < Work(s)
  {
    match e
    case Deliver(w) =>
      if Judge(At(s, w).peer, Inbox(s, w)[0]).Some? {
        LoadOfAsked(At(s, w).ops, Judge(At(s, w).peer, Inbox(s, w)[0]).value);
      }
    case Reply(w) => LoadOfAsked(At(s, w).ops, MakeAnswer);
    case Resolve(w) => ResolvingUsesWork(pol, s, w);
  }

  /** Any policy: a run in which no offer starts is no longer than the work it started with. */
  lemma {:induction false} SettlingEnds(pol: Policy, s: World, events: seq<Event>)
    requires Run(pol, s, events).Some? && forall e :: e in events ==> Settling(e)
    ensures |events| + Work(Run(pol, s, events).value) <= Work(s)
  {
    if events != [] {
      var front := events[..|events| - 1];
      SettlingEnds(pol, s, front);
      SettlingUsesWork(pol, Run(pol, s, front).value, events[|events| - 1]);
    }
  }

  /** Where nothing more can settle, nothing is in flight, under way or owed. */
  lemma SettledIsQuiescent(pol: Policy, s: World)
    requires Open(s)
    ensures Quiescent(s) <==> forall e :: Settling(e) ==> Step(pol, s, e) == None
  {
    if forall e :: Settling(e) ==> Step(pol, s, e) == None {
      assert Step(pol, s, Resolve(Initiator)) == None && Step(pol, s, Resolve(Answerer)) == None;
      assert Step(pol, s, Reply(Initiator)) == None && Step(pol, s, Reply(Answerer)) == None;
      assert !Putting([]) && !TakingAnswer([]);
      assert Step(pol, s, Deliver(Initiator)) == None && Step(pol, s, Deliver(Answerer)) == None;
    }
  }

  lemma {:induction false} RunAppend(pol: Policy, s: World, a: seq<Event>, b: seq<Event>)
    requires Run(pol, s, a).Some?
    ensures Run(pol, s, a + b) == Run(pol, Run(pol, s, a).value, b)
  {
    if b == [] {
      assert a + b == a;
    } else {
      var front, e, all := b[..|b| - 1], b[|b| - 1], a + b;
      RunAppend(pol, s, a, front);
      assert all[..|all| - 1] == a + front && all[|all| - 1] == e;
      assert Run(pol, s, all) == StepFrom(pol, Run(pol, s, a + front), e);
    }
  }

  /**
   Convergence. From any point of a disciplined call, once offers stop, at most `Work` steps remain, and
   whenever none is left both ends agree.
   */
  lemma Converges(pol: Policy, before: seq<Event>, after: seq<Event>)
    requires Disciplined(pol) && Run(pol, START, before).Some?
    requires Run(pol, Run(pol, START, before).value, after).Some? && forall e :: e in after ==> Settling(e)
    ensures |after| <= Work(Run(pol, START, before).value)
    ensures var s := Run(pol, Run(pol, START, before).value, after).value;
            Open(s) && (forall e :: Settling(e) ==> Step(pol, s, e) == None) ==> Agreed(s)
  {
    var start := Run(pol, START, before).value;
    var end := Run(pol, start, after).value;
    SettlingEnds(pol, start, after);
    RunAppend(pol, START, before, after);
    if Open(end) && forall e :: Settling(e) ==> Step(pol, end, e) == None {
      SettledIsQuiescent(pol, end);
      var _ := RunIsAnExchange(pol, before + after);
      OrderlyRestAgrees(pol, end);
    }
  }
}
