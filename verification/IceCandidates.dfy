/**
 The queue of early ICE candidates under every interleaving (apps/web/src/lib/webrtc.ts:416-448, 630-634).
 A candidate is known by its place in the order of arrival. Handing one to the connection is synchronous;
 a flush then waits for each before it goes on, so anything may happen in between.
 */
module IceCandidates {
  datatype Handed = Handed(id: nat, early: bool)

  datatype Ice = Ice(
    remote: bool,             // hasRemoteDescription
    pending: seq<nat>,        // pendingCandidates
    flushes: seq<seq<nat>>,   // suspended flushes, each with what it has yet to hand over
    handed: seq<Handed>,      // calls of the connection's own addIceCandidate, in order
    dropped: seq<nat>,        // thrown away by close()
    arrived: nat)

  const FRESH := Ice(false, [], [], [], [], 0)

  /** Whether the connection accepts a candidate is up to it, and changes nothing here. */
  datatype Event =
    | Arrive(accepted: bool)
    | Describe(accepted: bool)          // a description was applied: the queue is taken and its head handed over
    | Skip                              // a description was skipped or failed
    | Resume(flush: nat, accepted: bool)
    | Close

  function Step(s: Ice, e: Event): Ice {
    match e
    case Arrive(_) =>
      if s.remote then s.(handed := s.handed + [Handed(s.arrived, false)], arrived := s.arrived + 1)
      else s.(pending := s.pending + [s.arrived], arrived := s.arrived + 1)
    case Describe(_) =>
      var queued := s.pending;
      if queued == [] then s.(remote := true)
      else s.(remote := true, pending := [], flushes := s.flushes + [queued[1..]],
              handed := s.handed + [Handed(queued[0], true)])
    case Skip => s
    case Resume(k, _) =>
      if k >= |s.flushes| then s
      else if s.flushes[k] == [] then s.(flushes := s.flushes[..k] + s.flushes[k + 1..])
      else s.(flushes := s.flushes[k := s.flushes[k][1..]], handed := s.handed + [Handed(s.flushes[k][0], true)])
    case Close => s.(pending := [], dropped := s.dropped + s.pending)
  }

  function Run(s: Ice, events: seq<Event>): Ice {
    if events == [] then s else Step(Run(s, events[..|events| - 1]), events[|events| - 1])
  }

  /** The candidates handed over from the queue (`early`) or on arrival, in order. */
  function Log(handed: seq<Handed>, early: bool): seq<nat> {
    if handed == [] then [] else
    var last := handed[|handed| - 1];
    Log(handed[..|handed| - 1], early) + (if last.early == early then [last.id] else [])
  }

  function Flushing(flushes: seq<seq<nat>>): seq<nat> {
    if flushes == [] then [] else flushes[0] + Flushing(flushes[1..])
  }

  /** The numbers `from, ..., to - 1`. */
  function Range(from: nat, to: nat): (r: seq<nat>)
    requires from <= to
    ensures |r| == to - from && forall i :: 0 <= i < |r| ==> r[i] == from + i
  {
    seq(to - from, i requires 0 <= i => from + i)
  }

  lemma LogOfMore(handed: seq<Handed>, h: Handed, early: bool)
    ensures Log(handed + [h], early) == Log(handed, early) + (if h.early == early then [h.id] else [])
  {
    assert (handed + [h])[..|handed|] == handed;
  }

  /** Early candidates, in order: thrown away, handed over, being flushed, still queued. */
  function Queue(s: Ice): seq<nat> {
    s.dropped + Log(s.handed, true) + Flushing(s.flushes) + s.pending
  }

  /** Every arrival is in exactly one place, and in its place. */
  predicate Conserved(s: Ice) {
    && |s.flushes| <= 1
    && (s.remote ==> s.pending == [])
    && (!s.remote ==> s.flushes == [] && s.handed == [])
    && |Queue(s)| <= s.arrived
    && Queue(s) == Range(0, |Queue(s)|)
    && Log(s.handed, false) == Range(|Queue(s)|, s.arrived)
  }

  lemma SingleFlush(f: seq<nat>)
    ensures Flushing([f]) == f
  {
    assert [f][1..] == [];
  }

  lemma DescribeKeepsQueue(s: Ice, e: Event)
    requires Conserved(s) && e.Describe?
    ensures Queue(Step(s, e)) == Queue(s) && |Step(s, e).flushes| <= 1
  {
    if s.pending != [] {
      var head, tail := s.pending[0], s.pending[1..];
      LogOfMore(s.handed, Handed(head, true), true);
      SingleFlush(tail);
      assert s.flushes + [tail] == [tail] && s.handed == [];
      assert Queue(s) == s.dropped + ([head] + tail);
      assert Queue(Step(s, e)) == s.dropped + [head] + tail;
    }
  }

  /** Handing over the head of a flush moves one candidate from the flush to the log. */
  lemma HeadMoves(dropped: seq<nat>, log: seq<nat>, f: seq<nat>, pending: seq<nat>)
    requires f != []
    ensures dropped + (log + [f[0]]) + f[1..] + pending == dropped + log + f + pending
  {
    assert [f[0]] + f[1..] == f;
    assert log + ([f[0]] + f[1..]) == (log + [f[0]]) + f[1..];
  }

  lemma ResumeKeepsQueue(s: Ice, e: Event)
    requires |s.flushes| == 1 && e.Resume? && e.flush == 0
    ensures Queue(Step(s, e)) == Queue(s) && |Step(s, e).flushes| <= 1
  {
    var f, s' := s.flushes[0], Step(s, e);
    assert s.flushes == [f];
    SingleFlush(f);
    if f == [] {
      assert s'.flushes == [];
    } else {
      assert s'.flushes == [f[1..]];
      SingleFlush(f[1..]);
      LogOfMore(s.handed, Handed(f[0], true), true);
      HeadMoves(s.dropped, Log(s.handed, true), f, s.pending);
    }
  }

  lemma ArrivalGrowsQueue(s: Ice, e: Event)
    requires e.Arrive?
    ensures Queue(Step(s, e)) == Queue(s) + (if s.remote then [] else [s.arrived])
  {
    if s.remote {
      LogOfMore(s.handed, Handed(s.arrived, false), true);
    } else {
      assert Queue(Step(s, e)) == s.dropped + Log(s.handed, true) + Flushing(s.flushes) + (s.pending + [s.arrived]);
    }
  }

  lemma CloseKeepsQueue(s: Ice, e: Event)
    requires Conserved(s) && e.Close?
    ensures Queue(Step(s, e)) == Queue(s)
  {
    if s.remote {
      assert s.dropped + s.pending == s.dropped;
    } else {
      assert Queue(s) == s.dropped + s.pending && Queue(Step(s, e)) == s.dropped + s.pending;
    }
  }

  /** Only an arrival before the first description lengthens the queue; nothing else moves within it. */
  lemma QueueGrows(s: Ice, e: Event)
    requires Conserved(s)
    ensures Queue(Step(s, e)) == Queue(s) + (if e.Arrive? && !s.remote then [s.arrived] else [])
    ensures |Step(s, e).flushes| <= 1
  {
    assert Queue(s) + [] == Queue(s);
    match e
    case Arrive(_) => ArrivalGrowsQueue(s, e);
    case Describe(_) => DescribeKeepsQueue(s, e);
    case Skip =>
    case Resume(k, _) => if k < |s.flushes| { ResumeKeepsQueue(s, e); }
    case Close => CloseKeepsQueue(s, e);
  }

  lemma RangeGrows(from: nat, to: nat)
    requires from <= to
    ensures Range(from, to + 1) == Range(from, to) + [to]
  {
  }

  /** Only an arrival after the first description lengthens the log of direct candidates. */
  lemma LaterLogGrows(s: Ice, e: Event)
    ensures Log(Step(s, e).handed, false) == Log(s.handed, false) + (if e.Arrive? && s.remote then [s.arrived] else [])
  {
    var s' := Step(s, e);
    if s'.handed != s.handed {
      LogOfMore(s.handed, s'.handed[|s.handed|], false);
    }
  }

  lemma ArrivalKeepsConserved(s: Ice, e: Event)
    requires Conserved(s) && e.Arrive?
    requires Queue(Step(s, e)) == Queue(s) + (if s.remote then [] else [s.arrived])
    requires Log(Step(s, e).handed, false) == Log(s.handed, false) + (if s.remote then [s.arrived] else [])
    ensures Conserved(Step(s, e))
  {
    if s.remote {
      assert Queue(s) + [] == Queue(s);
      RangeGrows(|Queue(s)|, s.arrived);
    } else {
      assert Log(s.handed, false) == [] && Log(s.handed, false) + [] == [];
      assert |Queue(s)| == s.arrived;
      RangeGrows(0, s.arrived);
    }
  }

  /** Where neither the queue nor the log of direct candidates changes, there is nothing to conserve. */
  lemma OthersKeepConserved(s: Ice, e: Event)
    requires Conserved(s) && !e.Arrive?
    requires Queue(Step(s, e)) == Queue(s) && Log(Step(s, e).handed, false) == Log(s.handed, false)
    requires |Step(s, e).flushes| <= 1
    ensures Conserved(Step(s, e))
  {
    assert Step(s, e).arrived == s.arrived;
  }

  lemma StepKeepsConserved(s: Ice, e: Event)
    requires Conserved(s)
    ensures Conserved(Step(s, e))
  {
    QueueGrows(s, e);
    LaterLogGrows(s, e);
    if e.Arrive? {
      ArrivalKeepsConserved(s, e);
    } else {
      assert Queue(s) + [] == Queue(s) && Log(s.handed, false) + [] == Log(s.handed, false);
      OthersKeepConserved(s, e);
    }
  }

  /**
   For every interleaving: the early candidates are handed over in arrival order and so are the later
   ones, each candidate once, with none lost but those `close()` discards.
   */
  lemma {:induction false} RunConserves(events: seq<Event>)
    ensures Conserved(Run(FRESH, events))
  {
    if events == [] {
      assert Queue(FRESH) == [];
    } else {
      RunConserves(events[..|events| - 1]);
      StepKeepsConserved(Run(FRESH, events[..|events| - 1]), events[|events| - 1]);
    }
  }

  function Ids(handed: seq<Handed>): seq<nat> {
    seq(|handed|, i requires 0 <= i < |handed| => handed[i].id)
  }

  lemma IdsOfMore(front: seq<Handed>, last: Handed)
    ensures multiset(Ids(front + [last])) == multiset(Ids(front)) + multiset{last.id}
  {
    assert Ids(front + [last]) == Ids(front) + [last.id];
  }

  lemma {:induction false} LogsPartition(handed: seq<Handed>)
    ensures multiset(Ids(handed)) == multiset(Log(handed, true)) + multiset(Log(handed, false))
  {
    if handed != [] {
      var front, last := handed[..|handed| - 1], handed[|handed| - 1];
      LogsPartition(front);
      IdsOfMore(front, last);
      assert front + [last] == handed;
      if last.early {
        assert Log(handed, true) == Log(front, true) + [last.id] && Log(handed, false) == Log(front, false);
      } else {
        assert Log(handed, true) == Log(front, true) && Log(handed, false) == Log(front, false) + [last.id];
      }
    }
  }

  lemma {:induction false} NothingDropped(events: seq<Event>)
    requires Close !in events
    ensures Run(FRESH, events).dropped == []
  {
    if events != [] {
      NothingDropped(events[..|events| - 1]);
    }
  }

  lemma RangeSplit(from: nat, mid: nat, to: nat)
    requires from <= mid <= to
    ensures Range(from, mid) + Range(mid, to) == Range(from, to)
  {
  }

  lemma Regroup(all: multiset<nat>, a: seq<nat>, b: seq<nat>, c: seq<nat>, d: seq<nat>)
    requires all == multiset(a) + multiset(d)
    ensures all + multiset(b) + multiset(c) == multiset((a + b + c) + d)
  {
  }

  /** Before `close`, what arrived is what was handed over, is being flushed, or is queued, once each. */
  lemma EachExactlyOnce(events: seq<Event>)
    requires Close !in events
    ensures var s := Run(FRESH, events);
            multiset(Ids(s.handed)) + multiset(Flushing(s.flushes)) + multiset(s.pending)
            == multiset(Range(0, s.arrived))
  {
    var s := Run(FRESH, events);
    RunConserves(events);
    NothingDropped(events);
    var early, flushing, later := Log(s.handed, true), Flushing(s.flushes), Log(s.handed, false);
    assert [] + early == early;
    assert Queue(s) == early + flushing + s.pending;
    RangeSplit(0, |Queue(s)|, s.arrived);
    assert multiset(Ids(s.handed)) == multiset(early) + multiset(later) by { LogsPartition(s.handed); }
    Regroup(multiset(Ids(s.handed)), early, flushing, s.pending, later);
  }

  lemma {:induction false} DescribedIsRemote(events: seq<Event>)
    ensures Run(FRESH, events).remote <==> exists i :: 0 <= i < |events| && events[i].Describe?
  {
    if events != [] {
      var n := |events| - 1;
      DescribedIsRemote(events[..n]);
      assert events[..n] + [events[n]] == events;
      if exists i :: 0 <= i < n && events[..n][i].Describe? {
        var i :| 0 <= i < n && events[..n][i].Describe?;
        assert events[i].Describe?;
      }
      if Run(FRESH, events[..n]).remote || events[n].Describe? {
        assert exists i :: 0 <= i < |events| && events[i].Describe?;
      }
    }
  }

  /** Once a description has been applied nothing waits any longer but for a flush: when none is under way,
      everything that has arrived has been handed over, and before it nothing has. */
  lemma DescribedHandsOver(events: seq<Event>)
    requires Close !in events
    ensures var s, described := Run(FRESH, events), exists i :: 0 <= i < |events| && events[i].Describe?;
            && (described && Flushing(s.flushes) == [] ==> multiset(Ids(s.handed)) == multiset(Range(0, s.arrived)))
            && (!described ==> s.handed == [] && s.pending == Range(0, s.arrived))
  {
    var s := Run(FRESH, events);
    DescribedIsRemote(events);
    RunConserves(events);
    NothingDropped(events);
    if s.remote {
      EachExactlyOnce(events);
    } else {
      assert Queue(s) == s.pending;
      assert |Range(|Queue(s)|, s.arrived)| == 0;
    }
  }

  /** A later candidate can overtake an earlier one during a flush. */
  lemma OvertakingHappens() returns (events: seq<Event>)
    ensures Ids(Run(FRESH, events).handed) == [0, 2, 1]
  {
    var e0 := [Arrive(true)];
    var e1 := e0 + [Arrive(true)];
    var e2 := e1 + [Describe(true)];
    var e3 := e2 + [Arrive(true)];
    events := e3 + [Resume(0, true)];
    assert events[..4] == e3 && e3[..3] == e2 && e2[..2] == e1 && e1[..1] == e0 && e0[..0] == [];
    assert Run(FRESH, e0) == FRESH.(pending := [0], arrived := 1);
    assert Run(FRESH, e1) == FRESH.(pending := [0, 1], arrived := 2);
    assert Run(FRESH, e2) == Ice(true, [], [[1]], [Handed(0, true)], [], 2);
    assert Run(FRESH, e3) == Ice(true, [], [[1]], [Handed(0, true), Handed(2, false)], [], 3);
  }

  lemma HandOver(s: Ice, f: seq<nat>)
    requires s.flushes == [f] && f != []
    ensures var s1 := Step(s, Resume(0, true));
            && s1 == s.(flushes := [f[1..]], handed := s1.handed)
            && Ids(s1.handed) + f[1..] == Ids(s.handed) + f
  {
    var s1 := Step(s, Resume(0, true));
    assert s1.flushes == [f[1..]];
    assert Ids(s1.handed) == Ids(s.handed) + [f[0]];
    assert Ids(s.handed) + f == Ids(s.handed) + ([f[0]] + f[1..]);
  }

  /** Left alone, a flush hands over the whole queue in order: what the sequential method promises. */
  lemma {:induction false} UninterruptedFlush(s: Ice, f: seq<nat>) returns (events: seq<Event>)
    requires s.flushes == [f]
    ensures var s' := Run(s, events);
            && s' == s.(flushes := [], handed := s'.handed)
            && Ids(s'.handed) == Ids(s.handed) + f
    decreases f
  {
    var e := Resume(0, true);
    if f == [] {
      events := [e];
      assert events[..0] == [];
      assert Run(s, events) == Step(s, e);
    } else {
      HandOver(s, f);
      var rest := UninterruptedFlush(Step(s, e), f[1..]);
      events := [e] + rest;
      RunAfter(s, e, rest);
    }
  }

  lemma {:induction false} RunAfter(s: Ice, e: Event, rest: seq<Event>)
    ensures Run(s, [e] + rest) == Run(Step(s, e), rest)
  {
    if rest == [] {
      assert ([e] + rest)[..0] == [];
    } else {
      RunAfter(s, e, rest[..|rest| - 1]);
      assert ([e] + rest)[..|rest|] == [e] + rest[..|rest| - 1];
    }
  }
}
