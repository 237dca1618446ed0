/**
 Call quality: reading a stats report, the loss rate per window, and the overall grade
 (apps/web/src/lib/webrtc.ts:170-191, 542-627). Times and rates are real numbers.
 */
module Quality {
  import opened Options

  datatype Level = Great | Good | Poor | Bad

  datatype Metrics = Metrics(rttMs: Option<real>, loss: Option<real>, jitterMs: Option<real>)

  /** Position in a scale cut at `a < b < c`. */
  function Rank(x: real, a: real, b: real, c: real): nat {
    if x < a then 0 else if x < b then 1 else if x < c then 2 else 3
  }

  function LevelRank(l: Level): nat {
    match l case Great => 0 case Good => 1 case Poor => 2 case Bad => 3
  }

  /** No metric at all grades good; otherwise some metric has the grade, and none is worse. */
  predicate Grades(m: Metrics, l: Level) {
    var ranks := Ranks(m);
    if ranks == [] then l == Good
    else LevelRank(l) in ranks && forall r :: r in ranks ==> r <= LevelRank(l)
  }

  function Ranks(m: Metrics): seq<nat> {
    (if m.rttMs.Some? then [Rank(m.rttMs.value, 150.0, 300.0, 500.0)] else []) +
    (if m.loss.Some? then [Rank(m.loss.value, 0.02, 0.05, 0.1)] else []) +
    (if m.jitterMs.Some? then [Rank(m.jitterMs.value, 30.0, 50.0, 100.0)] else [])
  }

  /** `Math.max(...ranks)` */
  method Worst(ranks: seq<nat>) returns (worst: nat)
    requires ranks != []
    ensures worst in ranks && forall r :: r in ranks ==> r <= worst
  {
    worst := ranks[0];
    for i := 1 to |ranks|
      invariant worst in ranks
      invariant forall j :: 0 <= j < i ==> ranks[j] <= worst
    {
      if ranks[i] > worst {
        worst := ranks[i];
      }
    }
  }

  lemma RanksAreRanks(m: Metrics)
    ensures forall r :: r in Ranks(m) ==> r <= 3
  {
  }

  predicate NoBetter(x: Option<real>, y: Option<real>) {
    x.Some? ==> y.Some? && x.value <= y.value
  }

  const NO_METRICS := Metrics(None, None, None)

  /** Below its first cut, if it is there. */
  predicate Fine(x: Option<real>, cut: real) {
    x.Some? ==> x.value < cut
  }

  lemma Ranked(m: Metrics)
    ensures m.rttMs.Some? ==> Rank(m.rttMs.value, 150.0, 300.0, 500.0) in Ranks(m)
    ensures m.loss.Some? ==> Rank(m.loss.value, 0.02, 0.05, 0.1) in Ranks(m)
    ensures m.jitterMs.Some? ==> Rank(m.jitterMs.value, 30.0, 50.0, 100.0) in Ranks(m)
    ensures Ranks(m) == [] <==> m == NO_METRICS
  {
    if m.jitterMs.Some? {
      assert Ranks(m)[|Ranks(m)| - 1] == Rank(m.jitterMs.value, 30.0, 50.0, 100.0);
    }
  }

  /** Every metric there is lies below its cut. */
  predicate Below(m: Metrics, rttMs: real, loss: real, jitterMs: real) {
    Fine(m.rttMs, rttMs) && Fine(m.loss, loss) && Fine(m.jitterMs, jitterMs)
  }

  /** The grade by the cuts that all metrics keep below; good without any. */
  predicate GradedByCuts(m: Metrics, l: Level) {
    l == if m == NO_METRICS then Good
         else if Below(m, 150.0, 0.02, 30.0) then Great
         else if Below(m, 300.0, 0.05, 50.0) then Good
         else if Below(m, 500.0, 0.1, 100.0) then Poor
         else Bad
  }

  /** The worst rank decides, which comes to these cuts. */
  lemma GradesExactly(m: Metrics)
    ensures forall l :: Grades(m, l) <==> GradedByCuts(m, l)
  {
    Ranked(m);
  }

  method ScoreQuality(m: Metrics) returns (l: Level)
    ensures Grades(m, l) && GradedByCuts(m, l)
  {
    GradesExactly(m);
    var ranks: seq<nat> := if m.rttMs.Some? then [Rank(m.rttMs.value, 150.0, 300.0, 500.0)] else [];
    ranks := ranks + (if m.loss.Some? then [Rank(m.loss.value, 0.02, 0.05, 0.1)] else []);
    ranks := ranks + (if m.jitterMs.Some? then [Rank(m.jitterMs.value, 30.0, 50.0, 100.0)] else []);
    assert ranks == Ranks(m);
    if |ranks| == 0 {
      return Good;
    }
    RanksAreRanks(m);
    var worst := Worst(ranks);
    l := if worst == 0 then Great else if worst == 1 then Good else if worst == 2 then Poor else Bad;
    assert LevelRank(l) == worst;
  }

  /** Great is the grade of metrics that are all fine, as long as there are any. */
  lemma GreatIsAllFine(n: Metrics, k: Level)
    requires Grades(n, k)
    ensures k == Great <==>
              n != NO_METRICS && Fine(n.rttMs, 150.0) && Fine(n.loss, 0.02) && Fine(n.jitterMs, 30.0)
  {
    Ranked(n);
  }

  lemma WorseGradesWorse(m: Metrics, n: Metrics, l: Level, k: Level)
    requires NoBetter(m.rttMs, n.rttMs) && NoBetter(m.loss, n.loss) && NoBetter(m.jitterMs, n.jitterMs)
    requires Grades(m, l) && Grades(n, k) && m != NO_METRICS
    ensures LevelRank(l) <= LevelRank(k)
  {
    Ranked(m);
    Ranked(n);
  }

  /**
   Making a metric worse, or adding one, never improves the grade, except when there was none before and
   every one there is now is below its first cut.
   */
  lemma GradeIsMonotone(m: Metrics, n: Metrics, l: Level, k: Level)
    requires NoBetter(m.rttMs, n.rttMs) && NoBetter(m.loss, n.loss) && NoBetter(m.jitterMs, n.jitterMs)
    requires Grades(m, l) && Grades(n, k)
    ensures LevelRank(l) <= LevelRank(k) <==>
            !(m == NO_METRICS && n != NO_METRICS
              && Fine(n.rttMs, 150.0) && Fine(n.loss, 0.02) && Fine(n.jitterMs, 30.0))
  {
    if m == NO_METRICS {
      Ranked(m);
      GreatIsAllFine(n, k);
    } else {
      WorseGradesWorse(m, n, l, k);
    }
  }

  /** A first good round trip is such a sample: the grade goes up from good to great. */
  lemma FirstMetricImproves(l: Level, k: Level)
    requires Grades(NO_METRICS, l) && Grades(Metrics(Some(100.0), None, None), k)
    ensures l == Good && k == Great && LevelRank(k) < LevelRank(l)
  {
    Ranked(NO_METRICS);
    GreatIsAllFine(Metrics(Some(100.0), None, None), k);
  }

  // ---------------------------------------------------------------------------------------------
  // Reading one report
  // ---------------------------------------------------------------------------------------------

  datatype Stat =
    | Transport(selectedPair: Option<string>)
    | CandidatePair(id: string, nominated: bool, succeeded: bool, selected: bool, rttSeconds: Option<real>)
    | InboundRtp(packetsLost: Option<int>, packetsReceived: Option<int>, jitterSeconds: Option<real>)
    | OtherStat

  datatype Counters = Counters(lost: int, received: int)

  /** What a report amounts to: the inbound figures are present together or not at all. */
  datatype Reading = Reading(rttMs: Option<real>, jitterMs: Option<real>, counters: Option<Counters>)

  function Max(a: real, b: real): real {
    if a < b then b else a
  }

  /** The last transport that names a selected pair decides. */
  function SelectedPair(report: seq<Stat>): Option<string> {
    if report == [] then None else
    match report[|report| - 1]
    case Transport(Some(id)) => if id != "" then Some(id) else SelectedPair(report[..|report| - 1])
    case _ => SelectedPair(report[..|report| - 1])
  }

  predicate IsSelected(s: Stat, pair: Option<string>) {
    s.CandidatePair? && (pair == Some(s.id) || s.selected || (s.nominated && s.succeeded))
  }

  /** The last selected pair that measured a round trip decides. */
  function RoundTrip(report: seq<Stat>, pair: Option<string>): Option<real> {
    if report == [] then None else
    var s := report[|report| - 1];
    if IsSelected(s, pair) && s.rttSeconds.Some? then Some(s.rttSeconds.value * 1000.0)
    else RoundTrip(report[..|report| - 1], pair)
  }

  function LostIn(report: seq<Stat>): (n: int)
    ensures n >= 0
  {
    if report == [] then 0 else
    LostIn(report[..|report| - 1]) +
    match report[|report| - 1]
    case InboundRtp(Some(lost), _, _) => if lost > 0 then lost else 0
    case _ => 0
  }

  function ReceivedIn(report: seq<Stat>): int {
    if report == [] then 0 else
    ReceivedIn(report[..|report| - 1]) +
    match report[|report| - 1]
    case InboundRtp(_, Some(received), _) => received
    case _ => 0
  }

  function JitterIn(report: seq<Stat>): real {
    if report == [] then 0.0 else
    var before := JitterIn(report[..|report| - 1]);
    match report[|report| - 1]
    case InboundRtp(_, _, Some(jitter)) => Max(before, jitter)
    case _ => before
  }

  predicate HasInbound(report: seq<Stat>) {
    exists i :: 0 <= i < |report| && report[i].InboundRtp?
  }

  function Read(report: seq<Stat>): Reading {
    Reading(
      RoundTrip(report, SelectedPair(report)),
      if HasInbound(report) then Some(JitterIn(report) * 1000.0) else None,
      if HasInbound(report) then Some(Counters(LostIn(report), ReceivedIn(report))) else None)
  }

  method FindSelectedPair(report: seq<Stat>) returns (pair: Option<string>)
    ensures pair == SelectedPair(report)
  {
    pair := None;
    for i := 0 to |report|
      invariant pair == SelectedPair(report[..i])
    {
      assert report[..i + 1][..i] == report[..i];
      if report[i].Transport? && report[i].selectedPair.Some? && report[i].selectedPair.value != "" {
        pair := report[i].selectedPair;
      }
    }
    assert report[..|report|] == report;
  }

  method FindRoundTrip(report: seq<Stat>, pair: Option<string>) returns (rttMs: Option<real>)
    ensures rttMs == RoundTrip(report, pair)
  {
    rttMs := None;
    for i := 0 to |report|
      invariant rttMs == RoundTrip(report[..i], pair)
    {
      assert report[..i + 1][..i] == report[..i];
      if IsSelected(report[i], pair) && report[i].rttSeconds.Some? {
        rttMs := Some(report[i].rttSeconds.value * 1000.0);
      }
    }
    assert report[..|report|] == report;
  }

  method Accumulate(report: seq<Stat>) returns (lost: int, received: int, jitter: real, sawInbound: bool)
    ensures lost == LostIn(report) && received == ReceivedIn(report) && jitter == JitterIn(report)
    ensures sawInbound == HasInbound(report)
  {
    lost, received, jitter, sawInbound := 0, 0, 0.0, false;
    for i := 0 to |report|
      invariant lost == LostIn(report[..i]) && received == ReceivedIn(report[..i]) && jitter == JitterIn(report[..i])
      invariant sawInbound <==> exists j :: 0 <= j < i && report[j].InboundRtp?
    {
      assert report[..i + 1][..i] == report[..i];
      if report[i].InboundRtp? {
        sawInbound := true;
        var rtp := report[i];
        if rtp.packetsLost.Some? && rtp.packetsLost.value > 0 {
          lost := lost + rtp.packetsLost.value;
        }
        if rtp.packetsReceived.Some? {
          received := received + rtp.packetsReceived.value;
        }
        if rtp.jitterSeconds.Some? {
          jitter := Max(jitter, rtp.jitterSeconds.value);
        }
      }
    }
    assert report[..|report|] == report;
  }

  method ReadReport(report: seq<Stat>) returns (r: Reading)
    ensures r == Read(report)
  {
    var pair := FindSelectedPair(report);
    var rttMs := FindRoundTrip(report, pair);
    var lost, received, jitter, sawInbound := Accumulate(report);
    r := Reading(rttMs,
                 if sawInbound then Some(jitter * 1000.0) else None,
                 if sawInbound then Some(Counters(lost, received)) else None);
  }

  // What a report reads as, said without the functions above.

  /** It names a selected pair. */
  predicate Names(s: Stat, id: string) {
    s == Transport(Some(id)) && id != ""
  }

  /** Entry `i` names a selected pair, and none behind it does. */
  ghost predicate NamesLast(report: seq<Stat>, i: nat, id: string) {
    i < |report| && Names(report[i], id)
    && forall j, other :: i < j < |report| ==> !Names(report[j], other)
  }

  lemma {:induction false} SelectedPairExactly(report: seq<Stat>, id: string)
    ensures SelectedPair(report) == Some(id) <==> exists i: nat :: NamesLast(report, i, id)
  {
    if report != [] {
      var n := |report| - 1;
      SelectedPairExactly(report[..n], id);
      if report[n].Transport? && report[n].selectedPair.Some? && report[n].selectedPair.value != "" {
        var last := report[n].selectedPair.value;
        assert Names(report[n], last) && NamesLast(report, n, last);
        if i: nat :| NamesLast(report, i, id) {
          assert i == n;
        }
      } else {
        assert forall other :: !Names(report[n], other);
        forall i: nat ensures NamesLast(report, i, id) <==> NamesLast(report[..n], i, id) {
          assert i < n ==> report[..n][i] == report[i];
        }
      }
    }
  }

  /** The pair in use: named by a transport, flagged, or nominated with success; and it has a round trip. */
  ghost predicate Measures(report: seq<Stat>, s: Stat) {
    && s.CandidatePair? && s.rttSeconds.Some?
    && (s.selected || (s.nominated && s.succeeded) || exists i: nat :: NamesLast(report, i, s.id))
  }

  ghost predicate MeasuresLast(report: seq<Stat>, i: nat) {
    i < |report| && Measures(report, report[i]) && forall j :: i < j < |report| ==> !Measures(report, report[j])
  }

  predicate HasRoundTrip(s: Stat, pair: Option<string>) {
    IsSelected(s, pair) && s.rttSeconds.Some?
  }

  lemma {:induction false} RoundTripAt(report: seq<Stat>, pair: Option<string>, i: nat)
    requires i < |report| && HasRoundTrip(report[i], pair)
    requires forall j :: i < j < |report| ==> !HasRoundTrip(report[j], pair)
    ensures RoundTrip(report, pair) == Some(report[i].rttSeconds.value * 1000.0)
  {
    if i < |report| - 1 {
      RoundTripAt(report[..|report| - 1], pair, i);
    }
  }

  lemma {:induction false} NoRoundTrip(report: seq<Stat>, pair: Option<string>)
    requires forall j :: 0 <= j < |report| ==> !HasRoundTrip(report[j], pair)
    ensures RoundTrip(report, pair) == None
  {
    if report != [] {
      NoRoundTrip(report[..|report| - 1], pair);
    }
  }

  lemma MeasuresExactly(report: seq<Stat>, s: Stat)
    ensures Measures(report, s) <==> HasRoundTrip(s, SelectedPair(report))
  {
    if s.CandidatePair? {
      SelectedPairExactly(report, s.id);
    }
  }

  /** The round trip read off a report is that of the last pair in use that has one, in milliseconds. */
  lemma RoundTripExactly(report: seq<Stat>)
    ensures forall i: nat :: MeasuresLast(report, i) ==>
              Read(report).rttMs == Some(report[i].rttSeconds.value * 1000.0)
    ensures (forall s :: s in report ==> !Measures(report, s)) ==> Read(report).rttMs == None
  {
    var pair := SelectedPair(report);
    forall s ensures Measures(report, s) <==> HasRoundTrip(s, pair) {
      MeasuresExactly(report, s);
    }
    forall i: nat | MeasuresLast(report, i)
      ensures Read(report).rttMs == Some(report[i].rttSeconds.value * 1000.0)
    {
      RoundTripAt(report, pair, i);
    }
    if forall s :: s in report ==> !Measures(report, s) {
      NoRoundTrip(report, pair);
    }
  }

  function Floored(lost: Option<int>): int {
    if lost.Some? && lost.value > 0 then lost.value else 0
  }

  /** One more stream adds its losses, floored at zero, and its receptions, and may have the worst jitter;
      whatever else a report holds makes no difference to these. */
  lemma StreamsAdd(report: seq<Stat>, s: Stat)
    ensures var r, r' := Read(report), Read(report + [s]);
            if s.InboundRtp? then
              var c := if r.counters.Some? then r.counters.value else Counters(0, 0);
              var worst := if r.jitterMs.Some? then r.jitterMs.value else 0.0;
              var received := if s.packetsReceived.Some? then s.packetsReceived.value else 0;
              && r'.counters == Some(Counters(c.lost + Floored(s.packetsLost), c.received + received))
              && r'.jitterMs == Some(if s.jitterSeconds.Some? && s.jitterSeconds.value * 1000.0 > worst
                                     then s.jitterSeconds.value * 1000.0 else worst)
            else r'.counters == r.counters && r'.jitterMs == r.jitterMs
  {
    var more := report + [s];
    assert more[..|report|] == report && more[|report|] == s;
    assert HasInbound(more) <==> HasInbound(report) || s.InboundRtp?;
    if !HasInbound(report) {
      NothingInbound(report);
    }
  }

  lemma {:induction false} NothingInbound(report: seq<Stat>)
    requires !HasInbound(report)
    ensures LostIn(report) == 0 && ReceivedIn(report) == 0 && JitterIn(report) == 0.0
  {
    if report != [] {
      var front := report[..|report| - 1];
      assert HasInbound(front) ==> HasInbound(report);
      assert !report[|report| - 1].InboundRtp?;
      NothingInbound(front);
    }
  }

  lemma EmptyReport()
    ensures Read([]) == Reading(None, None, None)
  {
  }

  /** Two reports of one stream whose counters only grow: the loss is the share of what was lost in between. */
  lemma LossOfOneStream(first: Stat, second: Stat)
    requires first.InboundRtp? && first.packetsLost.Some? && first.packetsReceived.Some?
    requires second.InboundRtp? && second.packetsLost.Some? && second.packetsReceived.Some?
    requires 0 <= first.packetsLost.value <= second.packetsLost.value
    requires first.packetsReceived.value < second.packetsReceived.value
    ensures var lost := second.packetsLost.value - first.packetsLost.value;
            var received := second.packetsReceived.value - first.packetsReceived.value;
            && Read([first]).counters.Some? && Read([second]).counters.Some?
            && Loss(Read([first]).counters, Read([second]).counters.value)
               == Some(lost as real / (lost + received) as real)
  {
    EmptyReport();
    assert [] + [first] == [first] && [] + [second] == [second];
    StreamsAdd([], first);
    StreamsAdd([], second);
    LossIsARate(Read([first]).counters, Read([second]).counters.value);
  }

  // ---------------------------------------------------------------------------------------------
  // Loss per window
  // ---------------------------------------------------------------------------------------------

  function Packets(c: Counters): int {
    c.lost + c.received
  }

  function Loss(before: Option<Counters>, now: Counters): Option<real> {
    if before.None? then None else
    var dLost := now.lost - before.value.lost;
    var dRecv := now.received - before.value.received;
    var denom := dLost + dRecv;
    if denom > 0 && dLost >= 0 && dRecv >= 0 then Some(dLost as real / denom as real)
    else if denom <= 0 then Some(0.0)
    else None
  }

  /** A loss rate is a rate, whatever the counters did; it is withheld exactly without a baseline or
      when one counter fell while the window as a whole gained packets. */
  lemma LossIsARate(before: Option<Counters>, now: Counters)
    ensures var l := Loss(before, now);
            && (l.Some? ==> 0.0 <= l.value <= 1.0)
            && (l.Some? ==> l.value == if Packets(now) <= Packets(before.value) then 0.0
                                       else (now.lost - before.value.lost) as real
                                            / (Packets(now) - Packets(before.value)) as real)
            && (l.None? <==>
                || before.None?
                || (Packets(now) > Packets(before.value)
                    && (now.lost < before.value.lost || now.received < before.value.received)))
  {
    if before.Some? && Packets(now) > Packets(before.value)
       && now.lost >= before.value.lost && now.received >= before.value.received {
      var dLost, denom := now.lost - before.value.lost, Packets(now) - Packets(before.value);
      assert 0.0 <= dLost as real <= denom as real;
      Quotient(dLost as real, denom as real);
    }
  }

  lemma Quotient(a: real, b: real)
    requires 0.0 <= a <= b && b > 0.0
    ensures 0.0 <= a / b <= 1.0 && (a / b) * b == a
  {
  }

  /** What can happen to the baseline: a sample with or without counters, or its being dropped, by a restart
      of ICE or by closing. */
  datatype Tick = Measured(counters: Counters) | Unmeasured | Restarted

  function Baseline(ticks: seq<Tick>): Option<Counters> {
    if ticks == [] then None else
    match ticks[|ticks| - 1]
    case Measured(c) => Some(c)
    case Unmeasured => Baseline(ticks[..|ticks| - 1])
    case Restarted => None
  }

  /** Sample `i` measured `c`, and nothing but failed samples came after it. */
  predicate IsLatest(ticks: seq<Tick>, i: nat, c: Counters)
    requires i < |ticks|
  {
    ticks[i] == Measured(c) && forall j :: i < j < |ticks| ==> ticks[j].Unmeasured?
  }

  /** Over every history: the baseline is what the latest sample measured, if there was no restart after it. */
  lemma {:induction false} BaselineIsLatest(ticks: seq<Tick>, c: Counters)
    ensures Baseline(ticks) == Some(c) <==> exists i: nat :: i < |ticks| && IsLatest(ticks, i, c)
  {
    if ticks != [] {
      var n := |ticks| - 1;
      BaselineIsLatest(ticks[..n], c);
      if ticks[n] == Measured(c) {
        assert IsLatest(ticks, n, c);
      }
      if ticks[n].Unmeasured? {
        if i: nat :| i < n && IsLatest(ticks[..n], i, c) {
          assert IsLatest(ticks, i, c);
        }
        if i: nat :| i < |ticks| && IsLatest(ticks, i, c) {
          assert IsLatest(ticks[..n], i, c);
        }
      }
    }
  }

  predicate NonDecreasing(cs: seq<Counters>) {
    forall i :: 0 <= i < |cs| - 1 ==> cs[i].lost <= cs[i + 1].lost && cs[i].received <= cs[i + 1].received
  }

  /** The packets lost in one window, recovered from the reported rate. */
  function WindowLost(before: Counters, now: Counters): real {
    match Loss(Some(before), now)
    case Some(rate) => rate * (Packets(now) - Packets(before)) as real
    case None => 0.0
  }

  function LostByRates(cs: seq<Counters>): real {
    if |cs| <= 1 then 0.0
    else LostByRates(cs[..|cs| - 1]) + WindowLost(cs[|cs| - 2], cs[|cs| - 1])
  }

  lemma WindowLoss(before: Counters, now: Counters)
    requires before.lost <= now.lost && before.received <= now.received
    ensures Loss(Some(before), now).Some? && WindowLost(before, now) == (now.lost - before.lost) as real
  {
    var dLost, denom := now.lost - before.lost, Packets(now) - Packets(before);
    if denom > 0 {
      Quotient(dLost as real, denom as real);
    }
  }

  /** While counters only grow, every window reports, and the reports add up to the total loss. */
  lemma {:induction false} LossTelescopes(cs: seq<Counters>)
    requires cs != [] && NonDecreasing(cs)
    ensures LostByRates(cs) == (cs[|cs| - 1].lost - cs[0].lost) as real
    ensures forall i :: 0 <= i < |cs| - 1 ==> Loss(Some(cs[i]), cs[i + 1]).Some?
  {
    if |cs| > 1 {
      var front, n := cs[..|cs| - 1], |cs| - 2;
      LossTelescopes(front);
      WindowLoss(cs[n], cs[n + 1]);
      assert LostByRates(cs) == LostByRates(front) + WindowLost(cs[n], cs[n + 1]);
      forall i | 0 <= i < |cs| - 1 ensures Loss(Some(cs[i]), cs[i + 1]).Some? {
        assert i < |front| - 1 ==> Loss(Some(front[i]), front[i + 1]).Some?;
      }
    }
  }
}
