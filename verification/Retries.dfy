/**
 One request from send to send (apps/web/src/lib/api.ts:449-461, 566-669): what the answer to each send leads to,
 on any network. `Requests` says what the client does; here is what that comes to, exactly.
 */
module Retries {
  import opened Options
  import opened Auth
  import opened Requests

  predicate RefreshFails(net: Network, refresh: nat) {
    net.refreshes(refresh) == Transient
  }

  /** How many refreshes follow a 401, the first being number `k`: up to three, while they fail transiently
      and the waits after them, from number `n` on, are not aborted. */
  function Tries(net: Network, k: nat, n: nat): nat {
    if !RefreshFails(net, k) || net.aborts(n) then 1
    else if !RefreshFails(net, k + 1) || net.aborts(n + 1) then 2
    else 3
  }

  predicate RefreshAborted(net: Network, k: nat, n: nat) {
    && RefreshFails(net, k)
    && (net.aborts(n) || (RefreshFails(net, k + 1) && net.aborts(n + 1)))
  }

  predicate Renewed(net: Network, k: nat, n: nat) {
    !RefreshAborted(net, k, n) && net.refreshes(k + Tries(net, k, n) - 1) == Succeeded
  }

  /** A 401 that is followed by a refresh. */
  predicate Challenged(net: Network, o: RequestOptions, s: Send, i: nat) {
    Is401(net.answers(i, s.payload)) && !o.skipAuth && !s.again
  }

  predicate IsRepeated(net: Network, o: RequestOptions, s: Send, i: nat) {
    Challenged(net, o, s, i) && Renewed(net, s.refreshed, s.waited)
  }

  /** Nothing came back, or a server error, or a body that breaks off. */
  predicate BreaksDown(a: Answer) {
    match a
    case Failure => true
    case Abort => false
    case Response(status, body) =>
      500 <= status < 600 || (200 <= status < 300 && status != 204 && body == CutOff)
  }

  /** The failure of send `i`, in attempt number `attempt`, is one to wait and try again after. */
  predicate IsBackedOff(net: Network, o: RequestOptions, s: Send, i: nat, attempt: nat) {
    MayRetry(o) && attempt < 3 && BreaksDown(net.answers(i, s.payload))
  }

  /** What the caller is told if nothing follows send `i`. */
  function LastWord(net: Network, o: RequestOptions, s: Send, i: nat, attempt: nat): Requests.Outcome {
    if Challenged(net, o, s, i) && RefreshAborted(net, s.refreshed, s.waited) then AbortError
    else if IsBackedOff(net, o, s, i, attempt) && net.aborts(s.waited) then AbortError
    else Told(net.answers(i, s.payload))
  }

  /** What the caller is told of an answer that nothing follows. */
  function Told(a: Answer): Requests.Outcome {
    match a
    case Failure => NetworkError
    case Abort => AbortError
    case Response(status, body) =>
      if status < 200 || status >= 300 then HttpError(status)
      else if status == 204 || body == Parsed then Value(status)
      else if body == Malformed then ParseError
      else if body == CutOff then BareTypeError
      else AbortError
  }

  /** A refresh comes first if no token is held although a session exists, but not before a repeat. */
  function Cold(net: Network, o: RequestOptions, again: bool, n: nat): nat {
    if !o.skipAuth && !net.hasToken(n) && !again && net.hasCookie(n) then 1 else 0
  }

  /** Send `n` is what the options say, with a token if there is one. */
  predicate Carries(net: Network, o: RequestOptions, s: Send, n: nat) {
    var bearer := !o.skipAuth && (net.hasToken(n) || (!s.again && net.hasCookie(n) && net.gotToken(n)));
    s.payload == Payload(Verb(o), if bearer then HeadersOf(o.headers) - {"authorization"} else HeadersOf(o.headers),
                         HandedOn(o.init), bearer)
  }

  /** The first sends of attempts among `sends`. */
  function Attempts(sends: seq<Send>): nat {
    if sends == [] then 0
    else Attempts(sends[..|sends| - 1]) + if sends[|sends| - 1].again then 0 else 1
  }

  /** `next` is the send that follows `s`: a repeat after the refreshes it took, or the next attempt. */
  predicate Succeeds(net: Network, o: RequestOptions, s: Send, i: nat, next: Send) {
    if IsRepeated(net, o, s, i) then
      var tries := Tries(net, s.refreshed, s.waited);
      next.again && next.refreshed == s.refreshed + tries && next.waited == s.waited + tries - 1
    else
      && !next.again && next.refreshed == s.refreshed + Cold(net, o, false, i + 1) && next.waited == s.waited + 1
  }

  /** Something follows send `i`, in attempt number `attempt`. */
  predicate GoesOn(net: Network, o: RequestOptions, s: Send, i: nat, attempt: nat) {
    IsRepeated(net, o, s, i) || (IsBackedOff(net, o, s, i, attempt) && !net.aborts(s.waited))
  }

  predicate LeadsTo(net: Network, o: RequestOptions, s: Send, i: nat, attempt: nat, next: Send) {
    GoesOn(net, o, s, i, attempt) && Succeeds(net, o, s, i, next)
  }

  /** Every send is made out as it should be, and follows from the one before. */
  predicate Chained(net: Network, o: RequestOptions, sends: seq<Send>) {
    sends != [] ==>
      var n := |sends| - 1;
      && Chained(net, o, sends[..n]) && Carries(net, o, sends[n], n)
      && (n > 0 ==> LeadsTo(net, o, sends[n - 1], n - 1, Attempts(sends[..n]), sends[n]))
  }

  lemma RefreshesExactly(net: Network, t: Trace)
    ensures var (r, t') := RefreshFrom(net, t, 0);
            var k, n := t.refreshed, |t.waits|;
            var aborted := RefreshAborted(net, k, n);
            && r == (if aborted then None else Some(net.refreshes(k + Tries(net, k, n) - 1)))
            && t'.sends == t.sends && t'.attempts == t.attempts
            && t'.refreshed == k + Tries(net, k, n)
            && |t'.waits| == n + Tries(net, k, n) - if aborted then 0 else 1
  {
    var t1 := Delayed(net, t.(refreshed := t.refreshed + 1), Ceiling(250, 1_500, 0), true);
    var t2 := Delayed(net, t1.(refreshed := t1.refreshed + 1), Ceiling(250, 1_500, 1), true);
    assert RefreshFails(net, t.refreshed) && !net.aborts(|t.waits|) ==>
        RefreshFrom(net, t, 0) == RefreshFrom(net, t1, 1);
    assert RefreshFails(net, t1.refreshed) && !net.aborts(|t1.waits|) ==>
        RefreshFrom(net, t1, 1) == RefreshFrom(net, t2, 2);
  }

  lemma SentExactly(net: Network, o: RequestOptions, again: bool, t: Trace)
    ensures var t', n := Sent(net, o, again, t), |t.sends|;
            && |t'.sends| == n + 1 && t'.sends[..n] == t.sends && Carries(net, o, t'.sends[n], n)
            && t'.sends[n].again == again && t'.sends[n].waited == |t.waits|
            && t'.sends[n].refreshed == t'.refreshed == t.refreshed + Cold(net, o, again, n)
            && t'.waits == t.waits && t'.attempts == t.attempts
  {
  }

  /** One attempt, or the repeat within one: the sends it makes, the state it leaves, and what it comes to. */
  lemma {:induction false} AttemptExactly(net: Network, o: RequestOptions, again: bool, t: Trace)
    ensures var (out, t') := Perform(net, o, again, t);
            var n, m := |t.sends|, |t'.sends|;
            && t'.attempts == t.attempts
            && n < m <= n + (if again then 1 else 2) && t'.sends[..n] == t.sends
            && Carries(net, o, t'.sends[n], n) && Carries(net, o, t'.sends[m - 1], m - 1)
            && t'.sends[n].again == again && t'.sends[n].waited == |t.waits|
            && t'.sends[n].refreshed == t.refreshed + Cold(net, o, again, n)
            && (m == n + 2 <==> IsRepeated(net, o, t'.sends[n], n))
            && (m == n + 2 ==> Succeeds(net, o, t'.sends[n], n, t'.sends[n + 1]))
            && var last := t'.sends[m - 1];
               if Challenged(net, o, last, m - 1) then
                 && t'.refreshed == last.refreshed + Tries(net, last.refreshed, last.waited)
                 && out == if RefreshAborted(net, last.refreshed, last.waited) then AbortError else HttpError(401)
               else
                 && t'.refreshed == last.refreshed && |t'.waits| == last.waited
                 && out == Told(net.answers(m - 1, last.payload))
    decreases !again
  {
    SentExactly(net, o, again, t);
    PerformUnfolds(net, o, again, t);
    RefreshesExactly(net, Sent(net, o, again, t));
    if Repeats(net, o, again, t) {
      AttemptExactly(net, o, true, Refreshed(net, o, again, t));
    }
  }

  lemma ChainGrows(net: Network, o: RequestOptions, sends: seq<Send>, s: Send)
    requires Chained(net, o, sends) && Carries(net, o, s, |sends|)
    requires sends != [] ==> LeadsTo(net, o, sends[|sends| - 1], |sends| - 1, Attempts(sends), s)
    ensures Chained(net, o, sends + [s])
    ensures Attempts(sends + [s]) == Attempts(sends) + if s.again then 0 else 1
  {
    assert (sends + [s])[..|sends|] == sends;
  }

  /** Another attempt is due: the last one broke down, and the wait is over. */
  predicate Due(net: Network, o: RequestOptions, t: Trace) {
    && Chained(net, o, t.sends) && |t.attempts| == Attempts(t.sends)
    && if t.sends == [] then t.refreshed == 0 && t.waits == []
       else
         var i := |t.sends| - 1;
         var last := t.sends[i];
         && GoesOn(net, o, last, i, Attempts(t.sends)) && !IsRepeated(net, o, last, i)
         && t.refreshed == last.refreshed && |t.waits| == last.waited + 1
  }

  /** Nothing follows the last send, and this is what the caller is told. */
  predicate Concludes(net: Network, o: RequestOptions, sends: seq<Send>, out: Requests.Outcome) {
    && sends != []
    && var i := |sends| - 1;
       !GoesOn(net, o, sends[i], i, Attempts(sends)) && out == LastWord(net, o, sends[i], i, Attempts(sends))
  }

  lemma FirstIsChained(net: Network, o: RequestOptions, t: Trace, s: Send)
    requires Due(net, o, t) && !s.again && Carries(net, o, s, |t.sends|)
    requires s.refreshed == t.refreshed + Cold(net, o, false, |t.sends|) && s.waited == |t.waits|
    ensures Chained(net, o, t.sends + [s]) && Attempts(t.sends + [s]) == Attempts(t.sends) + 1
  {
    ChainGrows(net, o, t.sends, s);
  }

  lemma RepeatIsChained(net: Network, o: RequestOptions, sends: seq<Send>, s: Send, r: Send)
    requires Chained(net, o, sends + [s]) && Carries(net, o, r, |sends| + 1)
    requires IsRepeated(net, o, s, |sends|) && Succeeds(net, o, s, |sends|, r)
    ensures Chained(net, o, sends + [s] + [r]) && Attempts(sends + [s] + [r]) == Attempts(sends + [s])
  {
    ChainGrows(net, o, sends + [s], r);
  }

  /** The last send is not one that is repeated. */
  predicate Ends(net: Network, o: RequestOptions, sends: seq<Send>) {
    sends != [] && !IsRepeated(net, o, sends[|sends| - 1], |sends| - 1)
  }

  lemma RepeatEnds(net: Network, o: RequestOptions, again: bool, t: Trace)
    ensures Ends(net, o, Perform(net, o, again, t).1.sends)
  {
    AttemptExactly(net, o, again, t);
  }

  lemma FirstSend(net: Network, o: RequestOptions, t: Trace)
    requires Due(net, o, t)
    ensures var sends, n := Perform(net, o, false, t).1.sends, |t.sends|;
            && n < |sends| <= n + 2 && sends[..n] == t.sends
            && Chained(net, o, t.sends + [sends[n]]) && Attempts(t.sends + [sends[n]]) == Attempts(t.sends) + 1
  {
    AttemptExactly(net, o, false, t);
    FirstIsChained(net, o, t, Perform(net, o, false, t).1.sends[|t.sends|]);
  }

  lemma SecondSend(net: Network, o: RequestOptions, t: Trace)
    requires |Perform(net, o, false, t).1.sends| == |t.sends| + 2
    ensures var sends, n := Perform(net, o, false, t).1.sends, |t.sends|;
            && IsRepeated(net, o, sends[n], n) && Succeeds(net, o, sends[n], n, sends[n + 1])
            && Carries(net, o, sends[n + 1], n + 1)
  {
    AttemptExactly(net, o, false, t);
  }

  lemma SplitSends(before: seq<Send>, sends: seq<Send>)
    requires |before| < |sends| <= |before| + 2 && sends[..|before|] == before
    ensures var n := |before|;
            sends == if |sends| == n + 2 then before + [sends[n]] + [sends[n + 1]] else before + [sends[n]]
  {
  }

  /** An attempt on top of a chain makes it one or two sends longer. */
  lemma AttemptIsChained(net: Network, o: RequestOptions, t: Trace)
    requires Due(net, o, t)
    ensures var sends := Perform(net, o, false, t).1.sends;
            && Chained(net, o, sends) && Attempts(sends) == Attempts(t.sends) + 1 && t.sends <= sends
  {
    FirstSend(net, o, t);
    var sends, n := Perform(net, o, false, t).1.sends, |t.sends|;
    SplitSends(t.sends, sends);
    if |sends| == n + 2 {
      SecondSend(net, o, t);
      RepeatIsChained(net, o, t.sends, sends[n], sends[n + 1]);
    }
  }

  /** An attempt whose last send decides it, and that came to `out`. */
  predicate Came(net: Network, o: RequestOptions, t: Trace, out: Requests.Outcome) {
    && Ends(net, o, t.sends)
    && var i := |t.sends| - 1;
       var s := t.sends[i];
       var broken := BreaksDown(net.answers(i, s.payload));
       && out == (if Challenged(net, o, s, i) && RefreshAborted(net, s.refreshed, s.waited) then AbortError
                  else Told(net.answers(i, s.payload)))
       && (Retryable(out) <==> broken)
       && (broken ==> t.refreshed == s.refreshed && |t.waits| == s.waited)
  }

  lemma LastSendDecides(net: Network, o: RequestOptions, t: Trace)
    ensures var (out, t') := Perform(net, o, false, t); t'.attempts == t.attempts && Came(net, o, t', out)
  {
    AttemptExactly(net, o, false, t);
    RepeatEnds(net, o, false, t);
  }

  lemma GoesOnOrConcludes(net: Network, o: RequestOptions, attempt: nat, t: Trace, out: Requests.Outcome)
    requires attempt <= MAX_RETRIES && Came(net, o, t, out)
    requires Chained(net, o, t.sends) && |t.attempts| == attempt + 1 == Attempts(t.sends)
    ensures var tries := RetryEnabled(o) && attempt < MAX_RETRIES && Retryable(out);
            var waited := Delayed(net, t, Ceiling(300, 4_000, attempt), false);
            if tries && !net.aborts(|t.waits|) then Due(net, o, waited)
            else Concludes(net, o, t.sends, if tries then AbortError else out)
  {
  }

  /** After an attempt another one is due, or the request is through. */
  lemma AttemptLeads(net: Network, o: RequestOptions, attempt: nat, t: Trace)
    requires attempt <= MAX_RETRIES && Due(net, o, t) && attempt == |t.attempts|
    ensures var t1 := Attempted(net, o, t);
            && Chained(net, o, t1.sends) && |t1.attempts| == attempt + 1 == Attempts(t1.sends) && t.sends <= t1.sends
            && if TriesAgain(net, o, attempt, t) then Due(net, o, NextTry(net, o, attempt, t))
               else Concludes(net, o, t1.sends, Request(net, o, attempt, t).0)
  {
    AttemptIsChained(net, o, t);
    LastSendDecides(net, o, t);
    GoesOnOrConcludes(net, o, attempt, Attempted(net, o, t), Perform(net, o, false, t).0);
    RequestUnfolds(net, o, attempt, t);
  }

  lemma {:induction false} RequestIsChained(net: Network, o: RequestOptions, attempt: nat, t: Trace)
    requires attempt <= MAX_RETRIES && Due(net, o, t) && attempt == |t.attempts|
    ensures var (out, t') := Request(net, o, attempt, t);
            && Chained(net, o, t'.sends) && |t'.attempts| == Attempts(t'.sends)
            && Concludes(net, o, t'.sends, out) && Attempted(net, o, t).sends <= t'.sends
    decreases MAX_RETRIES - attempt
  {
    AttemptLeads(net, o, attempt, t);
    RequestUnfolds(net, o, attempt, t);
    if TriesAgain(net, o, attempt, t) {
      AttemptLeads(net, o, attempt + 1, NextTry(net, o, attempt, t));
      RequestIsChained(net, o, attempt + 1, NextTry(net, o, attempt, t));
    }
  }

  /** Send `i` is made out as it should be, and if another follows, leads to it. */
  predicate Explained(net: Network, o: RequestOptions, sends: seq<Send>, i: nat)
    requires i < |sends|
  {
    && Carries(net, o, sends[i], i)
    && (i + 1 < |sends| ==> LeadsTo(net, o, sends[i], i, Attempts(sends[..i + 1]), sends[i + 1]))
  }

  lemma {:induction false} ChainedAt(net: Network, o: RequestOptions, sends: seq<Send>, i: nat)
    requires Chained(net, o, sends) && i < |sends|
    ensures Explained(net, o, sends, i)
  {
    var n := |sends| - 1;
    if i < n {
      ChainedAt(net, o, sends[..n], i);
      assert sends[..n][..i + 1] == sends[..i + 1];
    }
  }

  lemma FirstOfRequest(net: Network, o: RequestOptions)
    ensures var sends := Request(net, o, 0, NOTHING).1.sends;
            && sends != [] && !sends[0].again
            && sends[0].refreshed == Cold(net, o, false, 0) && sends[0].waited == 0
  {
    RequestIsChained(net, o, 0, NOTHING);
    AttemptExactly(net, o, false, NOTHING);
  }

  /**
   For every network and every request: a send is followed by its repeat exactly if it was refused with a 401
   and a refresh then brought a token, by a further attempt exactly if it broke down, may be retried, was not
   the third and the wait is not aborted, and by nothing otherwise; and the answer to the last send, unless a
   wait was aborted, is what the caller is told.
   */
  lemma RequestExactly(net: Network, o: RequestOptions)
    ensures var (out, t) := Request(net, o, 0, NOTHING);
            && t.sends != [] && !t.sends[0].again
            && t.sends[0].refreshed == Cold(net, o, false, 0) && t.sends[0].waited == 0
            && (forall i: nat :: i < |t.sends| ==> Explained(net, o, t.sends, i))
            && Concludes(net, o, t.sends, out)
            && |t.attempts| == Attempts(t.sends)
  {
    FirstOfRequest(net, o);
    RequestIsChained(net, o, 0, NOTHING);
    var sends := Request(net, o, 0, NOTHING).1.sends;
    forall i: nat | i < |sends| ensures Explained(net, o, sends, i) {
      ChainedAt(net, o, sends, i);
    }
  }

  /** Whatever the network: one that may not be retried is attempted once. */
  lemma UnretriedOnce(net: Network, o: RequestOptions)
    requires !MayRetry(o)
    ensures var t := Request(net, o, 0, NOTHING).1; |t.attempts| == 1 && |t.sends| <= 2
  {
    SendDiscipline(net, o);
  }

  // ---------------------------------------------------------------------------------------------
  // How long the client waits
  // ---------------------------------------------------------------------------------------------

  /** Between the refreshes after a 401: up to a quarter of a second, then up to half a second. */
  function WaitsForRefresh(net: Network, k: nat, n: nat): seq<Wait> {
    if !RefreshFails(net, k) then []
    else
      [Wait(true, net.jitter(n, 250), net.aborts(n))] +
      if net.aborts(n) || !RefreshFails(net, k + 1) then []
      else [Wait(true, net.jitter(n + 1, 500), net.aborts(n + 1))]
  }

  /** Before the second attempt up to 300 ms, before the third up to 600. */
  function Backoff(net: Network, o: RequestOptions, s: Send, i: nat, attempt: nat): seq<Wait> {
    if !IsBackedOff(net, o, s, i, attempt) then []
    else [Wait(false, net.jitter(s.waited, if attempt <= 1 then 300 else 600), net.aborts(s.waited))]
  }

  /** The waits that send `i` leads to. */
  function WaitsAfter(net: Network, o: RequestOptions, s: Send, i: nat, attempt: nat): seq<Wait> {
    if Challenged(net, o, s, i) then WaitsForRefresh(net, s.refreshed, s.waited)
    else Backoff(net, o, s, i, attempt)
  }

  function WaitsOf(net: Network, o: RequestOptions, sends: seq<Send>): seq<Wait> {
    if sends == [] then [] else
    var n := |sends| - 1;
    WaitsOf(net, o, sends[..n]) + WaitsAfter(net, o, sends[n], n, Attempts(sends))
  }

  lemma RefreshWaitsExactly(net: Network, t: Trace)
    ensures RefreshFrom(net, t, 0).1.waits == t.waits + WaitsForRefresh(net, t.refreshed, |t.waits|)
  {
    assert Doubled(250, 0) == 250 && Doubled(250, 1) == 500;
    var t1 := Delayed(net, t.(refreshed := t.refreshed + 1), Ceiling(250, 1_500, 0), true);
    var t2 := Delayed(net, t1.(refreshed := t1.refreshed + 1), Ceiling(250, 1_500, 1), true);
    assert RefreshFails(net, t.refreshed) && !net.aborts(|t.waits|) ==>
        RefreshFrom(net, t, 0) == RefreshFrom(net, t1, 1);
    assert RefreshFails(net, t1.refreshed) && !net.aborts(|t1.waits|) ==>
        RefreshFrom(net, t1, 1) == RefreshFrom(net, t2, 2);
  }

  /** The waits within an attempt are those of its first send. */
  lemma AttemptWaitsExactly(net: Network, o: RequestOptions, again: bool, t: Trace)
    ensures var t' := Perform(net, o, again, t).1;
            && |t'.sends| > |t.sends|
            && var s := t'.sends[|t.sends|];
               t'.waits == t.waits +
                 if Challenged(net, o, s, |t.sends|) then WaitsForRefresh(net, s.refreshed, s.waited) else []
    decreases !again
  {
    AttemptExactly(net, o, again, t);
    PerformUnfolds(net, o, again, t);
    SentExactly(net, o, again, t);
    RefreshWaitsExactly(net, Sent(net, o, again, t));
    RefreshesExactly(net, Sent(net, o, again, t));
    if Repeats(net, o, again, t) {
      AttemptWaitsExactly(net, o, true, Refreshed(net, o, again, t));
    }
  }

  lemma WaitsOfOne(net: Network, o: RequestOptions, sends: seq<Send>, s: Send)
    ensures WaitsOf(net, o, sends + [s]) ==
            WaitsOf(net, o, sends) + WaitsAfter(net, o, s, |sends|, Attempts(sends + [s]))
  {
    assert (sends + [s])[..|sends|] == sends;
  }

  /** Of the sends of one attempt, only the first can be refused and only the last backed off from. */
  lemma WaitsOfAttempt(net: Network, o: RequestOptions, t: Trace)
    requires Due(net, o, t)
    ensures var sends, n := Perform(net, o, false, t).1.sends, |t.sends|;
            && n < |sends|
            && var s, last := sends[n], |sends| - 1;
               WaitsOf(net, o, sends) ==
               WaitsOf(net, o, t.sends)
               + (if Challenged(net, o, s, n) then WaitsForRefresh(net, s.refreshed, s.waited) else [])
               + Backoff(net, o, sends[last], last, Attempts(sends))
  {
    FirstSend(net, o, t);
    var sends, n := Perform(net, o, false, t).1.sends, |t.sends|;
    SplitSends(t.sends, sends);
    WaitsOfOne(net, o, t.sends, sends[n]);
    if |sends| == n + 2 {
      SecondSend(net, o, t);
      WaitsOfOne(net, o, t.sends + [sends[n]], sends[n + 1]);
    }
  }

  lemma BackoffExactly(net: Network, o: RequestOptions, attempt: nat, t: Trace, out: Requests.Outcome)
    requires attempt <= MAX_RETRIES && Came(net, o, t, out)
    ensures var last := |t.sends| - 1;
            var tries := RetryEnabled(o) && attempt < MAX_RETRIES && Retryable(out);
            (if tries then Delayed(net, t, Ceiling(300, 4_000, attempt), false).waits else t.waits)
            == t.waits + Backoff(net, o, t.sends[last], last, attempt + 1)
  {
    assert Doubled(300, 0) == 300 && Doubled(300, 1) == 600;
  }

  /** The waits made once an attempt is over are those of its sends, but for the backoff. */
  lemma AttemptedWaits(net: Network, o: RequestOptions, t: Trace)
    requires Due(net, o, t) && t.waits == WaitsOf(net, o, t.sends)
    ensures var t1 := Perform(net, o, false, t).1;
            && t1.sends != []
            && var last := |t1.sends| - 1;
               WaitsOf(net, o, t1.sends) == t1.waits + Backoff(net, o, t1.sends[last], last, Attempts(t.sends) + 1)
  {
    WaitsOfAttempt(net, o, t);
    AttemptIsChained(net, o, t);
    AttemptWaitsExactly(net, o, false, t);
  }

  lemma AttemptLeavesWaits(net: Network, o: RequestOptions, attempt: nat, t: Trace)
    requires attempt <= MAX_RETRIES && Due(net, o, t) && attempt == |t.attempts| && t.waits == WaitsOf(net, o, t.sends)
    ensures var t1 := Attempted(net, o, t);
            var tries := RetryEnabled(o) && attempt < MAX_RETRIES && Retryable(Perform(net, o, false, t).0);
            WaitsOf(net, o, t1.sends) == if tries then NextTry(net, o, attempt, t).waits else t1.waits
  {
    AttemptedWaits(net, o, t);
    LastSendDecides(net, o, t);
    BackoffExactly(net, o, attempt, Attempted(net, o, t), Perform(net, o, false, t).0);
  }

  lemma {:induction false} RequestLeavesWaits(net: Network, o: RequestOptions, attempt: nat, t: Trace)
    requires attempt <= MAX_RETRIES && Due(net, o, t) && attempt == |t.attempts| && t.waits == WaitsOf(net, o, t.sends)
    ensures var t' := Request(net, o, attempt, t).1; t'.waits == WaitsOf(net, o, t'.sends)
    decreases MAX_RETRIES - attempt
  {
    AttemptLeads(net, o, attempt, t);
    AttemptLeavesWaits(net, o, attempt, t);
    RequestUnfolds(net, o, attempt, t);
    if TriesAgain(net, o, attempt, t) {
      RequestLeavesWaits(net, o, attempt + 1, NextTry(net, o, attempt, t));
    }
  }

  /** Every wait of a request, in order, with its ceiling: no other is made, and none is left out. */
  lemma WaitsExactly(net: Network, o: RequestOptions)
    ensures var t := Request(net, o, 0, NOTHING).1; t.waits == WaitsOf(net, o, t.sends)
  {
    RequestLeavesWaits(net, o, 0, NOTHING);
  }
}
