/**
 One request, its transparent refresh, and its retries, against an arbitrary network
 (apps/web/src/lib/api.ts:243-280, 449-461, 566-669, 677-706).
 */
module Requests {
  import opened Options
  import opened Auth

  datatype Body = Parsed | Malformed | CutOff | BodyAborted

  /** How a call of `fetch`, and the reading of its body, can come out. */
  datatype Answer = Response(status: int, body: Body) | Failure | Abort

  datatype Outcome =
    | Value(status: int)
    | HttpError(status: int)
    | NetworkError   // an ApiClientError with code `network`
    | BareTypeError  // the connection broke while the body was read
    | ParseError
    | AbortError

  /** As the caller writes them: the verb may be left out, header names may be in any case and repeated,
      and `init` is the rest of what is handed on to `fetch`. */
  datatype RequestOptions = RequestOptions(
    verb: Option<string>, noRetry: bool, skipAuth: bool,
    headers: seq<(string, string)>, init: map<string, string>)

  function UpperChar(c: char): char {
    if 'a' <= c <= 'z' then (c as int - 32) as char else c
  }

  function Upper(s: string): string {
    if s == "" then "" else [UpperChar(s[0])] + Upper(s[1..])
  }

  function LowerChar(c: char): char {
    if 'A' <= c <= 'Z' then (c as int + 32) as char else c
  }

  function Lower(s: string): string {
    if s == "" then "" else [LowerChar(s[0])] + Lower(s[1..])
  }

  function Verb(o: RequestOptions): string {
    Upper(if o.verb.Some? then o.verb.value else "GET")
  }

  /** `new Headers(list)`: names in lower case, repeated ones joined. */
  function HeadersOf(list: seq<(string, string)>): map<string, string> {
    if list == [] then map[] else
    var before, (name, value) := HeadersOf(list[..|list| - 1]), list[|list| - 1];
    before[Lower(name) := if Lower(name) in before then before[Lower(name)] + ", " + value else value]
  }

  lemma {:induction false} CaseExactly(s: string)
    ensures |Upper(s)| == |s| == |Lower(s)|
    ensures forall i :: 0 <= i < |s| ==>
              && Upper(s)[i] == (if 'a' <= s[i] <= 'z' then s[i] - ('a' - 'A') else s[i])
              && Lower(s)[i] == (if 'A' <= s[i] <= 'Z' then s[i] + ('a' - 'A') else s[i])
  {
    if s != "" {
      CaseExactly(s[1..]);
      forall i | 0 < i < |s|
        ensures Upper(s)[i] == Upper(s[1..])[i - 1] && Lower(s)[i] == Lower(s[1..])[i - 1] && s[1..][i - 1] == s[i]
      {
      }
    }
  }

  /** The values that a list gives to a header, in order. */
  function Values(list: seq<(string, string)>, name: string): seq<string> {
    if list == [] then []
    else (if Lower(list[0].0) == name then [list[0].1] else []) + Values(list[1..], name)
  }

  function Joined(values: seq<string>): string
    requires values != []
  {
    if |values| == 1 then values[0] else values[0] + ", " + Joined(values[1..])
  }

  lemma {:induction false} ValuesOfMore(list: seq<(string, string)>, header: (string, string), name: string)
    ensures Values(list + [header], name) ==
            Values(list, name) + if Lower(header.0) == name then [header.1] else []
  {
    var more := list + [header];
    if list == [] {
      assert more == [header] && more[1..] == [];
      assert Values(more[1..], name) == [];
    } else {
      assert more[0] == list[0] && more[1..] == list[1..] + [header];
      ValuesOfMore(list[1..], header, name);
      var first := if Lower(list[0].0) == name then [list[0].1] else [];
      assert Values(more, name) == first + Values(more[1..], name);
      assert Values(list, name) == first + Values(list[1..], name);
    }
  }

  lemma {:induction false} JoinedWithMore(values: seq<string>, value: string)
    requires values != []
    ensures Joined(values + [value]) == Joined(values) + ", " + value
  {
    assert (values + [value])[1..] == values[1..] + [value];
    if |values| > 1 {
      JoinedWithMore(values[1..], value);
    }
  }

  /** A header is sent if the list has it, in whatever case, and with all the values it gives, joined in order. */
  lemma {:induction false} HeadersExactly(list: seq<(string, string)>, name: string)
    ensures name in HeadersOf(list) <==> Values(list, name) != []
    ensures name in HeadersOf(list) ==> HeadersOf(list)[name] == Joined(Values(list, name))
  {
    if list != [] {
      var front, last := list[..|list| - 1], list[|list| - 1];
      HeadersExactly(front, name);
      assert front + [last] == list;
      ValuesOfMore(front, last, name);
      var before := Values(front, name);
      if Lower(last.0) != name {
        assert Values(list, name) == before + [] == before;
      } else if before == [] {
        assert Values(list, name) == [last.1];
      } else {
        JoinedWithMore(before, last.1);
      }
    }
  }

  /** `...init`, of which the credentials mode is overwritten. */
  function HandedOn(init: map<string, string>): map<string, string> {
    init - {"credentials"}
  }

  lemma HandedOnExactly(init: map<string, string>, k: string)
    ensures k in HandedOn(init) <==> k in init && k != "credentials"
    ensures k in HandedOn(init) ==> HandedOn(init)[k] == init[k]
  {
    assert k in {"credentials"} <==> k == "credentials";
  }

  /** What the server gets to see of a request to a given URL. */
  datatype Payload = Payload(verb: string, headers: map<string, string>, init: map<string, string>, bearer: bool)

  /** Everything outside the client, indexed by how often it has been consulted. */
  datatype Network = Network(
    answers: (nat, Payload) -> Answer,  // to the n-th request sent
    refreshes: nat -> Refresh,  // to the n-th awaited refresh
    hasToken: nat -> bool,      // a token is held before the n-th request
    gotToken: nat -> bool,      // a token is held after a refresh just before the n-th request
    hasCookie: nat -> bool,     // the session cookie is present before the n-th request
    jitter: (nat, int) -> real, // Math.random() * ceiling at the n-th wait
    aborts: nat -> bool)        // the caller aborts during the n-th wait

  /** A repeat after a 401, or not; and how many refreshes and waits came before it. */
  datatype Send = Send(payload: Payload, again: bool, refreshed: nat, waited: nat)

  datatype Wait = Wait(reactive: bool, ms: real, aborted: bool)

  datatype Trace = Trace(sends: seq<Send>, refreshed: nat, waits: seq<Wait>, attempts: seq<Outcome>)

  const NOTHING := Trace([], 0, [], [])

  const MAX_RETRIES := 2
  const REACTIVE_MAX_RETRIES := 2

  function Doubled(base: int, times: nat): int {
    if times == 0 then base else 2 * Doubled(base, times - 1)
  }

  function Ceiling(base: int, cap: int, attempt: nat): int {
    var c := Doubled(base, attempt);
    if cap < c then cap else c
  }

  predicate Idempotent(verb: string) {
    verb in {"GET", "HEAD", "OPTIONS"}
  }

  predicate RetryEnabled(o: RequestOptions) {
    !o.noRetry && Idempotent(Verb(o))
  }

  /** What may be retried, unless the caller asks for no retries. */
  predicate MayRetry(o: RequestOptions) {
    !o.noRetry && (Verb(o) == "GET" || Verb(o) == "HEAD" || Verb(o) == "OPTIONS")
  }

  predicate Retryable(o: Outcome) {
    o.NetworkError? || o.BareTypeError? || (o.HttpError? && 500 <= o.status < 600)
  }

  function Delayed(net: Network, t: Trace, ceiling: int, reactive: bool): Trace {
    var n := |t.waits|;
    t.(waits := t.waits + [Wait(reactive, net.jitter(n, ceiling), net.aborts(n))])
  }

  /** `tryRefreshWithBackoff` from its `tries`-th turn; `None` when aborted. */
  function RefreshFrom(net: Network, t: Trace, tries: nat): (Option<Refresh>, Trace)
    requires tries <= REACTIVE_MAX_RETRIES
    decreases REACTIVE_MAX_RETRIES - tries
  {
    var result := net.refreshes(t.refreshed);
    var t1 := t.(refreshed := t.refreshed + 1);
    if tries < REACTIVE_MAX_RETRIES && result.Transient? then
      var t2 := Delayed(net, t1, Ceiling(250, 1_500, tries), true);
      if net.aborts(|t1.waits|) then (None, t2) else RefreshFrom(net, t2, tries + 1)
    else
      (Some(result), t1)
  }

  function ReadBody(status: int, body: Body): Outcome {
    if !IsOk(status) then HttpError(status)
    else if status == 204 then Value(204)
    else match body
         case Parsed => Value(status)
         case Malformed => ParseError
         case CutOff => BareTypeError
         case BodyAborted => AbortError
  }

  predicate StartsCold(net: Network, o: RequestOptions, again: bool, t: Trace) {
    var n := |t.sends|;
    !o.skipAuth && !net.hasToken(n) && !again && net.hasCookie(n)
  }

  function ColdStart(net: Network, o: RequestOptions, again: bool, t: Trace): Trace {
    if StartsCold(net, o, again, t) then t.(refreshed := t.refreshed + 1) else t
  }

  /** The bearer takes the place of an `authorization` header of the caller's own. */
  function PayloadOf(net: Network, o: RequestOptions, again: bool, t: Trace): Payload {
    var n, headers := |t.sends|, HeadersOf(o.headers);
    var bearer := !o.skipAuth && if StartsCold(net, o, again, t) then net.gotToken(n) else net.hasToken(n);
    Payload(Verb(o), if bearer then headers - {"authorization"} else headers, HandedOn(o.init), bearer)
  }

  /** `performRequest`; `again` is its `_isRetry`. */
  function Perform(net: Network, o: RequestOptions, again: bool, t: Trace): (Outcome, Trace)
    decreases !again
  {
    var t0, payload := ColdStart(net, o, again, t), PayloadOf(net, o, again, t);
    var t1 := t0.(sends := t0.sends + [Send(payload, again, t0.refreshed, |t0.waits|)]);
    match net.answers(|t0.sends|, payload)
    case Failure => (NetworkError, t1)
    case Abort => (AbortError, t1)
    case Response(status, body) =>
      if status == 401 && !o.skipAuth && !again then
        match RefreshFrom(net, t1, 0)
        case (None, t2) => (AbortError, t2)
        case (Some(Succeeded), t2) => Perform(net, o, true, t2)
        case (Some(_), t2) => (HttpError(401), t2)
      else
        (ReadBody(status, body), t1)
  }

  /** `requestWithRetry` from its `attempt`-th turn. */
  function Request(net: Network, o: RequestOptions, attempt: nat, t: Trace): (Outcome, Trace)
    requires attempt <= MAX_RETRIES
    decreases MAX_RETRIES - attempt
  {
    var (out, t0) := Perform(net, o, false, t);
    var t1 := t0.(attempts := t0.attempts + [out]);
    if RetryEnabled(o) && attempt < MAX_RETRIES && Retryable(out) then
      var t2 := Delayed(net, t1, Ceiling(300, 4_000, attempt), false);
      if net.aborts(|t1.waits|) then (AbortError, t2) else Request(net, o, attempt + 1, t2)
    else
      (out, t1)
  }

  /** The client as it runs: the functions above, by loops over a growing trace. */
  class HttpClient {
    const net: Network
    var trace: Trace

    constructor (net: Network)
      ensures this.net == net && trace == NOTHING
    {
      this.net, trace := net, NOTHING;
    }

    method TryRefresh() returns (r: Refresh)
      modifies this
      ensures r == net.refreshes(old(trace).refreshed)
      ensures trace == old(trace).(refreshed := old(trace).refreshed + 1)
    {
      r := net.refreshes(trace.refreshed);
      trace := trace.(refreshed := trace.refreshed + 1);
    }

    method Delay(ceiling: int, reactive: bool) returns (aborted: bool)
      modifies this
      ensures aborted == net.aborts(|old(trace).waits|) && trace == Delayed(net, old(trace), ceiling, reactive)
    {
      aborted := net.aborts(|trace.waits|);
      trace := Delayed(net, trace, ceiling, reactive);
    }

    method TryRefreshWithBackoff() returns (r: Option<Refresh>)
      modifies this
      ensures (r, trace) == RefreshFrom(net, old(trace), 0)
    {
      ghost var before := trace;
      var result := TryRefresh();
      var attempt := 0;
      while attempt < REACTIVE_MAX_RETRIES && result.Transient?
        invariant 0 <= attempt <= REACTIVE_MAX_RETRIES
        invariant result == net.refreshes(before.refreshed) && trace == before.(refreshed := before.refreshed + 1)
        invariant RefreshFrom(net, old(trace), 0) == RefreshFrom(net, before, attempt)
      {
        var aborted := Delay(Ceiling(250, 1_500, attempt), true);
        if aborted {
          return None;
        }
        before := trace;
        result := TryRefresh();
        attempt := attempt + 1;
      }
      r := Some(result);
    }

    method PerformRequest(o: RequestOptions, again: bool) returns (out: Outcome)
      modifies this
      ensures (out, trace) == Perform(net, o, again, old(trace))
      decreases !again
    {
      var n, headers, bearer := |trace.sends|, HeadersOf(o.headers), false;
      if !o.skipAuth {
        bearer := net.hasToken(n);
        if !bearer && !again && net.hasCookie(n) {
          var _ := TryRefresh();
          bearer := net.gotToken(n);
        }
      }
      if bearer {
        headers := headers - {"authorization"};
      }
      var payload := Payload(Verb(o), headers, HandedOn(o.init), bearer);
      var answer := net.answers(n, payload);
      trace := trace.(sends := trace.sends + [Send(payload, again, trace.refreshed, |trace.waits|)]);
      if answer.Failure? {
        return NetworkError;
      }
      if answer.Abort? {
        return AbortError;
      }
      if answer.status == 401 && !o.skipAuth && !again {
        var refreshed := TryRefreshWithBackoff();
        if refreshed.None? {
          return AbortError;
        }
        if refreshed.value.Succeeded? {
          out := PerformRequest(o, true);
          return;
        }
      }
      out := ReadBody(answer.status, answer.body);
    }

    method RequestWithRetry(o: RequestOptions) returns (out: Outcome)
      modifies this
      ensures (out, trace) == Request(net, o, 0, old(trace))
    {
      var attempt := 0;
      while true
        invariant 0 <= attempt <= MAX_RETRIES
        invariant Request(net, o, 0, old(trace)) == Request(net, o, attempt, trace)
        decreases MAX_RETRIES - attempt
      {
        out := PerformRequest(o, false);
        trace := trace.(attempts := trace.attempts + [out]);
        var canRetry := RetryEnabled(o) && attempt < MAX_RETRIES && Retryable(out);
        if !canRetry {
          return;
        }
        var aborted := Delay(Ceiling(300, 4_000, attempt), false);
        if aborted {
          return AbortError;
        }
        attempt := attempt + 1;
      }
    }
  }

  // ---------------------------------------------------------------------------------------------
  // How much is sent
  // ---------------------------------------------------------------------------------------------

  predicate Is401(a: Answer) {
    a.Response? && a.status == 401
  }

  /** A request is repeated only right after its own 401 and a refresh that succeeded. */
  predicate MayRepeat(net: Network, sends: seq<Send>, refreshed: nat) {
    sends != [] &&
    var last := sends[|sends| - 1];
    && !last.again && Is401(net.answers(|sends| - 1, last.payload))
    && refreshed > last.refreshed && net.refreshes(refreshed - 1) == Succeeded
  }

  predicate Disciplined(net: Network, sends: seq<Send>) {
    forall i :: 0 <= i < |sends| && sends[i].again ==> MayRepeat(net, sends[..i], sends[i].refreshed)
  }

  lemma SendKeepsDiscipline(net: Network, sends: seq<Send>, s: Send)
    requires Disciplined(net, sends) && (s.again ==> MayRepeat(net, sends, s.refreshed))
    ensures Disciplined(net, sends + [s])
  {
    var more := sends + [s];
    forall i | 0 <= i < |more| && more[i].again ensures MayRepeat(net, more[..i], more[i].refreshed) {
      assert more[..i] == if i < |sends| then sends[..i] else sends;
    }
  }

  /** `performRequest` up to the answer of its own send. */
  function Sent(net: Network, o: RequestOptions, again: bool, t: Trace): Trace {
    var t0 := ColdStart(net, o, again, t);
    t0.(sends := t0.sends + [Send(PayloadOf(net, o, again, t), again, t0.refreshed, |t0.waits|)])
  }

  /** `performRequest` goes through the refresh after a 401, and on to a repeat if `Repeats`. */
  predicate Refreshes(net: Network, o: RequestOptions, again: bool, t: Trace) {
    Is401(net.answers(|t.sends|, PayloadOf(net, o, again, t))) && !o.skipAuth && !again
  }

  predicate Repeats(net: Network, o: RequestOptions, again: bool, t: Trace) {
    Refreshes(net, o, again, t) && RefreshFrom(net, Sent(net, o, again, t), 0).0 == Some(Succeeded)
  }

  function Refreshed(net: Network, o: RequestOptions, again: bool, t: Trace): Trace {
    RefreshFrom(net, Sent(net, o, again, t), 0).1
  }

  lemma PerformUnfolds(net: Network, o: RequestOptions, again: bool, t: Trace)
    ensures Repeats(net, o, again, t) ==>
              Perform(net, o, again, t) == Perform(net, o, true, Refreshed(net, o, again, t))
    ensures !Repeats(net, o, again, t) && Refreshes(net, o, again, t) ==>
              Perform(net, o, again, t).1 == Refreshed(net, o, again, t)
    ensures !Refreshes(net, o, again, t) ==> Perform(net, o, again, t).1 == Sent(net, o, again, t)
  {
  }

  lemma {:induction false} RefreshCost(net: Network, t: Trace, tries: nat)
    requires tries <= REACTIVE_MAX_RETRIES
    ensures var (r, t') := RefreshFrom(net, t, tries);
            && t' == t.(refreshed := t'.refreshed, waits := t'.waits)
            && t.refreshed < t'.refreshed <= t.refreshed + 3 - tries
            && (r.Some? ==> r.value == net.refreshes(t'.refreshed - 1))
    decreases REACTIVE_MAX_RETRIES - tries
  {
    if tries < REACTIVE_MAX_RETRIES {
      var t2 := Delayed(net, t.(refreshed := t.refreshed + 1), Ceiling(250, 1_500, tries), true);
      RefreshCost(net, t2, tries + 1);
    }
  }

  /** One call of `performRequest`: two sends and four awaited refreshes at most. */
  lemma {:induction false} PerformCost(net: Network, o: RequestOptions, again: bool, t: Trace)
    ensures var t' := Perform(net, o, again, t).1;
            && |t.sends| < |t'.sends| <= |t.sends| + (if again || o.skipAuth then 1 else 2)
            && t.refreshed <= t'.refreshed <= t.refreshed + (if again || o.skipAuth then 0 else 4)
            && t'.attempts == t.attempts
    decreases !again
  {
    PerformUnfolds(net, o, again, t);
    RefreshCost(net, Sent(net, o, again, t), 0);
    if Repeats(net, o, again, t) {
      PerformCost(net, o, true, Refreshed(net, o, again, t));
    }
  }

  lemma {:induction false} PerformIsDisciplined(net: Network, o: RequestOptions, again: bool, t: Trace)
    requires Disciplined(net, t.sends) && (again ==> MayRepeat(net, t.sends, t.refreshed))
    ensures Disciplined(net, Perform(net, o, again, t).1.sends)
    decreases !again
  {
    var t1 := Sent(net, o, again, t);
    SendKeepsDiscipline(net, t.sends, t1.sends[|t.sends|]);
    PerformUnfolds(net, o, again, t);
    RefreshCost(net, t1, 0);
    if Repeats(net, o, again, t) {
      PerformIsDisciplined(net, o, true, Refreshed(net, o, again, t));
    }
  }

  /** `requestWithRetry` after one attempt, and whether it goes on to another. */
  function Attempted(net: Network, o: RequestOptions, t: Trace): Trace {
    var (out, t0) := Perform(net, o, false, t);
    t0.(attempts := t0.attempts + [out])
  }

  predicate TriesAgain(net: Network, o: RequestOptions, attempt: nat, t: Trace) {
    && RetryEnabled(o) && attempt < MAX_RETRIES && Retryable(Perform(net, o, false, t).0)
    && !net.aborts(|Attempted(net, o, t).waits|)
  }

  function NextTry(net: Network, o: RequestOptions, attempt: nat, t: Trace): Trace {
    Delayed(net, Attempted(net, o, t), Ceiling(300, 4_000, attempt), false)
  }

  lemma RequestUnfolds(net: Network, o: RequestOptions, attempt: nat, t: Trace)
    requires attempt <= MAX_RETRIES
    ensures TriesAgain(net, o, attempt, t) ==>
              Request(net, o, attempt, t) == Request(net, o, attempt + 1, NextTry(net, o, attempt, t))
    ensures !TriesAgain(net, o, attempt, t) ==>
              var out := Perform(net, o, false, t).0;
              Request(net, o, attempt, t) ==
              if RetryEnabled(o) && attempt < MAX_RETRIES && Retryable(out)
              then (AbortError, NextTry(net, o, attempt, t)) else (out, Attempted(net, o, t))
  {
  }

  lemma {:induction false} RequestCost(net: Network, o: RequestOptions, attempt: nat, t: Trace)
    requires attempt <= MAX_RETRIES
    ensures var t' := Request(net, o, attempt, t).1;
            var n := |t'.attempts| - |t.attempts|;
            && 1 <= n <= (if RetryEnabled(o) then MAX_RETRIES + 1 - attempt else 1)
            && |t.sends| + n <= |t'.sends| <= |t.sends| + (if o.skipAuth then n else 2 * n)
            && t.refreshed <= t'.refreshed <= t.refreshed + (if o.skipAuth then 0 else 4 * n)
    decreases MAX_RETRIES - attempt
  {
    PerformCost(net, o, false, t);
    RequestUnfolds(net, o, attempt, t);
    if TriesAgain(net, o, attempt, t) {
      RequestCost(net, o, attempt + 1, NextTry(net, o, attempt, t));
    }
  }

  lemma {:induction false} RequestIsDisciplined(net: Network, o: RequestOptions, attempt: nat, t: Trace)
    requires attempt <= MAX_RETRIES && Disciplined(net, t.sends)
    ensures Disciplined(net, Request(net, o, attempt, t).1.sends)
    decreases MAX_RETRIES - attempt
  {
    PerformIsDisciplined(net, o, false, t);
    RequestUnfolds(net, o, attempt, t);
    if TriesAgain(net, o, attempt, t) {
      RequestIsDisciplined(net, o, attempt + 1, NextTry(net, o, attempt, t));
    }
  }

  /**
   For every network: a request that may not be retried goes out twice at most, one that may six times,
   with four awaited refreshes an attempt; and every repeat follows a 401 and a successful refresh.
   */
  lemma SendDiscipline(net: Network, o: RequestOptions)
    ensures var t := Request(net, o, 0, NOTHING).1;
            && Disciplined(net, t.sends)
            && |t.attempts| <= (if MayRetry(o) then 3 else 1)
            && |t.sends| <= (if MayRetry(o) then 6 else 2)
            && t.refreshed <= (if o.skipAuth then 0 else if MayRetry(o) then 12 else 4)
            && (o.skipAuth ==> |t.sends| == |t.attempts|)
  {
    RequestCost(net, o, 0, NOTHING);
    RequestIsDisciplined(net, o, 0, NOTHING);
  }

  /** The network on which a retried request costs the most. */
  function Hostile(): Network {
    Network(
      (n: nat, p: Payload) => Response(if n == 0 || n == 2 || n == 4 then 401 else 503, Parsed),
      (n: nat) => if n == 3 || n == 7 || n == 11 then Succeeded else Transient,
      (n: nat) => false, (n: nat) => false, (n: nat) => true, (n: nat, c: int) => 0.0, (n: nat) => false)
  }

  lemma HostileRefresh(t: Trace, attempt: nat)
    requires attempt <= MAX_RETRIES && t.refreshed == 4 * attempt + 1
    ensures var (r, t') := RefreshFrom(Hostile(), t, 0);
            r == Some(Succeeded) && t' == t.(refreshed := t.refreshed + 3, waits := t'.waits)
  {
    var net, n := Hostile(), t.refreshed;
    assert net.refreshes(n) == Transient && net.refreshes(n + 1) == Transient && net.refreshes(n + 2) == Succeeded;
    var t1 := Delayed(net, t.(refreshed := n + 1), Ceiling(250, 1_500, 0), true);
    var t2 := Delayed(net, t1.(refreshed := n + 2), Ceiling(250, 1_500, 1), true);
    assert RefreshFrom(net, t, 0) == RefreshFrom(net, t1, 1);
    assert RefreshFrom(net, t1, 1) == RefreshFrom(net, t2, 2);
    assert RefreshFrom(net, t2, 2) == (Some(Succeeded), t2.(refreshed := n + 3));
  }

  lemma HostilePerform(o: RequestOptions, t: Trace, attempt: nat)
    requires !o.skipAuth && attempt <= MAX_RETRIES && |t.sends| == 2 * attempt && t.refreshed == 4 * attempt
    ensures var (out, t') := Perform(Hostile(), o, false, t);
            && out == HttpError(503) && |t'.sends| == |t.sends| + 2 && t'.refreshed == t.refreshed + 4
            && t'.attempts == t.attempts
  {
    HostileRefresh(Sent(Hostile(), o, false, t), attempt);
    PerformUnfolds(Hostile(), o, false, t);
  }

  /** The bounds are the best possible. */
  lemma {:induction false} SendBoundsAreReached(o: RequestOptions, attempt: nat, t: Trace)
    requires MayRetry(o) && !o.skipAuth && attempt <= MAX_RETRIES
    requires |t.sends| == 2 * attempt && t.refreshed == 4 * attempt
    ensures var t' := Request(Hostile(), o, attempt, t).1;
            |t'.sends| == 6 && t'.refreshed == 12
    decreases MAX_RETRIES - attempt
  {
    HostilePerform(o, t, attempt);
    var net := Hostile();
    var (out, t0) := Perform(net, o, false, t);
    assert out == HttpError(503) && Retryable(out);
    RequestUnfolds(net, o, attempt, t);
    if attempt < MAX_RETRIES {
      assert TriesAgain(net, o, attempt, t);
      var next := NextTry(net, o, attempt, t);
      assert next.sends == t0.sends && next.refreshed == t0.refreshed;
      SendBoundsAreReached(o, attempt + 1, next);
    }
  }

  // ---------------------------------------------------------------------------------------------
  // What comes back, and after how long
  // ---------------------------------------------------------------------------------------------

  /** Milliseconds waited before retries (`reactive` false) or between refreshes (true). */
  function Waited(waits: seq<Wait>, reactive: bool): real {
    if waits == [] then 0.0 else
    var last := waits[|waits| - 1];
    Waited(waits[..|waits| - 1], reactive) + (if last.reactive == reactive then last.ms else 0.0)
  }

  /** Whatever `Math.random()` gives, it lies between 0 and 1. */
  ghost predicate FairDice(net: Network) {
    forall n, ceiling :: ceiling >= 0 ==> 0.0 <= net.jitter(n, ceiling) <= ceiling as real
  }

  lemma WaitedOnce(net: Network, t: Trace, ceiling: int, reactive: bool, kind: bool)
    requires FairDice(net) && ceiling >= 0
    ensures var more := Waited(Delayed(net, t, ceiling, reactive).waits, kind) - Waited(t.waits, kind);
            0.0 <= more <= (if kind == reactive then ceiling as real else 0.0)
  {
    var waits := Delayed(net, t, ceiling, reactive).waits;
    var ms := net.jitter(|t.waits|, ceiling);
    assert waits[..|waits| - 1] == t.waits && waits[|waits| - 1] == Wait(reactive, ms, net.aborts(|t.waits|));
  }

  /** From `t` to `t'`, up to `ms` were spent between refreshes, and nothing else. */
  predicate RefreshPaused(t: Trace, t': Trace, ms: real) {
    && Waited(t'.waits, false) == Waited(t.waits, false)
    && 0.0 <= Waited(t'.waits, true) - Waited(t.waits, true) <= ms
  }

  function RefreshBudget(tries: nat): real {
    if tries == 0 then 750.0 else if tries == 1 then 500.0 else 0.0
  }

  /** After one more refresh, and the pause behind it. */
  function NextRefresh(net: Network, t: Trace, tries: nat): Trace {
    Delayed(net, t.(refreshed := t.refreshed + 1), Ceiling(250, 1_500, tries), true)
  }

  lemma OnePause(net: Network, t: Trace, tries: nat)
    requires FairDice(net) && tries < REACTIVE_MAX_RETRIES
    ensures RefreshPaused(t, NextRefresh(net, t, tries), RefreshBudget(tries) - RefreshBudget(tries + 1))
  {
    assert Doubled(250, 0) == 250 && Doubled(250, 1) == 500;
    WaitedOnce(net, t.(refreshed := t.refreshed + 1), Ceiling(250, 1_500, tries), true, true);
    WaitedOnce(net, t.(refreshed := t.refreshed + 1), Ceiling(250, 1_500, tries), true, false);
  }

  lemma PausesAdd(t: Trace, t1: Trace, t2: Trace, tries: nat)
    requires RefreshPaused(t, t1, RefreshBudget(tries) - RefreshBudget(tries + 1))
    ensures RefreshPaused(t, t1, RefreshBudget(tries))
    ensures RefreshPaused(t1, t2, RefreshBudget(tries + 1)) ==> RefreshPaused(t, t2, RefreshBudget(tries))
  {
  }

  lemma RefreshEnds(net: Network, t: Trace, tries: nat)
    requires tries <= REACTIVE_MAX_RETRIES
    ensures var t', t1 := RefreshFrom(net, t, tries).1, NextRefresh(net, t, tries);
            || t' == t.(refreshed := t.refreshed + 1)
            || (tries < REACTIVE_MAX_RETRIES && (t' == t1 || t' == RefreshFrom(net, t1, tries + 1).1))
  {
  }

  lemma {:induction false} RefreshWaits(net: Network, t: Trace, tries: nat)
    requires FairDice(net) && tries <= REACTIVE_MAX_RETRIES
    ensures RefreshPaused(t, RefreshFrom(net, t, tries).1, RefreshBudget(tries))
    decreases REACTIVE_MAX_RETRIES - tries
  {
    RefreshEnds(net, t, tries);
    if tries < REACTIVE_MAX_RETRIES {
      var t1 := NextRefresh(net, t, tries);
      OnePause(net, t, tries);
      RefreshWaits(net, t1, tries + 1);
      PausesAdd(t, t1, RefreshFrom(net, t1, tries + 1).1, tries);
    }
  }

  lemma {:induction false} PerformWaits(net: Network, o: RequestOptions, again: bool, t: Trace)
    requires FairDice(net)
    ensures var t' := Perform(net, o, again, t).1;
            && Waited(t'.waits, false) == Waited(t.waits, false)
            && 0.0 <= Waited(t'.waits, true) - Waited(t.waits, true) <= (if again then 0.0 else 750.0)
    decreases !again
  {
    PerformUnfolds(net, o, again, t);
    RefreshWaits(net, Sent(net, o, again, t), 0);
    if Repeats(net, o, again, t) {
      PerformWaits(net, o, true, Refreshed(net, o, again, t));
    }
  }

  /** No answer, one that broke off, or a server error. */
  predicate Passing(o: Outcome) {
    o == NetworkError || o == BareTypeError || (o.HttpError? && 500 <= o.status < 600)
  }

  /** All but the last of the attempts from the `from`-th on failed in a way that may pass. */
  predicate RetriedForCause(attempts: seq<Outcome>, from: nat) {
    from < |attempts| && forall i :: from <= i < |attempts| - 1 ==> Passing(attempts[i])
  }

  /** The backoff before retries from the `attempt`-th on. */
  function Budget(attempt: nat): real {
    if attempt == 0 then 900.0 else if attempt == 1 then 600.0 else 0.0
  }

  /** And between the refreshes of `attempts` attempts. */
  function ReactiveBudget(attempts: int): real {
    if attempts <= 0 then 0.0 else if attempts == 1 then 750.0 else if attempts == 2 then 1500.0 else 2250.0
  }

  /** From `t` to `t'`, the attempts from the `attempt`-th on and the waits they cost. */
  predicate WithinBudget(t: Trace, t': Trace, attempt: nat) {
    && 1 <= |t'.attempts| - |t.attempts| <= MAX_RETRIES + 1 - attempt
    && 0.0 <= Waited(t'.waits, false) - Waited(t.waits, false) <= Budget(attempt)
    && 0.0 <= Waited(t'.waits, true) - Waited(t.waits, true) <= ReactiveBudget(|t'.attempts| - |t.attempts|)
  }

  /** From `t` to `t'`, the wait before the next attempt. */
  predicate Paused(t: Trace, t': Trace, attempt: nat) {
    && t'.attempts == t.attempts && Waited(t'.waits, true) == Waited(t.waits, true)
    && 0.0 <= Waited(t'.waits, false) - Waited(t.waits, false) <= (if attempt == 0 then 300.0 else 600.0)
  }

  /** From `t` to `t'`, one attempt. */
  predicate TriedOnce(t: Trace, t': Trace) {
    && |t'.attempts| == |t.attempts| + 1 && Waited(t'.waits, false) == Waited(t.waits, false)
    && 0.0 <= Waited(t'.waits, true) - Waited(t.waits, true) <= 750.0
  }

  lemma AttemptWaits(net: Network, o: RequestOptions, attempt: nat, t: Trace)
    requires FairDice(net) && attempt <= MAX_RETRIES
    ensures TriedOnce(t, Attempted(net, o, t))
    ensures attempt < MAX_RETRIES ==> Paused(Attempted(net, o, t), NextTry(net, o, attempt, t), attempt)
  {
    PerformWaits(net, o, false, t);
    PerformCost(net, o, false, t);
    if attempt < MAX_RETRIES {
      assert Doubled(300, 0) == 300 && Doubled(300, 1) == 600;
      WaitedOnce(net, Attempted(net, o, t), Ceiling(300, 4_000, attempt), false, false);
      WaitedOnce(net, Attempted(net, o, t), Ceiling(300, 4_000, attempt), false, true);
    }
  }

  /** One attempt, and perhaps a pause and further ones, keep to the budget. */
  lemma BudgetAdds(t: Trace, t1: Trace, t2: Trace, t3: Trace, attempt: nat)
    requires TriedOnce(t, t1) && attempt <= MAX_RETRIES
    ensures WithinBudget(t, t1, attempt)
    ensures attempt < MAX_RETRIES && Paused(t1, t2, attempt) ==>
              WithinBudget(t, t2, attempt) && (WithinBudget(t2, t3, attempt + 1) ==> WithinBudget(t, t3, attempt))
  {
  }

  lemma RequestEnds(net: Network, o: RequestOptions, attempt: nat, t: Trace)
    requires attempt <= MAX_RETRIES
    ensures var t' := Request(net, o, attempt, t).1;
            if TriesAgain(net, o, attempt, t) then t' == Request(net, o, attempt + 1, NextTry(net, o, attempt, t)).1
            else t' == Attempted(net, o, t) || (attempt < MAX_RETRIES && t' == NextTry(net, o, attempt, t))
  {
    RequestUnfolds(net, o, attempt, t);
  }

  lemma {:induction false} RequestWaits(net: Network, o: RequestOptions, attempt: nat, t: Trace)
    requires FairDice(net) && attempt <= MAX_RETRIES
    ensures WithinBudget(t, Request(net, o, attempt, t).1, attempt)
    decreases MAX_RETRIES - attempt
  {
    AttemptWaits(net, o, attempt, t);
    RequestEnds(net, o, attempt, t);
    var t1, t2, t3 := Attempted(net, o, t), NextTry(net, o, attempt, t), Request(net, o, attempt, t).1;
    if TriesAgain(net, o, attempt, t) {
      RequestWaits(net, o, attempt + 1, t2);
    }
    BudgetAdds(t, t1, t2, t3, attempt);
  }

  /** The caller's own abort, during a wait before a retry of something retryable. */
  predicate AbortedWait(out: Outcome, last: Outcome, waits: seq<Wait>) {
    && out == AbortError && Passing(last)
    && waits != [] && waits[|waits| - 1].aborted && !waits[|waits| - 1].reactive
  }

  /** From `t` on, attempts were made for a cause, and `out` is what the last came to, or an abort. */
  predicate EndedWith(t: Trace, out: Outcome, t': Trace) {
    && t.attempts <= t'.attempts && RetriedForCause(t'.attempts, |t.attempts|)
    && (out == t'.attempts[|t'.attempts| - 1] || AbortedWait(out, t'.attempts[|t'.attempts| - 1], t'.waits))
  }

  lemma AttemptEnds(net: Network, o: RequestOptions, attempt: nat, t: Trace)
    requires attempt <= MAX_RETRIES
    ensures var (out, t1) := (Perform(net, o, false, t).0, Attempted(net, o, t));
            && t1.attempts == t.attempts + [out]
            && (TriesAgain(net, o, attempt, t) ==> Passing(out) && NextTry(net, o, attempt, t).attempts == t1.attempts)
            && (!TriesAgain(net, o, attempt, t) ==>
                  var (last, t') := Request(net, o, attempt, t);
                  t'.attempts == t1.attempts && (last == out || AbortedWait(last, out, t'.waits)))
  {
    PerformCost(net, o, false, t);
    RequestUnfolds(net, o, attempt, t);
  }

  lemma OneMoreCause(t: Trace, out: Outcome, t1: Trace, last: Outcome, t': Trace)
    requires t1.attempts == t.attempts + [out] && Passing(out) && EndedWith(t1, last, t')
    ensures EndedWith(t, last, t')
  {
  }

  lemma {:induction false} RequestOutcome(net: Network, o: RequestOptions, attempt: nat, t: Trace)
    requires attempt <= MAX_RETRIES
    ensures EndedWith(t, Request(net, o, attempt, t).0, Request(net, o, attempt, t).1)
    decreases MAX_RETRIES - attempt
  {
    AttemptEnds(net, o, attempt, t);
    if TriesAgain(net, o, attempt, t) {
      var t1 := NextTry(net, o, attempt, t);
      RequestOutcome(net, o, attempt + 1, t1);
      RequestUnfolds(net, o, attempt, t);
      OneMoreCause(t, Perform(net, o, false, t).0, t1,
                   Request(net, o, attempt + 1, t1).0, Request(net, o, attempt + 1, t1).1);
    }
  }

  /** The caller is given the last attempt's outcome, or its own abort; every earlier attempt failed in a
      way worth retrying; and the waits stay within 900 ms, and 750 ms per refresh after a 401. */
  lemma OutcomeAndWaits(net: Network, o: RequestOptions)
    requires FairDice(net)
    ensures var (out, t) := Request(net, o, 0, NOTHING);
            && RetriedForCause(t.attempts, 0)
            && (out == t.attempts[|t.attempts| - 1] || AbortedWait(out, t.attempts[|t.attempts| - 1], t.waits))
            && Waited(t.waits, false) <= 900.0 && Waited(t.waits, true) <= 750.0 * |t.attempts| as real
  {
    RequestOutcome(net, o, 0, NOTHING);
    RequestWaits(net, o, 0, NOTHING);
    assert Waited(NOTHING.waits, false) == 0.0 && Waited(NOTHING.waits, true) == 0.0 && |NOTHING.attempts| == 0;
  }

  /** No wait was aborted so far. */
  predicate Undisturbed(t: Trace) {
    (forall w :: w in t.waits ==> !w.aborted) && (forall s :: s in t.sends ==> s.waited <= |t.waits|)
  }

  /** The last wait was aborted, no earlier one was, and nothing was sent after it. */
  predicate Stopped(t: Trace) {
    && t.waits != [] && t.waits[|t.waits| - 1].aborted
    && (forall w :: w in t.waits[..|t.waits| - 1] ==> !w.aborted)
    && (forall s :: s in t.sends ==> s.waited < |t.waits|)
  }

  lemma DelayStops(net: Network, t: Trace, ceiling: int, reactive: bool)
    requires Undisturbed(t)
    ensures var t' := Delayed(net, t, ceiling, reactive);
            if net.aborts(|t.waits|) then Stopped(t') else Undisturbed(t')
  {
    var t' := Delayed(net, t, ceiling, reactive);
    assert t'.waits[..|t'.waits| - 1] == t.waits;
  }

  lemma {:induction false} RefreshStops(net: Network, t: Trace, tries: nat)
    requires tries <= REACTIVE_MAX_RETRIES && Undisturbed(t)
    ensures var (r, t') := RefreshFrom(net, t, tries); if r == None then Stopped(t') else Undisturbed(t')
    decreases REACTIVE_MAX_RETRIES - tries
  {
    var t1 := t.(refreshed := t.refreshed + 1);
    if tries < REACTIVE_MAX_RETRIES {
      DelayStops(net, t1, Ceiling(250, 1_500, tries), true);
      if !net.aborts(|t1.waits|) {
        RefreshStops(net, Delayed(net, t1, Ceiling(250, 1_500, tries), true), tries + 1);
      }
    }
  }

  lemma {:induction false} PerformStops(net: Network, o: RequestOptions, again: bool, t: Trace)
    requires Undisturbed(t)
    ensures var (out, t') := Perform(net, o, again, t); Undisturbed(t') || (Stopped(t') && out == AbortError)
    decreases !again
  {
    PerformUnfolds(net, o, again, t);
    assert Undisturbed(Sent(net, o, again, t));
    RefreshStops(net, Sent(net, o, again, t), 0);
    if Repeats(net, o, again, t) {
      PerformStops(net, o, true, Refreshed(net, o, again, t));
    }
  }

  /** An abort during any wait ends the request at once: nothing is sent after it, and the caller is told. */
  lemma {:induction false} AbortStopsRequest(net: Network, o: RequestOptions, attempt: nat, t: Trace)
    requires attempt <= MAX_RETRIES && Undisturbed(t)
    ensures var (out, t') := Request(net, o, attempt, t); Undisturbed(t') || (Stopped(t') && out == AbortError)
    decreases MAX_RETRIES - attempt
  {
    PerformStops(net, o, false, t);
    RequestUnfolds(net, o, attempt, t);
    var t1 := Attempted(net, o, t);
    if Retryable(Perform(net, o, false, t).0) {
      assert Undisturbed(t1);
      DelayStops(net, t1, Ceiling(300, 4_000, attempt), false);
      if TriesAgain(net, o, attempt, t) {
        AbortStopsRequest(net, o, attempt + 1, NextTry(net, o, attempt, t));
      }
    }
  }

  // ---------------------------------------------------------------------------------------------
  // Sharing one request among callers
  // ---------------------------------------------------------------------------------------------

  /** What `dedupeKey` looks at, for requests to one URL. */
  predicate SameKey(o: RequestOptions, p: RequestOptions) {
    Verb(o) == Verb(p)
  }

  /** Whatever the network does, a caller with `p` is told what its own request would have told it. */
  ghost predicate Interchangeable(o: RequestOptions, p: RequestOptions) {
    forall net :: Request(net, o, 0, NOTHING).0 == Request(net, p, 0, NOTHING).0
  }

  /** What the key leaves out and yet matters: two flags, and all that is sent. */
  predicate SameTreatment(o: RequestOptions, p: RequestOptions) {
    && o.skipAuth == p.skipAuth && o.noRetry == p.noRetry
    && HeadersOf(o.headers) == HeadersOf(p.headers) && HandedOn(o.init) == HandedOn(p.init)
  }

  lemma {:induction false} SamePerform(net: Network, o: RequestOptions, p: RequestOptions, again: bool, t: Trace)
    requires SameKey(o, p) && SameTreatment(o, p)
    ensures Perform(net, o, again, t) == Perform(net, p, again, t)
    decreases !again
  {
    assert PayloadOf(net, o, again, t) == PayloadOf(net, p, again, t);
    PerformUnfolds(net, o, again, t);
    PerformUnfolds(net, p, again, t);
    if Repeats(net, o, again, t) {
      SamePerform(net, o, p, true, Refreshed(net, o, again, t));
    }
  }

  lemma {:induction false} SameRequest(net: Network, o: RequestOptions, p: RequestOptions, attempt: nat, t: Trace)
    requires SameKey(o, p) && SameTreatment(o, p) && attempt <= MAX_RETRIES
    ensures Request(net, o, attempt, t) == Request(net, p, attempt, t)
    decreases MAX_RETRIES - attempt
  {
    SamePerform(net, o, p, false, t);
    RequestUnfolds(net, o, attempt, t);
    RequestUnfolds(net, p, attempt, t);
    if TriesAgain(net, o, attempt, t) {
      SameRequest(net, o, p, attempt + 1, NextTry(net, o, attempt, t));
    }
  }

  function Flaky(first: Answer, rest: Answer): Network {
    Network((n: nat, p: Payload) => if n == 0 then first else rest, (n: nat) => Succeeded,
            (n: nat) => true, (n: nat) => true, (n: nat) => true, (n: nat, c: int) => 0.0, (n: nat) => false)
  }

  lemma FlakyOutcome(o: RequestOptions, unauthorized: bool)
    requires Verb(o) == "GET" || Verb(o) == "HEAD" || Verb(o) == "OPTIONS"
    ensures var first := if unauthorized then Response(401, Parsed) else Failure;
            var out := Request(Flaky(first, Response(200, Parsed)), o, 0, NOTHING).0;
            out == Value(200) <==> (if unauthorized then !o.skipAuth else !o.noRetry)
  {
    var first := if unauthorized then Response(401, Parsed) else Failure;
    var net := Flaky(first, Response(200, Parsed));
    RequestUnfolds(net, o, 0, NOTHING);
    PerformUnfolds(net, o, false, NOTHING);
    if unauthorized {
      var t1 := Sent(net, o, false, NOTHING);
      assert RefreshFrom(net, t1, 0) == (Some(Succeeded), t1.(refreshed := t1.refreshed + 1));
    } else if RetryEnabled(o) {
      RequestUnfolds(net, o, 1, NextTry(net, o, 0, NOTHING));
    }
  }

  /** A server that serves whoever sends these headers and settings, and nobody else; no token is held. */
  function Picky(headers: map<string, string>, init: map<string, string>): Network {
    Network((n: nat, p: Payload) => Response(if p.headers == headers && p.init == init then 200 else 404, Parsed),
            (n: nat) => Succeeded,
            (n: nat) => false, (n: nat) => false, (n: nat) => false, (n: nat, c: int) => 0.0, (n: nat) => false)
  }

  lemma PickyOutcome(o: RequestOptions, headers: map<string, string>, init: map<string, string>)
    ensures var out := Request(Picky(headers, init), o, 0, NOTHING).0;
            out == if HeadersOf(o.headers) == headers && HandedOn(o.init) == init then Value(200) else HttpError(404)
  {
    RequestUnfolds(Picky(headers, init), o, 0, NOTHING);
  }

  /**
   The key leaves out options that matter: callers sharing one request are told what their own would have
   told them, on every network, exactly when they agree on `skipAuth`, on `noRetry`, on the headers as sent
   and on whatever else is handed on to `fetch`.
   */
  lemma SharingIsFaithfulExactly(o: RequestOptions, p: RequestOptions)
    requires SameKey(o, p) && (Verb(o) == "GET" || Verb(o) == "HEAD" || Verb(o) == "OPTIONS")
    ensures Interchangeable(o, p) <==> SameTreatment(o, p)
  {
    if SameTreatment(o, p) {
      forall net ensures Request(net, o, 0, NOTHING).0 == Request(net, p, 0, NOTHING).0 {
        SameRequest(net, o, p, 0, NOTHING);
      }
    } else if HeadersOf(o.headers) != HeadersOf(p.headers) || HandedOn(o.init) != HandedOn(p.init) {
      PickyOutcome(o, HeadersOf(o.headers), HandedOn(o.init));
      PickyOutcome(p, HeadersOf(o.headers), HandedOn(o.init));
    } else {
      FlakyOutcome(o, o.skipAuth != p.skipAuth);
      FlakyOutcome(p, o.skipAuth != p.skipAuth);
    }
  }

  /** Options may well be written differently and yet be interchangeable; so may the credentials mode. */
  lemma SpellingIsFree(value: string, mode: string)
    ensures var o := RequestOptions(None, false, false, [("Accept", value)], map["credentials" := mode]);
            var p := RequestOptions(Some("get"), false, false, [("accept", value)], map[]);
            o != p && SameKey(o, p) && Interchangeable(o, p)
  {
    var o := RequestOptions(None, false, false, [("Accept", value)], map["credentials" := mode]);
    var p := RequestOptions(Some("get"), false, false, [("accept", value)], map[]);
    GetInUpper();
    AcceptInLower();
    HeaderOfOne("Accept", value);
    HeaderOfOne("accept", value);
    SharingIsFaithfulExactly(o, p);
  }

  lemma HeaderOfOne(name: string, value: string)
    ensures HeadersOf([(name, value)]) == map[Lower(name) := value]
  {
    assert [(name, value)][..0] == [];
  }

  lemma GetInUpper()
    ensures Upper("GET") == "GET" && Upper("get") == "GET"
  {
    assert "GET"[1..] == "ET" && "ET"[1..] == "T" && "get"[1..] == "et" && "et"[1..] == "t";
    assert Upper("T") == "T" && Upper("t") == "T";
  }

  lemma AcceptInLower()
    ensures Lower("Accept") == "accept" && Lower("accept") == "accept"
  {
    assert "Accept"[1..] == "ccept" && "accept"[1..] == "ccept" && "ccept"[1..] == "cept" && "cept"[1..] == "ept";
    assert "ept"[1..] == "pt" && "pt"[1..] == "t";
    assert Lower("t") == "t";
    assert Lower("pt") == "pt";
    assert Lower("ept") == "ept";
    assert Lower("cept") == "cept";
    assert Lower("ccept") == "ccept";
  }
}
