/**
 The rate limiter's storage, which lets requests through when its store fails
 (apps/api/src/common/throttler/fail-open-throttler.storage.ts:31-83).
 */
module FailOpen {
  import opened Options

  datatype Record = Record(totalHits: int, timeToExpire: int, isBlocked: bool, timeToBlockExpire: int)

  /** A call: what the store did, `None` when it threw, and the clock when that was noticed. */
  datatype Call = Call(ttl: int, inner: Option<Record>, now: int)

  const LOG_INTERVAL_MS := 5_000

  datatype Storage = Storage(lastErrorLogAt: int, failOpenCount: nat, warnings: seq<int>)

  const NEW := Storage(0, 0, [])

  function Count(s: Storage, c: Call): Storage {
    if c.inner.Some? then s
    else
      var counted := s.(failOpenCount := s.failOpenCount + 1);
      if c.now - s.lastErrorLogAt < LOG_INTERVAL_MS then counted
      else counted.(lastErrorLogAt := c.now, warnings := s.warnings + [c.now])
  }

  function Run(calls: seq<Call>): Storage {
    if calls == [] then NEW else Count(Run(calls[..|calls| - 1]), calls[|calls| - 1])
  }

  class FailOpenThrottlerStorage {
    var lastErrorLogAt: int
    var failOpenCount: nat
    var warnings: seq<int>  // the clock at each line logged

    constructor ()
      ensures AsStorage() == NEW
    {
      lastErrorLogAt, failOpenCount, warnings := 0, 0, [];
    }

    ghost function AsStorage(): Storage
      reads this
    {
      Storage(lastErrorLogAt, failOpenCount, warnings)
    }

    /** The store's own record, or one that lets the request through. */
    method Increment(c: Call) returns (r: Record)
      modifies this
      ensures AsStorage() == Count(old(AsStorage()), c)
      ensures c.inner.Some? ==> r == c.inner.value
      ensures c.inner.None? ==> !r.isBlocked && r.totalHits == 0 && r.timeToExpire == c.ttl && r.timeToBlockExpire == 0
    {
      if c.inner.Some? {
        return c.inner.value;
      }
      failOpenCount := failOpenCount + 1;
      LogFailure(c.now);
      r := Record(0, c.ttl, false, 0);
    }

    method LogFailure(now: int)
      modifies this`lastErrorLogAt, this`warnings
      ensures var due := now - old(lastErrorLogAt) >= LOG_INTERVAL_MS;
              && lastErrorLogAt == (if due then now else old(lastErrorLogAt))
              && warnings == (if due then old(warnings) + [now] else old(warnings))
    {
      if now - lastErrorLogAt < LOG_INTERVAL_MS {
        return;
      }
      lastErrorLogAt := now;
      warnings := warnings + [now];
    }
  }

  function Failures(calls: seq<Call>): nat {
    if calls == [] then 0 else Failures(calls[..|calls| - 1]) + (if calls[|calls| - 1].inner.None? then 1 else 0)
  }

  predicate Consistent(s: Storage) {
    && s.lastErrorLogAt == (if s.warnings == [] then 0 else s.warnings[|s.warnings| - 1])
    && forall i :: 0 <= i < |s.warnings| - 1 ==> s.warnings[i] + 5_000 <= s.warnings[i + 1]
  }

  lemma {:induction false} RunIsConsistent(calls: seq<Call>)
    ensures Consistent(Run(calls)) && Run(calls).failOpenCount == Failures(calls)
  {
    if calls != [] {
      RunIsConsistent(calls[..|calls| - 1]);
    }
  }

  lemma {:induction false} WarningsSpread(s: Storage, i: nat, j: nat)
    requires Consistent(s) && i <= j < |s.warnings|
    ensures s.warnings[j] - s.warnings[i] >= (j - i) * 5_000
    decreases j - i
  {
    if i < j {
      WarningsSpread(s, i, j - 1);
    }
  }

  /** For every sequence of calls and clock readings, even one running backwards: any k warnings in a row
      span (k - 1) intervals at least, and the counter is the number of failures. */
  lemma WarningsAreRare(calls: seq<Call>, i: nat, k: nat)
    requires k > 0 && i + k <= |Run(calls).warnings|
    ensures Run(calls).warnings[i + k - 1] - Run(calls).warnings[i] >= (k - 1) * 5_000
    ensures Run(calls).failOpenCount == Failures(calls)
  {
    RunIsConsistent(calls);
    WarningsSpread(Run(calls), i, i + k - 1);
  }

  /** The failure of call `i` is logged, or lies less than an interval past the line logged last. */
  predicate Covered(calls: seq<Call>, i: nat)
    requires i < |calls|
  {
    var logged := Run(calls[..i + 1]).warnings;
    logged != [] && var last := logged[|logged| - 1]; calls[i].now - 5_000 < last <= calls[i].now
  }

  /** Nor is an outage passed over, exactly as long as the clock is not behind the last line logged, and has
      run for an interval if there is none. */
  lemma FailureIsCoveredExactly(calls: seq<Call>, i: nat)
    requires i < |calls| && calls[i].inner.None?
    ensures var before, now := Run(calls[..i]), calls[i].now;
            Covered(calls, i) <==> before.lastErrorLogAt <= now && (before.warnings != [] || now >= 5_000)
  {
    RunIsConsistent(calls[..i]);
    assert calls[..i + 1][..i] == calls[..i];
  }

  /** A clock set back silences an outage for as long as it is behind. */
  lemma ClockSetBackSilences(ttl: int, day: int, behind: int)
    requires day >= 5_000 && behind < day
    ensures !Covered([Call(ttl, None, day), Call(ttl, None, behind)], 1)
    ensures Run([Call(ttl, None, day), Call(ttl, None, behind)]).warnings == [day]
  {
    var calls := [Call(ttl, None, day), Call(ttl, None, behind)];
    assert calls[..1] == [Call(ttl, None, day)] && calls[..1][..0] == [] && calls[..2] == calls;
    assert Run(calls[..1]) == Storage(day, 1, [day]);
  }

  lemma {:induction false} LogIsPast(calls: seq<Call>, now: int)
    requires now >= 0 && forall c :: c in calls ==> c.now <= now
    ensures Run(calls).lastErrorLogAt <= now
  {
    if calls != [] {
      LogIsPast(calls[..|calls| - 1], now);
    }
  }

  /** With a clock that does not run back, every failure after the first interval is covered. */
  lemma SteadyClockCoversAll(calls: seq<Call>, i: nat)
    requires i < |calls| && calls[i].inner.None? && calls[i].now >= 5_000
    requires forall j, k :: 0 <= j < k < |calls| ==> calls[j].now <= calls[k].now
    ensures Covered(calls, i)
  {
    LogIsPast(calls[..i], calls[i].now);
    FailureIsCoveredExactly(calls, i);
  }
}
