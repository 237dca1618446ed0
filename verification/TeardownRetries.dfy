/**
 Any number of teardowns of one account, of any modes, one after another
 (apps/api/src/common/account-teardown.ts:75-286), each with its own failures and its own time. One that is
 ended by an exception is one whose remaining writes reached nothing (`Teardown.Cut`).
 */
module TeardownRetries {
  import opened Options
  import opened Teardown

  datatype Attempt = Attempt(mode: Mode, port: bool, faults: Faults, now: int)

  /** The database after `runs`. */
  function Replay(db: Database, u: nat, runs: seq<Attempt>): Database {
    if runs == [] then db else
    var a := runs[|runs| - 1];
    After(Replay(db, u, runs[..|runs| - 1]), u, a.mode, a.faults, a.now)
  }

  predicate ClockRuns(runs: seq<Attempt>) {
    forall i, j :: 0 <= i < j < |runs| ==> runs[i].now <= runs[j].now
  }

  /** The writes that reach a given row of a given collection. */
  datatype Write = Subscriptions | Profiles | Wallets | Placements | Devices | Pushes | Gifts | Reports | Incidents

  function ReplyTo(f: Faults, w: Write): Reply {
    match w
    case Subscriptions => f.subscription
    case Profiles => f.profile
    case Wallets => f.wallet
    case Placements => f.placements
    case Devices => f.devices
    case Pushes => f.pushes
    case Gifts => f.gifts
    case Reports => f.reports
    case Incidents => f.incidents
  }

  predicate InMode(m: Mode, w: Write) {
    Permanent(m) || w.Subscriptions? || w.Profiles? || w.Placements?
  }

  predicate Reaches(a: Attempt, w: Write, row: nat) {
    InMode(a.mode, w) && Reached(ReplyTo(a.faults, w), row)
  }

  predicate EverReaches(runs: seq<Attempt>, w: Write, row: nat) {
    exists i :: 0 <= i < |runs| && Reaches(runs[i], w, row)
  }

  /** The rows either reply reached. */
  function Both(r: Reply, q: Reply): Reply {
    if r.Acked? || q.Acked? then Acked else Threw(r.reached + q.reached)
  }

  /** The rows that any of the runs reached, as one reply. */
  function Overall(runs: seq<Attempt>, w: Write): Reply {
    if runs == [] then Threw({}) else
    var a := runs[|runs| - 1];
    var before := Overall(runs[..|runs| - 1], w);
    if InMode(a.mode, w) then Both(before, ReplyTo(a.faults, w)) else before
  }

  lemma {:induction false} OverallReaches(runs: seq<Attempt>, w: Write, row: nat)
    ensures Reached(Overall(runs, w), row) <==> EverReaches(runs, w, row)
  {
    if runs != [] {
      var front := runs[..|runs| - 1];
      OverallReaches(front, w, row);
      if EverReaches(front, w, row) {
        var i :| 0 <= i < |front| && Reaches(front[i], w, row);
        assert Reaches(runs[i], w, row);
      }
      if EverReaches(runs, w, row) {
        var i :| 0 <= i < |runs| && Reaches(runs[i], w, row);
        assert i < |front| ==> Reaches(front[i], w, row);
      }
      if Reaches(runs[|runs| - 1], w, row) {
        assert EverReaches(runs, w, row);
      }
    }
  }

  /** When a row of the Top feed was first reached. */
  function FirstStamp(runs: seq<Attempt>, row: nat): Option<int> {
    if runs == [] then None else
    var before := FirstStamp(runs[..|runs| - 1], row);
    if before.Some? then before
    else if Reaches(runs[|runs| - 1], Placements, row) then Some(runs[|runs| - 1].now) else None
  }

  function StampIn(m: map<nat, Placement>, u: nat, runs: seq<Attempt>): map<nat, Placement> {
    map k | k in m ::
      if m[k].owner == u && FirstStamp(runs, k).Some? then ExpireAt(m[k], FirstStamp(runs, k).value) else m[k]
  }

  /** The outcome of `runs` without running them: each write counts once, for all the rows it ever reached. */
  function Outcome(db: Database, u: nat, runs: seq<Attempt>): Database {
    Database(
      TerminateIn(db.subscriptions, u, Overall(runs, Subscriptions)),
      DowngradeIn(db.profiles, u, Overall(runs, Profiles)),
      ZeroIn(db.wallets, u, Overall(runs, Wallets)),
      StampIn(db.placements, u, runs),
      DeleteIn(db.devices, u, Overall(runs, Devices)),
      DeleteIn(db.pushes, u, Overall(runs, Pushes)),
      RedactGiftsIn(db.gifts, u, Overall(runs, Gifts)),
      RedactReportsIn(db.reports, u, Overall(runs, Reports)),
      RedactIncidentsIn(db.incidents, u, Overall(runs, Incidents)),
      db.ledger)
  }

  // Doing a write twice is doing it once for the rows of both.

  lemma BillingTwice(s: map<nat, Subscription>, p: map<nat, Profile>, u: nat, r: Reply, q: Reply)
    ensures TerminateIn(TerminateIn(s, u, r), u, q) == TerminateIn(s, u, Both(r, q))
    ensures DowngradeIn(DowngradeIn(p, u, r), u, q) == DowngradeIn(p, u, Both(r, q))
  {
  }

  lemma WalletTwice(m: map<nat, Wallet>, u: nat, r: Reply, q: Reply)
    ensures ZeroIn(ZeroIn(m, u, r), u, q) == ZeroIn(m, u, Both(r, q))
  {
  }

  lemma DeleteTwice(m: map<nat, nat>, u: nat, r: Reply, q: Reply)
    ensures DeleteIn(DeleteIn(m, u, r), u, q) == DeleteIn(m, u, Both(r, q))
  {
  }

  lemma RedactGiftsTwice(m: map<nat, Gift>, u: nat, r: Reply, q: Reply)
    ensures RedactGiftsIn(RedactGiftsIn(m, u, r), u, q) == RedactGiftsIn(m, u, Both(r, q))
  {
  }

  lemma RedactReportsTwice(m: map<nat, AbuseReport>, u: nat, r: Reply, q: Reply)
    ensures RedactReportsIn(RedactReportsIn(m, u, r), u, q) == RedactReportsIn(m, u, Both(r, q))
  {
  }

  lemma RedactIncidentsTwice(m: map<nat, Incident>, u: nat, r: Reply, q: Reply)
    ensures RedactIncidentsIn(RedactIncidentsIn(m, u, r), u, q) == RedactIncidentsIn(m, u, Both(r, q))
  {
  }

  lemma {:induction false} StampIsPast(runs: seq<Attempt>, row: nat, now: int)
    requires forall a :: a in runs ==> a.now <= now
    ensures FirstStamp(runs, row).Some? ==> FirstStamp(runs, row).value <= now
  {
    if runs != [] {
      StampIsPast(runs[..|runs| - 1], row, now);
    }
  }

  /** With a clock that does not run backwards, a placement keeps its first stamp. */
  lemma StampOnce(m: map<nat, Placement>, u: nat, runs: seq<Attempt>)
    requires runs != [] && ClockRuns(runs)
    ensures var a := runs[|runs| - 1];
            ExpireIn(StampIn(m, u, runs[..|runs| - 1]), u, a.faults.placements, a.now) == StampIn(m, u, runs)
  {
    var front, a := runs[..|runs| - 1], runs[|runs| - 1];
    forall k | k in m {
      StampIsPast(front, k, a.now);
    }
  }

  // One more attempt on top of a known outcome, collection by collection.

  lemma BillingGrows(s: map<nat, Subscription>, p: map<nat, Profile>, u: nat, runs: seq<Attempt>)
    requires runs != []
    ensures var front, f := runs[..|runs| - 1], runs[|runs| - 1].faults;
            && TerminateIn(TerminateIn(s, u, Overall(front, Subscriptions)), u, f.subscription)
               == TerminateIn(s, u, Overall(runs, Subscriptions))
            && DowngradeIn(DowngradeIn(p, u, Overall(front, Profiles)), u, f.profile)
               == DowngradeIn(p, u, Overall(runs, Profiles))
  {
    var front, f := runs[..|runs| - 1], runs[|runs| - 1].faults;
    BillingTwice(s, p, u, Overall(front, Subscriptions), f.subscription);
    BillingTwice(s, p, u, Overall(front, Profiles), f.profile);
  }

  lemma WalletGrows(m: map<nat, Wallet>, u: nat, runs: seq<Attempt>)
    requires runs != []
    ensures var front, a := runs[..|runs| - 1], runs[|runs| - 1];
            var before := ZeroIn(m, u, Overall(front, Wallets));
            (if Permanent(a.mode) then ZeroIn(before, u, a.faults.wallet) else before)
            == ZeroIn(m, u, Overall(runs, Wallets))
  {
    WalletTwice(m, u, Overall(runs[..|runs| - 1], Wallets), runs[|runs| - 1].faults.wallet);
  }

  lemma DeleteGrows(m: map<nat, nat>, u: nat, runs: seq<Attempt>, w: Write)
    requires runs != [] && (w.Devices? || w.Pushes?)
    ensures var front, a := runs[..|runs| - 1], runs[|runs| - 1];
            var before := DeleteIn(m, u, Overall(front, w));
            (if Permanent(a.mode) then DeleteIn(before, u, ReplyTo(a.faults, w)) else before)
            == DeleteIn(m, u, Overall(runs, w))
  {
    DeleteTwice(m, u, Overall(runs[..|runs| - 1], w), ReplyTo(runs[|runs| - 1].faults, w));
  }

  lemma GiftsGrow(m: map<nat, Gift>, u: nat, runs: seq<Attempt>)
    requires runs != []
    ensures var front, a := runs[..|runs| - 1], runs[|runs| - 1];
            var before := RedactGiftsIn(m, u, Overall(front, Gifts));
            (if Permanent(a.mode) then RedactGiftsIn(before, u, a.faults.gifts) else before)
            == RedactGiftsIn(m, u, Overall(runs, Gifts))
  {
    RedactGiftsTwice(m, u, Overall(runs[..|runs| - 1], Gifts), runs[|runs| - 1].faults.gifts);
  }

  lemma ReportsGrow(m: map<nat, AbuseReport>, u: nat, runs: seq<Attempt>)
    requires runs != []
    ensures var front, a := runs[..|runs| - 1], runs[|runs| - 1];
            var before := RedactReportsIn(m, u, Overall(front, Reports));
            (if Permanent(a.mode) then RedactReportsIn(before, u, a.faults.reports) else before)
            == RedactReportsIn(m, u, Overall(runs, Reports))
  {
    RedactReportsTwice(m, u, Overall(runs[..|runs| - 1], Reports), runs[|runs| - 1].faults.reports);
  }

  lemma IncidentsGrow(m: map<nat, Incident>, u: nat, runs: seq<Attempt>)
    requires runs != []
    ensures var front, a := runs[..|runs| - 1], runs[|runs| - 1];
            var before := RedactIncidentsIn(m, u, Overall(front, Incidents));
            (if Permanent(a.mode) then RedactIncidentsIn(before, u, a.faults.incidents) else before)
            == RedactIncidentsIn(m, u, Overall(runs, Incidents))
  {
    RedactIncidentsTwice(m, u, Overall(runs[..|runs| - 1], Incidents), runs[|runs| - 1].faults.incidents);
  }

  lemma SuspensionGrows(db: Database, u: nat, runs: seq<Attempt>)
    requires runs != [] && ClockRuns(runs)
    ensures var a := runs[|runs| - 1];
            var x, y := After(Outcome(db, u, runs[..|runs| - 1]), u, a.mode, a.faults, a.now), Outcome(db, u, runs);
            && x.subscriptions == y.subscriptions && x.profiles == y.profiles
            && x.wallets == y.wallets && x.placements == y.placements && x.ledger == y.ledger
  {
    BillingGrows(db.subscriptions, db.profiles, u, runs);
    WalletGrows(db.wallets, u, runs);
    StampOnce(db.placements, u, runs);
  }

  lemma DevicesGrow(db: Database, u: nat, runs: seq<Attempt>)
    requires runs != []
    ensures var a := runs[|runs| - 1];
            After(Outcome(db, u, runs[..|runs| - 1]), u, a.mode, a.faults, a.now).devices
            == Outcome(db, u, runs).devices
  {
    DeleteGrows(db.devices, u, runs, Devices);
  }

  lemma PushesGrow(db: Database, u: nat, runs: seq<Attempt>)
    requires runs != []
    ensures var a := runs[|runs| - 1];
            After(Outcome(db, u, runs[..|runs| - 1]), u, a.mode, a.faults, a.now).pushes == Outcome(db, u, runs).pushes
  {
    DeleteGrows(db.pushes, u, runs, Pushes);
  }

  lemma RedactionGrows(db: Database, u: nat, runs: seq<Attempt>)
    requires runs != []
    ensures var a := runs[|runs| - 1];
            var x, y := After(Outcome(db, u, runs[..|runs| - 1]), u, a.mode, a.faults, a.now), Outcome(db, u, runs);
            x.gifts == y.gifts && x.reports == y.reports && x.incidents == y.incidents
  {
    GiftsGrow(db.gifts, u, runs);
    ReportsGrow(db.reports, u, runs);
    IncidentsGrow(db.incidents, u, runs);
  }

  lemma NothingYet(db: Database, u: nat)
    ensures Outcome(db, u, []) == db
  {
    NothingSuspended(db, u);
    NothingScrubbed(db, u);
  }

  lemma NothingSuspended(db: Database, u: nat)
    ensures var db' := Outcome(db, u, []);
            && db'.subscriptions == db.subscriptions && db'.profiles == db.profiles
            && db'.wallets == db.wallets && db'.placements == db.placements
  {
  }

  lemma NothingScrubbed(db: Database, u: nat)
    ensures var db' := Outcome(db, u, []);
            && db'.devices == db.devices && db'.pushes == db.pushes
            && db'.gifts == db.gifts && db'.reports == db.reports && db'.incidents == db.incidents
  {
  }

  /**
   Whatever fails, in whatever mode and however often: the runs leave each row as the one write that ever
   reached it would have, placements with the time that first happened.
   */
  lemma {:induction false} ReplayIsOutcome(db: Database, u: nat, runs: seq<Attempt>)
    requires ClockRuns(runs)
    ensures Replay(db, u, runs) == Outcome(db, u, runs)
  {
    if runs == [] {
      NothingYet(db, u);
    } else {
      ReplayIsOutcome(db, u, runs[..|runs| - 1]);
      SuspensionGrows(db, u, runs);
      DevicesGrow(db, u, runs);
      PushesGrow(db, u, runs);
      RedactionGrows(db, u, runs);
    }
  }

  // ---------------------------------------------------------------------------------------------
  // Retrying until everything has succeeded once
  // ---------------------------------------------------------------------------------------------

  predicate Acknowledges(a: Attempt, w: Write) {
    InMode(a.mode, w) && ReplyTo(a.faults, w).Acked?
  }

  predicate EverAcknowledged(runs: seq<Attempt>, w: Write) {
    exists i :: 0 <= i < |runs| && Acknowledges(runs[i], w)
  }

  /** Each write was acknowledged in some run that made it. */
  ghost predicate AllDone(runs: seq<Attempt>) {
    forall w: Write :: EverAcknowledged(runs, w)
  }

  lemma {:induction false} AckedOnce(runs: seq<Attempt>, w: Write)
    ensures Overall(runs, w).Acked? <==> EverAcknowledged(runs, w)
  {
    if runs != [] {
      var front := runs[..|runs| - 1];
      AckedOnce(front, w);
      if Overall(front, w).Acked? {
        var i :| 0 <= i < |front| && Acknowledges(front[i], w);
        assert Acknowledges(runs[i], w);
      }
      if EverAcknowledged(runs, w) {
        var i :| 0 <= i < |runs| && Acknowledges(runs[i], w);
        assert i < |front| ==> Acknowledges(front[i], w);
      }
      if Acknowledges(runs[|runs| - 1], w) {
        assert Overall(runs, w).Acked?;
      }
    }
  }

  lemma DoneIsAcked(runs: seq<Attempt>, w: Write)
    requires AllDone(runs)
    ensures Overall(runs, w).Acked?
  {
    AckedOnce(runs, w);
    assert EverAcknowledged(runs, w);
  }

  /** Retries, bans among them, end where one clean erasure at any time would, but for the stamps. */
  lemma RetriesConverge(db: Database, u: nat, runs: seq<Attempt>, now: int)
    requires ClockRuns(runs) && AllDone(runs)
    ensures Replay(db, u, runs) == After(db, u, Erase, NO_FAULTS, now).(placements := StampIn(db.placements, u, runs))
  {
    ReplayIsOutcome(db, u, runs);
    forall w: Write ensures Overall(runs, w).Acked? {
      DoneIsAcked(runs, w);
    }
  }

  lemma {:induction false} FirstStampStays(runs: seq<Attempt>, more: seq<Attempt>, row: nat)
    requires FirstStamp(runs, row).Some?
    ensures FirstStamp(runs + more, row) == FirstStamp(runs, row)
  {
    if more == [] {
      assert runs + more == runs;
    } else {
      assert (runs + more)[..|runs + more| - 1] == runs + more[..|more| - 1];
      FirstStampStays(runs, more[..|more| - 1], row);
    }
  }

  lemma {:induction false} FirstStampExists(runs: seq<Attempt>, row: nat)
    ensures FirstStamp(runs, row).Some? <==> Reached(Overall(runs, Placements), row)
  {
    if runs != [] {
      FirstStampExists(runs[..|runs| - 1], row);
    }
  }

  /** After that, further runs of whatever kind change nothing at all. */
  lemma FurtherRunsChangeNothing(db: Database, u: nat, runs: seq<Attempt>, more: seq<Attempt>)
    requires ClockRuns(runs + more) && AllDone(runs)
    ensures Replay(db, u, runs + more) == Replay(db, u, runs)
  {
    assert ClockRuns(runs) by {
      forall i, j | 0 <= i < j < |runs| ensures runs[i].now <= runs[j].now {
        assert (runs + more)[i] == runs[i] && (runs + more)[j] == runs[j];
      }
    }
    assert AllDone(runs + more) by {
      forall w: Write ensures EverAcknowledged(runs + more, w) {
        assert EverAcknowledged(runs, w);
        var i :| 0 <= i < |runs| && Acknowledges(runs[i], w);
        assert Acknowledges((runs + more)[i], w);
      }
    }
    DoneIsAcked(runs, Placements);
    forall k ensures FirstStamp(runs + more, k) == FirstStamp(runs, k) {
      FirstStampExists(runs, k);
      FirstStampStays(runs, more, k);
    }
    assert StampIn(db.placements, u, runs + more) == StampIn(db.placements, u, runs);
    RetriesConverge(db, u, runs, 0);
    RetriesConverge(db, u, runs + more, 0);
  }

  /** A ban and later an erasure come to an erasure alone, except that the Top feed has the ban's stamp. */
  lemma BanThenErase(db: Database, u: nat, ban: int, erase: int)
    requires ban <= erase
    ensures After(After(db, u, Ban, NO_FAULTS, ban), u, Erase, NO_FAULTS, erase)
            == After(db, u, Erase, NO_FAULTS, erase).(placements := ExpireIn(db.placements, u, Acked, ban))
  {
    BillingTwice(db.subscriptions, db.profiles, u, Acked, Acked);
    assert ExpireIn(ExpireIn(db.placements, u, Acked, ban), u, Acked, erase) == ExpireIn(db.placements, u, Acked, ban);
  }

  // ---------------------------------------------------------------------------------------------
  // Stopping the provider
  // ---------------------------------------------------------------------------------------------

  /** The provider was asked in run `i`, and did not fail. */
  predicate Stopped(db: Database, u: nat, runs: seq<Attempt>, i: nat)
    requires i < |runs|
  {
    Asked(Replay(db, u, runs[..i]), u, runs[i].port, runs[i].faults).Some? && !runs[i].faults.cancelFails
  }

  /** The row was terminated by one of the runs. */
  predicate RowTerminated(u: nat, runs: seq<Attempt>) {
    Reached(Overall(runs, Subscriptions), u)
  }

  lemma {:induction false} CancelIdAfter(db: Database, u: nat, runs: seq<Attempt>)
    ensures CancelId(Replay(db, u, runs), u) == if RowTerminated(u, runs) then None else CancelId(db, u)
  {
    if runs != [] {
      CancelIdAfter(db, u, runs[..|runs| - 1]);
    }
  }

  /** Once the row is terminated the provider is never asked again, whatever else the runs do. */
  lemma NeverAskedAgain(db: Database, u: nat, runs: seq<Attempt>, port: bool, f: Faults)
    requires RowTerminated(u, runs)
    ensures Asked(Replay(db, u, runs), u, port, f) == None
  {
    CancelIdAfter(db, u, runs);
  }

  /** The row holds an id to stop the provider by. */
  predicate Identified(db: Database, u: nat) {
    && u in db.subscriptions
    && db.subscriptions[u].subscriptionId.Some? && db.subscriptions[u].subscriptionId.value != ""
  }

  /** This attempt would stop the provider, given an id to stop it by. */
  predicate WouldStop(a: Attempt) {
    a.port && !a.faults.readFails && !a.faults.cancelFails
  }

  /**
   The provider is stopped exactly if some attempt gets through to it while the row still has its id:
   the row is terminated, and the id forgotten, even when the read or the provider has just failed.
   */
  lemma ProviderStoppedExactly(db: Database, u: nat, runs: seq<Attempt>)
    ensures (exists i :: 0 <= i < |runs| && Stopped(db, u, runs, i)) <==>
            Identified(db, u) && exists i :: 0 <= i < |runs| && WouldStop(runs[i]) && !RowTerminated(u, runs[..i])
  {
    forall i | 0 <= i < |runs|
      ensures Stopped(db, u, runs, i) <==> CancelId(db, u).Some? && WouldStop(runs[i]) && !RowTerminated(u, runs[..i])
    {
      CancelIdAfter(db, u, runs[..i]);
    }
  }

  /** So an id forgotten unsent is lost: no retry ever stops the provider. */
  lemma LostForGood(db: Database, u: nat, runs: seq<Attempt>, more: seq<Attempt>)
    requires RowTerminated(u, runs) && forall i :: 0 <= i < |runs| ==> !WouldStop(runs[i])
    ensures forall i :: 0 <= i < |runs + more| ==> !Stopped(db, u, runs + more, i)
  {
    var all := runs + more;
    forall i | 0 <= i < |all| ensures !Stopped(db, u, all, i) {
      CancelIdAfter(db, u, all[..i]);
      if i < |runs| {
        assert all[i] == runs[i];
      } else {
        assert all[..i] == runs + more[..i - |runs|];
        TerminatedStays(u, runs, more[..i - |runs|]);
      }
    }
  }

  lemma {:induction false} TerminatedStays(u: nat, runs: seq<Attempt>, more: seq<Attempt>)
    requires RowTerminated(u, runs)
    ensures RowTerminated(u, runs + more)
  {
    if more == [] {
      assert runs + more == runs;
    } else {
      assert (runs + more)[..|runs + more| - 1] == runs + more[..|more| - 1];
      TerminatedStays(u, runs, more[..|more| - 1]);
    }
  }

  /** And that happens: after one failed read nothing stops the provider, though the row had an id to stop it by. */
  lemma FailedReadLosesTheId(db: Database, u: nat, now: int, more: seq<Attempt>)
    requires Identified(db, u)
    ensures var runs := [Attempt(Erase, true, NO_FAULTS.(readFails := true), now)] + more;
            forall i :: 0 <= i < |runs| ==> !Stopped(db, u, runs, i)
    ensures Stopped(db, u, [Attempt(Erase, true, NO_FAULTS, now)], 0)
  {
    var a := Attempt(Erase, true, NO_FAULTS.(readFails := true), now);
    assert [a][..0] == [];
    assert Overall([a], Subscriptions) == Both(Overall([], Subscriptions), Acked);
    LostForGood(db, u, [a], more);
  }

  // ---------------------------------------------------------------------------------------------
  // What any number of runs leaves alone, keeps, and comes to
  // ---------------------------------------------------------------------------------------------

  lemma OneRunSparesOthers(db: Database, u: nat, a: Attempt)
    ensures OthersStay(u, db, After(db, u, a.mode, a.faults, a.now))
    ensures OthersWritingsStay(u, db, After(db, u, a.mode, a.faults, a.now))
  {
  }

  lemma SparingAdds(u: nat, a: Database, b: Database, c: Database)
    ensures OthersStay(u, a, b) && OthersStay(u, b, c) && RecordsStand(a, b) ==> OthersStay(u, a, c)
    ensures OthersWritingsStay(u, a, b) && OthersWritingsStay(u, b, c) && RecordsStand(a, b) ==>
              OthersWritingsStay(u, a, c)
  {
  }

  /** However often the user is torn down, nothing of anyone else's, or by anyone else, is ever touched. */
  lemma {:induction false} OthersNeverTouched(db: Database, u: nat, runs: seq<Attempt>)
    ensures OthersStay(u, db, Replay(db, u, runs)) && OthersWritingsStay(u, db, Replay(db, u, runs))
  {
    if runs != [] {
      var front, a := runs[..|runs| - 1], runs[|runs| - 1];
      OthersNeverTouched(db, u, front);
      RecordsSurvive(db, u, front);
      OneRunSparesOthers(Replay(db, u, front), u, a);
      SparingAdds(u, db, Replay(db, u, front), Replay(db, u, runs));
    }
  }

  lemma OneRunKeepsRecords(db: Database, u: nat, a: Attempt)
    ensures RecordsStand(db, After(db, u, a.mode, a.faults, a.now))
  {
  }

  /** However often and in whatever modes, the ledgers and the moderation record stand. */
  lemma {:induction false} RecordsSurvive(db: Database, u: nat, runs: seq<Attempt>)
    ensures RecordsStand(db, Replay(db, u, runs))
  {
    if runs != [] {
      RecordsSurvive(db, u, runs[..|runs| - 1]);
      OneRunKeepsRecords(Replay(db, u, runs[..|runs| - 1]), u, runs[|runs| - 1]);
    }
  }

  /** However often a user is banned, that can be undone. */
  lemma {:induction false} BansAreReversible(db: Database, u: nat, runs: seq<Attempt>)
    requires forall a :: a in runs ==> a.mode == Ban
    ensures Reversible(db, Replay(db, u, runs))
  {
    if runs != [] {
      BansAreReversible(db, u, runs[..|runs| - 1]);
    }
  }

  lemma CleanErasure(db: Database, u: nat, now: int)
    ensures Closed(u, After(db, u, Erase, NO_FAULTS, now), now) && Forgotten(u, After(db, u, Erase, NO_FAULTS, now))
  {
  }

  /** Once each write was acknowledged, by whatever runs, nothing of the user's is left to bill, show or reach. */
  lemma NothingIsLeft(db: Database, u: nat, runs: seq<Attempt>, now: int)
    requires ClockRuns(runs) && AllDone(runs) && forall a :: a in runs ==> a.now <= now
    ensures Closed(u, Replay(db, u, runs), now) && Forgotten(u, Replay(db, u, runs))
  {
    var end := After(db, u, Erase, NO_FAULTS, now);
    RetriesConverge(db, u, runs, now);
    CleanErasure(db, u, now);
    forall k | k in db.placements && db.placements[k].owner == u
      ensures StampIn(db.placements, u, runs)[k].expiresAt <= now
    {
      DoneIsAcked(runs, Placements);
      FirstStampExists(runs, k);
      StampIsPast(runs, k, now);
    }
  }
}
