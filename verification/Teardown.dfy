/**
 Taking down one account while any part of the database may fail
 (apps/api/src/common/account-teardown.ts). A collection is a map, keyed by user where a user has one row.
 A failing write may have reached some of its rows; which ones is left open.
 */
module Teardown {
  import opened Options

  datatype Mode = Erase | Delete | Ban

  datatype Subscription = Subscription(
    status: string, cancelAtPeriodEnd: bool, currentPeriodEnd: int,
    token: Option<string>, subscriptionId: Option<string>)
  datatype Profile = Profile(isPremium: bool, premiumUntil: Option<int>, badges: seq<string>, nickname: string)
  datatype Wallet = Wallet(balanceCoins: int, earned: int)
  datatype Placement = Placement(owner: nat, expiresAt: int, expired: bool, paid: int)
  datatype Gift = Gift(from: nat, to: nat, coins: int, message: Option<string>)
  datatype AbuseReport = AbuseReport(from: nat, against: nat, details: Option<string>, evidenceUrl: Option<string>)
  datatype Incident = Incident(owner: nat, verdict: string, evidenceUrl: Option<string>)

  datatype Database = Database(
    subscriptions: map<nat, Subscription>, profiles: map<nat, Profile>, wallets: map<nat, Wallet>,
    placements: map<nat, Placement>,
    devices: map<nat, nat>, pushes: map<nat, nat>,  // to their owners
    gifts: map<nat, Gift>, reports: map<nat, AbuseReport>, incidents: map<nat, Incident>,
    ledger: map<nat, int>)                          // coin transactions and payments

  datatype Op =
    | ReadSubscription | CancelUpstream | TerminateSubscription | ClearPremium | ZeroWallet | ExpirePlacements
    | DeleteDevices | DeletePushes | RedactGifts | RedactReports | RedactIncidents

  /** What became of a write: acknowledged, or an exception after reaching some rows. */
  datatype Reply = Acked | Threw(reached: set<nat>)

  datatype Faults = Faults(
    readFails: bool, cancelFails: bool,
    subscription: Reply, profile: Reply, wallet: Reply, placements: Reply,
    devices: Reply, pushes: Reply, gifts: Reply, reports: Reply, incidents: Reply,
    mute: set<Op>)  // steps whose failure cannot be reported: saying so throws in its turn

  const NO_FAULTS := Faults(false, false, Acked, Acked, Acked, Acked, Acked, Acked, Acked, Acked, Acked, {})

  predicate Reached(r: Reply, row: nat) {
    r.Acked? || row in r.reached
  }

  predicate Permanent(m: Mode) {
    !m.Ban?
  }

  // What each write does to a row it reaches.

  function Terminated(s: Subscription): Subscription {
    Subscription("none", false, 0, None, None)
  }

  function Without(badges: seq<string>, badge: string): (r: seq<string>)
    ensures badge !in r && forall b :: b in badges && b != badge ==> b in r
    ensures badge !in badges ==> r == badges
  {
    if badges == [] then []
    else if badges[0] == badge then Without(badges[1..], badge)
    else [badges[0]] + Without(badges[1..], badge)
  }

  lemma {:induction false} PullCounts(badges: seq<string>, badge: string, b: string)
    ensures multiset(Without(badges, badge))[b] == if b == badge then 0 else multiset(badges)[b]
  {
    if badges != [] {
      PullCounts(badges[1..], badge, b);
      assert badges == [badges[0]] + badges[1..];
    }
  }

  /** `part` is what is at the places `at` of `whole`, in order. */
  predicate Picks(part: seq<string>, whole: seq<string>, at: seq<nat>) {
    && |at| == |part|
    && (forall i :: 0 <= i < |at| ==> at[i] < |whole| && part[i] == whole[at[i]])
    && (forall i, j :: 0 <= i < j < |at| ==> at[i] < at[j])
  }

  lemma PicksBehind(part: seq<string>, first: string, whole: seq<string>, at: seq<nat>) returns (later: seq<nat>)
    requires Picks(part, whole, at)
    ensures Picks(part, [first] + whole, later) && (forall i :: 0 <= i < |later| ==> later[i] > 0)
  {
    later := seq(|at|, i requires 0 <= i < |at| => at[i] + 1);
  }

  lemma PicksFirst(part: seq<string>, whole: seq<string>, at: seq<nat>)
    requires Picks(part, whole, at) && whole != [] && (forall i :: 0 <= i < |at| ==> at[i] > 0)
    ensures Picks([whole[0]] + part, whole, [0] + at)
  {
  }

  lemma {:induction false} PlacesKept(badges: seq<string>, badge: string) returns (at: seq<nat>)
    ensures Picks(Without(badges, badge), badges, at)
  {
    at := [];
    if badges != [] {
      assert badges == [badges[0]] + badges[1..];
      var rest := PlacesKept(badges[1..], badge);
      at := PicksBehind(Without(badges[1..], badge), badges[0], badges[1..], rest);
      if badges[0] != badge {
        PicksFirst(Without(badges[1..], badge), badges, at);
        at := [0] + at;
      }
    }
  }

  /** Pulling a badge takes it out, and nothing else: the others stay as many as they were, and in order. */
  lemma PullsOnly(badges: seq<string>, badge: string)
    ensures forall b :: multiset(Without(badges, badge))[b] == if b == badge then 0 else multiset(badges)[b]
    ensures exists at :: Picks(Without(badges, badge), badges, at)
  {
    forall b {
      PullCounts(badges, badge, b);
    }
    var at := PlacesKept(badges, badge);
  }

  function Downgraded(p: Profile): Profile {
    p.(isPremium := false, premiumUntil := None, badges := Without(p.badges, "premium"))
  }

  function ExpireAt(p: Placement, now: int): Placement {
    if p.expiresAt > now then p.(expiresAt := now, expired := true) else p
  }

  // What each write does to its collection.

  function TerminateIn(m: map<nat, Subscription>, u: nat, r: Reply): map<nat, Subscription> {
    map k | k in m :: if k == u && Reached(r, k) then Terminated(m[k]) else m[k]
  }

  function DowngradeIn(m: map<nat, Profile>, u: nat, r: Reply): map<nat, Profile> {
    map k | k in m :: if k == u && Reached(r, k) then Downgraded(m[k]) else m[k]
  }

  function ZeroIn(m: map<nat, Wallet>, u: nat, r: Reply): map<nat, Wallet> {
    map k | k in m :: if k == u && Reached(r, k) then m[k].(balanceCoins := 0) else m[k]
  }

  function ExpireIn(m: map<nat, Placement>, u: nat, r: Reply, now: int): map<nat, Placement> {
    map k | k in m :: if m[k].owner == u && Reached(r, k) then ExpireAt(m[k], now) else m[k]
  }

  function DeleteIn(m: map<nat, nat>, u: nat, r: Reply): map<nat, nat> {
    map k | k in m && !(m[k] == u && Reached(r, k)) :: m[k]
  }

  function RedactGiftsIn(m: map<nat, Gift>, u: nat, r: Reply): map<nat, Gift> {
    map k | k in m :: if m[k].from == u && Reached(r, k) then m[k].(message := None) else m[k]
  }

  function RedactReportsIn(m: map<nat, AbuseReport>, u: nat, r: Reply): map<nat, AbuseReport> {
    map k | k in m :: if m[k].from == u && Reached(r, k) then m[k].(details := None, evidenceUrl := None) else m[k]
  }

  function RedactIncidentsIn(m: map<nat, Incident>, u: nat, r: Reply): map<nat, Incident> {
    map k | k in m :: if m[k].owner == u && Reached(r, k) then m[k].(evidenceUrl := None) else m[k]
  }

  /** The surviving effects, collection by collection: no order among the steps is left in it. */
  function After(db: Database, u: nat, mode: Mode, f: Faults, now: int): Database {
    var permanent := Permanent(mode);
    Database(
      TerminateIn(db.subscriptions, u, f.subscription),
      DowngradeIn(db.profiles, u, f.profile),
      if permanent then ZeroIn(db.wallets, u, f.wallet) else db.wallets,
      ExpireIn(db.placements, u, f.placements, now),
      if permanent then DeleteIn(db.devices, u, f.devices) else db.devices,
      if permanent then DeleteIn(db.pushes, u, f.pushes) else db.pushes,
      if permanent then RedactGiftsIn(db.gifts, u, f.gifts) else db.gifts,
      if permanent then RedactReportsIn(db.reports, u, f.reports) else db.reports,
      if permanent then RedactIncidentsIn(db.incidents, u, f.incidents) else db.incidents,
      db.ledger)
  }

  /** The subscription id that `cancelUpstream` would be given. */
  function CancelId(db: Database, u: nat): Option<string> {
    if u in db.subscriptions && db.subscriptions[u].subscriptionId.Some?
       && db.subscriptions[u].subscriptionId.value != ""
    then db.subscriptions[u].subscriptionId else None
  }

  /** What is asked of the billing provider in one teardown. */
  function Asked(db: Database, u: nat, port: bool, f: Faults): Option<string> {
    if port && !f.readFails then CancelId(db, u) else None
  }

  /** The operation ends in an exception; `asked` says whether the provider is asked at all. */
  predicate Throws(f: Faults, asked: bool, op: Op) {
    match op
    case ReadSubscription => f.readFails
    case CancelUpstream => asked && f.cancelFails
    case TerminateSubscription => f.subscription.Threw?
    case ClearPremium => f.profile.Threw?
    case ZeroWallet => f.wallet.Threw?
    case ExpirePlacements => f.placements.Threw?
    case DeleteDevices => f.devices.Threw?
    case DeletePushes => f.pushes.Threw?
    case RedactGifts => f.gifts.Threw?
    case RedactReports => f.reports.Threw?
    case RedactIncidents => f.incidents.Threw?
  }

  const BILLING: seq<Op> := [ReadSubscription, CancelUpstream, TerminateSubscription, ClearPremium]
  const ENDPOINTS: seq<Op> := [DeleteDevices, DeletePushes]
  const WRITINGS: seq<Op> := [RedactGifts, RedactReports, RedactIncidents]
  const SCRUB: seq<Op> := ENDPOINTS + WRITINGS

  function TopSteps(mode: Mode): seq<Op> {
    if mode == Ban then [ExpirePlacements] else [ZeroWallet, ExpirePlacements]
  }

  function ScrubSteps(mode: Mode): seq<Op> {
    if mode == Ban then [] else SCRUB
  }

  /** What a teardown sets out to do, in order. */
  function StepsOf(mode: Mode): seq<Op> {
    BILLING + TopSteps(mode) + ScrubSteps(mode)
  }

  /** The step's exception gets out, because its handler throws. */
  predicate Escapes(f: Faults, asked: bool, op: Op) {
    Throws(f, asked, op) && op in f.mute
  }

  /** Those of `steps` that fail and can be reported, in order. */
  function Reports(steps: seq<Op>, f: Faults, asked: bool): seq<Op> {
    if steps == [] then [] else
    (if Throws(f, asked, steps[0]) && steps[0] !in f.mute then [steps[0]] else []) + Reports(steps[1..], f, asked)
  }

  lemma {:induction false} ReportsJoin(a: seq<Op>, b: seq<Op>, f: Faults, asked: bool)
    ensures Reports(a + b, f, asked) == Reports(a, f, asked) + Reports(b, f, asked)
  {
    if a == [] {
      assert a + b == b;
    } else {
      assert (a + b)[1..] == a[1..] + b;
      ReportsJoin(a[1..], b, f, asked);
    }
  }

  lemma OneMore(steps: seq<Op>, op: Op, f: Faults, asked: bool)
    ensures Reports(steps + [op], f, asked)
            == Reports(steps, f, asked) + if Throws(f, asked, op) && op !in f.mute then [op] else []
  {
    ReportsJoin(steps, [op], f, asked);
    assert Reports([], f, asked) == [] && [op][1..] == [];
  }

  lemma {:induction false} ReportsCount(steps: seq<Op>, f: Faults, asked: bool, op: Op)
    ensures multiset(Reports(steps, f, asked))[op]
            == if Throws(f, asked, op) && op !in f.mute then multiset(steps)[op] else 0
  {
    if steps != [] {
      assert steps == [steps[0]] + steps[1..];
      ReportsCount(steps[1..], f, asked, op);
    }
  }

  /** The warnings of a teardown that comes to its end, in the order of its steps. */
  function Warnings(db: Database, u: nat, mode: Mode, port: bool, f: Faults): seq<Op> {
    Reports(StepsOf(mode), f, Asked(db, u, port, f).Some?)
  }

  function Rank(op: Op): nat {
    match op
    case ReadSubscription => 0 case CancelUpstream => 1 case TerminateSubscription => 2 case ClearPremium => 3
    case ZeroWallet => 4 case ExpirePlacements => 5
    case DeleteDevices => 6 case DeletePushes => 7 case RedactGifts => 8 case RedactReports => 9
    case RedactIncidents => 10
  }

  lemma {:induction false} RankedOnce(steps: seq<Op>, op: Op)
    requires forall i, j :: 0 <= i < j < |steps| ==> Rank(steps[i]) < Rank(steps[j])
    ensures multiset(steps)[op] == if op in steps then 1 else 0
  {
    if steps != [] {
      RankedOnce(steps[1..], op);
      assert steps == [steps[0]] + steps[1..];
    }
  }

  lemma StepsAreRanked(mode: Mode)
    ensures var steps := StepsOf(mode); forall i, j :: 0 <= i < j < |steps| ==> Rank(steps[i]) < Rank(steps[j])
  {
    if mode == Ban {
      assert forall i :: 0 <= i < 4 ==> Rank(StepsOf(mode)[i]) == i;
    } else {
      assert forall i :: 0 <= i < 4 ==> Rank(BILLING[i]) == i;
      assert forall i :: 0 <= i < 5 ==> Rank(SCRUB[i]) == 6 + i;
      assert forall i :: 6 <= i < 11 ==> StepsOf(mode)[i] == SCRUB[i - 6];
      assert forall i :: 0 <= i < 11 ==> Rank(StepsOf(mode)[i]) == i;
    }
  }

  /** Every step that was due and failed is reported once if it can be, and nothing else is. */
  lemma WarningsAreTheFailures(db: Database, u: nat, mode: Mode, port: bool, f: Faults, op: Op)
    ensures multiset(Warnings(db, u, mode, port, f))[op] ==
            if op in StepsOf(mode) && Throws(f, Asked(db, u, port, f).Some?, op) && op !in f.mute then 1 else 0
  {
    ReportsCount(StepsOf(mode), f, Asked(db, u, port, f).Some?, op);
    StepsAreRanked(mode);
    RankedOnce(StepsOf(mode), op);
  }

  /** A ban leaves five steps; any other teardown makes all eleven. */
  lemma DueSteps(mode: Mode, op: Op)
    ensures op in StepsOf(mode) <==>
              || mode == Erase || mode == Delete
              || op == ReadSubscription || op == CancelUpstream || op == TerminateSubscription
              || op == ClearPremium || op == ExpirePlacements
  {
    assert op in StepsOf(mode) <==> op in BILLING || op in TopSteps(mode) || op in ScrubSteps(mode);
    assert op in SCRUB <==> op in ENDPOINTS || op in WRITINGS;
    assert BILLING[0] == ReadSubscription && BILLING[1] == CancelUpstream;
    assert BILLING[2] == TerminateSubscription && BILLING[3] == ClearPremium;
    assert ENDPOINTS[0] == DeleteDevices && ENDPOINTS[1] == DeletePushes;
    assert WRITINGS[0] == RedactGifts && WRITINGS[1] == RedactReports && WRITINGS[2] == RedactIncidents;
    assert TopSteps(mode)[|TopSteps(mode)| - 1] == ExpirePlacements;
    assert mode != Ban ==> TopSteps(mode)[0] == ZeroWallet;
  }

  /** The failures as they bear on the database when only the first `n` steps are reached. */
  function Cut(f: Faults, mode: Mode, n: nat): Faults {
    var skipped := if mode == Ban then 1 else 0;
    f.(subscription := if n >= 3 then f.subscription else Threw({}),
       profile := if n >= 4 then f.profile else Threw({}),
       wallet := if n >= 5 && mode != Ban then f.wallet else Threw({}),
       placements := if n >= 6 - skipped then f.placements else Threw({}),
       devices := if n >= 7 then f.devices else Threw({}),
       pushes := if n >= 8 then f.pushes else Threw({}),
       gifts := if n >= 9 then f.gifts else Threw({}),
       reports := if n >= 10 then f.reports else Threw({}),
       incidents := if n >= 11 then f.incidents else Threw({}))
  }

  // ---------------------------------------------------------------------------------------------
  // What each step leaves of its collection, row by row.
  // ---------------------------------------------------------------------------------------------

  predicate Terminates(a: map<nat, Subscription>, b: map<nat, Subscription>, u: nat, r: Reply) {
    && b.Keys == a.Keys
    && forall k :: k in a ==>
         b[k] == if k == u && Reached(r, k) then Subscription("none", false, 0, None, None) else a[k]
  }

  predicate Downgrades(a: map<nat, Profile>, b: map<nat, Profile>, u: nat, r: Reply) {
    && b.Keys == a.Keys
    && forall k :: k in a ==>
         if k == u && Reached(r, k)
         then !b[k].isPremium && b[k].premiumUntil == None && b[k].nickname == a[k].nickname
              && b[k].badges == Without(a[k].badges, "premium")
         else b[k] == a[k]
  }

  predicate Zeroes(a: map<nat, Wallet>, b: map<nat, Wallet>, u: nat, r: Reply) {
    && b.Keys == a.Keys
    && forall k :: k in a ==>
         && b[k].earned == a[k].earned
         && b[k].balanceCoins == if k == u && Reached(r, k) then 0 else a[k].balanceCoins
  }

  predicate Expires(a: map<nat, Placement>, b: map<nat, Placement>, u: nat, r: Reply, now: int) {
    && b.Keys == a.Keys
    && forall k :: k in a ==>
         if a[k].owner == u && Reached(r, k) && a[k].expiresAt > now
         then b[k].expiresAt == now && b[k].expired && b[k].owner == u && b[k].paid == a[k].paid
         else b[k] == a[k]
  }

  predicate Deletes(a: map<nat, nat>, b: map<nat, nat>, u: nat, r: Reply) {
    && (forall k :: k in b ==> k in a && b[k] == a[k])
    && forall k :: k in a ==> (k !in b <==> a[k] == u && Reached(r, k))
  }

  predicate Silences(a: map<nat, Gift>, b: map<nat, Gift>, u: nat, r: Reply) {
    && b.Keys == a.Keys
    && forall k :: k in a ==>
         && b[k].from == a[k].from && b[k].to == a[k].to && b[k].coins == a[k].coins
         && b[k].message == if a[k].from == u && Reached(r, k) then None else a[k].message
  }

  predicate Blanks(a: map<nat, AbuseReport>, b: map<nat, AbuseReport>, u: nat, r: Reply) {
    && b.Keys == a.Keys
    && forall k :: k in a ==>
         && b[k].from == a[k].from && b[k].against == a[k].against
         && b[k].details == (if a[k].from == u && Reached(r, k) then None else a[k].details)
         && b[k].evidenceUrl == (if a[k].from == u && Reached(r, k) then None else a[k].evidenceUrl)
  }

  predicate Hides(a: map<nat, Incident>, b: map<nat, Incident>, u: nat, r: Reply) {
    && b.Keys == a.Keys
    && forall k :: k in a ==>
         && b[k].owner == a[k].owner && b[k].verdict == a[k].verdict
         && b[k].evidenceUrl == if a[k].owner == u && Reached(r, k) then None else a[k].evidenceUrl
  }

  /** Row by row is all there is to say: the steps of a suspension. */
  lemma SuspendedRows(a: Database, b: Database, u: nat, f: Faults, now: int)
    ensures Terminates(a.subscriptions, b.subscriptions, u, f.subscription) ==>
              b.subscriptions == TerminateIn(a.subscriptions, u, f.subscription)
    ensures Downgrades(a.profiles, b.profiles, u, f.profile) ==> b.profiles == DowngradeIn(a.profiles, u, f.profile)
    ensures Zeroes(a.wallets, b.wallets, u, f.wallet) ==> b.wallets == ZeroIn(a.wallets, u, f.wallet)
    ensures Expires(a.placements, b.placements, u, f.placements, now) ==>
              b.placements == ExpireIn(a.placements, u, f.placements, now)
  {
  }

  /** And those of an erasure. */
  lemma ScrubbedRows(a: Database, b: Database, u: nat, f: Faults)
    ensures Deletes(a.devices, b.devices, u, f.devices) ==> b.devices == DeleteIn(a.devices, u, f.devices)
    ensures Deletes(a.pushes, b.pushes, u, f.pushes) ==> b.pushes == DeleteIn(a.pushes, u, f.pushes)
    ensures Silences(a.gifts, b.gifts, u, f.gifts) ==> b.gifts == RedactGiftsIn(a.gifts, u, f.gifts)
    ensures Blanks(a.reports, b.reports, u, f.reports) ==> b.reports == RedactReportsIn(a.reports, u, f.reports)
    ensures Hides(a.incidents, b.incidents, u, f.incidents) ==>
              b.incidents == RedactIncidentsIn(a.incidents, u, f.incidents)
  {
  }

  // What each function leaves of the database, when it has gone through `n` of its steps.

  predicate Billed(a: Database, b: Database, u: nat, f: Faults, n: nat) {
    && b == a.(subscriptions := b.subscriptions, profiles := b.profiles)
    && (if n >= 3 then Terminates(a.subscriptions, b.subscriptions, u, f.subscription)
        else b.subscriptions == a.subscriptions)
    && (if n >= 4 then Downgrades(a.profiles, b.profiles, u, f.profile) else b.profiles == a.profiles)
  }

  predicate Unlisted(a: Database, b: Database, u: nat, mode: Mode, f: Faults, now: int, n: nat) {
    && b == a.(wallets := b.wallets, placements := b.placements)
    && (if mode != Ban && n >= 1 then Zeroes(a.wallets, b.wallets, u, f.wallet) else b.wallets == a.wallets)
    && (if n >= |TopSteps(mode)| then Expires(a.placements, b.placements, u, f.placements, now)
        else b.placements == a.placements)
  }

  predicate Scrubbed(a: Database, b: Database, u: nat, f: Faults, n: nat) {
    && b == a.(devices := b.devices, pushes := b.pushes,
               gifts := b.gifts, reports := b.reports, incidents := b.incidents)
    && (if n >= 1 then Deletes(a.devices, b.devices, u, f.devices) else b.devices == a.devices)
    && (if n >= 2 then Deletes(a.pushes, b.pushes, u, f.pushes) else b.pushes == a.pushes)
    && (if n >= 3 then Silences(a.gifts, b.gifts, u, f.gifts) else b.gifts == a.gifts)
    && (if n >= 4 then Blanks(a.reports, b.reports, u, f.reports) else b.reports == a.reports)
    && (if n >= 5 then Hides(a.incidents, b.incidents, u, f.incidents) else b.incidents == a.incidents)
  }

  /** A write that reaches nothing changes nothing. */
  lemma IdleWrites(db: Database, u: nat, now: int)
    ensures TerminateIn(db.subscriptions, u, Threw({})) == db.subscriptions
    ensures DowngradeIn(db.profiles, u, Threw({})) == db.profiles
    ensures ZeroIn(db.wallets, u, Threw({})) == db.wallets
    ensures ExpireIn(db.placements, u, Threw({}), now) == db.placements
  {
  }

  lemma IdleScrub(db: Database, u: nat)
    ensures DeleteIn(db.devices, u, Threw({})) == db.devices && DeleteIn(db.pushes, u, Threw({})) == db.pushes
    ensures RedactGiftsIn(db.gifts, u, Threw({})) == db.gifts
    ensures RedactReportsIn(db.reports, u, Threw({})) == db.reports
    ensures RedactIncidentsIn(db.incidents, u, Threw({})) == db.incidents
  {
  }

  lemma BilledIsAfter(a: Database, b: Database, u: nat, f: Faults, now: int, n: nat)
    requires Billed(a, b, u, f, n)
    ensures b.subscriptions == TerminateIn(a.subscriptions, u, if n >= 3 then f.subscription else Threw({}))
    ensures b.profiles == DowngradeIn(a.profiles, u, if n >= 4 then f.profile else Threw({}))
  {
    SuspendedRows(a, b, u, f, now);
    IdleWrites(a, u, now);
  }

  lemma UnlistedIsAfter(a: Database, b: Database, u: nat, mode: Mode, f: Faults, now: int, n: nat)
    requires Unlisted(a, b, u, mode, f, now, n)
    ensures b.wallets == ZeroIn(a.wallets, u, if n >= 1 && mode != Ban then f.wallet else Threw({}))
    ensures b.placements == ExpireIn(a.placements, u, if n >= |TopSteps(mode)| then f.placements else Threw({}), now)
  {
    SuspendedRows(a, b, u, f, now);
    IdleWrites(a, u, now);
  }

  lemma ScrubbedIsAfter(a: Database, b: Database, u: nat, f: Faults, n: nat)
    requires Scrubbed(a, b, u, f, n)
    ensures b.devices == DeleteIn(a.devices, u, if n >= 1 then f.devices else Threw({}))
    ensures b.pushes == DeleteIn(a.pushes, u, if n >= 2 then f.pushes else Threw({}))
    ensures b.gifts == RedactGiftsIn(a.gifts, u, if n >= 3 then f.gifts else Threw({}))
    ensures b.reports == RedactReportsIn(a.reports, u, if n >= 4 then f.reports else Threw({}))
    ensures b.incidents == RedactIncidentsIn(a.incidents, u, if n >= 5 then f.incidents else Threw({}))
  {
    ScrubbedRows(a, b, u, f);
    IdleScrub(a, u);
  }

  /** Row by row, what the three functions leave is `After`. */
  lemma PartsAreAfter(a: Database, b: Database, c: Database, d: Database, u: nat, mode: Mode, f: Faults, now: int,
                      n1: nat, n2: nat, n3: nat)
    requires Billed(a, b, u, f, n1) && Unlisted(b, c, u, mode, f, now, n2) && Scrubbed(c, d, u, f, n3)
    requires n1 <= 4 && n2 <= |TopSteps(mode)| && n3 <= |ScrubSteps(mode)|
    requires (n1 < 4 ==> n2 == 0) && (n2 < |TopSteps(mode)| ==> n3 == 0)
    ensures d == After(a, u, mode, Cut(f, mode, n1 + n2 + n3), now)
  {
    BilledIsAfter(a, b, u, f, now, n1);
    UnlistedIsAfter(b, c, u, mode, f, now, n2);
    ScrubbedIsAfter(c, d, u, f, n3);
    if mode == Ban {
      IdleWrites(c, u, now);
      IdleScrub(c, u);
    }
  }

  /** A teardown that reaches all its steps is cut nowhere. */
  lemma WholeIsUncut(db: Database, u: nat, mode: Mode, f: Faults, now: int, n: nat)
    requires n == |StepsOf(mode)|
    ensures After(db, u, mode, Cut(f, mode, n), now) == After(db, u, mode, f, now)
    ensures StepsOf(mode)[..n] == StepsOf(mode)
  {
  }

  // ---------------------------------------------------------------------------------------------
  // The teardown as it runs.
  // ---------------------------------------------------------------------------------------------

  /** How a call of one of the teardown's functions ends. */
  datatype Outcome = Returned | Raised

  /** The first `n` of `steps` have been gone through: all, or up to one whose exception got out. */
  predicate Went(f: Faults, asked: bool, o: Outcome, n: nat, steps: seq<Op>) {
    && n <= |steps|
    && (forall i :: 0 <= i < n && (o.Returned? || i < n - 1) ==> !Escapes(f, asked, steps[i]))
    && (if o.Returned? then n == |steps| else n > 0 && Escapes(f, asked, steps[n - 1]))
  }

  /** One part after the other, if the first did not end in an exception. */
  lemma WentOn(f: Faults, asked: bool, o1: Outcome, n1: nat, s1: seq<Op>, o2: Outcome, n2: nat, s2: seq<Op>)
    requires Went(f, asked, o1, n1, s1)
    requires if o1.Returned? then Went(f, asked, o2, n2, s2) else o2.Raised? && n2 == 0
    ensures Went(f, asked, o2, n1 + n2, s1 + s2)
    ensures (s1 + s2)[..n1 + n2] == s1[..n1] + s2[..n2]
  {
  }

  /** The whole is gone through exactly if no step's exception gets out. */
  lemma WentExactly(f: Faults, asked: bool, o: Outcome, n: nat, steps: seq<Op>)
    requires Went(f, asked, o, n, steps)
    ensures o.Returned? <==> forall op :: op in steps ==> !Escapes(f, asked, op)
  {
    if o.Raised? {
      assert steps[n - 1] in steps;
    }
  }

  /** The three functions in turn, as far as an exception lets them. */
  lemma GoneThrough(f: Faults, asked: bool, mode: Mode,
                    o1: Outcome, n1: nat, o2: Outcome, n2: nat, o3: Outcome, n3: nat)
    requires Went(f, asked, o1, n1, BILLING)
    requires if o1.Returned? then Went(f, asked, o2, n2, TopSteps(mode)) else o2.Raised? && n2 == 0
    requires if o2.Returned? then Went(f, asked, o3, n3, ScrubSteps(mode)) else o3.Raised? && n3 == 0
    ensures Went(f, asked, o3, n1 + n2 + n3, StepsOf(mode))
    ensures StepsOf(mode)[..n1 + n2 + n3] == BILLING[..n1] + TopSteps(mode)[..n2] + ScrubSteps(mode)[..n3]
  {
    var first, top, scrub := BILLING, TopSteps(mode), ScrubSteps(mode);
    WentOn(f, asked, o1, n1, first, o2, n2, top);
    WentOn(f, asked, o2, n1 + n2, first + top, o3, n3, scrub);
  }

  datatype Found = Found(subscriptionId: Option<string>) | ReadThrew

  /** `updateMany`: sets the matching rows that it reaches, and then succeeds or throws. */
  method UpdateRows<V>(rows: map<nat, V>, matches: (nat, V) -> bool, change: V -> V, fate: Reply)
    returns (after: map<nat, V>, r: Reply)
    ensures r == fate && after.Keys == rows.Keys
    ensures forall k :: k in rows ==>
              after[k] == if matches(k, rows[k]) && Reached(fate, k) then change(rows[k]) else rows[k]
  {
    after := map k | k in rows :: if matches(k, rows[k]) && Reached(fate, k) then change(rows[k]) else rows[k];
    r := fate;
  }

  method DeleteRows<V>(rows: map<nat, V>, matches: (nat, V) -> bool, fate: Reply)
    returns (after: map<nat, V>, r: Reply)
    ensures r == fate && after.Keys <= rows.Keys
    ensures forall k :: k in rows ==> (k in after <==> !(matches(k, rows[k]) && Reached(fate, k)))
    ensures forall k :: k in after ==> after[k] == rows[k]
  {
    after := map k | k in rows && !(matches(k, rows[k]) && Reached(fate, k)) :: rows[k];
    r := fate;
  }

  /** The database connection and the caller's callbacks, with the failures that lie ahead of them. */
  class Connection {
    const faults: Faults
    var db: Database
    var warned: seq<Op>            // through onWarn
    var asked: Option<string>      // through cancelUpstream
    ghost var tried: seq<Op>       // the steps gone through so far

    constructor (db: Database, faults: Faults)
      ensures this.db == db && this.faults == faults && warned == [] && asked == None && tried == []
    {
      this.db, this.faults, warned, asked, tried := db, faults, [], None, [];
    }

    /** Those of the steps gone through that failed have been reported if they can be, in order. */
    ghost predicate Reported()
      reads this
    {
      warned == Reports(tried, faults, asked.Some?)
    }

    /** What a handler does: read the error's message, and pass it on. Either may throw. */
    method Warn(op: Op) returns (o: Outcome)
      modifies this`warned
      ensures o.Raised? <==> op in faults.mute
      ensures warned == old(warned) + (if o.Raised? then [] else [op])
    {
      if op in faults.mute {
        return Raised;
      }
      warned := warned + [op];
      o := Returned;
    }

    method FindSubscription(u: nat) returns (r: Found)
      ensures r.ReadThrew? <==> faults.readFails
      ensures r.Found? ==>
                r.subscriptionId == if u in db.subscriptions then db.subscriptions[u].subscriptionId else None
    {
      if faults.readFails {
        return ReadThrew;
      }
      r := Found(if u in db.subscriptions then db.subscriptions[u].subscriptionId else None);
    }

    method CancelAtProvider(subscriptionId: string) returns (o: Outcome)
      modifies this`asked
      ensures asked == Some(subscriptionId) && (o.Raised? <==> faults.cancelFails)
    {
      asked := Some(subscriptionId);
      o := if faults.cancelFails then Raised else Returned;
    }

    // One step: an operation, and the handler that keeps its exception from the steps behind it. What a
    // handler itself throws ends the function around it, and all that is still to come.

    method ReadId(u: nat) returns (subscriptionId: Option<string>, o: Outcome)
      requires asked == None && tried == [] && warned == []
      modifies this`warned, this`tried
      ensures tried == [ReadSubscription] && (o.Raised? <==> Escapes(faults, false, ReadSubscription))
      ensures forall a :: warned == Reports(tried, faults, a)
      ensures warned == if faults.readFails && ReadSubscription !in faults.mute then [ReadSubscription] else []
      ensures subscriptionId ==
              if !faults.readFails && u in db.subscriptions then db.subscriptions[u].subscriptionId else None
    {
      subscriptionId := None;
      var found := FindSubscription(u);
      match found {
        case Found(id) => subscriptionId, o := id, Returned;
        case ReadThrew => o := Warn(ReadSubscription);
      }
      forall a ensures warned == Reports([] + [ReadSubscription], faults, a) {
        OneMore([], ReadSubscription, faults, a);
      }
      tried := [] + [ReadSubscription];
    }

    method AskProvider(subscriptionId: Option<string>, port: bool) returns (o: Outcome)
      requires asked == None && forall a :: warned == Reports(tried, faults, a)
      modifies this`asked, this`warned, this`tried
      ensures asked == if subscriptionId.Some? && subscriptionId.value != "" && port then subscriptionId else None
      ensures Reported() && tried == old(tried) + [CancelUpstream]
      ensures warned == old(warned) + if asked.Some? && faults.cancelFails && CancelUpstream !in faults.mute
                                      then [CancelUpstream] else []
      ensures o.Raised? <==> Escapes(faults, asked.Some?, CancelUpstream)
    {
      o := Returned;
      if subscriptionId.Some? && subscriptionId.value != "" && port {
        var cancelled := CancelAtProvider(subscriptionId.value);
        match cancelled {
          case Returned =>
          case Raised => o := Warn(CancelUpstream);
        }
      }
      OneMore(tried, CancelUpstream, faults, asked.Some?);
      tried := tried + [CancelUpstream];
    }

    method DriveToTerminal(u: nat) returns (o: Outcome)
      requires Reported()
      modifies this`db, this`warned, this`tried
      ensures Reported() && tried == old(tried) + [TerminateSubscription]
      ensures warned == old(warned) + if faults.subscription.Threw? && TerminateSubscription !in faults.mute
                                      then [TerminateSubscription] else []
      ensures o.Raised? <==> Escapes(faults, asked.Some?, TerminateSubscription)
      ensures db == old(db).(subscriptions := db.subscriptions)
      ensures Terminates(old(db).subscriptions, db.subscriptions, u, faults.subscription)
    {
      var rows, r := UpdateRows(
        db.subscriptions, (k, s) => k == u,
        (s: Subscription) => s.(status := "none", cancelAtPeriodEnd := false, currentPeriodEnd := 0,
                                token := None, subscriptionId := None),
        faults.subscription);
      db := db.(subscriptions := rows);
      match r {
        case Acked => o := Returned;
        case Threw(_) => o := Warn(TerminateSubscription);
      }
      OneMore(tried, TerminateSubscription, faults, asked.Some?);
      tried := tried + [TerminateSubscription];
    }

    method DropPremium(u: nat) returns (o: Outcome)
      requires Reported()
      modifies this`db, this`warned, this`tried
      ensures Reported() && tried == old(tried) + [ClearPremium]
      ensures warned == old(warned) + if faults.profile.Threw? && ClearPremium !in faults.mute
                                      then [ClearPremium] else []
      ensures o.Raised? <==> Escapes(faults, asked.Some?, ClearPremium)
      ensures db == old(db).(profiles := db.profiles) && Downgrades(old(db).profiles, db.profiles, u, faults.profile)
    {
      var rows, r := UpdateRows(
        db.profiles, (k, p) => k == u,
        (p: Profile) => p.(isPremium := false, premiumUntil := None, badges := Without(p.badges, "premium")),
        faults.profile);
      db := db.(profiles := rows);
      match r {
        case Acked => o := Returned;
        case Threw(_) => o := Warn(ClearPremium);
      }
      OneMore(tried, ClearPremium, faults, asked.Some?);
      tried := tried + [ClearPremium];
    }

    method EmptyWallet(u: nat) returns (o: Outcome)
      requires Reported()
      modifies this`db, this`warned, this`tried
      ensures Reported() && tried == old(tried) + [ZeroWallet]
      ensures warned == old(warned) + if faults.wallet.Threw? && ZeroWallet !in faults.mute
                                      then [ZeroWallet] else []
      ensures o.Raised? <==> Escapes(faults, asked.Some?, ZeroWallet)
      ensures db == old(db).(wallets := db.wallets) && Zeroes(old(db).wallets, db.wallets, u, faults.wallet)
    {
      var rows, r := UpdateRows(
        db.wallets, (k, w) => k == u, (w: Wallet) => w.(balanceCoins := 0), faults.wallet);
      db := db.(wallets := rows);
      match r {
        case Acked => o := Returned;
        case Threw(_) => o := Warn(ZeroWallet);
      }
      OneMore(tried, ZeroWallet, faults, asked.Some?);
      tried := tried + [ZeroWallet];
    }

    method TakeOffFeed(u: nat, now: int) returns (o: Outcome)
      requires Reported()
      modifies this`db, this`warned, this`tried
      ensures Reported() && tried == old(tried) + [ExpirePlacements]
      ensures warned == old(warned) + if faults.placements.Threw? && ExpirePlacements !in faults.mute
                                      then [ExpirePlacements] else []
      ensures o.Raised? <==> Escapes(faults, asked.Some?, ExpirePlacements)
      ensures db == old(db).(placements := db.placements)
      ensures Expires(old(db).placements, db.placements, u, faults.placements, now)
    {
      var rows, r := UpdateRows(
        db.placements, (k, p: Placement) => p.owner == u && p.expiresAt > now,
        (p: Placement) => p.(expiresAt := now, expired := true), faults.placements);
      db := db.(placements := rows);
      match r {
        case Acked => o := Returned;
        case Threw(_) => o := Warn(ExpirePlacements);
      }
      OneMore(tried, ExpirePlacements, faults, asked.Some?);
      tried := tried + [ExpirePlacements];
    }

    method ForgetDevices(u: nat) returns (o: Outcome)
      requires Reported()
      modifies this`db, this`warned, this`tried
      ensures Reported() && tried == old(tried) + [DeleteDevices]
      ensures warned == old(warned) + if faults.devices.Threw? && DeleteDevices !in faults.mute
                                      then [DeleteDevices] else []
      ensures o.Raised? <==> Escapes(faults, asked.Some?, DeleteDevices)
      ensures db == old(db).(devices := db.devices) && Deletes(old(db).devices, db.devices, u, faults.devices)
    {
      var rows, r := DeleteRows(db.devices, (k, owner) => owner == u, faults.devices);
      db := db.(devices := rows);
      match r {
        case Acked => o := Returned;
        case Threw(_) => o := Warn(DeleteDevices);
      }
      OneMore(tried, DeleteDevices, faults, asked.Some?);
      tried := tried + [DeleteDevices];
    }

    method ForgetPushes(u: nat) returns (o: Outcome)
      requires Reported()
      modifies this`db, this`warned, this`tried
      ensures Reported() && tried == old(tried) + [DeletePushes]
      ensures warned == old(warned) + if faults.pushes.Threw? && DeletePushes !in faults.mute
                                      then [DeletePushes] else []
      ensures o.Raised? <==> Escapes(faults, asked.Some?, DeletePushes)
      ensures db == old(db).(pushes := db.pushes) && Deletes(old(db).pushes, db.pushes, u, faults.pushes)
    {
      var rows, r := DeleteRows(db.pushes, (k, owner) => owner == u, faults.pushes);
      db := db.(pushes := rows);
      match r {
        case Acked => o := Returned;
        case Threw(_) => o := Warn(DeletePushes);
      }
      OneMore(tried, DeletePushes, faults, asked.Some?);
      tried := tried + [DeletePushes];
    }

    method SilenceGifts(u: nat) returns (o: Outcome)
      requires Reported()
      modifies this`db, this`warned, this`tried
      ensures Reported() && tried == old(tried) + [RedactGifts]
      ensures warned == old(warned) + if faults.gifts.Threw? && RedactGifts !in faults.mute
                                      then [RedactGifts] else []
      ensures o.Raised? <==> Escapes(faults, asked.Some?, RedactGifts)
      ensures db == old(db).(gifts := db.gifts) && Silences(old(db).gifts, db.gifts, u, faults.gifts)
    {
      var rows, r := UpdateRows(
        db.gifts, (k, g: Gift) => g.from == u, (g: Gift) => g.(message := None), faults.gifts);
      db := db.(gifts := rows);
      match r {
        case Acked => o := Returned;
        case Threw(_) => o := Warn(RedactGifts);
      }
      OneMore(tried, RedactGifts, faults, asked.Some?);
      tried := tried + [RedactGifts];
    }

    method BlankReports(u: nat) returns (o: Outcome)
      requires Reported()
      modifies this`db, this`warned, this`tried
      ensures Reported() && tried == old(tried) + [RedactReports]
      ensures warned == old(warned) + if faults.reports.Threw? && RedactReports !in faults.mute
                                      then [RedactReports] else []
      ensures o.Raised? <==> Escapes(faults, asked.Some?, RedactReports)
      ensures db == old(db).(reports := db.reports) && Blanks(old(db).reports, db.reports, u, faults.reports)
    {
      var rows, r := UpdateRows(
        db.reports, (k, a: AbuseReport) => a.from == u,
        (a: AbuseReport) => a.(details := None, evidenceUrl := None), faults.reports);
      db := db.(reports := rows);
      match r {
        case Acked => o := Returned;
        case Threw(_) => o := Warn(RedactReports);
      }
      OneMore(tried, RedactReports, faults, asked.Some?);
      tried := tried + [RedactReports];
    }

    method HideEvidence(u: nat) returns (o: Outcome)
      requires Reported()
      modifies this`db, this`warned, this`tried
      ensures Reported() && tried == old(tried) + [RedactIncidents]
      ensures warned == old(warned) + if faults.incidents.Threw? && RedactIncidents !in faults.mute
                                      then [RedactIncidents] else []
      ensures o.Raised? <==> Escapes(faults, asked.Some?, RedactIncidents)
      ensures db == old(db).(incidents := db.incidents) && Hides(old(db).incidents, db.incidents, u, faults.incidents)
    {
      var rows, r := UpdateRows(
        db.incidents, (k, i: Incident) => i.owner == u, (i: Incident) => i.(evidenceUrl := None), faults.incidents);
      db := db.(incidents := rows);
      match r {
        case Acked => o := Returned;
        case Threw(_) => o := Warn(RedactIncidents);
      }
      OneMore(tried, RedactIncidents, faults, asked.Some?);
      tried := tried + [RedactIncidents];
    }

    /** The provider is asked to stop billing, if the id can be read and there is one. */
    method StopProvider(u: nat, port: bool) returns (o: Outcome, ghost n: nat)
      requires asked == None && tried == [] && warned == []
      modifies this`asked, this`warned, this`tried
      ensures Reported() && n <= 2 && tried == BILLING[..n]
      ensures n == (if o.Raised? && Escapes(faults, asked.Some?, ReadSubscription) then 1 else 2)
      ensures o.Raised? <==>
                Escapes(faults, asked.Some?, ReadSubscription) || Escapes(faults, asked.Some?, CancelUpstream)
      ensures asked.Some? <==> port && !faults.readFails && CancelId(db, u).Some?
      ensures asked.Some? ==> asked == db.subscriptions[u].subscriptionId
    {
      var subscriptionId: Option<string>;
      subscriptionId, o := ReadId(u);
      n := 1;
      if o.Raised? {
        return;
      }
      o := AskProvider(subscriptionId, port);
      n := 2;
    }

    /**
     Each step is tried whatever became of those before it, unless a handler throws. The provider is asked
     exactly for an id that was read; the user's two rows, if reached, hold nothing to bill with.
     */
    method CancelSubscription(u: nat, port: bool) returns (o: Outcome, ghost n: nat)
      requires asked == None && tried == [] && warned == []
      modifies this
      ensures Reported() && Went(faults, asked.Some?, o, n, BILLING) && tried == BILLING[..n]
      ensures asked.Some? <==> port && !faults.readFails && CancelId(old(db), u).Some?
      ensures asked.Some? ==> asked == old(db).subscriptions[u].subscriptionId
      ensures Billed(old(db), db, u, faults, n)
    {
      o, n := StopProvider(u, port);
      if o.Raised? {
        return;
      }
      o := DriveToTerminal(u);
      n := 3;
      if o.Raised? {
        return;
      }
      o := DropPremium(u);
      n := 4;
    }

    /** A ban leaves every wallet alone; whatever became of the wallet, live placements go off the feed. */
    method LeaderboardTop(u: nat, mode: Mode, now: int) returns (o: Outcome, ghost n: nat)
      requires Reported()
      modifies this`db, this`warned, this`tried
      ensures Reported() && Went(faults, asked.Some?, o, n, TopSteps(mode)) && tried == old(tried) + TopSteps(mode)[..n]
      ensures Unlisted(old(db), db, u, mode, faults, now, n)
    {
      n := 0;
      if mode != Ban {
        o := EmptyWallet(u);
        n := 1;
        if o.Raised? {
          return;
        }
      }
      o := TakeOffFeed(u, now);
      n := n + 1;
    }

    method ForgetEndpoints(u: nat) returns (o: Outcome, ghost n: nat)
      requires Reported()
      modifies this`db, this`warned, this`tried
      ensures Reported() && Went(faults, asked.Some?, o, n, ENDPOINTS) && tried == old(tried) + ENDPOINTS[..n]
      ensures Scrubbed(old(db), db, u, faults, n)
    {
      o := ForgetDevices(u);
      n := 1;
      if o.Raised? {
        return;
      }
      o := ForgetPushes(u);
      n := 2;
    }

    method RedactWritings(u: nat) returns (o: Outcome, ghost n: nat)
      requires Reported()
      modifies this`db, this`warned, this`tried
      ensures Reported() && Went(faults, asked.Some?, o, n, WRITINGS) && tried == old(tried) + WRITINGS[..n]
      ensures db == old(db).(gifts := db.gifts, reports := db.reports, incidents := db.incidents)
      ensures if n >= 1 then Silences(old(db).gifts, db.gifts, u, faults.gifts) else db.gifts == old(db).gifts
      ensures if n >= 2 then Blanks(old(db).reports, db.reports, u, faults.reports) else db.reports == old(db).reports
      ensures if n >= 3 then Hides(old(db).incidents, db.incidents, u, faults.incidents)
              else db.incidents == old(db).incidents
    {
      o := SilenceGifts(u);
      n := 1;
      if o.Raised? {
        return;
      }
      o := BlankReports(u);
      n := 2;
      if o.Raised? {
        return;
      }
      o := HideEvidence(u);
      n := 3;
    }

    /** Devices and subscriptions of the user go; of what the user wrote, only the words and pictures do. */
    method ErasurePiiScrub(u: nat) returns (o: Outcome, ghost n: nat)
      requires Reported()
      modifies this`db, this`warned, this`tried
      ensures Reported() && Went(faults, asked.Some?, o, n, SCRUB) && tried == old(tried) + SCRUB[..n]
      ensures Scrubbed(old(db), db, u, faults, n)
    {
      o, n := ForgetEndpoints(u);
      ghost var o1, n1 := o, n;
      ghost var n2: nat := 0;
      if o.Returned? {
        o, n2 := RedactWritings(u);
        n := n1 + n2;
      } else {
        assert WRITINGS[..0] == [] && tried + [] == tried;
      }
      WentOn(faults, asked.Some?, o1, n1, ENDPOINTS, o, n2, WRITINGS);
    }

    /** The three functions, each only if the one before has not thrown, and the last not for a ban. */
    method GoThrough(u: nat, mode: Mode, port: bool, now: int)
      returns (o: Outcome, ghost n1: nat, ghost n2: nat, ghost n3: nat, ghost b: Database, ghost c: Database)
      requires warned == [] && asked == None && tried == []
      modifies this
      ensures Reported() && Went(faults, asked.Some?, o, n1 + n2 + n3, StepsOf(mode))
      ensures tried == StepsOf(mode)[..n1 + n2 + n3]
      ensures asked == Asked(old(db), u, port, faults)
      ensures Billed(old(db), b, u, faults, n1) && Unlisted(b, c, u, mode, faults, now, n2)
      ensures Scrubbed(c, db, u, faults, n3)
      ensures n1 <= 4 && n2 <= |TopSteps(mode)| && n3 <= |ScrubSteps(mode)|
      ensures (n1 < 4 ==> n2 == 0) && (n2 < |TopSteps(mode)| ==> n3 == 0)
    {
      n2, n3 := 0, 0;
      o, n1 := CancelSubscription(u, port);
      ghost var o1 := o;
      b := db;
      if o.Returned? {
        o, n2 := LeaderboardTop(u, mode, now);
      } else {
        assert TopSteps(mode)[..0] == [] && tried + [] == tried;
      }
      ghost var o2 := o;
      c := db;
      if o.Returned? && mode != Ban {
        o, n3 := ErasurePiiScrub(u);
      } else {
        assert ScrubSteps(mode)[..0] == [] && tried + [] == tried;
      }
      GoneThrough(faults, asked.Some?, mode, o1, n1, o2, n2, o, n3);
    }

    /** Put together: the first `n` steps, and the rest as if they had failed without reaching anything. */
    method GoAsFar(u: nat, mode: Mode, port: bool, now: int) returns (o: Outcome, ghost n: nat)
      requires warned == [] && asked == None && tried == []
      modifies this
      ensures Reported() && Went(faults, asked.Some?, o, n, StepsOf(mode))
      ensures tried == StepsOf(mode)[..n]
      ensures asked == Asked(old(db), u, port, faults)
      ensures db == After(old(db), u, mode, Cut(faults, mode, n), now)
    {
      ghost var n1, n2, n3, b, c;
      o, n1, n2, n3, b, c := GoThrough(u, mode, port, now);
      n := n1 + n2 + n3;
      PartsAreAfter(old(db), b, c, db, u, mode, faults, now, n1, n2, n3);
    }

    /**
     The call returns exactly if no step that is due both fails and cannot be reported; then no step has been
     skipped for another's sake, and the database has the surviving effects and no others. Otherwise it ends
     with that step, the `n`-th, and what comes after is as if it had failed without reaching anything.
     */
    method AccountTeardown(u: nat, mode: Mode, port: bool, now: int) returns (o: Outcome, ghost n: nat)
      requires warned == [] && asked == None && tried == []
      modifies this
      ensures asked == Asked(old(db), u, port, faults)
      ensures asked.Some? <==>
                && port && !faults.readFails && u in old(db).subscriptions
                && old(db).subscriptions[u].subscriptionId.Some? && old(db).subscriptions[u].subscriptionId.value != ""
      ensures asked.Some? ==> asked == old(db).subscriptions[u].subscriptionId
      ensures o.Returned? <==> forall op :: op in StepsOf(mode) ==> !Escapes(faults, asked.Some?, op)
      ensures o.Returned? ==> db == After(old(db), u, mode, faults, now)
      ensures o.Returned? ==> warned == Warnings(old(db), u, mode, port, faults)
      ensures Went(faults, asked.Some?, o, n, StepsOf(mode))
      ensures warned == Reports(StepsOf(mode)[..n], faults, asked.Some?)
      ensures db == After(old(db), u, mode, Cut(faults, mode, n), now)
    {
      o, n := GoAsFar(u, mode, port, now);
      WentExactly(faults, asked.Some?, o, n, StepsOf(mode));
      if o.Returned? {
        WholeIsUncut(old(db), u, mode, faults, now, n);
      }
    }
  }

  // ---------------------------------------------------------------------------------------------
  // What is left alone, what is kept, and what is gone
  // ---------------------------------------------------------------------------------------------

  /** From `a` to `b` other users' rows stay as they are, and rows others wrote about this one too. */
  predicate OthersStay(u: nat, a: Database, b: Database) {
    && b.subscriptions.Keys == a.subscriptions.Keys && b.profiles.Keys == a.profiles.Keys
    && b.wallets.Keys == a.wallets.Keys && b.placements.Keys == a.placements.Keys
    && (forall k :: k in a.subscriptions && k != u ==> b.subscriptions[k] == a.subscriptions[k])
    && (forall k :: k in a.profiles && k != u ==> b.profiles[k] == a.profiles[k])
    && (forall k :: k in a.wallets && k != u ==> b.wallets[k] == a.wallets[k])
    && (forall k :: k in a.placements && a.placements[k].owner != u ==> b.placements[k] == a.placements[k])
    && (forall k :: k in b.devices ==> k in a.devices && b.devices[k] == a.devices[k])
    && (forall k :: k in a.devices && a.devices[k] != u ==> k in b.devices)
    && (forall k :: k in b.pushes ==> k in a.pushes && b.pushes[k] == a.pushes[k])
    && (forall k :: k in a.pushes && a.pushes[k] != u ==> k in b.pushes)
  }

  predicate OthersWritingsStay(u: nat, a: Database, b: Database) {
    && b.gifts.Keys == a.gifts.Keys && b.reports.Keys == a.reports.Keys && b.incidents.Keys == a.incidents.Keys
    && (forall k :: k in a.gifts && a.gifts[k].from != u ==> b.gifts[k] == a.gifts[k])
    && (forall k :: k in a.reports && a.reports[k].from != u ==> b.reports[k] == a.reports[k])
    && (forall k :: k in a.incidents && a.incidents[k].owner != u ==> b.incidents[k] == a.incidents[k])
  }

  /** Every amount of money but the user's own balance stands, and the moderation record with it. */
  predicate RecordsStand(a: Database, b: Database) {
    && b.ledger == a.ledger
    && (forall k :: k in a.wallets ==> k in b.wallets && b.wallets[k].earned == a.wallets[k].earned)
    && (forall k :: k in a.placements ==>
          && k in b.placements && b.placements[k].owner == a.placements[k].owner
          && b.placements[k].paid == a.placements[k].paid)
    && (forall k :: k in a.gifts ==>
          && k in b.gifts && b.gifts[k].from == a.gifts[k].from && b.gifts[k].to == a.gifts[k].to
          && b.gifts[k].coins == a.gifts[k].coins)
    && (forall k :: k in a.reports ==>
          k in b.reports && b.reports[k].from == a.reports[k].from && b.reports[k].against == a.reports[k].against)
    && (forall k :: k in a.incidents ==>
          && k in b.incidents && b.incidents[k].owner == a.incidents[k].owner
          && b.incidents[k].verdict == a.incidents[k].verdict)
  }

  /** A suspension can be undone: the wallet and everything personal is still in place. */
  predicate Reversible(a: Database, b: Database) {
    b == a.(subscriptions := b.subscriptions, profiles := b.profiles, placements := b.placements)
  }

  /** No billing state, balance, premium or promotion of the user's is left. */
  predicate Closed(u: nat, db: Database, now: int) {
    && (u in db.subscriptions ==> db.subscriptions[u] == Subscription("none", false, 0, None, None))
    && (u in db.profiles ==>
          !db.profiles[u].isPremium && db.profiles[u].premiumUntil == None && "premium" !in db.profiles[u].badges)
    && (u in db.wallets ==> db.wallets[u].balanceCoins == 0)
    && (forall k :: k in db.placements && db.placements[k].owner == u ==> db.placements[k].expiresAt <= now)
  }

  /** No way to reach the user is left, and no word or picture of the user's. */
  predicate Forgotten(u: nat, db: Database) {
    && (forall k :: k in db.devices ==> db.devices[k] != u) && (forall k :: k in db.pushes ==> db.pushes[k] != u)
    && (forall k :: k in db.gifts && db.gifts[k].from == u ==> db.gifts[k].message == None)
    && (forall k :: k in db.reports && db.reports[k].from == u ==>
          db.reports[k].details == None && db.reports[k].evidenceUrl == None)
    && (forall k :: k in db.incidents && db.incidents[k].owner == u ==> db.incidents[k].evidenceUrl == None)
  }
}
