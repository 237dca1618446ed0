# ruletka.top: a verified model of its client protocols and account teardown

This project models five parts of ruletka.top in Dafny and proves what they promise, over every
interleaving, every failure pattern and every run.

- **Renegotiation between two peers** (`Signaling`, `Exchange`, `Interleaving`, `Foresight`, `Patience`,
  `Mishaps`, `Glare`, `PeerConnection`, `IceCandidates`, `Quality`). Two connection managers exchange offers
  and answers over two first-in first-out channels. The initiator is impolite, the answerer polite.
  `PeerConnection` has the manager as a class. `Interleaving` runs two of them against each other with every
  call split at its awaits: a call reads the signaling state at once, while the browser carries out what it
  asks for one operation at a time. `Exchange` is the same with whole calls; `Foresight` proves that, in
  disciplined surroundings, the first refines the second; `Patience` that nobody is left waiting; `Mishaps`
  has the runs that go wrong; `Glare` draws the conclusions. `IceCandidates` interleaves candidates with the
  awaited flush of the early ones.
- **The web client's requests** (`Auth`, `Session`, `Lifecycle`, `Requests`, `Retries`, `InFlightGets`). `Auth` has the
  token, the expiry notice and the refresh timer; `Session` interleaves any number of requests around one
  shared refresh, and `Lifecycle` says exactly what becomes of each; `Requests` follows one request through
  its refresh and its retries on an arbitrary network, and `Retries` says exactly what each answer leads to;
  `InFlightGets` shares one request among several callers.
- **Account teardown** (`Teardown`, `TeardownRetries`). Each write may fail after reaching any subset of its
  rows, and teardowns may be repeated in any modes.
- **The fail-open rate-limiter storage** (`FailOpen`) and **the redirects of the edge middleware**
  (`Redirects`).

Where the source changes variables in place there is a class whose methods are proved equal to functions of
the old state; the theorems over runs are then proved about those functions.

## Where the code does less than it says

These promises hold only under a condition. Each is proved as an equivalence, for all inputs.

- *Glare resolution "deterministically converges"* (apps/web/src/lib/webrtc.ts:239-248). Both ends agree
  whenever the call is quiet exactly if (1) no side makes an offer while one of its own is outstanding or in
  the making, (2) the initiator looks at no remote offer while an answer is being applied, (3) the initiator, if
  a remote offer undoes a local one in its browser, looks at none while its own is being set, and (4) the
  answerer's browser is one in which a remote offer undoes a local one, or can be told to undo it and then the
  answerer looks at no remote offer while its own is being set (`Glare.AlwaysAgreesExactly`). The two ends need
  not run the same browser, and (3) and (4) are about each end's own. The manager checks none of this. The hook
  that drives it offers again on a timer without looking at the signaling state
  (apps/web/src/features/roulette/use-roulette.ts:565-571), and does not wait for an answer to be applied before
  it hands on the next offer (use-roulette.ts:787-828). That last case strands the answerer:
  `Mishaps.RushStrands`. Freedom from deadlock has its own, weaker condition (`Glare.NeverStuckExactly`).
- *Concurrent callers asking for the same resource share one request* (apps/web/src/lib/api.ts:671-676). The
  key leaves out `skipAuth`, `noRetry`, the headers and whatever else is handed on to `fetch`, so a caller may
  be told something its own request would not have told it (`Requests.SharingIsFaithfulExactly`).
- *Every side effect of a teardown is never fatal* (apps/api/src/common/account-teardown.ts:35-39). The handlers
  read `message` off whatever was thrown and call `onWarn`. If either throws, the exception gets out and the later
  steps are skipped: the teardown returns, all its steps tried, if and only if no step that is due both fails and
  cannot be reported (`Teardown.Connection.AccountTeardown`).
- *A renewal charge never lands after teardown* (apps/api/src/common/account-teardown.ts:60-63). The
  subscription id is erased even when it could not be read or the provider failed, and is then lost to every
  retry (`TeardownRetries.ProviderStoppedExactly`, `TeardownRetries.FailedReadLosesTheId`).
- *After auth, land on the explicit `next`* (apps/web/src/middleware.ts:79-81). The login form does that, path
  and query (`Redirects.LoginReturnsExactly`). The middleware does not for a visitor who has signed in
  meanwhile and opens the same link: it assigns all of `next` as a path, so a query is lost
  (`Redirects.BounceReturnsExactly`).
- *The worst metric grades the call* (apps/web/src/lib/webrtc.ts:164-168). With no metric the grade is
  `good`, so gaining first metrics can raise it, exactly if all of them are below their first cut
  (`Quality.GradeIsMonotone`).
- *Outages are logged* (apps/api/src/common/throttler/fail-open-throttler.storage.ts:71-82), once an interval
  and exactly as long as the clock is not set back behind the last line (`FailOpen.FailureIsCoveredExactly`).

## Assumptions

- Each signaling channel is first-in first-out and delivers once. Messages for a closed call are dropped by
  the caller (use-roulette.ts:789, 820). An applied offer is answered, later, over the same channel
  (use-roulette.ts:807-812). The signaling states are those of section 3.2 of RFC 8829 and rollback is that
  of section 4.1.10.2; offers starting from `stable` only is the rule of section 4 of RFC 3264.
- The browser queues the operations of one connection and carries them out in order; adding candidates only
  delays the others. It makes an offer in `stable` and `have-local-offer` only, accepts an answer only for the
  remote offer in force, and undoes local offers only. Whether it can be told to, and whether a remote offer
  undoes a local one by itself, are two independent parameters for each end. Between two managers, each
  description can be read by the other side's browser; `PeerConnection` does without that.
- `fetch` does not throw synchronously. Listeners to an expired session may throw and may clear the session,
  as the repository's own does (apps/web/src/features/auth/session-expiry-watcher.tsx:31-45), but do not store
  tokens.
- `_isRetry` is not set by callers. `fetch` sends GET, HEAD and OPTIONS in upper case.
- A user has one row in `subscriptions`, `profiles` and `wallets`; no one else writes during a teardown.
- Assigning a URL's path leaves `/login` and `/dashboard` as they are; nothing else is asked of it.

## Model

| member | source | states |
|---|---|---|
| Glare.AlwaysAgreesExactly | apps/web/src/lib/webrtc.ts:376-420 | In every run of both ends, their calls interleaved at every await, quiet channels mean both are stable with the same offer and an answer made for it, if and only if the surroundings meet the four conditions listed above, whatever browser either end has |
| Glare.NeverStuckExactly | apps/web/src/lib/webrtc.ts:383-420 | No such run leaves a peer waiting with nothing on its way, under any way of starting offers, if and only if the initiator takes no offer while applying an answer and the answerer's own browser gives way, or can be told to and the answerer neither offers twice nor looks at an offer while setting its own |
| Foresight.RunIsAnExchange | apps/web/src/lib/webrtc.ts:358-420 | However calls are interleaved, in disciplined surroundings what both ends come to is what some exchange of whole calls comes to: signaling states, sessions, channels and the fate of every offer |
| Foresight.UninterruptedIsWhole | apps/web/src/lib/webrtc.ts:396-420 | A split call of setRemoteDescription that nothing comes between ends as the whole method does, which is what the class is proved against |
| Exchange.RunKeepsShape | apps/web/src/lib/webrtc.ts:396-420 | Every reachable combination of the two signaling states and the two channels' contents when calls are whole, as an inductive invariant |
| Exchange.RunKeepsLedger | apps/web/src/lib/webrtc.ts:401-415 | Every offer is exactly one of completed, rolled back, abandoned or outstanding; ignored and rolled-back offers differ only by what is in flight |
| Glare.EveryOfferCounted | apps/web/src/lib/webrtc.ts:401-415 | The same ledger in every interleaved run of a disciplined call, once operations under way are counted as settled |
| Glare.QuietLedger | apps/web/src/lib/webrtc.ts:401-415 | When a disciplined call is at rest, the offers the impolite side ignored are exactly those the polite side rolled back, and the rest are completed or were never set |
| Glare.AnswersFit | apps/web/src/lib/webrtc.ts:397-400 | In a disciplined call every delivered answer finds the very offer it was made for outstanding; none is stale |
| Glare.BacklogBounded | apps/web/src/lib/webrtc.ts:396-420 | At most three descriptions are ever in flight in a disciplined call |
| Glare.SettlingEnds | apps/web/src/lib/webrtc.ts:396-420 | Under any policy, deliveries, replies and settling operations alone strictly use up a finite measure |
| Glare.Converges | apps/web/src/lib/webrtc.ts:383-395 | From any reachable point of a disciplined call, once offers stop, boundedly many steps remain, and when none is left both ends agree |
| Mishaps.ReofferDisagrees | apps/web/src/features/roulette/use-roulette.ts:565-571 | A run in which a second offer over an outstanding one leaves its maker holding a mismatched answer |
| Mishaps.RushStrands | apps/web/src/features/roulette/use-roulette.ts:787-828 | A run in which an offer right behind an answer is taken for a collision and its maker waits for ever |
| Mishaps.OverlapDisagrees | apps/web/src/lib/webrtc.ts:358-364 | A run in which an offer arriving while the initiator sets its own, and its browser gives way to it, leaves the two ends on different offers, whichever way the answerer's browser undoes its own |
| Mishaps.OverlapDeadlocks | apps/web/src/lib/webrtc.ts:358-364 | A run in which an offer arriving while the answerer sets its own is refused and both ends wait for ever |
| Mishaps.ReofferDeadlocks | apps/web/src/lib/webrtc.ts:406-416 | A run in which a second offer slips in between the rollback and the remote offer it makes room for |
| Mishaps.DeadlockWithoutRollback | apps/web/src/lib/webrtc.ts:408-413 | A run in which both ends wait for ever because the polite one cannot undo its offer |
| PeerConnection.PeerConnectionManager.constructor | apps/web/src/lib/webrtc.ts:256-264 | The answerer is polite, the initiator is not; a new manager is stable with nothing queued |
| PeerConnection.PeerConnectionManager.CreateOffer | apps/web/src/lib/webrtc.ts:358-367 | Agrees with the signaling function from every state, and drops the loss baseline only for an ICE restart that succeeded |
| PeerConnection.PeerConnectionManager.CreateAnswer | apps/web/src/lib/webrtc.ts:370-374 | Answers the remote offer in force, or throws without effect |
| PeerConnection.PeerConnectionManager.SetRemoteDescription | apps/web/src/lib/webrtc.ts:396-420 | Skipped exactly for an answer nobody waits for and for an offer that collides at the impolite peer; applied exactly if the browser can read it and any offer of its own can be undone; when applied the whole queue has been handed over in order; when a description cannot be read, nothing has changed but that a local offer in its way is rolled back and lost |
| PeerConnection.PeerConnectionManager.AddIceCandidate | apps/web/src/lib/webrtc.ts:426-436 | A candidate is queued before the first remote description and handed over after it |
| PeerConnection.PeerConnectionManager.FlushPendingCandidates | apps/web/src/lib/webrtc.ts:438-448 | Every queued candidate is handed over once, in order, whichever of them the browser refuses |
| PeerConnection.PeerConnectionManager.RestartIce | apps/web/src/lib/webrtc.ts:513-528 | True exactly when the browser's call went through on an open call, and only then the baseline is dropped |
| PeerConnection.PeerConnectionManager.SampleQuality | apps/web/src/lib/webrtc.ts:542-627 | What the report reads as, the loss against the previous baseline and the grade; null exactly when closed before or meanwhile or without stats |
| PeerConnection.PeerConnectionManager.Close | apps/web/src/lib/webrtc.ts:630-664 | Empties queue and baseline and closes the connection; a second call changes nothing |
| IceCandidates.RunConserves | apps/web/src/lib/webrtc.ts:416-448 | For every interleaving, early candidates are in arrival order across discarded, handed over, in flush and queued; later ones are handed over in arrival order; none is lost or repeated |
| IceCandidates.EachExactlyOnce | apps/web/src/lib/webrtc.ts:426-448 | Before close, handed over, in flush and queued together are exactly what arrived |
| IceCandidates.DescribedHandsOver | apps/web/src/lib/webrtc.ts:416-436 | Once a description was applied and no flush is under way, every candidate that arrived has been handed over; before that, none has |
| IceCandidates.OvertakingHappens | apps/web/src/lib/webrtc.ts:441-447 | A run in which a later candidate overtakes an early one during the awaited flush |
| IceCandidates.UninterruptedFlush | apps/web/src/lib/webrtc.ts:438-448 | Left alone, the interleaved flush hands over what the sequential one does |
| Quality.ScoreQuality | apps/web/src/lib/webrtc.ts:170-191 | The grade is that of some metric and no metric is worse, which is the first of great, good and poor whose cuts (150 ms, 2 %, 30 ms; 300, 5 %, 50; 500, 10 %, 100) all metrics keep below, else bad; good without any |
| Quality.GradeIsMonotone | apps/web/src/lib/webrtc.ts:164-190 | Worse or further metrics never improve the grade, if and only if there was a metric before, or none now, or one now at or past its first cut |
| Quality.FirstMetricImproves | apps/web/src/lib/webrtc.ts:188-189 | A sample whose first metric turns good into great |
| Quality.SelectedPairExactly | apps/web/src/lib/webrtc.ts:560-566 | The selected pair is the one named by an entry that no naming entry comes behind |
| Quality.FindSelectedPair | apps/web/src/lib/webrtc.ts:560-566 | The loop finds that pair |
| Quality.RoundTripExactly | apps/web/src/lib/webrtc.ts:567-582 | The round trip is that of the last pair in use (named, flagged, or nominated and succeeded) that measured one, in milliseconds, and there is none exactly if no such pair is there |
| Quality.FindRoundTrip | apps/web/src/lib/webrtc.ts:567-582 | The loop finds that round trip |
| Quality.StreamsAdd | apps/web/src/lib/webrtc.ts:585-601 | One more stream adds its losses, floored at zero, to the losses and its receptions to the receptions, and may have the worst jitter, in milliseconds; any other entry changes none of these |
| Quality.Accumulate | apps/web/src/lib/webrtc.ts:585-601 | The loop adds up these figures |
| Quality.LossIsARate | apps/web/src/lib/webrtc.ts:608-622 | A reported loss is the share of the window's packets that were lost, zero without packets, and lies in 0..1 for any counters; it is withheld exactly without a baseline or when one counter fell while the total grew |
| Quality.LossOfOneStream | apps/web/src/lib/webrtc.ts:585-622 | Two reports of one growing stream give as loss what was lost in between over what was lost or received |
| Quality.BaselineIsLatest | apps/web/src/lib/webrtc.ts:608-624 | Over every history the baseline is what the latest sample with counters measured, if no restart came after it; the manager's is, after any of its methods, that of its own history (`PeerConnectionManager.Valid`) |
| Quality.LossTelescopes | apps/web/src/lib/webrtc.ts:608-624 | With counters that only grow every window reports, and the rates weighted by their packets add up to the total loss |
| Auth.TokenModule.SetAuthTokens | apps/web/src/lib/api.ts:112-127 | A live token re-arms the notice and the timer, anything else cancels the timer |
| Auth.TokenModule.ScheduleProactiveRefresh | apps/web/src/lib/api.ts:513-531 | The old timeout is cleared, and a new one set only in a browser for a token with a readable expiry |
| Auth.TokenModule.EmitSessionExpired | apps/web/src/lib/api.ts:340-350 | Every listener is called once in order, throwing or not, unless the notice already stands; a listener that clears the session leaves it cleared and without a timer |
| Auth.SettlesExactly | apps/web/src/lib/api.ts:375-410 | A refresh is rejected exactly by an answer neither throttling nor failing and without a token: then no token, timeout or handle is left, and one more notice exactly if none stood; a 2xx with a token renews the session and its timer; anything else changes nothing |
| Auth.TokensExactly | apps/web/src/lib/api.ts:112-127 | A stored token is held, clears the notice, and has the only timeout, a minute before it expires but ten seconds from now at least; none in its place leaves no timeout |
| Auth.TokenModule.FinishRefresh | apps/web/src/lib/api.ts:375-410 | Result, effect and listeners called for every status, body and failure, whatever the listeners do |
| Auth.SettleKeepsSound | apps/web/src/lib/api.ts:112-127 | Settling a refresh keeps the handle the only pending timeout, armed by the held token, and the latch in step with the log |
| Auth.NoticesBounded | apps/web/src/lib/api.ts:322-350 | If a token was stored between any two notices, notices outnumber stores by one at most |
| Session.OneRefreshAtATime | apps/web/src/lib/api.ts:311-414 | Over every interleaving at most one refresh and one timeout are outstanding, and refreshes sent are those settled and that one |
| Session.ResultsStand | apps/web/src/lib/api.ts:366-414 | The result of a round never changes afterwards, so all who joined it are told the same |
| Session.WaitersShareTheRound | apps/web/src/lib/api.ts:366-414 | In every run, whoever begins to wait while a round is in flight waits for that one, and whoever begins after one has settled waits for another |
| Session.TokenIsKept | apps/web/src/lib/api.ts:375-410 | In every run without a logout or a rejection (an answer neither throttling nor failing, and without a token), a held token is never lost |
| Session.ColdStartSendsAuthenticated | apps/web/src/lib/api.ts:575-587 | Whatever else happens, as long as nobody is signed out and the first round brings a token, every cold start waits for that one round and every first send carries a live token |
| Session.ColdStartRefreshesOnce | apps/web/src/lib/api.ts:575-587 | However many requests start without a token and in whatever order, as long as every refresh round that settles succeeds and no 401, timer, boot refresh, login, logout or change of cookie comes between, they cause one refresh at most, and each is sent once with the token it brought |
| Session.RepeatsFollowSuccess | apps/web/src/lib/api.ts:622-627 | However requests interleave, each is sent twice at most, the second time after a round of its own that succeeded |
| Session.TimersOverRuns | apps/web/src/lib/api.ts:499-531 | In every run a pending timeout was armed by the token still held, and is due when that token's expiry says |
| Session.NoticesOverRuns | apps/web/src/lib/api.ts:322-350 | In every run a token was stored between any two expiry notices, and notices are at most one more than stores |
| Lifecycle.LivesExactly | apps/web/src/lib/api.ts:449-461 | In every run: a request was sent once if it ever went out and twice exactly if a refresh it awaited after a 401 brought a token; one that was refused is still waiting, was repeated or gave up; it is over exactly if it was answered for good (no 401, or without auth, or for the second time) or gave up (rejected refresh, third transient one, aborted backoff) |
| Lifecycle.MovesExactly | apps/web/src/lib/api.ts:566-642 | In every reachable state an event moves the one request it is about and no other: a first 401 makes it wait for the round in flight, or for the next; success sends it once more, after that round; a transient failure with tries left makes it back off |
| Lifecycle.SendsCarryTheToken | apps/web/src/lib/api.ts:575-587 | In every run each send carries the token held as it went out, and comes after the round it waited for |
| Lifecycle.TriesExactly | apps/web/src/lib/api.ts:449-461 | In every run a request's tries are the backoffs it sat out since its 401, two at most |
| Lifecycle.RefreshesExactly | apps/web/src/lib/api.ts:366-414 | In every run the refreshes sent are the events that called for one with none in flight: a cold start, a first 401, the end of a backoff, a timer, a tab resuming with a cookie and no token, or the application's start |
| Lifecycle.FlightsExactly | apps/web/src/lib/api.ts:524-555 | Whoever calls for a refresh finds one in flight afterwards, the old one if there was one; only its answer ends it, and its result is as the answer says |
| Lifecycle.HappensExactly | apps/web/src/lib/api.ts:524-531 | What is under way can always go on: a request with a settled round resumes, a timer fires exactly once due, the refresh in flight can be answered |
| Lifecycle.SessionChangesExactly | apps/web/src/lib/api.ts:375-410 | In every reachable state only a settled refresh, a stored or cleared token and a fired timer change the session, and each as its answer, its token or its due time says |
| Lifecycle.TokenExactly | apps/web/src/lib/api.ts:375-410 | In every run the token held is the last one stored or brought by a refresh, or none after a logout or a rejection |
| Lifecycle.RejectionEndsSession | apps/web/src/lib/api.ts:386-391 | In every run, once a refresh is rejected no token is held, no timeout is pending, the notice stands, and whoever awaits it is told so |
| Requests.HttpClient.TryRefreshWithBackoff | apps/web/src/lib/api.ts:449-461 | The loop does what the recursive description does, from any trace |
| Requests.HttpClient.PerformRequest | apps/web/src/lib/api.ts:566-642 | Outcome, sends, refreshes and waits of one attempt on any network |
| Requests.HttpClient.RequestWithRetry | apps/web/src/lib/api.ts:650-669 | Outcome, sends, refreshes and waits of all attempts on any network |
| Retries.RequestExactly | apps/web/src/lib/api.ts:566-669 | On every network a send is followed by its repeat exactly if it got a first 401 and one of up to three refreshes brought a token, by another attempt exactly if it broke down, is a GET, HEAD or OPTIONS that may be retried, was not the third attempt and the wait was not aborted, and by nothing otherwise; the last answer, or an abort of the wait after it, is what the caller is told |
| Retries.WaitsExactly | apps/web/src/lib/api.ts:650-669 | The waits are exactly these, with ceilings of 250 and 500 ms between refreshes and 300 and 600 ms between attempts |
| Retries.UnretriedOnce | apps/web/src/lib/api.ts:650-659 | Any other verb, or a request that asks for no retries, is attempted once and sent twice at most |
| Requests.HeadersExactly | apps/web/src/lib/api.ts:566-594 | A header is sent exactly if the list has it in whatever case, with all its values joined in order |
| Requests.SendDiscipline | apps/web/src/lib/api.ts:566-669 | One attempt and two sends at most unless it is a GET, HEAD or OPTIONS that may be retried, which has three and six; at most four awaited refreshes an attempt; every repeat directly follows its own 401 and a successful refresh |
| Requests.SendBoundsAreReached | apps/web/src/lib/api.ts:650-669 | On one network every retried request is sent six times and awaits twelve refreshes |
| Requests.OutcomeAndWaits | apps/web/src/lib/api.ts:650-669 | The caller gets the last attempt's outcome or its own abort, earlier attempts had no answer, a broken one or a 5xx, and waits stay within 900 ms and 750 ms a refresh |
| Requests.AbortStopsRequest | apps/web/src/lib/api.ts:252-268 | An abort during any wait is the last wait, nothing is sent after it, and the caller is told |
| Requests.SharingIsFaithfulExactly | apps/web/src/lib/api.ts:679-706 | Callers under one key are told on every network what their own request would have told them, if and only if they agree on skipAuth, noRetry, the headers as sent, and whatever else is handed on to fetch |
| Requests.SpellingIsFree | apps/web/src/lib/api.ts:566-594 | Options that differ in how verb and headers are written are interchangeable all the same |
| InFlightGets.GetModule.RequestShared | apps/web/src/lib/api.ts:684-706 | Joins the entry under its key, starts one, or stays out of the map |
| InFlightGets.GetModule.Finally | apps/web/src/lib/api.ts:701-703 | The clean-up step, as the run of it |
| InFlightGets.RunKeepsSound | apps/web/src/lib/api.ts:677-706 | In every interleaving a key is in the map exactly while its request is unsettled, and every holder of a promise asked for its key |
| InFlightGets.CallersShareExactly | apps/web/src/lib/api.ts:684-706 | After every run a caller that may share is given the promise of the unsettled request of the same verb and URL, if there is one, and otherwise one of its own for a request that starts now |
| InFlightGets.OneRequestPerKey | apps/web/src/lib/api.ts:697-706 | No two unsettled shared requests have the same verb and URL |
| InFlightGets.CleanUpIsOwn | apps/web/src/lib/api.ts:701-703 | Deleting by key removes the settling request's own entry and no other |
| InFlightGets.SharersAskedAlike | apps/web/src/lib/api.ts:679-697 | In every interleaving, callers who hold one promise asked for the same URL with the same verb, GET, HEAD or OPTIONS, and none with a signal, a body or the wish not to share |
| InFlightGets.JoinersAreToldTheSame | apps/web/src/lib/api.ts:697-705 | Whoever joins, before or after the request ends, is told what its own request would have come to on the network that one met, if the two agree in what the key leaves out; and only then on every network |
| Teardown.Connection.CancelSubscription | apps/api/src/common/account-teardown.ts:75-138 | The steps are tried in turn, whatever the others do, up to one that fails and cannot be reported; the provider is asked exactly for an id that was read; row by row, the user's two rows hold nothing to bill with if they were reached |
| Teardown.Connection.LeaderboardTop | apps/api/src/common/account-teardown.ts:152-183 | An exception gets out exactly if a step fails and cannot be reported; a ban leaves every wallet alone; the user's live placements, if reached, are off the feed even when the wallet failed |
| Teardown.Connection.ErasurePiiScrub | apps/api/src/common/account-teardown.ts:218-265 | All five steps are tried, up to one that fails and cannot be reported; the user's endpoints that were reached are gone, and of the user's writings only words and pictures |
| Teardown.Connection.AccountTeardown | apps/api/src/common/account-teardown.ts:273-286 | Whatever subset of the steps throws, the call returns if and only if no step that is due both fails and cannot be reported; then every step of the mode was tried and the database has the surviving effects and no others; otherwise it ends with that step, and the later ones have no effect |
| Teardown.WarningsAreTheFailures | apps/api/src/common/account-teardown.ts:35-39 | Every failing step that can be reported is reported exactly once and nothing else is |
| Teardown.DueSteps | apps/api/src/common/account-teardown.ts:273-286 | A ban makes five of the eleven steps, an erasure or a deletion all of them |
| Teardown.PullsOnly | apps/api/src/common/account-teardown.ts:132-132 | Pulling the premium badge leaves every other badge as often as it was, and in order |
| TeardownRetries.ReplayIsOutcome | apps/api/src/common/account-teardown.ts:75-286 | Any sequence of teardowns with a clock that does not run back changes each row as the one write that ever reached it, placements stamped at the first time |
| TeardownRetries.OverallReaches | apps/api/src/common/account-teardown.ts:75-286 | The combined reply of many runs reaches a row exactly if some run in a fitting mode did |
| TeardownRetries.RetriesConverge | apps/api/src/common/account-teardown.ts:273-286 | Once each write was acknowledged in some run that made it, the state is that of one clean erasure but for the placement stamps |
| TeardownRetries.FurtherRunsChangeNothing | apps/api/src/common/account-teardown.ts:273-286 | After that no further runs change anything |
| TeardownRetries.BanThenErase | apps/api/src/common/account-teardown.ts:172-183 | A ban followed by an erasure equals the erasure but for the earlier stamp |
| TeardownRetries.NothingIsLeft | apps/api/src/common/account-teardown.ts:19-25 | After any runs that got every write acknowledged once, no billing state, balance, live promotion, endpoint, word or picture of the user is left |
| TeardownRetries.OthersNeverTouched | apps/api/src/common/account-teardown.ts:75-286 | However often a user is torn down and whatever fails, rows of other users, and rows others authored, stay as they are |
| TeardownRetries.RecordsSurvive | apps/api/src/common/account-teardown.ts:185-217 | However often and in whatever modes, ledger amounts, gift rows, reports and moderation records survive but for their redacted fields |
| TeardownRetries.BansAreReversible | apps/api/src/common/account-teardown.ts:27-33 | Any number of bans changes subscriptions, profiles and placements only |
| TeardownRetries.NeverAskedAgain | apps/api/src/common/account-teardown.ts:82-121 | Once the row is terminated the provider is never asked again |
| TeardownRetries.ProviderStoppedExactly | apps/api/src/common/account-teardown.ts:82-121 | The provider is stopped if and only if some attempt reads the id and gets through before the row is terminated |
| TeardownRetries.LostForGood | apps/api/src/common/account-teardown.ts:95-121 | A row terminated without that is never stopped by any retry |
| TeardownRetries.FailedReadLosesTheId | apps/api/src/common/account-teardown.ts:82-121 | After one failed read no retry stops the provider, which an undisturbed run would have stopped |
| FailOpen.FailOpenThrottlerStorage.Increment | apps/api/src/common/throttler/fail-open-throttler.storage.ts:47-69 | Successful calls pass through unchanged; a failing one is counted and answered with an unblocked record |
| FailOpen.WarningsAreRare | apps/api/src/common/throttler/fail-open-throttler.storage.ts:72-82 | For every sequence of calls and clock readings any k warnings span (k - 1) intervals at least, and the counter is the number of failures |
| FailOpen.FailureIsCoveredExactly | apps/api/src/common/throttler/fail-open-throttler.storage.ts:71-82 | A failure is logged or lies within an interval past the last line, if and only if the clock is not behind that line and, without one, has reached the first interval |
| FailOpen.SteadyClockCoversAll | apps/api/src/common/throttler/fail-open-throttler.storage.ts:71-82 | With a clock that does not run back every failure after the first interval is covered |
| FailOpen.ClockSetBackSilences | apps/api/src/common/throttler/fail-open-throttler.storage.ts:71-82 | A run in which a clock set back silences an outage |
| Redirects.ChainsEnd | apps/web/src/middleware.ts:46-91 | Every chain ends within two hops for any path, next, sign-in state and normalisation; where the middleware decides, none of the eight protected pages or what is below them is served signed out, no auth page or landing page signed in |
| Redirects.DecidesExactly | apps/web/src/middleware.ts:61-91 | Who is sent where and who is served, page by page |
| Redirects.FormStaysHere | apps/web/src/components/auth/login-form.tsx:31-35 | The form goes to `next` exactly if that is a path on this site, and home otherwise |
| Redirects.TwoHopsHappen | apps/web/src/middleware.ts:76-83 | Two hops are sometimes needed |
| Redirects.LoginReturnsExactly | apps/web/src/components/auth/login-form.tsx:31-70 | Sent to log in from a protected page, a visitor who does is taken back to its path and query and served it, if and only if the URL class leaves both as they are |
| Redirects.BounceReturnsExactly | apps/web/src/middleware.ts:66-83 | A visitor already signed in who opens that login link comes back to the page if and only if it had no query and its path is left as it is |

## Left out

- The interleaved requests of `Session`, the two peers of `Interleaving` and the suspended flushes of `IceCandidates` are values with a step function, not objects: promises, aliasing and the event loop itself are not modelled.
- SDP text, media tracks, the data channel, TURN credentials and `setIceServers`.
- Decoding a token's expiry and reading cookies: both are inputs. The 32-bit limit of `setTimeout` on very long delays.
- Request bodies, `buildUrl` and parsing of error bodies; header and option values are strings; a custom token store set by `configureTokenStore`.
- The provider's cancel port itself: it may fail, and that is all.
- The pages behind the middleware but for where the login form goes, the CSP nonce, and the redirect's host.
- PeerConnection.PeerConnectionManager.SampleQuality: the clock stored with the counters is left out, because nothing reads it.
- Glare.AlwaysAgreesExactly: says nothing once either end has hung up, because the other is then torn down by its own caller.
- The admin client's smaller copy of the refresh protocol, the socket client, and all services behind the API.
