# A verified model of the M365 Copilot OpenAI proxy

The proxy multiplexes API clients onto a pool of Microsoft accounts. This project models
the parts of it whose behaviour is a protocol rather than plumbing, and proves what they
keep over every input, every run or every interleaving:

- **Credentials** (`AccountRecord`, `AccountInvariants`, `AccountClass`, `AccountStore`,
  `StoreLaws`, `Renewals`, `RenewalLaws`, `RenewalCommits`): one account record with two
  protocol slots, refresh grants, a browser session, a throttle and a monotone epoch.
  Sixteen store operations are specified as total functions of the record and implemented
  by in-place methods proved against them; what the last stored push, switch, grant or
  answer leaves is there until another one is stored. Renewals snapshot the record, wait
  outside the lock and commit by compare-and-set.
- **The refresh scheduler** (`SchedulerModel`, `SchedulerProofs`, `SchedulerSharing`,
  `SchedulerResults`, `SchedulerRoutes`, `RefreshScheduler`): coroutines split at their
  awaits, per-account locks, one browser lock, and sharing of attempts by generation; a
  true result means a stored token. The class takes exactly the steps of the state machine.
- **Streams** (`ReadStream`, `ChatRetry`, `Hashcash`, `Reasoning`, `AnthropicStream`,
  `ResponsesStream`): one chat turn with challenges and images, its single retry, the
  proof of work, snapshot-to-delta conversion with citation stripping, and block and index
  lifecycles.
- **Index, limiter, gate** (`HistoryIndex`, `RateLimit`, `Concurrency`).
- **Bounded loops** (`ConsumerPrompt`, `CloudCleanup`, `CloudStatic`).

Code that changes state in the original is a class or a method here, proved against a
function of the old state; the lemmas are about those functions. Opaque parts are
parameters: token classification, SHA-256 (without collisions), fresh ids, clocks,
listings and answers from outside.

Where the code does not do what its comments promise, the code is modelled and the exact
condition is proved beside a concrete case:

- A plain grant commit does not re-check the pairing of the two slots
  (`RenewalCanBreakPairing`); the renewal that calls it does (`AadRenewalOverARun`).
- Re-pushing the same JWE under an unknown subject can move its issuer deadline later
  (`RepushDeadline`).
- A NUL inside a message makes two different histories hash alike (`EncodingMeaning` says
  exactly which do). Eviction can hide an owner of a prefix; `MatchedExactly` and
  `OwnerHiddenExactly` say exactly when, and `EvictionHidesAnOwner` gives the calls for
  every cap.
- An empty `partialImageGenerated` frame erases a preview already in hand
  (`PreviewLostExactly`).
- A snapshot that breaks off in a citation marker right before its final line break makes
  the next snapshot look like a revision (`DroppedExactly`).
- A listing that repeats an id can delete a conversation just kept (`RoundSafeExactly`).
- After a limit change an account can run more turns than its new limit
  (`AboveOnlyByCrossing`).

The browser commit leaves the refresh grant out of the snapshot it compares. That is not a
gap: every push the program makes dates the slot as well, so a grant pushed meanwhile is
never overwritten (`PushedGrantSurvivesTheGate`).

`dafny verify dfyconfig.toml` checks the whole project.

## Model

| member | source | states |
|---|---|---|
| `AccountInvariants.ConsistentAfter` | src/m365_copilot_openai_proxy/account_store.py:647-859 | one call: every stored operation keeps one identity behind two filled slots and a session bound to its JWE; the two renewal commits keep it exactly when the caller respects the stated condition; a call that stores nothing changes nothing |
| `AccountInvariants.RenewalCanBreakPairing` | src/m365_copilot_openai_proxy/account_store.py:1266-1306 | the plain grant commit does not check the pairing itself: an account for which it leaves two identities |
| `AccountInvariants.RunsStayConsistent` | src/m365_copilot_openai_proxy/account_store.py:647-660 | every run of calls, additions and removals from a consistent pool ends in a consistent pool, under the renewal condition |
| `AccountInvariants.ReachableStoresAreConsistent` | src/m365_copilot_openai_proxy/account_store.py:1022-1035 | the same for every store reachable from the empty one |
| `AccountInvariants.RepushDeadline` | src/m365_copilot_openai_proxy/account_store.py:752-779 | a re-push of the same JWE under the same subject moves a known issuer deadline no later exactly when the subject is known or the push reports an earlier expiry |
| `AccountInvariants.AnonymousRepushMovesDeadlineLater` | src/m365_copilot_openai_proxy/account_store.py:752-779 | with no known subject a re-push can move the deadline later: a concrete case |
| `AccountInvariants.DeadlineOnlyTightens` | src/m365_copilot_openai_proxy/account_store.py:752-779 | along any run that keeps one JWE and one known subject the deadline is never forgotten and never moves later |
| `AccountInvariants.EpochDatesChanges` | src/m365_copilot_openai_proxy/account_store.py:642-645 | the epoch never decreases, and grows whenever the provider or the subject of a filled slot changes |
| `AccountInvariants.EpochMonotone` | src/m365_copilot_openai_proxy/account_store.py:765-767 | over any part of any run the epoch never decreases |
| `AccountInvariants.SameEpochSameIdentity` | src/m365_copilot_openai_proxy/account_store.py:786-788 | equal epochs at two moments imply the same epoch and provider at every moment between, and the same subject for a slot that stayed filled |
| `AccountInvariants.ThrottleStaysUntilLifted` | src/m365_copilot_openai_proxy/account_store.py:1083-1136 | a throttle in force is unchanged until another one is set, a later turn of the same identity and mode succeeds, the Consumer subject changes, or all credentials are cleared |
| `AccountInvariants.BackoffOnlyGrows` | src/m365_copilot_openai_proxy/account_store.py:1251-1264 | until it is stored, spent or forgotten a grant stays the same one and the pause before its next use is only extended |
| `AccountClass.Account.constructor` | src/m365_copilot_openai_proxy/account_store.py:713-738 | a new record is blank but for its Substrate slot |
| `AccountClass.Account.ActivateProtocol` | src/m365_copilot_openai_proxy/account_store.py:662-676 | switching: refused unless the target is filled and the pair is one identity; bumps the epoch on a real change; nothing else moves |
| `AccountClass.Account.Redate` | src/m365_copilot_openai_proxy/account_store.py:671-673 | provider and epoch after a re-pin and an activation, each counted once |
| `AccountClass.Account.StoreSubstrate` | src/m365_copilot_openai_proxy/account_store.py:740-799 | the Substrate slot after a stored update: session, deadline, date and error of the new or kept identity |
| `AccountClass.Account.CheckUpdate` | src/m365_copilot_openai_proxy/account_store.py:706-711 | accepts exactly the updates whose capture and expiry are usable and whose identity may be paired |
| `AccountClass.Account.UpdateToken` | src/m365_copilot_openai_proxy/account_store.py:740-799 | outcome and whole new record of a token update, stale, refused or stored |
| `AccountClass.Account.ApplyPersonalRefresh` | src/m365_copilot_openai_proxy/account_store.py:826-859 | compare-and-set of a personal renewal over token, session, epoch, subject and pairing; nothing else moves |
| `AccountClass.Account.SetPersonalError` | src/m365_copilot_openai_proxy/account_store.py:861-882 | an error is noted only against the token, session and epoch it happened on |
| `AccountClass.Account.ClearToken` | src/m365_copilot_openai_proxy/account_store.py:884-901 | forgets the Substrate slot and bumps the epoch |
| `AccountClass.Account.SnapshotHolds` | src/m365_copilot_openai_proxy/account_store.py:1004-1015 | whether a browser snapshot and its epoch are still current |
| `AccountClass.Account.SetConsumerAuth` | src/m365_copilot_openai_proxy/account_store.py:982-1081 | outcome and whole new record of a Consumer push or browser commit |
| `AccountClass.Account.SetThrottledUntil` | src/m365_copilot_openai_proxy/account_store.py:1083-1109 | sets or removes a throttle, only for the expected identity and epoch |
| `AccountClass.Account.ClearThrottledUntil` | src/m365_copilot_openai_proxy/account_store.py:1111-1136 | lifts a throttle only for the same identity and mode and a turn that started after it |
| `AccountClass.Account.SetRefreshToken` | src/m365_copilot_openai_proxy/account_store.py:1170-1249 | stores, preserves or discards an AAD grant with its binding and post-mortem, comparing client ids without case |
| `AccountClass.Account.DeferRefreshToken` | src/m365_copilot_openai_proxy/account_store.py:1251-1264 | pauses exactly the named grant, never shortening a pause |
| `AccountClass.Account.ApplyRefreshTokenResult` | src/m365_copilot_openai_proxy/account_store.py:1266-1306 | compare-and-set commit of an AAD renewal |
| `AccountClass.Account.SetConsumerRefreshToken` | src/m365_copilot_openai_proxy/account_store.py:1308-1360 | stores or discards a Consumer grant with its binding, only over the expected one |
| `AccountClass.Account.DeferConsumerRefreshToken` | src/m365_copilot_openai_proxy/account_store.py:1362-1375 | pauses exactly the named Consumer grant |
| `AccountClass.Account.ApplyConsumerRefreshResult` | src/m365_copilot_openai_proxy/account_store.py:1377-1419 | compare-and-set commit of a Consumer renewal |
| `AccountClass.Account.ClearCredentials` | src/m365_copilot_openai_proxy/account_store.py:1421-1469 | forgets every credential, keeps proxy and post-mortem, bumps the epoch |
| `AccountClass.Account.SetProxyUrl` | src/m365_copilot_openai_proxy/account_store.py:929-950 | replaces the proxy and nothing else |
| `AccountClass.Account.StoreConsumer` | src/m365_copilot_openai_proxy/account_store.py:1022-1070 | the Consumer slot, its grant and the throttle after a push: a new subject drops the old throttle |
| `AccountClass.Account.StoreConsumerGrant` | src/m365_copilot_openai_proxy/account_store.py:1050-1070 | a pushed grant starts without pause and post-mortem, with its own binding |
| `AccountClass.Account.RebindGrant` | src/m365_copilot_openai_proxy/account_store.py:1225-1249 | only the binding fields that were given change |
| `AccountStore.AccountStore.constructor` | src/m365_copilot_openai_proxy/account_store.py:408-423 | starts empty |
| `AccountStore.AccountStore.Get` | src/m365_copilot_openai_proxy/account_store.py:620-622 | reads the record as stored |
| `AccountStore.AccountStore.Perform` | src/m365_copilot_openai_proxy/account_store.py:740-799 | any of the sixteen operations by account id: the reply and the whole new pool, a missing id changing nothing |
| `AccountStore.AccountStore.Add` | src/m365_copilot_openai_proxy/account_store.py:713-738 | adds one record, or nothing when its session or expiry is unusable |
| `AccountStore.AccountStore.Remove` | src/m365_copilot_openai_proxy/account_store.py:1481-1488 | removes exactly one record |
| `AccountStore.AccountStore.Dispatch` | src/m365_copilot_openai_proxy/account_store.py:405-423 | each operation reaches the method that implements it |
| `Renewals.ConsumerCommitsOnlyOnItsSnapshot` | src/m365_copilot_openai_proxy/consumer_refresh_via_rt.py:269-361 | a Consumer renewal succeeds exactly on an unchanged epoch, grant and token and a mint for the pinned subject, and only then changes the token |
| `Renewals.NewerConsumerCredentialsSurvive` | src/m365_copilot_openai_proxy/consumer_refresh_via_rt.py:269-361 | a grant or token pushed during the exchange is never overwritten, discarded or paused, and nothing else of the account moves |
| `Renewals.ConsumerRenewalOverARun` | src/m365_copilot_openai_proxy/consumer_refresh_via_rt.py:223-361 | over any run between snapshot and commit: a switch away, even one undone, is noticed, and success means the pinned subject |
| `Renewals.ConsumerRenewalConsistent` | src/m365_copilot_openai_proxy/account_store.py:1395-1413 | keeps the store consistent exactly unless it fills an empty slot that may not be paired |
| `Renewals.AadCommitsOnlyOnItsSnapshot` | src/m365_copilot_openai_proxy/refresh_via_rt.py:232-373 | an AAD renewal succeeds exactly on an unchanged epoch, grant and token and a JWT of the bound subject; a newer grant is left alone |
| `Renewals.AadRenewalOverARun` | src/m365_copilot_openai_proxy/refresh_via_rt.py:232-373 | over any run: switches are noticed, the token keeps its subject, and a consistent account stays consistent |
| `Renewals.PersonalRenewalOverARun` | src/m365_copilot_openai_proxy/refresh_scheduler.py:557-597 | over any run: a personal renewal commits only on the very snapshot it took, for the same subject, and keeps consistency |
| `Renewals.GateCommitsOnlyOnItsSnapshot` | src/m365_copilot_openai_proxy/refresh_scheduler.py:401-492 | a browser renewal succeeds exactly on an unchanged slot and epoch, for the pinned subject and an allowed pair; otherwise nothing changes |
| `Renewals.GateRenewalOverARun` | src/m365_copilot_openai_proxy/refresh_scheduler.py:352-492 | over any run: switches are noticed and success means the pinned subject |
| `Renewals.GateReplacesOnlyItsGrant` | src/m365_copilot_openai_proxy/refresh_scheduler.py:385-476 | over any run: a browser renewal that succeeds replaces only the grant it started from, none, or one that a call stored by itself meanwhile |
| `Renewals.PushedGrantSurvivesTheGate` | src/m365_copilot_openai_proxy/refresh_scheduler.py:465-476 | over any run whose bare grant calls only discard, as in this program: a grant pushed while the browser runs makes the commit fail and change nothing |
| `Renewals.GateKeepsPushedGrantExactly` | src/m365_copilot_openai_proxy/account_store.py:1050-1070 | a remark on the bare store call: what the browser commit does with a grant stored by itself |
| `Renewals.GateCanOverwritePushedGrant` | src/m365_copilot_openai_proxy/account_store.py:1308-1360 | the same remark as a case: the bare call with a grant, which the program never makes, would be overwritten |
| `StoreLaws.OnlyWritersWrite` | src/m365_copilot_openai_proxy/account_store.py:740-1136 | each part of an account changes only by a stored call of the operations that write it |
| `StoreLaws.SlotStays` | src/m365_copilot_openai_proxy/account_store.py:740-901 | over any run without a stored write to it, the Substrate slot is the same |
| `StoreLaws.ConsumerStays` | src/m365_copilot_openai_proxy/account_store.py:982-1081 | the same for the Consumer slot |
| `StoreLaws.ProviderStays` | src/m365_copilot_openai_proxy/account_store.py:662-676 | the same for the provider |
| `StoreLaws.GrantStays` | src/m365_copilot_openai_proxy/account_store.py:1170-1249 | the same for the AAD grant and its binding |
| `StoreLaws.ConsumerGrantStays` | src/m365_copilot_openai_proxy/account_store.py:1308-1360 | the same for the Consumer grant and its binding |
| `StoreLaws.PushAcceptedExactly` | src/m365_copilot_openai_proxy/account_store.py:740-799 | a push is stale exactly on another epoch and stored exactly with a usable capture and expiry and one identity |
| `StoreLaws.PushFillsTheSlot` | src/m365_copilot_openai_proxy/account_store.py:740-799 | after a stored push the slot holds its token, subject, deadline, date and session, and nothing else moves |
| `StoreLaws.LastPushIsThere` | src/m365_copilot_openai_proxy/account_store.py:740-799 | over any run: the token pushed last is the token stored, with the captured subject, session and, for a new JWE, the deadline reported with it |
| `StoreLaws.LastSwitchHolds` | src/m365_copilot_openai_proxy/account_store.py:662-676 | over any run: an activating push or a switch holds until another stored one |
| `StoreLaws.SwitchExactly` | src/m365_copilot_openai_proxy/account_store.py:662-676 | a switch is refused exactly for an empty or unnamed target or two identities, and moves provider and epoch alone |
| `StoreLaws.ConsumerPushAcceptedExactly` | src/m365_copilot_openai_proxy/account_store.py:982-1035 | a Consumer push is stored exactly on the expected epoch and snapshot when the pair is one identity |
| `StoreLaws.ConsumerPushFillsTheSlot` | src/m365_copilot_openai_proxy/account_store.py:1022-1070 | after it the slot holds its token, cookies, identity type, subject and deadline, and the grant the one pushed along |
| `StoreLaws.LastConsumerPushIsThere` | src/m365_copilot_openai_proxy/account_store.py:1022-1070 | over any run: the Consumer push stored last is what the slot holds |
| `StoreLaws.ClearedTokenIsGone` | src/m365_copilot_openai_proxy/account_store.py:884-901 | over any run: nothing of a cleared Substrate slot comes back until it is written again |
| `StoreLaws.ClearedCredentialsAreGone` | src/m365_copilot_openai_proxy/account_store.py:1421-1469 | clearing everything leaves no token, no cookie, no grant, no session and no throttle; the proxy and the post-mortem stay |
| `StoreLaws.ClearedCredentialsStayGone` | src/m365_copilot_openai_proxy/account_store.py:1421-1469 | over any run: and none of it comes back until its own writer stores again |
| `StoreLaws.PersonalCommitLeaves` | src/m365_copilot_openai_proxy/account_store.py:826-859 | a committed personal renewal replaces token, session and deadline of the same subject, and nothing else |
| `StoreLaws.AadCommitLeaves` | src/m365_copilot_openai_proxy/account_store.py:1266-1306 | a committed AAD renewal replaces the token, rotates the grant and lifts its pause |
| `StoreLaws.ConsumerCommitLeaves` | src/m365_copilot_openai_proxy/account_store.py:1377-1419 | a committed Consumer renewal does the same for its slot and grant |
| `StoreLaws.GrantStored` | src/m365_copilot_openai_proxy/account_store.py:1170-1249 | a grant over the expected one is kept out, discarded with a reason, or stored without pause and post-mortem |
| `StoreLaws.LastGrantIsThere` | src/m365_copilot_openai_proxy/account_store.py:1170-1249 | over any run: the grant stored last is there until another is stored, spent or forgotten |
| `StoreLaws.ConsumerGrantStored` | src/m365_copilot_openai_proxy/account_store.py:1308-1360 | the same step for the Consumer grant |
| `StoreLaws.PauseCounts` | src/m365_copilot_openai_proxy/account_store.py:1251-1264 | a pause reaches only the grant it names, and the later of two pauses counts |
| `StoreLaws.ThrottleSetExactly` | src/m365_copilot_openai_proxy/account_store.py:1083-1109 | set for the expected identity and epoch alone; a limit that is not positive removes it |
| `StoreLaws.LastThrottleHolds` | src/m365_copilot_openai_proxy/account_store.py:1083-1136 | over any run: a stored throttle is in force until something lifts it |
| `StoreLaws.ThrottleLiftedExactly` | src/m365_copilot_openai_proxy/account_store.py:1111-1136 | a turn that ended well lifts it exactly if it is of the same identity, epoch and mode and started later |
| `StoreLaws.ErrorNotedExactly` | src/m365_copilot_openai_proxy/account_store.py:861-882 | a personal error is noted exactly on its own token, session and epoch, and changes nothing else |
| `StoreLaws.LastProxyIsThere` | src/m365_copilot_openai_proxy/account_store.py:929-950 | over any run: the proxy set last is the proxy stored, and setting it moves nothing else |
| `StoreLaws.NewAccountHolds` | src/m365_copilot_openai_proxy/account_store.py:713-738 | a new account holds the pushed token alone, or is refused with its capture or expiry |
| `RenewalLaws.ConsumerTriedExactly` | src/m365_copilot_openai_proxy/consumer_refresh_via_rt.py:230-268 | an exchange starts exactly for a replayable, bound and pinned grant whose pause is over, with that grant, binding, token and subject |
| `RenewalLaws.UnboundConsumerGrantDiscarded` | src/m365_copilot_openai_proxy/consumer_refresh_via_rt.py:241-252 | without an exchange only an unbound grant is touched: it is discarded with the reason |
| `RenewalLaws.RefusedConsumerGrant` | src/m365_copilot_openai_proxy/consumer_refresh_via_rt.py:269-337 | a terminal refusal or a mint for somebody else discards the grant with the reason, a passing failure pauses it for 900 seconds, an unusable body changes nothing |
| `RenewalLaws.ConsumerRetriedExactly` | src/m365_copilot_openai_proxy/consumer_refresh_via_rt.py:269-337 | the same grant may be tried again exactly: after a passing failure once 900 seconds are over, after a terminal refusal or a foreign mint never, after an unusable body at once |
| `RenewalLaws.ConsumerMintStored` | src/m365_copilot_openai_proxy/consumer_refresh_via_rt.py:338-361 | a success stores the minted token with its lifetime and the rotated grant without pause, and nothing else |
| `RenewalLaws.MintChangesTokenExactly` | src/m365_copilot_openai_proxy/account_store.py:1395-1413 | a success changes the token exactly if the answer carries another one than the exchange started from |
| `RenewalLaws.OwnTokenMayBeMintedAgain` | src/m365_copilot_openai_proxy/account_store.py:1395-1413 | whatever the account, an answer with its own token counts as a success that changes no token |
| `RenewalLaws.AadTriedExactly` | src/m365_copilot_openai_proxy/refresh_via_rt.py:232-259 | an AAD exchange starts exactly for a bound grant; an unbound one is discarded with the reason |
| `RenewalLaws.RefusedAadGrant` | src/m365_copilot_openai_proxy/refresh_via_rt.py:261-352 | terminal refusals and foreign mints discard the grant, everything else that fails pauses it |
| `RenewalLaws.AadRetriedExactly` | src/m365_copilot_openai_proxy/refresh_scheduler.py:846-868 | when the scheduler may try the same AAD grant again, answer by answer |
| `RenewalLaws.AadMintStored` | src/m365_copilot_openai_proxy/refresh_via_rt.py:353-373 | a success stores the minted JWT and the rotated grant without pause |
| `RenewalLaws.PersonalAnswerStored` | src/m365_copilot_openai_proxy/refresh_scheduler.py:557-597 | a failed personal renewal is noted on the very session it happened on and changes nothing else; a success stores token, session and deadline together |
| `RenewalLaws.PersonalCommitsExactly` | src/m365_copilot_openai_proxy/refresh_scheduler.py:571-597 | it succeeds exactly on its own snapshot and proxy, with a new JWE and a usable capture of the same subject |
| `RenewalLaws.GateCommitsExactly` | src/m365_copilot_openai_proxy/refresh_scheduler.py:412-492 | a browser renewal succeeds exactly on an unchanged slot and epoch, with a new token of the pinned subject, reusable cookies and one identity |
| `RenewalLaws.GateAnswerStored` | src/m365_copilot_openai_proxy/refresh_scheduler.py:412-492 | a successful browser renewal stores what the browser brought, and its grant only when that is replayable, bound and of the pinned subject |
| `RenewalCommits.Commits.FinishConsumer` | src/m365_copilot_openai_proxy/consumer_refresh_via_rt.py:269-361 | what a returning Consumer exchange does to the live store, account by account |
| `RenewalCommits.Commits.FinishPersonalRenewal` | src/m365_copilot_openai_proxy/refresh_scheduler.py:557-597 | what a returning personal renewal does to the live store |
| `RenewalCommits.Commits.FinishGate` | src/m365_copilot_openai_proxy/refresh_scheduler.py:412-492 | what a returning browser gate does to the live store |
| `SchedulerProofs.InvKept` | src/m365_copilot_openai_proxy/refresh_scheduler.py:706-711 | every step keeps: locks held by exactly the worker inside, dictionaries equal to the history of ended attempts, arrivals dated by their generation |
| `SchedulerProofs.ReachableNext` | src/m365_copilot_openai_proxy/refresh_scheduler.py:322-350 | a reachable state stays reachable through every enabled step |
| `SchedulerProofs.ExecutionsKeepInv` | src/m365_copilot_openai_proxy/refresh_scheduler.py:322-350 | so every state of every run from the start satisfies it |
| `SchedulerProofs.OneBrowser` | src/m365_copilot_openai_proxy/refresh_scheduler.py:117-120 | at most one browser is running, whichever path or account launched it |
| `SchedulerProofs.NoDeadlock` | src/m365_copilot_openai_proxy/refresh_scheduler.py:117-120 | while any call is pending some pending call can take a step |
| `SchedulerProofs.ConsumerSharesTheLatest` | src/m365_copilot_openai_proxy/refresh_scheduler.py:322-350 | a Consumer call without an attempt of its own returns the result of the latest one, ended after the call arrived, whose recorded state is the one stored now |
| `SchedulerProofs.PersonalSharesTheLatest` | src/m365_copilot_openai_proxy/refresh_scheduler.py:531-555 | the same for personal renewals |
| `SchedulerProofs.CdpSharesNews` | src/m365_copilot_openai_proxy/refresh_scheduler.py:879-911 | a CDP fallback shares only the result of an attempt that ended after the call arrived |
| `SchedulerSharing.CoveredKept` | src/m365_copilot_openai_proxy/refresh_scheduler.py:341-350 | while nobody else changes the input, the recorded snapshot of the latest attempt stays the stored state through every step of every path |
| `SchedulerSharing.OnlyAttemptKept` | src/m365_copilot_openai_proxy/refresh_scheduler.py:322-350 | calls that arrived before one attempt ends never start another |
| `SchedulerSharing.ConcurrentCallsCostOneAttempt` | src/m365_copilot_openai_proxy/refresh_scheduler.py:322-350 | for all three renewals: n calls arriving before one attempt ends, with no push between, cost exactly that attempt, whether it succeeds, fails or is cancelled |
| `SchedulerSharing.CdpIsAlwaysQuiet` | src/m365_copilot_openai_proxy/refresh_scheduler.py:879-911 | for the CDP fallback no push needs excluding |
| `SchedulerResults.ResultMeansCommit` | src/m365_copilot_openai_proxy/refresh_scheduler.py:341-492 | in every reachable state, whatever the step: an attempt that ends with true has stored the token its answer minted, another than before unless a plain Consumer exchange answered with the stored one again; one that ends with false or goes on has left every token of every account alone |
| `SchedulerResults.OtherJobsReturnTheirAnswer` | src/m365_copilot_openai_proxy/refresh_scheduler.py:834-911 | the CDP fallback and the other callers of the locks return what their exchange or browser said and change no record |
| `SchedulerResults.LogTells` | src/m365_copilot_openai_proxy/refresh_scheduler.py:341-350 | over any execution: every published result is that of an attempt that ended then, in that way |
| `SchedulerResults.SharedTrueIsLatest` | src/m365_copilot_openai_proxy/refresh_scheduler.py:322-337 | a call told a shared true is told the result of the latest attempt, which ended after it arrived |
| `SchedulerResults.SharedTrueWasCommitted` | src/m365_copilot_openai_proxy/refresh_scheduler.py:322-350 | over any execution: behind every shared true is an attempt that ended after the call arrived and stored a token |
| `SchedulerResults.UpToDate` | src/m365_copilot_openai_proxy/refresh_scheduler.py:322-337 | the generation a call noted tells exactly whether an attempt has ended since it arrived |
| `SchedulerResults.ConsumerTriesExactly` | src/m365_copilot_openai_proxy/refresh_scheduler.py:322-340 | a Consumer call makes an attempt of its own exactly if its input has not been tried since it arrived |
| `SchedulerResults.PersonalTriesExactly` | src/m365_copilot_openai_proxy/refresh_scheduler.py:529-555 | a personal call does so exactly with a usable session, an untried input and, unless forced, its retry time come |
| `SchedulerResults.CdpTriesExactly` | src/m365_copilot_openai_proxy/refresh_scheduler.py:879-911 | the CDP fallback launches exactly if no attempt ended meanwhile, the account is as it was and, unless forced, its token is not usable |
| `SchedulerResults.PersonalLaunchesOnItsState` | src/m365_copilot_openai_proxy/refresh_scheduler.py:571-580 | a personal browser is launched only on the record its attempt started from |
| `SchedulerRoutes.ConsumerExchangesFirst` | src/m365_copilot_openai_proxy/refresh_scheduler.py:352-373 | a Consumer attempt asks over HTTP exactly if its grant can be exchanged now, with that grant |
| `SchedulerRoutes.ConsumerGoesToTheBrowserExactly` | src/m365_copilot_openai_proxy/refresh_scheduler.py:374-400 | without a token from HTTP it goes on to the browser, with the record as it is then, exactly if there is a pinned Consumer account to renew, and otherwise ends with false |
| `SchedulerRoutes.PersonalStartsOnItsState` | src/m365_copilot_openai_proxy/refresh_scheduler.py:556-566 | a personal attempt starts over HTTP with the record it found |
| `SchedulerRoutes.PersonalGoesToTheBrowserExactly` | src/m365_copilot_openai_proxy/refresh_scheduler.py:560-575 | and goes to the browser with that same record exactly if HTTP brought no answer |
| `SchedulerRoutes.OthersAlwaysLaunch` | src/m365_copilot_openai_proxy/refresh_scheduler.py:401-404 | whoever takes the browser lock for anything but a personal session launches |
| `SchedulerRoutes.BrowserAnswerEnds` | src/m365_copilot_openai_proxy/refresh_scheduler.py:401-492 | a browser that has answered leaves both locks free, whatever it brought |
| `SchedulerRoutes.ConsumerTurnedAway` | src/m365_copilot_openai_proxy/refresh_scheduler.py:322-330 | a Consumer call turned away at the door is told false |
| `SchedulerRoutes.PersonalTurnedAway` | src/m365_copilot_openai_proxy/refresh_scheduler.py:529-548 | so is a personal call |
| `SchedulerRoutes.CdpTurnedAway` | src/m365_copilot_openai_proxy/refresh_scheduler.py:888-911 | a CDP fallback turned away is told whether the stored token is usable |
| `RefreshScheduler.RefreshScheduler.constructor` | src/m365_copilot_openai_proxy/refresh_scheduler.py:114-145 | starts with no locks, calls or history, in a reachable state |
| `RefreshScheduler.RefreshScheduler.Finish` | src/m365_copilot_openai_proxy/refresh_scheduler.py:341-350 | publishes generation, snapshot and result of an ended attempt and releases the account |
| `RefreshScheduler.RefreshScheduler.TowardsGate` | src/m365_copilot_openai_proxy/refresh_scheduler.py:374-400 | binds the failure to the input the browser gets, or gives up |
| `RefreshScheduler.RefreshScheduler.EnterConsumer` | src/m365_copilot_openai_proxy/refresh_scheduler.py:322-350 | under the account lock: decline, share, or begin a Consumer attempt |
| `RefreshScheduler.RefreshScheduler.EnterPersonal` | src/m365_copilot_openai_proxy/refresh_scheduler.py:529-555 | under the account lock: decline, share, back off, or begin a personal attempt |
| `RefreshScheduler.RefreshScheduler.EnterCdp` | src/m365_copilot_openai_proxy/refresh_scheduler.py:879-911 | under the account lock: share, decline or wait for the browser |
| `RefreshScheduler.RefreshScheduler.AfterHttp` | src/m365_copilot_openai_proxy/refresh_scheduler.py:352-400 | the HTTP answer is committed or the call goes on to the browser |
| `RefreshScheduler.RefreshScheduler.TakeBrowser` | src/m365_copilot_openai_proxy/refresh_scheduler.py:571-580 | the global lock is taken after the personal path looks at the record once more |
| `RefreshScheduler.RefreshScheduler.AfterBrowser` | src/m365_copilot_openai_proxy/refresh_scheduler.py:401-492 | the browser answer is committed and both locks are released |
| `RefreshScheduler.RefreshScheduler.Cancel` | src/m365_copilot_openai_proxy/refresh_scheduler.py:322-350 | cancellation anywhere releases exactly what the call held |
| `RefreshScheduler.RefreshScheduler.Arrive` | src/m365_copilot_openai_proxy/refresh_scheduler.py:321 | a call notes the generation it found |
| `RefreshScheduler.RefreshScheduler.Begin` | src/m365_copilot_openai_proxy/refresh_scheduler.py:338-340 | takes the account and notes the input of the attempt |
| `RefreshScheduler.RefreshScheduler.FinishPersonal` | src/m365_copilot_openai_proxy/refresh_scheduler.py:557-597 | a personal answer is committed and published |
| `RefreshScheduler.RefreshScheduler.TakeAccount` | src/m365_copilot_openai_proxy/refresh_scheduler.py:888-911 | callers that share nothing just take the account lock |
| `RefreshScheduler.RefreshScheduler.Settle` | src/m365_copilot_openai_proxy/refresh_scheduler.py:322-337 | a call that makes no attempt returns and holds nothing |
| `RefreshScheduler.RefreshScheduler.Run` | src/m365_copilot_openai_proxy/refresh_scheduler.py:310-350 | each stretch between two awaits is exactly one step of the state machine and keeps the object reachable |
| `RefreshScheduler.ObjectRunsOneBrowser` | src/m365_copilot_openai_proxy/refresh_scheduler.py:117-120 | so the object itself runs at most one browser, the one holding the lock |
| `RefreshScheduler.ObjectNeverStuck` | src/m365_copilot_openai_proxy/refresh_scheduler.py:117-120 | and while a call is pending it has a stretch to run |
| `RateLimit.TokenBucket.constructor` | src/m365_copilot_openai_proxy/ratelimit.py:22-31 | starts full, refilling rpm / 60 a second |
| `RateLimit.TokenBucket.Refill` | src/m365_copilot_openai_proxy/ratelimit.py:37-41 | accrues for the elapsed time up to the capacity |
| `RateLimit.TokenBucket.TryAcquire` | src/m365_copilot_openai_proxy/ratelimit.py:43-61 | new state and answer of one call |
| `RateLimit.WindowBound` | src/m365_copilot_openai_proxy/ratelimit.py:37-61 | within any window [from, to] any sequence of calls is granted at most capacity + rate * (to - from) times |
| `RateLimit.RefillOnTheWay` | src/m365_copilot_openai_proxy/ratelimit.py:37-41 | refilling early makes no difference later |
| `RateLimit.RefusedIsInvisible` | src/m365_copilot_openai_proxy/ratelimit.py:43-61 | a refused call changes no later answer and no later state |
| `RateLimit.GrantedAlone` | src/m365_copilot_openai_proxy/ratelimit.py:43-61 | dropping every refused call leaves exactly the granted ones granted |
| `RateLimit.GrantedAloneSameBucket` | src/m365_copilot_openai_proxy/ratelimit.py:43-61 | and at any later moment the bucket holds what it would hold without the refused calls |
| `RateLimit.RetryAfterIsExact` | src/m365_copilot_openai_proxy/ratelimit.py:57-61 | a refusal names a time still ahead, and a retry with no grant between succeeds if and only if that time has come |
| `RateLimit.RateLimiterRegistry.constructor` | src/m365_copilot_openai_proxy/ratelimit.py:79-81 | starts with no buckets |
| `RateLimit.RateLimiterRegistry.BucketFor` | src/m365_copilot_openai_proxy/ratelimit.py:90-97 | reuses the bucket of an unchanged limit and replaces it otherwise, touching no other identity |
| `RateLimit.RateLimiterRegistry.TryAcquire` | src/m365_copilot_openai_proxy/ratelimit.py:83-98 | new state and answer of one call by identity |
| `RateLimit.RateLimiterRegistry.Spend` | src/m365_copilot_openai_proxy/ratelimit.py:98 | spends from the bucket of one identity and touches no other |
| `RateLimit.OneBucketPerIdentity` | src/m365_copilot_openai_proxy/ratelimit.py:83-98 | while its limit is unchanged an identity is answered by one bucket as if it were alone |
| `RateLimit.FirstCallStartsFull` | src/m365_copilot_openai_proxy/ratelimit.py:91-95 | the first call, or the first under a new limit, starts a full bucket and is granted |
| `RateLimit.RefusedExactly` | src/m365_copilot_openai_proxy/ratelimit.py:37-61 | the converse of WindowBound: from a full bucket on, a call is refused if and only if granting it would put more grants into some window ending with it than capacity plus what accrues |
| `RateLimit.RefusedExceeds` | src/m365_copilot_openai_proxy/ratelimit.py:43-61 | a refusal comes with the start of such a window |
| `RateLimit.ExceedingIsRefused` | src/m365_copilot_openai_proxy/ratelimit.py:43-61 | and from any sound bucket a call that would exceed a window is refused |
| `RateLimit.FirstCallsGranted` | src/m365_copilot_openai_proxy/ratelimit.py:22-61 | so the first capacity calls are all granted, at one moment or at any others |
| `RateLimit.UnlimitedIsGranted` | src/m365_copilot_openai_proxy/ratelimit.py:47-48 | a caller without a limit is never refused and costs nothing |
| `RateLimit.OthersLeaveItAlone` | src/m365_copilot_openai_proxy/ratelimit.py:83-98 | a call of another identity, and one without a limit, leaves what an identity has accrued alone |
| `Concurrency.CountersAlwaysRight` | src/m365_copilot_openai_proxy/account_concurrency.py:47-69 | after any interleaving of entering, queueing, cancelling, failing and leaving, the two counters equal the running and queued turns and every semaphore has free slots plus holders equal to its limit |
| `Concurrency.NothingLeaks` | src/m365_copilot_openai_proxy/account_concurrency.py:58-69 | when all turns have ended both counters are zero and every slot is free |
| `Concurrency.NobodyWaitsForNothing` | src/m365_copilot_openai_proxy/account_concurrency.py:56-63 | a queued turn has a free slot to take or a running turn on its gate to wait for |
| `Concurrency.NeverAboveASteadyLimit` | src/m365_copilot_openai_proxy/account_concurrency.py:34-45 | with an unchanged positive limit no more than that many turns run |
| `Concurrency.AboveTheLimitExactly` | src/m365_copilot_openai_proxy/account_concurrency.py:37-44 | in a state: an account is above its installed limit exactly when more turns run outside the installed gate than it has free slots |
| `Concurrency.AboveAfterStep` | src/m365_copilot_openai_proxy/account_concurrency.py:34-64 | one step takes an account above its limit exactly when it sets a limit below the turns running, or adds a turn while as many run as the limit allows |
| `Concurrency.AboveOnlyByCrossing` | src/m365_copilot_openai_proxy/account_concurrency.py:34-64 | over a whole run an account is ever above its limit if and only if some step meets that condition, read before the step |
| `Concurrency.StartCrossesBesideStrays` | src/m365_copilot_openai_proxy/account_concurrency.py:56-64 | a start on the installed gate meets it only while some turn runs outside that gate |
| `Concurrency.ALoweredLimitCanBeExceeded` | src/m365_copilot_openai_proxy/account_concurrency.py:37-44 | a run in which lowering the limit lets an account exceed it |
| `Concurrency.StatsAreTrue` | src/m365_copilot_openai_proxy/account_concurrency.py:71-77 | the report shows the true counts, of busy accounts only, and misses none with a running turn |
| `Concurrency.AccountConcurrency.constructor` | src/m365_copilot_openai_proxy/account_concurrency.py:29-32 | starts empty |
| `Concurrency.AccountConcurrency.Gate` | src/m365_copilot_openai_proxy/account_concurrency.py:34-45 | the installed gate for the limit, a fresh one only when the limit differs |
| `Concurrency.AccountConcurrency.Enter` | src/m365_copilot_openai_proxy/account_concurrency.py:47-59 | entering: counted and queued on a gate, or running at once when unlimited |
| `Concurrency.AccountConcurrency.Start` | src/m365_copilot_openai_proxy/account_concurrency.py:60-64 | a slot is taken and the turn moves from waiting to running |
| `Concurrency.AccountConcurrency.GiveUp` | src/m365_copilot_openai_proxy/account_concurrency.py:60-62 | a cancelled wait takes no slot |
| `Concurrency.AccountConcurrency.Exit` | src/m365_copilot_openai_proxy/account_concurrency.py:64-69 | however the body ends, one turn less and the slot of its own gate is free again |
| `Concurrency.AccountConcurrency.Report` | src/m365_copilot_openai_proxy/account_concurrency.py:71-77 | the report over the object |
| `HistoryIndex.EncodingMeaning` | src/m365_copilot_openai_proxy/history_index.py:137-147 | two histories are hashed alike exactly when they have the same pieces between NULs |
| `HistoryIndex.PlainHistoriesDiffer` | src/m365_copilot_openai_proxy/history_index.py:137-147 | so no two histories without NULs are |
| `HistoryIndex.NulInTextCollides` | src/m365_copilot_openai_proxy/history_index.py:137-147 | a NUL inside a text makes one message look like two: a concrete pair |
| `HistoryIndex.KeysDiffer` | src/m365_copilot_openai_proxy/history_index.py:162-165 | NUL-free tenants never share an entry |
| `HistoryIndex.AlwaysTidy` | src/m365_copilot_openai_proxy/history_index.py:202-217 | after any calls: size within the cap, one or two owners an entry, hits plus misses equal the lookups |
| `HistoryIndex.MatchFindsTheUniqueOwner` | src/m365_copilot_openai_proxy/history_index.py:178-200 | up to the cap in distinct histories, an owner is returned if and only if it is the only owner of the longest recorded strict prefix of that tenant |
| `HistoryIndex.AnswersWereRecorded` | src/m365_copilot_openai_proxy/history_index.py:178-200 | after any eviction a returned owner was still recorded for some strict prefix under that tenant |
| `HistoryIndex.StoredExactly` | src/m365_copilot_openai_proxy/history_index.py:202-217 | after any calls an entry is stored if and only if fewer than the cap of other entries were used since its last use |
| `HistoryIndex.RecentRecordsSurvive` | src/m365_copilot_openai_proxy/history_index.py:202-217 | a recorded history survives while fewer other entries than the cap are used |
| `HistoryIndex.EvictedExactly` | src/m365_copilot_openai_proxy/history_index.py:202-217 | not used again itself, it is stored exactly while fewer than the cap of other entries have been used since |
| `HistoryIndex.MatchedExactly` | src/m365_copilot_openai_proxy/history_index.py:178-200 | after any calls and any eviction an owner is returned if and only if it is the only one recorded for the longest stored strict prefix since its entry was last created |
| `HistoryIndex.OwnerHiddenExactly` | src/m365_copilot_openai_proxy/history_index.py:213-217 | an answer hides other owners of its prefix exactly when somebody else recorded that history before its entry was last created and only the answered owner since |
| `HistoryIndex.SecondOwnerAnswers` | src/m365_copilot_openai_proxy/history_index.py:213-217 | whatever the cap: with that many other histories recorded between two owners of one history, the second is answered |
| `HistoryIndex.EvictionHidesAnOwner` | src/m365_copilot_openai_proxy/history_index.py:213-217 | concretely, for every cap: conversations that open alike, with as many other openings between them as the cap |
| `HistoryIndex.HistoryDigestIndex.constructor` | src/m365_copilot_openai_proxy/history_index.py:153-160 | starts empty |
| `HistoryIndex.Longest` | src/m365_copilot_openai_proxy/history_index.py:188-198 | the longest recorded prefix of at most n messages: recorded, and none longer is |
| `HistoryIndex.HistoryDigestIndex.Chain` | src/m365_copilot_openai_proxy/history_index.py:137-147 | one pass over a running hash yields the digest of every prefix |
| `HistoryIndex.HistoryDigestIndex.Match` | src/m365_copilot_openai_proxy/history_index.py:178-200 | answer and whole new state of a lookup |
| `HistoryIndex.HistoryDigestIndex.Record` | src/m365_copilot_openai_proxy/history_index.py:202-217 | whole new state after a record |
| `HistoryIndex.HistoryDigestIndex.Trim` | src/m365_copilot_openai_proxy/history_index.py:216-217 | drops the least recently used down to the cap |
| `HistoryIndex.CountersExact` | src/m365_copilot_openai_proxy/history_index.py:178-200 | hits are exactly the lookups that were given an owner and misses exactly the others; recording counts as neither |
| `HistoryIndex.LookupIsUse` | src/m365_copilot_openai_proxy/history_index.py:188-200 | a lookup uses the entry of the longest stored strict prefix, answered or not, and no other |
| `HistoryIndex.VainLookupUsesNothing` | src/m365_copilot_openai_proxy/history_index.py:188-200 | a lookup without such a prefix uses none |
| `HistoryIndex.RecordIsUse` | src/m365_copilot_openai_proxy/history_index.py:202-217 | a record uses its own entry and no other |
| `ConsumerPrompt.HeadTail` | src/m365_copilot_openai_proxy/consumer_prompt.py:18-27 | the text itself when it fits and exactly the limit in length when it does not |
| `ConsumerPrompt.CutKeepsBothEnds` | src/m365_copilot_openai_proxy/consumer_prompt.py:18-27 | a cut text keeps its beginning and its end, about as much of either, around the note of what is missing; a limit too small for the note keeps the beginning alone |
| `ConsumerPrompt.SuffixMeaning` | src/m365_copilot_openai_proxy/consumer_prompt.py:30-38 | for any markers: nothing exactly without one, else what follows the line break after the last of them |
| `ConsumerPrompt.EarlierTranscriptSurvives` | src/m365_copilot_openai_proxy/consumer_prompt.py:114-122 | as much of the end of the earlier transcript as there is room for is in the text, all of it if it fits |
| `ConsumerPrompt.BackgroundSurvives` | src/m365_copilot_openai_proxy/consumer_prompt.py:124-130 | and the background, cut to the room left then |
| `ConsumerPrompt.PartsInOrder` | src/m365_copilot_openai_proxy/consumer_prompt.py:95-130 | the parts stand in the order contracts, background, earlier transcript, latest tool result |
| `ConsumerPrompt.OthersMeaning` | src/m365_copilot_openai_proxy/consumer_prompt.py:79-89 | what counts as background is exactly what is neither contract nor transcript |
| `ConsumerPrompt.NothingIsForgotten` | src/m365_copilot_openai_proxy/consumer_prompt.py:79-89 | every transcript part is in the transcript and every other part in the background |
| `ConsumerPrompt.LastMarker` | src/m365_copilot_openai_proxy/consumer_prompt.py:32-37 | the last position of any tool-result marker, or none |
| `ConsumerPrompt.LatestToolResultMeaning` | src/m365_copilot_openai_proxy/consumer_prompt.py:30-38 | the suffix after the line break of the last marker, missing exactly when there is none |
| `ConsumerPrompt.CompactConsumerPrompt` | src/m365_copilot_openai_proxy/consumer_prompt.py:69-135 | the compaction with its growing list of parts returns what the specification says, errors included |
| `ConsumerPrompt.Fill` | src/m365_copilot_openai_proxy/consumer_prompt.py:105-130 | the tool result, recent transcript and background are appended and inserted in that priority |
| `ConsumerPrompt.AddRecent` | src/m365_copilot_openai_proxy/consumer_prompt.py:117-122 | the newest part of the earlier transcript, unless that text is there already |
| `ConsumerPrompt.RefusedOrWithinBudget` | src/m365_copilot_openai_proxy/consumer_prompt.py:45-60 | a ValueError exactly in the three stated cases, otherwise a text within max_chars: the internal assertion cannot fail |
| `ConsumerPrompt.UnchangedWhenItFits` | src/m365_copilot_openai_proxy/consumer_prompt.py:90-93 | the plain join when that fits |
| `ConsumerPrompt.ContractsSurvive` | src/m365_copilot_openai_proxy/consumer_prompt.py:95-105 | every tool contract is contained verbatim |
| `ConsumerPrompt.PromptSurvives` | src/m365_copilot_openai_proxy/consumer_prompt.py:100-103 | the whole prompt ends the text whenever it fits max_chars by itself |
| `ConsumerPrompt.CutPromptSurvives` | src/m365_copilot_openai_proxy/consumer_prompt.py:98-103 | a longer one ends it too, cut to what the contracts leave of the budget |
| `ConsumerPrompt.LatestToolResultSurvives` | src/m365_copilot_openai_proxy/consumer_prompt.py:107-112 | the latest tool result is whole whenever it fits the room left by contract and prompt |
| `ConsumerPrompt.InsertedLength` | src/m365_copilot_openai_proxy/consumer_prompt.py:63-66 | the capacity is exact: a part costs its length and one separator wherever it goes |
| `ConsumerPrompt.BackgroundComesLast` | src/m365_copilot_openai_proxy/consumer_prompt.py:114-130 | background is sent only after the tool result went in whole and the earlier transcript did too or its newest part is already there |
| `ReadStream.Read` | src/m365_copilot_openai_proxy/consumer_client.py:690-891 | for every sequence of frames, socket deaths and failing sends: output, sent frames and ending are what the events of the turn mean |
| `ReadStream.Handle` | src/m365_copilot_openai_proxy/consumer_client.py:758-891 | one message: flags, output, sends and ending |
| `ReadStream.Batch` | src/m365_copilot_openai_proxy/consumer_client.py:758-891 | the messages of one frame, as far as the turn goes |
| `ReadStream.Socket.Recv` | src/m365_copilot_openai_proxy/consumer_client.py:706-711 | the next frame, or the end of the socket |
| `ReadStream.HandleConnected` | src/m365_copilot_openai_proxy/consumer_client.py:763-780 | the burst goes out on the first connected only |
| `ReadStream.HandleChallenge` | src/m365_copilot_openai_proxy/consumer_client.py:824-856 | unsafe and unanswerable challenges raise, the first solvable one is answered, later ones are not |
| `ReadStream.HandleImage` | src/m365_copilot_openai_proxy/consumer_client.py:784-812 | captions, previews and urls |
| `ReadStream.Socket.Emit` | src/m365_copilot_openai_proxy/consumer_client.py:700-703 | frames go out in order up to a send that fails |
| `ReadStream.SendsExactly` | src/m365_copilot_openai_proxy/consumer_client.py:776-856 | the sent frames are the burst, if connected ever arrives, and the answer to the first solvable challenge, once each |
| `ReadStream.AnswerMeaning` | src/m365_copilot_openai_proxy/consumer_client.py:824-856 | that answer is to the first solvable challenge |
| `ReadStream.MessageSentAtMostTwice` | src/m365_copilot_openai_proxy/consumer_client.py:776-856 | at most two send frames |
| `ReadStream.FailedSendCutsThere` | src/m365_copilot_openai_proxy/consumer_client.py:700-703 | a failing send cuts what goes out exactly there, and the turn raises |
| `ReadStream.TurnEnds` | src/m365_copilot_openai_proxy/consumer_client.py:705-891 | the rest of a turn is the shortest part of the coming events that ends it |
| `ReadStream.EveryTurnEnds` | src/m365_copilot_openai_proxy/consumer_client.py:705-891 | for every sequence of received frames and every failing send the turn ends, at the first event that ends it |
| `ReadStream.PreviewMeaning` | src/m365_copilot_openai_proxy/consumer_client.py:784-810 | the preview handed over is the last preview frame with no url after it |
| `ReadStream.PromptMeaning` | src/m365_copilot_openai_proxy/consumer_client.py:811-812 | the caption is the last one announced |
| `ReadStream.DeadSocket` | src/m365_copilot_openai_proxy/consumer_client.py:711-756 | a dying socket raises exactly when there was neither url nor preview, and otherwise ends like done with the picture handed over |
| `ReadStream.TextIsConserved` | src/m365_copilot_openai_proxy/consumer_client.py:781-783 | the text output is the text received, in order |
| `ReadStream.PreviewLostExactly` | src/m365_copilot_openai_proxy/consumer_client.py:801-810 | an empty preview frame discards a preview in hand, and the code differs from the latest non-empty preview exactly then |
| `ReadStream.EmptyPreviewLosesThePicture` | src/m365_copilot_openai_proxy/consumer_client.py:801-810 | so any turn that ends its frames with an empty preview raises on a dead socket although a picture had arrived |
| `ReadStream.PromptIsCaption` | src/m365_copilot_openai_proxy/consumer_client.py:784-812 | naming frames only: the caption is that of the last announcement, or none |
| `ReadStream.PictureHandedOver` | src/m365_copilot_openai_proxy/consumer_client.py:711-822 | naming frames only: the last preview, with no url after it, is handed over as the picture under that caption when the turn ends with done, and on a dead socket when no url went out |
| `ReadStream.NoPictureHandedOver` | src/m365_copilot_openai_proxy/consumer_client.py:711-822 | without such a frame nothing is added |
| `ReadStream.StreamedShowsExactly` | src/m365_copilot_openai_proxy/consumer_client.py:781-812 | the output is, in order, one text for every text frame and one picture for every url, under the last caption announced before it |
| `ReadStream.EndingExactly` | src/m365_copilot_openai_proxy/consumer_client.py:711-891 | how a turn ends, event by event |
| `ReadStream.TurnEndsAtTheFirst` | src/m365_copilot_openai_proxy/consumer_client.py:705-891 | while the socket takes every frame a turn is what is received up to the first done, error, message error, unanswered challenge or socket death, and no further |
| `ChatRetry.ConsumerClient.ChatStream` | src/m365_copilot_openai_proxy/consumer_client.py:470-503 | at most two attempts and one re-mint; the second uses the merged credentials and an empty conversation; the text is that of the last attempt alone; every ending |
| `ChatRetry.ConsumerClient.Relay` | src/m365_copilot_openai_proxy/consumer_client.py:480-486 | relays an attempt and notes whether anything visible was shown |
| `ChatRetry.SilentFirst` | src/m365_copilot_openai_proxy/consumer_client.py:481-485 | a refused attempt that showed nothing leaves no trace in the text |
| `ChatRetry.MintedFieldsReplaceTheirOwn` | src/m365_copilot_openai_proxy/consumer_client.py:492-503 | a field the gate returns replaces its own and one it leaves out is kept, each of the three by itself |
| `ChatRetry.NoSecondTry` | src/m365_copilot_openai_proxy/consumer_client.py:486-489 | nothing is retried once something was shown, nor without a gate, nor after any other failure |
| `ChatRetry.SecondTry` | src/m365_copilot_openai_proxy/consumer_client.py:486-489 | a silent refusal with a gate at hand is |
| `Hashcash.SolveHashcash` | src/m365_copilot_openai_proxy/consumer_client.py:309-324 | the smallest nonce below 2^25 whose digest starts with that many zero bits, or nothing exactly when the parameter is unusable or none exists |
| `Hashcash.PassesMeansLeadingZeros` | src/m365_copilot_openai_proxy/consumer_client.py:318-322 | the test on bytes and a mask means exactly that the first bits are zero |
| `Hashcash.LastColon` | src/m365_copilot_openai_proxy/consumer_client.py:311 | the seed ends at the last colon |
| `Reasoning.StripMonotone` | src/m365_copilot_openai_proxy/reasoning.py:31-35 | citation stripping is prefix-monotone for every extension exactly unless the text was cut at a partial marker before its final line break |
| `Reasoning.StripLeavesProse` | src/m365_copilot_openai_proxy/reasoning.py:31-35 | text without the control character is left alone whatever follows |
| `Reasoning.StripRemovesCitation` | src/m365_copilot_openai_proxy/reasoning.py:31-35 | a whole citation disappears |
| `Reasoning.ReasoningSnapshots.constructor` | src/m365_copilot_openai_proxy/reasoning.py:46-47 | starts with nothing seen |
| `Reasoning.ReasoningSnapshots.Take` | src/m365_copilot_openai_proxy/reasoning.py:54-76 | one entry: skipped, dropped as a revision, or delivered as its suffix |
| `Reasoning.ReasoningSnapshots.Extract` | src/m365_copilot_openai_proxy/reasoning.py:49-76 | a list of entries, in order |
| `Reasoning.DeltasAddUp` | src/m365_copilot_openai_proxy/reasoning.py:66-76 | for every message the deltas add up to its last accepted text, ids are not shared, no delta is empty |
| `Reasoning.OtherEntriesAreSilent` | src/m365_copilot_openai_proxy/reasoning.py:20-28 | words of the user, unmarked entries, entries without text and blank ones are never delivered |
| `Reasoning.FirstSnapshotIsDelivered` | src/m365_copilot_openai_proxy/reasoning.py:54-76 | the first snapshot of a message, marked either way and named by either spelling of its id, is delivered whole under a local id of its own |
| `Reasoning.NoSnapshotDropped` | src/m365_copilot_openai_proxy/reasoning.py:60-76 | for an append-only message no snapshot is dropped: what was delivered is always the whole latest text, stripped |
| `Reasoning.DroppedExactly` | src/m365_copilot_openai_proxy/reasoning.py:69-72 | a longer snapshot is dropped exactly if the one before it was cut before its final line break |
| `Reasoning.ReasoningCollector.constructor` | src/m365_copilot_openai_proxy/reasoning.py:80-82 | starts empty |
| `Reasoning.ReasoningCollector.Add` | src/m365_copilot_openai_proxy/reasoning.py:84-89 | collects a suffix and returns it with item spacing |
| `Reasoning.ReasoningCollector.ChatField` | src/m365_copilot_openai_proxy/reasoning.py:91-92 | the joined field in order of first appearance |
| `Reasoning.CollectorHoldsTheText` | src/m365_copilot_openai_proxy/reasoning.py:84-89 | the collector holds exactly the concatenated deltas of every item |
| `Reasoning.CollectorHoldsTheSnapshots` | src/m365_copilot_openai_proxy/reasoning.py:66-89 | fed by the snapshots it holds the last accepted text of every message and nothing else |
| `Reasoning.StreamedIsJoinedExactly` | src/m365_copilot_openai_proxy/reasoning.py:84-92 | the streamed text equals the joined field if and only if no item is resumed after another |
| `AnthropicStream.AnthropicContentStream.constructor` | src/m365_copilot_openai_proxy/reasoning_stream.py:17-21 | starts with no block open |
| `AnthropicStream.AnthropicContentStream.CloseBlock` | src/m365_copilot_openai_proxy/reasoning_stream.py:23-30 | closes the open block, signing a thinking block |
| `AnthropicStream.AnthropicContentStream.StartBlock` | src/m365_copilot_openai_proxy/reasoning_stream.py:32-41 | keeps a block of that kind or closes and opens one at the next index |
| `AnthropicStream.AnthropicContentStream.Reasoned` | src/m365_copilot_openai_proxy/reasoning_stream.py:43-46 | a summary delta in a thinking block |
| `AnthropicStream.AnthropicContentStream.Said` | src/m365_copilot_openai_proxy/reasoning_stream.py:48-52 | a text delta in a text block |
| `AnthropicStream.AnthropicContentStream.Used` | src/m365_copilot_openai_proxy/reasoning_stream.py:54-63 | a whole tool block |
| `AnthropicStream.AlwaysReadable` | src/m365_copilot_openai_proxy/reasoning_stream.py:14-63 | after any calls an independent automaton accepts the events: one block at a time with indices 0, 1, 2, deltas that name the open block and fit it, one signature per thinking block |
| `AnthropicStream.ClosedAtTheEnd` | src/m365_copilot_openai_proxy/reasoning_stream.py:23-30 | after a final close nothing is open |
| `AnthropicStream.NothingLostOrAdded` | src/m365_copilot_openai_proxy/reasoning_stream.py:43-63 | text, summaries, tools and tool inputs come out exactly as given, in order |
| `AnthropicStream.ThinkingMatchesTheReply` | src/m365_copilot_openai_proxy/reasoning_stream.py:43-46 | the streamed thinking is the joined field exactly when no item is resumed |
| `AnthropicStream.BlocksAsCalled` | src/m365_copilot_openai_proxy/reasoning_stream.py:14-63 | a client assembles exactly the blocks the calls ask for: pieces of one kind that directly follow one another share a block, a tool call is a block of its own |
| `ResponsesStream.ResponsesReasoningStream.constructor` | src/m365_copilot_openai_proxy/reasoning_stream.py:69-72 | starts at index 0 |
| `ResponsesStream.ResponsesReasoningStream.ReserveIndex` | src/m365_copilot_openai_proxy/reasoning_stream.py:74-77 | gives the next index away |
| `ResponsesStream.ResponsesReasoningStream.Add` | src/m365_copilot_openai_proxy/reasoning_stream.py:79-90 | adds an item at the next index once, then its delta |
| `ResponsesStream.ResponsesReasoningStream.FinishAll` | src/m365_copilot_openai_proxy/reasoning_stream.py:92-100 | the closing events of all items |
| `ResponsesStream.ResponsesReasoningStream.Output` | src/m365_copilot_openai_proxy/reasoning_stream.py:102-105 | own and extra items sorted by index |
| `ResponsesStream.IndicesPartition` | src/m365_copilot_openai_proxy/reasoning_stream.py:74-84 | items and reservations hold each index below the next exactly once: none skipped, none reused |
| `ResponsesStream.OutputAtItsIndex` | src/m365_copilot_openai_proxy/reasoning_stream.py:102-105 | when every reserved index is passed once, each item stands in the output at its own index |
| `ResponsesStream.SortedMeaning` | src/m365_copilot_openai_proxy/reasoning_stream.py:105 | the sort is ascending and a permutation |
| `ResponsesStream.FinishMeaning` | src/m365_copilot_openai_proxy/reasoning_stream.py:92-100 | finish closes each item once, in order, at its own index |
| `ResponsesStream.ClosingText` | src/m365_copilot_openai_proxy/reasoning_stream.py:92-100 | with the concatenation of its deltas |
| `ResponsesStream.AlwaysReadable` | src/m365_copilot_openai_proxy/reasoning_stream.py:79-90 | whatever the calls a client that only sees the events has seen each item once, at its one index, with all the text given for it |
| `ResponsesStream.FinishIsReadable` | src/m365_copilot_openai_proxy/reasoning_stream.py:92-100 | and finish closes every item once, with that text |
| `ResponsesStream.ClosedReply` | src/m365_copilot_openai_proxy/reasoning_stream.py:79-100 | so in a closed reply each item is complete at its index with the text of its deltas together |
| `CloudCleanup.CleanupConversations` | src/m365_copilot_openai_proxy/m365_cloud_client.py:300-346 | the loop deletes and fails as specified over any cloud |
| `CloudCleanup.Sweep` | src/m365_copilot_openai_proxy/m365_cloud_client.py:326-343 | one round over its pending rows |
| `CloudCleanup.ProtectedStay` | src/m365_copilot_openai_proxy/m365_cloud_client.py:314-323 | a whitelisted id is never attempted, and at most a hundred listings are made |
| `CloudCleanup.NoRulesNothingDeleted` | src/m365_copilot_openai_proxy/m365_cloud_client.py:331-335 | with both rules off nothing is attempted |
| `CloudCleanup.KeptIsSafeExactly` | src/m365_copilot_openai_proxy/m365_cloud_client.py:319-343 | the rows of a round never delete an id already kept, under every rule, clock and cloud, exactly when no id comes twice |
| `CloudCleanup.RoundSafeExactly` | src/m365_copilot_openai_proxy/m365_cloud_client.py:326-343 | for given rules and a given moment, with deletions that succeed: a round attempts nothing it kept exactly if no row from the first one to delete on repeats an id kept before |
| `CloudCleanup.KeptStays` | src/m365_copilot_openai_proxy/m365_cloud_client.py:315-343 | when no listing repeats an id, nothing kept is attempted later in the whole cleanup |
| `CloudCleanup.NewestFirstDistinct` | src/m365_copilot_openai_proxy/m365_cloud_client.py:270-274 | sorting a listing keeps its rows and their distinctness |
| `CloudCleanup.OldRowsAttempted` | src/m365_copilot_openai_proxy/m365_cloud_client.py:326-343 | a round decides on every row: one that is too old is attempted, and so is every row once the cap is full |
| `CloudCleanup.NothingElseAttempted` | src/m365_copilot_openai_proxy/m365_cloud_client.py:328-335 | while no row is too old and the cap has room for all of them, none is attempted |
| `CloudCleanup.GoesOnWhileItDeletes` | src/m365_copilot_openai_proxy/m365_cloud_client.py:315-345 | the cleanup lists again exactly while the round before deleted something, up to a hundred times, and fails exactly if its last listing does |
| `CloudCleanup.UpdatedAtMeaning` | src/m365_copilot_openai_proxy/m365_cloud_client.py:251-268 | the time of a row is its update in seconds, or else its creation, or else 0 |
| `CloudCleanup.NewestFirstSorts` | src/m365_copilot_openai_proxy/m365_cloud_client.py:270-274 | a listing is put newest first, each row once |
| `CloudCleanup.NewestFirstIsStable` | src/m365_copilot_openai_proxy/m365_cloud_client.py:270-274 | rows of one time stay as they came |
| `CloudStatic.PendingIsNext` | src/m365_copilot_openai_proxy/m365_cloud_client.py:318-323 | on a static history, through a window of any size, a round gets exactly the next unprotected conversations |
| `CloudStatic.KeptThenDeleted` | src/m365_copilot_openai_proxy/m365_cloud_client.py:317-345 | the kept conversations are the newest unprotected ones, the deleted ones follow them in order, and the first of those is due |
| `CloudStatic.DecidedByTheRules` | src/m365_copilot_openai_proxy/m365_cloud_client.py:326-335 | nothing is kept that was due from the first moment, and nothing deleted that was not due by the last |
| `CloudStatic.DueAreDeleted` | src/m365_copilot_openai_proxy/m365_cloud_client.py:326-345 | when the window shows the whole history exactly the conversations that are due are deleted and the others kept |
| `CloudStatic.NewestKept` | src/m365_copilot_openai_proxy/m365_cloud_client.py:328-335 | no deleted conversation is newer than a kept one |
| `CloudStatic.NoneDeletedTwice` | src/m365_copilot_openai_proxy/m365_cloud_client.py:317-345 | none is deleted twice |

## Left out

- Browser, CDP, HTTP, WebSocket and web-framework code: a browser or HTTP renewal is one step with an arbitrary answer or a failure.
- Persistence, encryption and loading: the store starts empty.
- Token parsing, session and cookie normalization and identifier trimming: texts are taken as already stripped, tokens as classified, and the field-by-field session check is one `acceptable` flag that fixes the subject.
- Account fields that no modelled rule reads: name, email, studio agent, media tokens, local storage, cookie status, CDP port. The cookie status a CDP refresh compares is an arbitrary `Drift` between the two reads.
- AccountStore.AccountStore.Get: returns a value; the alias to the live record that the original hands out is not modelled, every access inside one stretch goes through the pool.
- AccountClass.Account.SetRefreshToken: only the letters A to Z are folded when client ids are compared; they are GUIDs.
- RefreshScheduler.RefreshScheduler.Run: holds the pool as a value, one atomic store call at a time, instead of a reference to the AccountStore object; RenewalCommits proves the same commits over that object.
- Who decides that a renewal is due (keepalive loop, retry clocks): the answers enter the scheduler as the parameters `ready`, `usable` and `force`.
- Fairness of asyncio locks and semaphores: any waiting task may be next, which includes first-in first-out.
- Clearing one account's browser profiles while its lock is held: file-system work.
- HistoryIndex.HistoryDigestIndex.Match: text is compared as characters, not as UTF-8 bytes, and `normalize_history` is not modelled; its pairs are arbitrary.
- HistoryIndex.HistoryDigestIndex.constructor: the cap is a natural number; a negative one would make the first record raise KeyError.
- Hashcash.SolveHashcash: reading the difficulty as an integer is a parameter that may fail.
- The arithmetic challenge variant, which depends on floating-point rounding.
- RateLimit.TokenBucket.TryAcquire: floats are reals; rounding near one whole token is not modelled.
- ReadStream.Read: the text of errors and traces, and a consumer that stops iterating early.
- ChatRetry.ConsumerClient.ChatStream: uploads and the handshake are part of an attempt; only its chunks and its ending matter here.
- Reasoning.ReasoningSnapshots.Extract: the two wrappers that turn a single entry into a list and skip values that are not entries.
- ThrottledClient, which forwards attributes and calls `hold`.
- Easy members elsewhere: key store, quotas, login guard, serializers, header helpers, bounded logs.
