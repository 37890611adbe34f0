# Verified model of the mobile-control adapter and app

This project models the protocols and algorithms of the ioBroker adapter "mobile-control" and of its
Android app, and proves what they promise over all inputs and all runs. `dafny verify dfyconfig.toml`
checks everything.

Each stateful part is a class with the fields of the original, whose methods equate the new fields with
a specification function of the old ones. The same functions are the steps of a state machine over
events: the stretches of code between two awaits, with explicit clock readings. The theorems quantify
over every sequence of events; an event that cannot happen where it stands is skipped, so every sequence
is a run. Each part has an independent description it is compared with: a scan of the history, a chain
of tokens, a timeline, a printer, the meaning of a pattern, the items of a tree.

| part | files |
|---|---|
| actuator commands, server and app | Commands, CommandRuns, CommandOwnership, CommandRecords, CommandTimers, CommandTheorems, CommandChecks, CommandTimes, CommandEndings, CommandRepository, CommandWorld, CommandShown |
| live values | Realtime, GatewayRuns, GatewaySteps, GatewayOrder, GatewayRaces, RealtimeClient, RealtimeProtocol, RealtimeSteps, RealtimeAgreement, RealtimeDelivery, RealtimeReads, RealtimeRaces |
| refresh tokens | Sessions, SessionRuns, SessionTheorems, TokenAuthenticator, LockedClient |
| signed requests and limits | ReplayGuard, SignedRequests, RateLimiter, AbuseGuard, PortalGate |
| dashboard editor | GridPlacement, DashboardEditor, EditorRuns |
| tunnel requests | HttpRequest, HttpRoundTrip |
| exposure patterns | Glob, Exposure |
| object tree | Sorting, ObjectTree, ObjectTreeTheorems |
| shared | Common |

What the proofs showed about the code:

- The comment at src/main.ts:87-89 asks the nonce lifetime only to reach the clock skew and calls the rest
  margin. A timestamp may lie a whole skew in the future, so the lifetime has to reach twice the skew, and
  the shipped ten minutes are exactly that: a request whose skew check and nonce check read different
  milliseconds is already outside the proof, and a replay of it is admitted in the model.
- A command posted again after its nonce expired, while the first call still waits for the object, is
  written twice and starts its record anew. All statements about records therefore carry the hypothesis
  `Safe`: no call waits that long, or the limiter lets one call through a window and none waits for one.
  That is exactly when a command id causes one write (CommandTheorems.OneWriteIff).
- The fixed-window limiter admits one call less than (k + 1) * limit in k windows; a limit below 1 admits
  one call a window. The portal gate compares at most max(M, 2M - 2) wrong keys in a window.
- An executed command can stay executed for ever: exactly when another command to the same state has
  taken its place, or the announcement before the confirmation wait failed (CommandEndings). Two runs
  reach these ends.
- The gateway handles the messages of a connection, and of several, interleaved at their awaits. A subscribe
  that waits for the adapter can lose the set it has made, or come back for a connection that has closed, and
  an unsubscribe can overtake the subscribe before it. Index and maps, or client and server, then disagree
  for good with nothing pending. GatewayOrder and RealtimeAgreement give the exact conditions, GatewayRaces
  and RealtimeRaces the runs.
- A retry that has timed out and is confirmed by the recheck is shown as confirmed under an id the user never
  saw, and under the user's own as timed out.
- A refresh token accepted by the server whose reply is lost makes the client's next refresh reuse, which
  revokes the session. A 5xx sent after the rotation, when writing the audit entry fails, counts as a loss.
- AuthRepositoryImpl.refresh, which openSocket calls, does not take the authenticator's lock. It and
  authenticate() can have one token under way at once, and then the second trips reuse detection without
  any loss; LockedClient.PresentedTwiceIff says exactly when.
- A question mark in an exposure pattern is not escaped. It makes the preceding character optional, or the
  expression invalid, and one invalid pattern makes rule matching throw for every state that is not blocked.
- A request with exactly 200 header lines leaves its blank line in the stream, where it becomes the body or
  the next request.
- A declared length above 20 MiB is read as 20 MiB and one above 32 bits as none; the rest of such a body
  stays in the stream.
- Two layouts of one size class in a dashboard can break the editor's no-overlap promise, since the slot is
  searched in the first and the widget added to both: exactly when it does not fit the second.
- A path that starts with an empty segment gets no leading dot in its folder id, so it shares the id with
  the path without that segment.

Assumptions: a command id is posted by one device under one nonce, random ids and tokens are new when
they are drawn, SHA-256 is injective on issued tokens, a verified signature is a field of the request, a
store's put takes effect before its first await (src/lib/store.ts:81-85), and the clock never goes back.

## Model

| member | source | states |
|---|---|---|
| `CommandTheorems.OneWriteIff` | src/commands/index.ts:119-216 | over every interleaving at awaits and every duplicated delivery, for every limit and lifetime, a command id causes at most one write if and only if no call is suspended before its first put for longer than a nonce lives, or the limit is at most one and none is suspended for a whole limiter window |
| `CommandTheorems.OneWritePerCommand` | src/commands/index.ts:119-216 | no two writes in any run carry the same command id |
| `CommandTheorems.LateDuplicateWritesTwice` | src/commands/index.ts:142-190 | whenever that condition fails some run writes twice: a copy delivered once neither the nonce nor the limiter stops it, while the first call still waits for the object |
| `CommandTheorems.WritesAreAuthorized` | src/commands/index.ts:53-190 | every write ever issued has the value and state of a request not blocked, local and confirmed where it had to be, and its value is a scalar of the state's type, no less than the minimum, no more than the maximum, on a step and among the allowed values |
| `CommandChecks.WrittenIff` | src/commands/index.ts:119-190 | in any state a delivered request causes a write of its value, to the state resolved for it, with a record of what was asked, if and only if its id is new, the limiter admits its device, its nonce is free, the policy is met and the value has all those properties |
| `CommandChecks.AnswersMean` | src/commands/index.ts:119-157 | which answer a request gets: the first reason against it in the order of the code, or leave to go on |
| `CommandChecks.AnswersCost` | src/commands/index.ts:119-133 | what it costs: a known id or a call over the limit nothing, any other one of the limit and its nonce |
| `CommandTheorems.RecordsSayWhatWasAsked` | src/commands/index.ts:167-178 | in every run a stored record names the object, device, state and value of the request that stored it |
| `CommandTheorems.WriteDecides` | src/commands/index.ts:189-208 | the record becomes executed if the write succeeded and rejected if it failed |
| `CommandTheorems.ChangeDecides` | src/commands/index.ts:234-255 | an acknowledged change to its value confirms the waiting command and ends its wait and timer, any other change leaves the service as it is |
| `CommandTheorems.EmittedIsHistory` | src/commands/index.ts:167-351 | the statuses stored for a command are one of six lifecycles, and its commandResult events are that history from executed or rejected onward, short of at most the last, exactly while that announcement is outstanding or was lost |
| `CommandTheorems.StatusesOnlyMoveForward` | src/commands/index.ts:167-351 | no step forgets a record or moves its status except accepted to executed or rejected, executed to confirmed or timeout, timeout to confirmed |
| `CommandTheorems.ConfirmedWasObserved` | src/commands/index.ts:234-351 | a confirmed command that never timed out was confirmed by an acknowledged change of its own state to the commanded value after it was executed, one that timed out by reading that value from its state afterwards |
| `CommandTheorems.PendingOwnsItsTimer` | src/commands/index.ts:271-293 | in every reachable state each pending entry names an executed command of that state and owns a live timer set for it, and each live timer is owned by one pending entry |
| `CommandTimers.TimerFiresForItsCommand` | src/commands/index.ts:286-293 | a timer that looks its command up by state finds the command it was set for |
| `CommandTimes.TimesOutAfter25Seconds` | src/commands/index.ts:285-305 | in every run a command is stored as timed out no earlier than 25 000 ms after the step at which it started to wait |
| `CommandTimes.TimesOutFrom25Seconds` | src/commands/index.ts:285-305 | while it waits its timer can fire exactly from that moment on, and then it is stored as timed out |
| `CommandTimes.StartsOnce` | src/commands/index.ts:271-290 | there is one such step at most for each command |
| `CommandTimes.RereadAfter20Seconds` | src/commands/index.ts:315-337 | its state is read again no earlier than 20 000 ms after the step that announced its timeout |
| `CommandTimes.RecheckFrom20Seconds` | src/commands/index.ts:322-335 | an armed recheck can begin exactly from that moment on |
| `CommandTimes.RecheckDecides` | src/commands/index.ts:329-341 | the recheck confirms the command if the value read is the commanded one and leaves it timed out otherwise |
| `CommandEndings.StaysExecutedIff` | src/commands/index.ts:207-351 | an executed command stays executed in every continuation of the run if and only if a later command has taken over its confirmation wait or its announcement was lost; every other one can still be confirmed |
| `CommandEndings.SupersededIsReached` | src/commands/index.ts:271-291 | the run of two commands to one state in which the first stays executed for good |
| `CommandEndings.AnnouncementLostIsReached` | src/commands/index.ts:207-215 | the run of one command whose announcement fails and which stays executed for good |
| `CommandTheorems.ExecutedIsInOnePlace` | src/commands/index.ts:207-290 | an executed command is in exactly one place: being announced, being registered, on the pending table, superseded, or left behind by a failed announcement |
| `Commands.StepMeansOnGrid` | src/commands/index.ts:53-96 | the rounding test of validateValue accepts exactly the values within the tolerance of a whole number of steps above the minimum |
| `Commands.CommandsService.BeginExecute` | src/commands/index.ts:119-159 | the stretch up to reading the object: known id, rate limit, nonce, access and the policy checks in the order of the code, with the new service state |
| `Commands.CommandsService.SaveAccepted` | src/commands/index.ts:161-179 | an invalid value stores nothing; a valid one stores the accepted record |
| `Commands.CommandsService.ValidateValue` | src/commands/index.ts:53-96 | answers true exactly for a scalar of the expected type, in range, on the step grid and among the allowed values |
| `Commands.CommandsService.FinishWrite` | src/commands/index.ts:189-208 | the record becomes executed or rejected and nothing else changes |
| `Commands.CommandsService.AwaitConfirmation` | src/commands/index.ts:271-291 | the earlier wait for the state and its timer are replaced by the new one |
| `Commands.CommandsService.HandleForeignStateChange` | src/commands/index.ts:234-255 | an acknowledged matching value confirms the waiting command and ends its wait and timer; anything else changes nothing |
| `Commands.CommandsService.TimeoutCommand` | src/commands/index.ts:293-305 | the firing timer takes whatever waits on its state and times it out if it is still executed |
| `Commands.CommandsService.BeginRecheck` | src/commands/index.ts:329-335 | a recheck goes on only for a command still timed out |
| `Commands.CommandsService.FinishRecheck` | src/commands/index.ts:336-341 | a matching value read late confirms the record captured before the read |
| `CommandWorld.AtMostTwoWritesPerAction` | android-app/app/src/main/java/com/mobilecontrol/app/data/repository/CommandRepositoryImpl.kt:71-139 | app and server together, with lost, repeated and delayed posts and arbitrary replies: one user action never causes more than two writes |
| `CommandWorld.AtMostTwoIds` | android-app/app/src/main/java/com/mobilecontrol/app/data/repository/CommandRepositoryImpl.kt:71-139 | an action is ever posted under at most two command ids |
| `CommandWorld.WritesCarryTheAction` | android-app/app/src/main/java/com/mobilecontrol/app/data/repository/CommandRepositoryImpl.kt:71-106 | each of those writes carries the value the user asked for, to a state that the catalog answered for the object the user asked for when a copy was delivered |
| `CommandWorld.ResultsStayWithTheirAction` | android-app/app/src/main/java/com/mobilecontrol/app/data/repository/CommandRepositoryImpl.kt:52-69 | a result is shown under its own id or the public id of its own action: under the public id if and only if that is its own, or it is a retry's whose post has not failed and which has had no terminal result yet |
| `CommandWorld.LateResultIsShownApart` | android-app/app/src/main/java/com/mobilecontrol/app/data/repository/CommandRepositoryImpl.kt:52-69 | the run in which a retry times out and is then confirmed: the confirmation is shown under the retry's own id, the action itself still as timed out |
| `CommandWorld.CopiesHaveOneNonce` | android-app/app/src/main/java/com/mobilecontrol/app/data/repository/CommandRepositoryImpl.kt:71-106 | whatever copy of a post of the app arrives, the calls already admitted under its id have the same device and nonce |
| `CommandShown.ShownIsLastTold` | android-app/app/src/main/java/com/mobilecontrol/app/data/repository/CommandRepositoryImpl.kt:52-137 | over every run an action is shown with what was last told about it: accepted when sent, blocked after a local-only failure of its first post, rejected after any other failure of it, timed out after a failed post of the retry or a second watch ending unresolved, and else the status of a result that arrived for it or for its open retry |
| `CommandShown.ConfirmedWasReported` | android-app/app/src/main/java/com/mobilecontrol/app/data/repository/CommandRepositoryImpl.kt:52-60 | nobody is shown confirmed unless a confirmed result arrived while it was about that action |
| `CommandShown.WatchEndsAfter30Seconds` | android-app/app/src/main/java/com/mobilecontrol/app/data/repository/CommandRepositoryImpl.kt:116-138 | a watch ends no earlier than 30 000 ms after the post it watches was answered, and can from then on; the first one ends in a retry exactly if nothing has resolved the action, the second one in a timeout exactly if nothing has |
| `CommandRepositories.CommandRepository.BeginSend` | android-app/app/src/main/java/com/mobilecontrol/app/data/repository/CommandRepositoryImpl.kt:71-75 | shows the new command as accepted |
| `CommandRepositories.CommandRepository.FirstPostFailed` | android-app/app/src/main/java/com/mobilecontrol/app/data/repository/CommandRepositoryImpl.kt:76-90 | shows the failure of the first post, local-only or not, under the public id |
| `CommandRepositories.CommandRepository.WatchElapsed` | android-app/app/src/main/java/com/mobilecontrol/app/data/repository/CommandRepositoryImpl.kt:116-131 | retries once if the command is still unresolved, gives it up the second time |
| `CommandRepositories.CommandRepository.RetryPostFailed` | android-app/app/src/main/java/com/mobilecontrol/app/data/repository/CommandRepositoryImpl.kt:132-137 | forgets the mapping and shows a timeout |
| `CommandRepositories.CommandRepository.OnCommandResult` | android-app/app/src/main/java/com/mobilecontrol/app/data/repository/CommandRepositoryImpl.kt:52-69 | maps a server id back to its public id and forgets the mapping at a terminal status |
| `SignedRequests.AdmittedAtMostOnceIff` | src/security/requestSignature.ts:39-46 | with at most a given delay between skew check and nonce check, no signed message is admitted twice in any run if and only if the nonce lifetime is at least twice the skew plus that delay |
| `SignedRequests.ShippedLifetimeIsExact` | src/main.ts:87-90 | with the shipped 10 and 5 minutes this holds for delay 0 and for no other |
| `SignedRequests.GateIsScanOfHistory` | src/api/middleware.ts:134-155 | skew check and evicting table together answer every request as a scan of all earlier ones would: invalid unless the signature is good and the timestamp within the skew, a replay if an earlier admission of that device and nonce is within its lifetime, else admitted |
| `SignedRequests.ForgeryIsInvisible` | src/api/middleware.ts:150-155 | a request whose signature does not verify, put anywhere into a run, changes no later answer |
| `SignedRequests.Admit` | src/api/middleware.ts:134-156 | the nonce is consumed only after the signature verified |
| `ReplayGuards.GuardIsScanOfHistory` | src/security/replayGuard.ts:12-28 | a key is fresh exactly when no earlier fresh call with it is within its lifetime |
| `ReplayGuards.ReplayGuard.CheckAndRemember` | src/security/replayGuard.ts:12-19 | evicts, then answers and remembers a new key |
| `ReplayGuards.ReplayGuard.EvictExpired` | src/security/replayGuard.ts:21-28 | keeps exactly the entries that have not expired |
| `RateLimiters.AcceptedBound` | src/security/rateLimiter.ts:14-26 | in every run, any half-open interval of k minutes holds at most (k + 1) * limit - 1 accepted calls of a key, a limit below 1 counting as 1 |
| `RateLimiters.BoundIsAttained` | src/security/rateLimiter.ts:14-26 | for every limit and k some run reaches that number |
| `RateLimiters.KeysAreIndependent` | src/security/rateLimiter.ts:14-26 | calls with other keys change no answer |
| `RateLimiters.RateLimiter.TryConsume` | src/security/rateLimiter.ts:14-26 | opens a new window or counts in the present one |
| `PortalGates.BruteForceBound` | src/api/portalGate.ts:40-68 | without the right key, an address has at most max(M, 2M - 2) keys compared in any interval no longer than the window and the block, whatever other addresses do |
| `PortalGates.BruteForceBoundIsAttained` | src/api/portalGate.ts:40-68 | some run over one window reaches it |
| `PortalGates.BlockIsFullLength` | src/api/portalGate.ts:46-49 | from the request that starts a block on, every non-exempt request of that address is refused unread until the whole block has passed |
| `PortalGates.GateAnswers` | src/api/portalGate.ts:40-68 | every answer told from the run: an exempt request passes, one of an address with a block still on is refused unread, and any other passes with the right key and is refused with a wrong one |
| `PortalGates.RightKeyClears` | src/api/portalGate.ts:52-56 | after the right key the address stands as one never heard of |
| `PortalGates.OnlyWrongKeysAreKept` | src/api/portalGate.ts:58-64 | an address is in the table for wrong keys only, with the window begun by one of them |
| `PortalGates.SnapshotTellsTheTruth` | src/security/abuseGuard.ts:94-114 | the admin list shows an address as blocked exactly if the gate would refuse it unread at that moment |
| `PortalGates.StaleMeansOver` | src/security/abuseGuard.ts:94-103 | the admin list leaves out exactly the addresses that are neither blocked nor have failures counting |
| `PortalGates.FailureIsCounted` | src/security/abuseGuard.ts:55-73 | a failure counts in the running window or opens one, starts a block exactly when it reaches the maximum, never moves a deadline that is set, and keeps the last reason given |
| `PortalGates.AddressesAreIndependent` | src/api/portalGate.ts:40-68 | the place of an address in the table depends on its own requests and on snapshots only |
| `PortalGates.SnapshotIsInvisible` | src/security/abuseGuard.ts:94-114 | pruning for the admin view changes no answer of the gate |
| `PortalGates.PortalGate` | src/api/portalGate.ts:40-68 | one request through the gate: answer and new table |
| `AbuseGuards.AbuseGuard.IsBlocked` | src/security/abuseGuard.ts:39-49 | answers whether a block is running and forgets one that has run out |
| `AbuseGuards.AbuseGuard.RecordFailure` | src/security/abuseGuard.ts:55-73 | counts in the present window or a new one and tells whether a block starts |
| `AbuseGuards.AbuseGuard.RecordSuccess` | src/security/abuseGuard.ts:76-78 | forgets the address |
| `AbuseGuards.AbuseGuard.GetFailureCount` | src/security/abuseGuard.ts:82-88 | counts the failures of the present window |
| `AbuseGuards.AbuseGuard.Snapshot` | src/security/abuseGuard.ts:94-114 | drops exactly the stale entries and lists the others, the most failures first |
| `SessionTheorems.RefreshFollowsTheChain` | src/sessions/index.ts:73-129 | in every reachable state the refresh route answers by the presented token's place in its session's chain: the last is accepted, the one before it is reuse, older ones match nothing, for an unrevoked and unexpired session of that device |
| `SessionTheorems.AcceptedAtMostOnce` | src/sessions/index.ts:88-129 | no token is accepted twice in any run, with revoke loops interrupted anywhere |
| `SessionTheorems.GenerationCountsRotations` | src/sessions/index.ts:109-120 | the generation of an unrevoked session is the number of its accepted rotations |
| `SessionTheorems.ReuseRevokesThatSession` | src/sessions/index.ts:102-114 | reuse revokes the session of the token, at once, and changes nothing else |
| `SessionTheorems.RevokedForever` | src/sessions/index.ts:131-177 | a revoked session stays revoked and is never rotated again, even when an interrupted loop puts an old copy back |
| `SessionTheorems.FinishedSweepRevokedItsScope` | src/sessions/index.ts:155-177 | when a revoke loop has run to its end, however often it was interrupted, every session that was in its scope when it began is revoked, also those rotated or touched meanwhile |
| `SessionTheorems.UserIsRevoked` | src/sessions/index.ts:161-165 | when the loop for a user has run to its end, interrupted or not, every session that had that userId when it began is revoked |
| `SessionTheorems.DeviceIsRevoked` | src/sessions/index.ts:167-171 | the same for a deviceId |
| `SessionTheorems.FamilyIsRevoked` | src/sessions/index.ts:155-159 | the same for a tokenFamily |
| `SessionTheorems.EveryoneIsRevoked` | src/sessions/index.ts:173-177 | the same for all sessions |
| `SessionTheorems.SweepSparesOthers` | src/sessions/index.ts:155-177 | none of the puts of an interrupted loop touches a session with another userId, deviceId or tokenFamily |
| `SessionTheorems.SessionSaysItsLogin` | src/sessions/index.ts:50-70 | whatever happens to it, a session keeps the user, device, role, family, user agent and creation time of its login, and expires the asked number of days after it |
| `SessionTheorems.ExpiresAfterItsDays` | src/sessions/index.ts:95-101 | a refresh of an unrevoked session is answered as expired exactly after those days |
| `SessionTheorems.ActivityIsLastUse` | src/sessions/index.ts:109-137 | an unrevoked session holds the time of its last login, accepted refresh or touch and the address last given, whatever loops have put back |
| `Sessions.SessionsService.Create` | src/sessions/index.ts:50-70 | stores the session of the parameters, with the hash of the first token, generation 0 and the days to live |
| `Sessions.SessionsService.FindByRefreshToken` | src/sessions/index.ts:73-81 | finds an unrevoked session of the device holding the token as current or previous, or there is none |
| `Sessions.SessionsService.Rotate` | src/sessions/index.ts:88-129 | all six outcomes and what each does to the store |
| `Sessions.SessionsService.Touch` | src/sessions/index.ts:131-137 | updates activity and address only |
| `Sessions.SessionsService.Revoke` | src/sessions/index.ts:147-153 | marks one session revoked |
| `Sessions.SessionsService.RevokeAllIn` | src/sessions/index.ts:155-177 | an uninterrupted loop revokes exactly the sessions in scope |
| `Sessions.SessionsService.RevokeFamily` | src/sessions/index.ts:155-159 | uninterrupted, exactly the sessions with that tokenFamily are revoked and all others left as they were |
| `Sessions.SessionsService.RevokeAllForUser` | src/sessions/index.ts:161-165 | the same for a userId |
| `Sessions.SessionsService.RevokeAllForDevice` | src/sessions/index.ts:167-171 | the same for a deviceId |
| `Sessions.SessionsService.RevokeAll` | src/sessions/index.ts:173-177 | all sessions are revoked |
| `LockedClient.PresentedTwiceIff` | android-app/app/src/main/java/com/mobilecontrol/app/data/repository/AuthRepositoryImpl.kt:126-137 | over every run with refreshes in and outside the lock, a refresh presents an already redeemed token if and only if an earlier accepted one presented it and this one read its token before the answer to that one was stored |
| `LockedClient.ReuseIff` | android-app/app/src/main/java/com/mobilecontrol/app/data/remote/TokenAuthenticator.kt:73-138 | a refresh of the app is judged reuse if and only if its token was redeemed, the token issued for it was not, and the session is neither revoked nor expired |
| `LockedClient.OverlapTripsReuse` | android-app/app/src/main/java/com/mobilecontrol/app/data/repository/AuthRepositoryImpl.kt:126-137 | of two refreshes under way with one token the second to arrive is judged reuse and revokes the session the first has just rotated |
| `LockedClient.OverlapIsReached` | android-app/app/src/main/java/com/mobilecontrol/app/data/repository/AuthRepositoryImpl.kt:126-137 | a run in which refresh() and authenticate() overlap in this way, with no reply lost |
| `LockedClient.ReuseIffReplyLost` | android-app/app/src/main/java/com/mobilecontrol/app/data/remote/TokenAuthenticator.kt:73-138 | while refresh() is not called outside the lock: authenticate() presents a redeemed token if and only if the reply to an accepted refresh of that token was lost before, whatever the loss looked like and whatever happened since, and that is judged reuse if and only if the session is neither revoked nor expired |
| `LockedClient.NeverTripsReuse` | android-app/app/src/main/java/com/mobilecontrol/app/data/remote/TokenAuthenticator.kt:73-138 | if moreover every accepted refresh gets its reply, no refresh authenticate() sends, over any number of threads, logins, logouts and server events, presents a redeemed token or is judged reuse |
| `LockedClient.StoredTokenIsCurrent` | android-app/app/src/main/java/com/mobilecontrol/app/data/remote/TokenAuthenticator.kt:82-138 | under the same two hypotheses the stored refresh token is the last of its session whenever the lock is free |
| `LockedClient.LostReplyTripsReuse` | android-app/app/src/main/java/com/mobilecontrol/app/data/remote/TokenAuthenticator.kt:91-138 | after a lost reply, whether it looked inconclusive or like a rejection followed by an inconclusive login, the very next refresh is reuse and revokes the session |
| `LockedClient.LossIsReached` | android-app/app/src/main/java/com/mobilecontrol/app/data/remote/TokenAuthenticator.kt:91-138 | a run under the lock alone that gets there, for every way the loss can look |
| `LockedClient.TokensChangeOnlyWhen` | android-app/app/src/main/java/com/mobilecontrol/app/data/remote/TokenAuthenticator.kt:93-133 | the stored tokens change only to those of a granted answer, and are lost only by a logout or by a login rejected with one of the eight codes that reject for good |
| `LockedClient.LockGoesOn` | android-app/app/src/main/java/com/mobilecontrol/app/data/remote/TokenAuthenticator.kt:73-133 | a 401 leads to a refresh, a refresh to a login, and everything else to a free lock, each exactly under the conditions of the code |
| `LockedClient.FirstAttemptsGoOn` | android-app/app/src/main/java/com/mobilecontrol/app/data/remote/TokenAuthenticator.kt:73-91 | only the first attempt of a request is helped: with the stored access token if that differs from the refused one, else by a refresh if there is a token for it |
| `LockedClient.RepliesDecide` | android-app/app/src/main/java/com/mobilecontrol/app/data/remote/TokenAuthenticator.kt:93-133 | the request is retried with granted tokens and the user told of a revocation exactly if the login was rejected for good |
| `TokenAuthenticators.TokenAuthenticator.Authenticate` | android-app/app/src/main/java/com/mobilecontrol/app/data/remote/TokenAuthenticator.kt:73-91 | gives up on the second attempt or without a device, retries with a token that changed meanwhile, else calls refresh |
| `TokenAuthenticators.TokenAuthenticator.TakeRefreshReply` | android-app/app/src/main/java/com/mobilecontrol/app/data/remote/TokenAuthenticator.kt:93-120 | saves granted tokens; only a definite rejection goes on to log in |
| `TokenAuthenticators.TokenAuthenticator.TakeLoginReply` | android-app/app/src/main/java/com/mobilecontrol/app/data/remote/TokenAuthenticator.kt:125-163 | saves granted tokens; only a definite rejection wipes the stored ones |
| `TokenAuthenticators.TokenAuthenticator.ResponseCount` | android-app/app/src/main/java/com/mobilecontrol/app/data/remote/TokenAuthenticator.kt:165-173 | counts the attempts behind a response |
| `RealtimeAgreement.SubscriptionsAgreeIff` | android-app/app/src/main/java/com/mobilecontrol/app/data/remote/RealtimeWebSocketClient.kt:108-122 | over every run, with reconnects, dropped early subscribes, late and repeated auth_ok messages and handlers suspended or failing at their awaits: doing all that is suspended or in flight would at every moment bring the server's side of the current socket to what the client wants, if and only if no stretch deals with an id on which an earlier suspended message has still to do the opposite and which nothing later names, and no failing handler leaves such an id undone |
| `RealtimeAgreement.SubscriptionsAgree` | android-app/app/src/main/java/com/mobilecontrol/app/data/remote/RealtimeWebSocketClient.kt:257-265 | in such a run, once auth_ok was seen on the current socket, what is still to come brings the server's subscriptions to exactly the wanted ids that may be read |
| `RealtimeDelivery.OneAtATimeAgrees` | src/realtime/index.ts:95-137 | a gateway that took no message of a connection before the handler of the one before has ended would satisfy that condition |
| `RealtimeRaces.UnsubscribeIsOvertaken` | src/realtime/index.ts:197-248 | the gateway does not: the run in which an unsubscribe is handled while the subscribe before it waits, so that the client is sent a state it no longer wants |
| `RealtimeRaces.OvertakingIsHarmless` | src/realtime/index.ts:197-248 | one message at a time is enough and not needed: a reachable case in which the overtaken id is named again |
| `RealtimeDelivery.QuietClientHearsWhatItWants` | android-app/app/src/main/java/com/mobilecontrol/app/data/remote/RealtimeWebSocketClient.kt:257-265 | if moreover every gateway step fits (see IndexStaysInOrderIff), with nothing in flight or suspended the client is sent the changes of exactly the states it wants and may read |
| `GatewayOrder.IndexStaysInOrderIff` | src/realtime/index.ts:197-261 | over every run of handlers cut at their awaits, failing there and going on after their connection has closed: wherever no subscribe waits at its first await the index lists a connection under a state exactly if it is registered and subscribed, and its only empty sets are those such subscribes have made, if and only if each subscribe that comes back from its first await or fails there finds itself in, or about to enter, the set of its state exactly if its connection is still registered and subscribed, and none enters a set for a cleaned-up connection |
| `GatewayOrder.IndexIsInverse` | src/realtime/index.ts:197-261 | in every run whose steps fit in this sense the index is the exact inverse of the maps of registered connections, except where a subscribe waits, and has no empty set of a state nobody waits for |
| `GatewayOrder.FindingAllKeepsOrder` | src/realtime/index.ts:212-220 | it is enough that each subscribe that comes back finds its set in the index, its id in the map and its connection registered, that none fails there and that none starts for a cleaned-up connection |
| `GatewayRaces.OwnUnsubscribeIsHarmless` | src/realtime/index.ts:212-248 | and it is not needed: a run in order throughout in which a subscribe finds neither its set nor its id |
| `GatewayRaces.SetDroppedWhileWaiting` | src/realtime/index.ts:214-257 | the run of two connections after which one is subscribed for good to a state the index does not know, with nothing pending |
| `GatewayRaces.ClosedWhileWaiting` | src/realtime/index.ts:216-220 | the run in which a closed connection enters a set and stays in it whatever follows |
| `GatewayRaces.ClosedGoesOn` | src/realtime/index.ts:222 | the same at the second await: a subscribe of a closed connection that goes on to a state of the index enters its set |
| `GatewayRaces.FailedAtFirstAwait` | src/realtime/index.ts:216-220 | the run in which the adapter refuses and an empty set stays in the index |
| `GatewayOrder.PublishedIsScan` | src/realtime/index.ts:263-285 | in every run whose steps fit, whatever publishStateChange sends a connection from the index is exactly what a scan of all registered connections would send it, one update each, unless one of its subscribes waits to enter |
| `GatewayOrder.PublishIsScan` | src/realtime/index.ts:263-285 | under the same conditions the index reaches a connection exactly if a scan would, under one public id |
| `GatewayOrder.DroppedIsGivenBack` | src/realtime/index.ts:241-258 | an unsubscribe passes over what is not subscribed, and waits for the adapter exactly if it has just dropped the state's set |
| `GatewayOrder.CleanupTwice` | src/realtime/index.ts:358-365 | cleaning up again at once changes nothing, in any state |
| `Realtime.RealtimeGateway.HandleMessage` | src/realtime/index.ts:111-137 | before authentication nothing is heard; after it a message runs to its first await, with its effect on the connection's map and the index and what the suspended handler holds |
| `Realtime.RealtimeGateway.SubscribeTo` | src/realtime/index.ts:201-222 | from some id on, ids that may not be read are passed over, the next one enters the map and its state's set, or a new empty set if there is none, and the handler waits |
| `Realtime.RealtimeGateway.SubscribedUpstream` | src/realtime/index.ts:218-220 | the connection enters the set made before the await, wherever that set is now |
| `Realtime.RealtimeGateway.ValueRead` | src/realtime/index.ts:222-233 | the value is sent if there is one and the socket is open, and the loop goes on |
| `RealtimeReads.SubscribeReadsItsList` | src/realtime/index.ts:201-233 | a subscribe drained to its end, whatever happens to map and index between its stretches, reads exactly the readable ids of its list, in order and each as often as listed, and with values found and the socket open sends exactly those updates |
| `Realtime.RealtimeGateway.UnsubscribeOf` | src/realtime/index.ts:236-248 | from some id on, the next subscribed one leaves the map and the index, and the handler waits |
| `Realtime.RealtimeGateway.ReleaseSubscription` | src/realtime/index.ts:250-260 | a set that becomes empty is dropped, its state given back upstream, and the answer tells so |
| `Realtime.RealtimeGateway.CleanupConnection` | src/realtime/index.ts:358-365 | the connection leaves the registry and every set of its map |
| `Realtime.RealtimeGateway.PublishStateChange` | src/realtime/index.ts:263-285 | exactly the open subscribers with a subscription of their own are sent one update each |
| `Realtime.RealtimeGateway.HandleConnection` | src/realtime/index.ts:73-82 | a new connection starts unauthenticated and without subscriptions |
| `RealtimeClient.RealtimeWebSocketClient.Subscribe` | android-app/app/src/main/java/com/mobilecontrol/app/data/remote/RealtimeWebSocketClient.kt:108-112 | adds to the wanted set and sends, if a socket is open |
| `RealtimeClient.RealtimeWebSocketClient.Unsubscribe` | android-app/app/src/main/java/com/mobilecontrol/app/data/remote/RealtimeWebSocketClient.kt:114-118 | removes from the wanted set and sends, if a socket is open |
| `RealtimeClient.RealtimeWebSocketClient.OnAuthenticated` | android-app/app/src/main/java/com/mobilecontrol/app/data/remote/RealtimeWebSocketClient.kt:257-265 | replays the whole wanted set on the present socket |
| `GridPlacement.FindFreeSlot` | android-app/app/src/main/java/com/mobilecontrol/app/ui/dashboards/GridPlacement.kt:22-32 | returns the first free cell of the scan; with no widget ending above row 0 it is the row-major first free cell of the unbounded grid, no lower than the last bottom edge |
| `GridPlacement.ScanFindsFirstFree` | android-app/app/src/main/java/com/mobilecontrol/app/ui/dashboards/GridPlacement.kt:22-32 | the fallback at the end of the scan is unreachable for such layouts |
| `GridPlacement.ScanRows` | android-app/app/src/main/java/com/mobilecontrol/app/ui/dashboards/GridPlacement.kt:25-31 | the nested loops: the least free cell, or the fallback only when none is free |
| `GridPlacement.OverlapIsSharedCell` | android-app/app/src/main/java/com/mobilecontrol/app/ui/dashboards/GridPlacement.kt:15-16 | two rectangles overlap exactly when they have a cell in common, in either order |
| `EditorRuns.AddKeepsIff` | android-app/app/src/main/java/com/mobilecontrol/app/ui/dashboards/DashboardEditorViewModel.kt:118-142 | for every dashboard in order, an addition keeps it in order if and only if, in each layout of the size class, the slot found in the first is free and inside the columns and the id is unused |
| `EditorRuns.GridStaysInOrderIff` | android-app/app/src/main/java/com/mobilecontrol/app/ui/dashboards/DashboardEditorViewModel.kt:118-272 | over every run of adding, removing, moving, new grid sizes, undoing, redoing, loading and resetting, with whatever size classes repeat, all dashboards, in the history too, stay free of overlaps, inside the columns and with unique ids if and only if each added widget fitted every layout it went to and each new number of columns held all widgets of the layouts that got it |
| `EditorRuns.GridStaysDisjoint` | android-app/app/src/main/java/com/mobilecontrol/app/ui/dashboards/DashboardEditorViewModel.kt:118-169 | so when the dashboards brought in have distinct size classes, every such run without a new grid size keeps all dashboards in order |
| `EditorRuns.MoveLandsNearest` | android-app/app/src/main/java/com/mobilecontrol/app/ui/dashboards/DashboardEditorViewModel.kt:158-169 | a move puts the widget on the in-grid cell nearest to the drop and nothing else changes, or changes nothing when that rectangle meets another widget |
| `EditorRuns.DropHintIsRight` | android-app/app/src/main/java/com/mobilecontrol/app/ui/dashboards/DashboardEditorScreen.kt:384-397 | in every session that stays in order, the warning shown during a drag appears exactly when moveWidgetTo would refuse the drop |
| `EditorRuns.ResizeKeepsIff` | android-app/app/src/main/java/com/mobilecontrol/app/ui/dashboards/DashboardEditorViewModel.kt:184-213 | the unchecked resize keeps a layout in order exactly when the new rectangle fits and meets no other widget |
| `EditorRuns.ResizeChangesOne` | android-app/app/src/main/java/com/mobilecontrol/app/ui/dashboards/DashboardEditorViewModel.kt:184-213 | the edit dialog changes title, settings and size of the one widget, the size to the nearest allowed, and nothing else |
| `EditorRuns.RegridTakesNearest` | android-app/app/src/main/java/com/mobilecontrol/app/ui/dashboards/DashboardEditorViewModel.kt:223-230 | the grid dialog sets the nearest allowed number of columns, 6 to 24, and row height, 40 to 140, and nothing else |
| `EditorRuns.RemoveTakesOne` | android-app/app/src/main/java/com/mobilecontrol/app/ui/dashboards/DashboardEditorViewModel.kt:144-146 | after a removal the widget is gone and every other one is there |
| `EditorRuns.LayoutForIsFirst` | android-app/app/src/main/java/com/mobilecontrol/app/domain/model/Dashboard.kt:13-20 | the layout searched for a size class is the first one made for it, else the first of all, else a fresh one of twelve columns |
| `EditorRuns.LoadWidens` | android-app/app/src/main/java/com/mobilecontrol/app/ui/dashboards/DashboardEditorViewModel.kt:356-361 | a loaded layout has at least six columns and is else what was stored, in order if it was |
| `EditorRuns.TwinLayoutsOverlap` | android-app/app/src/main/java/com/mobilecontrol/app/ui/dashboards/DashboardEditorViewModel.kt:118-140 | a case in which it does not fit: two layouts of one class, the second with a widget where the first is empty |
| `EditorRuns.WithoutIsSubsequence` | android-app/app/src/main/java/com/mobilecontrol/app/ui/dashboards/DashboardEditorViewModel.kt:144-146 | removal keeps every other widget, in order, and nothing else |
| `EditorRuns.HistoryRefinesTimeline` | android-app/app/src/main/java/com/mobilecontrol/app/ui/dashboards/DashboardEditorViewModel.kt:232-272 | undo and redo move a cursor on one timeline; an edit forgets what lies after it and all but fifty entries before |
| `EditorRuns.UndosThenRedos` | android-app/app/src/main/java/com/mobilecontrol/app/ui/dashboards/DashboardEditorViewModel.kt:256-272 | n undos and n redos restore the whole editor state |
| `EditorRuns.FlagsAndBound` | android-app/app/src/main/java/com/mobilecontrol/app/ui/dashboards/DashboardEditorViewModel.kt:245-272 | the flags tell whether the stacks hold anything; both stacks together never exceed fifty |
| `DashboardEditor.DashboardEditorViewModel.UpdateLayout` | android-app/app/src/main/java/com/mobilecontrol/app/ui/dashboards/DashboardEditorViewModel.kt:232-243 | edits every layout of the size class, pushing history unless nothing changed |
| `DashboardEditor.DashboardEditorViewModel.PushHistory` | android-app/app/src/main/java/com/mobilecontrol/app/ui/dashboards/DashboardEditorViewModel.kt:245-249 | drops the oldest beyond fifty and empties redo |
| `DashboardEditor.DashboardEditorViewModel.AddWidget` | android-app/app/src/main/java/com/mobilecontrol/app/ui/dashboards/DashboardEditorViewModel.kt:118-142 | a 2 by 1 widget at the slot found |
| `DashboardEditor.DashboardEditorViewModel.RemoveWidget` | android-app/app/src/main/java/com/mobilecontrol/app/ui/dashboards/DashboardEditorViewModel.kt:144-146 | as an edit of the layout |
| `DashboardEditor.DashboardEditorViewModel.MoveWidgetTo` | android-app/app/src/main/java/com/mobilecontrol/app/ui/dashboards/DashboardEditorViewModel.kt:158-169 | as an edit of the layout |
| `DashboardEditor.DashboardEditorViewModel.UpdateGridSize` | android-app/app/src/main/java/com/mobilecontrol/app/ui/dashboards/DashboardEditorViewModel.kt:223-230 | as an edit of the layout, coerced to the allowed sizes |
| `DashboardEditor.DashboardEditorViewModel.Undo` | android-app/app/src/main/java/com/mobilecontrol/app/ui/dashboards/DashboardEditorViewModel.kt:256-263 | one step back, with both flags |
| `DashboardEditor.DashboardEditorViewModel.Redo` | android-app/app/src/main/java/com/mobilecontrol/app/ui/dashboards/DashboardEditorViewModel.kt:265-272 | one step forth, with both flags |
| `DashboardEditor.DashboardEditorViewModel.Reset` | android-app/app/src/main/java/com/mobilecontrol/app/ui/dashboards/DashboardEditorViewModel.kt:251-254 | a confirmed dashboard with an empty history |
| `DashboardEditor.DashboardEditorViewModel.Load` | android-app/app/src/main/java/com/mobilecontrol/app/ui/dashboards/DashboardEditorViewModel.kt:356-361 | the loaded dashboard with narrow layouts widened to six columns |
| `HttpRoundTrip.RoundTripIff` | android-app/app/src/main/java/com/mobilecontrol/app/tunnel/HttpProxyRequest.kt:55-80 | reading back a printed request whose body has its declared decimal length, whatever follows, gives it with its verb in capitals and leaves exactly what follows, if and only if it has fewer than 200 header lines and a body of at most 20 MiB |
| `HttpRoundTrip.OversizedBodyIsCut` | android-app/app/src/main/java/com/mobilecontrol/app/tunnel/HttpProxyRequest.kt:71-77 | with fewer than 200 header lines the head comes back for every size of body; of a larger body 20 MiB are read, or nothing when its length exceeds 32 bits, and the rest of it stays unread |
| `HttpRoundTrip.BlankLineLeftBehind` | android-app/app/src/main/java/com/mobilecontrol/app/tunnel/HttpProxyRequest.kt:63-69 | at 200 header lines and no length to read, the blank line and what follows it stay unread |
| `HttpRoundTrip.StopsAtTheLimit` | android-app/app/src/main/java/com/mobilecontrol/app/tunnel/HttpProxyRequest.kt:63-77 | what is read at and beyond the limit, body included |
| `HttpRoundTrip.PipelineIsFramed` | android-app/app/src/main/java/com/mobilecontrol/app/tunnel/HttpProxyRequest.kt:55-80 | requests within both limits, written back to back, are read one by one, each with its own body |
| `HttpRoundTrip.JunkLineIsSkipped` | android-app/app/src/main/java/com/mobilecontrol/app/tunnel/HttpProxyRequest.kt:66-68 | a line without a name before a colon is passed over and does not count |
| `HttpRoundTrip.ContentLengthDecides` | android-app/app/src/main/java/com/mobilecontrol/app/tunnel/HttpProxyRequest.kt:71-76 | the first Content-Length header, in any case, decides the length of the body: a decimal up to 20 MiB as it stands, a larger 32-bit number as 20 MiB, a still larger one as no body |
| `HttpRoundTrip.VerbInCapitals` | android-app/app/src/main/java/com/mobilecontrol/app/tunnel/HttpProxyRequest.kt:60 | in a verb without sharp s every small letter of ISO-8859-1 is reported as its own capital and nothing else changed |
| `HttpRoundTrip.SharpSInCapitals` | android-app/app/src/main/java/com/mobilecontrol/app/tunnel/HttpProxyRequest.kt:60 | sharp s is reported as two capitals, and the letters around it are converted by themselves |
| `HttpRoundTrip.TrimTakesOuterSpace` | android-app/app/src/main/java/com/mobilecontrol/app/tunnel/HttpProxyRequest.kt:69 | a header name or value loses the whitespace around it, however much there is, and nothing else |
| `HttpRequest.Parse` | android-app/app/src/main/java/com/mobilecontrol/app/tunnel/HttpProxyRequest.kt:55-80 | the reader leaves the stream and returns the request as computed from the bytes still to come |
| `HttpRequest.ReadHeaders` | android-app/app/src/main/java/com/mobilecontrol/app/tunnel/HttpProxyRequest.kt:63-69 | the header loop |
| `HttpRequest.ReadLine` | android-app/app/src/main/java/com/mobilecontrol/app/tunnel/HttpProxyRequest.kt:82-96 | one line without its end, or the rest of the stream, or nothing at its end |
| `HttpRequest.ReadExactly` | android-app/app/src/main/java/com/mobilecontrol/app/tunnel/HttpProxyRequest.kt:98-107 | the wanted number of bytes, or all there are, however the stream hands them out |
| `Glob.GlobKeepsMeaningIff` | src/exposure/index.ts:48-51 | the compiled expression exists and accepts exactly what the pattern means, for every id, if and only if the pattern has no question mark |
| `Glob.GlobMeansItself` | src/exposure/index.ts:48-51 | without a question mark an id is accepted exactly when replacing each star by some one-line text gives the id |
| `Glob.ParsesBack` | src/exposure/index.ts:49-50 | the two replacements write text that parses back to the pattern term by term |
| `Exposure.ChannelIsTwoPatterns` | src/exposure/index.ts:24-45 | for a target without wildcards the channel scope is the pattern of the target or of the target and ".*" |
| `Exposure.MatchingRulesAre` | src/exposure/index.ts:148-153 | an id below a blocked prefix gets none, any other exactly the rules that cover it, in order, unless some pattern of any rule is no valid expression: then the lookup throws |
| `Exposure.ScopesMean` | src/exposure/index.ts:24-45 | what each scope covers: the id itself, the target or what lies below it, what a list names or a text contains, what a pattern accepts |
| `ObjectTreeTheorems.VisibleIffExpanded` | android-app/app/src/main/java/com/mobilecontrol/app/domain/model/ObjectTreeNode.kt:86-98 | an item is visible, as often as it is listed, if and only if every folder on its path is expanded |
| `ObjectTreeTheorems.TreeConservesItems` | android-app/app/src/main/java/com/mobilecontrol/app/domain/model/ObjectTreeNode.kt:36-57 | the tree holds every item as often as the catalog |
| `ObjectTreeTheorems.TreeShows` | android-app/app/src/main/java/com/mobilecontrol/app/domain/model/ObjectTreeNode.kt:86-98 | the same from any folder down |
| `ObjectTreeTheorems.ItemsSitAtTheirPath` | android-app/app/src/main/java/com/mobilecontrol/app/domain/model/ObjectTreeNode.kt:38-48 | every node has the joined id of its path and holds only items of that very path, and siblings have different ids |
| `ObjectTreeTheorems.OneNodeAPath` | android-app/app/src/main/java/com/mobilecontrol/app/domain/model/ObjectTreeNode.kt:42-46 | so a path leads to one node at most |
| `ObjectTreeTheorems.FoldersAreNamed` | android-app/app/src/main/java/com/mobilecontrol/app/domain/model/ObjectTreeNode.kt:42-46 | every folder has the catalog's name for its id, or else the last segment of its path |
| `ObjectTreeTheorems.IdIsDotJoinedIff` | android-app/app/src/main/java/com/mobilecontrol/app/domain/model/ObjectTreeNode.kt:40-46 | a folder id is the dot-joined path if and only if the path is at most one segment or starts with a non-empty one |
| `ObjectTreeTheorems.LeadingEmptySegment` | android-app/app/src/main/java/com/mobilecontrol/app/domain/model/ObjectTreeNode.kt:40-46 | a path with an empty segment put in front has the same folder id |
| `ObjectTreeTheorems.TreeIsOrdered` | android-app/app/src/main/java/com/mobilecontrol/app/domain/model/ObjectTreeNode.kt:52-57 | folders and items are ordered by lower-cased name, equal names in order of appearance |
| `Sorting.SortedByIsStableSort` | android-app/app/src/main/java/com/mobilecontrol/app/domain/model/ObjectTreeNode.kt:52-57 | the sort rearranges, orders and is stable |
| `ObjectTreeTheorems.VisibleLeafIds` | android-app/app/src/main/java/com/mobilecontrol/app/domain/model/ObjectTreeNode.kt:86-98 | the ids in walking order |
| `ObjectTreeTheorems.Walk` | android-app/app/src/main/java/com/mobilecontrol/app/domain/model/ObjectTreeNode.kt:88-95 | one folder of the walk |
| `ObjectTree.BuildObjectTree` | android-app/app/src/main/java/com/mobilecontrol/app/domain/model/ObjectTreeNode.kt:36-50 | the trie grown on the heap freezes to the tree told from the items alone |
| `ObjectTree.AddItem` | android-app/app/src/main/java/com/mobilecontrol/app/domain/model/ObjectTreeNode.kt:39-48 | the loop over one item's path, and the item added where it ends |
| `ObjectTree.GetOrPut` | android-app/app/src/main/java/com/mobilecontrol/app/domain/model/ObjectTreeNode.kt:42-46 | a child is found, or made with the server's name for it, and linked |
| `ObjectTree.ToImmutable` | android-app/app/src/main/java/com/mobilecontrol/app/domain/model/ObjectTreeNode.kt:52-57 | freezing a node freezes what the items say of its folder |

## Left out

- Sessions.SessionsService.Rotate: the method is the uninterrupted case of the reuse branch; loops interrupted between puts are in SessionRuns, on values.
- Sessions.SessionsService.Create: its three clock readings are one.
- Realtime.RealtimeGateway.PublishStateChange: of the message only connection and public id are modelled, not value and times; the same goes for ValueRead.
- Realtime.RealtimeGateway.HandleMessage: ids that are not strings are not modelled; the code passes them over like ids that may not be read.
- LockedClient.NeverTripsReuse: holds of runs without AuthRepositoryImpl.refresh, which is among the client's steps but takes no lock; what it does to the promise is PresentedTwiceIff and ReuseIff.
- CommandRepositories.CommandRepository.OnCommandResult: each step reads and writes the map of states at once; the code's `_commandStates.value = _commandStates.value + …` is not atomic, so two steps on different threads can lose one entry.
- HttpRequest.Parse: pathAndQuery, matchesOrigin and contentType are not modelled; chunked bodies are not read by the original either.
- DashboardEditor.DashboardEditorViewModel.UpdateLayout: coordinates do not wrap at 32 bits, and the retry of a concurrent state update, which would push history twice, is left out.
- GridPlacement.FindFreeSlot: coordinates do not wrap at 32 bits.
- Glob.GlobMeansItself: strings are characters, not UTF-16 code units; the dot stands under a star only, so without question marks this makes no difference.
- ObjectTree.BuildObjectTree: of an item only id, name and path are modelled; lower-casing is a parameter.
- matchesSearch, folder names of the catalog, widget suggestion, private-address test and audit listing would only add easy members.
- Express, ws, OkHttp, Room, Compose, the admin tab, cameras, URL embeds, tunnel forwarding, JWT and signature cryptography are not part of this model.
- CRUD services, authorization priorities, alarm catch-up, watchdog and backoff timing are not part of this model; a watchdog is a socket that breaks at any moment.
- store trim and retain are not part of this model: no modelled service calls them.
