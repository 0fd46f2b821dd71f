# Verified model of the stateful services

This project models, in Dafny 4.11, the parts of the system that keep state in
memory and make promises about it over time, and proves those promises for every
input, every run and every interleaving. `dafny verify dfyconfig.toml` checks all of it.

| File | What it is about |
|---|---|
| `McpRegistry.dfy` | the guard of the MCP event stream: every section under the registry lock as a method of a class, proved against a specification of the registry |
| `McpProtocol.dfy` | the same guard as a protocol: GET handlers, watchdogs, POSTs, tool-failure closes, disables and shutdowns interleave freely |
| `McpSafety.dfy`, `McpDelivery.dfy`, `McpAccounting.dfy` | capacity, ownership, which POSTs are delivered, and what becomes of every handler, over all runs |
| `McpEntries.dfy`, `McpCauses.dfy` | exactly when entries come, change and leave and when a POST is delivered, and the cause in the history for which a session is closed |
| `McpTiming.dfy`, `McpExpiry.dfy`, `McpPunctual.dfy`, `McpLimits.dfy` | deadlines and token expiry, the bound on watchdog passes, punctual expiry and revocation, and concrete runs that show where timeliness ends |
| `FirstFrame.dfy` | the byte gate in front of the first server-sent event, over any chunking |
| `IssueTracker.dfy`, `IssueReload.dfy` | the issue tracker as a function of everything ever recorded, and of what a restart reloaded |
| `RateLimit.dfy` | the sliding-window limiters against the full admission history |
| `ApiKeyCache.dfy` | local API keys, their cache, revocation and deactivation |
| `Approval.dfy` | single-use approval tokens, and the invisibility of their sweep |
| `PortalSessions.dfy`, `PortalHistory.dfy` | portal logins, settings, revocation and rotation; the access code and the settings in force as functions of the history |
| `ConnectionManager.dfy` | the co-pilot's map of users, sessions and sockets |
| `MessageStore.dfy` | chat persistence: counters, idempotence, faults |
| `AgenticLoop.dfy` | the bounded tool-use loop and its transcript |
| `Redaction.dfy` | redaction of nested configurations |
| `Wrappers.dfy` | the option type |

Each imperative part is a class whose fields are the source's fields and whose
methods follow the source statement by statement. A method's postcondition gives
its whole result and new state by a specification function; the theorems are about
runs built from those functions. Clocks, random ids, the network, the MCP SDK, the
language model, the tools and the database engine appear as parameters that may
take any value.

Assumptions, wherever they are used: nonces, session ids and token ids are fresh;
clocks do not go back, and the wall clock runs at a fixed offset from the monotonic
one; one process; the MCP SDK hands over its messages one after another and stops
when a send raises.

## What turned out not to hold

* A POST reads the clock before it waits for the registry lock, so it can be
  enqueued at or after its session's deadline. If it waits at most `wait`, this
  happens only to a session with no more than `wait` left when the clock was read
  (`McpDelivery.DeliveriesAreTimely`), and it does happen however short `wait` is
  (`McpLimits.LateDelivery`).
* A promoted session is not always guarded by its watchdog. While its handler is
  bound it is guarded exactly as long as the watchdog has not given up waiting for the
  first frame (`McpPunctual.WatchdogIsInTime`). If watchdogs act within `lag`, a
  promotion more than a lag before the timeout is guarded, one more than a lag after
  it is not, and none comes more than two lags after it. In between the order of the
  two does not decide: the timer may fire although the promotion has run. Both
  outcomes occur at every moment these bounds allow (`McpLimits.PromotionCanBeGuarded`,
  `McpLimits.PromotionCanBeUnguarded`), without any lag at the timeout itself. The late
  detach finds no reservation, and the binding outlives its deadline and its token
  (`McpLimits.UnguardedBinding`).
* A disable that is cancelled while it waits for the registry lock has switched
  connectivity off and leaves sessions in the registry (`McpLimits.AbortedDisable`).
  While connectivity is off nothing is added to them (`McpSafety.WhileOffOnlyShrinks`)
  and no POST is delivered (`McpDelivery.DeliveriesAreSafe`).
* A handler that is cancelled again while its `finally` waits for the lock ends
  without cleaning up, and its binding stays registered past its deadline
  (`McpLimits.AbandonedBinding`). It goes at the next admission or POST decision,
  before that decision is taken, and for good (`McpAccounting.FinishedAreSweptAway`).
* The pattern of the endpoint frame allows LF CR LF at the end, but the scan for a
  blank line never finds it, so a stream of that form is never promoted
  (`FirstFrame.MixedFormNeverPromotes`); CR LF LF is.
* Reloading the issue tracker does not evict; the size bound holds afterwards
  exactly when the file names no more codes than fit (`IssueTracker.ReloadRespectsBoundIff`).
  Otherwise it holds again exactly from the first recording of a code that the file
  does not name (`IssueReload.RestartedTracker`).
* A deactivated user is accepted until the cached answer expires
  (`ApiKeyCache.DeactivationLags`); `ApiKeyCache.DisagreementIsRecentDeactivation` says
  that this is the only way in which the cache and the database differ.
* Clearing the portal's access code ends no session, and a rotation stands even if
  the update that made it is rejected afterwards (`PortalSessions.UpdateEndsSessionsIff`).
* A rejected settings update changes nothing exactly if its plain fields repeat what
  is there and it had no access code to write (`PortalSessions.RejectedChangesNothingIff`).
  It opens a portal to everybody exactly if that portal is enabled, is not open and
  the update asks for the open tier (`PortalSessions.RejectedOpensPortalIff`); two
  updates of a fresh portal get there (`PortalSessions.RejectedUpdateOpens`).
* One pass of redaction is not stable under a second one: a short secret becomes a
  text that is itself long enough to be masked (`Redaction.OncePassIsStableIff`).
* At `app/routers/copilot.py:697` the coroutine of `manager.disconnect` is created and
  not awaited. A connection whose disconnect is lost stays registered exactly until
  its user connects again or something else disconnects that session, such as a
  relayed command that fails to send (`ConnectionManager.ActiveUntilEnded`). The model
  has the disconnects that happen.

## Model

| member | source | states |
|---|---|---|
| McpRegistry.AuthenticatedMcpSse.SweepLocked | app/routers/mcp.py:512-526 | a sweep removes exactly the entries that are due or whose owner has finished, and cancels each evicted owner that still runs exactly once |
| McpRegistry.AuthenticatedMcpSse.Admit | app/routers/mcp.py:199-222 | admission sweeps, then reserves for the caller exactly when connectivity is on and fewer than 32 entries remain |
| McpRegistry.AuthenticatedMcpSse.PromoteLocked | app/routers/mcp.py:264-282 | a promotion needs the caller's own reservation, in time, with connectivity on, and moves it to a binding with the token's deadline; otherwise nothing changes |
| McpRegistry.AuthenticatedMcpSse.PostLocked | app/routers/mcp.py:351-365 | a POST is let through exactly when, after the sweep, its session is bound to the same token, live, not due and connectivity is on |
| McpRegistry.AuthenticatedMcpSse.DetachReservation | app/routers/mcp.py:467-472 | detaching a reservation removes it and cancels its owner, and nothing else |
| McpRegistry.AuthenticatedMcpSse.DetachSession | app/routers/mcp.py:474-481 | detaching a session removes its binding and cancels its owner, and nothing else |
| McpRegistry.AuthenticatedMcpSse.DetachSessionIfToken | app/routers/mcp.py:483-498 | a rejected token detaches a session only if the session was opened with that token id |
| McpRegistry.AuthenticatedMcpSse.DetachAll | app/routers/mcp.py:500-510 | detaching everything leaves an empty registry and cancels every owner exactly once |
| McpRegistry.AuthenticatedMcpSse.WatchdogCheck | app/routers/mcp.py:395-408 | a watchdog pass goes on only while the binding is its own, and sees expiry at the deadline |
| McpRegistry.AuthenticatedMcpSse.WatchdogRefresh | app/routers/mcp.py:415-432 | revalidation can only shorten the deadline, and the next pause is at most a minute and ends at the deadline |
| McpRegistry.AuthenticatedMcpSse.Watchdog | app/routers/mcp.py:384-435 | whatever the other handlers do between its locked sections, the watchdog's loop ends within 61 passes, and its session is gone unless it was taken away before; undisturbed and with a token that does not expire it ends exactly when its session is due, with one pass for each begun minute of the lifetime and one more |
| McpRegistry.AuthenticatedMcpSse.WatchdogPass | app/routers/mcp.py:394-432 | exactly how a pass ends: the session is somebody else's, it is due when checked or once refreshed, or its token is rejected; otherwise the pass uses up a minute of the binding's lifetime, or all that was left of it |
| McpRegistry.AuthenticatedMcpSse.FinalCleanup | app/routers/mcp.py:302-307 | the final cleanup drops the handler's reservation, and the binding only if it is still the handler's own |
| McpRegistry.EvictedIsRemoved | app/routers/mcp.py:467-526 | the owners that lose an entry are exactly the owners of the entries removed |
| McpSafety.StepKeepsInv | app/routers/mcp.py:199-307 | every event of the protocol keeps the registry invariant |
| McpSafety.PromoteKeepsInv | app/routers/mcp.py:264-281 | a promotion does not change the number of entries |
| McpSafety.RegistrySafety | app/routers/mcp.py:202-218 | in every run: at most 32 entries, one per handler, every binding live and at most an hour long (`McpExpiry.BindingsRespectExpiry` adds the token's expiry), and nothing registered while connectivity is off, late first frames included, unless the last disable has not emptied the registry yet or was cancelled before it did |
| McpSafety.WhileOffOnlyShrinks | app/services/connectivity_state.py:103-116 | while connectivity is off every entry of the registry was there before, with the same owner and token and no later deadline, whatever happens and whoever is cancelled |
| McpSafety.DrainedStaysEmpty | app/routers/mcp.py:500-510 | once everything has been detached the registry stays empty for as long as connectivity is off |
| McpSafety.UndrainedIff | app/services/connectivity_state.py:103-116 | the registry counts as drained except after a disable that no completed detaching has followed |
| McpSafety.LivenessTestsAreImplied | app/routers/mcp.py:356-363 | the tests of `enqueueable`, `closing` and the switch in the POST guard are implied by the other tests |
| McpSafety.DeadlineNeverGrows | app/routers/mcp.py:420-422 | no event lengthens the deadline of a registered binding |
| McpEntries.SweepSparesExactly | app/routers/mcp.py:512-526 | a sweep spares exactly the entries whose owner still runs and whose time has not come |
| McpEntries.ReservationsComeAndGo | app/routers/mcp.py:199-222 | in every run a reservation comes exactly by an admission with connectivity on and fewer than 32 entries that a sweep spares, for ten seconds, and leaves exactly by a late sweep or one after its owner's end, or a promotion, cleanup, watchdog or tool failure of its own handler, or when everything is detached |
| McpEntries.BindingsComeAndGo | app/routers/mcp.py:264-281 | in every run a binding comes exactly by a promotion in time, for an hour or what is left of the token; it leaves exactly by a late sweep or one after its owner's end, a cleanup, watchdog or tool failure of its own handler, a failed POST for its token, or when everything is detached; and until then only its own watchdog moves its deadline, and only to a reported expiry that comes sooner |
| McpEntries.DeliveredIff | app/routers/mcp.py:351-376 | in every run a POST decision delivers its POST exactly if its session is bound to its token, its owner runs and the deadline is not reached |
| McpCauses.GateFollowsHistory | app/routers/mcp.py:323-350 | what waits in the enqueue gate is what the last events there put into it |
| McpCauses.SessionsCloseForAReason | app/routers/mcp.py:384-437 | in every run a binding leaves only because it is due or its owner finished, its token failed a revalidation, its own handler ended or had a tool failure, a POST for it failed with its token or for an unknown reason, or connectivity was disabled or shut down |
| McpCauses.ReservationsGetTenSeconds | app/routers/mcp.py:393 | a watchdog drops a reservation only after ten seconds without a first frame |
| McpTiming.DeadlineShrinksOverRun | app/routers/mcp.py:264-281 | over a whole run a session is bound at most once and its deadline only comes closer |
| McpTiming.HoldingComesFromPromotion | app/routers/mcp.py:274-281 | a handler comes to hold a binding only through its own promotion |
| McpTiming.RunIsPaced | app/routers/mcp.py:394-432 | after each completed pass a watchdog has a whole minute less of its binding's lifetime left |
| McpTiming.WatchdogPassesAreBounded | app/routers/mcp.py:394-432 | no watchdog makes more than 61 passes, in any run |
| McpExpiry.BindingsRespectExpiry | app/routers/mcp.py:97-104 | in every run a binding's deadline is no later than an hour after its creation, than the expiry of the token that opened it, and than the expiry its watchdog was last told, or than the grant if the token had expired by then |
| McpExpiry.GrantIs | app/routers/mcp.py:97-104 | a token grants an hour, or what is left of it on the wall clock if that is less, and nothing if it has expired |
| McpExpiry.GrantsAreExact | app/routers/mcp.py:264-281 | in every run each opened session was granted exactly an hour or all that was left of its token when it was promoted |
| McpExpiry.DeliveriesRespectExpiry | app/routers/mcp.py:352-363 | in every run a delivered POST read the clock before the expiry of the token that opened its session, or before the session was created |
| McpPunctual.WatchdogIsInTime | app/routers/mcp.py:384-435 | for any bound `lag` on how late a watchdog acts, whatever the handlers wait for: a bound handler's binding is guarded exactly as long as its watchdog has not given up waiting for the first frame; a promotion more than a lag before the timeout rules that out, one more than a lag after it comes too late, and none comes more than two lags after it; a binding whose watchdog has not given up is gone, or its handler unwinding, four lags after its deadline or promotion and a minute and five lags after its token's revocation |
| McpPunctual.TimedOutIff | app/routers/mcp.py:393 | in every run the record of having given up agrees with the history: the timeout of that handler's watchdog has fired before |
| McpPunctual.ReservationsAreInTime | app/routers/mcp.py:393-435 | a reservation whose handler has not begun to unwind is gone two lags after its first-frame deadline and what the handler waited for admission |
| McpLimits.LateDelivery | app/routers/mcp.py:351-365 | for every wait, however short, a run in which a POST that waited so long for the lock, with exactly that much of its session's lifetime left, is delivered at the deadline |
| McpLimits.DeliveryBeforeExpiry | app/routers/mcp.py:351-376 | for every lifetime of up to an hour and every earlier moment, a run in which a POST is delivered at that moment to a session opened with a token that expires at the end of that lifetime |
| McpLimits.UnguardedBinding | app/routers/mcp.py:384-435 | a run without any lag in which a frame that arrived in time waits for the lock until the watchdog has given up, and the binding outlives deadline and revocation |
| McpLimits.PromotionCanBeGuarded | app/routers/mcp.py:384-393 | for every lag and every moment up to one lag after the timeout, a run in which the binding promoted at that moment is guarded |
| McpLimits.PromotionCanBeUnguarded | app/routers/mcp.py:384-435 | for every lag, every moment from one lag before the timeout to two lags after it, and every time to come, a run in which the binding promoted at that moment has no watchdog and is still registered by then |
| McpLimits.AbortedDisable | app/services/connectivity_state.py:103-116 | a run in which a cancelled disable leaves connectivity off and a session registered before its deadline |
| McpLimits.AbandonedBinding | app/routers/mcp.py:296-307 | a run without any lag in which a handler ends without its cleanup and its binding outlives the deadline |
| McpDelivery.DeliveriesAreSafe | app/routers/mcp.py:323-376 | in every run, a delivered POST validated its token during that POST, the session was opened with that token, is not past the deadline granted to it, was never removed before, and connectivity is on |
| McpDelivery.NoDeliveryAfterRemoval | app/routers/mcp.py:467-498 | once a session is removed no later POST for it is delivered |
| McpDelivery.DeliveriesAreTimely | app/routers/mcp.py:352-376 | in every run in which POSTs wait at most `wait` for the lock, each delivery to a session with more than that left when the POST read the clock happens before the session's deadline |
| McpAccounting.EveryTaskHasOneFate | app/routers/mcp.py:302-307 | each admitted handler owns its entry, or was cancelled exactly once, or was released without a cancel, and never two of these |
| McpAccounting.ReleasedTasksAreEnding | app/routers/mcp.py:512-526 | only finished handlers, or those cleaning up after themselves, lose an entry without a cancel |
| McpAccounting.LosersAreCancelled | app/routers/mcp.py:467-526 | every handler that loses its entry while it runs is cancelled exactly once, unless it is its own cleanup; one that finished before a sweep is released instead |
| McpAccounting.CleanupDropsOnlyOwn | app/routers/mcp.py:302-307 | in every run a final cleanup removes exactly the handler's own entries: the reservation under its nonce is its own, and every other handler's entries stay as they are |
| McpAccounting.FinishedAreSweptAway | app/routers/mcp.py:514-525 | in every run, whatever a handler that ended without its cleanup left in the registry is gone from the next admission or POST decision on, for good |
| FirstFrame.Gate.GuardedSend | app/routers/mcp.py:243-286 | a send rejects, holds back or promotes by the bytes so far; before promotion nothing reaches the client |
| FirstFrame.Gate.Flush | app/routers/mcp.py:282-286 | promotion sends the held messages in order, none lost or repeated |
| FirstFrame.Gate.Serve | app/routers/mcp.py:291-295 | over any chunking, the client gets all the SDK's messages in order exactly when the bytes of some leading messages are a promotable frame and the registry accepts it, and otherwise only the 503, and that only after a rejection |
| FirstFrame.Recognise | app/routers/mcp.py:252-262 | splitting at the first blank-line marker decides the frame as matching the whole bytes would |
| FirstFrame.FrameMatches | app/routers/mcp.py:32-34 | every form of the endpoint frame is matched and yields its session id |
| FirstFrame.MatchedIsFrame | app/routers/mcp.py:32-34 | nothing but an endpoint frame is matched |
| FirstFrame.FrameIsSpelled | app/routers/mcp.py:32-34 | the endpoint frame byte by byte, for each choice of its line ends |
| FirstFrame.SessionIdIff | app/routers/mcp.py:32-34 | a session id is 32 lower-case hexadecimal digits |
| FirstFrame.PrefixesOfFrame | app/routers/mcp.py:254-256 | no proper prefix of a frame is decided, and a whole frame is, except in the LF CR LF form |
| FirstFrame.PromotesIsPromotable | app/routers/mcp.py:252-262 | the gate promotes exactly the promotable endpoint frames, with no byte left over |
| FirstFrame.SplitDecides | app/routers/mcp.py:254-261 | an empty remainder and a matching frame before the marker mean that the bytes are one frame |
| FirstFrame.FirstDecisionIsFinal | app/routers/mcp.py:252-261 | after a rejected first decision no continuation of the stream could have been promoted |
| FirstFrame.NoDecisionNoFrame | app/routers/mcp.py:254-256 | a stream without a decision contains no promotable start |
| FirstFrame.MixedFormNeverPromotes | app/routers/mcp.py:32-34 | a stream that starts with the LF CR LF form is never promoted, however it is chunked |
| IssueTracker.IssueTracker.Record | app/core/issue_tracker.py:51-71 | recording counts a known code and moves it to the end, or adds a new one and evicts from the front |
| IssueTracker.IssueTracker.Evict | app/core/issue_tracker.py:69-71 | eviction keeps exactly the last `max_size` codes |
| IssueTracker.IssueTracker.GetActiveIssues | app/core/issue_tracker.py:73-81 | the active list holds exactly the issues last seen at most 3600 seconds ago, in table order |
| IssueTracker.ActiveListsTheRecent | app/core/issue_tracker.py:73-81 | on any table the active list names exactly the issues seen at or after the cutoff, each once and in table order |
| IssueTracker.IssueTracker.Persist | app/core/issue_tracker.py:83-93 | the saved items are the issues in table order |
| IssueTracker.IssueTracker.Reload | app/core/issue_tracker.py:95-114 | reloading assigns item by item, with defaults and two clock readings for each item, and evicts nothing |
| IssueTracker.IssueTracker.Clear | app/core/issue_tracker.py:116-119 | clearing empties the tracker |
| IssueTracker.RecordTracks | app/core/issue_tracker.py:51-71 | one record keeps the table equal to the function of the history |
| IssueTracker.TrackerIsFunctionOfHistory | app/core/issue_tracker.py:51-71 | after any history the tracker holds exactly its recent codes in order, each with the component and first time of its arrival, its count since, and its last time |
| IssueTracker.TrackedIffFewSince | app/core/issue_tracker.py:69-71 | a code is still tracked exactly when fewer than `max_size` distinct codes were recorded after it: eviction drops the least recently seen |
| IssueTracker.OrderedByLastIndex | app/core/issue_tracker.py:63-64 | the table is ordered by last occurrence |
| IssueTracker.CodesBehind | app/core/issue_tracker.py:63-64 | the codes behind a code are exactly those recorded since it last was |
| IssueTracker.RecordKeepsOrder | app/core/issue_tracker.py:58-71 | one record at a later time keeps the table ordered by the time last seen |
| IssueTracker.HistoryKeepsOrder | app/core/issue_tracker.py:58-71 | on a table that is ordered by the time last seen, empty or reloaded, every history with a clock that never goes back leaves such a table |
| IssueTracker.ActiveIsSuffix | app/core/issue_tracker.py:73-81 | on such a table the active list is a suffix: everything before it was last seen before the cutoff, everything in it at or after the cutoff |
| IssueTracker.ActiveOfHistoryIsSuffix | app/core/issue_tracker.py:51-81 | after every such history the active list is that suffix of the recent codes |
| IssueTracker.PersistReloadRoundTrip | app/core/issue_tracker.py:83-114 | persisting and reloading into an empty tracker restores the same issues in the same order |
| IssueTracker.ReloadTakesLast | app/core/issue_tracker.py:102-111 | after a reload each code of the file has the record of its last item, with "unknown", one and its own two clock readings for what is missing |
| IssueTracker.ReloadKeepsOthers | app/core/issue_tracker.py:102-111 | a code that the file does not name keeps its record |
| IssueTracker.ReloadKeepsPlaces | app/core/issue_tracker.py:102-111 | a code keeps the place where it first came in, first those of the table and then those of the file |
| IssueTracker.ReloadRespectsBoundIff | app/core/issue_tracker.py:102-111 | after a reload the size bound holds exactly when the file names no more codes than fit |
| IssueReload.OrderStep | app/core/issue_tracker.py:51-71 | on a table of any size, one more record moves a known code to the end, and a new one evicts from the front until the table fits |
| IssueReload.RecordFollows | app/core/issue_tracker.py:51-71 | one record keeps the table equal to the function of the reloaded table and the history since |
| IssueReload.RecordingContinues | app/core/issue_tracker.py:51-71 | after any history on top of any table: all codes by their last occurrence while every recorded code was in it, and otherwise the most recent `max_size` of them; a code that never left continues its loaded record, any other starts at its last arrival |
| IssueReload.RestartedTracker | app/core/issue_tracker.py:95-114 | after a reload and any history the table is that function, and the size bound holds exactly if the file names no more codes than fit or a code that it does not name has been recorded since |
| RateLimit.StoredAgreesWithHistory | app/routers/copilot.py:271-280 | at every instant pruning the stored list gives what filtering the whole history gives |
| RateLimit.PruneIsSuffix | app/routers/copilot.py:277-279 | pruning drops a prefix of expired times and nothing else |
| RateLimit.Limiter.AdmitsIff | app/routers/copilot.py:277-285 | a check is admitted exactly while fewer than `limit` admissions of the whole history are less than one window old |
| RateLimit.AdmitIsSpaced | app/routers/copilot.py:281-285 | an admitted check keeps any `limit + 1` consecutive admissions a window apart |
| RateLimit.SpacedHoldsFew | app/routers/copilot.py:281-285 | so a check never counts more than `limit` admissions |
| RateLimit.ResetIsExact | app/routers/copilot.py:281-284 | a refused key has room again exactly from the returned reset time on |
| RateLimit.WindowBound | app/routers/copilot.py:271-286 | no interval of one window's length, wherever it starts, holds more than `limit` admissions |
| RateLimit.Limiter.NoBurst | app/routers/copilot.py:271-300 | every limiter that recorded nothing without room satisfies the window bound for every key |
| RateLimit.Limiter.CheckMessageRate | app/routers/copilot.py:271-286 | the per-session message check, with the exact time at which a retry succeeds |
| RateLimit.Limiter.CheckConnectionRate | app/routers/copilot.py:288-300 | the per-user connection check admits exactly while the history has room |
| RateLimit.Limiter.CheckAttempt | app/routers/auth.py:56-95 | the setup and login checks admit exactly while the history has room; a refusal stores nothing |
| RateLimit.Limiter.CheckRateLimit | app/models/portal.py:50-58 | the portal check reports room for the address by its history and admits nothing |
| RateLimit.Limiter.RecordAttempt | app/models/portal.py:60-63 | an attempt is appended whether or not there is room, and one with room keeps the window bound |
| RateLimit.CheckThenRecord | app/routers/portal.py:89-97 | a portal login attempt is let through exactly while the history has room, is recorded before the code is verified, and keeps the window bound; a refused one records nothing |
| RateLimit.UploadLimiter.CheckUploadRate | app/routers/copilot.py:1644-1658 | an upload is admitted exactly when the minute has room and the user's total is below 20, and the total counts every admission |
| RateLimit.ProgramLimiters | app/routers/auth.py:51-78 | the limits and windows of the program's limiters |
| ApiKeyCache.ParseInvertsFullKey | app/auth/api_key_auth.py:141-148 | a key text parses to an id and a secret exactly when it is the text made from them |
| ApiKeyCache.LocalAuth.ValidateLocalKey | app/auth/api_key_auth.py:151-204 | the database accepts an unrevoked row with the secret's hash and an active owner, and identifies the owner |
| ApiKeyCache.LocalAuth.GetCurrentUser | app/auth/api_key_auth.py:468-503 | the HTTP dispatch: cache, local validation, marketplace, and each refusal |
| ApiKeyCache.LocalAuth.GetCurrentUserWs | app/auth/api_key_auth.py:522-550 | the WebSocket dispatch |
| ApiKeyCache.LocalAuth.RevokeKey | app/routers/auth.py:787-813 | revoking marks the caller's own unrevoked key and removes every live cache entry with its id; 404 and 409 change nothing |
| ApiKeyCache.LocalAuth.DeactivateUser | app/routers/auth.py:964-973 | deactivation switches the local user off, if there is one, and leaves the cache alone |
| ApiKeyCache.EntriesAreOk | app/auth/api_key_auth.py:475-503 | every live entry of a local key comes from a validation within its lifetime, and its key is unrevoked |
| ApiKeyCache.AcceptedIsFresh | app/auth/api_key_auth.py:475-503 | in every run, an accepted key is unrevoked now, carries its row's secret and owner, and the owner was active less than the time to live ago |
| ApiKeyCache.ValidIsAccepted | app/auth/api_key_auth.py:475-503 | what the database accepts is accepted, with the same identity |
| ApiKeyCache.DisagreementIsRecentDeactivation | app/auth/api_key_auth.py:475-503 | cache and database differ exactly for a cached key whose owner is inactive, and then the owner was active less than the time to live ago |
| ApiKeyCache.RevokedIsRefused | app/routers/auth.py:802-813 | once its owner has revoked a key, it is refused from the next request on, for good |
| ApiKeyCache.RevokedByOwnerOnly | app/routers/auth.py:787-813 | a key is revoked exactly by its owner's revocation, by no other event and by nobody else's |
| ApiKeyCache.RevokedIff | app/routers/auth.py:787-813 | over a run a key is revoked exactly if it was before or its owner has revoked it since |
| ApiKeyCache.IssuedKeyOpensIff | app/auth/api_key_auth.py:151-204 | from its creation on an issued key is accepted exactly while its owner has not revoked it and is active or has a live cached answer, and then as that user with the scopes of its creation |
| ApiKeyCache.InactiveIsRefusedAfterTtl | app/auth/api_key_auth.py:180-183 | an owner inactive for the whole time to live is refused |
| ApiKeyCache.OnlyTheIssuedKey | app/routers/auth.py:148-162 | with a collision-free hash only the text issued at creation opens a key, as the user it was made for |
| ApiKeyCache.DeactivationLags | app/routers/auth.py:964-973 | a run in which a deactivated user is still accepted |
| Approval.ApprovalTokenService.CleanupExpired | app/services/approval_token_service.py:300-310 | cleanup removes exactly the expired tokens and marks them expired |
| Approval.ApprovalTokenService.CreateToken | app/services/approval_token_service.py:183-224 | creation sweeps and adds a pending token that lives as long as its tool's risk allows |
| Approval.ApprovalTokenService.ValidateAndConsume | app/services/approval_token_service.py:226-287 | the outcome of a consume call, the table and the token's final status after it |
| Approval.ApprovalTokenService.DenyToken | app/services/approval_token_service.py:289-298 | denying removes a pending token and marks it denied |
| Approval.TableIsPending | app/services/approval_token_service.py:238-241 | every token in the table between calls is pending and is the one created under its id |
| Approval.SuccessMatchesCreation | app/services/approval_token_service.py:226-287 | a success has the user and session of the creation, comes within the lifetime, and returns the tool and arguments recorded then |
| Approval.SingleUse | app/services/approval_token_service.py:278-287 | a token id succeeds at most once in a run, and never after it was denied |
| Approval.MismatchLeavesTable | app/services/approval_token_service.py:252-268 | a call leaves a pending token in the table exactly if it comes in time from a wrong user or session |
| Approval.SucceedsIff | app/services/approval_token_service.py:243-287 | an untouched token succeeds exactly for its user, in its session, within its lifetime: 30 seconds for `delete_dataset`, 120 for `stop_public_tunnel` and 60 for any other tool |
| Approval.InTableIff | app/services/approval_token_service.py:226-310 | a token is in the table exactly as long as no creation swept after its lifetime, nobody denied it, and every call for it came within its lifetime from somebody else or another session |
| Approval.SweepIsInvisible | app/services/approval_token_service.py:192 | a service that never sweeps gives every consume call of every run the same success, tool and arguments |
| PortalSessions.Portal.AuthenticateWithCode | app/routers/portal.py:76-130 | the outcomes of a code login, and the session a success adds |
| PortalSessions.Portal.BeginSsoCallback | app/routers/portal.py:174-177 | a callback starts only with the portal enabled in the sso tier |
| PortalSessions.Portal.FinishSsoCallback | app/routers/portal.py:216-235 | a finished callback adds a session with the version of that moment |
| PortalSessions.Portal.GetPortalSession | app/middleware/portal_auth.py:113-228 | the access decision of every tier |
| PortalSessions.Portal.SsoLogout | app/routers/portal.py:255-265 | a logout ends the session it was made with, if that was accepted |
| PortalSessions.Portal.UpdatePortalSettings | app/routers/portal.py:370-448 | the outcome of an update and the shared object after it, rejected or not |
| PortalSessions.Portal.InvalidateSessionsOnRotation | app/models/portal.py:70-75 | rotation raises the version and clears all sessions |
| PortalSessions.Portal.RevokePortalSession | app/routers/portal.py:519-529 | a single revocation removes an active session, 404 otherwise |
| PortalSessions.Portal.RevokeAllPortalSessions | app/routers/portal.py:468-474 | revoking all is a rotation |
| PortalSessions.VersionNeverDecreases | app/models/portal.py:70-75 | the version never decreases in a run and stays the same exactly while nothing rotates |
| PortalSessions.ActiveIff | app/routers/portal.py:109-124 | a session is active exactly until the first rotation, revocation or logout after its login |
| PortalSessions.ActiveWasIssued | app/routers/portal.py:120-124 | every active session was handed out by a login |
| PortalSessions.MembershipImpliesVersion | app/middleware/portal_auth.py:163-172 | an active session carries the current version, so the membership test implies the version test |
| PortalSessions.AcceptedIff | app/middleware/portal_auth.py:113-228 | an issued token is accepted exactly when the portal is enabled in a tier it serves, it has not expired, and nothing rotated or removed it since |
| PortalSessions.RotationIsFinal | app/middleware/portal_auth.py:163-168 | no token issued before a rotation is accepted after it in the code or sso tiers |
| PortalSessions.RemovalIsFinal | app/middleware/portal_auth.py:170-172 | no token is accepted after its own revocation or logout in the code or sso tiers |
| PortalSessions.UpdateEndsSessionsIff | app/routers/portal.py:403-442 | an update ends the sessions exactly when it brings a strong code and does not ask for single sign-on without configuring it, even if it is rejected later |
| PortalSessions.RejectedChangesNothingIff | app/routers/portal.py:370-442 | a rejected update changes nothing exactly if its plain fields repeat what is there and it asks for single sign-on without configuring it, brings a weak code, has no code, or clears one that is not set |
| PortalSessions.RejectedOpensPortalIff | app/routers/portal.py:375-376 | a rejected update opens a portal to everybody exactly if the portal is enabled, is not open and the update asks for the open tier |
| PortalSessions.RejectedUpdateOpens | app/routers/portal.py:403-442 | a run from a fresh portal in which a rejected update opens a portal that a code protected |
| PortalHistory.StrongIff | app/models/portal.py:34-40 | an access code is strong exactly if it has six or more letters and digits, nothing else, and some letter |
| PortalHistory.AcceptedIffAcceptable | app/routers/portal.py:370-442 | an update is accepted exactly if sign-on is complete where asked for, its code is strong, and, when it enables the portal, there is an address and, in the code tier, a code |
| PortalHistory.StepSettings | app/routers/portal.py:370-442 | what each setting is after each event: only updates write, and a rejected one stops where it was rejected |
| PortalHistory.FieldIsLastWritten | app/routers/portal.py:370-400 | in every run each plain setting is the one of the last update that wrote it, accepted or rejected |
| PortalHistory.SwitchIsLastAccepted | app/routers/portal.py:420-442 | the portal is switched as the last accepted update says that switches it |
| PortalHistory.CodeLoginIff | app/routers/portal.py:76-130 | in every run, with a collision-free hash, a code login succeeds exactly with the access code that the last update reaching the code wrote, in an enabled portal of the code tier with attempts left, and with none once it was cleared |
| PortalHistory.IssuedTokens | app/routers/portal.py:109-124 | every token handed out names its session, the tier of its login and the version of that moment, and expires after the configured minutes |
| PortalHistory.FlowsFollowHistory | app/routers/portal.py:174-177 | a sign-on callback is under way exactly if it was begun in an enabled portal of the sso tier and has not finished since |
| PortalHistory.BegunFinishes | app/routers/portal.py:216-235 | a callback that was begun ends in a login, whatever the settings have become |
| ConnectionManager.Manager.Connect | app/routers/copilot.py:156-185 | a connection replaces the user's live session, whose socket is closed, and registers the new one |
| ConnectionManager.Manager.Disconnect | app/routers/copilot.py:187-190 | a disconnect removes the session from all maps |
| ConnectionManager.Manager.DisconnectUnlocked | app/routers/copilot.py:192-206 | removal keeps every user entry of other sessions |
| ConnectionManager.MapsFollowHistory | app/routers/copilot.py:156-206 | a session is in the maps, under its user, exactly while its connection is neither disconnected nor replaced |
| ConnectionManager.MapsAreInverse | app/routers/copilot.py:231-245 | the user map and the active map are mutual inverses, and the stored user of a session is its own |
| ConnectionManager.UserEntryIsCurrent | app/routers/copilot.py:235-237 | a user's entry is the session of the user's current connection |
| ConnectionManager.SessionHasOneUser | app/routers/copilot.py:203-206 | two users never share a session |
| ConnectionManager.LateDisconnectIsHarmless | app/routers/copilot.py:192-206 | the late disconnect of a replaced session changes nothing |
| ConnectionManager.ActiveUntilEnded | app/routers/copilot.py:693-698 | a session that its handler never disconnects stays registered exactly until the user's next connection or another disconnect of it |
| MessageStore.Database.Commit | app/core/database.py:252-262 | a commit applies all staged changes or none, and refuses any number of rows of which one repeats a taken client id |
| MessageStore.Database.GetOrCreateChat | app/routers/copilot.py:526-543 | the newest open chat of the user, or a new one |
| MessageStore.Database.PersistMessage | app/routers/copilot.py:546-577 | a row and its counter are stored together or not at all |
| MessageStore.Database.PersistMessagesAtomic | app/routers/copilot.py:580-611 | a question and its answer, with the counter raised by two, are stored together or not at all |
| MessageStore.Database.PersistUserMessage | app/routers/copilot.py:749-787 | the idempotent insert of a user message, whether or not the duplicate check sees the earlier row |
| MessageStore.Database.PersistAssistantMessage | app/routers/copilot.py:909-924 | the insert of an assistant message |
| MessageStore.Database.PersistNudge | app/routers/copilot.py:474-485 | the insert of a nudge, only for a known user |
| MessageStore.StepKeepsConsistent | app/routers/copilot.py:546-577 | every transaction, failed or not, keeps counters equal to rows and client ids unique |
| MessageStore.CountersEqualRows | app/routers/copilot.py:570-577 | after any sequence of messages, duplicates and faults every counter equals its number of rows and no client id has two rows in a chat |
| MessageStore.StepAddsRows | app/routers/copilot.py:546-611 | which rows each event adds: a user, assistant or nudge message to the user's chat with its content, role and kind, a question with its answer, and nothing for a fault or a client id already there |
| MessageStore.StepChats | app/routers/copilot.py:526-543 | an event opens a chat exactly for a user without an open one, and only archiving closes one |
| MessageStore.MessagesAreKept | app/routers/copilot.py:570-577 | over any sequence of events each adds its own rows and none is ever changed or lost |
| MessageStore.ClientIdsAreUnique | app/routers/copilot.py:755-778 | after any sequence of events no client id has two rows in a chat |
| MessageStore.DuplicateChangesNothing | app/routers/copilot.py:755-778 | a duplicate changes nothing, by the check or by the index |
| MessageStore.RetriesStoreOnce | app/routers/copilot.py:755-778 | a message retried through any faults is stored once, with the content of the first attempt that commits |
| AgenticLoop.AgenticAllieProvider.ProcessBlocks | app/services/allai_agentic_provider.py:70-106 | one response streams its text and runs its tools in order, dropping unknown blocks, and gets through exactly if every chunk is accepted and no tool raises |
| AgenticLoop.AgenticAllieProvider.RunAgenticLoop | app/services/allai_agentic_provider.py:36-119 | at most five calls, each on the transcript built so far; the transcript grows by the answered turns only; the text returned is all text and is what was streamed; the loop raises only if the next call raises or its response does not get through |
| AgenticLoop.ResultsAnswerToolUses | app/services/allai_agentic_provider.py:84-106 | one answer per tool use, in order, from consecutive executions |
| AgenticLoop.TurnsArePairs | app/services/allai_agentic_provider.py:108-115 | every added pair is an assistant message and a user message that answers each of its tool uses once and in order |
| AgenticLoop.ToolUsesOfKept | app/services/allai_agentic_provider.py:69-87 | the stored assistant message keeps all its tool uses |
| AgenticLoop.KeptAreTheKnown | app/services/allai_agentic_provider.py:69-87 | the stored assistant message holds exactly the text and tool-use blocks, each once and in order |
| AgenticLoop.TextIsConcatenation | app/services/allai_agentic_provider.py:72-80 | the streamed text is put together from the texts of the blocks in order |
| AgenticLoop.AllTextIsOfAllBlocks | app/services/allai_agentic_provider.py:72-80 | the whole text is that of all blocks of all responses |
| AgenticLoop.TotalsAreSums | app/services/allai_agentic_provider.py:206-232 | token and cost totals are the sums over all responses with usage |
| AgenticLoop.TotalNamesFirstModel | app/services/allai_agentic_provider.py:217-232 | there is a total exactly if a response carries usage, and it names the model of the first |
| Redaction.SensitiveInside | app/core/redaction.py:31-34 | a sensitive key stays sensitive inside any longer key and in any letter case |
| Redaction.SensitiveIff | app/core/redaction.py:13-34 | a key is sensitive exactly if one of the sixteen names is part of it, in any letter case |
| Redaction.NamesAreSensitive | app/core/redaction.py:13-34 | each of the names is itself a sensitive key, in any capitals |
| Redaction.RedactedAt | app/core/redaction.py:65-73 | place by place, redaction keeps keys, lengths and shapes and changes a string only if the key governing it is sensitive |
| Redaction.MaskRevealsOnlyEnds | app/core/redaction.py:37-41 | two secrets have the same mask exactly when both are short or they agree in their first and last four characters |
| Redaction.OutputsEqualIffAlike | app/core/redaction.py:65-73 | two configurations have the same output exactly when they differ only in secrets that masks do not tell apart |
| Redaction.MaskOfMask | app/core/redaction.py:37-41 | masking again changes exactly the masks of short secrets, and masking a third time nothing |
| Redaction.OncePassIsStableIff | app/core/redaction.py:57-73 | one pass is stable exactly when no governed string has at most eight characters |
| Redaction.ThirdPassChangesNothing | app/core/redaction.py:57-73 | three passes give what two give |

## Left out

- McpDelivery.DeliveriesAreSafe: compares the deadline with the clock value that the POST read before it waited for the registry lock; `McpDelivery.DeliveriesAreTimely` says when the delivery itself is in time.
- McpPunctual.WatchdogIsInTime: says nothing about how long a binding stays whose watchdog has given up, or whose handler is unwinding; both are unbounded in the code until the cleanup gets the lock or a sweep comes.
- Adjustments of the wall clock against the monotonic one.
- Bindings are values in a map; the source's binding objects are shared with nobody outside the locked sections, so a detached object's `closing` flag is not kept.
- Cancellation is recorded as a request; how asyncio unwinds a cancelled GET handler is not modelled beyond its final cleanup, which may come at any later time.
- Header and query parsing of the MCP endpoints (`_authorization_header`, `_query_items`): a parsed token and session id are the input.
- The MCP SDK, JSON-RPC and ASGI: an SDK is any sequence of messages; the connectivity token service is an oracle that validates or fails.
- A client connection that fails while the gate flushes its buffer.
- The derivation of an issue's component from its code, and saved files with malformed items.
- Clock steps backwards in the wall-clock limiters, and the message limiter's removal of a session's list at disconnect (session ids are never reused).
- Requests while authentication is switched off.
- The marketplace's own bearer tokens, its cached bearer entries and the cookie login; the cache sees them as insertions under keys that are not local.
- The `last_used_at` column, and the cache's eviction by size except as arbitrary removal.
- Cryptography: the keyed hash, the access-code hash (without salt), the argument hash and the client-secret encryption are functions, injective where stated; signed portal tokens are exactly those handed out.
- Descriptions and nonces of approval tokens, and the capability table.
- Restarts and failed saves of the portal configuration; the identity provider's answers, and the expiry of a login under way.
- The co-pilot's session dictionaries outside the lock (balance, running task, snapshots, intro flag), which unlocked setters write.
- Interleaved database transactions: messages are stored one after another, as in one event loop.
- Chats with equal creation times: the newest is the one created last.
- Letter case and digits outside ASCII in redacted keys and in access codes, and the pattern-based redaction of log entries.
- Heartbeats of the tool-use loop, which send nothing the loop depends on.
- The activation manager, file uploads, S3 brokering, billing, and all other request plumbing.
