# A model of tegata's daemon, executor and shim

tegata keeps browser sessions, API proxies and MCP servers for clients that must never see the
credentials behind them. This project models the parts of it where that depends on state, order and
timing, and proves what they keep.

- `SessionTables`, `SessionOperations`, `SessionProtocol`, `SessionShutdowns`, `SessionLeases`: the daemon's
  browsers with their leases, the index of shared browsers and the port list; the critical sections that
  change them; every interleaving of login, join, handoff, disconnect, reapers, vault lock, peer revocation
  and executor end, with the per-key start gate held across them; and, over a whole run, what becomes of
  each executor and where each lease comes from.
- `Ledger`, `StepwiseLogin`, `StepwiseHistory`: the ledger of pending stepwise logins, every race for the one
  executor in a login's slot, and the history behind each step and each handoff.
- `ExecutorIds`: request ids on one executor connection, before and after the handoff.
- `StartControl`: the launch limit and the failure backoff of one start key.
- `ApprovalQueue`, `Grants`, `GrantHistory`: approvals under racing decisions, timeouts and drops;
  time-limited grants under racing revocations.
- `Frames`, `FrameStream`, `FrameRules`: the RFC 6455 frame encoder and incremental parser, and both of them
  bit by bit and byte by byte.
- `LineInspector`: the line scanner between an MCP server and its client.
- `TokenPolling`, `TokenSession`: device-code polling (RFC 8628) and the life of the tokens behind an
  injection proxy.
- `CdpProxy`, `CdpHistory`: the proxy that renumbers plugin requests and keeps them inside one browser context.
- `EnvTemplate`: rendering of an environment value from its template.

Code that updates fields or loops is a class or a method with loops, proved equal to a function on
plain values, and its contract also says what changes in terms of the fields, without that function. The
classes carry the names of the original's types or say which one they stand for. A
protocol is a state with one program counter per task, an action per critical section, and theorems
about every run. Code between two suspension points is one action, so a mutex that is never held across
a suspension does not appear, and one that is (the start gate, a login's slot, a connection's operation
lock) is part of the state.

Assumed of the surroundings: identifiers drawn at random are fresh; the monotone clock does not run
back; a timer does not fire before the delay that Node gives it, and so the sleeps of polling, which
stay under 45 seconds, are never shorter than asked for (polling sends when its sleep ends, without
comparing the clock with the due time again); locks are not poisoned; a request, once started, is not
cancelled (a waiter for an approval may be); an executor's reply echoes the id of the request it
answers, but may come late, repeatedly or not at all. Answers of executors, token endpoints, browsers
and users are arbitrary.

The methods of `DaemonTables` require the agreement of the tables (`Consistent`), which the theorems
about runs show to hold whenever the daemon's mutex is free. Their ghost parameter `orphans` names the
sessions of registrations between their two steps. `RegisterWith` requires that the random source gets to
a free id at some point, without which the original does not return.

## Model

| member | source | states |
|---|---|---|
| `SessionTables.CullKeepsConsistent` | crates/tegatad/src/main.rs:1791-1802 | any teardown that removes leases with their ports, and browsers left without a lease with their index entries, keeps all agreements between the three tables |
| `SessionTables.CullExactly` | crates/tegatad/src/main.rs:1791-1802 | and it ends exactly those leases and their ports, and exactly the browsers left without a lease; nothing else about a browser or a lease changes |
| `SessionTables.AddLeaseKeepsConsistent` | crates/tegatad/src/main.rs:2612-2645 | a lease added by a join keeps the agreements, with its port entry and an expiry within the browser's deadline |
| `SessionTables.AddPortKeepsConsistent` | crates/tegatad/src/main.rs:2866-2869 | listing the port first keeps the agreements, with that one session accounted for as a registration between its two steps |
| `SessionTables.AddBrowserKeepsConsistent` | crates/tegatad/src/main.rs:2873-2878 | entering the browser keeps the agreements and settles its session, provided the key has no shared browser when this one is shared |
| `SessionOperations.DaemonTables.TakeBrowserLocked` | crates/tegatad/src/main.rs:1791-1802 | returns the browser if it was there; the browser, its index entry if shared, and the ports of all its leases are gone, and nothing else |
| `SessionOperations.DaemonTables.ExpireBrowserAtDeadline` | crates/tegatad/src/main.rs:1804-1821 | takes the browser exactly when it is still there and its deadline has come |
| `SessionOperations.DaemonTables.ReapSessions` | crates/tegatad/src/main.rs:1827-1889 | for any iteration order: a lease stays exactly when neither it nor its browser is past its time; every removed lease is reported once, with its own values and its browser's executor, key and cookie flag; one shutdown obligation per browser that leaves the table and none for one that stays |
| `SessionOperations.DaemonTables.TerminatePeerLeases` | crates/tegatad/src/main.rs:4207-4251 | for any iteration order: removes exactly the leases of the principal; each is reported once, with its own values and its browser's executor, key and cookie flag; one shutdown obligation per browser that leaves |
| `SessionOperations.DaemonTables.DrainBrowsers` | crates/tegatad/src/main.rs:4113-4143 | a browser stays exactly when a namespace was given and it is not the browser's; every other one is taken, listed once and as it was in the table |
| `SessionOperations.DaemonTables.Disconnect` | crates/tegatad/src/main.rs:3992-4026 | ends the caller's lease if there is one, and the browser exactly when that was its last lease; a session of another principal is not found and nothing changes |
| `SessionOperations.DaemonTables.ExecutorEnded` | crates/tegatad/src/main.rs:5557-5572 | the end of an executor's output removes its browser with index entry and ports |
| `SessionOperations.DaemonTables.JoinLocked` | crates/tegatad/src/main.rs:2612-2645 | adds the lease and its port when the browser is still there before its deadline, for the caller, expiring at the time to live from now or at the browser's deadline, whichever is first; removes the browser when the deadline has come, changes nothing when it is gone |
| `SessionOperations.DaemonTables.RegisterPort` | crates/tegatad/src/main.rs:2866-2869 | first step of a registration: the session is listed with its principal and port |
| `SessionOperations.DaemonTables.RegisterBrowser` | crates/tegatad/src/main.rs:2873-2878 | second step: the browser is entered, and indexed exactly when it is shared |
| `SessionOperations.CullTwice` | crates/tegatad/src/main.rs:1851-1888 | two teardowns in a row come to the one teardown of both their leases |
| `SessionOperations.RemovalsCount` | crates/tegatad/src/main.rs:1851-1888 | the reported sessions and shutdown obligations are counted place by place in the list of records |
| `SessionProtocol.StepKeepsInv` | crates/tegatad/src/main.rs:2572-2654 | every critical section of login, join, handoff, disconnect, reapers, lock, revoke and executor end keeps the joint invariant of tables, waiting tasks and start gates |
| `SessionProtocol.SharedIndexExact` | crates/tegatad/src/main.rs:2866-2878 | in every state of every run the shared index is exactly the map from key to id of the browsers that are not exclusive, so no key has two shared browsers |
| `SessionProtocol.TablesAlwaysAgree` | crates/tegatad/src/main.rs:1844-1888 | in every state of every run: each lease has its port entry, its key's principal and an expiry within the deadline; a port without a lease is a registration between its two steps; a session is in one browser; no browser is without a lease |
| `SessionProtocol.OthersWhileEntering` | crates/tegatad/src/main.rs:2701-2774 | while a launch enters a shared browser, no other task that has passed a gate relies on that key being free |
| `SessionProtocol.GateIsNeeded` | crates/tegatad/src/main.rs:2701-2702 | in the same protocol without the start gate, for every key, a run from the initial state ends with two shared browsers of that key and a wrong index |
| `SessionShutdowns.StepReports` | crates/tegatad/src/main.rs:1827-1908 | a critical section takes exactly the executors it reports out of the table, and a registration brings exactly its own in |
| `SessionShutdowns.ExecutorsConserved` | crates/tegatad/src/main.rs:1827-1908 | over any run, the executors that ever entered the table are those still in it and those reported, and none is both |
| `SessionShutdowns.OneShutdownEach` | crates/tegatad/src/main.rs:4207-4256 | over any run, across reapers, disconnect, vault lock, peer revocation, expiry on join and executor end, an executor that entered the table is there until exactly one critical section reports it, and never enters again |
| `SessionLeases.TeardownEnds` | crates/tegatad/src/main.rs:1827-1908 | each of disconnect, reaper, vault lock, peer revocation and executor end ends exactly the leases it is for: the caller's session, what is past its time, the namespace's, the principal's, the browser's |
| `SessionLeases.LeasesKeepTheirTime` | crates/tegatad/src/main.rs:1787-1789 | over any run, a lease in the table was made by one join or registration, for that task's principal; it expires at the time to live past the clock reading that made it or at its browser's deadline, whichever is first |
| `SessionLeases.RegistrationMakes` | crates/tegatad/src/main.rs:2848-2865 | a registration enters the browser it was given: one lease, with that expiry, and the key, executor, port, endpoint, deadline and flags of the launch |
| `SessionLeases.StepKeepsLeases` | crates/tegatad/src/main.rs:2612-2645 | a critical section changes no lease and nothing else about a browser; a new lease is one that a join or a registration makes |
| `SessionLeases.BrowsersNeverChange` | crates/tegatad/src/main.rs:2848-2865 | over any run, nothing but the leases of a browser ever changes |
| `SessionLeases.LookDecides` | crates/tegatad/src/main.rs:2572-2594 | a login joins the shared browser of its key if there is one, removes it if its deadline has come, and launches if there is none |
| `SessionLeases.HandOffDecides` | crates/tegatad/src/stepwise.rs:921-931 | a finished stepwise login becomes exclusive if and only if it was asked to be or its key has a shared browser |
| `Ledger.Ledger.TryClaim` | crates/tegatad/src/stepwise.rs:494-522 | by the entry alone: a login is found if and only if it is in the ledger under the caller's principal, and otherwise nothing changes; a step is admitted exactly when the login is neither past its absolute limit, nor idle too long with no step in flight, nor at forty steps; expired and exhausted entries leave the ledger |
| `Ledger.Ledger.Release` | crates/tegatad/src/stepwise.rs:539-546 | counts one step less and restarts the idle clock, only for the very login that admitted it |
| `Ledger.Ledger.RemoveCurrent` | crates/tegatad/src/stepwise.rs:554-559 | removes and returns the entry only if it still has the same slot |
| `Ledger.Ledger.TakeOwned` | crates/tegatad/src/stepwise.rs:585-590 | removes and returns the entry only if it belongs to the principal |
| `Ledger.Ledger.Take` | crates/tegatad/src/stepwise.rs:562-612 | removes exactly the entries that are past a limit, of the principal, or of the namespace (all for none given), and lists each once, for any iteration order |
| `StepwiseLogin.ActionKeepsInv` | crates/tegatad/src/stepwise.rs:1014-1112 | every section of a step, an abort, an expiry, a sweep, a handoff or a termination keeps slots, locks, ledger, counters and the place of every executor in agreement |
| `StepwiseLogin.OneFateEach` | crates/tegatad/src/stepwise.rs:1240-1270 | in every state of every run an executor ever launched is in exactly one place, so it is handed off or stopped at most once and never both |
| `StepwiseLogin.NoExecutorStranded` | crates/tegatad/src/stepwise.rs:1014-1140 | a full slot belongs to a login in the ledger, or to a terminator or a step that still owes the take; a handoff always has an executor |
| `StepwiseLogin.NothingLeaksAtRest` | crates/tegatad/src/stepwise.rs:1300-1329 | when no step or termination is running, every executor was handed off or stopped, or waits in the slot of a login in the ledger |
| `StepwiseLogin.SlotEmptiesOnce` | crates/tegatad/src/stepwise.rs:825-860 | a slot that was emptied stays empty for the rest of the run |
| `StepwiseLogin.NeverSaturates` | crates/tegatad/src/stepwise.rs:539-546 | the saturating subtraction of a release never saturates: the releasing step is itself counted |
| `StepwiseLogin.InFlightIsExact` | crates/tegatad/src/stepwise.rs:494-546 | while a login is in the ledger with its executor in the slot, its in-flight count is exactly the number of admitted, unfinished steps; it is never below that number |
| `StepwiseLogin.IdleExpirySparesRunningSteps` | crates/tegatad/src/stepwise.rs:487-490 | while a step of a login is unfinished, the login is expired if and only if the absolute limit has passed |
| `StepwiseLogin.AtMostFortyAdmissions` | crates/tegatad/src/stepwise.rs:507-514 | over any run, no login id is admitted more than forty times |
| `StepwiseHistory.OnlyOwnersClaim` | crates/tegatad/src/stepwise.rs:494-522 | an admission changes the state only for the principal of the login's entry, touches no other entry, and adds a step exactly when the login is that principal's, not expired and below forty steps |
| `StepwiseHistory.SweepsEndTheirOwn` | crates/tegatad/src/stepwise.rs:562-612 | a sweep ends exactly the logins past a limit, of the principal, or of the namespace, and owes each of them its termination |
| `StepwiseHistory.EntryWasRegistered` | crates/tegatad/src/stepwise.rs:825-860 | over any run, an entry has the key, flags, start and slot it was registered with |
| `StepwiseHistory.StepStory` | crates/tegatad/src/stepwise.rs:1014-1080 | over any run, a step was asked for by the principal that the login had in the ledger at that time, and stands where what was asked and what the executor answered have put it |
| `StepwiseHistory.StepsBelongToOwner` | crates/tegatad/src/stepwise.rs:494-500 | over any run, a step was asked for by the very principal that the login was registered for, and holds that login's slot |
| `StepwiseHistory.AnswerDecides` | crates/tegatad/src/stepwise.rs:997-1084 | over any run, a login goes on, with one step less in flight and its idle clock restarted, exactly when the executor answered that it is pending or that a selector was not found; otherwise it leaves the ledger, to be handed off when done and ended in every other case |
| `StepwiseHistory.HandOffsAreDone` | crates/tegatad/src/stepwise.rs:1128-1165 | over any run, the executor of a pending login is handed off exactly by a registration that succeeded, after the executor itself answered that the login is done |
| `ExecutorIds.IdsRepeatExactly` | crates/tegatad/src/stepwise.rs:928-938 | two requests on one connection have the same id if and only if their distance is a multiple of 2^64, across steps, timeouts and the handoff |
| `ExecutorIds.AcceptsExactly` | crates/tegatad/src/main.rs:4983-5000 | over any run, a line is accepted if and only if it answers a request whose distance to the waiting one is a multiple of 2^64 |
| `ExecutorIds.AcceptedRepliesAreOwn` | crates/tegatad/src/main.rs:4962-5001 | every accepted reply answers a request a multiple of 2^64 away, and up to 2^64 requests the very one that received it |
| `ExecutorIds.AcceptsExactlyOwnReply` | crates/tegatad/src/main.rs:4983-5000 | up to 2^64 requests, the next line is accepted if and only if it answers the waiting request; any other line fails the request and ends the connection, except that a shared connection survives a line that is not JSON |
| `StartControl.StartGate.PruneAttempts` | crates/tegatad/src/sessions.rs:111-115 | keeps exactly the attempts younger than 600 whole seconds, as often as they were there, in order |
| `StartControl.StartGate.IsLimited` | crates/tegatad/src/sessions.rs:117-120 | limited exactly when three attempts are left or the retry time is still ahead |
| `StartControl.StartGate.RecordAttempt` | crates/tegatad/src/sessions.rs:122-125 | adds the attempt to the pruned list |
| `StartControl.StartGate.RecordFailure` | crates/tegatad/src/sessions.rs:133-141 | counts one failure more and sets the retry time two, five, then fifteen seconds ahead |
| `StartControl.AtMostThreePerWindow` | crates/tegatad/src/main.rs:2701-2752 | over any run of checks, launches, launches abandoned after the check, failures and successes, any half-open window of 600 seconds holds at most three recorded attempts |
| `StartControl.BackoffRespected` | crates/tegatad/src/main.rs:2709-2711 | no launch passes the check before the retry time of any earlier failure, unless a success came between |
| `StartControl.RetryNeverEarlier` | crates/tegatad/src/sessions.rs:133-141 | until a success, a later failure never sets an earlier retry time |
| `StartControl.RetryTimeExactly` | crates/tegatad/src/sessions.rs:133-141 | a failure sets the retry time 2, 5 or 15 seconds ahead by whether it is the first, second or a later one since the latest success |
| `StartControl.LimitedExactly` | crates/tegatad/src/sessions.rs:117-120 | over any run, a check refuses if and only if the third launch back is less than 600 seconds old or the retry time of the latest failure, with no success since, is still ahead |
| `ApprovalQueue.PendingQueue.RegisterWith` | crates/tegatad/src/approvals.rs:86-115 | draws ids until one is free, takes the first free one, and enters it with the next 64-bit token |
| `ApprovalQueue.CandidateExactly` | crates/tegatad/src/approvals.rs:95 | an id is six digits that write the draw modulo a million in base ten |
| `ApprovalQueue.PendingQueue.DecideOn` | crates/tegatad/src/approvals.rs:131-136 | removes the entry and sends the decision to its waiter; an unknown id is not found |
| `ApprovalQueue.PendingQueue.RemoveOwnEntry` | crates/tegatad/src/approvals.rs:172-182 | removes the entry under the id only if it still carries the waiter's own token |
| `ApprovalProtocol.StepKeepsInv` | crates/tegatad/src/approvals.rs:146-188 | every step of a registration, decision, wait, timeout, cancellation and drop keeps entries, tokens, sent decisions and waiters in agreement |
| `ApprovalProtocol.SenderNeverLost` | crates/tegatad/src/approvals.rs:146-170 | over any run, a waiter alone with its id and token never finds its sender gone without a decision |
| `ApprovalProtocol.AnswersFollowDecisions` | crates/tegatad/src/approvals.rs:146-188 | a finished waiter was approved iff an allowing decision removed the entry it registered itself, denied iff a denying one did, timed out iff none did; no decision is lost to a racing timeout; for every waiter whose id no registration a multiple of 2^64 away has drawn too |
| `ApprovalProtocol.FewAreLone` | crates/tegatad/src/approvals.rs:92 | which is every waiter up to 2^64 registrations |
| `ApprovalProtocol.TokenReuseLosesDecision` | crates/tegatad/src/approvals.rs:172-182 | without that condition a run exists in which an approved waiter answers that it timed out |
| `ApprovalProtocol.RemovesExactly` | crates/tegatad/src/approvals.rs:172-188 | over any run, finishing or dropping a waiter removes an entry if and only if it is under the waiter's id and its registration is a multiple of 2^64 away; all others stay as they are |
| `ApprovalProtocol.RemovalSparesOthers` | crates/tegatad/src/approvals.rs:172-188 | so up to 2^64 registrations it leaves every entry but its own, even one that reuses its id |
| `ApprovalProtocol.GoneLeavesNoEntry` | crates/tegatad/src/approvals.rs:184-188 | a waiter that is gone has left no entry behind |
| `Grants.ApprovalGrants.TryReuse` | crates/tegatad/src/grants.rs:62-72 | prunes, then says whether the exact pair has a grant; never with a zero time to live |
| `Grants.ApprovalGrants.TryIssue` | crates/tegatad/src/grants.rs:75-91 | records the grant only if no revocation was seen since the generation was read |
| `Grants.ApprovalGrants.RevokeAll` | crates/tegatad/src/grants.rs:94-103 | moves the generation on (modulo 2^64); no grant is left when no namespace is given, and otherwise exactly those whose credential does not start with the namespace and a colon, which for a namespace without a colon are those of another namespace |
| `Grants.PrefixTestExact` | crates/tegatad/src/grants.rs:99-102 | the prefix test finds exactly the credentials of a namespace, for all of them, if and only if the namespace has no colon |
| `GrantProtocol.ReuseRefinesHistory` | crates/tegatad/src/grants.rs:62-111 | over any run, reuse says yes iff some recorded issue for that exact pair is younger than the time to live and was not followed by a covering revocation |
| `GrantProtocol.RecordedIffUndisturbed` | crates/tegatad/src/main.rs:2935-2964 | an approval is recorded iff the revocations since it was asked for number a multiple of 2^64 |
| `GrantProtocol.ReuseMeansUndisturbedWait` | crates/tegatad/src/main.rs:2935-2964 | with fewer than 2^64 revocations, a reusable grant comes from an approval whose whole wait saw no revocation of any kind, and none that covers it came later |
| `GrantHistory.CoversExactly` | crates/tegatad/src/grants.rs:94-103 | a revocation covers every credential when no namespace is given, and otherwise those that have the namespace and then a colon |
| `GrantHistory.LockOfAllEndsGrants` | crates/tegatad/src/grants.rs:94-98 | over any run, after a lock of everything reuse says no for a pair until a grant is recorded for it again |
| `GrantHistory.AskPassesExactly` | crates/tegatad/src/main.rs:2935-2964 | over any run, a request passes without the operator if and only if the history holds a grant it can reuse, and otherwise waits with the generation it read |
| `Bytes.BigEndianRoundTrip` | integrations/herdr/src/ws.ts:60-67 | a length written big-endian in enough bytes reads back as itself |
| `Bytes.MaskTwice` | integrations/herdr/src/ws.ts:69-74 | masking twice with one key gives the bytes back |
| `Frames.EncodeFrame` | integrations/herdr/src/ws.ts:32-80 | refuses a mask key that is not four bytes and an unrepresentable length; otherwise writes header, shortest length form, key and masked payload, byte for byte |
| `Frames.ReadFrame` | integrations/herdr/src/ws.ts:108-180 | asks for more input only while fewer than 14 bytes plus the message limit are buffered; a frame it returns lies within the buffer |
| `FrameRules.XorIsExclusiveOr` | integrations/herdr/src/ws.ts:69-74 | masking is exclusive or: each of the eight bits is set if and only if the two bits differ |
| `FrameRules.EncodedLayout` | integrations/herdr/src/ws.ts:32-80 | every byte of an encoded frame for every payload: flags and opcode, mask bit and the length in 7, 16 or 64 bits with the high byte first, key, payload (section 5.2 of RFC 6455) |
| `FrameRules.EncodedExamples` | integrations/herdr/src/ws.ts:32-80 | the single-frame examples of section 5.7 of RFC 6455, byte for byte |
| `FrameRules.ReadFrameExactly` | integrations/herdr/src/ws.ts:108-180 | for every buffer, by its bytes: which of more input, a protocol error, too big, or the frame it is, and in the last case its flags, unmasked payload and length |
| `FrameRules.ConsumeExactly` | integrations/herdr/src/ws.ts:182-234 | for every frame: which event it is, when it joins a message, and with which code it is refused |
| `FrameRules.HelloParses` | integrations/herdr/src/ws.ts:92-234 | the masked text frame of section 5.7 of RFC 6455 parses to the five bytes of Hello |
| `Frames.WebSocketFrameParser.ReadNext` | integrations/herdr/src/ws.ts:108-180 | same checks in the same order with the same error codes; takes exactly the frame's bytes off the buffer |
| `Frames.WebSocketFrameParser.Consume` | integrations/herdr/src/ws.ts:182-234 | delivers control and text events, collects fragments up to the limit, rejects misplaced frames |
| `Frames.WebSocketFrameParser.PushChunk` | integrations/herdr/src/ws.ts:92-106 | one push returns the events of the frames it completes, or throws the code of the first offence and returns none of them; the parser is left as the specification says in both cases |
| `FrameStream.ParsingIgnoresCuts` | integrations/herdr/src/ws.ts:92-106 | cutting a stream anywhere changes neither whether it fails, nor the code, nor what is parsed before that, nor the parser left by a success |
| `FrameStream.ChunkIndependence` | integrations/herdr/src/ws.ts:92-106 | what the caller sees: every cut succeeds with all the events or every cut throws the same code; up to a failure the caller has exactly the events in the chunks before the failing one, and misses an event if and only if the failing chunk starts before the end of the frame that completes the last event |
| `FrameStream.DeliveryDependsOnCut` | integrations/herdr/src/ws.ts:92-106 | events before a failure do depend on the cut: a ping followed by an offence is handed over in two chunks and lost in one |
| `FrameStream.RetentionBound` | integrations/herdr/src/ws.ts:92-234 | after any pushes the fragment counter equals the stored bytes and is within the limit, and after a successful one fewer than 14 bytes plus the limit stay buffered |
| `FrameStream.RoundTrip` | integrations/herdr/src/ws.ts:32-234 | any messages, sent as masked frames in any fitting length form and any fragmentation with control frames between, cut into any chunks, are handed over as exactly those messages and events in order (sections 5.2 to 5.5 of RFC 6455) |
| `Lines.LineInspector.PushChunk` | packages/tegata-executor/src/mcp-host.ts:96-122 | one push of the line inspector, with its pieces kept apart, is one push of the specification on the joined bytes |
| `Lines.LineInspector.ScanLines` | packages/tegata-executor/src/mcp-host.ts:96-116 | the loop over newlines emits clean complete lines and stops exactly at a line that offends |
| `Lines.StreamInspected` | packages/tegata-executor/src/mcp-host.ts:79-134 | for every cutting of a stream: a leak is reported iff a complete line contains a needle or exceeds the limit or the tail exceeds it; without one, emitted lines and tail are the stream; no emitted line ever offends |
| `Lines.LinesExactly` | packages/tegata-executor/src/mcp-host.ts:96-116 | the complete lines are the stretches that begin at the start or after a newline, end in a newline and hold no other |
| `Lines.LeaksExactly` | packages/tegata-executor/src/mcp-host.ts:96-126 | by positions in the stream: it leaks if and only if such a stretch has more text than the limit or a needle stands in it, or what follows the last newline is over the limit |
| `Lines.FailureIsPermanent` | packages/tegata-executor/src/mcp-host.ts:97 | after a failure every further push reports it and emits nothing |
| `TokenPolling.PollDeadline` | packages/tegata-executor/src/oauth.ts:245-256 | the earliest of the code's lifetime, 45 seconds of polling, and the budget |
| `TokenPolling.PollForToken` | packages/tegata-executor/src/oauth.ts:291-333 | each request waits out the base interval plus five seconds per slow_down since the one before (since receipt for the first), is sent with its whole timeout before the deadline, and the loop ends; a token is returned iff the last answer held one (section 3.5 of RFC 8628) |
| `TokenPolling.PacedExactly` | packages/tegata-executor/src/oauth.ts:291-333 | in numbers: a request comes no earlier than the base interval plus 5000 ms for each slow_down so far after the one before, before the deadline, with 10000 ms or what is left as its timeout |
| `TokenPolling.RequestsBounded` | packages/tegata-executor/src/oauth.ts:291-333 | the number of requests times the base interval is below the time from receipt to deadline |
| `TokenPolling.PollingWindow` | packages/tegata-executor/src/oauth.ts:245-256 | with the deadline the grant computes, requests times interval stay below the code's lifetime and every request ends within the 45-second window |
| `TokenSession.OAuthProxySession.Schedule` | packages/tegata-executor/src/oauth.ts:451-465 | arms the timer only for tokens that expire and only while open, with the delay as Node takes it: 1 ms when it is over 2147483647 ms |
| `TokenSession.OAuthProxySession.FinishRefresh` | packages/tegata-executor/src/oauth.ts:466-495 | holds the new tokens before the header is replaced, keeps the old refresh token when none came, and reports failure unless close interrupted it |
| `TokenSession.OAuthProxySession.StartRevoke` | packages/tegata-executor/src/oauth.ts:392-409 | with an endpoint, sends the held access token and the refresh token if there is one, and nothing else; without one sends nothing |
| `TokenSession.RefreshDelay` | packages/tegata-executor/src/oauth.ts:370-376 | leaves at least half the lifetime, and never more than a minute before expiry |
| `TokenSession.RefreshesAreOrderly` | packages/tegata-executor/src/oauth.ts:451-495 | in every run at most one refresh is in progress, and one starts only while open, after no failure, and when its timer is due; the timer is due no earlier than the refresh time if and only if that was at most 2147483647 ms away when it was armed |
| `TokenSession.DelayFits` | packages/tegata-executor/src/oauth.ts:370-376 | for tokens armed as they are issued that is exactly a lifetime of at most 2147543647 ms |
| `TokenSession.LongLivedTokensRefreshAtOnce` | packages/tegata-executor/src/oauth.ts:456-464 | longer-lived tokens can be refreshed a millisecond after they are issued, before their refresh time |
| `TokenSession.LongLivedTokensRefreshAgain` | packages/tegata-executor/src/oauth.ts:466-487 | and again a millisecond after each such refresh |
| `TokenSession.ThirtyDayTokens` | packages/tegata-executor/src/oauth.ts:456-464 | so for tokens of thirty days, whose refresh time is 2591940000 ms after issuance |
| `TokenSession.NoRefreshAfterCloseOrFailure` | packages/tegata-executor/src/oauth.ts:451-508 | no refresh starts after close began or after a refresh failed |
| `TokenSession.CloseRevokesNewest` | packages/tegata-executor/src/oauth.ts:503-515 | what close sends for revocation is the access token, and the refresh token if any, of the newest token set ever obtained, even one a refresh brought while closing, and nothing else; none is obtained afterwards |
| `TokenSession.RevokedIsLast` | packages/tegata-executor/src/oauth.ts:509-512 | the event revoked is the last of the run, comes at most once, and only after the newest access token and refresh token were sent |
| `TokenSession.RefreshBringsIssued` | packages/tegata-executor/src/oauth.ts:335-364 | over any run, a refresh brings exactly what the provider issued, with the refresh token held so far where none was issued; it reports refreshed, or failed unless close has begun |
| `TokenSession.RunFollows` | packages/tegata-executor/src/oauth.ts:335-364 | once a refresh token is held one is always held; events, obtained tokens and the start of close are never undone (section 6 of RFC 6749) |
| `CdpProxy.ShimRuntime.PluginClosed` | integrations/herdr/src/shim.ts:426-432 | the end of the current connection forgets its requests and sessions; the end of another changes nothing |
| `CdpProxy.ShimRuntime.HandlePluginMessage` | integrations/herdr/src/shim.ts:485-571 | a message goes upstream exactly when it passes all checks on method, session and target, with a fresh id and, for a new target, the shim's context; otherwise it is blocked and nothing changes |
| `CdpProxy.ShimRuntime.HandleUpstreamMessage` | integrations/herdr/src/shim.ts:573-605 | a response is delivered once under the client's own id; events only for attached sessions and targets of the context |
| `CdpProxy.ShimRuntime.RecordResponse` | integrations/herdr/src/shim.ts:607-640 | an answer without an error adds its target for a creation, its session for an attachment, and a description of the shim's context for a query, and nothing else |
| `CdpProxy.ShimRuntime.AllowTargetEvent` | integrations/herdr/src/shim.ts:642-687 | by kind: which events pass; a session reported as detached, a target reported as destroyed leave the tables, and a description that names the shim's context enters them |
| `CdpProtocol.UpstreamIdsRepeatExactly` | integrations/herdr/src/shim.ts:222-226 | over any run, two forwarded requests share an id if and only if 2^53 - 1 ids or more had been handed out before the first |
| `CdpProtocol.UpstreamIdsFresh` | integrations/herdr/src/shim.ts:222-226 | so no two share one in a run that hands out at most 2^53 ids |
| `CdpProtocol.AnswersGoHome` | integrations/herdr/src/shim.ts:419-605 | over any run a request gets at most one answer, with its own id, on the very connection that sent it |
| `CdpProtocol.ResponseAnswersItsRequest` | integrations/herdr/src/shim.ts:573-590 | a response is passed on to the one request sent with its id, exactly while that request waits on an open connection |
| `CdpProtocol.TargetsStayInContext` | integrations/herdr/src/shim.ts:607-696 | in every state of every run all targets on record have the shim's context, the shim's own targets are on record, and a target is let through iff it is the login target or on record |
| `CdpProtocol.ForwardedStaysInContext` | integrations/herdr/src/shim.ts:485-571 | in every run, what is forwarded comes from the current connection, creates targets only in the shim's context, names only the login target or targets of that context, closes only the shim's own targets, and uses only attached sessions |
| `CdpHistory.AttachedExactly` | integrations/herdr/src/shim.ts:607-687 | over any run, a session is attached if and only if an attach request of the plugin brought it, and since then neither the connection closed, nor the shim stopped, nor the browser reported it detached |
| `CdpHistory.OwnTargetsExactly` | integrations/herdr/src/shim.ts:607-687 | over any run, a target is the shim's own if and only if a request of the plugin created it and it was not reported destroyed since |
| `EnvTemplate.Render` | crates/tegatad/src/main.rs:3623-3652 | the value is the one left-to-right cut of the template with its placeholders filled in, the flag says whether a scanned one was replaced, and the bytes reserved, the template's plus the openings times the longest value, suffice |
| `EnvTemplate.Substitute` | crates/tegatad/src/main.rs:3639-3650 | the loop never looks at a substituted value again |
| `EnvTemplate.ParseUnique` | crates/tegatad/src/main.rs:3639-3650 | when no placeholder is a prefix of another there is only one left-to-right cut |
| `EnvTemplate.OrderIndependent` | crates/tegatad/src/main.rs:3640-3643 | the order of the placeholder list does not matter when no placeholder is a prefix of another |
| `EnvTemplate.OrderMattersExactly` | crates/tegatad/src/main.rs:3640-3643 | a list is cut the same way in every order, for every template, if and only if no placeholder is a prefix of another |
| `EnvTemplate.RenderingFollowsOrder` | crates/tegatad/src/main.rs:3640-3643 | the rendered values then differ between two orders as well, unless the text of the shorter placeholder begins that of the longer |
| `EnvTemplate.CredentialValuesWellFormed` | crates/tegatad/src/main.rs:3569-3587 | the list built from a credential has no placeholder that is a prefix of another |
| `EnvTemplate.RenderingIsTheParse` | crates/tegatad/src/main.rs:3569-3652 | for a credential's values, in any order, what is computed is the only cut there is |
| `EnvTemplate.RenderingRules` | crates/tegatad/src/main.rs:3569-3652 | {{secret}} gives the password and {{totp}} the code, and a value that holds either is scanned for; {{username}} gives the user name, which is not; what follows is rendered on its own |
| `EnvTemplate.RenderingOfOthers` | crates/tegatad/src/main.rs:3639-3650 | any other character stands for itself, {{totp}} included when no code was asked for |
| `EnvTemplate.GreedyCountIsMaximal` | crates/tegatad/src/main.rs:3632 | counting from the left finds as many openings as any choice without overlap |
| `EnvTemplate.CountIsAttained` | crates/tegatad/src/main.rs:3632 | and that many are there without overlap |
| `EnvTemplate.WidthIsLeast` | crates/tegatad/src/main.rs:3627-3635 | a character counts the fewest bytes of UTF-8 that hold it (section 3 of RFC 3629) |
| `EnvTemplate.CapacitySuffices` | crates/tegatad/src/main.rs:3627-3635 | the rendered bytes never exceed the template's plus the openings times the longest value |

## Left out

- FrameStream.ChunkIndependence: speaks of a stream up to the first push that throws; the original then closes the connection and may still push later bytes into the parser until the socket is gone.
- SessionShutdowns.OneShutdownEach: counts the obligations of the critical sections; the original also shuts an executor down when releasing a single tab of it fails, with its browser still in the table until the executor's end is seen.
- TokenSession.RefreshesAreOrderly: delays are real numbers; that Node drops a fraction of a millisecond is not modelled.
- EnvTemplate.Render: the reserved capacity is an unbounded number; the saturating product and a sum beyond the machine word are not modelled.
- FrameStream.RoundTrip: text is kept as bytes with UTF-8 validity as a predicate, since the original's decoder also drops a leading byte order mark.
- ApprovalProtocol.AnswersFollowDecisions: taking the token and entering the request are one step of the model; in between, the original only waits for the lock.
- TokenPolling.PollForToken: times are real numbers and the clock does not run back; the classification of a token response is an arbitrary answer.
- TokenSession.OAuthProxySession.FinishRefresh: event handlers that throw are not modelled.
- Lines.StreamInspected: the needle list is given; dropping empty values and escaping them for JSON is not modelled.
- The listing of pending approvals and its order: a sort of summaries.
- Audit records, cookie storage, credential resolution, TOTP codes and the response scan: foreign calls or single-branch plumbing.
- Sockets, pipes, child processes, signals, the HTTP part of the shim and the WebSocket handshake: outcomes are arbitrary actions.
- The event hold and finish flags of the MCP relay: would only add easier members.
- Playwright page driving, snapshots and page scripts in the executor: depend on a browser.
- JSON and TOML shapes, configuration checks, the CLI, the Windows service, peer keys and the vault formats: plumbing or cryptography.
