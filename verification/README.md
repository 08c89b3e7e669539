# secretctl: a verified model of the broker

secretctl is a local broker that lets agents use credentials without being given
them. This project models the parts of it that carry state, branching or
arithmetic, and proves what they promise.

* `Domain`, `ByteStrings`, `Wrappers`: shared entities, state machines, byte encodings.
* `Audit`, `Ledger`: the keyed hash chain, its verifier, signed checkpoints, and the writer with its cursor.
* `Store`: the durable tables; every transaction is one all-or-nothing step, as a function and as a method of `SqliteStore`.
* `Verifier`: the gate in front of every secret, on a stored capability.
* `Broker`: all handlers as one state machine. Each handler is a thread that stops wherever the source lets go of a lock or
  commits a transaction; between any two steps any other handler may run, a write may fail, or the process may end.
* `BrokerFrame`: what each step may write, which thread it moves and where to, once for all results. `BrokerAuthority`,
  `BrokerOffers`, `BrokerReleases`, `BrokerBinding`, `BrokerCodes`, `BrokerClock`, `BrokerDurable`, `BrokerReach`: invariants
  over every run. `BrokerLive`: the blocks that loop over the broker's maps, in place.
* `BrokerMirror`, `BrokerCancel` with `BrokerOverwrite`, `BrokerReload`, `BrokerOutcome`: four properties that do not always
  hold, each with the exact condition. `BrokerOrder`: what is left of the first when handlers run one at a time.
* `BrokerProgress`, `BrokerRuns`: what one step does when it succeeds, and whole runs from an empty store: one that releases a
  one-time code, one for each of the four, and one that breaks the audit chain.
* `ContextDigest`: why a digest stands for its thirteen components.
* `PageText`, `PageView`, `PageProjection`, `PageSecrecy`: the page projection as a walker object, what it amounts to, and
  what it cannot reveal.
* `Channel`, `Framing`, `Cbor`, `Token`: the record layer over a hostile network, the two stream codecs, the capability token.
* `Policy`, `Grants`, `Totp`: policy evaluation, standing grants, one-time codes.

Time is an integer number of nanoseconds and is floored to seconds where the source does. Cryptography is ideal: hash and MAC
are parameters and results name the collision they would need; a sealed frame opens only under its own key and nonce; a
signature verifies only on what was signed. Clocks, pages, human choices, store failures and random identifiers are parameters
of the steps. An identifier that is drawn at random is modelled as the primary key sees it: a step with a used one fails.

Where the code and an obvious reading of it differ, the model follows the code, and a lemma says exactly when they differ: a
failed read of the latest audit hash (`Ledger.ReopenedLogContinues`, `BrokerDurable.EveryRunVerifies`), the verifier writing
"expired" over a terminal state (`Verifier.StateChangesAreEdges`), the last partial second of a deadline
(`Verifier.ValidityDisagreement`), version-zero audit records (`Audit.UnkeyedRecordIsAmbiguous`), memory and store between two
halves of a write (`BrokerMirror.BreaksExactly`), cancelled requests (`BrokerOverwrite.CancelSticksIff`), other policies after
a reload (`BrokerReload.KeepsOutIff`), reports on finished executions (`BrokerOutcome.LateReportIff`), equal directional keys
and failed encryptions (`Channel`), payloads of 4 GiB and more (`Framing.RoundTripIffLengthFits`), a grant inserted while
grants are being revoked (`Grants.InsertDuringRevocationSurvives`).

## Steps

The step functions of `Broker`, and the block of `crates/secretctld/src/state.rs` each of them models:

`Submit` 1398-1420; `BindAgent` 1422-1425; `MarkRequested` 1426-1437, with the clock it reads at 1572; `RecordRequested` 1599-1616; `CheckSession` 1618-1643; `Measure` 1645-1702; `Evaluate` 1704-1845; `Route` 1847-1853 and 2013-2042; `TouchGrant` 1854; `RecordGrantUse` 1855-1872; `StoreApproval` 1874-1919; `PublishApproval` 1920-1941; `GiveUp` 1439-1449; `Report` 1360-1373; `BeginDecide` 2108-2114; `Judge` 2115-2140; `StoreDecision` 2162-2188; `DropApproval` 2189-2201; `MintRow` 1275-1340; `PublishCapability` 1341-1353; `QueueOffer` 1354-1359; `BeginNext` 2340-2354; `PopOffer` 2356-2365; `InspectOffer` 2366-2461; `BeginConsume` 2708-2736; `Snapshot` 2737-2784; `ConsumeRow` 2814-2846; `WriteBack` 2847-2849; `TrackExecution` 2850-2861; `Release` 2863-3043; `BeginResult` 3050-3072; `FinishRow` 3093-3119; `WriteExecution` 3125-3166; `Cancel` 1973-2005; `SweepSessions` 3196-3211; `RevokeSessionEntries` 3231-3240; `ReloadRows` 3275-3299; `ReplacePolicy` 3300; `RevokePolicyEntries` 3301-3306; `RevokeRow` 3338-3360; `RevokeEntry` 3361-3364; `BeginOAuth` 2505-2516; `TakeOAuth` 2518-2539; `SpendOAuthRow` 2540-2551; `SpendOAuthEntry` 2552-2630; `RegisterSession` 2300-2311; `Heartbeat` 3180-3191; `ReportPage` 1238-1244; `RecordOther` 256-285; `WriteCheckpoint` 334-346; `Restart` 213-253; `CloseBrowser` 459-465; `InsertGrant` 290-316.

`DisableAgent` is lines 847-854 of `crates/secretctld/src/ui.rs`; `ListGrants` and `RevokeGrants` are what `ui_revoke_grants`
(`crates/secretctld/src/ui.rs` 796-815) does to the table, lines 1275-1292 of `crates/secretctl-store/src/repository.rs`.

`GiveUp` stands for every early return that ends with the request marked failed, `Report` for the write of a request's state
that ends most handlers.

## Model

| member | source | states |
|---|---|---|
| `Audit.EventPreimageInjective` | crates/secretctl-audit/src/chain.rs:16-52 | two keyed records with the same MAC input are the same record, up to an absent and an empty actor |
| `Audit.VerifyAuditChain` | crates/secretctl-audit/src/chain.rs:99-154 | the loop passes exactly the intact chains, and otherwise reports the fault of the first record that does not link |
| `Audit.CheckLink` | crates/secretctl-audit/src/chain.rs:106-151 | one round: sequence, previous hash, then version-zero or keyed hash, in this order |
| `Audit.VerifyAuditCheckpoints` | crates/secretctl-audit/src/chain.rs:189-226 | passes exactly when every checkpoint matches its event and its signature, and otherwise reports the first that does not |
| `Audit.CheckCheckpoint` | crates/secretctl-audit/src/chain.rs:195-223 | one round: the first event with that sequence, its hash and key version, a known signer, the signature |
| `Audit.SharedHashSharesHistory` | crates/secretctl-audit/src/chain.rs:99-154 | backward induction: two intact logs with one common hash agree on everything before it, or two of their records at the same place have different MAC inputs and the same MAC |
| `Audit.TamperEvidence` | crates/secretctl-audit/src/chain.rs:99-226 | two logs that verify under the same keys and satisfy one checkpoint agree up to it, or two of their records at the same place up to it collide, each under the key of its own version |
| `Audit.AbsentActorIsEmptyActor` | crates/secretctl-audit/src/chain.rs:48-48 | the reservation about actors is exact: an absent actor and an empty one are never told apart |
| `Audit.UnkeyedRecordIsAmbiguous` | crates/secretctl-audit/src/chain.rs:111-128 | the reservation about version zero is exact: another version-zero record could stand in its place with every hash unchanged if and only if the record has any text at all |
| `Audit.MessageIgnoresSignature` | crates/secretctl-audit/src/chain.rs:156-167 | what a checkpoint signs does not include its own signature |
| `Ledger.AuditWriter.constructor` | crates/secretctld/src/state.rs:213-231 | opening reads the cursor back from the table; a failed read of the hash reads as genesis |
| `Ledger.FindLatest` | crates/secretctl-store/src/repository.rs:907-927 | the row with the largest sequence number |
| `Ledger.AuditWriter.RecordAuditEvent` | crates/secretctld/src/state.rs:256-285 | the cursor moves exactly when the row is stored; a refused or lost write changes nothing |
| `Ledger.AuditWriter.WriteAuditCheckpoint` | crates/secretctld/src/state.rs:334-346 | signs the last sequence and hash under the cursor lock |
| `Ledger.AppendKeeps` | crates/secretctld/src/state.rs:256-285 | recording keeps cursor, chain and checkpoints valid, whether or not the write succeeds |
| `Ledger.CheckpointKeeps` | crates/secretctld/src/state.rs:318-347 | a checkpoint written by a process that has recorded something verifies |
| `Ledger.ReopenKeeps` | crates/secretctld/src/state.rs:213-231 | reopening a log that verifies leaves the cursor in step, unless there was a last hash other than genesis and it was not read |
| `Ledger.EveryRunVerifies` | crates/secretctld/src/state.rs:213-347 | over any sequence of records, checkpoints, failures and reopenings: the stored chain verifies if and only if no process that opened the log without reading its last hash, one other than genesis, ever stored a record, and then all checkpoints do |
| `Ledger.ReopenedLogContinues` | crates/secretctl-store/src/repository.rs:907-917 | after reopening an intact log, the next stored record continues the chain if and only if the latest hash was read or there was none |
| `Verifier.LiveCapability.VerifyAndConsume` | crates/secretctl-capability/src/verifier.rs:17-161 | the tests in their order, on the object itself; a failure changes at most the state, to expired |
| `Verifier.VerifyAccepts` | crates/secretctl-capability/src/verifier.rs:24-161 | success, without the order of the tests: own token, own claims, same context, live, uses left, inside the window |
| `Verifier.UseAccounting` | crates/secretctl-capability/src/verifier.rs:24-161 | over any attempts the use counter rises by the number of successes and never passes the allowance |
| `Verifier.TerminalNeverUsable` | crates/secretctl-capability/src/verifier.rs:72-96 | a consumed, expired or revoked capability never succeeds again |
| `Verifier.ReleaseWindow` | crates/secretctl-capability/src/verifier.rs:52-71 | a minted capability is accepted exactly when floor(now) lies in [iat - 1, floor(issued_at) + consume TTL) |
| `Verifier.ValidityDisagreement` | crates/secretctl-domain/src/entities.rs:379-388 | `is_valid_at` and the verifier disagree exactly in the last, partial second, deadline included |
| `Verifier.StateChangesAreEdges` | crates/secretctl-domain/src/states.rs:115-140 | the verifier leaves the state machine exactly when a late attempt meets a consumed or revoked capability |
| `Store.SqliteStore.ConsumeCapabilityWithExecution` | crates/secretctl-store/src/repository.rs:588-644 | step claim, test-and-set, execution row: all or nothing |
| `Store.SqliteStore.InsertCapabilityRow` | crates/secretctl-store/src/repository.rs:549-586 | the insert fails on a used id and otherwise adds the row |
| `Store.SqliteStore.ConsumeOAuthCapability` | crates/secretctl-store/src/repository.rs:709-720 | the same test-and-set without an execution |
| `Store.SqliteStore.RevokeCapabilityRow` | crates/secretctl-store/src/repository.rs:722-741 | only an issued or active row is revoked |
| `Store.SqliteStore.InsertApprovalRow` | crates/secretctl-store/src/repository.rs:396-421 | the insert fails on a used id |
| `Store.SqliteStore.UpdateApprovalRow` | crates/secretctl-store/src/repository.rs:443-468 | only a pending approval is decided, once |
| `Store.SqliteStore.FinishExecutionRow` | crates/secretctl-store/src/repository.rs:646-672 | only a consuming execution is finished |
| `Store.SqliteStore.RevokeCapabilitiesNotPolicy` | crates/secretctl-store/src/repository.rs:743-758 | exactly the live rows of other policies are revoked, and counted |
| `Store.SqliteStore.RecoverIncompleteState` | crates/secretctl-store/src/repository.rs:674-690 | every live capability expires and every running execution becomes indeterminate |
| `Store.ApplyKeeps` | crates/secretctl-store/src/repository.rs:588-771 | every transaction keeps uses bounded, executions and issuances matched, and moves rows only along the edges of the state machines |
| `Store.RunKeeps` | crates/secretctl-store/src/repository.rs:588-771 | over any sequence of transactions: uses bounded, at most one execution per capability, issuances one-to-one with TOTP executions |
| `Store.TerminalRowsAreFinal` | crates/secretctl-domain/src/states.rs:111-140 | a terminal capability row never changes again and no execution is started for it |
| `Store.FinishedExecutionsAreFinal` | crates/secretctl-domain/src/states.rs:218-251 | a terminal execution row never changes again |
| `Store.RecoveryEndsEverything` | crates/secretctl-store/src/repository.rs:674-690 | recovery leaves nothing usable and nothing running, and loses no use |
| `Store.ReloadSweepsExactly` | crates/secretctl-store/src/repository.rs:743-758 | a policy sweep leaves no live row of another policy and every other row as it was |
| `Store.RestartEndsCapabilities` | crates/secretctl-store/src/repository.rs:674-690 | nothing minted before a restart is consumed after it |
| `Store.ReloadEndsCapabilities` | crates/secretctl-store/src/repository.rs:743-758 | nothing minted under another policy is consumed after a committed reload |
| `Store.TimeStepsAreNotShared` | crates/secretctl-store/src/repository.rs:595-614 | two executions never share a time step of one credential; an issuance names the one execution that claimed it |
| `Store.LosingConsumeLeavesNothing` | crates/secretctl-store/src/repository.rs:595-643 | a consume that loses the race leaves neither an execution nor an issuance |
| `BrokerAuthority.SubmitKeeps` | crates/secretctld/src/state.rs:1398-1420 | a request id is claimed once, under the fingerprint lock |
| `BrokerAuthority.StoreApprovalKeeps` | crates/secretctld/src/state.rs:1874-1919 | the request's authority passes from its thread to the approval row |
| `BrokerAuthority.StoreDecisionKeeps` | crates/secretctld/src/state.rs:2162-2188 | whoever wins the test-and-set on a pending approval takes the authority over |
| `BrokerAuthority.MintRowKeeps` | crates/secretctld/src/state.rs:1319-1340 | the authority is spent on one capability row, or kept or lost with the failing handler |
| `BrokerAuthority.StepKeeps` | crates/secretctld/src/state.rs:1268-2214 | every step of every handler keeps each request's authority in one place |
| `BrokerAuthority.OneApprovalOneCapability` | crates/secretctld/src/state.rs:1396-1420 | in every interleaving, a request id leads to at most one approval and one capability in the lifetime of a process |
| `BrokerOffers.MintRowKeeps` | crates/secretctld/src/state.rs:1319-1340 | a new capability's offer belongs to the minting thread alone |
| `BrokerOffers.QueueOfferKeeps` | crates/secretctld/src/state.rs:1354-1359 | it is queued once, under the session of its binding |
| `BrokerOffers.PopOfferKeeps` | crates/secretctld/src/state.rs:2356-2365 | popping takes it out of the queue for good |
| `BrokerOffers.InspectOfferKeeps` | crates/secretctld/src/state.rs:2366-2461 | it is handed out or dropped, never put back |
| `BrokerOffers.StepKeeps` | crates/secretctld/src/state.rs:1341-2462 | every step keeps each offer in one place |
| `BrokerOffers.OneOfferToItsSession` | crates/secretctld/src/state.rs:2336-2462 | a capability is offered at most once, to the session it was minted for |
| `BrokerReleases.ConsumeRowKeeps` | crates/secretctld/src/state.rs:2814-2846 | the right to release comes with the committed execution row |
| `BrokerReleases.ReleaseKeeps` | crates/secretctld/src/state.rs:3008-3043 | it is spent when the fields are handed over, or lost |
| `BrokerReleases.OneExecutionPerRequest` | crates/secretctld/src/state.rs:2737-2861 | two execution rows are for different capabilities and, within one process, for different requests |
| `BrokerReleases.OneReleasePerRequest` | crates/secretctld/src/state.rs:2684-3044 | no capability ever releases a secret twice, and no request does in the lifetime of a process |
| `BrokerBinding.MeasureKeeps` | crates/secretctld/src/state.rs:1645-1702 | what is measured is a page reported within two seconds, of the origin asked for, in a session active and heard from within ten |
| `BrokerBinding.ApprovedIffConvincing` | crates/secretctld/src/state.rs:2115-2140 | a decision is an approval if and only if it was taken before the minute is over, echoes the same digest, meets the page that was measured, still fresh, and the human agrees, in person where presence is required |
| `BrokerBinding.MintRowKeeps` | crates/secretctld/src/state.rs:1268-1340 | every capability row is explained by a measurement of its own request and enough authority: no presence needed, a grant of the table that covers agent, credential, action, origin, risk and time, or a convincing approval |
| `BrokerBinding.LookupIsExact` | crates/secretctld/src/state.rs:2013-2042 | in every reachable state a request that needs presence goes on under a grant exactly when a scan of the whole table finds one that covers it |
| `BrokerBinding.ConsumeRowKeeps` | crates/secretctld/src/state.rs:2763-2846 | every execution is of a capability consumed in the context it is bound to, inside its release window |
| `BrokerBinding.StepKeeps` | crates/secretctld/src/state.rs:1567-2861 | every step keeps all of these explanations |
| `BrokerBinding.EveryConsumeIsBound` | crates/secretctld/src/state.rs:2013-2861 | every execution was in the very position measured for its request, on a fresh page in a live session, inside the release window the policy gave and, if presence was needed, under a grant that covers it and has its row or a timely approval of the same digest on a page still current |
| `BrokerClock.EveryMintIsTimely` | crates/secretctld/src/state.rs:1268-1340 | on a clock that does not go back, in every interleaving: measured, then approved where a human was asked, then issued |
| `BrokerBinding.OffersGoWhereMeasured` | crates/secretctld/src/state.rs:1354-1359 | an offer goes to the session whose page was measured |
| `BrokerFrame.StepFrame` | crates/secretctld/src/state.rs:213-3364 | no step writes anything but the parts listed for it |
| `BrokerFrame.StepMoves` | crates/secretctld/src/state.rs:1268-3364 | no step moves a thread but its own, and that one only from where the handler was to where it goes on |
| `BrokerFrame.ExamineClears` | crates/secretctl-capability/src/verifier.rs:17-161 | the snapshot that reaches the store is of a live entry, with uses left, in its own context, inside the window |
| `ContextDigest.ComputeContextDigest` | crates/secretctl-crypto/src/hash.rs:9-16 | the loop hashes the concatenation of the length-prefixed components |
| `ContextDigest.SamePreimageSameContext` | crates/secretctld/src/state.rs:1246-1266 | equal pre-images if and only if all thirteen components are equal |
| `ContextDigest.SameDigestSameAuthority` | crates/secretctld/src/state.rs:1246-1266 | what two authorisations with the same digest share, exactly; the request id is not part of it |
| `Domain.ActionTextInjective` | crates/secretctl-domain/src/actions.rs:18-26 | different actions have different names |
| `BrokerDurable.StepDb` | crates/secretctld/src/state.rs:1319-3119 | each step commits at most one store transaction, and this one |
| `BrokerDurable.StepLog` | crates/secretctld/src/state.rs:256-3119 | each step is at most one operation of the audit writer |
| `BrokerDurable.StepAudited` | crates/secretctld/src/state.rs:1319-3360 | every durable change a handler makes comes with exactly one audit record, or does not happen; only the OAuth callback and a restart are without |
| `BrokerDurable.ReleaseIsRecorded` | crates/secretctld/src/state.rs:3010-3043 | no secret is handed over without the record of its retrieval |
| `BrokerDurable.EveryRunIsSound` | crates/secretctl-store/src/repository.rs:588-771 | every interleaving keeps what the store's transactions keep |
| `BrokerDurable.EndedStaysEnded` | crates/secretctl-domain/src/states.rs:111-140 | a terminal row stays as it is, whatever handlers are in flight |
| `BrokerDurable.FinishedStaysFinished` | crates/secretctl-domain/src/states.rs:218-251 | so does a finished execution |
| `BrokerDurable.RestartEndsCapabilities` | crates/secretctl-store/src/repository.rs:674-690 | nothing minted before a restart is consumed after it, in any interleaving |
| `BrokerDurable.ReloadEndsCapabilities` | crates/secretctld/src/state.rs:3263-3308 | nothing minted under another policy is consumed once a reload has committed, even by handlers already past the verifier |
| `BrokerDurable.StepGrants` | crates/secretctl-store/src/repository.rs:1090-1292 | each step commits at most one operation on the grant table, and this one |
| `BrokerDurable.GrantsStayUnique` | crates/secretctl-store/src/repository.rs:1098-1113 | in every interleaving at most one grant of a tuple is live |
| `BrokerDurable.EveryRunVerifies` | crates/secretctld/src/state.rs:213-3119 | in every interleaving, whichever writes fail and however often the broker is restarted: the stored chain verifies if and only if no process that opened the log without reading its last hash, one other than genesis, ever stored a record, and then the checkpoints hold and the cursor is in step, or was opened so and is unused |
| `BrokerRuns.ChainBreaks` | crates/secretctld/src/state.rs:213-231 | such a run: a record, a restart that does not read the last hash, another record |
| `BrokerOrder.StepKeeps` | crates/secretctld/src/state.rs:1333-3363 | one handler at a time: every usable-looking entry has its row, or is about to be written by the handler in flight |
| `BrokerOrder.MemoryMirrorsStore` | crates/secretctld/src/state.rs:1333-3363 | between handlers run one at a time, every live entry has a live row with the same use count, allowance and policy |
| `BrokerMirror.BreaksExactly` | crates/secretctld/src/state.rs:1319-3363 | from a state where every live entry has a matching live row, a step loses the match if and only if it is on the list: publishing a capability whose row has ended, or committing the end of a row, by consume, revocation, reload or OAuth callback, while its entry is live |
| `BrokerMirror.MirrorHoldsIffNoneBreaks` | crates/secretctld/src/state.rs:1319-3363 | from an empty store, in every interleaving and across restarts: the match holds all along if and only if no step is on the list when taken |
| `BrokerRuns.MirrorBreaks` | crates/secretctld/src/state.rs:1319-1353 | such a run: a revocation between the two halves of a mint leaves a live entry over a revoked row |
| `BrokerCancel.SettledRun` | crates/secretctld/src/state.rs:1968-2005 | where nothing is left that can report on a cancelled request, it stays cancelled in every continuation of the process |
| `BrokerOverwrite.CancelSticksIff` | crates/secretctld/src/state.rs:1968-2005 | in every reachable state, for every request that can be cancelled: it stays cancelled in every continuation of the process if and only if no thread carries it, no pending approval, tracked execution or OAuth flow is its |
| `BrokerRuns.CancelIsOverwritten` | crates/secretctld/src/state.rs:1354-1373 | such a run: cancelled between mint and offer, the request is reported as issued; its capability stays revoked |
| `BrokerReload.StaleRowIff` | crates/secretctld/src/state.rs:3263-3308 | in every reachable state: before the next reload or restart a live row of another policy can appear if and only if that policy is in force or about to be, or a request it judged is on its way |
| `BrokerReload.KeepsOutIff` | crates/secretctld/src/state.rs:3263-3308 | in every reachable state, inside a reload or not: no capability of another policy is live or consumed until the next reload if and only if none is live and nothing is exposed |
| `BrokerReload.ReloadKeepsOutIff` | crates/secretctld/src/state.rs:3275-3299 | at the commit of any reload: it keeps other policies out if and only if no other policy is in force or about to be and no request judged by one is past evaluation or waits for approval |
| `BrokerReload.GapIsOpen` | crates/secretctld/src/state.rs:3299-3300 | so a reload that changes the policy never does: until the policy is replaced, a request that is still to come is authorised by the old one |
| `BrokerRuns.ReloadIsOvertaken` | crates/secretctld/src/state.rs:3263-3308 | such a run: a reload runs to its end between judgement and mint, and a capability of the old policy is live under the new one |
| `BrokerOutcome.MemoryOutcomes` | crates/secretctld/src/state.rs:3050-3166 | in every reachable state the outcome in memory is the one of the row, or not there yet, or lost evidence |
| `BrokerOutcome.LateReportIff` | crates/secretctld/src/state.rs:3093-3143 | a report on a finished row, with any other handlers in between, changes the outcome in memory if and only if it reports success, a record of it can be made and the evidence is not lost already; otherwise it changes nothing, and the row never |
| `BrokerRuns.OutcomeIsRewritten` | crates/secretctld/src/state.rs:3046-3143 | such a run: success is reported twice; memory ends with lost evidence, the row with completed |
| `BrokerRuns.ReachesRelease` | crates/secretctld/src/state.rs:1396-3044 | the broker can do what it is for: a run from an empty store in which an offer goes out, an execution starts and a one-time code is released |
| `BrokerLive.LiveBroker.CancelRequest` | crates/secretctld/src/state.rs:1968-2005 | the loop over the entries is the one cancel step; says whether it cancelled |
| `BrokerLive.LiveBroker.CloseStaleSessions` | crates/secretctld/src/state.rs:3195-3211 | exactly the active sessions silent for ten seconds are closed and reported |
| `BrokerLive.LiveBroker.RevokeStaleEntries` | crates/secretctld/src/state.rs:3231-3240 | what those sessions held is revoked, nothing else |
| `BrokerLive.LiveBroker.RevokeAgentEntries` | crates/secretctld/src/ui.rs:847-854 | what a disabled agent held is revoked in memory, nothing else |
| `BrokerLive.LiveBroker.TerminateSessions` | crates/secretctld/src/state.rs:459-465 | the sessions of a closed browser end, no others |
| `BrokerLive.LiveBroker.RevokeOtherEntries` | crates/secretctld/src/state.rs:3301-3306 | the entries of other policies are revoked, nothing else |
| `BrokerLive.LiveBroker.NextOffer` | crates/secretctld/src/state.rs:2355-2461 | the polling loop is a run of pop and inspect steps that nothing cuts into, each round with its own reading of clock and recipe |
| `BrokerLive.PollTakesFirstUsable` | crates/secretctld/src/state.rs:2355-2461 | it drops everything up to the first capability that can still be consumed when its turn comes, takes that one, and hands it out if its recipe can be used |
| `PageText.CollapseWhitespace` | crates/secretctld/src/dom_view.rs:492-515 | the loop computes the collapsed text |
| `PageText.CollapseIsClean` | crates/secretctld/src/dom_view.rs:492-515 | only visible characters and single spaces between them survive |
| `PageText.CollapseIsIdempotent` | crates/secretctld/src/dom_view.rs:492-515 | collapsing twice is collapsing once |
| `PageView.Walker.PushRun` | crates/secretctld/src/dom_view.rs:279-297 | one text run: an unchecked separator, then characters up to the limit |
| `PageView.Walker.RecordElement` | crates/secretctld/src/dom_view.rs:235-277 | one control, unless the list is full |
| `PageView.Walker.Visit` | crates/secretctld/src/dom_view.rs:190-233 | the recursive walk feeds exactly the items of the tree, in document order |
| `PageView.Walker.VisitChildren` | crates/secretctld/src/dom_view.rs:223-227 | so does its loop over children |
| `PageView.Clamped` | crates/secretctld/src/dom_view.rs:53-60 | limits are clamped to 1..250 nodes and 1..20000 characters |
| `PageProjection.Project` | crates/secretctld/src/dom_view.rs:121-142 | walk, then strip trailing spaces |
| `PageProjection.CappedWalkIsPrefix` | crates/secretctld/src/dom_view.rs:121-297 | text and nodes are prefixes of the uncapped text and list, flagged exactly when there was more |
| `PageProjection.ReferenceSpells` | crates/secretctld/src/dom_view.rs:483-490 | two references are equal exactly when position and identity digest are |
| `PageProjection.ReferencesAreDistinct` | crates/secretctld/src/dom_view.rs:261-277 | references in one projection are pairwise distinct |
| `PageProjection.SmallerLimitsShowAPrefix` | crates/secretctld/src/dom_view.rs:235-260 | a smaller limit shows a prefix of what a larger one shows |
| `PageProjection.SnapshotResolves` | crates/secretctld/src/state.rs:820-845 | what a snapshot shows, whatever limits it was asked for with, resolves to that very node while the page is unchanged |
| `PageProjection.ResolvedIsTheSame` | crates/secretctld/src/dom_view.rs:150-157 | on any later page a reference that resolves names the same position with the same identity digest |
| `PageProjection.ResolveByName` | crates/secretctld/src/dom_view.rs:161-186 | a name resolves exactly when one element matches: never a guess |
| `PageSecrecy.BlankingKeepsProtection` | crates/secretctld/src/dom_view.rs:339-364 | emptying labels does not change what is protected |
| `PageSecrecy.NamesIgnoreRedaction` | crates/secretctld/src/dom_view.rs:443-479 | an open element's name uses nothing from protected or non-content descendants |
| `PageSecrecy.NothingProtectedIsShown` | crates/secretctld/src/dom_view.rs:190-277 | below a protected element nothing is shown but nameless controls |
| `PageSecrecy.ProjectionIgnoresRedaction` | crates/secretctld/src/dom_view.rs:190-479 | projecting a page is projecting it with everything protected, non-content or framed blanked out |
| `PageSecrecy.IndistinguishablePages` | crates/secretctld/src/dom_view.rs:190-479 | two pages that differ only there have the same projection |
| `Channel.SecureChannel.Encrypt` | crates/secretctl-crypto/src/channel.rs:63-73 | the counter is advanced, with a check, before the cipher runs |
| `Channel.SecureChannel.Decrypt` | crates/secretctl-crypto/src/channel.rs:75-88 | a rejected frame leaves the receiver unchanged |
| `Channel.NonceInjective` | crates/secretctl-crypto/src/channel.rs:57-61 | different counters have different nonces |
| `Channel.AcceptedIsPrefixOfSent` | crates/secretctl-crypto/src/channel.rs:16-88 | over a hostile network each side accepts a prefix of what the other sealed, given distinct directional keys |
| `Channel.NoNonceReuse` | crates/secretctl-crypto/src/channel.rs:63-73 | no key and nonce are used twice, up to the last counter value |
| `Channel.EqualKeysReuseAndReflect` | crates/secretctl-crypto/src/channel.rs:37-55 | the condition on the keys is exact: with equal keys nonces repeat and frames reflect |
| `Channel.ProgressIffSealed` | crates/secretctl-crypto/src/channel.rs:75-88 | a receiver can go on if and only if its peer sealed something under the awaited counter |
| `Channel.LostNonceStopsTheReceiver` | crates/secretctl-crypto/src/channel.rs:63-73 | a failed encryption uses its nonce up, and the receiver accepts nothing ever after |
| `Framing.FrameReader.Decode` | crates/secretctl-protocol/src/framing.rs:30-53 | one frame, or more bytes needed, or a refusal; never part of a frame |
| `Framing.FrameReader.Receive` | crates/secretctl-protocol/src/framing.rs:26-53 | one arrival drained to the end |
| `Framing.ReceiveAll` | crates/secretctl-native-host/src/framing.rs:13-43 | a whole list of arrivals; a refusal is final |
| `Framing.HeaderValue` | crates/secretctl-protocol/src/framing.rs:68-70 | a header holds the length modulo 2^32, in either byte order |
| `Framing.ChunkingIsInvisible` | crates/secretctl-protocol/src/framing.rs:30-53 | how the stream was cut makes no difference on any bytes, refusals included |
| `Framing.StreamRoundTrip` | crates/secretctl-native-host/src/framing.rs:13-62 | encoded payloads come out whole, in order, using every byte, however cut, for limits below 2^32 |
| `Framing.StandardStreamsRoundTrip` | crates/secretctl-protocol/src/framing.rs:5-24 | all three streams of the source have limits for which this holds |
| `Framing.RoundTripIffLengthFits` | crates/secretctl-protocol/src/framing.rs:60-73 | an accepted payload comes back if and only if its length fits 32 bits |
| `Cbor.HeadReadsBack` | crates/secretctl-capability/src/token.rs:200-247 | the smallest head of any value below 2^64 is read back |
| `Cbor.FieldsReadBack` | crates/secretctl-capability/src/token.rs:18-74 | a list of typed fields is read back whole |
| `Cbor.FieldsHaveKinds` | crates/secretctl-capability/src/token.rs:18-74 | nothing is read that the fields could not hold |
| `Token.WireReadsBack` | crates/secretctl-capability/src/token.rs:112-194 | claims survive the conversion to the wire record and back |
| `Token.PayloadIsCanonical` | crates/secretctl-capability/src/token.rs:278-281 | the payload decoder accepts exactly the canonical encodings of well-typed records |
| `Token.HeaderIsCanonical` | crates/secretctl-capability/src/token.rs:200-276 | so does the decoder of the protected header |
| `Token.SignatureStructureInjective` | crates/secretctl-capability/src/token.rs:212-222 | what is signed determines header and payload |
| `Token.Sign1ReadsBack` | crates/secretctl-capability/src/token.rs:224-247 | the outer structure is read back |
| `Token.DecodeCoseSign1` | crates/secretctl-capability/src/token.rs:249-264 | the step-by-step decoder is the specified one |
| `Token.TokenRoundTrip` | crates/secretctl-capability/src/token.rs:224-292 | decoding an encoded token gives the same claims |
| `Token.AcceptedIsCanonical` | crates/secretctl-capability/src/token.rs:249-292 | an accepted token's header and payload are the re-encodings of its key id and of a well-typed record with these claims, and no other payload decodes to that record |
| `Token.AcceptedWasMinted` | crates/secretctl-capability/src/token.rs:399-411 | if only minted structures were ever signed, accepted claims were minted, to the last field |
| `Policy.Evaluate` | crates/secretctl-policy/src/evaluator.rs:27-127 | the early-exit loop gives the first matching deny, else the first matching allow, else the default |
| `Policy.PermutationsAgree` | crates/secretctl-policy/src/evaluator.rs:38-127 | permuting the rules does not change the effect |
| `Policy.DenyOnlyTakesAway` | crates/secretctl-policy/src/evaluator.rs:85-102 | an added deny rule takes away exactly the allows it matches, wherever it is put |
| `Policy.TermsComeFromTheFirstAllow` | crates/secretctl-policy/src/evaluator.rs:104-127 | the terms, unlike the effect, come from the first matching allow |
| `Grants.GrantTable.InsertWithAudit` | crates/secretctl-store/src/repository.rs:1090-1135 | supersede, insert, record: all or nothing |
| `Grants.GrantTable.FindMatching` | crates/secretctl-store/src/repository.rs:1223-1247 | some live grant of the tuple, or none if there is none |
| `Grants.GrantTable.MatchingGrant` | crates/secretctld/src/state.rs:2013-2042 | on a table with one live grant per tuple, the lookup finds a covering grant exactly when a full scan would |
| `Grants.GrantTable.RevokeGrants` | crates/secretctl-store/src/repository.rs:1269-1292 | exactly the selected live grants are revoked and reported |
| `Grants.RunKeeps` | crates/secretctl-store/src/repository.rs:1090-1292 | over any run at most one live grant per tuple; no grant is lost or becomes another, and a revoked grant stays revoked |
| `Grants.InsertExtends` | crates/secretctl-store/src/repository.rs:1098-1113 | an insert replaces the tuple's live grant and touches no other tuple |
| `Grants.RevocationIsComplete` | crates/secretctl-store/src/repository.rs:1269-1292 | run in one go, a revocation leaves no selected grant live and touches no other |
| `Grants.InsertDuringRevocationSurvives` | crates/secretctl-store/src/repository.rs:1275-1289 | between its two locks an insert survives it, exactly if it is live and selected |
| `Totp.CodeHasItsDigits` | crates/secretctl-crypto/src/totp.rs:38-67 | a code has exactly the configured decimal digits and belongs to the step that contains the time |
| `Totp.CodeIffMargin` | crates/secretctl-crypto/src/totp.rs:43-48 | a code is made exactly when its step has two more seconds |
| `BrokerCodes.EveryCodeIsForItsClaim` | crates/secretctld/src/state.rs:2688-2915 | in every interleaving and across restarts a code that is handed over is the code of exactly the time step claimed in its issuance row, which contains the instant the consume was checked at; no two codes of a credential share a step, and where a step was claimed nothing but a code is released |
| `Totp.WaitingCrossesTheBoundary` | crates/secretctld/src/state.rs:2688-2705 | the wait ends in a later step, with margin unless it overslept into the next one |

## Left out

- Sockets, tasks, the browser pipe and its launch, key storage, the command line and the HTTP token exchange: input and output.
- The desktop applications, notifications and the listings in `ui.rs`: display. Of what it changes, disabling an agent and the
  grants are modelled; `ui_create_grant` goes on after any decision that was stored, so nothing here says that a grant was
  approved.
- The wait before a consume for one-time codes: the clock reading it ends with is the one the consume goes on with; what the
  wait achieves is said of the arithmetic alone.
- Clocks are arbitrary, also between two readings of one run, except in `BrokerClock`.
- Which OAuth steps and secret providers succeed, and the recipes' contents: parameters of the steps.
- Ciphers, signatures, MACs, hashes and key derivation: parameters; the two halves of the derived key are only assumed to differ where a lemma says so.
- URL, YAML, JSON and RFC 3339 parsing, Base64, Unicode lower-casing and UTF-8 validity: parameters or opaque text.
- The domain-separation strings, the audience and the recipe catalogue: parameters.
- Method allow-lists, key-name redaction, enrolment, presence providers and the risk table's values: one branch each. So is reading the digits (cut to 32 bits) and the period of a one-time code from metadata.
- The set of tabs under observation during an execution: a set, so two executions on one tab share one entry.
- `page_read_text` on an inner element: it starts the same walk there, with no protection inherited from above.
- Choosing the only matching managed page for `action.authenticate`: it ends in the same action request.
- Unique columns other than the keys (token hashes): their violation is one more way for a transaction to fail.
- `revoke_capabilities_for_session` is modelled as a store transaction; no handler calls it, so stale sessions are revoked in memory only.
- The frame number of the page is part of the digest and of the binding, but is not compared when an approval is decided.
- BrokerOrder.MemoryMirrorsStore: holds between handlers run one at a time, because interleaved it is false.
- PageSecrecy.ProjectionIgnoresRedaction: timing and the number of nodes under a protected element are not hidden; bare controls remain visible.
- Token.AcceptedIsCanonical: the outer array may use heads of any width, and several texts parse to one origin, so the token's own bytes are not determined.
- Totp.WaitingCrossesTheBoundary: the sleep is any number of whole seconds at least as long as asked for; its extra 50 milliseconds are not modelled.
- Update in place of the broker's maps is modelled for the blocks that loop; the other blocks are functions on the whole state, so that they can be interleaved.
