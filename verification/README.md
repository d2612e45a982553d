# Verification of the digital trust common service

A Dafny model of the service's concurrent core, with proofs about every run of it.
Tables are values, a database transaction is one atomic step, and external calls
are oracles whose answers are parameters: a backend may accept, definitively
reject, fail ambiguously or never answer, and a caller may crash between any two
steps. Theorems quantify over all interleavings.

| module | models |
|---|---|
| `StateMapping`, `ConnectorKinds`, `Wrappers` | shared state tables and small types |
| `ExchangeProgress` | the ranked states of a credential exchange |
| `ExchangeStore`, `IssueProtocol` | claim, submit and settle of a credential issuance, and its runs |
| `PublicationIntents` | the publication-intent table shared by registration workers |
| `RegistrationWorker`, `DefinitionLifecycle` | the resumable AnonCreds registration and the service's transactions on a definition |
| `RegistrationRuns`, `UndisturbedPass` | both together, statement by statement with the job queue, and their agreement with the worker |
| `PartitionKeys`, `ConnectorTable`, `ConnectorUpdates`, `PartitionCache` | log partitions: keys and scopes, the connector table, concurrent updates of it, the cache and its races |
| `GuardedOperations`, `LockOrder`, `BatchSettlement` | guarded transitions against the protocol worker, lock order, batch parents |
| `ConnectionEstablished` | connection transitions and the established report |
| `KeysetPagination`, `CsvExport`, `SessionLimit` | listing, export and session eviction |

Check everything with `dafny verify dfyconfig.toml`.

Assumptions. Time, randomness, HTTP answers, health checks and the identifier an
agent reports are parameters. Encryption is a sealed value that opens to what was
sealed, and the blind index is injective. The registration queue's policy
(`libs/pg-boss/src/queues/queue.constants.ts` lines 44 to 51) allows one waiting and
one running job per definition and no retry, and the purge queue's
(`apps/digital-trust-common-service/src/operation/operation-purge.service.ts` lines 31
to 37) one purge at a time. A definitive rejection means the backend did nothing, as
`libs/credential-ports/src/ports/issuer.port.ts` lines 10 to 18 state. A session
record carries no grant id of its own. The page limit is at least one, as the
query objects require.

Where code and prose differ, the model follows the code. The cursor keeps
milliseconds while the column keeps microseconds, so a page walk is not always
exact; `KeysetPagination` gives the exact condition and two failing inputs. A
comment calls accept and reject of one offer mutually exclusive; the index makes
them so only while one is in flight. `GuardedOperations` has a run in which both
complete, and the exact condition: a second action is admitted if and only if the
first is over. A batch parent is not always settled once its children are:
`BatchSettlement` gives the exact condition and a failing batch. A definition is not
always rescued by replaying its creation: `RegistrationRuns` gives the exact
condition. The lock order is free of deadlocks beside a purge if and only if the
purge never locks a new row that ranks below one it holds (exchange, then accept,
reject or issue, then offer, revoke or connection operation, then batch); expiry
order and the foreign keys do not ensure that. An offer purged before its accept, a
batch before its child, or an operation before the exchange naming it is such a
purge, and `LockOrder` has a deadlocked run for every one.

## Model

| member | source | states |
|---|---|---|
| `ExchangeProgress.RankNeverFalls` | apps/digital-trust-common-service/src/credential-exchange/credential-exchange.repository.ts:89-104 | over any run of observations the rank never falls, and a run that leaves the rank where it was left the state where it was |
| `ExchangeProgress.ReplayReachesTopRank` | apps/digital-trust-common-service/src/credential-exchange/credential-exchange.repository.ts:89-104 | a failure-free run ends at the highest rank among the starting state and everything observed |
| `ExchangeProgress.OrderAndDuplicationIrrelevant` | apps/digital-trust-common-service/src/credential-exchange/credential-exchange.repository.ts:89-104 | two failure-free histories over the same set of observations, however ordered or repeated, end at the same rank |
| `ExchangeProgress.IssuedNeverFails` | apps/digital-trust-common-service/src/credential-exchange/credential-exchange.repository.ts:94-100 | once issued, received or done, no further observation makes the exchange failed or abandoned |
| `ExchangeProgress.FailureIsFinal` | apps/digital-trust-common-service/src/credential-exchange/credential-exchange.repository.ts:12-24 | nothing observed later moves an exchange off the top rank |
| `ExchangeProgress.FailsExactlyWhenFailureComesFirst` | apps/digital-trust-common-service/src/credential-exchange/credential-exchange.repository.ts:89-104 | an exchange that has not issued fails if and only if the first decisive observation is a failure, and then keeps that very failure |
| `ExchangeProgress.FirstDecisiveDecides` | apps/digital-trust-common-service/src/credential-exchange/credential-exchange.repository.ts:89-104 | the first decisive observation alone settles whether an exchange stays undecided, fails or issues |
| `ExchangeProgress.EntersAtMostOnce` | apps/digital-trust-common-service/src/credential-exchange/credential-exchange.repository.ts:89-104 | no state is entered twice in any run, so request-received is entered at most once |
| `ExchangeStore.Database.ClaimIssue` | apps/digital-trust-common-service/src/credential-exchange/credential-exchange.service.ts:178-228 | the locked claim transaction: who may claim, what a claim writes, and that every other outcome writes nothing |
| `ExchangeStore.Database.ReleaseIssue` | apps/digital-trust-common-service/src/credential-exchange/credential-exchange.service.ts:243-273 | the rejection transaction: reopens only for the caller still named by a submitting row and only if its operation could be failed |
| `ExchangeStore.Database.ObserveExchange` | apps/digital-trust-common-service/src/credential-exchange/credential-exchange.repository.ts:117-151 | correlation conflicts abort with no change; otherwise the row binds, advances and settles its submission together |
| `ExchangeStore.Database.ApplyDelivery` | apps/digital-trust-common-service/src/protocol-state-change/protocol-state-change.service.ts:115-156 | an observation conflict rolls back the whole delivery; otherwise observation, announcement and operation outcome land together |
| `ExchangeStore.Database.SubmitClaimed` | apps/digital-trust-common-service/src/credential-exchange/credential-exchange.service.ts:232-273 | a claim sends one request, and each reply (success, definitive rejection, ambiguous failure) leaves its own submission state and operation state |
| `ExchangeStore.Database.Issue` | apps/digital-trust-common-service/src/credential-exchange/credential-exchange.service.ts:164-303 | an undisturbed call reaches the backend exactly when the exchange is issuable; which results mean nothing changed; what each reply leaves behind |
| `IssueProtocol.NextKeepsInv` | apps/digital-trust-common-service/src/credential-exchange/credential-exchange.service.ts:164-303 | claiming, sending, replying, crashing, settling, observing, failing and purging all keep the protocol invariant |
| `IssueProtocol.RunKeepsInv` | apps/digital-trust-common-service/src/credential-exchange/credential-exchange.service.ts:164-303 | every interleaving of any number of calls, deliveries, crashes and purges keeps the protocol invariant |
| `IssueProtocol.AtMostOnePossiblyEffectiveRequest` | apps/digital-trust-common-service/src/credential-exchange/credential-exchange.service.ts:178-241 | in every run, of two requests to the same backend exchange the earlier was definitively refused |
| `IssueProtocol.SendsOnlyAfterEveryRefusal` | apps/digital-trust-common-service/src/credential-exchange/credential-exchange.service.ts:232-241 | at the moment a request is sent, every earlier request to that backend exchange has been definitively refused |
| `IssueProtocol.OneRowPerBackend` | apps/digital-trust-common-service/src/credential-exchange/credential-exchange.repository.ts:124-136 | requests to one backend exchange all belong to one exchange row |
| `IssueProtocol.SupersededOperationsFailed` | apps/digital-trust-common-service/src/credential-exchange/credential-exchange.service.ts:305-326 | in every reachable state each issue operation that is not failed is the one its exchange names, and that exchange is closed to submission |
| `IssueProtocol.ReopeningIsAtomic` | apps/digital-trust-common-service/src/credential-exchange/credential-exchange.service.ts:243-273 | whatever step reopens an exchange also fails its processing operation, enqueues exactly one failure notice, and changes nothing else |
| `IssueProtocol.AnnouncedAtMostOnce` | apps/digital-trust-common-service/src/protocol-state-change/protocol-state-change.service.ts:136-150 | over any run a failure and a holder request are each announced at most once, and a row at request-received has been announced |
| `IssueProtocol.BackendBindingIsPermanent` | apps/digital-trust-common-service/src/credential-exchange/credential-exchange.repository.ts:132-136 | once bound to a backend exchange, no run rebinds an exchange |
| `IssueProtocol.OpenExchangeCanBeSubmitted` | apps/digital-trust-common-service/src/credential-exchange/credential-exchange.service.ts:178-241 | an exchange that was reopened can be claimed and submitted again |
| `PublicationIntents.IntentTable.Claim` | apps/digital-trust-common-service/src/credential-definition/anoncreds-credential-definition-registration.worker.ts:334-362 | a key is claimed exactly when it is absent or was conclusively rejected |
| `PublicationIntents.IntentTable.Publish` | apps/digital-trust-common-service/src/credential-definition/anoncreds-credential-definition-registration.worker.ts:334-420 | the backend is called exactly when the key could be claimed; the key is open again exactly when the call was conclusively rejected; other keys are untouched |
| `PublicationIntents.RunKeepsInv` | apps/digital-trust-common-service/src/credential-definition/anoncreds-credential-definition-registration.worker.ts:334-435 | any number of workers, crashing anywhere, keep the intent table honest about every call made |
| `PublicationIntents.RepublishedOnlyAfterRejection` | apps/digital-trust-common-service/src/credential-definition/anoncreds-credential-definition-registration.worker.ts:334-435 | across all workers, of two publish calls for one key the earlier was conclusively rejected |
| `PublicationIntents.UnrejectedCallClosesKey` | apps/digital-trust-common-service/src/credential-definition/anoncreds-credential-definition-registration.worker.ts:334-435 | a key with an unanswered, doubtful or accepted call admits no further claim |
| `RegistrationWorker.Worker.SaveProgress` | apps/digital-trust-common-service/src/credential-definition/anoncreds-credential-definition-registration.worker.ts:472-486 | progress is saved only while the definition is active |
| `RegistrationWorker.Worker.PersistWaiting` | apps/digital-trust-common-service/src/credential-definition/anoncreds-credential-definition-registration.worker.ts:488-504 | waiting past the check limit becomes a failure with no follow-up |
| `RegistrationWorker.Worker.PersistFailure` | apps/digital-trust-common-service/src/credential-definition/anoncreds-credential-definition-registration.worker.ts:506-521 | a failure fails definition and operation together and schedules nothing |
| `RegistrationWorker.Worker.AdvanceSchema` | apps/digital-trust-common-service/src/credential-definition/anoncreds-credential-definition-registration.worker.ts:264-323 | a schema id is returned exactly when the schema stage settles; a finished schema is neither changed nor published again; definition keys stay as claimable as they were |
| `RegistrationWorker.Worker.AdvanceDefinition` | apps/digital-trust-common-service/src/credential-definition/anoncreds-credential-definition-registration.worker.ts:184-246 | the definition settles exactly when its stage does, with the recorded id as external id, and is published only without an earlier submission |
| `RegistrationWorker.Worker.RunStages` | apps/digital-trust-common-service/src/credential-definition/anoncreds-credential-definition-registration.worker.ts:173-262 | the stages run in order against the first one not done; settling means finished schema, finished definition and verified revocation when enabled |
| `RegistrationWorker.Worker.Advance` | apps/digital-trust-common-service/src/credential-definition/anoncreds-credential-definition-registration.worker.ts:173-262 | a pass ends ready, pending or failed as its stages say, with the operation completed, processing or failed in the same transaction |
| `DefinitionLifecycle.DefinitionRow.Update` | apps/digital-trust-common-service/src/credential-definition/credential-definition.service.ts:610-724 | an edit that is refused saves nothing; an accepted one is exactly the permitted change |
| `DefinitionLifecycle.DefinitionRow.ContinueExisting` | apps/digital-trust-common-service/src/credential-definition/credential-definition.service.ts:306-424 | a repeated create request resumes, replays or conflicts, and a conflict changes nothing |
| `PartitionKeys.BindingKeysInjective` | apps/digital-trust-common-service/src/common/agent-log-partition-key.ts:26-39 | a binding key names one connector type and one agent identifier |
| `PartitionKeys.AgentKeysInjective` | apps/digital-trust-common-service/src/common/agent-log-partition-key.ts:41-48 | an agent partition names one connector type and one agent identifier |
| `PartitionKeys.TenantKeysInjective` | apps/digital-trust-common-service/src/log-access/log-partition-key.ts:14-20 | a tenant partition names one tenant |
| `PartitionKeys.NamespacesDisjoint` | apps/digital-trust-common-service/src/log-access/log-partition-key.ts:14-20 | no tenant partition is an agent partition |
| `PartitionKeys.DerivedKeysAreSafe` | apps/digital-trust-common-service/src/log-access/log-partition-key.ts:27-29 | every derived key passes the guard in front of the scope |
| `PartitionKeys.Distinct` | apps/digital-trust-common-service/src/log-access/log-access.service.ts:60-63 | the same keys, none twice |
| `PartitionKeys.SplitUndoesJoin` | apps/digital-trust-common-service/src/log-access/log-access.service.ts:70 | splitting a joined scope gives back its keys |
| `PartitionKeys.ScopeReadsBackExactly` | apps/digital-trust-common-service/src/log-access/log-access.service.ts:33-71 | a granted scope splits into the tenant's own key and then each agent key once, at most ten in all |
| `ConnectorTable.ApplyWriteKeepsTable` | apps/digital-trust-common-service/src/connector/connector.service.ts:77-642 | create, update, rotation, delete and deactivation keep ids unique, each stored hash that of the stored agent id, and active bindings unique |
| `ConnectorTable.RunKeepsTable` | apps/digital-trust-common-service/src/connector/connector.service.ts:77-642 | the same for every sequence of writes |
| `ConnectorTable.BuiltUpdatesKeepBinding` | apps/digital-trust-common-service/src/connector/connector.service.ts:433-550 | an update's hash is that of the identifier it stores, and a bound connector stays bound |
| `ConnectorTable.UpdateAcceptedIff` | apps/digital-trust-common-service/src/connector/connector.service.ts:433-589 | exactly when an update is accepted, over every request and every answer of the outside world |
| `ConnectorTable.UpdateReplacesOnlyGivenFields` | apps/digital-trust-common-service/src/connector/connector.service.ts:433-550 | an accepted update replaces the fields it was given, takes the identifier from the health check, and leaves the rest of the row alone |
| `ConnectorTable.CreatedConnectorIsServed` | apps/digital-trust-common-service/src/connector/connector.service.ts:77-113 | a committed create was healthy and well bound, and its partition is resolved at once |
| `ConnectorTable.DeactivatedTenantResolvesNothing` | apps/digital-trust-common-service/src/connector/connector.repository.ts:168-174 | a deactivated tenant resolves no agent partition |
| `ConnectorTable.BindingsAreNeverErased` | apps/digital-trust-common-service/src/connector/connector.service.ts:561-589 | no write but a delete leaves a bound connector without a binding |
| `ConnectorTable.ResolvesExactlyServed` | apps/digital-trust-common-service/src/log-access/connector-agent-log-partition.resolver.ts:26-80 | a tenant resolves a partition exactly when one of its active connectors stores the identifier behind it |
| `ConnectorTable.OneConnectorPerPartition` | apps/digital-trust-common-service/src/connector/connector.entity.ts:23-26 | at most one active connector, of any tenant, is bound to a partition |
| `ConnectorTable.PartitionsAreDisjoint` | apps/digital-trust-common-service/src/log-access/connector-agent-log-partition.resolver.ts:26-80 | two tenants never resolve the same agent partition |
| `ConnectorTable.ScopesOfTenantsAreDisjoint` | apps/digital-trust-common-service/src/log-access/log-access.service.ts:33-71 | in every reachable table the scopes of two tenants, read back, share no partition |
| `ConnectorTable.WritesStayInTheirTenant` | apps/digital-trust-common-service/src/connector/connector.service.ts:256-284 | a write leaves every other tenant's partitions as they were, and a key rotation leaves everyone's |
| `ConnectorTable.Connectors.CommitIfUnchanged` | apps/digital-trust-common-service/src/connector/connector.repository.ts:130-160 | the compare under lock detects every change to the row, including its hash, which is not compared; the write happens only on an unchanged row and only if the unique index allows it |
| `ConnectorTable.Connectors.Attempt` | apps/digital-trust-common-service/src/connector/connector.service.ts:386-424 | one attempt writes nothing on rejection, commits one atomic patch of the row it was built from, or hands back the changed row |
| `ConnectorTable.Connectors.Update` | apps/digital-trust-common-service/src/connector/connector.service.ts:376-431 | under arbitrary interference a successful update is one atomic patch of the row current at its commit; every error says why and leaves only others' writes; a conflict means the row changed in each of three windows |
| `ConnectorTable.ReadPartitions` | apps/digital-trust-common-service/src/log-access/connector-agent-log-partition.resolver.ts:36-76 | the gathering loop returns exactly the tenant's partitions, or fails as a whole |
| `PartitionCache.AgentLogPartitionCache.Get` | apps/digital-trust-common-service/src/log-access/agent-log-partition.cache.ts:33-46 | serves exactly an unexpired slot and drops an expired one |
| `PartitionCache.AgentLogPartitionCache.Set` | apps/digital-trust-common-service/src/log-access/agent-log-partition.cache.ts:48-78 | rejects a lookup older than the window, ignores one overtaken by an invalidation, otherwise stores within the bound |
| `PartitionCache.AgentLogPartitionCache.Invalidate` | apps/digital-trust-common-service/src/log-access/agent-log-partition.cache.ts:80-83 | drops the tenant's slot and outdates every ticket |
| `PartitionCache.StoredResultIsServed` | apps/digital-trust-common-service/src/log-access/agent-log-partition.cache.ts:48-78 | a stored result is what its tenant is served until its time comes, and not after |
| `PartitionCache.StoringEvictsOnlyTheOldest` | apps/digital-trust-common-service/src/log-access/agent-log-partition.cache.ts:64-71 | storing costs another tenant its slot only when the cache is full and that slot is the oldest |
| `PartitionCache.InvalidationForcesFreshRead` | apps/digital-trust-common-service/src/log-access/agent-log-partition.cache.ts:80-83 | after an invalidation the tenant misses, others are served as before, and no earlier ticket can store |
| `PartitionCache.RunKeepsInv` | apps/digital-trust-common-service/src/log-access/connector-agent-log-partition.resolver.ts:26-80 | every interleaving of lookups, commits, invalidations and clock ticks keeps cache and lookups backed by the datastore |
| `PartitionCache.HitsAreCurrentOnceWritersFinish` | apps/digital-trust-common-service/src/connector/connector.service.ts:115-134 | when no writer of a tenant sits between commit and invalidation, a hit equals a fresh resolution |
| `PartitionCache.AnswersAreNeverStale` | apps/digital-trust-common-service/src/log-access/agent-log-partition.cache.ts:33-60 | every answer given, cached or not, is what the datastore resolved to less than the window earlier |
| `PartitionCache.CacheStaysBounded` | apps/digital-trust-common-service/src/log-access/agent-log-partition.cache.ts:64-71 | at most 1000 slots, one per tenant, in every reachable state |
| `GuardedOperations.Database.ExecuteAction` | apps/digital-trust-common-service/src/credential/credential-action.service.ts:285-391 | the write that ends a holder action notifies exactly when it won with a terminal state |
| `GuardedOperations.Database.CompleteRevoke` | apps/digital-trust-common-service/src/credential/credential-revoke.service.ts:290-348 | operation, credential and notice change together exactly when the operation is in flight and the credential issued; otherwise nothing changes |
| `GuardedOperations.Database.ProcessDelivery` | apps/digital-trust-common-service/src/protocol-state-change/protocol-state-change.service.ts:80-215 | a delivery reports a transition exactly when it changed something |
| `GuardedOperations.Latest` | apps/digital-trust-common-service/src/operation/operation.repository.ts:101-115 | finds a matching operation if there is one |
| `GuardedOperations.LatestIsNewest` | apps/digital-trust-common-service/src/operation/operation.repository.ts:101-115 | what is found is the newest match |
| `GuardedOperations.RunKeepsInv` | apps/digital-trust-common-service/src/credential/credential-action.service.ts:76-391 | any number of accept, reject and revoke requests racing the worker keep the ledger of settlements and the one-in-flight slots |
| `GuardedOperations.SettledAtMostOnce` | apps/digital-trust-common-service/src/operation/operation.repository.ts:247-266 | in every run each operation becomes terminal at most once, and its row says how |
| `GuardedOperations.TerminalForever` | apps/digital-trust-common-service/src/protocol-state-change/state-mapping.ts:78-83 | a terminal operation never changes again |
| `GuardedOperations.AnnouncedExactlyWhenWon` | apps/digital-trust-common-service/src/credential/credential-action.service.ts:285-326 | in every run the terminal notices are exactly the won terminal writes, one for one, service and worker apart |
| `GuardedOperations.CompletedRevocationMeansRevoked` | apps/digital-trust-common-service/src/credential/credential-revoke.service.ts:290-348 | a revocation completed by the service has its credential revoked in every later state |
| `GuardedOperations.OneActionInFlight` | libs/database/src/migrations/000028_add-operation-inflight-holder-action-unique-index.ts:19-24 | no exchange ever has two holder actions, or two revocations, in flight |
| `GuardedOperations.AdmittedIffNoneInFlight` | apps/digital-trust-common-service/src/credential/credential-action.service.ts:111-184 | a request that found nothing to resume creates its operation if and only if no accept or reject (for a revocation, no revocation) of the exchange is in flight; otherwise it is refused and writes nothing |
| `GuardedOperations.ActionsTakeTurns` | apps/digital-trust-common-service/src/credential/credential-action.service.ts:145-181 | whenever an exchange has two holder actions, or two revocations, the earlier was over when the later was created, and is unchanged since |
| `GuardedOperations.AcceptedThenRejected` | apps/digital-trust-common-service/src/credential/credential-action.service.ts:201-214 | an offer accepted and then rejected, both completed: not mutually exclusive once the first is over |
| `GuardedOperations.IssuedCanOnlyBeRevoked` | apps/digital-trust-common-service/src/protocol-state-change/state-mapping.ts:102-111 | a credential once issued stays issued or becomes revoked, whatever is delivered late |
| `BatchSettlement.WithoutLockParentIsStranded` | apps/digital-trust-common-service/src/operation/operation.repository.ts:408-419 | without the row lock there is a run that ends with every child terminal and the parent never settled |
| `ConnectionEstablished.Connection.TransitionConnectionState` | apps/digital-trust-common-service/src/connection/connection-state-transition.ts:5-27 | moves strictly forward or not at all, and reports established exactly on the move that first connects |
| `ConnectionEstablished.Connection.Reconcile` | apps/digital-trust-common-service/src/connection/connection.repository.ts:52-106 | reports established exactly on the move that first connects, and moves only a matching row in a requested state |
| `ConnectionEstablished.Connection.Abandon` | apps/digital-trust-common-service/src/connection/connection.repository.ts:260-269 | abandons anything but a completed connection |
| `ConnectionEstablished.ReportMarksFirstConnection` | apps/digital-trust-common-service/src/connection/connection-state-transition.ts:5-27 | the reporting step is the first one to reach active or completed |
| `ConnectionEstablished.FinalStatesStay` | apps/digital-trust-common-service/src/protocol-state-change/state-mapping.ts:113-120 | completed and abandoned ignore everything that still arrives |
| `KeysetPagination.PageIsPrefix` | apps/digital-trust-common-service/src/audit-log/audit-log.repository.ts:98-110 | a page is the first rows after the cursor; it announces more exactly when there are more |
| `KeysetPagination.WalkIsOrdered` | apps/digital-trust-common-service/src/audit-log/audit-log.repository.ts:74-113 | a walk over a changing table returns rows in strict order, each present when read |
| `KeysetPagination.WalkIsComplete` | apps/digital-trust-common-service/src/connection/connection.repository.ts:161-213 | a finished walk misses no row present at every read |
| `KeysetPagination.WalkReturnsLastingRowsOnce` | apps/digital-trust-common-service/src/audit-log/audit-log.repository.ts:74-113 | at millisecond resolution, in either direction, a finished walk returns every row present throughout exactly once, in strict order |
| `KeysetPagination.MicrosecondWalkIsExactIff` | apps/digital-trust-common-service/src/connection/connection.repository.ts:161-213 | with microseconds, walking an unchanging table is exact if and only if every page boundary is a clean cut, in either direction |
| `KeysetPagination.DescendingWalkCanLoseRows` | apps/digital-trust-common-service/src/audit-log/audit-log.repository.ts:85-110 | a concrete newest-first walk that loses a row |
| `KeysetPagination.AscendingWalkCanRepeat` | apps/digital-trust-common-service/src/connection/connection.repository.ts:189-210 | a concrete oldest-first walk that returns one page for ever |
| `CsvExport.FieldReadsBack` | apps/digital-trust-common-service/src/audit-log/audit-log.service.ts:139-146 | an escaped cell parses to the neutralised cell, leaving what follows |
| `CsvExport.ExportReadsBack` | apps/digital-trust-common-service/src/audit-log/audit-log.service.ts:98-137 | parsing an export gives the header and, for any cell text, exactly the neutralised cells of every row, column by column |
| `CsvExport.NoCellIsAFormula` | apps/digital-trust-common-service/src/audit-log/audit-log.service.ts:139-146 | no exported cell opens with a formula character |
| `CsvExport.NeutraliseMergesOnly` | apps/digital-trust-common-service/src/audit-log/audit-log.service.ts:139-142 | two values export alike exactly when they are equal or one is the other, a formula, with a quote in front |
| `SessionLimit.OidcModels.Enforce` | libs/oidc/src/session-limit.service.ts:49-93 | a positive limit holds afterwards; the new session survives; of the others exactly the newest are left, as many as fit; nothing hangs off an evicted grant; zero changes nothing |
| `SessionLimit.SurplusIsOldest` | libs/oidc/src/oidc-account-session.repository.ts:283-316 | every session kept is newer than every session evicted, and eviction stops when the room is full |
| `SessionLimit.ExtractGrantIds` | libs/oidc/src/oidc-account-session.repository.ts:339-353 | exactly the grants named by the authorizations |
| `ExchangeProgress.SeparatorIsIrrelevant` | apps/digital-trust-common-service/src/credential-exchange/credential-exchange.repository.ts:125 | spellings of a wire state that differ only in underscores and dashes are one observation |
| `ExchangeStore.UnknownStateMovesNothing` | apps/digital-trust-common-service/src/credential-exchange/credential-exchange.repository.ts:136-149 | a state the service does not know binds the row to its backend exchange and changes neither state, submission nor outbox |
| `RegistrationWorker.Worker.Process` | apps/digital-trust-common-service/src/credential-definition/anoncreds-credential-definition-registration.worker.ts:95-171 | a job with nothing but deletions in between: what it may change, the state it ends in, and exactly which publish calls it made |
| `DefinitionLifecycle.EditIsOnward` | apps/digital-trust-common-service/src/credential-definition/credential-definition.service.ts:610-724 | an accepted edit undoes nothing the lifecycle protects |
| `DefinitionLifecycle.ReplayIsOnward` | apps/digital-trust-common-service/src/credential-definition/credential-definition.service.ts:306-465 | a replayed create request undoes nothing the lifecycle protects |
| `RegistrationRuns.NextKeepsInv` | apps/digital-trust-common-service/src/credential-definition/anoncreds-credential-definition-registration.worker.ts:95-262 | each transaction and backend reply of a pass, each crash, and each edit, replay, deletion or purge between them keeps the worker's copy good for the row and the lifecycle moving forward |
| `RegistrationRuns.RunIsOnward` | apps/digital-trust-common-service/src/credential-definition/credential-definition.service.ts:610-724 | between any two moments of any run, crashes and interruptions included, status only moved forward; out of draft, schema, connector and options never changed; a finished schema kept its id; ready stayed ready |
| `RegistrationRuns.BecomesReadyOnlyRegistered` | apps/digital-trust-common-service/src/credential-definition/anoncreds-credential-definition-registration.worker.ts:232-262 | in any run the step that makes a definition ready is the last transaction of a pass, with both artifacts recorded, the external id the definition's, revocation heard ready in that pass when enabled, and its operation completed |
| `RegistrationRuns.VerifiedMeansHeard` | apps/digital-trust-common-service/src/credential-definition/anoncreds-credential-definition-registration.worker.ts:245-256 | a pass counts as verified only from the moment the backend reported the registry ready to it |
| `RegistrationRuns.FinishedSchemaNeverRepublished` | apps/digital-trust-common-service/src/credential-definition/anoncreds-credential-definition-registration.worker.ts:264-332 | a schema recorded as finished is published by nothing that happens later |
| `RegistrationRuns.DefinitionFollowsSchema` | apps/digital-trust-common-service/src/credential-definition/anoncreds-credential-definition-registration.worker.ts:173-231 | over the whole life of a definition every publication of it named the one schema the row records as finished |
| `RegistrationRuns.FollowUpsAreBounded` | apps/digital-trust-common-service/src/credential-definition/anoncreds-credential-definition-registration.worker.ts:582-597 | over any run the jobs taken from the queue are bounded: 20 - c follow-ups of a job waiting at count c, and 21 jobs more per replayed create request |
| `RegistrationRuns.WorkIsBounded` | apps/digital-trust-common-service/src/credential-definition/anoncreds-credential-definition-registration.worker.ts:488-504 | the worker's steps on a definition are bounded over any run, with a fixed allowance per replay |
| `RegistrationRuns.OrphanedExactlyByDeath` | libs/pg-boss/src/queues/queue.constants.ts:44-51 | a pending definition loses its last job exactly when a job dies with none waiting: by a crash, or failing with its operation purged |
| `RegistrationRuns.ChainEndsSettled` | apps/digital-trust-common-service/src/credential-definition/anoncreds-credential-definition-registration.worker.ts:488-504 | unless a job dies, a definition whose queue has run empty is no longer pending |
| `RegistrationRuns.StrandedForever` | apps/digital-trust-common-service/src/credential-definition/credential-definition.service.ts:379-400 | a pending definition with no job whose row is inactive or whose operation is gone or failed stays so in every continuation |
| `RegistrationRuns.OrphanResumes` | apps/digital-trust-common-service/src/credential-definition/credential-definition.service.ts:379-400 | any other orphan is queued again by the create request that made it, and no stranded one is |
| `RegistrationRuns.PurgeUnderPassStrands` | apps/digital-trust-common-service/src/operation/operation.repository.ts:488-515 | purging the operation under a pass about to finish strands the definition |
| `RegistrationRuns.LifeFromCreation` | apps/digital-trust-common-service/src/credential-definition/credential-definition.service.ts:204-305 | from creation on, as a draft or to be registered, in every run: the invariant holds, every publication named the recorded schema, at most 21 jobs are taken plus 21 per replay, and unless a job dies an idle definition is not pending |
| `UndisturbedPass.UndisturbedJobMeetsVerdict` | apps/digital-trust-common-service/src/credential-definition/anoncreds-credential-definition-registration.worker.ts:95-262 | a job driven step by step to its end with nothing in between ends in exactly the state the worker's verdict names |
| `ConnectorUpdates.CommitIsPatch` | apps/digital-trust-common-service/src/connector/connector.service.ts:389-407 | a commit is the atomic patch of exactly the row it was built from, or changes no table |
| `ConnectorUpdates.UpdatesAreSerializable` | apps/digital-trust-common-service/src/connector/connector.service.ts:376-431 | over any run of any number of concurrent updates the table is the committed writes in commit order; a successful update is among them exactly once, as a patch of the connector and tenant it asked for with its own body, an unsuccessful one never |
| `GuardedOperations.Database.TransitionStateIfForward` | apps/digital-trust-common-service/src/operation/operation.service.ts:578-629 | a win raises the operation's rank and adds one ledger entry if terminal; a loss changes nothing; no other operation is touched |
| `GuardedOperations.Database.ExecuteOffer` | apps/digital-trust-common-service/src/credential/credential-offer.service.ts:550-733 | the offer call's own outcome moves operation, credential and notice together or nothing, and notifies exactly for a won terminal write |
| `LockOrder.EveryTransactionLocksInOrder` | apps/digital-trust-common-service/src/credential/credential-revoke.service.ts:282-348 | every variant of every transaction but a purge of several rows takes its row locks in strictly rising order: exchange, action, offer or revocation, batch, credential or connection |
| `LockOrder.NoDeadlock` | apps/digital-trust-common-service/src/credential/credential-offer.service.ts:550-733 | no interleaving of any number of transactions and one purge at a time reaches a waits-for cycle, if no purge locks a new row ranked below one it holds |
| `LockOrder.SomeTransactionCanAlwaysProceed` | apps/digital-trust-common-service/src/credential-exchange/credential-exchange.service.ts:178-273 | under the same condition, while any transaction is open some open one is not blocked |
| `LockOrder.NeverDeadlocksIffPurgesRise` | apps/digital-trust-common-service/src/operation/operation.repository.ts:488-515 | whatever lists of operations and exchanges the purges may carry: no run from the empty table reaches a waits-for cycle if and only if none of the lists falls in rank |
| `LockOrder.AlwaysProgressesIffPurgesRise` | apps/digital-trust-common-service/src/operation/operation-purge.service.ts:31-39 | some open transaction can always go on if and only if none of the lists falls in rank |
| `LockOrder.FallingPurgeDeadlocks` | libs/database/src/migrations/000006_create-operation-entity.ts:47-51 | for every purge list with a fall there is a run of that purge and one or two other transactions that all wait for each other |
| `LockOrder.PurgeRisesIff` | libs/database/src/migrations/000041_create-credential-exchanges.ts:20 | operations followed by the exchanges naming them do not fall exactly when the operations do not and there are no such exchanges |
| `LockOrder.PurgeAndReleaseCanDeadlock` | libs/database/src/migrations/000041_create-credential-exchanges.ts:20 | a purge of an operation its exchange still names, and the release of that exchange, can wait for each other |
| `BatchSettlement.SettledParentIsRight` | apps/digital-trust-common-service/src/protocol-state-change/protocol-state-change.service.ts:625-692 | whoever writes the children, a settled parent had every child terminal, states their verdict and was announced once |
| `BatchSettlement.StrandsExactly` | apps/digital-trust-common-service/src/protocol-state-change/protocol-state-change.service.ts:381-425 | exactly which steps leave every child terminal and the parent unsettled: a direct write of the last child, or a commit whose count had still seen a sibling in flight |
| `BatchSettlement.StrandedForever` | apps/digital-trust-common-service/src/protocol-state-change/protocol-state-change.service.ts:625-692 | nothing that can still happen settles such a batch |
| `BatchSettlement.SettledIffNothingStranded` | apps/digital-trust-common-service/src/protocol-state-change/protocol-state-change.service.ts:625-692 | over any run, once every child is terminal the parent is settled if and only if no such step happened |
| `BatchSettlement.AlwaysSettlesIffUnexposed` | apps/digital-trust-common-service/src/protocol-state-change/protocol-state-change.service.ts:321-344 | in every run the parent is settled exactly when every child is terminal, if and only if no child in flight shares its exchange with an action or has its own service call outstanding |
| `BatchSettlement.OneMirroredOfferStrands` | apps/digital-trust-common-service/src/protocol-state-change/protocol-state-change.service.ts:336-344 | a batch of one offer whose accept is confirmed in its place is never settled |
| `ConnectionEstablished.ReportedOncePerLife` | apps/digital-trust-common-service/src/protocol-state-change/protocol-state-change.service.ts:578-605 | over its whole life, rows made from a multi-use template included, a connection is reported established exactly once if it is ever connected, and otherwise never |
| `ConnectionEstablished.ReportedOnceIfEver` | apps/digital-trust-common-service/src/connection/connection-state-transition.ts:5-27 | the same from any moment on: once if the row, unconnected then, is ever connected, and otherwise never |
| `KeysetPagination.RowsAfterIsFilter` | apps/digital-trust-common-service/src/audit-log/audit-log.repository.ts:85-96 | a page query sees exactly the rows after its cursor |
| `KeysetPagination.DescendingReturnsUnlessJumped` | apps/digital-trust-common-service/src/audit-log/audit-log.repository.ts:85-110 | with microseconds and changing tables, a newest-first walk returns a lasting row once if no cut before it jumps over it, and otherwise never |
| `KeysetPagination.AscendingOnceUnlessResumed` | apps/digital-trust-common-service/src/connection/connection.repository.ts:161-213 | with microseconds and changing tables, a finished oldest-first walk returns a lasting row exactly once if and only if no later cut resumes at or before it |
| `SessionLimit.OidcModels.ClaimSurplusSessions` | libs/oidc/src/oidc-account-session.repository.ts:283-316 | every candidate kept is newer than every one evicted, and eviction goes on exactly until the rest fit |

## Left out

- Controllers, guards, DTO validation, logging, tracing, metrics, health and UI: no property of their own.
- Cryptography, JWT handling and remote adapters: abstract values and oracles.
- A registration job that outlives its queue lease while still running: the final write of a pass is not guarded on the registration state, so two passes at once are not modelled.
- The `stage` text column of a registration.
- Issuance profiles, presentation requests, tenants, role scopes, DIDs and the OpenID purge jobs: easier members of the same kinds.
- At-most-once adapter calls for accept, reject and revoke: recovery repeats the call by design.
- Agreement of caches across processes: only the window bounds it there. A commit whose acknowledgement is lost before the invalidation is not modelled either.
- Connector deletion's default-connector and foreign-key checks, and webhook registration after create: a delete that commits is one step, and a rollback of a failed create is the same step.
- The key rotations an update performs before and after its loop: they are writes of their own and part of the interference.
- Row locks taken implicitly by foreign keys other than the purge's, and locks of tenants, connectors and definitions, are not part of `LockOrder`.
- Creation of batch children: the model starts from a batch whose children exist and whose parent is processing.
- The effect of a purge on rows is modelled for issuance and registration only, and its row locks in `LockOrder`.
- `SKIP LOCKED` scheduling: enforcements of the session limit run one at a time.
- Tenant and attribute filters of the listings: a table is the rows that match.
- JSON and timestamp rendering of exported cells, and the row cap of the export query.
- ExchangeStore.Database.Issue: states the undisturbed call; interference is the subject of IssueProtocol.
- PublicationIntents.IntentTable.Publish: states the undisturbed attempt; interference is the subject of the runs in the same module.
- RegistrationWorker.Worker.Process: states the job disturbed by deletions only; every other interruption is the subject of RegistrationRuns.
- GuardedOperations.Database.ProcessDelivery: leaves out the exchange observation and the batch settlement of the same transaction, which ExchangeStore and BatchSettlement model.
