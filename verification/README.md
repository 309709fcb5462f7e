# Verification of the multi-tenant platform's coordination code

The platform keeps its promises across transactions, external stores and concurrent workers with
row locks, advisory locks, leases, fences, a hash chain and compensations. This project models that
code in Dafny and proves what it keeps. `dafny verify dfyconfig.toml` checks everything.

## How the models are built

Each protocol is a state (the rows, the locks on them, the external store, and how far every
operation in flight has come) and a function `Apply` that performs one step of one operation. A step
whose operation is somewhere else, or that has to wait for a lock, changes nothing. `Run` applies a
list of events, so a statement about every list is a statement about every interleaving, every
repeated or reordered delivery, and a crash between any two steps. Beside the state machine stands the
code itself, as methods of a class over the same columns, proved against the same decision functions.
History fields (who claimed an attempt, which source rows were ever committed, what became of every
generated secret name) are only read by theorems.

| file | what it models |
|---|---|
| `Provisioning.dfy` | operator-driven tenant provisioning: register, claim, fenced data-plane build, settle or fail, takeover of stale claims |
| `ConnectionTests.dfy` | connection-test jobs over an at-least-once queue: three transactions around unlocked network use, beside source changes |
| `AuditChain.dfy` | the per-tenant hash chain, its checkpoint trigger and `verify_chain` |
| `CredentialSaga.dfy` | data-source credentials in a secret store outside the database: put, compensate, rotate, disable, destroy |
| `OutboxRelay.dfy` | the transactional outbox and its concurrent relays |
| `PoolRegistry.dfy` | the bounded registry of per-tenant connection pools |
| `MetadataResolver.dfy` | the dependency loop that stores the demo metadata |
| `Decimals.dfy`, `Presentation.dfy`, `ExecutiveQuery.dfy` | exact decimals from the query service to the page: printing, reading, sums, rounding |
| `Egress.dfy` | the two egress decisions |
| `Digits.dfy`, `Wrappers.dfy` | decimal digit strings; optional values |

Assumptions. PostgreSQL row locks, advisory locks and unique keys work as documented, at read
committed isolation. Clock readings of one clock are parameters; the clocks of the pool registry and
of the credential saga do not go back. SHA-256 (section 6.2 of FIPS 180-4) is collision free: a digest is a constructor over its
inputs. Generated identifiers are fresh. A process learns the outcome of its own commit, except where
an event says otherwise (`seen` in `Provisioning.dfy`). Sums of decimals are exact.

## What the proofs found

* A deferred delivery commits. The early return for lack of a free slot leaves the session by the
  normal path, so an expired job is committed as queued and its slot is freed
  (`DeferralFreesExpiredSlot`); with a limit of one this is what keeps a tenant from blocking itself.
* `DataSourceService.update` checks the version at an unlocked read and writes later; `disable` reads
  again under a lock, but gets the row object of its first read back, values included. So a write that
  was overtaken by another one goes through and reuses a version number. `OneContentKeptIff` says
  exactly when a write leaves each version number standing for one content: when the row is still at
  the version it read, or when what it writes was committed before. `VersionsKeptIffHarmless` asks
  that the current row stays the newest as well: then it must write what is there already. Both start
  from a source whose rows are in order. `LostUpdateSplitsAVersion` is a run in
  which two updates are accepted at one version and a job ends as succeeded although the endpoint it
  tried is not the one its final transaction read. `CompletionIsFenced` and `EveryAccessIsFenced` hold
  all the same.
* The same unlocked read lets a rotation write a living credential onto a source whose credential was
  destroyed meanwhile (`LateRotationRevives`). `DestroyedIsGoneIffTimely` gives the exact condition, for
  each source by itself. A disable takes its time stamp before its locked write, so the thirty days of
  retention cover both requests: the secret stays gone when the longest rotation and the longest disable
  of the source together take less than that (`ShortRequestsKeepItGone`), and for no larger bounds
  (`RetentionIsTheBound`). The other promises about credentials hold of every run.
* Rotation never deletes the previous secret, and destruction covers only the reference on the row, so
  superseded secrets stay in the store for good (`SupersededSecretsAreKept`).
* Truncation is detected relative to the checkpoint. A chain cut and regrown past its old length is
  vouched for by the newer checkpoint; `RegrownChainVerdict` says exactly when it is still caught.
* The address chosen for an accepted name passes the peer check, on unchanged answers, exactly when
  the resolver spelled it canonically (`SelectedAddressPassesIffCanonical`, and `SelectedAddressMayFail`
  for an answer that is not). For a literal host reached at another address the two decisions can differ
  (`LiteralHostMayDisagree`); `LiteralHostAgreesIff` says exactly when they do not.
* With no dimension values and a metric of zero the query reaches `min` of an empty list
  (`ExecutiveQuery.Query` answers `Crash` exactly then), and the page calls an ungrouped answer
  reconciled only when the metric is zero.

## Model

| member | source | states |
|---|---|---|
| Provisioning.AttemptSecretNameInjective | apps/api/src/eip/dataplane/credentials.py:114-132 | no two attempts write the same secret, so a superseded attempt cannot overwrite its successor's password |
| Provisioning.ReadyMeansUsableCredential | apps/api/src/eip/dataplane/schema_per_tenant.py:135-232 | in every interleaving of operators, takeovers, rollbacks, lost connections and crashes, a ready tenant is active and its login role has exactly the password stored at the reference on its row |
| Provisioning.AttemptsBalance | apps/api/src/eip/identity/provisioning.py:344-529 | attempts equal failures recorded plus takeovers plus one if in progress plus one if ready; a tenant is announced as provisioned at most once, in both logs; reason, completion time, status and reference on the row agree with its state |
| Provisioning.AttemptNumbersAreOwned | apps/api/src/eip/identity/provisioning.py:344-395 | over every run each attempt number has one owner, for good, and no call owns two |
| Provisioning.SupersededAttemptIsInert | apps/api/src/eip/identity/provisioning.py:397-529 | a call whose attempt is no longer the one in progress changes neither row nor role nor logs, and neither adds nor changes any secret but its own |
| Provisioning.ClaimWinsIff | apps/api/src/eip/identity/provisioning.py:344-395 | after any history a new call's claim wins exactly when the row is free and pending, failed, or in progress with more than the takeover bound gone since the last winning claim; a win takes the next number and the row, a loss touches nothing |
| Provisioning.StartedAtIsLastWin | apps/api/src/eip/identity/provisioning.py:363-367 | the start time on the row is the one the last winning claim brought along |
| Provisioning.ReadyIsAbsorbing | apps/api/src/eip/identity/provisioning.py:344-395 | once ready, the row, the role, the stored password and the logs never change again, whatever calls follow |
| Provisioning.FreshAttemptEndsByItsOwner | apps/api/src/eip/identity/provisioning.py:344-545 | once a claim is won at a time, over any run whose claims come by that time plus the takeover bound, the row stays as the claim left it until the winner settles it or records its failure |
| Provisioning.NeverStuck | apps/api/src/eip/identity/provisioning.py:285-323 | after any history without a ready row, one undisturbed call that finds the row free, later than the takeover bound after the last winning claim, ends in ready with its own password on role and store |
| Provisioning.Recoverable | apps/api/src/eip/identity/provisioning.py:344-395 | an unready tenant can be finished at any time later than the takeover bound after the last winning claim: by the death of whoever holds its row, if anyone does, and one new call |
| Provisioning.RaisedCallIsRecorded | apps/api/src/eip/identity/provisioning.py:285-323 | a call whose build or settling raises leaves the row failed, unlocked and with the reason given, and nothing else changed |
| Provisioning.UnheardSettleStands | apps/api/src/eip/identity/provisioning.py:397-545 | a settling that committed although its call never heard of it stands: the failure recorded afterwards changes nothing |
| Provisioning.UnheardBuildFails | apps/api/src/eip/dataplane/schema_per_tenant.py:151-216 | a build that committed unheard keeps its role password and ends as failed; one that lost its connection frees the row and can write its own secret and nothing else |
| Provisioning.RunKeepsInv | apps/api/src/eip/identity/provisioning.py:285-529 | the invariants spanning row, lock, role, store and logs hold after every run |
| Provisioning.EveryReadyTenantIsUsable | apps/api/src/eip/identity/provisioning.py:222-283 | among any number of tenants, registered under unique slugs and provisioned concurrently, every ready one has a usable credential |
| Provisioning.TenantsRunAlone | apps/api/src/eip/identity/provisioning.py:222-529 | in every history of the platform each tenant goes through exactly its own events, whatever happens to others |
| Provisioning.TenantPlane.Claim | apps/api/src/eip/identity/provisioning.py:344-395 | the conditional UPDATE wins exactly when the row is free to claim, writes its own time stamp and the next number, and otherwise reports what it found and writes nothing |
| Provisioning.TenantPlane.Fence | apps/api/src/eip/dataplane/schema_per_tenant.py:151-170 | the attempt fence passes exactly for the attempt in progress and then holds the row |
| Provisioning.TenantPlane.BuildPlane | apps/api/src/eip/dataplane/schema_per_tenant.py:171-216 | secret, role and commit under one row lock: only a fenced call gets a handle, and then role and stored secret agree; a call that lost its connection can still write its own secret and nothing else |
| Provisioning.TenantPlane.Settle | apps/api/src/eip/identity/provisioning.py:397-469 | settling writes the ready row with its time and reference, the event and the message together, exactly for the attempt in progress |
| Provisioning.TenantPlane.RecordFailure | apps/api/src/eip/identity/provisioning.py:471-545 | a failure is recorded, with its reason, in row, event and message exactly on the attempt in progress; nothing else changes |
| Provisioning.TenantDirectory.Register | apps/api/src/eip/identity/provisioning.py:222-283 | registering is idempotent by slug: a new row, adoption of an unfinished one, or refusal, and slugs stay unique |
| ConnectionTests.OneTerminalNoticePerJob | apps/worker/src/eip_worker/connection_tests.py:96-302 | a job has exactly one terminal audit event and one terminal message iff it succeeded or failed, of the matching kind, and never more than one even after pruning, under duplicate, reordered, expired and killed deliveries |
| ConnectionTests.RunningNeverExceedsLimit | apps/worker/src/eip_worker/connection_tests.py:96-152 | committed running jobs of a tenant never exceed the configured concurrency, with row lock, advisory lock, count and commit as separate steps |
| ConnectionTests.TerminalIsForever | apps/worker/src/eip_worker/connection_tests.py:117-118 | a terminal row never changes again and its id is never used for another job |
| ConnectionTests.DeferralFreesExpiredSlot | apps/worker/src/eip_worker/connection_tests.py:120-152 | a delivery deferred at the limit still commits its own expired job as queued, which frees one slot |
| ConnectionTests.LeaseDecides | apps/worker/src/eip_worker/connection_tests.py:96-136 | after any history, until the reading at which a running job was claimed plus the lease, every other delivery that decides on it ends deferred and leaves no trace; from then on a fitting one goes on to wait for a slot and any other ends the job as stale |
| ConnectionTests.FreeSlotIsTaken | apps/worker/src/eip_worker/connection_tests.py:137-152 | a delivery that waits for a slot and finds fewer running jobs than the limit gets its job, with a lease from its own reading |
| ConnectionTests.LeasesAreKnown | apps/worker/src/eip_worker/connection_tests.py:147-152 | over every run a running job's start and lease are those of the delivery that claimed it last |
| ConnectionTests.DeliveriesStartAndEndQuietly | apps/worker/src/eip_worker/connection_tests.py:96-104 | a delivery that has only read has changed nothing, and one that has returned changes nothing any more |
| ConnectionTests.OutdatedDeliveriesEnd | apps/worker/src/eip_worker/connection_tests.py:160-235 | a delivery whose job or source has moved on ends before the network or after it, ends the job as stale if its attempt still runs, tells no log and uses nothing |
| ConnectionTests.CurrentDeliveriesGoOn | apps/worker/src/eip_worker/connection_tests.py:157-178 | a delivery that is still current before the network is used goes on with the source it read |
| ConnectionTests.CurrentResultsAreKept | apps/worker/src/eip_worker/connection_tests.py:206-302 | one that is still current afterwards ends its job with the connector's status and code and one notice in each log |
| ConnectionTests.CompletionIsFenced | apps/worker/src/eip_worker/connection_tests.py:160-235 | a job succeeds or fails only in a final transaction that read its source active at the job's version, and with a source row that was committed, active, at that version |
| ConnectionTests.EveryAccessIsFenced | apps/worker/src/eip_worker/connection_tests.py:157-202 | every use of a credential and the network was for a source read active at the version its job asked for |
| ConnectionTests.RunKeepsVersions | apps/api/src/eip/connectivity/service.py:192-271 | while no write to a source overtakes another one harmfully, each version number of that source stands for one content, whatever happens to other sources |
| ConnectionTests.VersionsKeptIffHarmless | apps/api/src/eip/connectivity/service.py:203-271 | a write keeps one content to a version and the current row the newest exactly when the row is still at the version it read or it writes what is there already |
| ConnectionTests.OneContentKeptIff | apps/api/src/eip/connectivity/service.py:203-271 | a write leaves each version number standing for one content, the current row the newest or not, exactly when the row is still at the version it read or what it writes was committed before |
| ConnectionTests.VersionReusedIffReadIsStale | apps/api/src/eip/connectivity/service.py:205-232 | a write reuses a version number exactly when the row is no longer at the version it read |
| ConnectionTests.LostUpdateSplitsAVersion | apps/api/src/eip/connectivity/service.py:203-232 | a run from an empty tenant in which one version number gets two contents and a job succeeds with a row other than the one its final transaction read |
| ConnectionTests.CompletionUsedTheCurrentRow | apps/worker/src/eip_worker/connection_tests.py:160-235 | when no write to the job's own source was harmful, the endpoint and reference a finished job used are those of the row its final transaction read |
| ConnectionTests.RunKeepsInv | apps/worker/src/eip_worker/connection_tests.py:96-302 | lock ownership, the lifecycle columns, the concurrency bound and the notice counts hold after every run |
| ConnectionTests.PerformKeepsBound | apps/worker/src/eip_worker/connection_tests.py:137-152 | the bound rests on the advisory lock: a count taken under it stays an upper bound until the claim commits |
| ConnectionTests.StepFits | apps/worker/src/eip_worker/connection_tests.py:96-302 | every step keeps what it has locked, writes only a live row it has locked, with legal lifecycle columns, and tells both logs exactly when it completes |
| ConnectionTests.RequestedExactlyOnce | apps/api/src/eip/api/routers/connection_tests.py:69-105 | over every run each job ever issued was announced exactly once in each log and no other id ever was; no two live jobs share an idempotency key |
| ConnectionTests.RequestFitsItsMessage | apps/api/src/eip/api/routers/connection_tests.py:69-105 | a request is served exactly for an active source under a key no live job has, and then its own message, delivered at once, fits the job and waits for a slot |
| ConnectionTests.LiveJobsAreKept | apps/worker/src/eip_worker/maintenance.py:91-96 | no step removes the row of a queued or running job |
| ConnectionTests.FinishedJobsArePruned | apps/worker/src/eip_worker/maintenance.py:91-96 | pruning removes a finished row that nobody has locked and nothing else |
| ConnectionTests.EqualColumnsAreNotWritten | apps/api/src/eip/connectivity/service.py:209-234 | a column set to the value it was read with keeps what another write has put there since |
| ConnectionTests.UndisturbedUpdate | apps/api/src/eip/connectivity/service.py:192-238 | an update that nothing overtakes sets exactly what was asked for, one version up, and is refused unless the source is active and at the expected version |
| ConnectionTests.UndisturbedDisable | apps/api/src/eip/connectivity/service.py:240-271 | a disable that nothing overtakes sets the status, one version up, and keeps the content |
| ConnectionTests.ConnectionTestWorker.ClaimJob | apps/worker/src/eip_worker/connection_tests.py:96-152 | the claiming transaction with all of its exits, in terms of the job's columns: denied, already finished, deferred while the lease lasts, stale, deferred without a slot but requeued, or running with a fresh lease |
| ConnectionTests.ConnectionTestWorker.FenceExecution | apps/worker/src/eip_worker/connection_tests.py:160-178 | a source is handed on exactly when job and source are still current; otherwise the job goes stale, with its lease cleared, if this attempt still runs |
| ConnectionTests.ConnectionTestWorker.SettleResult | apps/worker/src/eip_worker/connection_tests.py:206-302 | the final transaction settles a current job with status, code, time and one notice in each log; otherwise it ends the attempt as stale or leaves everything alone |
| ConnectionTests.ConnectionTestWorker.Execute | apps/worker/src/eip_worker/connection_tests.py:85-302 | an undisturbed delivery completes exactly when its job is live, current, unleased and within the limit, with one use of the credential; any other uses none |
| AuditChain.IntactIffMatchesHead | apps/api/src/eip/governance/audit.py:382-462 | INTACT means exactly: numbers 1 to n, each row hashed over its fields and its predecessor, and the last row is the checkpoint |
| AuditChain.CheckpointDeterminesChain | apps/api/src/eip/governance/audit.py:108-156 | two lists that verify against the same checkpoint are equal in every hashed field |
| AuditChain.ReadSelectsAndSorts | apps/api/src/eip/governance/audit.py:374-380 | what is verified is exactly the tenant's rows of the whole table, each once, by ascending number |
| AuditChain.ReplacementIsLocated | apps/api/src/eip/governance/audit.py:374-462 | replacing any stored row by any other the unique constraint admits, hashes recomputed or not, is caught, with the exact answer: given to another tenant it counts as deleted, a new number is a gap, and under its own number it is a mutation at the row or the one behind it, or a mismatch with the checkpoint |
| AuditChain.MutationIsLocated | apps/api/src/eip/governance/audit.py:406-443 | rewriting any row's content and leaving the hashes alone is reported as a mutation at that row |
| AuditChain.DeletionIsClassified | apps/api/src/eip/governance/audit.py:382-462 | deleting any rows of an intact chain gives ERASED (OFFBOARDED if marked), TRUNCATED with the exact number missing, or GAP at the first survivor above the smallest deleted number |
| AuditChain.SurvivorOrNone | apps/api/src/eip/governance/audit.py:406-443 | the cases of the deletion theorem are exhaustive |
| AuditChain.RegrownChainVerdict | apps/api/src/eip/governance/audit.py:445-462 | the exact answer for a chain that was cut and then appended to: caught below the checkpoint's length, caught at it unless identical, vouched for beyond it |
| AuditChain.CheckpointDecides | apps/api/src/eip/governance/audit.py:382-462 | without a checkpoint any row at all is reported as CHECKPOINT_MISSING; with one, a chain without defects is truncated or does not match it exactly when it says so |
| AuditChain.OffboardingIsTold | apps/api/src/eip/governance/audit.py:393-404 | the offboarding mark tells a sanctioned erasure from any other and changes no other answer |
| AuditChain.CheckpointIsHighWaterMark | apps/api/migrations/versions/0002_isolation_audit.py:129-156 | over any run of appends, deletions and offboarding the checkpoint is the highest number ever inserted, and INTACT implies that many rows |
| AuditChain.ConcurrentRecordsStayIntact | apps/api/src/eip/governance/audit.py:159-252 | however transactions of all tenants interleave, commit and roll back, each chain is free of forks and verifies INTACT, or EMPTY when nothing was recorded |
| AuditChain.EmptyWorld | apps/api/src/eip/governance/audit.py:159-252 | an empty database meets the hypothesis of the theorem on concurrent recorders |
| AuditChain.RowsAreWhatWasRecorded | apps/api/src/eip/governance/audit.py:171-252 | from an empty database, over every interleaving, the rows of a tenant carry, in the order of the commits and numbered 1 to n, exactly the contents its committed transactions recorded |
| AuditChain.LockTakenIff | apps/api/src/eip/governance/audit.py:159-169 | a recorder waits exactly while a chain of the same key, the tenant's id modulo two to the thirty-first, is locked |
| AuditChain.LocksEndWithTheirTransaction | apps/api/src/eip/governance/audit.py:159-169 | a transaction that ends gives back its own locks and no others |
| AuditChain.ChainsAreIndependent | apps/api/src/eip/governance/audit.py:159-169 | a transaction changes only the chains it wrote to, rows and checkpoint, only when it commits, and only by appending |
| AuditChain.AuditLog.AdvanceHead | apps/api/migrations/versions/0002_isolation_audit.py:129-156 | the trigger moves the checkpoint to a strictly larger number only |
| AuditChain.AuditLog.RecordEvent | apps/api/src/eip/governance/audit.py:171-252 | recording appends one row with the next number, the predecessor's hash and exactly the content given, and carries the checkpoint along |
| AuditChain.AuditLog.VerifyChain | apps/api/src/eip/governance/audit.py:332-462 | the verifying loop returns the first defect in order, and otherwise what the checkpoint says |
| CredentialSaga.CredentialsFollowTheirRows | apps/api/src/eip/connectivity/service.py:130-271 | over every run, late requests included: an active source's secret is in the store; a destroyed source was disabled at least thirty days earlier and has exactly one audit event, no other source has any |
| CredentialSaga.DestroyedIsGoneIffTimely | apps/worker/src/eip_worker/maintenance.py:60-89 | over every run, a destroyed source has its secret gone exactly when no rotation of that very source committed after the destruction |
| CredentialSaga.ShortRequestsKeepItGone | apps/api/src/eip/connectivity/service.py:203-271 | it is gone when the longest rotation and the longest disable of the source, each from its read to its commit, together take less than the thirty days of retention |
| CredentialSaga.RetentionIsTheBound | apps/api/src/eip/connectivity/service.py:203-271 | bounds on the two durations rule out every revival if and only if their sum is less than the thirty days of retention |
| CredentialSaga.LateRotationRevives | apps/api/src/eip/connectivity/service.py:203-271 | for every division of thirty days between a disable and a rotation, a history in which they take that long and leave a destroyed source with a living secret |
| CredentialSaga.StoreIsAccountedFor | apps/api/src/eip/platform/secretstore.py:63-103 | every secret in the store is on one row (destroyed only if a late rotation put it there), held by an open request, superseded, or, only if some request died, orphaned |
| CredentialSaga.SupersededSecretsAreKept | apps/api/src/eip/connectivity/service.py:220-228 | a secret rotated out of a row, or left by a dead request, is never deleted by anything, in any run |
| CredentialSaga.SecretsLeftBehind | apps/api/src/eip/connectivity/service.py:220-228 | a rotation leaves the secret it replaces in the store, and the death of a request leaves the one it put |
| CredentialSaga.DestructionIsFinal | apps/worker/src/eip_worker/maintenance.py:60-89 | a destroyed source stays disabled and its destruction mark never changes; unless a late rotation of that source comes, it keeps its reference and its secret never returns |
| CredentialSaga.DisableTimeIsFinal | apps/api/src/eip/connectivity/service.py:253-268 | nor does the time of its disable change, unless another disable of it took thirty days or more |
| CredentialSaga.FailureIsCompensated | apps/api/src/eip/api/deps.py:131-144 | a failed request leaves rows and store as they were before its secret was put |
| CredentialSaga.UndisturbedCreate | apps/api/src/eip/connectivity/service.py:101-160 | a create that nothing overtakes adds an active source under a free key, and its secret |
| CredentialSaga.UndisturbedRotation | apps/api/src/eip/connectivity/service.py:192-238 | a rotation that nothing overtakes points the source to the new secret, one version up, and is refused unless the source is active and at the expected version |
| CredentialSaga.UndisturbedDisable | apps/api/src/eip/connectivity/service.py:240-271 | a disable that nothing overtakes sets its time, a deadline thirty days later, and one version up |
| CredentialSaga.EditWrites | apps/api/src/eip/connectivity/service.py:205-234 | an update without a credential writes the content and the version it read plus one |
| CredentialSaga.LateDisableWritesIff | apps/api/src/eip/connectivity/models.py:79-92 | an overtaken disable still writes exactly unless the credential was destroyed earlier than thirty days after its stamp |
| CredentialSaga.SweepTakesTheDue | apps/worker/src/eip_worker/maintenance.py:55-75 | a sweep takes exactly the disabled, not yet destroyed sources whose deadline has passed by its reading of the clock |
| CredentialSaga.RunKeepsInv | apps/worker/src/eip_worker/maintenance.py:47-106 | retention constraint, reference resolution, name ownership and sweep locks hold after every run |
| CredentialSaga.DataSourceService.Create | apps/api/src/eip/connectivity/service.py:101-160 | idempotent by key; a failed commit leaves no secret behind |
| CredentialSaga.DataSourceService.Update | apps/api/src/eip/connectivity/service.py:192-238 | guards in order; on success one version up with the new reference, on a failed commit nothing changed in either store |
| CredentialSaga.DataSourceService.Disable | apps/api/src/eip/connectivity/service.py:240-271 | disables once when undisturbed; the credential becomes due exactly thirty days later, not a second before |
| CredentialSaga.DataSourceService.DestroyDueCredentials | apps/worker/src/eip_worker/maintenance.py:60-89 | exactly the due secrets are deleted; when the commit fails the rows are still due, so a retry finishes |
| OutboxRelay.NoJobIsLost | apps/api/src/eip/api/routers/connection_tests.py:78-105 | the message of every requested job has been dispatched or is still unpublished, across concurrent relays and crashes |
| OutboxRelay.RelayAccountingBalances | apps/worker/src/eip_worker/outbox.py:143-187 | a message has one attempt exactly when it is published and none otherwise, was dispatched if published, and the audited counts add up to the published messages |
| OutboxRelay.BatchesAreDisjoint | apps/worker/src/eip_worker/outbox.py:145-156 | two open relays never hold the same message |
| OutboxRelay.RunKeepsInv | apps/worker/src/eip_worker/outbox.py:121-187 | locked batches, attempts, dispatches and audited counts agree after every run |
| OutboxRelay.CommittedBatchFollowsProtocol | apps/worker/src/eip_worker/outbox.py:121-187 | whatever other relays have open, what the batch method commits is a run of the protocol that leaves them alone, so the theorems about runs hold of it |
| OutboxRelay.RolledBackBatchFollowsProtocol | apps/worker/src/eip_worker/outbox.py:121-187 | so is a batch whose dispatch raised: only its dispatches remain |
| OutboxRelay.PendingIsClaimable | apps/worker/src/eip_worker/outbox.py:145-156 | a batch holds distinct unpublished messages no other relay has locked, and leaves none of these out unless it is full |
| OutboxRelay.PendingIsOldestFirst | apps/worker/src/eip_worker/outbox.py:145-156 | a batch comes oldest first, and a free message that is left out is younger than all of it |
| OutboxRelay.PendingTenantListComplete | apps/api/migrations/versions/0002_isolation_audit.py:203-215 | whatever limit is asked for, tenants are listed once, only with pending work, at most the limit brought into 1 to 1000, and none is left out of a shorter list |
| OutboxRelay.FirstHundredAreServed | apps/worker/src/eip_worker/outbox.py:190-203 | a pass covers exactly the tenants with an unpublished message that have fewer than a hundred such tenants before them |
| OutboxRelay.RelayBatch | apps/worker/src/eip_worker/outbox.py:143-187 | all messages of the batch are published and counted once, or, when dispatching raises, nothing is written |
| OutboxRelay.OutboxTable.RelayTenantBatch | apps/worker/src/eip_worker/outbox.py:121-187 | a batch touches one tenant only |
| OutboxRelay.OutboxTable.RelayOnce | apps/worker/src/eip_worker/outbox.py:190-203 | a pass serves each listed tenant once and returns the number of messages published; a raising dispatch ends it, keeps what earlier tenants committed and touches no later one |
| PoolRegistry.RegistryStaysSound | apps/api/src/eip/dataplane/pool.py:88-173 | at most the configured number of pools, one a tenant, ordered by last use; every engine ever opened is held by its own tenant, awaits disposal or was disposed, exactly once |
| PoolRegistry.IdleIsPrefix | apps/api/src/eip/dataplane/pool.py:142-152 | the idle pools are a prefix, all of them go, and none older than the time to live stays |
| PoolRegistry.CapacityTakesTheLeastRecentlyUsed | apps/api/src/eip/dataplane/pool.py:135-140 | making room costs one pool at most, and only a full registry's least recently used one |
| PoolRegistry.LastUsedIsLastUse | apps/api/src/eip/dataplane/pool.py:100-131 | after every history the time on a tracked pool is when its tenant was last handed an engine |
| PoolRegistry.LookupComesLast | apps/api/src/eip/dataplane/pool.py:100-131 | a lookup leaves its tenant's entry, with its time and its engine, where pools go last |
| PoolRegistry.LookupCosts | apps/api/src/eip/dataplane/pool.py:88-152 | after every history, in terms of each tenant's last lookup: a lookup drops exactly the tenants idle for longer than the time to live, and, for a tenant that is not warm in a full registry, the one served longest ago; every dropped pool is disposed at once |
| PoolRegistry.LookupIsFreshIff | apps/api/src/eip/dataplane/pool.py:88-133 | a lookup always hands out the tenant's own engine, and one unlike a fresh one exactly when a warm pool carries another password |
| PoolRegistry.EvictedRotationsStayInvisible | apps/api/src/eip/dataplane/pool.py:154-164 | when each rotation is followed by an eviction before the next lookup, every lookup is as good as a fresh connection |
| PoolRegistry.WarmTenantsOpenNothing | apps/api/src/eip/dataplane/pool.py:100-131 | a lookup opens a pool only for a tenant without a warm one, under its own credential |
| PoolRegistry.UnevictedRotationShows | apps/api/src/eip/dataplane/pool.py:154-164 | without the eviction a rotation shows: a warm tenant is handed an engine with the password of before |
| PoolRegistry.DisposalFinishes | apps/api/src/eip/dataplane/pool.py:154-164 | a pool taken out for later disposal is disposed once |
| PoolRegistry.RunKeepsInv | apps/api/src/eip/dataplane/pool.py:88-173 | the registry's invariants and the warmth of its pools hold after every history of lookups, rotations, evictions, disposals and shutdowns |
| PoolRegistry.TenantPoolRegistry.SessionsFor | apps/api/src/eip/dataplane/pool.py:88-133 | sweep, hit or miss, make room, open: also when the URL cannot be built after room was made |
| PoolRegistry.TenantPoolRegistry.MakeRoom | apps/api/src/eip/dataplane/pool.py:135-140 | pools leave from the front until another one fits, and each is disposed |
| PoolRegistry.TenantPoolRegistry.EvictIdle | apps/api/src/eip/dataplane/pool.py:142-152 | the filtered list of tenants and the idle prefix are the same pools, each disposed once |
| PoolRegistry.TenantPoolRegistry.Evict | apps/api/src/eip/dataplane/pool.py:154-164 | one tenant's pool leaves and is disposed; an unknown tenant changes nothing |
| PoolRegistry.TenantPoolRegistry.Close | apps/api/src/eip/dataplane/pool.py:166-173 | nothing is held afterwards and every pool held before is disposed |
| MetadataResolver.Resolve | apps/api/src/eip/intelligence/seed.py:110-167 | the loop ends; it stores a permutation with every reference stored earlier, or names the largest group of items that block themselves, or stops at an item that is due and that the store refuses |
| MetadataResolver.OrderableIffNothingBlocked | apps/api/src/eip/intelligence/seed.py:112-167 | a storable order exists exactly when no group of items waits for something only the group supplies |
| MetadataResolver.OrderingMeans | apps/api/src/eip/intelligence/seed.py:112-151 | a storable order is all items with every parent and related reference the kind and code of an earlier item |
| MetadataResolver.BlockedMeansNoOrdering | apps/api/src/eip/intelligence/seed.py:166-167 | the unresolved error is raised only when no order exists |
| MetadataResolver.StuckIsUnique | apps/api/src/eip/intelligence/seed.py:112-167 | what is left unresolved does not depend on the order of the sweeps |
| MetadataResolver.StuckIsLargest | apps/api/src/eip/intelligence/seed.py:112-167 | what is left unresolved contains every group of items that block themselves |
| Decimals.PrintRoundTrip | apps/api/src/eip/intelligence/service.py:18-22 | the printed text reads back as the same number |
| Decimals.PrintIsCanonical | apps/api/src/eip/intelligence/service.py:18-22 | no leading or trailing zeros and no negative zero |
| Decimals.PrintIgnoresScale | apps/api/src/eip/intelligence/service.py:18-22 | two decimals stored at any two scales have the same text exactly when they are the same number |
| Decimals.CanonicalIsPrint | apps/api/src/eip/intelligence/service.py:18-22 | every text without superfluous zeros or a negative zero is what the service prints for its value |
| Decimals.CanonicalIsUnique | apps/api/src/eip/intelligence/service.py:18-22 | two such texts are equal exactly when they stand for the same number |
| Decimals.ReconcilesIffExact | apps/web/src/app/app/executive/presentation.ts:119-132 | the page's check holds exactly when the decimals add up, at whatever common scale |
| Decimals.OnlyNumeralsReconcile | apps/web/src/app/app/executive/presentation.ts:119-121 | a text that is no decimal never reconciles |
| Decimals.NumeralIff | apps/web/src/app/app/executive/presentation.ts:90-91 | the texts taken for decimals are an optional minus, digits, and optionally a point with digits |
| Decimals.SumIsAdditive | apps/web/src/app/app/executive/presentation.ts:129-131 | the sum compared is nothing for no slices, a number for itself, and additive over parts |
| Decimals.PrintedReconcilesIff | apps/web/src/app/app/executive/presentation.ts:119-132 | printed numbers reconcile exactly when the numbers add up |
| ExecutiveQuery.Query | apps/api/src/eip/intelligence/service.py:128-247 | answered exactly when all facts are there and assessed, the slices add up, the attention rule and the selected source fit and there is a dimension value; then with the slices in order and the first slice of smallest variance; it crashes only without dimension values |
| ExecutiveQuery.DrillDown | apps/api/src/eip/intelligence/service.py:173-201 | one slice for each dimension value, or none at all when a fact is missing |
| ExecutiveQuery.AnswerableIff | apps/api/src/eip/intelligence/service.py:128-217 | the conditions of an answer in terms of the first facts of each kind |
| ExecutiveQuery.NumbersOfFirstFacts | apps/api/src/eip/intelligence/service.py:136-201 | the numbers of an answer are those of the first observation and the first target for the total and for each dimension value |
| ExecutiveQuery.CellsAreFirstFacts | apps/api/src/eip/intelligence/service.py:173-189 | the two numbers behind a slice are those of the first observation and the first target of its dimension value |
| ExecutiveQuery.SlicesSay | apps/api/src/eip/intelligence/service.py:190-201 | the slices name the dimension values in order and print value, target and variance at six digits |
| ExecutiveQuery.GroupedAnswerReconciles | apps/api/src/eip/intelligence/service.py:202-203 | every grouped answer of the service reconciles on the page |
| ExecutiveQuery.UngroupedAnswerReconcilesIffZero | apps/api/src/eip/intelligence/service.py:301 | an ungrouped answer reconciles on the page exactly when the metric is zero |
| Presentation.ProgressIsNearestTenth | apps/web/src/app/app/executive/presentation.ts:102-107 | between zero and the target the progress is the nearest tenth of a percent |
| Presentation.ProgressShownIff | apps/web/src/app/app/executive/presentation.ts:102-104 | there is progress to show exactly for two decimals with a positive target |
| Presentation.ProgressIsMonotone | apps/web/src/app/app/executive/presentation.ts:102-107 | more is never shown as less, over negative values and the cut-off too |
| Presentation.ProgressAtTheEnds | apps/web/src/app/app/executive/presentation.ts:102-107 | nothing at or below zero, everything at or above the target |
| Presentation.ProgressAtEveryScale | apps/web/src/app/app/executive/presentation.ts:90-107 | the scale at which value and target are compared does not matter |
| Presentation.ProgressDependsOnValues | apps/web/src/app/app/executive/presentation.ts:90-107 | equal numbers give equal progress, however they are written |
| Presentation.TrailingZeroIsSameValue | apps/web/src/app/app/executive/presentation.ts:90-100 | a trailing zero does not change the number a text stands for |
| Presentation.FormatSignedPercent | apps/web/src/app/app/executive/presentation.ts:37-46 | the text has the sign of the input and one decimal; other texts pass through and null is not comparable |
| Presentation.PercentIsNearestTenth | apps/web/src/app/app/executive/presentation.ts:37-46 | looking at two fraction digits is enough to round the whole text to the nearest tenth, halves away from zero |
| Egress.EndpointDecided | apps/api/src/eip/connectivity/egress.py:77-310 | the endpoint decision for every host, in terms of the address's own properties: the code of a refusal is the first category in order, or the first trouble with the answers |
| Egress.PeerDecided | apps/api/src/eip/connectivity/egress.py:77-462 | the peer decision in the same terms |
| Egress.UnlistedMeansPublic | apps/api/src/eip/connectivity/egress.py:77-462 | without an allowlist nothing but an address in no unsafe category is let through, as endpoint, answer or peer; and a public literal is |
| Egress.NameAcceptedIff | apps/api/src/eip/connectivity/egress.py:243-310 | a name is accepted exactly when it resolves, every answer is acceptable by itself, and safe and unsafe answers are not mixed; the first answer is used |
| Egress.PeerAgreesWithEndpoint | apps/api/src/eip/connectivity/egress.py:312-462 | for a name, on the same answers, the peer check accepts exactly the answers of an accepted endpoint |
| Egress.SelectedAddressPassesIffCanonical | apps/api/src/eip/connectivity/egress.py:306-424 | the address chosen for an accepted name passes the peer check exactly when it is spelled that way in the answers |
| Egress.SelectedAddressMayFail | apps/api/src/eip/connectivity/egress.py:306-424 | an accepted name whose chosen address the peer check then refuses |
| Egress.AcceptedPeerIsAcceptable | apps/api/src/eip/connectivity/egress.py:312-462 | an accepted peer is acceptable by itself whatever the name answers by then; without an allowlist it is in no unsafe category |
| Egress.LiteralPeerIsTheEndpoint | apps/api/src/eip/connectivity/egress.py:327-362 | for a literal host reached at that very literal the two decisions are the same, code included |
| Egress.LiteralHostAgreesIff | apps/api/src/eip/connectivity/egress.py:198-462 | for a literal host and another peer, the two decisions agree exactly when the peer is no answer or the answers with it pass just if the literal does |
| Egress.LiteralHostMayDisagree | apps/api/src/eip/connectivity/egress.py:327-424 | an endpoint, a peer and answers on which the two decisions differ for a literal host |
| Egress.EgressValidator.CheckAnswers | apps/api/src/eip/connectivity/egress.py:259-293 | one bad answer spoils all of them, with the codes in order of precedence |
| Egress.EgressValidator.ValidateEndpoint | apps/api/src/eip/connectivity/egress.py:198-310 | the endpoint decision, with its code, for every host, answer list and allowlist |
| Egress.EgressValidator.ValidatePeer | apps/api/src/eip/connectivity/egress.py:312-462 | the peer decision, with its code, for every peer, answer list and allowlist |
| Egress.EgressValidator.DecideOne | apps/api/src/eip/connectivity/egress.py:215-241 | an allowlist overrides the categories, and a refusal names the category before the list |

## Left out

- Provisioning: `summarise_failure` is an arbitrary reason text; `deprovision` and `rotate_credential` of the data plane; schema and grant statements beside the role's password; the role is one password, whatever else the DDL sets.
- ConnectionTests: parsing of the envelope, and the connector, which is an arbitrary outcome; a failing result always carries a code. ACLs, visibility and the name checks of the source routes; a request that reuses a key for another source changes nothing here, where the code also reports a conflict.
- CompletionUsedTheCurrentRow: stated for jobs whose own source saw no harmful write, because the code does not keep it otherwise (`LostUpdateSplitsAVersion`).
- Provisioning.TenantPlane.Claim: the tenant exists; the code reports an unknown id as not found.
- CredentialSaga: secret values and versions are abstracted to names present in the store; files, modes and paths; pruning of old tests (it is a step of ConnectionTests).
- ORM effects: beyond the row object that `disable` gets back, identity-map reads and refreshes; a transaction sees committed rows and its own writes, and an update writes the columns it changed.
- AuditChain: canonical JSON, time formatting and the record of platform actions; rows of the pre-trigger history.
- Row-level security, role grants, the secret provider's own storage and the outbox's payloads.
- OutboxRelay: a relay run without a dispatch callback, which publishes without dispatching; ordering of messages with equal creation times.
- PoolRegistry: pool sizes, checked-out connections and failing disposals; clock readings are integers; a lookup is one step under the registry's lock.
- MetadataResolver: `allowed_dimension`, which is looked up but not waited for; the metric expression check, which is a given set of refused items; JSON loading.
- Decimals: decimals with exponents, infinities and negative zero, which the stored facts cannot hold.
- Presentation: metric and date formatting, which depend on the Intl library; percentages of the service, whose division is rounded by the decimal context; the final division of tenths by ten in floating point.
- ExecutiveQuery: selection of bundle, dataset and metadata, expression validation, the order key of dimension values (they are given in order), percentages, provenance and lineage; the checks of the attention rule and of the selected source are two given answers.
- Egress: parsing of endpoints, addresses and networks is given by the policy's functions; the resolver's answer is a parameter; an endpoint's port.
- Web pages, routing, middleware, token verification and telemetry.
