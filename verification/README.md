# Verified model of the agent control plane's durable protocols

The control plane admits operations on machines and keeps small durable records of them: approvals, reservations,
receipts and an audit log. Its correctness rests on a few protocols that must survive concurrent callers, failing
writes and crashes. This project models those protocols and proves what they promise, for every input, every
interleaving and every crash point.

| module | subject |
|---|---|
| `ByteStrings` | byte-string order, the one ascending listing of a key set, decimal numerals |
| `Canonical`, `CanonicalEncoder`, `Parameters`, `Utf8` | canonical parameter encoding: normal forms, a decoder, the encoder with its shared buffer, and which parameters are accepted and taken for the same |
| `Rfc3339`, `Fingerprint` | the text that fingerprints are digests of, and when two operations share it |
| `Receipts`, `AuditLog` | terminal evidence in an append-only log, one receipt at a time and in indexed batches |
| `TargetCoordinator`, `TargetCalls`, `TargetRuns`, `TargetProgram` | target authority mutations and startup reconciliation: durable states, calls, runs with crashes, and the coordinator's methods |
| `SessionReconcile`, `SessionProgram`, `SessionDaemon` | startup reconciliation of session mutations: durable states, the service's loops, and every disk that serving calls can leave |
| `SessionFlights`, `SessionReplays`, `SessionCalls` | concurrent session callers, crashes and restarts, what leaders, waiters and retries are answered, and what one unhindered call leaves behind |
| `Approvals`, `ApprovedDispatch`, `DispatchVerdicts` | the one-use approval store, recovery mutations that consume approvals, and the policy verdicts they follow |
| `WindowsQuoting` | argument quoting against the Microsoft C/C++ command-line argument rules |
| `CheckpointChain` | the walk from a rollback checkpoint to its root, and safety resolution |
| `Inventory`, `InventoryMeaning` | trusted hosts, the machine index, aliases, and unambiguous resolution, and what references and snapshots mean |
| `RefreshPool` | the refresh worker pool under any schedule and cancellation |
| `RecordingSnapshots`, `RecordingProgress` | publication and reading of recording snapshots, and the documents one recording tries to persist |
| `SingletonLock`, `SingletonLockCalls` | the daemon's lock directory with reclaim after crashes, and what one attempt at it comes to |
| `LabGrants`, `LabGrantCalls` | console lab grants: issue, activate, act, revoke, and what one unhindered call does |

Code that works step by step on stores, buffers and maps is a method or a class method, proved against a
specification function; the promises are then proved of that function. Protocols whose point is interleaving are
step machines over values: one action is one durable or shared step of one caller, and the invariant is proved for
every sequence of actions. Beside what no run does, it is proved what an unhindered call does, so that a machine that
refuses everything would not do.

Faults. In `TargetRuns` a write completes or the process stops around it, also during recovery. In
`AuditLog`, `SessionReconcile`, `SessionDaemon`, `SessionFlights` and `LabGrants` a write may also fail before or after it takes
effect (`Fate`). In `ApprovedDispatch` store calls succeed or change nothing. Digests are modelled by the data they
digest, and generated IDs as fresh ones.

Where the code does less than its documentation suggests, or depends on its callers, the model follows the code:

- After a session leader has answered with its receipt, later answers to that request are this receipt exactly if its
  finalization intent became durable (`SessionReplays.LeaderReceiptIsReplayedExactlyIfDurable`). If that write fails,
  the leader still answers with its receipt, and every retry that is answered gets an interrupted receipt instead
  (`SessionReplays.LostIntentIsNotReplayed` is such a run). The effect still starts once.
- A stored denial of a session mutation is final for its request, but whether a retry is handed it depends on the
  listing of the receipt store: the scan stops at the first receipt under the idempotency key, and random receipt IDs
  decide which that is. The denial is replayed exactly if its key is not reserved and it is that first receipt
  (`SessionReplays.DenialIsReplayed`). Two callers can both be denied under one key, and then one of them is refused
  (`SessionReplays.TwoDenialsUnderOneKey` is such a run).
- A reservation that is cut off while its file is written leaves a file that every listing refuses. Nothing removes it, its
  key stays unusable and every later startup fails (`SessionDaemon.TornFailsEveryStartup`).
- An expired machine lease is taken over only from a dead owner, so expiry never lets two live callers onto one machine
  (`ApprovedDispatch.MachinesAreExclusive`).
- Giving a consumed approval back succeeds exactly if it was recorded as consumed within its validity and at a
  nonzero instant (`Approvals.ReleaseUndoesConsumption`). A consumption written outside that window stays.
- Quoting writes the replacement character for a byte that is not part of valid UTF-8, so the round trip holds exactly
  for lists whose quoted values have no such byte (`WindowsQuoting.RoundTrip`, `WindowsQuoting.StrayByteIsReplaced`).
  No launcher is published with such a value: `internal/app/bootstrap_types.go:146-155`, applied at the end of
  `internal/bootstrap/adapter.go:298-358`, refuses it, and every list that is accepted is received unchanged
  (`WindowsQuoting.PublishedLauncherPassesValues`).
- The refresh pool needs at least one worker; with none, the producer closes the result channel under itself
  (`RefreshPool.NoWorkerPanics`). `internal/app/trusted_refresh.go:30-32` rules that out.
- An alias that reads as a locator or a GUID is accepted unless the index holds just that one, but no resolution ever
  consults it (`InventoryMeaning.ResolutionVerdict`, `InventoryMeaning.GuidFormIsTheGuid`). Any other accepted alias
  resolves to its machine (`InventoryMeaning.AliasResolves`).
- A failed publication leaves its marker, and from then on the recording stays inconclusive for every reader
  (`RecordingSnapshots.FailedPublicationStaysInconclusive`).
- The repetition check of the checkpoint walk is needed only for an index whose entries are filed under other IDs;
  for the index that `ResolveSafety` builds it changes nothing (`CheckpointChain.KeyedIndexNeedsNoRepetitionCheck`).

## Model

| member | source | states |
|---|---|---|
| `ByteStrings.SortStrings` | internal/domain/parameter.go:177-185 | sorting distinct keys yields the one ascending listing of their set, in whatever order they came |
| `ByteStrings.AscendingUnique` | internal/domain/parameter.go:177-200 | a key set has only one ascending listing, so the encoding cannot depend on map order |
| `ByteStrings.DecimalRoundTrip` | internal/domain/parameter.go:90-102 | reading a written size gives it back, and stops there unless a digit follows |
| `Canonical.DecodeTextRoundTrip` | internal/domain/parameter.go:90-102 | an encoded string is read back whatever bytes it holds and whatever follows it |
| `Canonical.DecodeSignedRoundTrip` | internal/domain/parameter.go:113-130 | an integer, which has no length tag, is read back provided no digit follows it |
| `Canonical.UniquelyDecodable` | internal/domain/parameter.go:63-88 | for every nested normal form and every rest not starting with a digit, decoding its encoding followed by the rest gives that form and that rest |
| `Canonical.ItemsDecodable` | internal/domain/parameter.go:151-162 | the same for the remaining items of any list |
| `Canonical.EntriesDecodable` | internal/domain/parameter.go:177-200 | the same for the remaining entries of any map in ascending key order |
| `Canonical.EncodingSplits` | internal/domain/parameter.go:63-208 | equal text after equal framing means equal values and equal rests: no encoding is ambiguous with another |
| `Parameters.EqualBytesIffSameParameters` | internal/domain/parameter.go:52-61 | two accepted parameter maps encode to equal bytes exactly if they are the same parameters: equal texts, equal truth values, equal integers of one signedness whatever their widths, lists item by item and maps entry by entry in either flavour, and a nil map as an empty one |
| `Parameters.SameExactly` | internal/domain/parameter.go:63-88 | two accepted values have one normal form exactly if they are the same in that sense, at any depth |
| `Parameters.AcceptedExactly` | internal/domain/parameter.go:63-88 | a value is refused exactly if somewhere inside it has a nil, an unsupported type, or a string or key that cannot be encoded |
| `Parameters.ScalarBytes` | internal/domain/parameter.go:90-149 | the very bytes of a string, both truth values, and a signed and an unsigned integer |
| `Parameters.ListBytes` | internal/domain/parameter.go:151-162 | the very bytes of a list of two: its tag, size and brackets around its items' bytes in order |
| `Parameters.TableBytes` | internal/domain/parameter.go:177-200 | the very bytes of a map with one entry |
| `Utf8.ValidExactly` | internal/domain/parameter.go:90-95 | a byte string is valid UTF-8 exactly if it is the encoding of some text |
| `CanonicalEncoder.Buffer.WriteString` | internal/domain/parameter.go:90-102 | a write appends to what the buffer held |
| `CanonicalEncoder.EncodeString` | internal/domain/parameter.go:90-102 | succeeds exactly for valid UTF-8 without NUL, and appends nothing otherwise |
| `CanonicalEncoder.EncodeBool` | internal/domain/parameter.go:104-111 | appends the encoding of the truth value |
| `CanonicalEncoder.EncodeSignedInt` | internal/domain/parameter.go:113-130 | appends the encoding of a signed integer of any width |
| `CanonicalEncoder.EncodeUnsignedInt` | internal/domain/parameter.go:132-149 | appends the encoding of an unsigned integer of any width |
| `CanonicalEncoder.EncodeSlice` | internal/domain/parameter.go:151-162 | succeeds exactly if every item has a normal form, and appends the encoding of the list's normal form |
| `CanonicalEncoder.EncodeStringSlice` | internal/domain/parameter.go:164-175 | a list of strings is appended as the list of those values, and refused exactly if one is not encodable |
| `CanonicalEncoder.CollectKeys` | internal/domain/parameter.go:177-184 | collects each key once, in any order, and fails exactly on an unencodable key |
| `CanonicalEncoder.EncodeMap` | internal/domain/parameter.go:177-200 | succeeds exactly if the map has a normal form, and appends its encoding whatever order the map yields its keys in |
| `CanonicalEncoder.EncodeEntryLoop` | internal/domain/parameter.go:190-197 | appends the entries of exactly the given key listing, and fails exactly if a value has no normal form |
| `CanonicalEncoder.EncodeEntry` | internal/domain/parameter.go:190-197 | appends one key and its value's normal form, and fails exactly if either has none |
| `CanonicalEncoder.EncodeStringMap` | internal/domain/parameter.go:202-208 | a map of strings is appended as the map of those values |
| `CanonicalEncoder.EncodeCanonicalValue` | internal/domain/parameter.go:63-88 | succeeds exactly for acceptable values, and appends exactly the encoding of the normal form |
| `CanonicalEncoder.CanonicalizeParameters` | internal/domain/parameter.go:52-61 | yields the encoding of the normal form, or an error exactly if something inside is not acceptable |
| `Rfc3339.FractionInjective` | internal/domain/fingerprint.go:144-146 | the printed fraction, with trailing zeros dropped, still determines the nanoseconds |
| `Rfc3339.FormatInjective` | internal/domain/fingerprint.go:144-146 | two instants print alike only if they are the same instant |
| `Rfc3339.FormatHasNoNewline` | internal/domain/fingerprint.go:144-146 | a printed instant stays on its line |
| `Rfc3339.FormatShape` | internal/domain/fingerprint.go:144-146 | year, month, day, hour, minute and second stand in their RFC 3339 places, padded with zeros, and the fraction, if there is one, reads as the nanoseconds and ends in no zero |
| `Fingerprint.BoundedIsOneLine` | internal/domain/validation.go:15-31 | a string that passes the bounds check has no line break and can be encoded |
| `Fingerprint.DistinctScopes` | internal/domain/fingerprint.go:91-106 | keeps each scope once, and fails exactly on an unbounded one |
| `Fingerprint.CanonicalizeScopes` | internal/domain/fingerprint.go:91-108 | yields the one ascending listing of the scope set |
| `Fingerprint.WriteLine` | internal/domain/fingerprint.go:137-148 | appends one line to the lines written so far |
| `Fingerprint.WriteIdentity` | internal/domain/fingerprint.go:131-143 | writes exactly the tag and identity lines |
| `Fingerprint.WriteHeader` | internal/domain/fingerprint.go:131-148 | writes exactly the header lines, with the deadline only for operation fingerprints |
| `Fingerprint.ComputePreimage` | internal/domain/fingerprint.go:116-160 | yields the preimage of a valid operation, and an error exactly if the operation cannot be fingerprinted |
| `Fingerprint.HeaderInjective` | internal/domain/fingerprint.go:131-148 | equal header lines mean equal caller, actor, target, kind, class, reason, key and capability, and equal deadline text if it is included |
| `Fingerprint.TailInjective` | internal/domain/fingerprint.go:149-157 | equal text after the scopes means equal sensitivity and equal normalised parameters |
| `Fingerprint.ScopesInjective` | internal/domain/fingerprint.go:91-108 | equal scope encodings mean equal scope sets |
| `Fingerprint.PreimageExact` | internal/domain/fingerprint.go:116-160 | two preimages of one kind are equal exactly when the operations agree on every bound field, have the same scope set and the same parameters, and for the operation kind the same deadline instant |
| `Fingerprint.FingerprintedExactly` | internal/domain/fingerprint.go:39-89 | an operation can be fingerprinted exactly if each field is within its bounds, its class is known, a mutation has a reason and a key, its deadline is set, and its scopes and parameters are acceptable |
| `Fingerprint.KindsNeverCoincide` | internal/domain/fingerprint.go:130-136 | no operation preimage equals any idempotency preimage |
| `AuditLog.FindExactTerminalOutcome` | internal/audit/audit.go:314-332 | finds a receipt exactly if one terminal event bears its ID and that event matches, misses it exactly if the well-formed log has none, and otherwise reports a contradiction |
| `AuditLog.Store.WriteEvent` | internal/audit/audit.go:352-387 | appends one event at the end, or reports failure with the event absent or present as the write's fate says |
| `AuditLog.Store.EnsureTerminalOutcome` | internal/audit/audit.go:262-295 | appends the terminal event only if there is none, accepts an exact match, and refuses a collision or an invalid receipt without writing |
| `AuditLog.Store.VerifyTerminalOutcome` | internal/audit/verify.go:16-52 | succeeds exactly if the log proves the receipt, and changes nothing |
| `AuditLog.Store.BuildIndex` | internal/audit/terminal_batch.go:44-58 | the index holds exactly the terminal events of every receipt ID, or the log is malformed |
| `AuditLog.Store.EnsureTerminalOutcomes` | internal/audit/terminal_batch.go:20-88 | the indexed batch gives the same outcome, the same log and the same writes as serving its requests one by one against the log, also when it fails halfway or IDs repeat |
| `AuditLog.Store.RecordAdmissionIntent` | internal/audit/audit.go:210-228 | appends one admission event with time, actor, target, kind, fingerprint and key, which proves no receipt |
| `AuditLog.AtMostOneTerminalEvent` | internal/audit/audit.go:279-332 | any run of ensures, batches and admissions, with any failing writes, leaves a well-formed log with at most one terminal event for each receipt ID |
| `AuditLog.EnsuredForever` | internal/audit/verify.go:16-69 | after a successful ensure, verifying that receipt succeeds after any further run, and ensuring it again, alone or in a batch, changes nothing |
| `AuditLog.VerifiedExactly` | internal/audit/verify.go:16-69 | a receipt verifies exactly if every event is of a known schema and kind and exactly one is a terminal event with its ID, which agrees with it on all fields of identity and outcome and on the rollback reference |
| `AuditLog.EnsureAppends` | internal/audit/audit.go:262-295 | a completed ensure that finds no event of the ID appends one that tells the receipt and its completion time, and one that finds any appends nothing |
| `AuditLog.EnsuredDecides` | internal/audit/audit.go:279-332 | after a receipt was ensured and any run, another one of that ID verifies exactly if it agrees with it on all those fields; otherwise ensuring it, alone or in a batch, is a conflict without a write |
| `AuditLog.CollidingBatchFails` | internal/audit/terminal_batch.go:20-88 | no batch that asks for such a disagreeing receipt anywhere succeeds, whatever else it asks for, and the evidence of that ID stays as it is |
| `AuditLog.CollisionForever` | internal/audit/audit.go:279-295 | evidence that contradicts a receipt is never overcome: ensure and verify of it fail after any further run |
| `AuditLog.RetryRecovers` | internal/audit/terminal_batch.go:44-88 | a batch repeated without faults after any failed prefix ends as one run without faults would have |
| `AuditLog.ServedAreFound` | internal/audit/terminal_batch.go:59-87 | a successful batch leaves exact evidence for every one of its receipts |
| `AuditLog.ServedEvidence` | internal/audit/terminal_batch.go:59-87 | a batch changes the evidence of an ID only by appending the event of a requested receipt where there was none |
| `AuditLog.ServableSucceeds` | internal/audit/terminal_batch.go:44-88 | without faults a batch of consistent requests succeeds |
| `TargetProgram.Coordinator.Mutate` | internal/app/target_coordinator.go:92-147 | the durable states it goes through, in order, its outcome and the receipt it replays are those of the specified call |
| `TargetProgram.Coordinator.ApplyTargetPlan` | internal/app/target_coordinator.go:156-193 | admission, consumption and effect in this order, undone in reverse if the target has moved |
| `TargetProgram.Coordinator.FinalizeTargetEffect` | internal/app/target_coordinator.go:430-440 | receipt, terminal event and final mark in this order |
| `TargetProgram.Coordinator.FinishEffect` | internal/app/target_coordinator.go:253-272 | the effect is recorded durably before the receipt and the evidence |
| `TargetProgram.Coordinator.CancelUnexecutedCall` | internal/app/target_coordinator.go:397-406 | gives the approval back if this call consumed it, and then cancels the reservation |
| `TargetProgram.Coordinator.FindReceipt` | internal/receipt/store.go:424-463 | finds the receipt of an equal request, and reports a collision exactly if another request used the key |
| `TargetProgram.Coordinator.ReconcileTargetRecord` | internal/app/target_coordinator.go:216-272 | cancels a record without effect, finishes an applied one, and refuses on drift |
| `TargetProgram.Coordinator.ListRecords` | internal/target/mutation_journal.go:201-232 | lists each record of the journal exactly once |
| `TargetProgram.Coordinator.ReconcileStartup` | internal/app/target_coordinator.go:196-214 | reconciles every listed record in turn and stops at the first that fails |
| `TargetProgram.Coordinator.ReconcileFrom` | internal/app/target_coordinator.go:203-212 | the loop's states, in order, for any listing |
| `TargetRuns.EveryRunSettles` | internal/app/target_coordinator.go:92-272 | over every run of issues, calls and startups with a crash after any write, at most one record is unfinalized, and whenever the daemon serves, every record is final with its consumption, its one receipt and its one terminal event, nothing exists without its record, and the target is what the terminal transitions lead to |
| `TargetRuns.CrashAtomic` | internal/app/target_coordinator.go:92-272 | a call cut off after any write, then any startups cut off likewise, then a completed one, leaves either nothing of the call or all of it, as the call asked: its record, the default it wanted or none, its consumption, its receipt and its terminal event |
| `TargetRuns.CompletedCall` | internal/app/target_coordinator.go:92-147 | a call without crash is done exactly if an operator asks for something possible under an unused key with an approval for exactly that, and otherwise leaves nothing; when done, an enroll has stored its machine and aliases and a clear no default, and the record tells kind, machine, key, caller, reason, deadline and former default, with a receipt of that time |
| `TargetRuns.PlannedAsAsked` | internal/app/target_coordinator.go:288-340 | under a fresh key a call can be planned exactly if it is valid, its machine resolves and, to clear, is the stored default's; the planned operation is what the call asks, from the stored default |
| `TargetRuns.SettledIsAtomic` | internal/app/target_coordinator.go:196-272 | any state a call can reach, once no record is unfinalized, is all or nothing of it |
| `TargetCalls.KnownKeyWritesNothing` | internal/app/target_coordinator.go:92-120 | a repeated key writes nothing: it replays exactly the recorded receipt if kind, machine, caller, reason and wanted default are the recorded ones, whatever the deadline, and is refused otherwise |
| `TargetCoordinator.ReceiptNamesDistinct` | internal/receipt/store.go:424-443 | the coordinator never stores two receipts under one idempotency key |
| `TargetCalls.MutateGood` | internal/app/target_coordinator.go:92-147 | every durable state of a call keeps the journal invariant, and the call ends with no unfinalized record |
| `TargetCalls.ApplyGood` | internal/app/target_coordinator.go:156-193 | applying an admitted plan always finishes, and every state on the way keeps the invariant |
| `TargetCalls.FinishGood` | internal/app/target_coordinator.go:430-440 | finalizing can be started again from any of its own states and always completes |
| `TargetCalls.ReleaseAndCancelGood` | internal/app/target_coordinator.go:233-251 | undoing a record without effect leaves the approval unconsumed and no record |
| `TargetCalls.ReconcileRecordGood` | internal/app/target_coordinator.go:216-272 | reconciling one unfinalized record always succeeds and keeps the invariant at every write |
| `TargetCalls.ReconcileGood` | internal/app/target_coordinator.go:196-214 | startup reconciliation succeeds from every reachable state and leaves no unfinalized record |
| `TargetRuns.RunSound` | internal/app/target_coordinator.go:92-272 | the invariant holds after any sequence of happenings, from any state that has it |
| `SessionProgram.SessionService.EnsureRecoveryIntent` | internal/app/session_finalization_reconcile.go:105-123 | gives a pending record an interrupted receipt, once, and leaves any other as it is |
| `SessionProgram.SessionService.PrepareMutationTerminalEvidence` | internal/app/session_finalization_reconcile.go:56-74 | stores the held receipt and asks for its evidence, which a settled record must already have |
| `SessionProgram.SessionService.EnsureTerminalOutcomes` | internal/app/session_finalization_reconcile.go:40-42 | the evidence of all requests is ensured in one batch |
| `SessionProgram.SessionService.PrepareRecords` | internal/app/session_finalization_reconcile.go:29-39 | the loop prepares the records in order and stops at the first failure |
| `SessionProgram.SessionService.FinalizeRecords` | internal/app/session_finalization_reconcile.go:43-53 | the loop marks each unsettled record and counts it |
| `SessionProgram.SessionService.ReconcileMutationFinalizations` | internal/app/session_finalization_reconcile.go:15-54 | the disk it leaves, its count and its outcome are those of the specified reconciliation |
| `SessionReconcile.AnyPrefixKeeps` | internal/app/session_finalization_reconcile.go:15-54 | whatever writes fail or are cut off, the journal invariant holds, no record disappears, no intent, receipt or event is taken back |
| `SessionReconcile.CompletedRunConverges` | internal/app/session_finalization_reconcile.go:15-74 | when it returns no error, every reservation is settled with its stored receipt and exactly one matching terminal event, and the count is that of the reservations that were not settled |
| `SessionReconcile.CompletedRunDecides` | internal/app/session_finalization_reconcile.go:105-172 | such a run finalizes a pending reservation with a failed, inferred receipt of its own identity, under the given ID and from its creation on, a finalizing one with the receipt it held, and leaves a settled one as it was |
| `SessionReconcile.SecondRunIsIdle` | internal/app/session_finalization_reconcile.go:15-54 | a run after convergence writes nothing and returns 0 |
| `SessionReconcile.ReconciliationConverges` | internal/app/session_finalization_reconcile.go:15-54 | after any number of failed or crashed runs, the next one without faults succeeds and converges |
| `SessionReconcile.HealthyRun` | internal/app/session_finalization_reconcile.go:15-54 | a run keeps every receipt ID uncontested, and without faults it succeeds |
| `SessionDaemon.EveryDiskConverges` | internal/app/session_finalization_reconcile.go:15-54 | from an empty disk on, whatever writes of served calls took effect, failed or tore a new reservation, and whatever startups were cut off, a startup whose writes complete succeeds exactly if no reservation is torn, and then leaves every reservation settled and proved; otherwise it changes nothing |
| `SessionDaemon.TornFailsEveryStartup` | internal/sessions/mutation_journal.go:302-320 | once a reservation has been cut off while it was written, every later startup fails, whatever happens in between |
| `SessionDaemon.PerformHealthy` | internal/app/session_receipt.go:68-136 | every write of a served call, under any fate, keeps the disk finishable: reserve, cancel, admission, intent under a new receipt ID, receipt, denial, evidence of a stored receipt, and final mark |
| `SessionDaemon.RunHealthy` | internal/app/session_finalization_reconcile.go:15-123 | so does any sequence of served writes and startups, also from a disk with records of the old schema |
| `SessionReconcile.PrepareAllKeeps` | internal/app/session_finalization_reconcile.go:29-39 | preparation touches only the listed records and never the log, and leaves each with a stored receipt that its request names |
| `SessionReconcile.FinalizeAllKeeps` | internal/sessions/mutation_finalization.go:89-114 | finalization keeps the invariant, touches only the listed records, and settles and counts them if it succeeds |
| `SessionFlights.EffectStartsAtMostOnce` | internal/app/session_coordination.go:377-448 | over any interleaving of callers, crashes and restarts, the effect starts at most once for a key, only under that request's reservation, and a reservation is cancelled only if its effect never started |
| `SessionFlights.HeldStaysForever` | internal/sessions/mutation_finalization.go:34-69 | once an intent is durable, its receipt and request never change |
| `SessionReplays.DecidedIsFinal` | internal/app/session_retry.go:48-140 | once a request has a durable intent or a stored denial, every receipt that any leader or retry hands out for it from then on is that one, whatever calls, faults, crashes and restarts follow |
| `SessionReplays.LaterCallsReturnTheDecided` | internal/app/session_coordination.go:377-448 | from then on every call that had no answer or leader yet, and every later one, fails or returns that receipt, whether it leads or waits |
| `SessionReplays.DenialIsFinal` | internal/app/session_retry.go:70-84 | the effect of a request is never started once its denial is stored, and no other receipt is handed out for it |
| `SessionReplays.RetryIsAnswered` | internal/app/session_retry.go:86-140 | a retry that finds its flight free and whose writes complete finalizes the reservation and is answered: with the receipt the reservation holds, or with an interrupted one if it held none |
| `SessionReplays.FinalizedIsReplayed` | internal/app/session_retry.go:98-140 | a retry of a finalized mutation is answered with its receipt without any write, policy or approval |
| `SessionReplays.DenialIsReplayed` | internal/receipt/store.go:424-463 | a retry of a denied request is answered with the stored denial exactly if its key is not reserved and the listing comes to that denial before any other receipt under the key, and fails otherwise |
| `SessionReplays.FirstByPlace` | internal/receipt/store.go:424-443 | a denial that is alone under its key, or listed before all others under it, is the one the scan stops at, and one listed after another is not |
| `SessionReplays.TwoDenialsUnderOneKey` | internal/app/session_retry.go:48-84 | there is a run in which two callers are denied under one key, and then the retry of the one whose denial is listed first is answered with it and the retry of the other is refused |
| `SessionReplays.LeaderReceiptIsReplayedExactlyIfDurable` | internal/app/session_coordination.go:228-286 | after a leader has answered with its own receipt, any later answer to the request is that receipt exactly if its intent had become durable, and is otherwise an interrupted one |
| `SessionReplays.LostIntentIsNotReplayed` | internal/app/session_retry.go:98-113 | there is a run in which the leader answers with its receipt and a retry with an interrupted one |
| `SessionCalls.ConcurrentCallWaits` | internal/app/session_coordination.go:43-62 | while its flight is led by another call, a call waits for that one exactly if both ask for the same, and otherwise fails at once; nothing else changes |
| `SessionCalls.ConcurrentCallReturnsLeaderAnswer` | internal/app/session_coordination.go:377-404 | a call for what is in flight returns exactly the answer its leader is released with, whatever anybody does before and after the release, unless the process stops or its own deadline expires |
| `SessionCalls.FlightsShared` | internal/app/session_mutation.go:88 | calls share a flight exactly if they agree on actor, target and key, for actors and targets without colons |
| `SessionCalls.FreshCallTakesEffect` | internal/app/session_coordination.go:377-448 | an unhindered first call starts its effect once, leaves one finalized reservation with its receipt stored and audited, hands that receipt out, and frees its flight |
| `SessionCalls.CancelledCallLeavesNothing` | internal/app/session_coordination.go:332-347 | a first call whose preparation fails leaves no reservation and no evidence, starts nothing, and frees its flight |
| `SessionCalls.DeniedCallLeavesItsDenial` | internal/app/session_coordination.go:297-331 | a first call that policy denies stores, audits and hands out one denial, and reserves and starts nothing |
| `SessionCalls.ForeignKeyFails` | internal/app/session_retry.go:48-68 | a key reserved for another request is refused without a write |
| `SessionCalls.StartupSettlesRecord` | internal/app/session_finalization_reconcile.go:76-123 | startup's writes for one reservation finalize it with the receipt it holds, or an interrupted one that it comes to hold, and touch no other |
| `SessionCalls.DaemonServesAgain` | internal/app/session_finalization_reconcile.go:15-54 | the daemon serves only once every reservation is final, and from every reachable crashed state startup can get there, keeping every receipt that was held |
| `SessionFlights.WaiterGetsLeaderAnswer` | internal/app/session_coordination.go:190-200 | a waiter returns exactly what the leader of an equal request returned |
| `SessionFlights.NextKeeps` | internal/app/session_coordination.go:43-62 | every step of every caller, crash, reconciliation and restart keeps the protocol invariant |
| `Approvals.PathsNeverCollide` | internal/approval/store.go:58-75 | issued and consumption records of any valid IDs never share a file, and each names its ID |
| `Approvals.Store.Issue` | internal/approval/store.go:83-96 | creates the issued record once and changes nothing else |
| `Approvals.Store.LoadIssued` | internal/approval/store.go:108-135 | loads exactly a valid, unconsumed issued record |
| `Approvals.Store.ValidateIssued` | internal/approval/store.go:99-105 | succeeds exactly if the issued record is this very approval, valid and not consumed |
| `Approvals.Store.IsConsumed` | internal/approval/store.go:154-181 | answers whether the consumption record exists |
| `Approvals.Store.MarkConsumed` | internal/approval/store.go:190-243 | writes the consumption record exactly if the approval is issued with that authority and not consumed, and tells a second consumption apart |
| `Approvals.Store.ReleaseUnexecuted` | internal/approval/store.go:247-276 | removes a consumption record of the same authority and nothing else |
| `Approvals.ConsumeOnce` | internal/approval/store.go:190-243 | consuming succeeds exactly if this very approval, field by field, is issued and not consumed; it records the instant and nothing else, and then fails for every caller until the approval is given back |
| `Approvals.IssueOnce` | internal/approval/store.go:83-96 | issuing succeeds exactly for a canonical unused ID, well-formed fields, an expiry after a nonzero issue instant, and no word of a consumption, and stores the approval as it is |
| `Approvals.ReleaseOnce` | internal/approval/store.go:247-276 | giving back removes exactly a readable consumption record of this very issued approval, is done if there is none, and otherwise removes nothing |
| `Approvals.RunKeepsOneUse` | internal/approval/store.go:83-276 | over any sequence of calls, successful consumptions exceed releases by exactly whether a consumption record stands, so by one at most, and issued records never change |
| `Approvals.ReleaseUndoesConsumption` | internal/approval/store.go:247-276 | a release right after a consumption restores the store exactly if the consumption was recorded within the approval's validity at a nonzero instant, and otherwise changes nothing |
| `ApprovedDispatch.OneDispatchPerApproval` | internal/app/recovery_mutation.go:99-184 | over any interleaving of callers and crashes no two dispatches are made under one approval, and one under which a dispatch was made stays consumed by that caller |
| `DispatchVerdicts.DispatchFollowsVerdict` | internal/app/recovery_mutation.go:99-184 | over every run, a dispatch is by a caller that one policy decision allowed; it is under no approval if that decision needed none, and otherwise under the approval its own request names |
| `DispatchVerdicts.OneUsePerApproval` | internal/app/recovery_mutation.go:236-256 | of all calls that name one approval and were decided to need it, at most one dispatches, over every run, and its consumption record stands at the end |
| `DispatchVerdicts.CallIsAuthorizedExactly` | internal/app/recovery_mutation.go:120-140 | a call goes on to its lease exactly if policy allows it, an approval it names is unconsumed, and it names one if it needs one; otherwise it returns without a trace |
| `DispatchVerdicts.LeaseIsTakenExactly` | internal/lease/manager.go:374-395 | a lease that the store grants is taken exactly if the machine has none, or an expired one whose owner is gone, and otherwise the call returns and leaves it |
| `DispatchVerdicts.PermittedCallDispatches` | internal/app/recovery_mutation.go:99-184 | a permitted call that nothing hinders dispatches once, consumes its approval exactly if the decision needs one, and gives its lease back |
| `DispatchVerdicts.AbortedCallLeavesNothing` | internal/app/recovery_mutation.go:258-277 | a permitted call whose hooks fail dispatches nothing and leaves approvals and leases as they were |
| `ApprovedDispatch.ReturnedCallersLeaveNothing` | internal/app/recovery_mutation.go:236-274 | a caller that has returned released the lease as often as it acquired it, at most once, and its consumption stands exactly if it consumed and then dispatched or failed to give it back |
| `ApprovedDispatch.DispatchUnderConsumption` | internal/app/recovery_mutation.go:150-184 | a caller that carries the need for an approval dispatches only while its own consumption record exists, and every dispatch is under its machine lease |
| `ApprovedDispatch.MachinesAreExclusive` | internal/app/recovery_mutation.go:210-234 | two live callers never hold the lease of one machine, however soon leases expire and whatever leases a crash left |
| `ApprovedDispatch.NextKeeps` | internal/app/recovery_admission.go:12-92 | each step of admission, hooks, dispatch and compensation keeps the ownership invariant |
| `WindowsQuoting.QuoteWindowsArgument` | internal/bootstrap/adapter.go:398-428 | the loop with its backslash counter writes the specified quoting |
| `WindowsQuoting.QuotedAsItIs` | internal/bootstrap/adapter.go:398-402 | a value is left as it is exactly if it is not empty and has no blank and no double quote, and is otherwise quoted |
| `WindowsQuoting.ReadArgument` | internal/bootstrap/adapter.go:398-424 | the Microsoft rules read one quoted argument, whatever follows it, as exactly that value with stray bytes replaced where it had to be quoted |
| `WindowsQuoting.CommandLineArguments` | internal/bootstrap/adapter.go:369-428 | a space-joined list of quoted values is read as exactly as many arguments, each as it is received |
| `WindowsQuoting.ReceivedAsSent` | internal/bootstrap/adapter.go:398-424 | a value is received unchanged exactly if it needs no quotes or has no stray byte |
| `WindowsQuoting.RoundTrip` | internal/bootstrap/adapter.go:369-428 | the command line is read as exactly the list sent if and only if every value survives |
| `WindowsQuoting.StrayByteIsReplaced` | internal/bootstrap/adapter.go:398-424 | the list whose one value is a blank and a stray byte is received with the replacement character instead |
| `WindowsQuoting.SpacedIsCommandLine` | internal/bootstrap/adapter.go:369-392 | the launcher's list, with its constants unquoted, is the command line of all its values |
| `WindowsQuoting.LauncherPassesValues` | internal/bootstrap/adapter.go:369-392 | the launched program receives exactly the constants and the surviving values |
| `WindowsQuoting.PublishedLauncherPassesValues` | internal/bootstrap/adapter.go:298-392 | the launched program receives exactly the constants and the configured values, for every configuration that validation accepts |
| `WindowsQuoting.LostIsRefused` | internal/app/bootstrap_types.go:146-155 | validation refuses every value that quoting would change |
| `CheckpointChain.ValidCheckpointChain` | internal/app/safety.go:115-137 | terminates and answers true exactly if the parent walk reaches a root without repeating an ID and every checkpoint on it is acceptable |
| `CheckpointChain.IndexById` | internal/app/safety.go:90-93 | files under each ID the last observation listed with it |
| `CheckpointChain.ResolveSafety` | internal/app/safety.go:55-113 | is recoverable exactly if the configured rollback checkpoint is listed, acceptable and rooted in a good chain, and is otherwise the unverified destructive answer |
| `CheckpointChain.RecoverableExactly` | internal/app/safety.go:79-137 | a target is recoverable exactly if its rollback checkpoint is listed and parent steps from it reach a root past nothing but sound, typed checkpoints of this target, production ones if required |
| `CheckpointChain.KeyedIndexNeedsNoRepetitionCheck` | internal/app/safety.go:115-137 | in an index filed by ID, the walk is good exactly if some number of parent steps reaches a root over acceptable checkpoints |
| `CheckpointChain.RootPathRepeatsNothing` | internal/app/safety.go:115-137 | a walk that reaches a root never meets a checkpoint twice |
| `CheckpointChain.WalksAgree` | internal/app/safety.go:115-137 | the parent walk from a start is unique |
| `CheckpointChain.GoodChainCovers` | internal/app/safety.go:115-137 | where a good chain exists, every walk from its start stays on acceptable checkpoints and can be continued without repeating |
| `Inventory.LocatorRoundTrip` | internal/domain/host_locator.go:84-102 | parsing a proper locator's text gives it back |
| `Inventory.KeysAreInjective` | internal/domain/host_locator.go:100-102 | distinct proper locators have distinct index keys |
| `Inventory.TrustedInventory.ValidateHost` | internal/app/trusted_inventory.go:41-66 | accepts exactly hosts with a valid ID, the local address if it is the local host, acceptable aliases and otherwise sound settings |
| `Inventory.TrustedInventory.ReplaceHosts` | internal/app/trusted_inventory.go:164-189 | the registry is replaced by exactly the given hosts and the automatic local one if they are acceptable and no alias is shared, and otherwise left alone |
| `Inventory.TrustedInventory.ClaimAliases` | internal/app/trusted_inventory.go:172-184 | reports a clash exactly if an earlier host answers to one of the aliases |
| `Inventory.TrustedInventory.BuildObservedEntries` | internal/app/trusted_inventory.go:243-257 | builds the entries of all observations, or none if one is unacceptable or repeated |
| `Inventory.TrustedInventory.MarkMissing` | internal/app/trusted_inventory.go:293-300 | marks exactly that host's entries that were not observed, in any map order |
| `Inventory.TrustedInventory.InsertObserved` | internal/app/trusted_inventory.go:301-309 | inserts exactly the observed entries and keeps the aliases of known ones, in any map order |
| `Inventory.TrustedInventory.ApplyObservedSnapshot` | internal/app/trusted_inventory.go:288-310 | merges the entries into the index of a known host, and changes nothing for an unknown one |
| `Inventory.TrustedInventory.ApplyHostStatus` | internal/app/trusted_inventory.go:312-325 | sets the status of exactly that host's entries, and changes nothing for an unknown host |
| `Inventory.TrustedInventory.ApplySnapshot` | internal/app/trusted_inventory.go:222-241 | the new index and the verdict are those of the specified snapshot |
| `Inventory.TrustedInventory.CollectMatches` | internal/app/trusted_inventory.go:340-354 | collects each matching entry once, in any map order |
| `Inventory.TrustedInventory.SelectOne` | internal/app/trusted_inventory.go:402-443 | misses on none, is ambiguous on several, and judges the one |
| `Inventory.TrustedInventory.ResolveMachine` | internal/app/trusted_inventory.go:328-356 | answers what the reference means in hosts and index, with the error that applies |
| `Inventory.TrustedInventory.NormalizeMachineAliases` | internal/app/trusted_aliases.go:38-56 | yields the normalised aliases, or refuses exactly if one is invalid or two normalise alike |
| `Inventory.TrustedInventory.RejectCanonicalCollisions` | internal/app/trusted_aliases.go:86-96 | accepts exactly names that are no key and no machine ID of any entry |
| `Inventory.TrustedInventory.RejectOtherMachines` | internal/app/trusted_aliases.go:70-82 | accepts exactly names that no other machine displays or answers to |
| `Inventory.TrustedInventory.SetMachineAliases` | internal/app/trusted_aliases.go:10-24 | the new index and the verdict are those of the specified alias change |
| `Inventory.ResolutionIsUnique` | internal/app/trusted_inventory.go:328-356 | a reference means one thing: the answer does not depend on map order |
| `Inventory.ResolvesExactly` | internal/app/trusted_inventory.go:328-443 | resolution succeeds with an entry exactly if the trimmed reference matches that entry alone, it is observed and its host is enabled |
| `InventoryMeaning.ResolutionVerdict` | internal/app/trusted_inventory.go:328-443 | a reference that means one machine (by locator, by GUID, or by name or alias) is answered by that machine's status and host, one that means none or is not trimmed misses, one that means several is ambiguous |
| `InventoryMeaning.AliasResolves` | internal/app/trusted_aliases.go:10-96 | an accepted alias that reads as no locator and no GUID resolves to its machine alone, for as long as that is observed on an enabled host |
| `InventoryMeaning.GuidFormIsTheGuid` | internal/app/trusted_inventory.go:328-354 | a reference in the form of a GUID resolves as that GUID, in any case and whatever aliases there are |
| `InventoryMeaning.SnapshotDecides` | internal/app/trusted_inventory.go:222-325 | a snapshot is applied exactly if its host and health are known and, when observed, its machines are sound and distinct; then each machine is shown as observed with its aliases and the others of that host turn stale, or all take on the host's health |
| `InventoryMeaning.LocalIsAlwaysThere` | internal/app/trusted_inventory.go:164-202 | an accepted registry holds exactly the given hosts and the local one, which is added enabled if it is not given |
| `Inventory.SnapshotEffect` | internal/app/trusted_inventory.go:222-325 | a snapshot drops no key, keeps keys equal to locator texts, touches no other host's entry and no alias, and changes nothing if it is refused |
| `Inventory.AliasEffect` | internal/app/trusted_aliases.go:10-96 | an alias change keeps aliases disjoint, touches only its machine, and changes nothing if it is refused |
| `Inventory.RunsKeep` | internal/app/trusted_inventory.go:164-443 | over any run of replacements, snapshots and alias changes, keys equal locator texts and only grow, and aliases stay disjoint |
| `Inventory.AliasesNameOneMachine` | internal/app/trusted_aliases.go:58-84 | in such a run no alias names two machines |
| `Inventory.LocatorNamesItsMachine` | internal/app/trusted_inventory.go:392-400 | a locator text always resolves to its own machine, whatever names other machines have |
| `RefreshPool.NeverBlocksOrPanics` | internal/app/trusted_refresh.go:98-145 | under any schedule and cancellation no send meets a closed or full result channel, no index is delivered twice, and there are as many workers as the concurrency and the number of hosts allow |
| `RefreshPool.StepDecreases` | internal/app/trusted_refresh.go:98-126 | every step lowers a measure |
| `RefreshPool.NoDeadlock` | internal/app/trusted_refresh.go:98-126 | until the result channel is closed some step other than cancellation is possible |
| `RefreshPool.PoolTerminates` | internal/app/trusted_refresh.go:98-126 | a run has at most four steps a host and three more, and one that cannot go on has closed the result channel |
| `RefreshPool.ClosedIsComplete` | internal/app/trusted_refresh.go:98-145 | when the channel is closed every host's index has been delivered exactly once, with that host's ID |
| `RefreshPool.ResultsAreReported` | internal/app/trusted_refresh.go:98-145 | every result was sent by the worker that refreshed its host, with the health it found, or by the producer as unavailable, and that only after a cancellation |
| `RefreshPool.CollectOrdered` | internal/app/trusted_refresh.go:127-131 | in whatever order results came, the slice holds at each index that host's own snapshot |
| `RefreshPool.NoWorkerPanics` | internal/app/trusted_refresh.go:98-126 | with no worker there is a run that sends on the closed channel |
| `RecordingSnapshots.AnswersArePublishedAndRecent` | internal/app/console_record_read.go:15-77 | whatever the writer, crashes, pruning and other readers do, an answered read holds a published document that is at least as new as any published at its first marker check |
| `RecordingSnapshots.PublishedBeforeSecondCheck` | internal/app/console_record_read.go:33-50 | a read that passes the second marker check holds a document whose publication had finished by then |
| `RecordingSnapshots.FailedPublicationStaysInconclusive` | internal/app/console_record_store.go:36-87 | a marker left by a failed or crashed publication stays, and nothing is published after it |
| `RecordingSnapshots.PublicationShows` | internal/app/console_record_store.go:36-87 | a publication that nothing hinders makes its document visible and published and removes its marker |
| `RecordingSnapshots.QuietReadAnswersNewest` | internal/app/console_record_read.go:15-77 | a read that meets no publication before expiry can end with the newest visible document |
| `RecordingSnapshots.NextKeeps` | internal/app/console_record_store.go:19-174 | every step of writer, readers, clock and pruning keeps the publication invariant |
| `RecordingSnapshots.NamesInOrder` | internal/app/console_record_read.go:111-128 | snapshot names compare as their sequence numbers do |
| `RecordingSnapshots.IsSnapshotName` | internal/app/console_record_read.go:130-134 | accepts exactly the names of the possible sequence numbers |
| `RecordingSnapshots.LatestSnapshot` | internal/app/console_record_read.go:111-128 | finds the greatest sequence listed, and none exactly if there is no snapshot or a foreign entry |
| `RecordingProgress.Progress.constructor` | internal/app/console_record_status.go:89-104 | a recording starts with a valid document of sequence 0 |
| `RecordingProgress.Progress.Persist` | internal/app/console_record_status.go:106-118 | advances the sequence by one whether or not the write succeeds, and never takes the clock back |
| `RecordingProgress.Progress.BeforeCapture` | internal/app/console_record_status.go:120-135 | counts the attempt and marks it in flight, or leaves none in flight if it fails |
| `RecordingProgress.Progress.AfterCapture` | internal/app/console_record_status.go:137-146 | ends the flight and counts a completion exactly if the frame was valid |
| `RecordingProgress.Progress.Finish` | internal/app/console_record_status.go:148-164 | the last document is terminal with none in flight, and completed exactly if nothing failed, which needs all captures, and otherwise canceled, deadline_exceeded or failed, in this order of precedence |
| `RecordingProgress.Progress.Screenshot` | internal/app/console.go:40-70 | attempts at most one capture, leaves none in flight, and counts attempt and completion together if it succeeds |
| `RecordingProgress.Progress.CollectFrames` | internal/app/console_record.go:116-150 | succeeds only with all requested captures completed, and persists at most twice a frame |
| `RecordingProgress.Record` | internal/app/console_record.go:38-84 | runs exactly within bounds; then every document it tries to persist is valid, sequences count from 0 without gaps to at most twice the frames plus one, times never go back, terminal comes last and always comes once the first was written, success means a completed terminal document, and only a failing turn, write or encoding prevents it |
| `SingletonLock.MutuallyExclusive` | internal/daemon/lock.go:36-150 | over any interleaving of acquire, reclaim, release, failing file operations and crashes at any step, at most one live process holds the lock, and the recorded owner is that process |
| `SingletonLock.HolderIsUndisturbed` | internal/daemon/lock.go:125-150 | no step of another process takes the lock, its record or its directory from a live holder |
| `SingletonLock.ReleaseFreesTheLock` | internal/daemon/lock.go:231-256 | an undisturbed release by the holder removes record and directory and frees the guard |
| `SingletonLockCalls.FreeLockIsTaken` | internal/daemon/lock.go:36-123 | an undisturbed acquirer of a free lock holds it, with its own identity on record |
| `SingletonLockCalls.OwnerIsJudged` | internal/daemon/lock.go:125-165 | a lock that is there is reclaimed exactly if its record is readable, of this runtime or of an earlier boot of this host, and its process neither reported nor found alive; otherwise it stays as it is |
| `SingletonLockCalls.DeadOwnerIsReplaced` | internal/daemon/lock.go:125-150 | a reclaimable lock passes to its acquirer, under the new record |
| `SingletonLockCalls.FailedCreationIsUndone` | internal/daemon/lock.go:83-123 | a record that cannot be written is removed with its directory, and the lock is free again |
| `SingletonLock.NextKeeps` | internal/daemon/lock_guard.go:13-85 | each step under the guard keeps the lock invariant |
| `LabGrants.DispatchNeedsLiveGrant` | internal/app/console_lab_mutation.go:23-71 | over every run, a guest action is dispatched only while its grant is activated, unrevoked, within the validity checked under the fence, and bound to the current enrollment identity |
| `LabGrants.NoDispatchAfterRevoke` | internal/app/console_lab_lifecycle.go:44-87 | after a successful revocation no run dispatches under that grant again |
| `LabGrants.ActivationImpliesEvidence` | internal/app/console_lab_activation.go:13-21 | a grant is activated only if its issuance receipt and terminal audit are durable |
| `LabGrantCalls.IssueGrants` | internal/app/console_lab.go:16-68 | an unhindered issuance leaves an active grant under the present enrollment that expires exactly the asked time after its issue instant, with receipt and audit, and frees its lease |
| `LabGrantCalls.RevokeRevokes` | internal/app/console_lab_lifecycle.go:44-87 | an unhindered revocation writes the revocation of that grant and changes nothing else |
| `LabGrantCalls.ExecuteDispatches` | internal/app/console_lab_mutation.go:23-71 | an unhindered action that meets no fence is dispatched once under its grant exactly if that is active, unrevoked, within its validity and of the present enrollment |
| `LabGrants.NextKeeps` | internal/app/console_lab.go:16-68 | every step of issue, revoke, action, enrollment, clock and crash keeps the grant invariant |

## Left out

- TargetProgram.Coordinator.Mutate: requires one receipt for each idempotency key, which every reachable state has (`TargetCoordinator.ReceiptNamesDistinct`).
- TargetProgram.Coordinator.FindReceipt: the same; receipts of other services in the same store are not modelled.
- TargetRuns.EveryRunSettles: store calls complete or the process stops; cancelled contexts and failing clean-up calls, after which a reserved record may stay until the next startup, are not modelled, nor is the publication's durable flag.
- TargetRuns.CrashAtomic: the same fault model; a crash inside one store call, with a half-written file, is not modelled, and a consumption is taken to lie within its approval's validity, as policy has just checked.
- SessionFlights.EffectStartsAtMostOnce: the in-flight table and its entries are values of a step machine, so goroutines, channels and aliasing are not captured. Machine leases are not modelled, since no promise about sessions here turns on them. Nor are the consumption of an approval before the effect and its release after a run without effect (`prepareAuditAndApproval`, `releaseUnexecutedApproval`): only whether the preparation succeeds is. A failing read makes its call fail: at the lookup, or as the failure of the write that it goes with. The journal and evidence of this machine and the disk of `SessionDaemon` are two models of the same stores, not related by a lemma.
- SessionReplays.DenialIsReplayed: receipts that other services put in the same store under the key are not modelled; one of them listed first makes the retry fail too.
- SessionDaemon.EveryDiskConverges: torn audit lines are excluded, as for `AuditLog.Store.WriteEvent`; a read that fails at startup is a startup that fails.
- ApprovedDispatch.OneDispatchPerApproval: on values as a step machine; store calls succeed or change nothing, so a directory sync that fails after the consumption file exists is not modelled. Operations without approval are promised nothing about equal keys. The liveness checker never reports a running process dead.
- RefreshPool.NeverBlocksOrPanics: goroutines and channels are a step machine on values; only the collector's slice is updated in place.
- RecordingSnapshots.AnswersArePublishedAndRecent: files are a map on values with create, write, rename and remove steps; one writer for each recording, as its reservation ensures.
- SingletonLock.MutuallyExclusive: on values as a step machine; the liveness checker never reports a running process dead, and the operating system frees the guard when its holder dies.
- LabGrants.DispatchNeedsLiveGrant: on values as a step machine; the guest action is dispatched in the step after the final check, under the fence, and the clock may move between them, so expiry is stated for the instant checked.
- Rfc3339.FormatInjective: years are not negative.
- SessionCalls.FlightsShared: with colons in actor or target, which the source does not rule out there, different calls can share a flight; the later one then fails (`SessionCalls.ConcurrentCallWaits`).
- Inventory.TrustedInventory.ValidateHost: checks of addresses, ports and timeouts are one verdict of the host, since no step of the inventory depends on them.
- RecordingProgress.Record: recordings without a status ID, which persist nothing, are not modelled.
- AuditLog.Store.WriteEvent: torn lines are excluded: an append leaves the whole line or nothing, while a crash of the program can leave a part of one, which every later scan then refuses. The audit lock is an atomic section, and its cross-process reclaim is not modelled.
- `RecordTerminalOutcome` of the audit store, which appends without looking and has no caller in the services.
- SHA-256 and its collisions, random identifiers, clocks and time zones.
- JSON documents, duplicate-field and size checks, file permissions, access control lists and symbolic links.
- HTTP handlers, the client, the command line, streaming, PowerShell, Hyper-V, SSH and the task scheduler.
- The upgrade of target journal records written by the first schema.
- Issuance of target approvals beyond creating them once.
- Contents of session results, the mapping of run errors to outcomes, and the wording of replayed errors.
- Discovery of rollback points and the policy rules, which are verdicts here.
- GIF and PNG encoding, frame delays and the screenshots themselves.
- NUL characters and line breaks in launcher values, which are refused before quoting.
- Bootstrap polling, key chords and the operation table, which would add only easy members.
