# Verification of the dev-infra-manager core

A Dafny model of the parts of dev-infra-manager whose correctness spans many operations, with proofs
over every input, run or reachable state. `dafny verify dfyconfig.toml` checks the whole project.

- **Native ordinary authority** (`Authority*.dfy`): the SQLite job authority. `AuthorityTables` holds the
  rows and the invariant that couples the tables, `AuthoritySteps` each transaction as one atomic step,
  `AuthorityInvariant` and `AuthorityHistory` what every transaction keeps, `AuthorityRuns` the runs of any
  number of instances, `AuthorityTheorems`, `AuthorityDemands` and `AuthorityConstraints` the promises. `AuthoritySchema` states the constraints of the
  schema and the statements that respect them; `AuthorityLaws`, `AuthorityAnswers` and `AuthorityWork` say in the
  columns' own terms what every transaction answers and does to each row; `AuthorityStore` writes the store methods as statements and
  loops and proves each equal to its step. Random ids are step parameters and may collide. A digest is
  represented by what it is a digest of; `DigestPreimages` shows that tuples, descriptors and capacities lose
  nothing on the way to the hash, and hashes are taken not to collide. Only `activate` is restricted, to
  reservations that `reserve` handed out.
- **Lifecycle lock** (`LifecycleLock.dfy`): acquirers, process exits, reboots, faults and guard loss as steps.
- **External URLs** (`RouteRegistry`, `RouteListener`, `TcpIngress`, `ExternalUrls`, `ExternalUrlTheorems`,
  `ExternalUrlLaws`, `ExternalUrlController`, `MutationQueue`, `Subdomains`, `Punycode`): registry and live flows, TCP listener, approval over the durable store
  (one operation is one step because the queue runs them one at a time), names.
- **Parsers and encodings** (`JsonText`, `JsonDuplicateKeys`, `GitTree`, `GitTreeLaws`, `GitSnapshot`,
  `GitSnapshotTheorems`, `GitRootReader`, `DigestPreimages`, `SessionStream`, `SessionLog`; `ByteStrings` and `Texts` are shared).
- **Host protocols** (`PrivateRoot`, `HostLease`, `HostLeaseAuthority`, `HostLifecycle`, `HostAdmission`).

Where the source changes state in place the model has classes, statements and loops, each proved
against a specification function; the promises are lemmas about those functions.

## Findings

Seven expectations do not hold of the code as it stands. Each has a lemma with a concrete case and a lemma
with the exact condition under which the expectation holds.

- Accepted Git trees need not re-encode to themselves: `toString("ascii")` clears high bits of the mode token,
  and the text decoder drops a leading byte-order mark of a name (`GitTree.EncodeOfDecode`,
  `GitTree.HighBitTokenIsAccepted`).
- `provision` registers a route before it checks the URL; when the check then throws, nobody takes the
  registration back. The automatic names of a workspace called `xn` are such names: `xn--0` is a valid label and
  not a valid host. A creation so leaves an authority taken until the next restart, enabled where no approval is
  needed; a reconciliation can leave an enabled route that a later revocation does not reach
  (`ExternalUrlTheorems.XnCreationLeavesAnEnabledRoute`, `LeftoverOutlivesRevocation`).
- A stored entry that records no claim is provisioned under its id and revoked under its authority. If it is
  current, revoking it leaves its route enabled (`ExternalUrlTheorems.UnrecordedClaimOutlivesRevocation`).
  For this finding and the one before, `ExternalUrlTheorems.AccountedExactly` gives the exact condition, and
  `ExternalUrlTheorems.ApprovalSafety` the promise under it.
- Cleanup after a crash between mkdir or open and the chmod that follows refuses the directory when the process
  mask took an owner bit (`PrivateRoot.CleanupAfterCrash`, `PrivateRoot.MaskedCrashStays`).
- Cleanup after a crash inside the recursive removal of a final directory refuses the directory for ever when
  the marker was already gone (`PrivateRoot.FinalRemovalExact`).
- After `stop`, `isCurrent` keeps answering true, also past the expiry (`HostLease.StoppedOutlivesExpiry`); it is
  safe exactly until then (`HostLease.SafeExactlyUntilStopped`).
- A lifecycle lock is not always free once nobody holds it: a release that fails to remove its record, or a
  publication that fails after the rename, leaves a record of a live process, and until that process ends every
  acquirer only waits, also one in the same process (`LifecycleLock.FailedReleaseFreezes`,
  `LifecycleLock.FailedPublicationFreezes`; exactly when: `LifecycleLock.LockAvailableExactly`).

Beside these, a file can be materialised one directory deeper than `readVerifiedBlob` reads
(`GitSnapshotTheorems.ReadAgreesWithMaterialized`), and runtime operations may overlap a shutdown
(`HostAdmission.RuntimeMayOverlap`).

## Model

| member | source | states |
|---|---|---|
| AuthorityInvariant.FenceRows | core/packages/core/src/nativeOrdinaryFencing.ts:3-8 | inserting capacity fences for any set of active claims adds exactly one row per claim, on a capacity that had none, so ignoring conflicts drops nothing |
| AuthorityInvariant.FenceKeepsInv | core/packages/core/src/nativeOrdinaryFencing.ts:3-56 | fencing any set of active claims keeps the invariant that couples the tables; the three routines differ only in the set and the reason |
| AuthorityInvariant.InvalidateKeepsInv | core/packages/core/src/nativeOrdinaryAuthorityStore.ts:226-235 | ending admissions (deny reports, fence claims, supersede queued demands) keeps the invariant |
| AuthorityInvariant.ExpireKeepsInv | core/packages/core/src/nativeOrdinaryAuthorityStore.ts:255-278 | the sweep of expired leases and foreign generations keeps the invariant |
| AuthorityInvariant.OpenKeepsInv | core/packages/core/src/nativeOrdinaryAuthorityStore.ts:237-253 | opening the database in a new epoch, beside instances of older ones, keeps the invariant |
| AuthorityInvariant.AdmitKeepsInv | core/packages/core/src/nativeOrdinaryAuthorityStore.ts:102-141 | admitting, renewing or replacing an admission keeps the invariant |
| AuthorityInvariant.RevokeKeepsInv | core/packages/core/src/nativeOrdinaryAuthorityStore.ts:143-163 | revoking an admission keeps the invariant |
| AuthorityInvariant.CheckReplayKeepsInv | core/packages/core/src/nativeOrdinaryEventStore.ts:40-72 | the replay check keeps the invariant |
| AuthorityInvariant.AcceptKeepsInv | core/packages/core/src/nativeOrdinaryEventStore.ts:74-157 | event intake keeps the invariant and the limits |
| AuthorityInvariant.ReserveKeepsInv | core/packages/core/src/nativeOrdinaryClaimStore.ts:68-118 | reserving keeps the invariant |
| AuthorityInvariant.ActivateKeepsInv | core/packages/core/src/nativeOrdinaryClaimStore.ts:135-193 | activating a reservation that was handed out, however late, keeps the invariant |
| AuthorityInvariant.ReleaseStaleKeepsInv | core/packages/core/src/nativeOrdinaryClaimStore.ts:195-215 | releasing a stale reservation keeps the invariant |
| AuthorityInvariant.RenewKeepsInv | core/packages/core/src/nativeOrdinaryLeaseStore.ts:35-59 | renewing a lease keeps the invariant |
| AuthorityInvariant.PrepareRecoveryKeepsInv | core/packages/core/src/nativeOrdinaryLeaseStore.ts:61-120 | moving a claim into recovery keeps the invariant |
| AuthorityInvariant.CompleteRecoveryKeepsInv | core/packages/core/src/nativeOrdinaryLeaseStore.ts:122-151 | closing a recovery keeps the invariant |
| AuthorityInvariant.AcceptResultKeepsInv | core/packages/core/src/nativeOrdinaryResultStore.ts:44-99 | taking a host's result keeps the invariant |
| AuthorityInvariant.CompleteReportKeepsInv | core/packages/core/src/nativeOrdinaryResultStore.ts:162-175 | closing a report, delivered or denied, keeps the invariant |
| AuthorityInvariant.MarkReportKeepsInv | core/packages/core/src/nativeOrdinaryResultStore.ts:116-160 | taking a report for delivery and putting it back keep the invariant |
| AuthorityRuns.RunOk | core/packages/core/src/nativeOrdinaryAuthorityStore.ts:47-280 | every run of transactions of any instances, stale ones included, keeps the invariant, only moves history forward and keeps issued reservations genuine |
| AuthorityRuns.ReachedInv | core/packages/core/src/nativeOrdinaryAuthorityStore.ts:47-280 | the invariant holds in every state reachable from an empty database |
| AuthorityOrder.OldestExists | core/packages/core/src/nativeOrdinaryClaimStore.ts:87-94 | if any demand is eligible there is an oldest one; `AuthorityAnswers.OldestWaitsLongest` spells out oldest as earliest in time, then first by bytes of the id |
| AuthorityOrder.OldestUnique | core/packages/core/src/nativeOrdinaryClaimStore.ts:87-94 | the oldest eligible demand, so spelled out, is unique |
| AuthorityTheorems.ActiveClaimSafety | core/packages/core/src/nativeOrdinaryClaimStore.ts:135-193 | in every run an active claim belongs to the only active epoch, has an active receipt, a claimed demand, an active admission, exactly one assignment that matches it, no fence on its capacity and no other open receipt there |
| AuthorityTheorems.RecoveringClaimSafety | core/packages/core/src/nativeOrdinaryFencing.ts:3-56 | in every run a recovering claim has its own fence and no assignment, and never becomes active again |
| AuthorityTheorems.EndedEpochStaysEnded | core/packages/core/src/nativeOrdinaryAuthorityStore.ts:237-253 | an epoch that ended stays ended in every later state |
| AuthorityTheorems.OpeningEndsOlderEpochs | core/packages/core/src/nativeOrdinaryAuthorityStore.ts:237-253 | opening makes the new epoch the active one and ends every other |
| AuthorityTheorems.StaleInstanceIsPowerless | core/packages/core/src/nativeOrdinaryClaimStore.ts:263-270 | after a newer instance opened, an older one can at no later time reserve, activate, renew or recover: each call fails and changes nothing |
| AuthorityTheorems.DemandConservation | core/packages/core/src/nativeOrdinaryClaimStore.ts:105-236 | over any number of transactions a demand keeps its content and only moves forward; once out of the queue it is never queued again |
| AuthorityTheorems.DemandHeldOnce | core/packages/core/src/nativeOrdinaryClaimStore.ts:68-118 | a demand in hand is held by exactly one receipt, a queued one by none and under an active admission |
| AuthorityTheorems.OneDemandPerReviewJob | core/packages/core/src/nativeOrdinaryEventStore.ts:105-157 | a review job yields at most one demand over a whole run |
| AuthorityTheorems.EventKeepsItsDigest | core/packages/core/src/nativeOrdinaryEventStore.ts:139-157 | an event id keeps one event for ever |
| AuthorityTheorems.LimitsHold | core/packages/core/src/nativeOrdinaryEventStore.ts:12-13 | in every run at most 100000 event fences, 100000 tuple fences and 10000 open demands |
| AuthorityTheorems.ReplayCheckRefinesIntake | core/packages/core/src/nativeOrdinaryEventStore.ts:40-103 | when the replay check answers accepted or full, intake on the same state gives the same answer and state; otherwise it decided nothing; `AuthorityAnswers.ReplayCheckLaw` and `IntakeLaw` say in table terms what each decides |
| AuthorityTheorems.ReserveTakesOldest | core/packages/core/src/nativeOrdinaryClaimStore.ts:87-113 | a new reservation takes the oldest eligible demand and is empty only when none is eligible; `AuthorityAnswers.FirstReservation` states this in the columns' terms |
| AuthorityTheorems.RepeatedRequest | core/packages/core/src/nativeOrdinaryClaimStore.ts:75-78 | repeating a request at any later time, from any instance, changes nothing and names the same claim |
| AuthoritySchema.InvGivesUniqueKeys | core/packages/core/src/nativeOrdinaryAuthoritySchema.ts:8-164 | the invariant gives every unique key and partial unique index of the schema |
| AuthoritySchema.InvGivesForeignKeys | core/packages/core/src/nativeOrdinaryAuthoritySchema.ts:38-175 | the invariant gives every foreign key of the schema |
| AuthoritySchema.EpochInsertExact | core/packages/core/src/nativeOrdinaryAuthoritySchema.ts:8-13 | on tables that meet the whole schema, the insert's own test for service_epochs passes exactly when the key is new and the tables with the row still meet every key and reference |
| AuthoritySchema.AdmissionInsertExact | core/packages/core/src/nativeOrdinaryAuthoritySchema.ts:19-37 | on tables that meet the whole schema, the insert's own test for native_admissions passes exactly when the key is new and the tables with the row still meet every key and reference |
| AuthoritySchema.EventFenceInsertExact | core/packages/core/src/nativeOrdinaryAuthoritySchema.ts:49-52 | on tables that meet the whole schema, the insert's own test for native_event_replay_fences passes exactly when the key is new and the tables with the row still meet every key and reference |
| AuthoritySchema.TupleFenceInsertExact | core/packages/core/src/nativeOrdinaryAuthoritySchema.ts:53-57 | on tables that meet the whole schema, the insert's own test for review_job_replay_fences passes exactly when the key is new and the tables with the row still meet every key and reference |
| AuthoritySchema.InboxInsertExact | core/packages/core/src/nativeOrdinaryAuthoritySchema.ts:59-80 | on tables that meet the whole schema, the insert's own test for native_event_inbox passes exactly when the key is new and the tables with the row still meet every key and reference |
| AuthoritySchema.DemandInsertExact | core/packages/core/src/nativeOrdinaryAuthoritySchema.ts:81-103 | on tables that meet the whole schema, the insert's own test for demands passes exactly when the key is new and the tables with the row still meet every key and reference |
| AuthoritySchema.ReceiptInsertExact | core/packages/core/src/nativeOrdinaryAuthoritySchema.ts:105-117 | on tables that meet the whole schema, the insert's own test for claim_receipts passes exactly when the key is new and the tables with the row still meet every key and reference |
| AuthoritySchema.ClaimInsertExact | core/packages/core/src/nativeOrdinaryAuthoritySchema.ts:118-144 | on tables that meet the whole schema, the insert's own test for claims passes exactly when the key is new and the tables with the row still meet every key and reference |
| AuthoritySchema.AssignmentInsertExact | core/packages/core/src/nativeOrdinaryAuthoritySchema.ts:38-48 | on tables that meet the whole schema, the insert's own test for native_attempt_assignments passes exactly when the key is new and the tables with the row still meet every key and reference |
| AuthoritySchema.FenceInsertExact | core/packages/core/src/nativeOrdinaryAuthoritySchema.ts:145-152 | on tables that meet the whole schema, the insert's own test for capacity_fences passes exactly when the key is new and the tables with the row still meet every key and reference |
| AuthoritySchema.ResultInsertExact | core/packages/core/src/nativeOrdinaryAuthoritySchema.ts:153-164 | on tables that meet the whole schema, the insert's own test for host_results passes exactly when the key is new and the tables with the row still meet every key and reference |
| AuthoritySchema.ReportInsertExact | core/packages/core/src/nativeOrdinaryAuthoritySchema.ts:165-175 | on tables that meet the whole schema, the insert's own test for report_outbox passes exactly when the key is new and the tables with the row still meet every key and reference |
| AuthoritySchema.InboxLinkExact | core/packages/core/src/nativeOrdinaryAuthoritySchema.ts:59-80 | naming the demand of an inbox row passes its test exactly when the tables with it still meet the schema |
| AuthorityConstraints.ConstraintsHold | core/packages/core/src/nativeOrdinaryAuthoritySchema.ts:8-175 | in every run the tables meet the whole schema, and every row that the next transaction, whichever it is, inserts passes its test exactly when its random or attempt id is new: epochs, admissions, the five rows of intake, receipts, claims and assignments, every fence in any order, results and reports |
| AuthorityConstraints.StoredRowsAreValid | core/packages/core/src/nativeOrdinaryClaimStore.ts:217-245 | in every run a repeated request finds no invalid row and moving a claim into recovery hits no constraint |
| AuthorityDemands.DemandEdges | core/packages/core/src/nativeOrdinaryClaimStore.ts:105-236 | in every run each transaction moves a demand along at most its own edge: queued to preparing (reserve), preparing to claimed (activate), preparing to superseded (release), claimed to reported (result), claimed to superseded (recovery), reported to completed or failed (report), queued to superseded or reported to failed (end of an admission) |
| AuthorityRotation.InvalidateStep | core/packages/core/src/nativeOrdinaryAuthorityStore.ts:267-278 | ending a set of generations one after the other equals ending them at once |
| AuthorityRotation.InvalidateIsRotate | core/packages/core/src/nativeOrdinaryAuthorityStore.ts:226-235 | the three phases of ending generations equal one simultaneous update of every table |
| AuthorityStore.InsertOrIgnoreFences | core/packages/core/src/nativeOrdinaryFencing.ts:4-8 | the insert-or-ignore loop adds the fence of every selected claim and skips none |
| AuthorityStore.FenceGenerationClaims | core/packages/core/src/nativeOrdinaryFencing.ts:3-22 | its four statements fence exactly the generation's active claims |
| AuthorityStore.FenceExpiredClaims | core/packages/core/src/nativeOrdinaryFencing.ts:24-41 | its four statements fence exactly the active claims whose lease has run out (column by column in `AuthorityLaws.ExpireLaw`) |
| AuthorityStore.FenceRestartedClaims | core/packages/core/src/nativeOrdinaryFencing.ts:43-56 | its statements, though they select receipts by their own state and after the claims moved, fence exactly all active claims |
| AuthorityStore.DenyGeneration | core/packages/core/src/nativeOrdinaryResultStore.ts:181-193 | the loop over a generation's reports denies all of them |
| AuthorityStore.InvalidateGeneration | core/packages/core/src/nativeOrdinaryAuthorityStore.ts:226-235 | the statements, in their order, end one generation as specified |
| AuthorityStore.ExpireInTransaction | core/packages/core/src/nativeOrdinaryAuthorityStore.ts:267-278 | fencing plus the loop over foreign generations is the specified sweep, whatever the order of the rows (claim by claim in `AuthorityLaws.ExpireLaw`) |
| AuthorityStore.BeginEpochAndExpire | core/packages/core/src/nativeOrdinaryAuthorityStore.ts:237-253 | the opening transaction is the specified step, or is rolled back whole |
| AuthorityStore.NativeOrdinaryAuthorityStore.Admit | core/packages/core/src/nativeOrdinaryAuthorityStore.ts:102-141 | the transaction is the specified step and keeps the invariant |
| AuthorityStore.NativeOrdinaryAuthorityStore.Revoke | core/packages/core/src/nativeOrdinaryAuthorityStore.ts:143-163 | the transaction is the specified step and keeps the invariant |
| AuthorityStore.NativeOrdinaryEventStore.CheckReplay | core/packages/core/src/nativeOrdinaryEventStore.ts:40-72 | the statements give the specified answer and state |
| AuthorityStore.NativeOrdinaryEventStore.Accept | core/packages/core/src/nativeOrdinaryEventStore.ts:74-137 | fences, inbox row, demand and link are inserted in an order every constraint allows, giving the specified answer and state |
| AuthorityStore.NativeOrdinaryClaimStore.SelectOldest | core/packages/core/src/nativeOrdinaryClaimStore.ts:87-94 | the scan finds the oldest eligible demand, or none exactly when none is eligible |
| AuthorityStore.NativeOrdinaryClaimStore.Reserve | core/packages/core/src/nativeOrdinaryClaimStore.ts:68-118 | the transaction is the specified step and keeps the invariant |
| AuthorityStore.NativeOrdinaryClaimStore.Activate | core/packages/core/src/nativeOrdinaryClaimStore.ts:135-193 | the transaction is the specified step, rolled back whole when a constraint or the row check fails |
| AuthorityStore.NativeOrdinaryClaimStore.ReleaseStale | core/packages/core/src/nativeOrdinaryClaimStore.ts:195-215 | the transaction is the specified step |
| AuthorityStore.NativeOrdinaryClaimStore.Active | core/packages/core/src/nativeOrdinaryClaimStore.ts:120-133 | a claim is handed out exactly when it is active, unexpired, of this host and this epoch |
| LifecycleLock.ProbeSound | core/packages/core/src/lifecycleLock.ts:126-152 | the probe says live exactly for a process instance that runs, and never calls such an instance dead or reused |
| LifecycleLock.StepKeepsInv | core/packages/core/src/lifecycleLock.ts:47-115 | every step of any acquirer, process exit, reboot, fault or guard loss after publication keeps the lock's invariant |
| LifecycleLock.MutualExclusion | core/packages/core/src/lifecycleLock.ts:47-115 | in every run at most one running acquirer holds the lock, and the record names it |
| LifecycleLock.RecordIsRespected | core/packages/core/src/lifecycleLock.ts:213-251 | a record is only replaced when nobody holds the lock, and only removed by the acquirer it names |
| LifecycleLock.ReleaseRemovesOwnRecord | core/packages/core/src/lifecycleLock.ts:235-251 | release removes the releaser's own record and no other |
| LifecycleLock.TakeOver | core/packages/core/src/lifecycleLock.ts:72-103 | with nobody between guard and record, a missing record or one of a dead or reused process is taken over by any waiting acquirer's five steps |
| LifecycleLock.TakeOverAlways | core/packages/core/src/lifecycleLock.ts:47-115 | from any state in which the recorded process is gone there is a continuation in which a given waiting acquirer holds the lock |
| LifecycleLock.LockAvailableExactly | core/packages/core/src/lifecycleLock.ts:47-115 | a waiting acquirer can come to hold the lock without any process ending exactly when the lock is not frozen: somebody holds it or is about to, or there is no record, or its process is gone |
| LifecycleLock.StepStaysFrozen | core/packages/core/src/lifecycleLock.ts:78-103 | a frozen lock stays frozen, its record untouched, through every step but the end of the recorded process |
| LifecycleLock.FailedReleaseFreezes | core/packages/core/src/lifecycleLock.ts:235-251 | in every run a release that fails to remove its record freezes the lock |
| LifecycleLock.FailedPublicationFreezes | core/packages/core/src/lifecycleLock.ts:213-233 | in every run a publication that fails after its record is in place freezes the lock |
| LifecycleLock.EarlyGuardLossBreaksExclusion | core/packages/core/src/lifecycleLock.ts:69-78 | losing the guard before publication would let two acquirers hold the lock |
| JsonText.DecodeOfLiteral | core/packages/core/src/nativeControlPlaneJson.ts:26-27 | reading a written string literal, with any escapes, gives the name it stands for |
| JsonText.LiteralOfDecode | core/packages/core/src/nativeControlPlaneJson.ts:26-27 | only written literals are read, and the name read is theirs |
| JsonDuplicateKeys.HasDuplicateJsonKeys | core/packages/core/src/nativeControlPlaneJson.ts:1-35 | the loop computes the specified scan of every text, JSON or not |
| JsonDuplicateKeys.ScanDetectsRepeatedNames | core/packages/core/src/nativeControlPlaneJson.ts:1-35 | on the text of every JSON document in every layout the scan says true exactly when some object at some depth has two members with equal decoded names, and never fails |
| GitTree.ReadTree | core/packages/core/src/nativeGitCandidateObjects.ts:156-184 | the offset loop decodes as specified on all bytes; every turn moves the offset past a whole entry |
| GitTree.DecodeOfEncode | core/packages/core/src/nativeGitCandidateObjects.ts:164-183 | decoding the encoding of distinct safe entries gives them back, for ids of any one length |
| GitTree.EncodeOfDecode | core/packages/core/src/nativeGitCandidateObjects.ts:164-183 | accepted bytes re-encode to themselves exactly when mode tokens are 7-bit and no name starts with a byte-order mark |
| GitTree.DecodedAreSafe | core/packages/core/src/nativeGitCandidateObjects.ts:204-219 | whatever is accepted has distinct UTF-8 names, none empty, `.`, `..` or `.git`, none with a slash, backslash or zero byte, and full-length ids |
| GitTree.HighBitTokenIsAccepted | core/packages/core/src/nativeGitCandidateObjects.ts:170-173 | a mode token with a high bit is accepted and does not re-encode to itself |
| GitSnapshot.Materializer.MaterializeDirectory | core/packages/core/src/nativeGitCandidateObjects.ts:126-154 | the recursive method with its counters does what the specification says, for every store |
| GitSnapshot.MaterializeGives | core/packages/core/src/nativeGitCandidateObjects.ts:126-154 | from any consistent state, materialising succeeds exactly when the tree loads and all totals fit, and adds exactly its flattening, each path once and after its parent |
| GitSnapshotTheorems.MaterializeExact | core/packages/core/src/nativeGitCandidateObjects.ts:94-154 | materialising succeeds exactly on a tree readable within the depth limit whose entry, tree-byte, blob and total byte counts are within limits; it writes the flattening |
| GitSnapshotTheorems.MaterializedIsTheTree | core/packages/core/src/nativeGitCandidateObjects.ts:126-154 | after success a path is written exactly when the tree has a file or directory there, with its content and mode |
| GitSnapshotTheorems.CyclicTreeIsRefused | core/packages/core/src/nativeGitCandidateObjects.ts:126-131 | a tree on a cycle of directories of any length is refused at every depth limit |
| GitSnapshotTheorems.CyclicTreeIsNotMaterialized | core/packages/core/src/nativeGitCandidateObjects.ts:126-131 | so neither form materialises it, whatever the limits |
| GitSnapshotTheorems.ReachingCycleIsRefused | core/packages/core/src/nativeGitCandidateObjects.ts:126-131 | a tree from which a path of directories leads to one that never loads does not load either |
| GitSnapshotTheorems.ReadVerifiedBlob | core/packages/core/src/nativeGitCandidateObjects.ts:63-92 | the loop over path components does what the specification says |
| GitSnapshotTheorems.ReadAgreesWithMaterialized | core/packages/core/src/nativeGitCandidateObjects.ts:63-92 | reading one file of a materialised tree succeeds and agrees with it exactly when the path has at most as many components as the depth limit (one less than materialising allows) and the file is within the reader's limit |
| GitRootReader.RootReader.ReadRootEntries | core/packages/core/src/nativeGitRootSnapshotTree.ts:88-124 | decoding and recursing in one loop does what the specification says |
| GitRootReader.RootReader.WriteRootEntries | core/packages/core/src/nativeGitRootSnapshotTree.ts:126-137 | the writing loop does what the specification says |
| GitSnapshotTheorems.ReadRootLists | core/packages/core/src/nativeGitRootSnapshotTree.ts:88-124 | the list read is the tree in preorder, read exactly when the tree loads and its counts fit |
| GitSnapshotTheorems.WriteRootWrites | core/packages/core/src/nativeGitRootSnapshotTree.ts:126-137 | writing a preordered list succeeds exactly when the files fit and writes the flattening |
| GitSnapshotTheorems.RootSnapshotExact | core/packages/core/src/nativeGitRootSnapshotTree.ts:77-79 | listing and then writing succeeds exactly on a readable tree within all limits, links aside, and writes its flattening |
| GitSnapshotTheorems.BothFormsAgree | core/packages/core/src/nativeGitRootSnapshotTree.ts:88-137 | on trees without links both forms succeed together and write the same files |
| DigestPreimages.UnframeOfFrame | core/packages/core/src/nativeOrdinaryAuthorityProtocol.ts:87-87 | length-prefixed fields are read back, for every list of fields |
| DigestPreimages.DescriptorPreimageInjective | core/packages/core/src/nativeOrdinaryAuthorityProtocol.ts:77-89 | two descriptors have equal preimages exactly when they are equal |
| DigestPreimages.TuplePreimageInjective | core/packages/core/src/nativeOrdinaryEvent.ts:65-74 | two review-job tuples have equal preimages exactly when they are equal |
| DigestPreimages.CapacityPreimageIsTheSet | core/packages/core/src/nativeOrdinaryAuthorityProtocol.ts:95-110 | with capacities that agree when their keys do, equal preimages are exactly equal multisets of capacities: order does not matter and nothing else collides |
| DigestPreimages.ClashingKeysKeepTheirOrder | core/packages/core/src/nativeOrdinaryAuthorityProtocol.ts:95-100 | two different capacities under one key are hashed in the order given, so order matters without unique keys |
| DigestPreimages.NativeDescriptorDigest | core/packages/core/src/nativeOrdinaryAuthorityProtocol.ts:77-89 | the loop feeds the specified preimage |
| DigestPreimages.NativeReviewJobTupleDigest | core/packages/core/src/nativeOrdinaryEvent.ts:65-74 | the loop feeds the specified preimage |
| DigestPreimages.NativeCapacityConfigDigest | core/packages/core/src/nativeOrdinaryAuthorityProtocol.ts:95-110 | sorting and the nested loops feed the specified preimage |
| SessionStream.SessionReader.OnData | core/packages/cli/src/controller-session.ts:212-240 | the block loop does what the specification says for every chunk |
| SessionStream.ChunkingDoesNotMatter | core/packages/cli/src/controller-session.ts:212-240 | feeding any text in any chunks leaves the client as feeding it whole |
| SessionStream.StreamRoundTrip | core/packages/core/src/adminController.ts:181-185 | any events, printed and cut into any chunks, reach the client one by one and in order |
| SessionStream.AllDelivered | core/packages/cli/src/controller-session.ts:212-240 | when no payload makes the client throw it has seen exactly the payloads delivered |
| SessionLog.CommandSession.Emit | core/packages/core/src/commandSessions.ts:113-118 | emitting appends to the history, keeps the log its bounded tail and keeps every listener without gap or duplicate up to the end of its response |
| SessionLog.CommandSession.SendSessionEvents | core/packages/core/src/adminController.ts:176-197 | subscribing and replaying sends the retained events up to the first that ends the response, and makes the listener follow from there; the stream is in error exactly when something was written after the end |
| SessionLog.CommandSession.Unsubscribe | core/packages/core/src/commandSessions.ts:74-79 | takes one response out of the listeners and leaves every other one following the log |
| SessionLog.RetainedIsTheTail | core/packages/core/src/commandSessions.ts:113-118 | the retained log is the last min(n, 4096) events, numbered consecutively up to the last |
| SessionLog.EndToEnd | core/packages/cli/src/controller-session.ts:212-240 | from log to client: whatever the chunks, a client that none of the sent payloads makes throw sees the payloads of consecutive events from the replay start up to the first that ends the response |
| RouteRegistry.RunAgrees | plugin-external-urls/src/httpRouteRegistry.ts:21-78 | in every run each authority has exactly one claim and every live flow goes to the upstream now registered for its authority and claim |
| RouteRegistry.ClosedClaims | plugin-external-urls/src/httpIngress.ts:101-143 | in every run revoking, disabling through setApproval and rebinding leave the claim without flows |
| RouteRegistry.FailedProvision | plugin-external-urls/src/httpIngress.ts:101-114 | a registration that is refused changes nothing; one whose URL is refused afterwards has registered |
| RouteListener.WorkspaceRouteRegistry.Provision | plugin-external-urls/src/httpRouteRegistry.ts:21-52 | the loops check all authorities before changing any and bind all of them as specified |
| RouteListener.WorkspaceRouteRegistry.Revoke | plugin-external-urls/src/httpIngress.ts:133-137 | releases the claim at the given authorities and closes its flows |
| RouteListener.WorkspaceRouteRegistry.SetApproval | plugin-external-urls/src/httpIngress.ts:139-143 | switches the claim at all authorities or at none, closing its flows when disabled |
| RouteListener.WorkspaceRouteRegistry.DestroyClaim | plugin-external-urls/src/httpFlows.ts:50-57 | takes out exactly the claim's flows of both kinds |
| TcpIngress.TcpRunAgrees | plugin-external-urls/src/tcpIngress.ts:80-175 | in every run connections number at most the maximum, are none without a route and all go to the route's upstream under its claim |
| TcpIngress.TcpIsARegistry | plugin-external-urls/src/tcpIngress.ts:80-123 | the TCP listener grants, revokes and switches exactly as the registry would for one authority |
| TcpIngress.TcpIngressListener.Provision | plugin-external-urls/src/tcpIngress.ts:80-111 | the method is the specified step |
| TcpIngress.TcpIngressListener.ForwardClient | plugin-external-urls/src/tcpIngress.ts:136-147 | a client is forwarded exactly when the route is enabled and there is room |
| MutationQueue.OneAtATime | plugin-external-urls/src/index.ts:980-988 | in every run at most one queued operation runs, everything submitted before it has settled and nothing after it has begun |
| MutationQueue.NeverStuck | plugin-external-urls/src/index.ts:980-988 | a failed operation does not hold the queue up |
| ExternalUrls.ReconcileKeepsInv | plugin-external-urls/src/index.ts:813-869 | an accounted reconciliation, with any store write failing and any answer from outside, keeps every own claim backed by its entry |
| ExternalUrls.CreateKeepsInv | plugin-external-urls/src/index.ts:871-934 | every creation, also one whose URL is refused, keeps every own claim backed or disabled and of no entry |
| ExternalUrls.ApproveKeepsInv | plugin-external-urls/src/index.ts:467-490 | approving keeps every own claim backed; what it stores and enables is `ExternalUrlLaws.ApprovalLaw` |
| ExternalUrls.RevokeKeepsInv | plugin-external-urls/src/index.ts:491-495 | revoking keeps every own claim backed |
| ExternalUrls.DeleteKeepsInv | plugin-external-urls/src/index.ts:936-978 | deleting and discarding keep every own claim backed |
| ExternalUrlTheorems.ApprovalSafety | plugin-external-urls/src/index.ts:467-495 | in every run with restarts and failing writes whose reconciliations are accounted for, an enabled claim created where approval is required is that of a stored approved entry at one of its authorities, and no entry once stored and now revoked or deleted has a route |
| ExternalUrlTheorems.AccountedExactly | plugin-external-urls/src/index.ts:813-869 | at every state of such a run an operation is accounted for exactly when no accounted continuation breaks that promise; only a reconciliation can fail to be, when its URL is refused after registering under the entry's own claim, or the entry is current, keeps its authorities and records no claim |
| ExternalUrlTheorems.UnanswerableBreaks | plugin-external-urls/src/index.ts:835-847 | after a reconciliation that is not accounted for, revoking the entry leaves it revoked with a route |
| ExternalUrlTheorems.ValidUrlsAreAccounted | plugin-external-urls/src/index.ts:813-869 | with valid URLs in reconciliations and entries that record their claims every run is accounted for; creations are not restricted |
| ExternalUrlTheorems.RevokedIsFinal | plugin-external-urls/src/index.ts:467-495 | in every run a revoked or deleted entry is never approved again |
| ExternalUrlTheorems.RefusedCreate | plugin-external-urls/src/index.ts:892-904 | a creation whose URL is refused leaves the claim at every authority and no entry: its own claim disabled where approval is required, the shared claim enabled where it is not |
| ExternalUrlTheorems.LeftoverIsInert | plugin-external-urls/src/index.ts:871-978 | such a disabled leftover stays as it is, and its authority taken, through every operation but a restart |
| ExternalUrlTheorems.XnNamesAreRefused | plugin-external-urls/src/httpIngress.ts:244-257 | every automatic name of a workspace called xn passes the prefix policy and the label check and makes a host that a URL cannot have |
| ExternalUrlTheorems.XnCreationLeavesAnEnabledRoute | plugin-external-urls/src/httpIngress.ts:101-114 | creating a URL automatically for that workspace where no approval is needed fails and leaves an enabled route without an entry |
| ExternalUrlTheorems.LeftoverOutlivesRevocation | plugin-external-urls/src/httpIngress.ts:101-137 | when the policy moves an approved, current entry from its name to such a name, both with its permalink, the new name is still enabled after the entry is revoked |
| ExternalUrlTheorems.UnrecordedClaimOutlivesRevocation | plugin-external-urls/src/httpIngress.ts:133-137 | an approved, current entry without a recorded claim is provisioned under its id and revoked under its authority, so it is still enabled after it is revoked |
| Punycode.DigitsNeverEnd | plugin-external-urls/src/httpIngress.ts:244-249 | decimal digits alone never end a variable-length integer of section 6.2 of RFC 3492 |
| Punycode.NumberedNameIsRefused | plugin-external-urls/src/httpIngress.ts:244-249 | a parser that refuses undecodable labels accepts no host whose first label is xn-- and a number |
| ExternalUrlController.ExternalUrlController.ReconcileStoredRoute | plugin-external-urls/src/index.ts:813-869 | the statements are the specified step |
| ExternalUrlController.ExternalUrlController.CreateUrl | plugin-external-urls/src/index.ts:892-933 | the statements are the specified step |
| ExternalUrlController.ExternalUrlController.TransitionRouteApproval | plugin-external-urls/src/index.ts:467-495 | the statements are the specified step |
| ExternalUrlController.ExternalUrlController.DeleteUrl | plugin-external-urls/src/index.ts:936-950 | the statements are the specified step |
| ExternalUrlController.ExternalUrlController.RemoveWorkspaceRoutes | plugin-external-urls/src/index.ts:966-978 | the loop deletes one entry after the other up to the first failing write |
| ExternalUrlController.DiscardIsARun | plugin-external-urls/src/index.ts:966-978 | discarding a workspace is a run of single deletions |
| PrivateRoot.PrivateRootHost.Create | core/packages/core/src/nativeOrdinaryExecutorRoot.ts:36-81 | cut short after any number of file operations, creation leaves the specified directories |
| PrivateRoot.PrivateRootHost.Cleanup | core/packages/core/src/nativeOrdinaryExecutorRoot.ts:83-108 | the checks and removals are the specified step |
| PrivateRoot.CleanupAfterCrash | core/packages/core/src/nativeOrdinaryExecutorRoot.ts:36-147 | after a crash at any file operation and any byte of the marker, cleanup from the planned identity succeeds and leaves neither directory exactly when the process mask kept the owner bits in the two windows before chmod; otherwise nothing changes |
| PrivateRoot.CreateThenCleanup | core/packages/core/src/nativeOrdinaryExecutorRoot.ts:36-147 | however far creation came and however it ended, cleanup restores the parent, masks permitting |
| PrivateRoot.MaskedCrashStays | core/packages/core/src/nativeOrdinaryExecutorRoot.ts:45-46 | with a mask that takes an owner bit, a crash right after mkdir leaves a directory cleanup refuses |
| PrivateRoot.StagingRemovalResumes | core/packages/core/src/nativeOrdinaryExecutorRoot.ts:111-129 | a crash while a staging directory is removed does not stop the next cleanup |
| PrivateRoot.FinalRemovalExact | core/packages/core/src/nativeOrdinaryExecutorRoot.ts:100-107 | a crash while a final directory is removed can be cleaned up after exactly when its marker was still there; otherwise every later cleanup refuses the directory |
| PrivateRoot.CleanupNeverOverreaches | core/packages/core/src/nativeOrdinaryExecutorRoot.ts:83-147 | for any parent: a refusal changes nothing, success leaves neither directory, and only an own staging directory holding at most a beginning of the marker or a final one with matching identity and marker is removed |
| PrivateRoot.CleanupIsLocal | core/packages/core/src/nativeOrdinaryExecutorRoot.ts:25-30 | other roots' directories stay, and cleaning up twice is cleaning up once |
| HostLease.CurrentMeansUnexpired | core/packages/core/src/nativeOrdinaryExecutorLease.ts:32-97 | in every run a lease that says it is current before it is stopped has not expired at the authority |
| HostLeaseAuthority.CurrentIsNotSwept | core/packages/core/src/nativeOrdinaryFencing.ts:24-41 | in every run of host and database together, with renewals as transactions and any transactions of others that take no time back, while the host may say its lease is current no sweep takes the claim |
| HostLeaseAuthority.ClaimsStay | core/packages/core/src/nativeOrdinaryLeaseStore.ts:35-59 | no transaction removes the claim |
| HostLease.SafeExactlyUntilStopped | core/packages/core/src/nativeOrdinaryExecutorLease.ts:88-97 | at every state of every run the lease answers current at no time past the authority's expiry exactly when it is not stopped or already lost |
| HostLease.LossIsPermanent | core/packages/core/src/nativeOrdinaryExecutorLease.ts:46-54 | a lost lease is lost for ever, and a first reason other than running out is kept |
| HostLease.StoppedStaysCurrent | core/packages/core/src/nativeOrdinaryExecutorLease.ts:46-54 | after stop an unlost lease says it is current for ever |
| HostLease.StoppedOutlivesExpiry | core/packages/core/src/nativeOrdinaryExecutorLease.ts:88-91 | so after stop it may do so past the authority's expiry |
| HostLease.RenewalGrantsRecordedExpiry | core/packages/core/src/nativeOrdinaryLeaseStore.ts:35-59 | a granted duration is exactly how far the recorded expiry lies ahead, and is granted only before it |
| HostLease.NativeLease.AcceptResponse | core/packages/core/src/nativeOrdinaryExecutorLease.ts:75-83 | the deadline counts from when the request was sent; a late answer loses the lease |
| HostLease.NativeLease.Current | core/packages/core/src/nativeOrdinaryExecutorLease.ts:88-91 | the answer and the state it leaves are as specified |
| HostLifecycle.Host.ShutdownHost | core/packages/core/src/hostShutdown.ts:15-48 | cut short after any number of writes and stops, the record is as specified |
| HostLifecycle.Host.StartHost | core/packages/core/src/hostRecovery.ts:15-39 | cut short anywhere, the record and the recovered names are as specified |
| HostLifecycle.NamesExact | core/packages/core/src/hostShutdown.ts:20-25 | exactly the ready workspaces are to be resumed; exactly those and the discarding ones are stopped |
| HostLifecycle.ResumeListIsKept | core/packages/core/src/hostShutdown.ts:15-48 | through any crashes and failed calls the record holds exactly the workspaces ready when the last shutdown began, until one start call has recovered all of them |
| HostLifecycle.ReadyMeansRecovered | core/packages/core/src/hostRecovery.ts:15-39 | the host becomes ready again only through a start call that recovered the whole list |
| HostAdmission.AdminIsUndisturbed | core/packages/core/src/hostAdminAdmission.ts:14-26 | in every interleaving with crashes, while an admitted admin operation works the host is ready, its record stays, no step stops or recovers a workspace, and no shutdown, start or other admin operation works |
| HostAdmission.InterleavingKeepsResumeList | core/packages/core/src/hostShutdown.ts:15-48 | in every interleaving with crashes the record is what the shutdowns and starts that took the lock, logged in that order with how far each came, make of it one after the other; and until a logged start has recovered them all it holds exactly the workspaces that were ready when the last logged shutdown began |
| HostAdmission.LogOnlyGrows | core/packages/core/src/hostRecovery.ts:15-39 | a call that has ended stays in the log as it is |
| HostAdmission.RuntimeMayOverlap | core/packages/core/src/hostAdminAdmission.ts:28-40 | a runtime operation gives the lock back first, so a shutdown can stop a workspace beside it |
| HostLifecycle.UndisturbedStart | core/packages/core/src/hostRecovery.ts:28-37 | a start call in which every recovery succeeds makes the host ready |
| Subdomains.ChooseSubdomain | plugin-external-urls/src/index.ts:880-886 | the loop ends with the least index whose name is unused, at most the number of used names |
| Subdomains.AutomaticName | plugin-external-urls/src/routePolicy.ts:31-56 | an automatic name passes the prefix policy, and the label check exactly when it has at most 63 octets, which up to 11 digits it always has; for long workspace names 11 digits is the exact bound |
| Subdomains.PermalinkIsLabel | plugin-external-urls/src/routePolicy.ts:58-61 | a permalink name is a label of at most 63 octets |
| Subdomains.PermalinksApart | plugin-external-urls/src/routePolicy.ts:58-61 | routes with different ids have different permalink names, whatever their workspaces |
| Subdomains.StableHash | plugin-external-urls/src/routePolicy.ts:160-167 | the loop folds the bytes as specified, in 32-bit arithmetic |
| Subdomains.OneLabel | plugin-external-urls/src/httpIngress.ts:251-257 | a text of label characters passes the subdomain check exactly when it is a label |
| AuthorityLaws.FenceLaw | core/packages/core/src/nativeOrdinaryFencing.ts:3-56 | each fenced claim and its receipt are recovering, its capacity is fenced in its name and it has no assignment; every other claim, receipt and assignment is as it was |
| AuthorityLaws.RotationLaw | core/packages/core/src/nativeOrdinaryAuthorityStore.ts:226-235 | ending admissions: their active claims are fenced as rotated, their undelivered reports refused with demand failed, and every other claim keeps its work |
| AuthorityLaws.EndedRows | core/packages/core/src/nativeOrdinaryAuthorityStore.ts:226-235 | exactly the named admissions change state, and of their demands the queued are superseded, the reported fail, the others stay |
| AuthorityLaws.EndedInbox | core/packages/core/src/nativeOrdinaryResultStore.ts:181-193 | an inbox row ends exactly when its demand's undelivered report is refused |
| AuthorityLaws.ExpireLaw | core/packages/core/src/nativeOrdinaryAuthorityStore.ts:267-278 | the sweep, claim by claim: an active claim at or past its expiry is fenced as lease-lost; one still current is fenced as rotated when its active admission carries another capacity digest and is untouched otherwise |
| AuthorityLaws.SweptClean | core/packages/core/src/nativeOrdinaryFencing.ts:24-41 | after the sweep no claim is active past its expiry, or under an admission of another digest; what is active is unchanged |
| AuthorityLaws.SweptRows | core/packages/core/src/nativeOrdinaryAuthorityStore.ts:267-278 | the sweep replaces exactly the active admissions of another digest and ends their demands |
| AuthorityLaws.OpenLaw | core/packages/core/src/nativeOrdinaryAuthorityStore.ts:237-253 | opening fences every active claim for the restart, whatever its lease, and leaves the new epoch alone active |
| AuthorityLaws.RevokeLaw | core/packages/core/src/nativeOrdinaryAuthorityStore.ts:143-163 | a revocation takes effect exactly when the repository's active admission is the one named at this digest, and then ends it and the foreign ones; otherwise nothing is written, not even the sweep |
| AuthorityLaws.AdmitAgain | core/packages/core/src/nativeOrdinaryAuthorityStore.ts:102-141 | a policy that its admission already carries at this digest: that admission is extended, the rest is the sweep |
| AuthorityLaws.AdmitAnew | core/packages/core/src/nativeOrdinaryAuthorityStore.ts:102-141 | any other policy: a new active admission of this service and digest, the repository's old one replaced with its claims; a used id changes nothing |
| AuthorityAnswers.BeforeIsTextBefore | core/packages/core/src/nativeOrdinaryClaimStore.ts:93 | the recursive byte order is: smaller at the first difference, or a proper prefix |
| AuthorityAnswers.OldestWaitsLongest | core/packages/core/src/nativeOrdinaryClaimStore.ts:87-94 | oldest is: queued under an unexpired active admission of this service and digest, created no later than any such demand, and first by bytes of the id among its own time |
| AuthorityAnswers.FirstReservation | core/packages/core/src/nativeOrdinaryClaimStore.ts:79-118 | a first request: conflict while the capacity is fenced or unfinished; otherwise it takes the demand that has waited longest, answers its event, generation and capacity, and is empty exactly when none waits |
| AuthorityAnswers.RepeatedReservation | core/packages/core/src/nativeOrdinaryClaimStore.ts:217-245 | a repeated request writes nothing and is answered by the state of its receipt |
| AuthorityAnswers.ActivationLaw | core/packages/core/src/nativeOrdinaryClaimStore.ts:135-193 | activation, exactly: a claim with its assignment is added when the receipt is still preparing, the proof is of the reserved job, the admission stands, the descriptor follows policy and capacity, the attempt id is new and the issuance is for it; each failing case gives its own answer and writes nothing |
| AuthorityAnswers.ActivatedClaimFits | core/packages/core/src/nativeOrdinaryAuthorityProtocol.ts:112-125 | the descriptor of every claim that activation adds has each of its five bounds at most the capacity's, the capacity's two images, the policy's six fields and one of its jobs; the admission is unexpired and the lease ends one lease from now |
| AuthorityAnswers.IntakeLaw | core/packages/core/src/nativeOrdinaryEventStore.ts:74-157 | intake, exactly: each answer with its condition on the fences, admissions, limits and ids, and what it leaves |
| AuthorityAnswers.AcceptedMeansFenced | core/packages/core/src/nativeOrdinaryEventStore.ts:139-157 | accepted exactly when the id is afterwards fenced for this very event: it was before, or its job was fenced for the same tuple, or one queued demand was added |
| AuthorityAnswers.RefusedIntake | core/packages/core/src/nativeOrdinaryEventStore.ts:82-157 | conflict exactly for an id fenced for another event or a job fenced for another tuple; not found exactly when no fence knows the event and no unexpired active admission of this service and digest covers it; neither writes |
| AuthorityAnswers.ReplayCheckLaw | core/packages/core/src/nativeOrdinaryEventStore.ts:40-72 | accepted, full and new, each with its exact condition on the two fences; new also for what intake answers with a conflict |
| AuthorityWork.RenewalLaw | core/packages/core/src/nativeOrdinaryLeaseStore.ts:35-59 | a renewal is granted exactly to the named, active, unexpired claim and moves only its expiry; the same request later answers the same expiry until that has passed |
| AuthorityWork.RecoveryLaw | core/packages/core/src/nativeOrdinaryLeaseStore.ts:61-120 | beginning a recovery, exactly: pending for an active claim or one recovering under the same request, already released for the request that finished it, else a conflict; the rows left are given one by one |
| AuthorityWork.RecoveryEndLaw | core/packages/core/src/nativeOrdinaryLeaseStore.ts:122-151 | a recovery ends exactly for the named recovering claim, the acknowledging request and a revocation of its issuance; then the capacity is free for the next reservation |
| AuthorityWork.RecoveryEndsOnce | core/packages/core/src/nativeOrdinaryLeaseStore.ts:61-151 | afterwards the same request is told so and every other one refused |
| AuthorityWork.ReportLaw | core/packages/core/src/nativeOrdinaryResultStore.ts:44-99 | a known claim or request id accepts only the identical report; a new one is accepted exactly when it is of the active unexpired claim as issued, under an admission of this digest; accepted means stored |
| AuthorityWork.ReportCloseLaw | core/packages/core/src/nativeOrdinaryResultStore.ts:162-175 | closing takes effect exactly on a reported claim: it frees the job, ends the inbox row, and completes or fails the demand |
| AuthorityWork.ReleaseLaw | core/packages/core/src/nativeOrdinaryClaimStore.ts:195-215 | releasing takes effect exactly on the request's own receipt still preparing, and frees the capacity |
| ExternalUrlLaws.ProvisionLaw | plugin-external-urls/src/httpIngress.ts:101-114 | registering free authorities: each leads to the upstream under the claim alone, the others are untouched, and the claim's flows are cut exactly when one of them moves |
| ExternalUrlLaws.RefusedProvision | plugin-external-urls/src/httpRouteRegistry.ts:21-52 | an authority somebody else holds, or none given, refuses all of it and changes nothing |
| ExternalUrlLaws.SwitchLaw | plugin-external-urls/src/httpIngress.ts:139-143 | switching takes effect exactly when the claim is registered at all the authorities; then at each of them on its own upstream |
| ExternalUrlLaws.ReleaseLaw | plugin-external-urls/src/httpIngress.ts:133-137 | releasing removes the authorities the claim holds and its flows, and nothing else |
| ExternalUrlLaws.ApprovalLaw | plugin-external-urls/src/index.ts:467-490 | approving a pending entry of the current policy whose claim is registered at all its authorities stores it as approved and enables each of them on its upstream, with its old flows closed; when the write fails it stays pending and disabled |
| ExternalUrlLaws.RefusedApproval | plugin-external-urls/src/index.ts:467-490 | any other approval changes nothing |
| ExternalUrlLaws.ReconcileCurrentLaw | plugin-external-urls/src/index.ts:813-869 | reconciling a current entry whose own authorities are free leaves the store and makes each lead to the upstream, enabled exactly when approved or in no need of it |
| ExternalUrlLaws.ReconcileStaleLaw | plugin-external-urls/src/index.ts:813-869 | an entry out of date is brought up to date, waits for approval again where required, and its new authorities are enabled exactly as that allows |
| ExternalUrlLaws.CreateLaw | plugin-external-urls/src/index.ts:871-934 | a creation stores the entry as pending and disabled where approval is required, enabled otherwise, at each authority |
| ExternalUrlLaws.UnwrittenCreate | plugin-external-urls/src/index.ts:871-934 | a gated creation whose write fails leaves the registry's routes as they were |
| ExternalUrlLaws.RevocationLaw | plugin-external-urls/src/index.ts:491-495 | revoking stores the entry as revoked and takes away its claim's routes and flows, nothing else |
| ExternalUrlLaws.DeletionLaw | plugin-external-urls/src/index.ts:936-978 | deleting takes the same away; the entry goes, or stays as revoked when its removal fails |
| GitTreeLaws.ModeExact | core/packages/core/src/nativeGitCandidateObjects.ts:169-173 | a mode token is accepted exactly when it reads 40000, 100644, 100755 or, for the root reader, 120000 once high bits are cleared |
| GitTreeLaws.Utf8Exact | core/packages/core/src/nativeGitCandidateObjects.ts:204-212 | the names that decode are exactly the encodings of sequences of Unicode scalar values |
| GitTreeLaws.HeadExact | core/packages/core/src/nativeGitCandidateObjects.ts:169-176 | an entry is accepted, and read as this one, exactly when its token has the mode and its name is UTF-8 and, without a byte-order mark, harmless |
| GitTreeLaws.AcceptedExactly | core/packages/core/src/nativeGitCandidateObjects.ts:164-183 | a tree is accepted and read as these entries exactly when its bytes are those entries one after another with no name twice |
| GitTreeLaws.WrittenPathsAreHarmless | core/packages/core/src/nativeGitCandidateObjects.ts:126-154 | no path that either form writes has a component that is empty, `.`, `..` or `.git`, or that holds a slash |
| GitTreeLaws.ListedPathsAreHarmless | core/packages/core/src/nativeGitRootSnapshotTree.ts:88-124 | nor has any path the root reader lists |
| HostLifecycle.UndisturbedShutdown | core/packages/core/src/hostShutdown.ts:15-48 | an uninterrupted shutdown ends stopped exactly when every stop succeeded and broken otherwise; a cut one is left stopping; the list is the ready workspaces |
| HostLifecycle.FailedStart | core/packages/core/src/hostRecovery.ts:28-37 | a start stops at the first name it cannot recover, broken, with the whole list kept |
| Subdomains.NormalizedExact | plugin-external-urls/src/routePolicy.ts:53 | normalising keeps everything from the first to the last letter or digit, a hyphen for each other character that no label has, and calls a name without any workspace |
| JsonText.EscapesAsText | core/packages/core/src/nativeControlPlaneJson.ts:26-27 | the eight escape letters and what each stands for, as texts |
| HostLease.RenewalLasts | core/packages/core/src/nativeOrdinaryExecutorLease.ts:75-97 | a renewal that arrives makes a running lease current exactly until one duration after its request was sent |
| TcpIngress.ForwardExact | plugin-external-urls/src/tcpIngress.ts:136-147 | the connections after a client are those before, and one under the route's claim to its upstream exactly when it is enabled and there is room |
| HostAdmission.AdmissionExact | core/packages/core/src/hostAdminAdmission.ts:14-40 | past the lock an operation is let in exactly when the host is ready; admin operations keep the lock, runtime operations give it back |
| PrivateRoot.CleanupExact | core/packages/core/src/nativeOrdinaryExecutorRoot.ts:83-208 | cleanup succeeds exactly when the parent is private, at most one of the two directories is there and it is this claim's own: owner, mode, links, identity and marker spelled out; then neither is left and nothing else is touched, otherwise nothing changes |
| SessionStream.DeliveredExact | core/packages/cli/src/controller-session.ts:212-240 | the client sees the payloads up to and including the first that throws, and the session is settled by the first that does not simply go on |
| Subdomains.HashIsFnv | plugin-external-urls/src/routePolicy.ts:160-167 | two published values of 32-bit FNV-1a |
| Subdomains.HexReads | plugin-external-urls/src/routePolicy.ts:55 | the padded hexadecimal text reads back as the number |

## Left out

- The lease and result stores are steps on values without statement-level methods; terminal details, report payloads, retry times and `currentResult`, `admitted` and `current` queries are not modelled.
- Row time stamps and the checks on them, SQL text, JSON storage of rows, hashing, the bundle activation table and opening the database file.
- Lifecycle lock: flock, `/proc` parsing, temporary files and fsync; the guard is taken to last until the record is published, as `LifecycleLock.EarlyGuardLossBreaksExclusion` shows it must. Time-outs and retry delays only decide when an acquirer gives up.
- JSON numbers, literals and white space are any runs without structural characters, which includes every JSON text and more.
- Git objects: process calls, object hashing, commits, the staging directory and rename around a materialisation, permission bits beyond executable; the symbolic-link pass of `writeRootEntries` and its `realpath` checks.
- DigestPreimages.CapacityPreimageIsTheSet: strings are their UTF-8 bytes and keys are ordered by bytes; for keys outside ASCII the source orders UTF-16 units, which is another total order.
- SessionStream: payloads are opaque one-line texts; what the client does with output, progress and base64 is reduced to going on, settling or throwing. UTF-8 decoding across chunks is left to the stream.
- RouteRegistry: host names arrive normalised; proxying, headers, TLS and sockets are reduced to opening and dropping flows. A claim disabled by `provision` with an unchanged upstream keeps its flows, as in the source.
- ExternalUrlTheorems.ApprovalSafety: claims are those of entries' own ids; entries created without approval share one claim across paths and are not covered. Which hosts a URL parser accepts is a parameter, of which only the refusal of undecodable `xn--` labels is known; stored HTTP entries have hosts it accepts, as everything the code stores does. Listing, and creating what already exists, are reconciliations one after the other. Ingress removal, DNS, Caddy and webhooks are left out, and request validation beyond the subdomain.
- PrivateRoot: marker text is read by a given function; a directory's entries are files; concurrent changes of the parent between two checks and loss of unsynced data are not modelled.
- HostLease: both sides share one time line and rate, and the authority's tick at which a renewal is granted lies between sending and receipt; the schedule of renewals and aborting signals are not modelled, nor why a renewal fails.
- HostLifecycle: stopping and recovering a workspace are outcomes; record time stamps and error texts are left out. The lock is the lifecycle lock above.
- Subdomains.AutomaticName: starts from the lower-case form of the workspace name; the webhook policy and the reserved service name are left out.
- Connection-file loaders, request validators, Docker, systemd, Cloudflare, Tailscale, CLI output: easy one-branch checks or plumbing.
