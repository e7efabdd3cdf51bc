/**
 Renewal, recovery and reports in the columns' own terms: the exact condition of each answer, and each
 write as an update of single rows, where the statements themselves select rows by set.
 */
module AuthorityWork {
  import opened Wrappers
  import opened AuthorityTables
  import opened AuthoritySteps
  import opened AuthorityInvariant
  import opened AuthorityAnswers
  import opened AuthorityStore

  // ---- moving one claim ----

  /** Under the invariant a claim, its receipt, its demand, its event and its job name each other. */
  lemma OwnRows(t: Tables, c: string)
    requires Inv(t) && c in t.claims
    ensures c in t.receipts && t.receipts[c].slot == t.claims[c].slot && t.receipts[c].state == ReceiptOf(t.claims[c].state)
    ensures t.claims[c].demandId in t.demands && Coupled(t.receipts[c].state, t.demands[t.claims[c].demandId].state)
    ensures t.claims[c].eventId in t.inbox
  {
    hide QueueOk, ReceiptKeysOk, HoldersOk, ClaimsOk, AttemptsOk, ClaimAuthorityOk, EpochsOk, AdmissionsOk, AssignmentsOk,
      FencesOk, OutboxOk, ResultsOk, LimitsOk, InboxOk;
    RowOfClaim(t.receipts, t.claims, t.demands, c);
  }

  lemma OneClaimMoves(claims: map<string, Claim>, c: string, state: ClaimState)
    requires c in claims
    ensures MoveClaims(claims, {c}, state) == claims[c := claims[c].(state := state)]
  {
  }

  lemma OneReceiptMoves(receipts: map<string, Receipt>, c: string, state: ReceiptState)
    requires c in receipts
    ensures MoveReceipts(receipts, {c}, state) == receipts[c := receipts[c].(state := state)]
  {
  }

  lemma OneDemandOnly(t: Tables, c: string, state: DemandState)
    requires c in t.claims && t.claims[c].demandId in t.demands
    ensures var d := t.claims[c].demandId;
      MoveDemands(t.demands, DemandsOfClaims(t, {c}), state) == t.demands[d := t.demands[d].(state := state)]
  {
    assert DemandsOfClaims(t, {c}) == {t.claims[c].demandId};
  }

  lemma OneAssignmentGoes(claims: map<string, Claim>, assignments: map<ReviewJob, Assignment>, c: string)
    requires AssignmentsOk(claims, assignments) && c in claims && Assigned(claims[c].state)
    ensures Unassign(assignments, {c}) == assignments - {claims[c].job}
  {
  }

  lemma OneFenceGoes(claims: map<string, Claim>, fences: map<Slot, CapacityFence>, c: string)
    requires FencesOk(claims, fences) && c in claims && claims[c].state == RecoveringClaim
    ensures Unfence(fences, {c}) == fences - {claims[c].slot}
  {
  }

  lemma NoFenceGoes(claims: map<string, Claim>, fences: map<Slot, CapacityFence>, c: string)
    requires FencesOk(claims, fences) && c in claims && claims[c].state != RecoveringClaim
    ensures Unfence(fences, {c}) == fences
  {
  }

  lemma OneFenceComes(claims: map<string, Claim>, c: string, reason: FenceReason)
    requires c in claims
    ensures NewFences(claims, {c}, reason) == map[claims[c].slot := CapacityFence(c, reason)]
  {
  }

  // ---- renewal ----

  /** The request names a claim by its capacity, attempt and descriptor digest. */
  ghost predicate Names(t: Tables, q: HostRequest) {
    && q.claimId in t.claims && t.claims[q.claimId].slot == q.slot && t.claims[q.claimId].attemptId == q.attemptId
    && t.claims[q.claimId].descriptorDigest == q.descriptorDigest
  }

  /**
   A renewal is granted exactly to the named claim while it is active and unexpired. It moves that
   claim's expiry and remembers the request; the same request later answers the same expiry, with what
   is left of it, until that has passed, and writes nothing.
   */
  lemma RenewalLaw(t: Tables, i: Instance, q: HostRequest, now: int, later: int)
    requires Inv(t) && i.epochId in t.epochs && t.epochs[i.epochId] && now <= later
    ensures var x := Renew(t, i, q, now); var c := q.claimId;
      && (x.reply.Renewed? <==> Names(t, q) && t.claims[c].state == ActiveClaim && now < t.claims[c].leaseExpiresAt)
      && (!x.reply.Renewed? ==> x == Txn(t, NotRenewed))
      && (x.reply.Renewed? ==>
            && x.tables == t.(claims := t.claims[c :=
                 t.claims[c].(leaseExpiresAt := x.reply.leaseExpiresAt, renewalId := Some(q.requestId))])
            && x.reply.leaseDuration == x.reply.leaseExpiresAt - now
            && x.reply.leaseExpiresAt == (if t.claims[c].renewalId == Some(q.requestId) then t.claims[c].leaseExpiresAt
                                          else now + i.claimLease)
            && Renew(x.tables, i, q, later) == Txn(x.tables,
                 if later < x.reply.leaseExpiresAt then Renewed(x.reply.leaseExpiresAt, x.reply.leaseExpiresAt - later)
                 else NotRenewed))
  {
    hide Inv, Renew;
    if q.claimId in t.claims && t.claims[q.claimId].state == ActiveClaim { ActiveInEpoch(t, i, q.claimId); }
    Renewal(t, i, q, now);
    var x := Renew(t, i, q, now);
    if x.reply.Renewed? {
      assert x.tables.claims[q.claimId].renewalId == Some(q.requestId);
      Remembered(x.tables, i, q, later);
    }
  }

  lemma Renewal(t: Tables, i: Instance, q: HostRequest, now: int)
    requires i.epochId in t.epochs && t.epochs[i.epochId]
    requires q.claimId in t.claims && t.claims[q.claimId].state == ActiveClaim ==> t.claims[q.claimId].epochId == i.epochId
    ensures var x := Renew(t, i, q, now); var c := q.claimId;
      && (x.reply.Renewed? <==> Names(t, q) && t.claims[c].state == ActiveClaim && now < t.claims[c].leaseExpiresAt)
      && (!x.reply.Renewed? ==> x == Txn(t, NotRenewed))
      && (x.reply.Renewed? ==>
            && x.tables == t.(claims := t.claims[c :=
                 t.claims[c].(leaseExpiresAt := x.reply.leaseExpiresAt, renewalId := Some(q.requestId))])
            && x.reply.leaseDuration == x.reply.leaseExpiresAt - now
            && x.reply.leaseExpiresAt == (if t.claims[c].renewalId == Some(q.requestId) then t.claims[c].leaseExpiresAt
                                          else now + i.claimLease))
  {
    if q.claimId in t.claims {
      var claim := t.claims[q.claimId];
      assert t.claims[q.claimId := claim] == t.claims;
      assert claim.renewalId == Some(q.requestId) ==>
          claim.(leaseExpiresAt := claim.leaseExpiresAt, renewalId := Some(q.requestId)) == claim;
    }
  }

  /** A request the claim remembers is answered from the claim. */
  lemma Remembered(t: Tables, i: Instance, q: HostRequest, later: int)
    requires i.epochId in t.epochs && t.epochs[i.epochId] && Names(t, q)
    requires var claim := t.claims[q.claimId];
      claim.state == ActiveClaim && claim.epochId == i.epochId && claim.renewalId == Some(q.requestId)
    ensures var e := t.claims[q.claimId].leaseExpiresAt;
      Renew(t, i, q, later) == Txn(t, if later < e then Renewed(e, e - later) else NotRenewed)
  {
  }

  /** Only one epoch is active, so an active claim is of the caller's epoch. */
  lemma ActiveInEpoch(t: Tables, i: Instance, c: string)
    requires Inv(t) && i.epochId in t.epochs && t.epochs[i.epochId] && c in t.claims && t.claims[c].state == ActiveClaim
    ensures t.claims[c].epochId == i.epochId
  {
    hide InboxOk, DemandsOk, QueueOk, ReceiptsOk, ReceiptKeysOk, HoldersOk, ClaimsOk, AttemptsOk,
      AdmissionsOk, AssignmentsOk, FencesOk, OutboxOk, ResultsOk, LimitsOk;
  }

  // ---- recovery ----

  /** The claim starts or continues a recovery under this request: no other request has acknowledged its cleanup. */
  ghost predicate Recoverable(t: Tables, q: HostRequest, resourceId: string) {
    && Names(t, q) && resourceId == q.claimId
    && (t.claims[q.claimId].state == ActiveClaim || t.claims[q.claimId].state == RecoveringClaim)
    && (t.claims[q.claimId].recoveryId == None
        || (t.claims[q.claimId].state == RecoveringClaim && t.claims[q.claimId].recoveryId == Some(q.requestId)))
  }

  /** The tables once recovery of the claim has begun under the request. */
  ghost predicate RecoveryBegun(t: Tables, q: HostRequest, t': Tables)
    requires q.claimId in t.claims && q.claimId in t.receipts
  {
    var c, claim := q.claimId, t.claims[q.claimId];
    var claims := t.claims[c := claim.(state := RecoveringClaim, recoveryId := Some(q.requestId))];
    if claim.state == RecoveringClaim then t' == t.(claims := claims)
    else t' == t.(claims := claims,
                  receipts := t.receipts[c := t.receipts[c].(state := RecoveringReceipt)],
                  assignments := t.assignments - {claim.job},
                  fences := t.fences[claim.slot := CapacityFence(c, LeaseLost)])
  }

  /**
   Beginning a recovery, exactly: pending for a recoverable claim, which is then recovering with its
   capacity fenced; already released for the request that finished it; otherwise a conflict. In a
   reachable state nothing fails.
   */
  lemma RecoveryLaw(t: Tables, i: Instance, q: HostRequest, resourceId: string)
    requires Inv(t) && i.epochId in t.epochs && t.epochs[i.epochId]
    ensures var x := PrepareRecovery(t, i, q, resourceId);
      if Recoverable(t, q, resourceId) then
        x.reply == RecoveryPending(t.claims[q.claimId].issuance) && q.claimId in t.receipts && RecoveryBegun(t, q, x.tables)
      else x == Txn(t,
        if Names(t, q) && resourceId == q.claimId && t.claims[q.claimId].state == ReleasedClaim
           && t.claims[q.claimId].recoveryId == Some(q.requestId) then AlreadyReleased else RecoveryConflict)
  {
    hide Inv, Fence, AssignedTo, RecoveryBegun;
    if Names(t, q) {
      OwnRows(t, q.claimId);
      if t.claims[q.claimId].state == ActiveClaim {
        ActiveInEpoch(t, i, q.claimId);
        ActiveIsAssigned(t, q);
        BeginsActive(t, q);
      } else if t.claims[q.claimId].state == RecoveringClaim {
        OwnFence(t, q.claimId);
        BeginsRecovering(t, q);
      }
    }
  }

  lemma ActiveIsAssigned(t: Tables, q: HostRequest)
    requires Inv(t) && Names(t, q) && t.claims[q.claimId].state == ActiveClaim
    ensures AssignedTo(t, q) && t.claims[q.claimId].slot !in t.fences
  {
    hide InboxOk, DemandsOk, QueueOk, ReceiptsOk, HoldersOk, AttemptsOk, ClaimAuthorityOk,
      EpochsOk, AdmissionsOk, OutboxOk, ResultsOk, LimitsOk, ClaimsOk, ReceiptKeysOk;
    ActiveClaimUnfenced(t, q.claimId);
    assert t.claims[q.claimId].job in t.assignments;
  }

  lemma OwnFence(t: Tables, c: string)
    requires Inv(t) && c in t.claims && t.claims[c].state == RecoveringClaim
    ensures t.claims[c].slot in t.fences && t.fences[t.claims[c].slot].claimId == c
  {
    hide InboxOk, DemandsOk, QueueOk, ReceiptsOk, HoldersOk, AttemptsOk, ClaimAuthorityOk,
      EpochsOk, AdmissionsOk, OutboxOk, ResultsOk, LimitsOk, ClaimsOk, ReceiptKeysOk, AssignmentsOk;
  }

  lemma BeginsActive(t: Tables, q: HostRequest)
    requires Inv(t) && q.claimId in t.claims && q.claimId in t.receipts && t.claims[q.claimId].state == ActiveClaim
    requires t.claims[q.claimId].slot !in t.fences
    ensures q.claimId in Fence(t, {q.claimId}, LeaseLost).claims
    ensures RecoveryBegun(t, q, AcknowledgeCleanup(Fence(t, {q.claimId}, LeaseLost), q.claimId, q.requestId))
  {
    hide InboxOk, DemandsOk, QueueOk, ReceiptsOk, HoldersOk, AttemptsOk, ClaimAuthorityOk,
      EpochsOk, AdmissionsOk, OutboxOk, ResultsOk, LimitsOk, ClaimsOk, ReceiptKeysOk, AssignmentsOk, FencesOk,
      MoveClaims, MoveReceipts, Unassign, NewFences;
    var c := q.claimId;
    OneClaimMoves(t.claims, c, RecoveringClaim);
    OneReceiptMoves(t.receipts, c, RecoveringReceipt);
    OneAssignmentGoes(t.claims, t.assignments, c);
    OneFenceComes(t.claims, c, LeaseLost);
    assert map[t.claims[c].slot := CapacityFence(c, LeaseLost)] + t.fences
        == t.fences[t.claims[c].slot := CapacityFence(c, LeaseLost)];
  }

  lemma BeginsRecovering(t: Tables, q: HostRequest)
    requires q.claimId in t.claims && q.claimId in t.receipts && t.claims[q.claimId].state == RecoveringClaim
    ensures RecoveryBegun(t, q, AcknowledgeCleanup(t, q.claimId, q.requestId))
  {
  }

  /** The revocation is of the claim's own issuance. */
  ghost predicate Revokes(x: Revocation, o: Issuance) {
    && x.attemptId == o.attemptId && x.reviewId == o.reviewId && x.jobName == o.jobName && x.attempt == o.attempt
    && x.descriptorDigest == o.descriptorDigest && x.slot == o.slot
  }

  /**
   Ending a recovery, exactly: the named recovering claim, by the request that acknowledged its cleanup,
   with a revocation of its issuance. Claim and receipt are released, the demand is superseded, and the
   capacity is free for another reservation. Any other call changes nothing.
   */
  lemma RecoveryEndLaw(t: Tables, i: Instance, q: HostRequest, resourceId: string, revocation: Revocation)
    requires Inv(t) && i.epochId in t.epochs && t.epochs[i.epochId]
    ensures var x := CompleteRecovery(t, i, q, resourceId, revocation); var c := q.claimId;
      && (x.reply == RecoveryEnded <==>
            Names(t, q) && resourceId == c && t.claims[c].state == RecoveringClaim
            && t.claims[c].recoveryId == Some(q.requestId) && Revokes(revocation, t.claims[c].issuance))
      && (x.reply != RecoveryEnded ==> x == Txn(t, NotRecoverable))
      && (x.reply == RecoveryEnded ==> Released(t, c, x.tables) && Free(x.tables, q.slot))
  {
    hide Inv, CloseRecovery, Released, Free;
    if q.claimId in t.claims && t.claims[q.claimId].state == RecoveringClaim {
      OwnFence(t, q.claimId);
      Closes(t, q.claimId);
    }
  }

  /** The recovering claim `c` is closed in `t'`. */
  ghost predicate Released(t: Tables, c: string, t': Tables) {
    && c in t.claims && c in t.receipts && t.claims[c].demandId in t.demands
    && t' == t.(claims := t.claims[c := t.claims[c].(state := ReleasedClaim)],
                receipts := t.receipts[c := t.receipts[c].(state := ReleasedReceipt)],
                demands := t.demands[t.claims[c].demandId := t.demands[t.claims[c].demandId].(state := Superseded)],
                fences := t.fences - {t.claims[c].slot})
  }

  lemma Closes(t: Tables, c: string)
    requires Inv(t) && c in t.claims && t.claims[c].state == RecoveringClaim
    ensures Released(t, c, CloseRecovery(t, c)) && Free(CloseRecovery(t, c), t.claims[c].slot)
  {
    hide Inv, ReceiptKeysOk, ClaimsOk, FencesOk, CloseRecovery, Released, Free;
    OwnRows(t, c);
    InvFencing(t);
    ClosesRows(t, c);
    OnlyUnfinished(t.receipts, c);
    FreeOnceReleased(t, c, CloseRecovery(t, c));
  }

  lemma ClosesRows(t: Tables, c: string)
    requires FencesOk(t.claims, t.fences) && c in t.claims && t.claims[c].state == RecoveringClaim
    requires c in t.receipts && t.claims[c].demandId in t.demands
    ensures Released(t, c, CloseRecovery(t, c))
  {
    hide FencesOk, MoveClaims, MoveReceipts, MoveDemands, Unfence, DemandsOfClaims;
    OneClaimMoves(t.claims, c, ReleasedClaim);
    OneReceiptMoves(t.receipts, c, ReleasedReceipt);
    OneDemandOnly(t, c, Superseded);
    OneFenceGoes(t.claims, t.fences, c);
  }

  lemma FreeOnceReleased(t: Tables, c: string, t': Tables)
    requires Released(t, c, t')
    requires forall c' :: c' in t.receipts && c' != c && t.receipts[c'].slot == t.claims[c].slot ==>
      t.receipts[c'].state.EmptyReceipt? || t.receipts[c'].state.ReleasedReceipt?
    ensures Free(t', t.claims[c].slot)
  {
  }

  /** A capacity has one unfinished receipt. */
  lemma OnlyUnfinished(receipts: map<string, Receipt>, c: string)
    requires ReceiptKeysOk(receipts) && c in receipts && NonterminalReceipt(receipts[c].state)
    ensures forall c' :: c' in receipts && c' != c && receipts[c'].slot == receipts[c].slot ==>
      receipts[c'].state.EmptyReceipt? || receipts[c'].state.ReleasedReceipt?
  {
    forall c' | c' in receipts && c' != c && receipts[c'].slot == receipts[c].slot
      ensures !NonterminalReceipt(receipts[c'].state)
    {
    }
  }

  /** Once ended, the same recovery request is told so, and every other one refused. */
  lemma RecoveryEndsOnce(t: Tables, i: Instance, q: HostRequest, resourceId: string, revocation: Revocation, q': HostRequest)
    requires Inv(t) && i.epochId in t.epochs && t.epochs[i.epochId] && q'.claimId == q.claimId
    requires CompleteRecovery(t, i, q, resourceId, revocation).reply == RecoveryEnded
    ensures var t' := CompleteRecovery(t, i, q, resourceId, revocation).tables;
      PrepareRecovery(t', i, q', q.claimId) == Txn(t',
        if q'.slot == q.slot && q'.attemptId == q.attemptId && q'.descriptorDigest == q.descriptorDigest
           && q'.requestId == q.requestId then AlreadyReleased else RecoveryConflict)
  {
    hide Inv, CloseRecovery, Free;
    RecoveryEndLaw(t, i, q, resourceId, revocation);
  }

  // ---- reports ----

  /** The report is of the active, unexpired claim as it was issued, at this capacity digest. */
  ghost predicate ReportsClaim(t: Tables, i: Instance, c: string, p: ResultPayload, now: int) {
    && c in t.claims && t.claims[c].state == ActiveClaim && now < t.claims[c].leaseExpiresAt
    && t.claims[c].generation in t.admissions
    && t.admissions[t.claims[c].generation].capacityDigest == i.capacityDigest
    && p == ResultPayload(t.claims[c].job.reviewId, t.claims[c].attemptId, t.claims[c].issuance.attempt,
                          t.claims[c].descriptorDigest, t.claims[c].slot, t.claims[c].descriptor)
    && t.claims[c].descriptor.admissionGeneration == t.claims[c].generation
  }

  /** The host has used this request id, or the claim has a report already. */
  ghost predicate ReportKnown(t: Tables, hostId: string, q: ResultRequest) {
    || q.claimId in t.results
    || exists c :: c in t.results && t.results[c].hostId == hostId && t.results[c].requestId == q.requestId
  }

  /** The report waits for delivery; claim, receipt and demand are reported, and the assignment stays. */
  ghost predicate ReportStored(t: Tables, hostId: string, q: ResultRequest, t': Tables) {
    var c := q.claimId;
    && c in t.claims && c in t.receipts && t.claims[c].demandId in t.demands
    && t' == t.(results := t.results[c := HostResult(hostId, q.requestId, q.payload)],
                outbox := t.outbox[c := Pending],
                claims := t.claims[c := t.claims[c].(state := ReportedClaim)],
                receipts := t.receipts[c := t.receipts[c].(state := ReportedReceipt)],
                demands := t.demands[t.claims[c].demandId := t.demands[t.claims[c].demandId].(state := Reported)])
  }

  /**
   Reports, exactly. A known claim or request id accepts only the identical report and writes nothing. A
   new report is not found unless its claim is on this host; it is accepted exactly when it is of that
   claim, active and unexpired, under an admission of this capacity digest.
   */
  lemma ReportLaw(t: Tables, i: Instance, hostId: string, q: ResultRequest, now: int)
    requires Inv(t)
    ensures var x := AcceptResult(t, i, hostId, q, now); var c := q.claimId;
      && (x.reply == ResultAccepted <==>
            c in x.tables.results && x.tables.results[c] == HostResult(hostId, q.requestId, q.payload))
      && (ReportKnown(t, hostId, q) ==> x.tables == t && x.reply != ResultNotFound)
      && (!ReportKnown(t, hostId, q) ==>
            && (x.reply == ResultNotFound <==> !(c in t.claims && t.claims[c].slot.hostId == hostId))
            && (x.reply == ResultAccepted <==>
                  ReportsClaim(t, i, c, q.payload, now) && t.claims[c].slot.hostId == hostId
                  && ReportStored(t, hostId, q, x.tables))
            && (x.reply != ResultAccepted ==> x.tables == t))
  {
    hide Inv, CurrentClaim, ReportsClaim, PutResult, ReportStored;
    ReportsAClaim(t, i, q.claimId, q.payload, now);
    if q.claimId in t.claims {
      CurrentIsReported(t, i, q.claimId, q.payload, now);
      if CurrentClaim(t, i, q.claimId, q.payload, now) {
        OnlyActive(t, i, q.claimId, q.payload, now);
        Stores(t, hostId, q);
      }
      StoredHasRow(t, hostId, q);
    }
  }

  lemma StoredHasRow(t: Tables, hostId: string, q: ResultRequest)
    ensures var t' := PutResult(t, hostId, q);
      q.claimId in t'.results && t'.results[q.claimId] == HostResult(hostId, q.requestId, q.payload)
  {
  }

  lemma ReportsAClaim(t: Tables, i: Instance, c: string, p: ResultPayload, now: int)
    ensures ReportsClaim(t, i, c, p, now) ==> c in t.claims
  {
  }

  lemma OnlyActive(t: Tables, i: Instance, c: string, p: ResultPayload, now: int)
    requires c in t.claims && CurrentClaim(t, i, c, p, now)
    ensures t.claims[c].state == ActiveClaim
  {
  }

  /** The receipt, the demand, the admission's state and the assignment need no test: the invariant gives them. */
  lemma CurrentIsReported(t: Tables, i: Instance, c: string, p: ResultPayload, now: int)
    requires Inv(t) && c in t.claims
    ensures CurrentClaim(t, i, c, p, now) <==> ReportsClaim(t, i, c, p, now)
  {
    hide Inv;
    if t.claims[c].state == ActiveClaim {
      OwnRows(t, c);
      ActiveUnderAdmission(t, c);
    }
  }

  lemma ActiveUnderAdmission(t: Tables, c: string)
    requires Inv(t) && c in t.claims && t.claims[c].state == ActiveClaim
    ensures t.claims[c].generation in t.admissions && t.admissions[t.claims[c].generation].Active()
    ensures t.claims[c].job in t.assignments && t.assignments[t.claims[c].job].claimId == c
  {
    hide InboxOk, DemandsOk, QueueOk, ReceiptsOk, HoldersOk, AttemptsOk,
      EpochsOk, AdmissionsOk, OutboxOk, ResultsOk, LimitsOk, ClaimsOk, ReceiptKeysOk, FencesOk;
  }

  lemma Stores(t: Tables, hostId: string, q: ResultRequest)
    requires Inv(t) && q.claimId in t.claims && t.claims[q.claimId].state == ActiveClaim
    ensures ReportStored(t, hostId, q, PutResult(t, hostId, q))
  {
    hide Inv, MoveClaims, MoveReceipts, MoveDemands, DemandsOfClaims;
    OwnRows(t, q.claimId);
    OneClaimMoves(t.claims, q.claimId, ReportedClaim);
    OneReceiptMoves(t.receipts, q.claimId, ReportedReceipt);
    OneDemandOnly(t, q.claimId, Reported);
  }

  /** Claim and receipt are released, the demand and the inbox row end, and the job is free of its assignment. */
  ghost predicate ReportClosed(t: Tables, c: string, delivered: bool, t': Tables) {
    && c in t.claims && c in t.receipts && t.claims[c].demandId in t.demands && t.claims[c].eventId in t.inbox
    && var claim := t.claims[c];
      t' == t.(claims := t.claims[c := claim.(state := ReleasedClaim)],
               receipts := t.receipts[c := t.receipts[c].(state := ReleasedReceipt)],
               demands := t.demands[claim.demandId :=
                 t.demands[claim.demandId].(state := if delivered then Completed else Failed)],
               inbox := t.inbox[claim.eventId := t.inbox[claim.eventId].(terminal := true)],
               outbox := t.outbox[c := if delivered then Delivered else Denied],
               assignments := t.assignments - {claim.job})
  }

  /** Closing a report takes effect exactly on a reported claim. */
  lemma ReportCloseLaw(t: Tables, c: string, delivered: bool)
    requires Inv(t)
    ensures var t' := CompleteReport(t, c, delivered);
      if c in t.claims && t.claims[c].state == ReportedClaim then ReportClosed(t, c, delivered, t') else t' == t
  {
    hide Inv, Finish, ReportClosed;
    if c in t.claims && t.claims[c].state == ReportedClaim {
      ReportedHasReport(t, c);
      Finishes(t, c, delivered);
    }
  }

  lemma ReportedHasReport(t: Tables, c: string)
    requires Inv(t) && c in t.claims && t.claims[c].state == ReportedClaim
    ensures c in t.results && c in t.outbox && Undelivered(t.outbox[c])
  {
    hide InboxOk, DemandsOk, QueueOk, ReceiptsOk, HoldersOk, AttemptsOk,
      EpochsOk, AdmissionsOk, ResultsOk, LimitsOk, ClaimsOk, ReceiptKeysOk, FencesOk, AssignmentsOk, ClaimAuthorityOk;
  }

  lemma Finishes(t: Tables, c: string, delivered: bool)
    requires Inv(t) && c in t.claims && t.claims[c].state == ReportedClaim && c in t.outbox
    ensures ReportClosed(t, c, delivered, Finish(t, {c}, delivered))
  {
    hide InboxOk, DemandsOk, QueueOk, ReceiptsOk, HoldersOk, AttemptsOk, ClaimAuthorityOk,
      EpochsOk, AdmissionsOk, OutboxOk, ResultsOk, LimitsOk, ClaimsOk, AssignmentsOk, FencesOk, ReceiptKeysOk,
      MoveClaims, MoveReceipts, MoveDemands, Unfence, Unassign, DemandsOfClaims;
    OwnRows(t, c);
    OneClaimMoves(t.claims, c, ReleasedClaim);
    OneReceiptMoves(t.receipts, c, ReleasedReceipt);
    OneDemandOnly(t, c, if delivered then Completed else Failed);
    OneAssignmentGoes(t.claims, t.assignments, c);
    NoFenceGoes(t.claims, t.fences, c);
    OneEventEnds(t, c);
    assert EndOutbox(t.outbox, {c}, if delivered then Delivered else Denied)
        == t.outbox[c := if delivered then Delivered else Denied];
  }

  lemma OneEventEnds(t: Tables, c: string)
    requires c in t.claims && t.claims[c].eventId in t.inbox
    ensures var e := t.claims[c].eventId; EndInbox(t.inbox, EventsOfClaims(t, {c})) == t.inbox[e := t.inbox[e].(terminal := true)]
  {
    assert EventsOfClaims(t, {c}) == {t.claims[c].eventId};
  }

  /** Releasing a stale reservation takes effect exactly on the request's own receipt while its demand is being prepared. */
  lemma ReleaseLaw(t: Tables, q: Request, c: string)
    requires Inv(t)
    ensures var t' := ReleaseStale(t, q, c);
      if c in t.receipts && t.receipts[c].slot == q.slot && t.receipts[c].requestId == q.requestId
         && t.receipts[c].state == PreparingReceipt then
        && t.receipts[c].demandId.Some? && t.receipts[c].demandId.value in t.demands
        && var d := t.receipts[c].demandId.value;
          t' == t.(demands := t.demands[d := t.demands[d].(state := Superseded)],
                   receipts := t.receipts[c := t.receipts[c].(state := ReleasedReceipt)])
          && (q.slot !in t.fences ==> Free(t', q.slot))
      else t' == t
  {
    hide Inv, ReceiptsOk, ClaimsOk, ReceiptKeysOk, FencesOk;
    InvReceipts(t);
    InvFencing(t);
    if c in t.receipts && t.receipts[c].state == PreparingReceipt {
      PreparingDemand(t, c);
      OnlyUnfinished(t.receipts, c);
    }
  }
}
