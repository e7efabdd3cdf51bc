/**
 What the stores answer and write, in the columns' own terms: intake, reservation and activation, each
 with the exact condition of every answer and the rows it leaves.
 */
module AuthorityAnswers {
  import opened Wrappers
  import opened AuthorityTables
  import opened AuthoritySteps
  import opened AuthorityInvariant
  import opened AuthorityOrder

  // ---- reserve ----

  /** `a` sorts before `b` as text: at the first place where they differ, or by being a proper prefix. */
  ghost predicate TextBefore(a: string, b: string) {
    exists k: nat :: FirstDifference(a, b, k)
  }

  ghost predicate FirstDifference(a: string, b: string, k: nat) {
    && k <= |a| && k < |b| && (forall j :: 0 <= j < k ==> a[j] == b[j])
    && (k == |a| || a[k] < b[k])
  }

  lemma {:induction false} BeforeIsTextBefore(a: string, b: string)
    ensures Before(a, b) <==> TextBefore(a, b)
  {
    if b == [] {
      assert forall k: nat :: !FirstDifference(a, b, k);
    } else if a == [] || a[0] != b[0] {
      if a == [] || a[0] < b[0] { assert FirstDifference(a, b, 0); }
    } else {
      BeforeIsTextBefore(a[1..], b[1..]);
      if Before(a[1..], b[1..]) {
        var k: nat :| FirstDifference(a[1..], b[1..], k);
        OneFurther(a, b, k);
      }
      if k: nat :| FirstDifference(a, b, k) { OneCloser(a, b, k); }
    }
  }

  lemma OneFurther(a: string, b: string, k: nat)
    requires a != [] && b != [] && a[0] == b[0] && FirstDifference(a[1..], b[1..], k)
    ensures FirstDifference(a, b, k + 1)
  {
    forall j | 0 <= j < k + 1 ensures a[j] == b[j] {
      if j > 0 { assert a[1..][j - 1] == b[1..][j - 1]; }
    }
  }

  lemma OneCloser(a: string, b: string, k: nat)
    requires a != [] && b != [] && a[0] == b[0] && FirstDifference(a, b, k)
    ensures k > 0 && FirstDifference(a[1..], b[1..], k - 1)
  {
  }

  /** The demand waits in the queue under an unexpired active admission of this service and capacity digest. */
  ghost predicate Waiting(t: Tables, i: Instance, now: int, d: string) {
    && d in t.demands && t.demands[d].state == Queued && t.demands[d].generation in t.admissions
    && var a := t.admissions[t.demands[d].generation];
      a.state == Admitted && a.serviceId == i.serviceId && a.capacityDigest == i.capacityDigest && now < a.expiresAt
  }

  /** `d` waits, was created no later than any demand that waits, and its id sorts first among its own time. */
  ghost predicate WaitsLongest(t: Tables, i: Instance, now: int, d: string) {
    && Waiting(t, i, now, d)
    && forall d' :: Waiting(t, i, now, d') && d' != d ==>
         && t.demands[d].createdAt <= t.demands[d'].createdAt
         && (t.demands[d].createdAt == t.demands[d'].createdAt ==> TextBefore(d, d'))
  }

  lemma WaitingIsEligible(t: Tables, i: Instance, now: int, d: string)
    requires DemandsOk(t.tupleFences, t.inbox, t.demands)
    ensures Waiting(t, i, now, d) <==> Eligible(t, i, now, d)
  {
  }

  lemma OldestWaitsLongest(t: Tables, i: Instance, now: int, d: string)
    requires DemandsOk(t.tupleFences, t.inbox, t.demands)
    ensures IsOldest(t, i, now, d) <==> WaitsLongest(t, i, now, d)
  {
    hide DemandsOk, Before, TextBefore, Waiting, Eligible;
    WaitingIsEligible(t, i, now, d);
    if Waiting(t, i, now, d) {
      forall d' ensures Waiting(t, i, now, d') <==> Eligible(t, i, now, d') { WaitingIsEligible(t, i, now, d'); }
      forall d' ensures Before(d, d') <==> TextBefore(d, d') { BeforeIsTextBefore(d, d'); }
      InTables(t, i, now);
    }
  }

  lemma InTables(t: Tables, i: Instance, now: int)
    ensures forall d :: Waiting(t, i, now, d) ==> d in t.demands
  {
  }

  /** The inbox holds each demand's own event. */
  lemma InboxEvent(t: Tables, d: string)
    requires Inv(t) && d in t.demands
    ensures t.demands[d].event.eventId in t.inbox && t.inbox[t.demands[d].event.eventId].event == t.demands[d].event
  {
    hide QueueOk, ReceiptsOk, ReceiptKeysOk, HoldersOk, ClaimsOk, AttemptsOk, ClaimAuthorityOk,
      EpochsOk, AdmissionsOk, AssignmentsOk, FencesOk, OutboxOk, ResultsOk, LimitsOk;
  }

  ghost predicate Free(t: Tables, s: Slot) {
    && s !in t.fences
    && forall c :: c in t.receipts && t.receipts[c].slot == s ==>
         t.receipts[c].state.EmptyReceipt? || t.receipts[c].state.ReleasedReceipt?
  }

  lemma FreeIsNotBusy(t: Tables, s: Slot)
    ensures Free(t, s) <==> !SlotBusy(t, s)
  {
    forall c | c in t.receipts
      ensures NonterminalReceipt(t.receipts[c].state) <==>
        !t.receipts[c].state.EmptyReceipt? && !t.receipts[c].state.ReleasedReceipt?
    {
      var state := t.receipts[c].state;
      assert state.EmptyReceipt? || state.PreparingReceipt? || state.ActiveReceipt? || state.ReportedReceipt?
        || state.RecoveringReceipt? || state.ReleasedReceipt?;
    }
  }

  /** The request has no receipt yet. */
  ghost predicate FirstRequest(t: Tables, r: Request) {
    forall c :: c in t.receipts ==> t.receipts[c].slot != r.slot || t.receipts[c].requestId != r.requestId
  }

  lemma FirstHasNoReceipt(t: Tables, r: Request)
    ensures FirstRequest(t, r) <==> ReceiptFor(t, r).None?
  {
    if c :| c in t.receipts && t.receipts[c].slot == r.slot && t.receipts[c].requestId == r.requestId {
      assert IsReceiptOf(t, r, c);
    }
  }

  /**
   A first request by a configured capacity of the active epoch: refused while the capacity is fenced or
   has unfinished work; otherwise it takes the demand that has waited longest, and comes back empty
   exactly when none waits.
   */
  lemma FirstReservation(t: Tables, i: Instance, r: Request, now: int, uuid: string)
    requires Inv(t) && FirstRequest(t, r) && r.slot in i.capacities && i.epochId in t.epochs && t.epochs[i.epochId]
    ensures var x := Reserve(t, i, r, now, uuid);
      && (!Free(t, r.slot) ==> x == Txn(t, ReserveConflict))
      && (Free(t, r.slot) && uuid in t.receipts ==> x == Txn(t, ReserveFailed(ConstraintViolation)))
      && (Free(t, r.slot) && uuid !in t.receipts && (exists d :: Waiting(t, i, now, d)) ==>
            exists d :: WaitsLongest(t, i, now, d) && HandsOut(t, i, r, uuid, d, x))
      && (Free(t, r.slot) && uuid !in t.receipts && !(exists d :: Waiting(t, i, now, d)) ==>
            x == Txn(t.(receipts := t.receipts[uuid := Receipt(r.slot, r.requestId, None, None, EmptyReceipt)]), NothingQueued))
  {
    hide Inv, FirstRequest, Free, SlotBusy, ReceiptFor, Waiting, WaitsLongest, IsOldest, ReserveNew, HandsOut;
    FirstHasNoReceipt(t, r);
    FreeIsNotBusy(t, r.slot);
    if uuid !in t.receipts { NewReservation(t, i, r, now, uuid); } else { UsedId(t, i, r, now, uuid); }
  }

  /** The demand moves to preparing under a receipt of the given id, and is answered with its own event. */
  ghost predicate HandsOut(t: Tables, i: Instance, r: Request, uuid: string, d: string, x: Txn<Reservation>)
    requires r.slot in i.capacities
  {
    && d in t.demands
    && x.reply == Prepared(uuid, i.epochId, t.demands[d].event, t.demands[d].generation, i.capacities[r.slot])
    && x.tables == t.(
         receipts := t.receipts[uuid := Receipt(r.slot, r.requestId, Some(d), Some(t.demands[d].generation), PreparingReceipt)],
         demands := t.demands[d := t.demands[d].(state := Preparing)])
  }

  lemma UsedId(t: Tables, i: Instance, r: Request, now: int, uuid: string)
    requires r.slot in i.capacities && uuid in t.receipts
    ensures ReserveNew(t, i, r, i.capacities[r.slot], now, uuid) == Txn(t, ReserveFailed(ConstraintViolation))
  {
  }

  lemma NewReservation(t: Tables, i: Instance, r: Request, now: int, uuid: string)
    requires Inv(t) && r.slot in i.capacities && uuid !in t.receipts
    ensures var x := ReserveNew(t, i, r, i.capacities[r.slot], now, uuid);
      if exists d :: Waiting(t, i, now, d) then exists d :: WaitsLongest(t, i, now, d) && HandsOut(t, i, r, uuid, d, x)
      else x == Txn(t.(receipts := t.receipts[uuid := Receipt(r.slot, r.requestId, None, None, EmptyReceipt)]), NothingQueued)
  {
    hide Inv, Waiting, WaitsLongest, IsOldest, Eligible, DemandsOk, ReserveNew, HandsOut;
    DemandsPart(t);
    if d :| Waiting(t, i, now, d) {
      WaitingIsEligible(t, i, now, d);
      OldestExists(t, i, now, d);
      var o := OldestIsTaken(t, i, r, now, uuid);
      OldestWaitsLongest(t, i, now, o);
    } else {
      forall d ensures !IsOldest(t, i, now, d) {
        OldestWaitsLongest(t, i, now, d);
        OldestInTables(t, i, now, d);
      }
      NothingIsTaken(t, i, r, now, uuid);
    }
  }

  lemma DemandsPart(t: Tables)
    requires Inv(t)
    ensures DemandsOk(t.tupleFences, t.inbox, t.demands)
  {
  }

  lemma OldestInTables(t: Tables, i: Instance, now: int, d: string)
    ensures IsOldest(t, i, now, d) ==> d in t.demands && t.demands[d].event.eventId in t.inbox
    ensures WaitsLongest(t, i, now, d) ==> Waiting(t, i, now, d)
  {
  }

  lemma OldestIsTaken(t: Tables, i: Instance, r: Request, now: int, uuid: string) returns (d: string)
    requires Inv(t) && r.slot in i.capacities && uuid !in t.receipts && exists d :: IsOldest(t, i, now, d)
    ensures IsOldest(t, i, now, d) && HandsOut(t, i, r, uuid, d, ReserveNew(t, i, r, i.capacities[r.slot], now, uuid))
  {
    hide Inv, IsOldest;
    forall d ensures IsOldest(t, i, now, d) ==> d in t.demands && t.demands[d].event.eventId in t.inbox {
      OldestInTables(t, i, now, d);
    }
    var x := ReserveNew(t, i, r, i.capacities[r.slot], now, uuid);
    d :| IsOldest(t, i, now, d) && x.tables == TakeDemand(t, r, uuid, d)
      && x.reply == Prepared(uuid, i.epochId, t.inbox[t.demands[d].event.eventId].event, t.demands[d].generation,
           i.capacities[r.slot]);
    InboxEvent(t, d);
    assert x.tables == TakeDemand(t, r, uuid, d);
    assert x.reply == Prepared(uuid, i.epochId, t.demands[d].event, t.demands[d].generation, i.capacities[r.slot]);
    hide ReserveNew;
    Taken(t, i, r, uuid, d, x);
  }

  lemma Taken(t: Tables, i: Instance, r: Request, uuid: string, d: string, x: Txn<Reservation>)
    requires r.slot in i.capacities && d in t.demands && x.tables == TakeDemand(t, r, uuid, d)
    requires x.reply == Prepared(uuid, i.epochId, t.demands[d].event, t.demands[d].generation, i.capacities[r.slot])
    ensures HandsOut(t, i, r, uuid, d, x)
  {
  }

  lemma NothingIsTaken(t: Tables, i: Instance, r: Request, now: int, uuid: string)
    requires r.slot in i.capacities && uuid !in t.receipts && forall d :: !IsOldest(t, i, now, d)
    ensures ReserveNew(t, i, r, i.capacities[r.slot], now, uuid)
         == Txn(t.(receipts := t.receipts[uuid := Receipt(r.slot, r.requestId, None, None, EmptyReceipt)]), NothingQueued)
  {
  }

  /** A capacity the instance does not have, or an instance whose epoch has ended, reserves nothing. */
  lemma NoReservation(t: Tables, i: Instance, r: Request, now: int, uuid: string)
    ensures r.slot !in i.capacities ==> Reserve(t, i, r, now, uuid) == Txn(t, ReserveConflict)
    ensures r.slot in i.capacities && !(i.epochId in t.epochs && t.epochs[i.epochId]) ==>
      Reserve(t, i, r, now, uuid) == Txn(t, ReserveFailed(StaleAuthority))
  {
  }

  /**
   A repeated request is answered from its receipt and changes nothing: empty stays empty, a demand still
   being prepared is handed out again, an active claim is returned, and anything else is a conflict.
   */
  lemma RepeatedReservation(t: Tables, i: Instance, r: Request, now: int, uuid: string, c: string)
    requires Inv(t) && r.slot in i.capacities && i.epochId in t.epochs && t.epochs[i.epochId]
    requires c in t.receipts && t.receipts[c].slot == r.slot && t.receipts[c].requestId == r.requestId
    ensures var x := Reserve(t, i, r, now, uuid); var receipt := t.receipts[c];
      && x.tables == t
      && (receipt.state == EmptyReceipt ==> x.reply == NothingQueued)
      && (receipt.state == PreparingReceipt ==>
            receipt.demandId.Some? && receipt.demandId.value in t.demands
            && var demand := t.demands[receipt.demandId.value];
              x.reply == Prepared(c, i.epochId, demand.event, demand.generation, i.capacities[r.slot]))
      && (receipt.state == ActiveReceipt ==> c in t.claims && x.reply == AlreadyActive(c, t.claims[c]))
      && (receipt.state in {ReportedReceipt, RecoveringReceipt, ReleasedReceipt} ==> x.reply == ReserveConflict)
  {
    hide Inv, SlotBusy, ReserveNew, Existing, ReceiptsOk, ClaimsOk;
    OneReceipt(t, r, c);
    InvReceipts(t);
    AnswerFromReceipt(t, i, i.capacities[r.slot], c);
  }

  lemma InvReceipts(t: Tables)
    requires Inv(t)
    ensures ReceiptsOk(t.receipts, t.demands) && ClaimsOk(t.receipts, t.claims, t.demands)
  {
  }

  lemma OneReceipt(t: Tables, r: Request, c: string)
    requires Inv(t) && c in t.receipts && t.receipts[c].slot == r.slot && t.receipts[c].requestId == r.requestId
    ensures ReceiptFor(t, r) == Some(c)
  {
    hide InboxOk, DemandsOk, QueueOk, ReceiptsOk, HoldersOk, ClaimsOk, AttemptsOk, ClaimAuthorityOk,
      EpochsOk, AdmissionsOk, AssignmentsOk, FencesOk, OutboxOk, ResultsOk, LimitsOk;
    assert IsReceiptOf(t, r, c);
  }

  lemma AnswerFromReceipt(t: Tables, i: Instance, capacity: CapacityPolicy, c: string)
    requires Inv(t) && ReceiptsOk(t.receipts, t.demands) && ClaimsOk(t.receipts, t.claims, t.demands) && c in t.receipts
    ensures var x := Existing(t, i, capacity, c); var receipt := t.receipts[c];
      && (receipt.state == EmptyReceipt ==> x == NothingQueued)
      && (receipt.state == PreparingReceipt ==>
            receipt.demandId.Some? && receipt.demandId.value in t.demands
            && var demand := t.demands[receipt.demandId.value];
              x == Prepared(c, i.epochId, demand.event, demand.generation, capacity))
      && (receipt.state == ActiveReceipt ==> c in t.claims && x == AlreadyActive(c, t.claims[c]))
      && (receipt.state in {ReportedReceipt, RecoveringReceipt, ReleasedReceipt} ==> x == ReserveConflict)
  {
    hide Inv, ClaimsOk, ReceiptsOk;
    if t.receipts[c].state == PreparingReceipt {
      PreparingDemand(t, c);
      InboxEvent(t, t.receipts[c].demandId.value);
    } else if t.receipts[c].state == ActiveReceipt {
      ActiveReceiptsClaim(t.receipts, t.claims, t.demands, c);
    }
  }

  lemma ActiveReceiptsClaim(receipts: map<string, Receipt>, claims: map<string, Claim>, demands: map<string, Demand>, c: string)
    requires ClaimsOk(receipts, claims, demands) && c in receipts && receipts[c].state == ActiveReceipt
    ensures c in claims && claims[c].state == ActiveClaim && claims[c].MatchesIssuance()
  {
    assert ClaimRow(claims[c], receipts[c], demands[claims[c].demandId]);
  }

  // ---- activate ----

  /** No more of anything than the capacity offers, and exactly its two images. */
  ghost predicate FitsCapacity(d: Descriptor, c: CapacityPolicy) {
    && d.bounds.cpu <= c.bounds.cpu && d.bounds.memoryBytes <= c.bounds.memoryBytes && d.bounds.pids <= c.bounds.pids
    && d.bounds.wallClockSeconds <= c.bounds.wallClockSeconds && d.bounds.outputBytes <= c.bounds.outputBytes
    && d.runnerBaseImage == c.runnerBaseImage && d.jobImage == c.jobBaseImage
  }

  /** The descriptor names the policy's project, repository, ref and revisions, and one of its required jobs. */
  ghost predicate FollowsPolicy(d: Descriptor, p: Policy) {
    && d.projectId == p.projectId && d.repositoryId == p.repositoryId && d.protectedRef == p.protectedRef
    && d.policyRevision == p.policyRevision && d.requiredReviewRevision == p.requiredReviewRevision
    && d.requiredJobSetRevision == p.requiredJobSetRevision
    && exists k :: 0 <= k < |p.requiredJobs| && p.requiredJobs[k] == d.jobName
  }

  /** The receipt under the reservation's id is the request's own, in the given state. */
  ghost predicate ReceiptIn(t: Tables, q: Request, r: Reservation, state: ReceiptState)
    requires r.Prepared?
  {
    && r.claimId in t.receipts && t.receipts[r.claimId].slot == q.slot && t.receipts[r.claimId].requestId == q.requestId
    && t.receipts[r.claimId].state == state
  }

  /** The reservation's admission is active, unexpired, and this service's at this capacity digest. */
  ghost predicate AdmissionStands(t: Tables, i: Instance, g: string, now: int) {
    && g in t.admissions && t.admissions[g].state == Admitted && now < t.admissions[g].expiresAt
    && t.admissions[g].serviceId == i.serviceId && t.admissions[g].capacityDigest == i.capacityDigest
  }

  /** The proof is of the reserved review job, on the reserved capacity, under the reservation's own id. */
  ghost predicate ProofOf(p: Proof, r: Reservation)
    requires r.Prepared?
  {
    && p.reviewId == r.event.reviewId && p.descriptor.jobName == r.event.jobName && p.generation == r.generation
    && p.slot == r.capacity.slot && p.issuance.issuanceRequestId == r.claimId
  }

  ghost predicate ProofHolds(t: Tables, i: Instance, q: Request, r: Reservation, p: Proof, now: int)
    requires r.Prepared?
  {
    && ReceiptIn(t, q, r, PreparingReceipt) && t.receipts[r.claimId].generation == Some(r.generation)
    && r.epochId == i.epochId && ProofOf(p, r) && AdmissionStands(t, i, r.generation, now)
    && FollowsPolicy(p.descriptor, t.admissions[r.generation].policy) && FitsCapacity(p.descriptor, r.capacity)
  }

  ghost predicate NewAttempt(t: Tables, attemptId: string) {
    forall c :: c in t.claims ==> t.claims[c].attemptId != attemptId
  }

  ghost predicate IssuedFor(q: Request, p: Proof) {
    && p.issuance.reviewId == p.reviewId && p.issuance.attemptId == p.attemptId && p.issuance.slot == q.slot
    && p.issuance.descriptorDigest == p.descriptorDigest
  }

  /** The claim, its assignment, and receipt and demand moved on; nothing else. */
  ghost predicate ClaimAdded(t: Tables, i: Instance, q: Request, r: Reservation, p: Proof, now: int, x: Txn<Activation>)
    requires r.Prepared?
  {
    && r.claimId in t.receipts && t.receipts[r.claimId].demandId.Some?
    && var d := t.receipts[r.claimId].demandId.value;
      d in t.demands
      && var claim := Claim(d, q.slot, ReviewJob(p.reviewId, r.event.jobName), r.event.eventId, r.generation, p.attemptId,
           p.descriptor, p.descriptorDigest, p.issuance, now + i.claimLease, i.epochId, None, None, ActiveClaim);
        x.reply == Activated(r.claimId, claim)
        && x.tables == t.(
             claims := t.claims[r.claimId := claim],
             assignments := t.assignments[claim.job :=
               Assignment(r.claimId, p.attemptId, p.descriptorDigest, r.generation, q.slot)],
             receipts := t.receipts[r.claimId := t.receipts[r.claimId].(state := ActiveReceipt)],
             demands := t.demands[d := t.demands[d].(state := Claimed)])
  }

  /**
   In the active epoch: a reservation already activated returns its claim; one still being prepared
   becomes a claim exactly when its proof holds, its attempt id is new and its issuance is for it.
   Every other case writes nothing.
   */
  lemma ActivationLaw(t: Tables, i: Instance, q: Request, r: Reservation, p: Proof, now: int)
    requires Inv(t) && r.Prepared? && i.epochId in t.epochs && t.epochs[i.epochId]
    ensures var x := Activate(t, i, q, r, p, now);
      if ReceiptIn(t, q, r, ActiveReceipt) then
        r.claimId in t.claims && x == Txn(t, Activated(r.claimId, t.claims[r.claimId]))
      else if !ProofHolds(t, i, q, r, p, now) then x == Txn(t, ActivateConflict)
      else if !NewAttempt(t, p.attemptId) then x == Txn(t, ActivateFailed(ConstraintViolation))
      else if !IssuedFor(q, p) then x == Txn(t, ActivateFailed(InvalidRow))
      else ClaimAdded(t, i, q, r, p, now, x)
  {
    hide Inv, MayActivate, ProofHolds, ClaimsOk, ReceiptsOk, AttemptUsed, PutClaim, ClaimAdded, NewAttempt;
    InvReceipts(t);
    AttemptIsUsed(t, p.attemptId);
    ProofMayActivate(t, i, q, r, p, now);
    if ReceiptIn(t, q, r, ActiveReceipt) {
      ActiveReceiptsClaim(t.receipts, t.claims, t.demands, r.claimId);
    } else if ProofHolds(t, i, q, r, p, now) {
      MayBeAdded(t, i, q, r, p, now);
      var claim := NewClaim(i, q, r, p, t.receipts[r.claimId].demandId.value, now);
      assert claim.MatchesIssuance() <==> IssuedFor(q, p);
      AddedClaim(t, i, q, r, p, now);
    }
  }

  lemma AttemptIsUsed(t: Tables, attemptId: string)
    ensures AttemptUsed(t, attemptId) <==> !NewAttempt(t, attemptId)
  {
  }

  lemma ProofMayActivate(t: Tables, i: Instance, q: Request, r: Reservation, p: Proof, now: int)
    requires ReceiptsOk(t.receipts, t.demands) && ClaimsOk(t.receipts, t.claims, t.demands) && r.Prepared?
    ensures MayActivate(t, i, q, r, p, now) <==> ProofHolds(t, i, q, r, p, now)
  {
    hide ReceiptsOk, ClaimsOk, DescriptorMatchesPolicy, FollowsPolicy, FitsCapacity;
    if ReceiptIn(t, q, r, PreparingReceipt) {
      PreparingDemand(t, r.claimId);
      if r.generation in t.admissions {
        DescriptorFits(p.descriptor, t.admissions[r.generation].policy, r.capacity);
      }
    }
  }

  lemma DescriptorFits(d: Descriptor, p: Policy, c: CapacityPolicy)
    ensures DescriptorMatchesPolicy(d, p, c) <==> FollowsPolicy(d, p) && FitsCapacity(d, c)
  {
  }

  lemma MayBeAdded(t: Tables, i: Instance, q: Request, r: Reservation, p: Proof, now: int)
    requires r.Prepared? && MayActivate(t, i, q, r, p, now)
    ensures r.claimId in t.receipts && t.receipts[r.claimId].demandId.Some? && t.receipts[r.claimId].demandId.value in t.demands
    ensures r.epochId == i.epochId
  {
  }

  lemma AddedClaim(t: Tables, i: Instance, q: Request, r: Reservation, p: Proof, now: int)
    requires r.Prepared? && r.claimId in t.receipts && t.receipts[r.claimId].demandId.Some? && r.epochId == i.epochId
    requires t.receipts[r.claimId].demandId.value in t.demands
    ensures var claim := NewClaim(i, q, r, p, t.receipts[r.claimId].demandId.value, now);
      ClaimAdded(t, i, q, r, p, now, Txn(PutClaim(t, r.claimId, claim), Activated(r.claimId, claim)))
  {
  }

  /** So a claim that activation adds asks for no more than its capacity and follows an admission that still stands. */
  lemma ActivatedClaimFits(t: Tables, i: Instance, q: Request, r: Reservation, p: Proof, now: int, c: string)
    requires Inv(t) && r.Prepared? && c !in t.claims && c in Activate(t, i, q, r, p, now).tables.claims
    ensures var claim := Activate(t, i, q, r, p, now).tables.claims[c];
      && c == r.claimId && claim.state == ActiveClaim && claim.leaseExpiresAt == now + i.claimLease
      && claim.descriptor == p.descriptor && FitsCapacity(claim.descriptor, r.capacity)
      && AdmissionStands(t, i, claim.generation, now) && FollowsPolicy(claim.descriptor, t.admissions[claim.generation].policy)
      && NewAttempt(t, claim.attemptId)
  {
    hide Inv, FitsCapacity, FollowsPolicy, AdmissionStands, NewAttempt, Activate, ReceiptIn, ProofOf, IssuedFor, FirstRequest;
    if i.epochId in t.epochs && t.epochs[i.epochId] { ActivationLaw(t, i, q, r, p, now); }
    else { NotActivated(t, i, q, r, p, now); }
  }

  lemma NotActivated(t: Tables, i: Instance, q: Request, r: Reservation, p: Proof, now: int)
    requires r.Prepared? && !(i.epochId in t.epochs && t.epochs[i.epochId])
    ensures Activate(t, i, q, r, p, now) == Txn(t, ActivateFailed(StaleAuthority))
  {
  }

  // ---- intake ----

  /** An active unexpired admission of this service and capacity digest for the event's repository, ref and revisions. */
  ghost predicate Covers(t: Tables, i: Instance, event: Event, now: int, g: string) {
    && AdmissionStands(t, i, g, now)
    && var p := t.admissions[g].policy;
      p.projectId == event.projectId && p.repositoryId == event.repositoryId && p.protectedRef == event.protectedRef
      && p.policyRevision == event.policyRevision && p.requiredReviewRevision == event.requiredReviewRevision
      && p.requiredJobSetRevision == event.requiredJobSetRevision
  }

  /** The review job is fenced, for an event equal to this one in every field but its id. */
  ghost predicate SameTuple(t: Tables, event: Event) {
    event.Job() in t.tupleFences && t.tupleFences[event.Job()] == event.(eventId := "")
  }

  ghost predicate OtherTuple(t: Tables, event: Event) {
    event.Job() in t.tupleFences && t.tupleFences[event.Job()] != event.(eventId := "")
  }

  /** Three fences of one event and one queued demand under the covering admission; nothing else. */
  ghost predicate DemandAdded(t: Tables, event: Event, g: string, now: int, uuid: string, t': Tables) {
    t' == t.(eventFences := t.eventFences[event.eventId := event],
             tupleFences := t.tupleFences[ReviewJob(event.reviewId, event.jobName) := event.(eventId := "")],
             inbox := t.inbox[event.eventId := InboxRow(event, Some(uuid), false)],
             demands := t.demands[uuid := Demand(event, g, Queued, now)])
  }

  ghost predicate NoRoom(t: Tables) {
    || |t.eventFences| >= 100_000 || |t.tupleFences| >= 100_000
    || |set d | d in t.demands && t.demands[d].state in {Queued, Preparing, Claimed, Reported}| >= 10_000
  }

  /** Intake, exactly: every answer with its condition and what it leaves. */
  lemma IntakeLaw(t: Tables, i: Instance, event: Event, now: int, uuid: string)
    requires Inv(t)
    ensures var x := Accept(t, i, event, now, uuid); var id := event.eventId;
      if id in t.eventFences then x == Txn(t, if t.eventFences[id] == event then Accepted else IntakeConflict)
      else if OtherTuple(t, event) then x == Txn(t, IntakeConflict)
      else if SameTuple(t, event) then
        x == if |t.eventFences| >= 100_000 then Txn(t, Full) else Txn(t.(eventFences := t.eventFences[id := event]), Accepted)
      else NewEvent(t, i, event, now, uuid, x)
  {
    AdmissionsPart(t);
    hide Inv, AdmissionFor, InsertAccepted, NonterminalDemands, AdmissionsOk, NewEvent;
    var id := event.eventId;
    if id !in t.eventFences && event.Job() !in t.tupleFences { Unfenced(t, i, event, now, uuid); }
  }

  /** An event that no fence knows: refused without a covering admission or without room, otherwise queued. */
  ghost predicate NewEvent(t: Tables, i: Instance, event: Event, now: int, uuid: string, x: Txn<Intake>) {
    if !(exists g :: Covers(t, i, event, now, g)) then x == Txn(t, NotFound)
    else if NoRoom(t) then x == Txn(t, Full)
    else if uuid in t.demands then x == Txn(t, IntakeFailed(ConstraintViolation))
    else x.reply == Accepted && exists g :: Covers(t, i, event, now, g) && DemandAdded(t, event, g, now, uuid, x.tables)
  }

  lemma Unfenced(t: Tables, i: Instance, event: Event, now: int, uuid: string)
    requires AdmissionsOk(t.admissions) && event.eventId !in t.eventFences && event.Job() !in t.tupleFences
    ensures NewEvent(t, i, event, now, uuid, Accept(t, i, event, now, uuid))
  {
    hide AdmissionsOk, AdmissionFor, InsertAccepted, NonterminalDemands, Covers, DemandAdded, NoRoom;
    RoomIs(t);
    if g :| Covers(t, i, event, now, g) {
      CoveredBy(t, i, event, now, g);
      Inserted(t, event, g, now, uuid);
    } else {
      Uncovered(t, i, event, now);
    }
  }

  lemma RoomIs(t: Tables)
    ensures NoRoom(t) ==
      (|t.eventFences| >= REPLAY_FENCE_LIMIT || |t.tupleFences| >= REPLAY_FENCE_LIMIT
       || |NonterminalDemands(t.demands)| >= NONTERMINAL_DEMAND_LIMIT)
  {
    assert NonterminalDemands(t.demands)
        == set d | d in t.demands && t.demands[d].state in {Queued, Preparing, Claimed, Reported};
  }

  lemma Inserted(t: Tables, event: Event, g: string, now: int, uuid: string)
    ensures DemandAdded(t, event, g, now, uuid, InsertAccepted(t, event, g, now, uuid))
  {
  }

  /** A repository has one active admission, so whether the admission found has expired does not depend on the search. */
  lemma CoveredBy(t: Tables, i: Instance, event: Event, now: int, g: string)
    requires AdmissionsOk(t.admissions) && Covers(t, i, event, now, g)
    ensures AdmissionFor(t, i, event) == Some(g) && g in t.admissions && t.admissions[g].expiresAt > now
  {
    assert Admits(t, i, event, g);
  }

  lemma Uncovered(t: Tables, i: Instance, event: Event, now: int)
    requires !(exists g :: Covers(t, i, event, now, g))
    ensures var admission := AdmissionFor(t, i, event);
      admission.None? || (admission.value in t.admissions && t.admissions[admission.value].expiresAt <= now)
  {
    if exists g :: Admits(t, i, event, g) {
      var g := AdmissionFor(t, i, event).value;
      assert Admits(t, i, event, g) && !Covers(t, i, event, now, g);
    }
  }

  lemma AdmissionsPart(t: Tables)
    requires Inv(t)
    ensures AdmissionsOk(t.admissions)
  {
  }

  /** Intake accepts exactly when the event's id is afterwards fenced for this very event. */
  lemma AcceptedMeansFenced(t: Tables, i: Instance, event: Event, now: int, uuid: string)
    requires Inv(t)
    ensures var x := Accept(t, i, event, now, uuid);
      && (x.reply == Accepted <==> event.eventId in x.tables.eventFences && x.tables.eventFences[event.eventId] == event)
      && (x.reply == Accepted ==>
            || (event.eventId in t.eventFences && t.eventFences[event.eventId] == event && x.tables == t)
            || (event.eventId !in t.eventFences && SameTuple(t, event)
                && x.tables == t.(eventFences := t.eventFences[event.eventId := event]))
            || (event.eventId !in t.eventFences && event.Job() !in t.tupleFences && uuid !in t.demands
                && exists g :: Covers(t, i, event, now, g) && DemandAdded(t, event, g, now, uuid, x.tables)))
  {
    hide Inv, Accept, Covers, NoRoom, OtherTuple, SameTuple, NewEvent;
    IntakeLaw(t, i, event, now, uuid);
    TupleCases(t, event);
    if event.eventId !in t.eventFences { NewIsFenced(t, i, event, now, uuid, Accept(t, i, event, now, uuid)); }
  }

  lemma TupleCases(t: Tables, event: Event)
    ensures event.Job() in t.tupleFences <==> OtherTuple(t, event) || SameTuple(t, event)
  {
  }

  lemma NewIsFenced(t: Tables, i: Instance, event: Event, now: int, uuid: string, x: Txn<Intake>)
    requires event.eventId !in t.eventFences
    ensures NewEvent(t, i, event, now, uuid, x) ==>
      if x.reply == Accepted then
        && event.eventId in x.tables.eventFences && x.tables.eventFences[event.eventId] == event && uuid !in t.demands
        && exists g :: Covers(t, i, event, now, g) && DemandAdded(t, event, g, now, uuid, x.tables)
      else x.tables == t
  {
    hide Covers, NoRoom;
  }

  /** The refusals: a conflict is another event under this id or another tuple under this job; not found is no admission. */
  lemma RefusedIntake(t: Tables, i: Instance, event: Event, now: int, uuid: string)
    requires Inv(t)
    ensures var x := Accept(t, i, event, now, uuid); var id := event.eventId;
      && (x.reply == IntakeConflict <==>
            if id in t.eventFences then t.eventFences[id] != event else OtherTuple(t, event))
      && (x.reply == NotFound <==>
            id !in t.eventFences && event.Job() !in t.tupleFences && forall g :: !Covers(t, i, event, now, g))
      && (x.reply != Accepted ==> x.tables == t)
  {
    hide Inv, Accept, Covers, NoRoom, DemandAdded;
    IntakeLaw(t, i, event, now, uuid);
  }

  /** The replay check decides only what the fences alone decide, and leaves everything else to intake. */
  lemma ReplayCheckLaw(t: Tables, event: Event)
    ensures var x := CheckReplay(t, event); var id := event.eventId;
      && (x.reply == Accepted <==>
            if id in t.eventFences then t.eventFences[id] == event else SameTuple(t, event) && |t.eventFences| < 100_000)
      && (x.reply == Full <==> id !in t.eventFences && SameTuple(t, event) && |t.eventFences| >= 100_000)
      && (x.reply == New <==> if id in t.eventFences then t.eventFences[id] != event else !SameTuple(t, event))
      && x.tables == if x.reply == Accepted then t.(eventFences := t.eventFences[id := event]) else t
  {
    if event.eventId in t.eventFences && t.eventFences[event.eventId] == event {
      assert t.eventFences[event.eventId := event] == t.eventFences;
    }
  }
}
