/**
 The rows and tables of the native ordinary authority database
 (core/packages/core/src/nativeOrdinaryAuthoritySchema.ts) and the invariant that
 couples them.

 A digest column holds the value that was hashed: a digest is taken to be injective,
 so comparing digests is comparing preimages.
 */
module AuthorityTables {
  import opened Wrappers

  datatype Slot = Slot(hostId: string, capacity: string)

  datatype ReviewJob = ReviewJob(reviewId: string, jobName: string)

  datatype Event = Event(
    eventId: string, projectId: string, repositoryId: string, protectedRef: string, reviewId: string,
    expectedProtectedHead: string, candidateCommit: string, candidateTree: string,
    policyRevision: string, requiredReviewRevision: string, requiredJobSetRevision: string, jobName: string)
  {
    function Job(): ReviewJob { ReviewJob(reviewId, jobName) }

    /** The review-job tuple: every field of the event except its own id. */
    function Tuple(): Event { this.(eventId := "") }
  }

  datatype Bounds = Bounds(cpu: nat, memoryBytes: nat, pids: nat, wallClockSeconds: nat, outputBytes: nat)

  datatype CapacityPolicy = CapacityPolicy(slot: Slot, runnerBaseImage: string, jobBaseImage: string, bounds: Bounds)

  datatype Policy = Policy(
    projectId: string, repositoryId: string, protectedRef: string, policyRevision: string,
    requiredReviewRevision: string, requiredJobSetRevision: string, requiredJobs: seq<string>)

  /** The descriptor fields that admission compares; `rest` stands for the others. */
  datatype Descriptor = Descriptor(
    projectId: string, repositoryId: string, protectedRef: string, policyRevision: string,
    requiredReviewRevision: string, requiredJobSetRevision: string, admissionGeneration: string, jobName: string,
    runnerBaseImage: string, jobImage: string, bounds: Bounds, rest: string)

  datatype Issuance = Issuance(
    issuanceRequestId: string, attemptId: string, reviewId: string, attempt: nat,
    descriptorDigest: string, slot: Slot, jobName: string)

  datatype AdmissionState = Admitted | Expired | Revoked | Replaced
  datatype DemandState = Queued | Preparing | Claimed | Reported | Completed | Superseded | Failed
  datatype ReceiptState = EmptyReceipt | PreparingReceipt | ActiveReceipt | ReportedReceipt | RecoveringReceipt | ReleasedReceipt
  datatype ClaimState = ActiveClaim | ReportedClaim | RecoveringClaim | ReleasedClaim
  datatype OutboxState = Pending | Delivering | Delivered | Denied
  datatype FenceReason = LeaseLost | GenerationRotated | ServiceRestart

  datatype Admission = Admission(policy: Policy, serviceId: string, capacityDigest: string, expiresAt: int, state: AdmissionState)
  {
    predicate Active() { state == Admitted }
  }

  datatype InboxRow = InboxRow(event: Event, demandId: Option<string>, terminal: bool)

  datatype Demand = Demand(event: Event, generation: string, state: DemandState, createdAt: int)

  datatype Receipt = Receipt(
    slot: Slot, requestId: string, demandId: Option<string>, generation: Option<string>, state: ReceiptState)

  datatype Claim = Claim(
    demandId: string, slot: Slot, job: ReviewJob, eventId: string, generation: string, attemptId: string,
    descriptor: Descriptor, descriptorDigest: string, issuance: Issuance, leaseExpiresAt: int, epochId: string,
    renewalId: Option<string>, recoveryId: Option<string>, state: ClaimState)
  {
    /** The comparison that `loadActiveNativeHostClaim` makes before it hands a claim out. */
    predicate MatchesIssuance() {
      && issuance.reviewId == job.reviewId
      && issuance.attemptId == attemptId
      && issuance.slot == slot
      && issuance.descriptorDigest == descriptorDigest
    }
  }

  datatype Assignment = Assignment(claimId: string, attemptId: string, descriptorDigest: string, generation: string, slot: Slot)

  datatype CapacityFence = CapacityFence(claimId: string, reason: FenceReason)

  datatype HostResult = HostResult(hostId: string, requestId: string, payload: ResultPayload)

  datatype ResultPayload = ResultPayload(
    reviewId: string, attemptId: string, attempt: nat, descriptorDigest: string, slot: Slot, descriptor: Descriptor)

  datatype Tables = Tables(
    epochs: map<string, bool>,
    admissions: map<string, Admission>,
    eventFences: map<string, Event>,
    tupleFences: map<ReviewJob, Event>,
    inbox: map<string, InboxRow>,
    demands: map<string, Demand>,
    receipts: map<string, Receipt>,
    claims: map<string, Claim>,
    assignments: map<ReviewJob, Assignment>,
    fences: map<Slot, CapacityFence>,
    results: map<string, HostResult>,
    outbox: map<string, OutboxState>)

  const EMPTY_TABLES := Tables(map[], map[], map[], map[], map[], map[], map[], map[], map[], map[], map[], map[])

  const REPLAY_FENCE_LIMIT: nat := 100_000
  const NONTERMINAL_DEMAND_LIMIT: nat := 10_000

  predicate NonterminalDemand(s: DemandState) { s in {Queued, Preparing, Claimed, Reported} }

  predicate NonterminalReceipt(s: ReceiptState) {
    s in {PreparingReceipt, ActiveReceipt, ReportedReceipt, RecoveringReceipt}
  }

  function NonterminalDemands(demands: map<string, Demand>): set<string> {
    set d | d in demands && NonterminalDemand(demands[d].state)
  }

  /** The demand states a receipt in state `r` may hold. */
  predicate Coupled(r: ReceiptState, d: DemandState) {
    match r
    case EmptyReceipt => false
    case PreparingReceipt => d == Preparing
    case ActiveReceipt => d == Claimed
    case RecoveringReceipt => d == Claimed
    case ReportedReceipt => d == Reported
    case ReleasedReceipt => d in {Superseded, Completed, Failed}
  }

  function ReceiptOf(c: ClaimState): ReceiptState {
    match c
    case ActiveClaim => ActiveReceipt
    case ReportedClaim => ReportedReceipt
    case RecoveringClaim => RecoveringReceipt
    case ReleasedClaim => ReleasedReceipt
  }

  /** A claim that still owns its review job: it has an assignment and needs an active admission. */
  predicate Assigned(c: ClaimState) { c == ActiveClaim || c == ReportedClaim }

  // ---- the invariant, one predicate per coupling, each over the tables it relates ----

  ghost predicate EpochsOk(epochs: map<string, bool>) {
    forall e, e' :: e in epochs && e' in epochs && epochs[e] && epochs[e'] ==> e == e'
  }

  ghost predicate AdmissionsOk(admissions: map<string, Admission>) {
    forall g, g' |
      && g in admissions && g' in admissions && admissions[g].Active() && admissions[g'].Active()
      && admissions[g].policy.projectId == admissions[g'].policy.projectId
      && admissions[g].policy.repositoryId == admissions[g'].policy.repositoryId
      :: g == g'
  }

  /** Every inbox row is fenced under its own id and names the demand made from it. */
  ghost predicate InboxOk(eventFences: map<string, Event>, inbox: map<string, InboxRow>, demands: map<string, Demand>) {
    forall e :: e in inbox ==>
      && e in eventFences && eventFences[e] == inbox[e].event
      && inbox[e].event.eventId == e
      && inbox[e].demandId.Some? && inbox[e].demandId.value in demands
      && demands[inbox[e].demandId.value].event == inbox[e].event
  }

  /** Every demand comes from an inbox row and from a fenced tuple; no review job has two demands. */
  ghost predicate DemandsOk(tupleFences: map<ReviewJob, Event>, inbox: map<string, InboxRow>,
      demands: map<string, Demand>) {
    && (forall d :: d in demands ==>
          && demands[d].event.eventId in inbox && inbox[demands[d].event.eventId].demandId == Some(d)
          && demands[d].event.Job() in tupleFences && tupleFences[demands[d].event.Job()] == demands[d].event.Tuple())
    && (forall d, d' :: d in demands && d' in demands && demands[d].event.Job() == demands[d'].event.Job() ==> d == d')
  }

  /** A queued demand always has an active admission. */
  ghost predicate QueueOk(admissions: map<string, Admission>, demands: map<string, Demand>) {
    forall d :: d in demands ==>
      && demands[d].generation in admissions
      && (demands[d].state == Queued ==> admissions[demands[d].generation].Active())
  }

  ghost predicate ReceiptsOk(receipts: map<string, Receipt>, demands: map<string, Demand>) {
    forall c :: c in receipts ==>
      if receipts[c].state == EmptyReceipt then receipts[c].demandId == None && receipts[c].generation == None
      else
        && receipts[c].demandId.Some? && receipts[c].demandId.value in demands
        && receipts[c].generation == Some(demands[receipts[c].demandId.value].generation)
        && Coupled(receipts[c].state, demands[receipts[c].demandId.value].state)
  }

  /** UNIQUE(demand_id), UNIQUE(host_id, capacity, request_id), and one unfinished receipt per capacity. */
  ghost predicate ReceiptKeysOk(receipts: map<string, Receipt>) {
    forall c, c' |
      && c in receipts && c' in receipts
      && ((receipts[c].demandId.Some? && receipts[c].demandId == receipts[c'].demandId)
          || (receipts[c].slot == receipts[c'].slot
              && (receipts[c].requestId == receipts[c'].requestId
                  || (NonterminalReceipt(receipts[c].state) && NonterminalReceipt(receipts[c'].state)))))
      :: c == c'
  }

  /** Some receipt holds demand `d`. */
  ghost predicate Held(receipts: map<string, Receipt>, d: string) {
    exists c :: c in receipts && receipts[c].demandId == Some(d)
  }

  ghost predicate HoldersOk(receipts: map<string, Receipt>, demands: map<string, Demand>) {
    forall d :: d in demands && demands[d].state in {Preparing, Claimed, Reported} ==> Held(receipts, d)
  }

  /** A claim agrees with its receipt, its demand and its issuance. */
  predicate ClaimRow(claim: Claim, receipt: Receipt, demand: Demand) {
    && receipt.demandId == Some(claim.demandId) && receipt.generation == Some(claim.generation)
    && receipt.slot == claim.slot && receipt.state == ReceiptOf(claim.state)
    && demand.event.Job() == claim.job && demand.event.eventId == claim.eventId
    && claim.MatchesIssuance()
  }

  ghost predicate ClaimsOk(receipts: map<string, Receipt>, claims: map<string, Claim>, demands: map<string, Demand>) {
    && (forall c :: c in claims ==>
          c in receipts && claims[c].demandId in demands && ClaimRow(claims[c], receipts[c], demands[claims[c].demandId]))
    && (forall c :: c in receipts && receipts[c].state in {ActiveReceipt, ReportedReceipt, RecoveringReceipt} ==> c in claims)
  }

  ghost predicate AttemptsOk(claims: map<string, Claim>) {
    forall c, c' :: c in claims && c' in claims && claims[c].attemptId == claims[c'].attemptId ==> c == c'
  }

  /** An active claim belongs to the active epoch; one that owns its review job to an active admission. */
  ghost predicate ClaimAuthorityOk(epochs: map<string, bool>, admissions: map<string, Admission>,
      claims: map<string, Claim>) {
    forall c :: c in claims ==>
      && claims[c].epochId in epochs
      && claims[c].generation in admissions
      && (claims[c].state == ActiveClaim ==> epochs[claims[c].epochId])
      && (Assigned(claims[c].state) ==> admissions[claims[c].generation].Active())
  }

  /** The assignment that claim `c` must have. */
  function AssignmentOf(c: string, claim: Claim): Assignment {
    Assignment(c, claim.attemptId, claim.descriptorDigest, claim.generation, claim.slot)
  }

  ghost predicate AssignmentsOk(claims: map<string, Claim>, assignments: map<ReviewJob, Assignment>) {
    && (forall c :: c in claims && Assigned(claims[c].state) ==>
          claims[c].job in assignments && assignments[claims[c].job] == AssignmentOf(c, claims[c]))
    && (forall k :: k in assignments ==>
          && assignments[k].claimId in claims && Assigned(claims[assignments[k].claimId].state)
          && claims[assignments[k].claimId].job == k)
  }

  ghost predicate FencesOk(claims: map<string, Claim>, fences: map<Slot, CapacityFence>) {
    && (forall c :: c in claims && claims[c].state == RecoveringClaim ==>
          claims[c].slot in fences && fences[claims[c].slot].claimId == c)
    && (forall s :: s in fences ==>
          && fences[s].claimId in claims && claims[fences[s].claimId].state == RecoveringClaim
          && claims[fences[s].claimId].slot == s)
  }

  predicate Undelivered(o: OutboxState) { o == Pending || o == Delivering }

  ghost predicate OutboxOk(claims: map<string, Claim>, results: map<string, HostResult>,
      outbox: map<string, OutboxState>) {
    && outbox.Keys == results.Keys
    && (forall c :: c in outbox ==> c in claims && (Undelivered(outbox[c]) <==> claims[c].state == ReportedClaim))
    && (forall c :: c in claims && claims[c].state == ReportedClaim ==> c in outbox)
  }

  ghost predicate ResultsOk(results: map<string, HostResult>) {
    forall c, c' |
      && c in results && c' in results
      && results[c].hostId == results[c'].hostId && results[c].requestId == results[c'].requestId
      :: c == c'
  }

  ghost predicate LimitsOk(eventFences: map<string, Event>, tupleFences: map<ReviewJob, Event>,
      demands: map<string, Demand>) {
    && |eventFences| <= REPLAY_FENCE_LIMIT
    && |tupleFences| <= REPLAY_FENCE_LIMIT
    && |NonterminalDemands(demands)| <= NONTERMINAL_DEMAND_LIMIT
  }

  ghost predicate Inv(t: Tables) {
    && EpochsOk(t.epochs) && AdmissionsOk(t.admissions)
    && InboxOk(t.eventFences, t.inbox, t.demands) && DemandsOk(t.tupleFences, t.inbox, t.demands)
    && QueueOk(t.admissions, t.demands)
    && ReceiptsOk(t.receipts, t.demands) && ReceiptKeysOk(t.receipts) && HoldersOk(t.receipts, t.demands)
    && ClaimsOk(t.receipts, t.claims, t.demands) && AttemptsOk(t.claims)
    && ClaimAuthorityOk(t.epochs, t.admissions, t.claims)
    && AssignmentsOk(t.claims, t.assignments) && FencesOk(t.claims, t.fences)
    && OutboxOk(t.claims, t.results, t.outbox) && ResultsOk(t.results)
    && LimitsOk(t.eventFences, t.tupleFences, t.demands)
  }
}
