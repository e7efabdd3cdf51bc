/**
 The transactions of the authority stores as functions from tables to tables. Each is the
 effect of one committed (or rolled back) `BEGIN IMMEDIATE` block; random ids and clock
 readings are parameters. Every function is total: nothing here assumes the invariant.
 */
module AuthoritySteps {
  import opened Wrappers
  import opened AuthorityTables

  /** One opened authority: its configuration and the epoch it began. */
  datatype Instance = Instance(
    serviceId: string, epochId: string, capacityDigest: string, capacities: map<Slot, CapacityPolicy>,
    claimLease: nat, admissionLease: nat)

  datatype Request = Request(slot: Slot, requestId: string)

  datatype StoreError = StaleAuthority | ConstraintViolation | InvalidRow

  /** What a transaction leaves behind and what it answers. */
  datatype Txn<+R> = Txn(tables: Tables, reply: R)

  datatype Reservation =
    | NothingQueued
    | ReserveConflict
    | AlreadyActive(claimId: string, claim: Claim)
    | Prepared(claimId: string, epochId: string, event: Event, generation: string, capacity: CapacityPolicy)
    | ReserveFailed(error: StoreError)

  datatype Proof = Proof(
    reviewId: string, attemptId: string, descriptor: Descriptor, descriptorDigest: string, generation: string,
    slot: Slot, issuance: Issuance)

  datatype Activation = Activated(claimId: string, claim: Claim) | ActivateConflict | ActivateFailed(error: StoreError)

  datatype Intake = Accepted | IntakeConflict | Full | New | NotFound | IntakeFailed(error: StoreError)

  // ---- set-at-a-time changes ----

  function MoveClaims(claims: map<string, Claim>, ids: set<string>, state: ClaimState): map<string, Claim> {
    map c | c in claims :: if c in ids then claims[c].(state := state) else claims[c]
  }

  function MoveReceipts(receipts: map<string, Receipt>, ids: set<string>, state: ReceiptState): map<string, Receipt> {
    map c | c in receipts :: if c in ids then receipts[c].(state := state) else receipts[c]
  }

  function MoveDemands(demands: map<string, Demand>, ids: set<string>, state: DemandState): map<string, Demand> {
    map d | d in demands :: if d in ids then demands[d].(state := state) else demands[d]
  }

  function EndInbox(inbox: map<string, InboxRow>, ids: set<string>): map<string, InboxRow> {
    map e | e in inbox :: if e in ids then inbox[e].(terminal := true) else inbox[e]
  }

  function EndOutbox(outbox: map<string, OutboxState>, ids: set<string>, state: OutboxState): map<string, OutboxState> {
    map c | c in outbox :: if c in ids then state else outbox[c]
  }

  /** The assignments that survive when the claims in `ids` lose theirs. */
  function Unassign(assignments: map<ReviewJob, Assignment>, ids: set<string>): map<ReviewJob, Assignment> {
    map k | k in assignments && assignments[k].claimId !in ids :: assignments[k]
  }

  function Unfence(fences: map<Slot, CapacityFence>, ids: set<string>): map<Slot, CapacityFence> {
    map s | s in fences && fences[s].claimId !in ids :: fences[s]
  }

  /** Claims in `ids` lose their assignment, their capacities are fenced, claim and receipt become recovering. */
  ghost function Fence(t: Tables, ids: set<string>, reason: FenceReason): Tables {
    t.(claims := MoveClaims(t.claims, ids, RecoveringClaim),
       receipts := MoveReceipts(t.receipts, ids, RecoveringReceipt),
       assignments := Unassign(t.assignments, ids),
       fences := NewFences(t.claims, ids, reason) + t.fences)
  }

  /** One fence row per capacity of a claim in `ids`. */
  ghost function NewFences(claims: map<string, Claim>, ids: set<string>,
      reason: FenceReason): map<Slot, CapacityFence> {
    var slots := set c | c in ids && c in claims :: claims[c].slot;
    map s | s in slots :: var c :| c in ids && c in claims && claims[c].slot == s; CapacityFence(c, reason)
  }

  function ActiveClaims(t: Tables): set<string> {
    set c | c in t.claims && t.claims[c].state == ActiveClaim
  }

  function ExpiredClaims(t: Tables, now: int): set<string> {
    set c | c in t.claims && t.claims[c].state == ActiveClaim && t.claims[c].leaseExpiresAt <= now
  }

  function GenerationClaims(t: Tables, generations: set<string>, state: ClaimState): set<string> {
    set c | c in t.claims && t.claims[c].state == state && t.claims[c].generation in generations
  }

  function DemandsOfClaims(t: Tables, ids: set<string>): set<string> {
    set c | c in ids && c in t.claims :: t.claims[c].demandId
  }

  function EventsOfClaims(t: Tables, ids: set<string>): set<string> {
    set c | c in ids && c in t.claims :: t.claims[c].eventId
  }

  /** Reported claims in `ids` are closed: delivered reports complete their demand, denied ones fail it. */
  function Finish(t: Tables, ids: set<string>, delivered: bool): Tables {
    t.(claims := MoveClaims(t.claims, ids, ReleasedClaim),
       receipts := MoveReceipts(t.receipts, ids, ReleasedReceipt),
       demands := MoveDemands(t.demands, DemandsOfClaims(t, ids), if delivered then Completed else Failed),
       inbox := EndInbox(t.inbox, EventsOfClaims(t, ids)),
       outbox := EndOutbox(t.outbox, ids, if delivered then Delivered else Denied),
       assignments := Unassign(t.assignments, ids),
       fences := Unfence(t.fences, ids))
  }

  /** Admissions leave the active state and their queued demands are superseded. */
  function Retire(t: Tables, generations: set<string>, state: AdmissionState): Tables {
    t.(admissions := map g | g in t.admissions :: if g in generations then t.admissions[g].(state := state) else t.admissions[g],
       demands := map d | d in t.demands ::
         if t.demands[d].generation in generations && t.demands[d].state == Queued
         then t.demands[d].(state := Superseded) else t.demands[d])
  }

  /** `#invalidateGeneration` for a set of generations at once. */
  ghost function Invalidate(t: Tables, generations: set<string>, state: AdmissionState): Tables {
    var denied := Finish(t, GenerationClaims(t, generations, ReportedClaim), false);
    var fenced := Fence(denied, GenerationClaims(denied, generations, ActiveClaim), GenerationRotated);
    Retire(fenced, generations, state)
  }

  function ForeignGenerations(t: Tables, capacityDigest: string): set<string> {
    set g | g in t.admissions && t.admissions[g].Active() && t.admissions[g].capacityDigest != capacityDigest
  }

  // ---- authority store ----

  ghost function Expire(t: Tables, i: Instance, now: int): Tables {
    var fenced := Fence(t, ExpiredClaims(t, now), LeaseLost);
    Invalidate(fenced, ForeignGenerations(fenced, i.capacityDigest), Replaced)
  }

  /** Older epochs end, their claims are fenced, a new epoch begins. */
  ghost function BeginEpoch(t: Tables, epochId: string): Tables {
    Fence(t, ActiveClaims(t), ServiceRestart).(epochs := (map e | e in t.epochs :: false)[epochId := true])
  }

  /** Opening the authority. */
  ghost function Open(t: Tables, i: Instance, now: int): Txn<Option<StoreError>> {
    if i.epochId in t.epochs then Txn(t, Some(ConstraintViolation))
    else Txn(Expire(BeginEpoch(t, i.epochId), i, now), None)
  }

  ghost predicate ActiveFor(t: Tables, g: string, projectId: string, repositoryId: string) {
    && g in t.admissions && t.admissions[g].Active()
    && t.admissions[g].policy.projectId == projectId && t.admissions[g].policy.repositoryId == repositoryId
  }

  ghost function ActiveGeneration(t: Tables, projectId: string, repositoryId: string): Option<string> {
    if exists g :: ActiveFor(t, g, projectId, repositoryId)
    then var g :| ActiveFor(t, g, projectId, repositoryId); Some(g) else None
  }

  function PutAdmission(t: Tables, g: string, a: Admission): Tables {
    t.(admissions := t.admissions[g := a])
  }

  predicate Reusable(t: Tables, i: Instance, policy: Policy, existing: Option<string>) {
    && existing.Some? && existing.value in t.admissions && t.admissions[existing.value].policy == policy
    && t.admissions[existing.value].capacityDigest == i.capacityDigest
  }

  /** The tables once a differing active admission of the same repository has been replaced. */
  ghost function Cleared(t: Tables, existing: Option<string>): Tables {
    if existing.Some? then Invalidate(t, {existing.value}, Replaced) else t
  }

  ghost function Admit(t: Tables, i: Instance, policy: Policy, now: int,
      uuid: string): Txn<Result<string, StoreError>> {
    var swept := Expire(t, i, now);
    var existing := ActiveGeneration(swept, policy.projectId, policy.repositoryId);
    if Reusable(swept, i, policy, existing) then
      Txn(PutAdmission(swept, existing.value, swept.admissions[existing.value].(expiresAt := now + i.admissionLease)),
          Success(existing.value))
    else
      var cleared := Cleared(swept, existing);
      if uuid in cleared.admissions then Txn(t, Failure(ConstraintViolation))
      else Txn(PutAdmission(cleared, uuid, Admission(policy, i.serviceId, i.capacityDigest, now + i.admissionLease, Admitted)),
               Success(uuid))
  }

  ghost function Revoke(t: Tables, i: Instance, projectId: string, repositoryId: string, g: string,
      now: int): Txn<bool> {
    var swept := Expire(t, i, now);
    if ActiveFor(swept, g, projectId, repositoryId) then Txn(Invalidate(swept, {g}, Revoked), true) else Txn(t, false)
  }

  // ---- event store ----

  /** `checkReplay`: answers only what the replay fences alone decide. */
  function CheckReplay(t: Tables, event: Event): Txn<Intake> {
    if event.eventId in t.eventFences then
      Txn(t, if t.eventFences[event.eventId] == event then Accepted else New)
    else if event.Job() in t.tupleFences then
      if t.tupleFences[event.Job()] != event.Tuple() then Txn(t, New)
      else if |t.eventFences| >= REPLAY_FENCE_LIMIT then Txn(t, Full)
      else Txn(t.(eventFences := t.eventFences[event.eventId := event]), Accepted)
    else Txn(t, New)
  }

  function Replay(t: Tables, event: Event): Txn<Intake> {
    if event.eventId in t.eventFences then
      Txn(t, if t.eventFences[event.eventId] == event then Accepted else IntakeConflict)
    else if event.Job() !in t.tupleFences then Txn(t, New)
    else if t.tupleFences[event.Job()] != event.Tuple() then Txn(t, IntakeConflict)
    else if |t.eventFences| >= REPLAY_FENCE_LIMIT then Txn(t, Full)
    else Txn(t.(eventFences := t.eventFences[event.eventId := event]), Accepted)
  }

  predicate AdmitsEvent(a: Admission, i: Instance, event: Event) {
    && a.Active() && a.serviceId == i.serviceId && a.capacityDigest == i.capacityDigest
    && a.policy.projectId == event.projectId && a.policy.repositoryId == event.repositoryId
    && a.policy.protectedRef == event.protectedRef && a.policy.policyRevision == event.policyRevision
    && a.policy.requiredReviewRevision == event.requiredReviewRevision
    && a.policy.requiredJobSetRevision == event.requiredJobSetRevision
  }

  ghost predicate Admits(t: Tables, i: Instance, event: Event, g: string) {
    g in t.admissions && AdmitsEvent(t.admissions[g], i, event)
  }

  ghost function AdmissionFor(t: Tables, i: Instance, event: Event): Option<string> {
    if exists g :: Admits(t, i, event, g) then var g :| Admits(t, i, event, g); Some(g) else None
  }

  function InsertAccepted(t: Tables, event: Event, generation: string, now: int, demandId: string): Tables {
    t.(eventFences := t.eventFences[event.eventId := event],
       tupleFences := t.tupleFences[event.Job() := event.Tuple()],
       inbox := t.inbox[event.eventId := InboxRow(event, Some(demandId), false)],
       demands := t.demands[demandId := Demand(event, generation, Queued, now)])
  }

  ghost function Accept(t: Tables, i: Instance, event: Event, now: int, uuid: string): Txn<Intake> {
    var replay := Replay(t, event);
    if replay.reply != New then replay else
    var admission := AdmissionFor(t, i, event);
    if admission.None? || t.admissions[admission.value].expiresAt <= now then Txn(t, NotFound)
    else if |t.eventFences| >= REPLAY_FENCE_LIMIT || |t.tupleFences| >= REPLAY_FENCE_LIMIT
         || |NonterminalDemands(t.demands)| >= NONTERMINAL_DEMAND_LIMIT then Txn(t, Full)
    else if uuid in t.demands then Txn(t, IntakeFailed(ConstraintViolation))
    else Txn(InsertAccepted(t, event, admission.value, now, uuid), Accepted)
  }

  // ---- claim store ----

  predicate OwnsActiveEpoch(t: Tables, i: Instance) { i.epochId in t.epochs && t.epochs[i.epochId] }

  predicate Eligible(t: Tables, i: Instance, now: int, d: string) {
    && d in t.demands && t.demands[d].state == Queued
    && t.demands[d].event.eventId in t.inbox
    && t.demands[d].generation in t.admissions
    && t.admissions[t.demands[d].generation].Active()
    && t.admissions[t.demands[d].generation].serviceId == i.serviceId
    && t.admissions[t.demands[d].generation].expiresAt > now
    && t.admissions[t.demands[d].generation].capacityDigest == i.capacityDigest
  }

  /** Byte order on identifiers, as the BINARY collation compares them. */
  predicate Before(a: string, b: string) {
    if b == [] then false
    else if a == [] then true
    else a[0] < b[0] || (a[0] == b[0] && Before(a[1..], b[1..]))
  }

  /** `ORDER BY created_at, demand_id` */
  predicate Older(t: Tables, d: string, d': string)
    requires d in t.demands && d' in t.demands
  {
    t.demands[d].createdAt < t.demands[d'].createdAt
    || (t.demands[d].createdAt == t.demands[d'].createdAt && Before(d, d'))
  }

  ghost predicate IsOldest(t: Tables, i: Instance, now: int, d: string) {
    Eligible(t, i, now, d) && forall d' :: Eligible(t, i, now, d') && d' != d ==> Older(t, d, d')
  }

  ghost predicate IsReceiptOf(t: Tables, r: Request, c: string) {
    c in t.receipts && t.receipts[c].slot == r.slot && t.receipts[c].requestId == r.requestId
  }

  ghost function ReceiptFor(t: Tables, r: Request): Option<string> {
    if exists c :: IsReceiptOf(t, r, c) then var c :| IsReceiptOf(t, r, c); Some(c) else None
  }

  predicate SlotBusy(t: Tables, s: Slot) {
    s in t.fences || exists c :: c in t.receipts && t.receipts[c].slot == s && NonterminalReceipt(t.receipts[c].state)
  }

  /** The claim row as `loadActiveNativeHostClaim` hands it out, or the error it throws. */
  function LoadActive(t: Tables, c: string): Result<Claim, StoreError> {
    if c in t.claims && t.claims[c].state == ActiveClaim && t.claims[c].MatchesIssuance()
    then Success(t.claims[c]) else Failure(InvalidRow)
  }

  /** `#existing`: a repeated request is answered from its receipt. */
  function Existing(t: Tables, i: Instance, capacity: CapacityPolicy, c: string): Reservation
    requires c in t.receipts
  {
    match t.receipts[c].state
    case EmptyReceipt => NothingQueued
    case ActiveReceipt =>
      (match LoadActive(t, c) case Success(claim) => AlreadyActive(c, claim) case Failure(e) => ReserveFailed(e))
    case PreparingReceipt =>
      var d := t.receipts[c].demandId;
      if d.Some? && d.value in t.demands && t.demands[d.value].event.eventId in t.inbox && t.receipts[c].generation.Some?
      then Prepared(c, i.epochId, t.inbox[t.demands[d.value].event.eventId].event, t.receipts[c].generation.value, capacity)
      else ReserveFailed(InvalidRow)
    case _ => ReserveConflict
  }

  function TakeDemand(t: Tables, r: Request, c: string, d: string): Tables
    requires d in t.demands
  {
    t.(receipts := t.receipts[c := Receipt(r.slot, r.requestId, Some(d), Some(t.demands[d].generation), PreparingReceipt)],
       demands := t.demands[d := t.demands[d].(state := Preparing)])
  }

  function TakeNothing(t: Tables, r: Request, c: string): Tables {
    t.(receipts := t.receipts[c := Receipt(r.slot, r.requestId, None, None, EmptyReceipt)])
  }

  /** A first request on a free capacity: the oldest eligible demand, or an empty receipt. */
  ghost function ReserveNew(t: Tables, i: Instance, r: Request, capacity: CapacityPolicy, now: int,
      uuid: string): Txn<Reservation> {
    if uuid in t.receipts then Txn(t, ReserveFailed(ConstraintViolation))
    else if exists d :: IsOldest(t, i, now, d) then
      var d :| IsOldest(t, i, now, d);
      Txn(TakeDemand(t, r, uuid, d),
          Prepared(uuid, i.epochId, t.inbox[t.demands[d].event.eventId].event, t.demands[d].generation, capacity))
    else Txn(TakeNothing(t, r, uuid), NothingQueued)
  }

  ghost function Reserve(t: Tables, i: Instance, r: Request, now: int, uuid: string): Txn<Reservation> {
    if r.slot !in i.capacities then Txn(t, ReserveConflict)
    else if !OwnsActiveEpoch(t, i) then Txn(t, ReserveFailed(StaleAuthority))
    else if ReceiptFor(t, r).Some? then Txn(t, Existing(t, i, i.capacities[r.slot], ReceiptFor(t, r).value))
    else if SlotBusy(t, r.slot) then Txn(t, ReserveConflict)
    else ReserveNew(t, i, r, i.capacities[r.slot], now, uuid)
  }

  predicate WithinBounds(a: Bounds, b: Bounds) {
    && a.cpu <= b.cpu && a.memoryBytes <= b.memoryBytes && a.pids <= b.pids
    && a.wallClockSeconds <= b.wallClockSeconds && a.outputBytes <= b.outputBytes
  }

  predicate DescriptorMatchesPolicy(d: Descriptor, p: Policy, c: CapacityPolicy) {
    && d.projectId == p.projectId && d.repositoryId == p.repositoryId && d.protectedRef == p.protectedRef
    && d.policyRevision == p.policyRevision && d.requiredReviewRevision == p.requiredReviewRevision
    && d.requiredJobSetRevision == p.requiredJobSetRevision && d.jobName in p.requiredJobs
    && d.runnerBaseImage == c.runnerBaseImage && d.jobImage == c.jobBaseImage && WithinBounds(d.bounds, c.bounds)
  }

  predicate AssignmentMatches(p: Proof, r: Reservation)
    requires r.Prepared?
  {
    && p.reviewId == r.event.reviewId && p.descriptor.jobName == r.event.jobName
    && p.generation == r.generation && p.slot == r.capacity.slot
  }

  /** Everything `activate` checks before it writes. */
  predicate MayActivate(t: Tables, i: Instance, q: Request, r: Reservation, p: Proof, now: int)
    requires r.Prepared?
  {
    && r.claimId in t.receipts && t.receipts[r.claimId].slot == q.slot && t.receipts[r.claimId].requestId == q.requestId
    && t.receipts[r.claimId].state == PreparingReceipt
    && t.receipts[r.claimId].generation == Some(r.generation)
    && r.epochId == i.epochId
    && AssignmentMatches(p, r) && p.issuance.issuanceRequestId == r.claimId
    && r.generation in t.admissions && t.admissions[r.generation].Active()
    && t.admissions[r.generation].serviceId == i.serviceId && t.admissions[r.generation].expiresAt > now
    && t.admissions[r.generation].capacityDigest == i.capacityDigest
    && DescriptorMatchesPolicy(p.descriptor, t.admissions[r.generation].policy, r.capacity)
    && t.receipts[r.claimId].demandId.Some?
    && t.receipts[r.claimId].demandId.value in t.demands
    && t.demands[t.receipts[r.claimId].demandId.value].state == Preparing
  }

  function NewClaim(i: Instance, q: Request, r: Reservation, p: Proof, demandId: string, now: int): Claim
    requires r.Prepared?
  {
    Claim(demandId, q.slot, ReviewJob(p.reviewId, r.event.jobName), r.event.eventId, r.generation, p.attemptId,
          p.descriptor, p.descriptorDigest, p.issuance, now + i.claimLease, r.epochId, None, None, ActiveClaim)
  }

  function PutClaim(t: Tables, c: string, claim: Claim): Tables
    requires c in t.receipts && claim.demandId in t.demands
  {
    t.(claims := t.claims[c := claim],
       assignments := t.assignments[claim.job := AssignmentOf(c, claim)],
       receipts := t.receipts[c := t.receipts[c].(state := ActiveReceipt)],
       demands := t.demands[claim.demandId := t.demands[claim.demandId].(state := Claimed)])
  }

  predicate AttemptUsed(t: Tables, attemptId: string) {
    exists c :: c in t.claims && t.claims[c].attemptId == attemptId
  }

  function Activate(t: Tables, i: Instance, q: Request, r: Reservation, p: Proof, now: int): Txn<Activation>
    requires r.Prepared?
  {
    if !OwnsActiveEpoch(t, i) then Txn(t, ActivateFailed(StaleAuthority))
    else if r.claimId in t.receipts && t.receipts[r.claimId].slot == q.slot
         && t.receipts[r.claimId].requestId == q.requestId && t.receipts[r.claimId].state == ActiveReceipt then
      Txn(t, match LoadActive(t, r.claimId) case Success(claim) => Activated(r.claimId, claim) case Failure(e) => ActivateFailed(e))
    else if !MayActivate(t, i, q, r, p, now) then Txn(t, ActivateConflict)
    else
      var claim := NewClaim(i, q, r, p, t.receipts[r.claimId].demandId.value, now);
      if AttemptUsed(t, p.attemptId) then Txn(t, ActivateFailed(ConstraintViolation))
      else if !claim.MatchesIssuance() then Txn(t, ActivateFailed(InvalidRow))
      else Txn(PutClaim(t, r.claimId, claim), Activated(r.claimId, claim))
  }

  function ReleaseStale(t: Tables, q: Request, c: string): Tables {
    if c in t.receipts && t.receipts[c].slot == q.slot && t.receipts[c].requestId == q.requestId
       && t.receipts[c].state == PreparingReceipt && t.receipts[c].demandId.Some? && t.receipts[c].demandId.value in t.demands
    then t.(demands := t.demands[t.receipts[c].demandId.value := t.demands[t.receipts[c].demandId.value].(state := Superseded)],
            receipts := t.receipts[c := t.receipts[c].(state := ReleasedReceipt)])
    else t
  }

  // ---- lease store ----

  datatype HostRequest = HostRequest(requestId: string, slot: Slot, claimId: string, attemptId: string, descriptorDigest: string)

  datatype Renewal = Renewed(leaseExpiresAt: int, leaseDuration: int) | NotRenewed | RenewFailed(error: StoreError)
  datatype Recovery = RecoveryConflict | AlreadyReleased | RecoveryPending(issuance: Issuance) | RecoveryFailed(error: StoreError)
  datatype RecoveryEnd = RecoveryEnded | NotRecoverable | RecoveryEndFailed(error: StoreError)

  predicate ExactClaim(t: Tables, q: HostRequest) {
    && q.claimId in t.claims && t.claims[q.claimId].slot == q.slot
    && t.claims[q.claimId].attemptId == q.attemptId && t.claims[q.claimId].descriptorDigest == q.descriptorDigest
  }

  function Renew(t: Tables, i: Instance, q: HostRequest, now: int): Txn<Renewal> {
    if !OwnsActiveEpoch(t, i) then Txn(t, RenewFailed(StaleAuthority))
    else if !ExactClaim(t, q) || t.claims[q.claimId].state != ActiveClaim || t.claims[q.claimId].epochId != i.epochId
         || t.claims[q.claimId].leaseExpiresAt <= now then Txn(t, NotRenewed)
    else if t.claims[q.claimId].renewalId == Some(q.requestId) then
      Txn(t, Renewed(t.claims[q.claimId].leaseExpiresAt, t.claims[q.claimId].leaseExpiresAt - now))
    else
      Txn(t.(claims := t.claims[q.claimId := t.claims[q.claimId].(leaseExpiresAt := now + i.claimLease, renewalId := Some(q.requestId))]),
          Renewed(now + i.claimLease, i.claimLease))
  }

  predicate AssignedTo(t: Tables, q: HostRequest) {
    exists k :: k in t.assignments && t.assignments[k].claimId == q.claimId && t.assignments[k].slot == q.slot
      && t.assignments[k].attemptId == q.attemptId && t.assignments[k].descriptorDigest == q.descriptorDigest
  }

  function AcknowledgeCleanup(t: Tables, c: string, requestId: string): Tables
    requires c in t.claims
  {
    t.(claims := t.claims[c := t.claims[c].(recoveryId := Some(requestId))])
  }

  /** `prepareRecovery`; the resource id of a recovery is always its claim id. */
  ghost function PrepareRecovery(t: Tables, i: Instance, q: HostRequest, resourceId: string): Txn<Recovery> {
    if !OwnsActiveEpoch(t, i) then Txn(t, RecoveryFailed(StaleAuthority))
    else if !ExactClaim(t, q) || resourceId != q.claimId then Txn(t, RecoveryConflict)
    else
      var claim := t.claims[q.claimId];
      match claim.state
      case ReleasedClaim => Txn(t, if claim.recoveryId == Some(q.requestId) then AlreadyReleased else RecoveryConflict)
      case ActiveClaim =>
        if claim.epochId != i.epochId || claim.recoveryId.Some? || !AssignedTo(t, q) then Txn(t, RecoveryConflict)
        else if claim.slot in t.fences then Txn(t, RecoveryFailed(ConstraintViolation))
        else Txn(AcknowledgeCleanup(Fence(t, {q.claimId}, LeaseLost), q.claimId, q.requestId), RecoveryPending(claim.issuance))
      case RecoveringClaim =>
        if (claim.recoveryId.Some? && claim.recoveryId != Some(q.requestId))
           || claim.slot !in t.fences || t.fences[claim.slot].claimId != q.claimId
        then Txn(t, RecoveryConflict)
        else Txn(AcknowledgeCleanup(t, q.claimId, q.requestId), RecoveryPending(claim.issuance))
      case ReportedClaim => Txn(t, RecoveryConflict)
  }

  /** The fields of a revocation that must equal those of the issuance. */
  datatype Revocation = Revocation(
    attemptId: string, reviewId: string, jobName: string, attempt: nat, descriptorDigest: string, slot: Slot)

  predicate RevocationMatches(i: Issuance, r: Revocation) {
    r == Revocation(i.attemptId, i.reviewId, i.jobName, i.attempt, i.descriptorDigest, i.slot)
  }

  /** Closing a recovery: the claim and receipt are released, the demand superseded, the capacity free again. */
  function CloseRecovery(t: Tables, c: string): Tables {
    t.(claims := MoveClaims(t.claims, {c}, ReleasedClaim),
       receipts := MoveReceipts(t.receipts, {c}, ReleasedReceipt),
       demands := MoveDemands(t.demands, DemandsOfClaims(t, {c}), Superseded),
       fences := Unfence(t.fences, {c}))
  }

  predicate MayEndRecovery(t: Tables, q: HostRequest, resourceId: string, revocation: Revocation) {
    && ExactClaim(t, q) && t.claims[q.claimId].state == RecoveringClaim
    && t.claims[q.claimId].recoveryId == Some(q.requestId) && resourceId == q.claimId
    && q.slot in t.fences && t.fences[q.slot].claimId == q.claimId
    && RevocationMatches(t.claims[q.claimId].issuance, revocation)
  }

  function CompleteRecovery(t: Tables, i: Instance, q: HostRequest, resourceId: string,
      revocation: Revocation): Txn<RecoveryEnd> {
    if !OwnsActiveEpoch(t, i) then Txn(t, RecoveryEndFailed(StaleAuthority))
    else if !MayEndRecovery(t, q, resourceId, revocation) then Txn(t, NotRecoverable)
    else Txn(CloseRecovery(t, q.claimId), RecoveryEnded)
  }

  // ---- result store ----

  datatype ResultRequest = ResultRequest(requestId: string, claimId: string, payload: ResultPayload)
  datatype ResultIntake = ResultAccepted | ResultConflict | ResultNotFound

  predicate ResultSeen(t: Tables, hostId: string, q: ResultRequest) {
    q.claimId in t.results || exists c :: c in t.results && t.results[c].hostId == hostId && t.results[c].requestId == q.requestId
  }

  predicate CurrentClaim(t: Tables, i: Instance, c: string, p: ResultPayload, now: int)
    requires c in t.claims
  {
    && t.claims[c].state == ActiveClaim
    && c in t.receipts && t.receipts[c].state == ActiveReceipt
    && t.claims[c].demandId in t.demands && t.demands[t.claims[c].demandId].state == Claimed
    && t.claims[c].generation in t.admissions && t.admissions[t.claims[c].generation].Active()
    && t.claims[c].leaseExpiresAt > now
    && t.admissions[t.claims[c].generation].capacityDigest == i.capacityDigest
    && (exists k :: k in t.assignments && t.assignments[k].claimId == c)
    && p.reviewId == t.claims[c].job.reviewId && p.attemptId == t.claims[c].attemptId
    && p.attempt == t.claims[c].issuance.attempt && p.descriptorDigest == t.claims[c].descriptorDigest
    && p.slot == t.claims[c].slot && p.descriptor.admissionGeneration == t.claims[c].generation
    && p.descriptor == t.claims[c].descriptor
  }

  function PutResult(t: Tables, hostId: string, q: ResultRequest): Tables {
    t.(results := t.results[q.claimId := HostResult(hostId, q.requestId, q.payload)],
       outbox := t.outbox[q.claimId := Pending],
       claims := MoveClaims(t.claims, {q.claimId}, ReportedClaim),
       receipts := MoveReceipts(t.receipts, {q.claimId}, ReportedReceipt),
       demands := MoveDemands(t.demands, DemandsOfClaims(t, {q.claimId}), Reported))
  }

  function AcceptResult(t: Tables, i: Instance, hostId: string, q: ResultRequest, now: int): Txn<ResultIntake> {
    if ResultSeen(t, hostId, q) then
      Txn(t, if q.claimId in t.results && t.results[q.claimId] == HostResult(hostId, q.requestId, q.payload)
             then ResultAccepted else ResultConflict)
    else if q.claimId !in t.claims || t.claims[q.claimId].slot.hostId != hostId then Txn(t, ResultNotFound)
    else if !CurrentClaim(t, i, q.claimId, q.payload, now) then Txn(t, ResultConflict)
    else Txn(PutResult(t, hostId, q), ResultAccepted)
  }

  predicate MayComplete(t: Tables, c: string) {
    c in t.claims && c in t.results && c in t.outbox && Undelivered(t.outbox[c]) && t.claims[c].state == ReportedClaim
  }

  /** `complete`, and the denial that `takeDue` makes of a report whose admission ended. */
  function CompleteReport(t: Tables, c: string, delivered: bool): Tables {
    if MayComplete(t, c) then Finish(t, {c}, delivered) else t
  }

  /** `takeDue` picking `c`, and `retry` putting it back. */
  function MarkReport(t: Tables, c: string, state: OutboxState): Tables
    requires Undelivered(state)
  {
    if c in t.outbox && Undelivered(t.outbox[c]) then t.(outbox := t.outbox[c := state]) else t
  }
}
