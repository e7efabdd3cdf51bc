/**
 No transaction of any run breaks a constraint of the schema, except by a random id or an attempt id
 that was used before. For every step and every row it inserts, at the tables it is inserted into,
 the statement's own test is shown to hold exactly when that id is new.
 */
module AuthorityConstraints {
  import opened Wrappers
  import opened AuthorityTables
  import opened AuthoritySteps
  import opened AuthorityInvariant
  import opened AuthoritySchema
  import opened AuthorityStore
  import opened AuthorityRuns

  // ---- fences ----

  /** The fence of `c` can be inserted beside those of `done`. */
  ghost predicate FenceFits(t: Tables, done: set<string>, c: string, reason: FenceReason) {
    c in t.claims && CanInsertFence(t.(fences := NewFences(t.claims, done, reason) + t.fences), t.claims[c].slot, CapacityFence(c, reason))
  }

  /** In whatever order the rows come. */
  ghost predicate FencesInsert(t: Tables, ids: set<string>, reason: FenceReason) {
    forall done, c :: done <= ids && c in ids && c !in done ==> FenceFits(t, done, c, reason)
  }

  lemma FencesFit(t: Tables, ids: set<string>, reason: FenceReason)
    requires Inv(t) && ids <= ActiveClaims(t)
    ensures FencesInsert(t, ids, reason)
  {
    hide Inv, ActiveClaims, FenceFits;
    InvFencing(t);
    forall done, c | done <= ids && c in ids && c !in done ensures FenceFits(t, done, c, reason) {
      assert done + {c} <= ids;
      FenceFitsNow(t, done, c, reason);
    }
  }

  lemma FenceFitsNow(t: Tables, done: set<string>, c: string, reason: FenceReason)
    requires ClaimsOk(t.receipts, t.claims, t.demands) && ReceiptKeysOk(t.receipts) && FencesOk(t.claims, t.fences)
    requires done + {c} <= ActiveClaims(t) && c !in done
    ensures FenceFits(t, done, c, reason)
  {
    hide ClaimsOk, ReceiptKeysOk, FencesOk, NewFences, CanInsertFence;
    assert c in ActiveClaims(t);
    NewFencesStep(t, done, c, reason);
  }

  /** The fences of the claims of ended generations. */
  ghost predicate RotationInserts(t: Tables, generations: set<string>) {
    var denied := Finish(t, GenerationClaims(t, generations, ReportedClaim), false);
    FencesInsert(denied, GenerationClaims(denied, generations, ActiveClaim), GenerationRotated)
  }

  lemma RotationFits(t: Tables, generations: set<string>)
    requires Inv(t)
    ensures RotationInserts(t, generations)
  {
    hide Inv, FencesInsert;
    FinishKeepsInv(t, GenerationClaims(t, generations, ReportedClaim), false);
    var denied := Finish(t, GenerationClaims(t, generations, ReportedClaim), false);
    FencesFit(denied, GenerationClaims(denied, generations, ActiveClaim), GenerationRotated);
  }

  ghost predicate SweepInserts(t: Tables, i: Instance, now: int) {
    var fenced := Fence(t, ExpiredClaims(t, now), LeaseLost);
    FencesInsert(t, ExpiredClaims(t, now), LeaseLost) && RotationInserts(fenced, ForeignGenerations(fenced, i.capacityDigest))
  }

  lemma SweepFits(t: Tables, i: Instance, now: int)
    requires Inv(t)
    ensures SweepInserts(t, i, now)
  {
    hide Inv, FencesInsert, RotationInserts, Fence;
    FencesFit(t, ExpiredClaims(t, now), LeaseLost);
    FenceKeepsInv(t, ExpiredClaims(t, now), LeaseLost);
    RotationFits(Fence(t, ExpiredClaims(t, now), LeaseLost),
      ForeignGenerations(Fence(t, ExpiredClaims(t, now), LeaseLost), i.capacityDigest));
  }

  // ---- the rows of each transaction ----

  /** Opening: every fence, and the epoch exactly when its id is new. */
  ghost predicate OpenInserts(t: Tables, i: Instance, now: int) {
    var ended := Fence(t, ActiveClaims(t), ServiceRestart).(epochs := map e | e in t.epochs :: false);
    && FencesInsert(t, ActiveClaims(t), ServiceRestart)
    && (CanInsertEpoch(ended, i.epochId) <==> i.epochId !in t.epochs)
    && SweepInserts(BeginEpoch(t, i.epochId), i, now)
  }

  lemma OpenFits(t: Tables, i: Instance, now: int)
    requires Inv(t)
    ensures OpenInserts(t, i, now)
  {
    hide Inv, FencesInsert, SweepInserts, Fence, BeginEpoch;
    FencesFit(t, ActiveClaims(t), ServiceRestart);
    BeginEpochKeepsInv(t, i.epochId);
    SweepFits(BeginEpoch(t, i.epochId), i, now);
  }

  /** Admitting: the fences of the sweep and of what is replaced, and the admission exactly when its id is new. */
  ghost predicate AdmitInserts(t: Tables, i: Instance, policy: Policy, now: int, uuid: string) {
    var swept := Expire(t, i, now);
    var existing := ActiveGeneration(swept, policy.projectId, policy.repositoryId);
    var row := Admission(policy, i.serviceId, i.capacityDigest, now + i.admissionLease, Admitted);
    && SweepInserts(t, i, now)
    && (!Reusable(swept, i, policy, existing) ==>
         && (existing.Some? ==> RotationInserts(swept, {existing.value}))
         && (CanInsertAdmission(Cleared(swept, existing), uuid, row) <==> uuid !in t.admissions))
  }

  lemma AdmissionsStay(t: Tables, i: Instance, now: int, existing: Option<string>)
    ensures Cleared(Expire(t, i, now), existing).admissions.Keys == t.admissions.Keys
  {
    InvalidateKeepsKeys(Fence(t, ExpiredClaims(t, now), LeaseLost), ForeignGenerations(t, i.capacityDigest), Replaced);
    if existing.Some? { InvalidateKeepsKeys(Expire(t, i, now), {existing.value}, Replaced); }
  }

  lemma InvalidateKeepsKeys(t: Tables, generations: set<string>, state: AdmissionState)
    ensures Invalidate(t, generations, state).admissions.Keys == t.admissions.Keys
  {
  }

  lemma AdmitFits(t: Tables, i: Instance, policy: Policy, now: int, uuid: string)
    requires Inv(t)
    ensures AdmitInserts(t, i, policy, now, uuid)
  {
    hide InboxOk, DemandsOk, QueueOk, ReceiptsOk, ReceiptKeysOk, HoldersOk, ClaimsOk, AttemptsOk, ClaimAuthorityOk,
      EpochsOk, AdmissionsOk, AssignmentsOk, FencesOk, OutboxOk, ResultsOk, LimitsOk;
    hide SweepInserts, RotationInserts, Expire, Cleared, ActiveGeneration, Reusable, CanInsertAdmission;
    SweepFits(t, i, now);
    ExpireKeepsInv(t, i, now);
    var swept := Expire(t, i, now);
    var existing := ActiveGeneration(swept, policy.projectId, policy.repositoryId);
    if existing.Some? { RotationFits(swept, {existing.value}); }
    ClearedAllowsInsert(swept, existing, uuid,
      Admission(policy, i.serviceId, i.capacityDigest, now + i.admissionLease, Admitted));
    AdmissionsStay(t, i, now, existing);
  }

  ghost predicate RevokeInserts(t: Tables, i: Instance, g: string, now: int) {
    SweepInserts(t, i, now) && RotationInserts(Expire(t, i, now), {g})
  }

  lemma RevokeFits(t: Tables, i: Instance, g: string, now: int)
    requires Inv(t)
    ensures RevokeInserts(t, i, g, now)
  {
    hide Inv, SweepInserts, RotationInserts, Expire;
    SweepFits(t, i, now);
    ExpireKeepsInv(t, i, now);
    RotationFits(Expire(t, i, now), {g});
  }

  /** A replayed event of a known review job gains its own fence. */
  ghost predicate ReplayInserts(t: Tables, event: Event) {
    Replay(t, event).tables != t ==> CanInsertEventFence(t, event)
  }

  /** A new event: two fences, the inbox row, the demand exactly when its id is new, and the link to it. */
  ghost predicate AcceptInserts(t: Tables, i: Instance, event: Event, now: int, d: string) {
    && ReplayInserts(t, event)
    && (Replay(t, event).reply == New ==>
         && CanInsertEventFence(t, event) && CanInsertTupleFence(t, event)
         && forall g :: Admits(t, i, event, g) ==> RowsInsert(t, event, g, now, d))
  }

  ghost predicate RowsInsert(t: Tables, event: Event, g: string, now: int, d: string) {
    var t1 := t.(eventFences := t.eventFences[event.eventId := event],
      tupleFences := t.tupleFences[event.Job() := event.Tuple()]);
    var t2 := t1.(inbox := t.inbox[event.eventId := InboxRow(event, None, false)]);
    var t3 := t2.(demands := t.demands[d := Demand(event, g, Queued, now)]);
    && CanInsertInbox(t1, event.eventId, InboxRow(event, None, false))
    && (CanInsertDemand(t2, d, Demand(event, g, Queued, now)) <==> d !in t.demands)
    && (d !in t.demands ==> CanLinkInbox(t3, event.eventId, d))
  }

  lemma AcceptFits(t: Tables, i: Instance, event: Event, now: int, d: string)
    requires Inv(t)
    ensures AcceptInserts(t, i, event, now, d)
  {
    hide InboxOk, DemandsOk, QueueOk, ReceiptsOk, ReceiptKeysOk, HoldersOk, ClaimsOk, AttemptsOk, ClaimAuthorityOk,
      EpochsOk, AdmissionsOk, AssignmentsOk, FencesOk, OutboxOk, ResultsOk, LimitsOk;
    hide AdmitsEvent, CanInsertInbox, CanInsertDemand, CanLinkInbox;
    if Replay(t, event).reply == New {
      forall g | Admits(t, i, event, g) ensures RowsInsert(t, event, g, now, d) { IntakeInserts(t, event, g, now, d); }
    }
  }

  /**
   A first request on a free capacity: the empty receipt and the one of any demand in the queue, exactly
   when the id is new.
   */
  ghost predicate ReserveInserts(t: Tables, r: Request, c: string) {
    ReceiptFor(t, r).None? ==>
      && (CanInsertReceipt(t, c, Receipt(r.slot, r.requestId, None, None, EmptyReceipt)) <==> c !in t.receipts)
      && forall d :: d in t.demands && t.demands[d].state == Queued ==> HoldingInserts(t, r, c, d)
  }

  ghost predicate HoldingInserts(t: Tables, r: Request, c: string, d: string)
    requires d in t.demands
  {
    CanInsertReceipt(t, c, Receipt(r.slot, r.requestId, Some(d), Some(t.demands[d].generation), PreparingReceipt)) <==> c !in t.receipts
  }

  lemma ReserveFits(t: Tables, r: Request, c: string)
    requires Inv(t)
    ensures ReserveInserts(t, r, c)
  {
    hide InboxOk, DemandsOk, QueueOk, ReceiptsOk, ReceiptKeysOk, HoldersOk, ClaimsOk, AttemptsOk, ClaimAuthorityOk,
      EpochsOk, AdmissionsOk, AssignmentsOk, FencesOk, OutboxOk, ResultsOk, LimitsOk;
    hide CanInsertReceipt, ReceiptFor;
    if ReceiptFor(t, r).None? {
      ReceiptInserts(t, r, c, "");
      forall d | d in t.demands && t.demands[d].state == Queued
        ensures HoldingInserts(t, r, c, d)
      {
        ReceiptInserts(t, r, c, d);
      }
    }
  }

  /** An activation: the claim exactly when its attempt id is new, and then the assignment. */
  ghost predicate ActivateInserts(t: Tables, i: Instance, q: Request, r: Reservation, p: Proof, now: int)
    requires r.Prepared?
  {
    MayActivate(t, i, q, r, p, now) && OwnsActiveEpoch(t, i) ==>
      var claim := NewClaim(i, q, r, p, t.receipts[r.claimId].demandId.value, now);
      && (CanInsertClaim(t, r.claimId, claim) <==> !AttemptUsed(t, p.attemptId))
      && (!AttemptUsed(t, p.attemptId) ==>
            CanInsertAssignment(t.(claims := t.claims[r.claimId := claim]), claim.job, AssignmentOf(r.claimId, claim)))
  }

  lemma ActivateFits(t: Tables, i: Instance, q: Request, r: Reservation, p: Proof, now: int)
    requires Inv(t) && Genuine(t, r)
    ensures ActivateInserts(t, i, q, r, p, now)
  {
    hide InboxOk, DemandsOk, QueueOk, ReceiptsOk, ReceiptKeysOk, HoldersOk, ClaimsOk, AttemptsOk, ClaimAuthorityOk,
      EpochsOk, AdmissionsOk, AssignmentsOk, FencesOk, OutboxOk, ResultsOk, LimitsOk;
    hide CanInsertClaim, CanInsertAssignment, AttemptUsed, DescriptorMatchesPolicy;
    if MayActivate(t, i, q, r, p, now) && OwnsActiveEpoch(t, i) {
      ActivationInserts(t, r.claimId, NewClaim(i, q, r, p, t.receipts[r.claimId].demandId.value, now));
    }
  }

  /** Moving an active claim into recovery: its fence. */
  ghost predicate RecoveryInserts(t: Tables, q: HostRequest) {
    q.claimId in ActiveClaims(t) ==> FencesInsert(t, {q.claimId}, LeaseLost)
  }

  lemma RecoveryFits(t: Tables, q: HostRequest)
    requires Inv(t)
    ensures RecoveryInserts(t, q)
  {
    hide Inv, FencesInsert;
    if q.claimId in ActiveClaims(t) { FencesFit(t, {q.claimId}, LeaseLost); }
  }

  /** A host's result and its report. */
  ghost predicate ResultInserts(t: Tables, i: Instance, hostId: string, q: ResultRequest, now: int) {
    var row := HostResult(hostId, q.requestId, q.payload);
    AcceptResult(t, i, hostId, q, now).tables != t ==>
      CanInsertResult(t, q.claimId, row) && CanInsertReport(t.(results := t.results[q.claimId := row]), q.claimId)
  }

  lemma ResultFits(t: Tables, i: Instance, hostId: string, q: ResultRequest, now: int)
    requires Inv(t)
    ensures ResultInserts(t, i, hostId, q, now)
  {
    hide InboxOk, DemandsOk, QueueOk, ReceiptsOk, ReceiptKeysOk, HoldersOk, ClaimsOk, AttemptsOk, ClaimAuthorityOk,
      EpochsOk, AdmissionsOk, AssignmentsOk, FencesOk, ResultsOk, LimitsOk, CurrentClaim, PutResult;
  }

  // ---- every run ----

  /** Every row that step `s` inserts passes its constraints exactly when its random or attempt id is new. */
  ghost predicate InsertsFit(w: World, s: Step) {
    var t := w.tables;
    match s
    case OpenStep(i, now) => OpenInserts(t, i, now)
    case ExpireStep(i, now) => SweepInserts(t, i, now)
    case AdmitStep(i, policy, now, uuid) => AdmitInserts(t, i, policy, now, uuid)
    case RevokeStep(i, _, _, g, now) => RevokeInserts(t, i, g, now)
    case CheckReplayStep(event) => ReplayInserts(t, event)
    case AcceptStep(i, event, now, uuid) => AcceptInserts(t, i, event, now, uuid)
    case ReserveStep(_, r, _, uuid) => ReserveInserts(t, r, uuid)
    case ActivateStep(i, q, r, p, now) => r in w.issued && r.Prepared? ==> ActivateInserts(t, i, q, r, p, now)
    case PrepareRecoveryStep(_, q, _) => RecoveryInserts(t, q)
    case ResultStep(i, host, q, now) => ResultInserts(t, i, host, q, now)
    case ReleaseStaleStep(_, _) => true
    case RenewStep(_, _, _) => true
    case CompleteRecoveryStep(_, _, _, _) => true
    case CompleteReportStep(_, _) => true
    case MarkReportStep(_, _) => true
  }

  lemma StepFits(w: World, s: Step)
    requires WorldOk(w)
    ensures InsertsFit(w, s)
  {
    hide Inv, Genuine, OpenInserts, SweepInserts, AdmitInserts, RevokeInserts, ReplayInserts, AcceptInserts,
      ReserveInserts,
      ActivateInserts, RecoveryInserts, ResultInserts;
    var t := w.tables;
    match s
    case OpenStep(i, now) => OpenFits(t, i, now);
    case ExpireStep(i, now) => SweepFits(t, i, now);
    case AdmitStep(i, policy, now, uuid) => AdmitFits(t, i, policy, now, uuid);
    case RevokeStep(i, _, _, g, now) => RevokeFits(t, i, g, now);
    case CheckReplayStep(event) => ReplayFits(t, event);
    case AcceptStep(i, event, now, uuid) => AcceptFits(t, i, event, now, uuid);
    case ReserveStep(_, r, _, uuid) => ReserveFits(t, r, uuid);
    case ActivateStep(i, q, r, p, now) => if r in w.issued && r.Prepared? { ActivateFits(t, i, q, r, p, now); }
    case PrepareRecoveryStep(_, q, _) => RecoveryFits(t, q);
    case ResultStep(i, host, q, now) => ResultFits(t, i, host, q, now);
    case _ =>
  }

  lemma ReplayFits(t: Tables, event: Event)
    ensures ReplayInserts(t, event)
  {
  }

  /** In every run, whatever the next transaction is, and before it the tables meet the whole schema. */
  lemma ConstraintsHold(steps: seq<Step>, s: Step)
    ensures InsertsFit(Run(START, steps), s) && MeetsSchema(Reached(steps))
  {
    hide InsertsFit, Genuine, Run, Inv, UniqueKeys, ForeignKeys;
    StartOk();
    RunOk(START, steps);
    StepFits(Run(START, steps), s);
    InvGivesUniqueKeys(Reached(steps));
    InvGivesForeignKeys(Reached(steps));
  }

  // ---- stored rows read back ----

  /** A repeated request never finds its stored row invalid, and a claim can always be moved into recovery. */
  lemma StoredRowsAreValid(steps: seq<Step>, i: Instance, r: Request, q: HostRequest, resource: string, now: int,
      uuid: string)
    ensures Reserve(Reached(steps), i, r, now, uuid).reply != ReserveFailed(InvalidRow)
    ensures PrepareRecovery(Reached(steps), i, q, resource).reply != RecoveryFailed(ConstraintViolation)
  {
    hide Inv, Reached, PrepareRecovery, Existing;
    var t := Reached(steps);
    ReachedInv(steps);
    if ReceiptFor(t, r).Some? && r.slot in i.capacities {
      ExistingIsValid(t, i, i.capacities[r.slot], ReceiptFor(t, r).value);
    }
    RecoveryIsFree(t, i, q, resource);
  }

  lemma ExistingIsValid(t: Tables, i: Instance, capacity: CapacityPolicy, c: string)
    requires Inv(t) && c in t.receipts
    ensures !Existing(t, i, capacity, c).ReserveFailed?
  {
  }

  lemma RecoveryIsFree(t: Tables, i: Instance, q: HostRequest, resource: string)
    requires Inv(t)
    ensures PrepareRecovery(t, i, q, resource).reply != RecoveryFailed(ConstraintViolation)
  {
    hide InboxOk, DemandsOk, QueueOk, HoldersOk, AttemptsOk, ClaimAuthorityOk, EpochsOk, AdmissionsOk, AssignmentsOk,
      OutboxOk, ResultsOk, LimitsOk, ReceiptsOk, Fence;
    if q.claimId in t.claims && t.claims[q.claimId].state == ActiveClaim { ActiveClaimUnfenced(t, q.claimId); }
  }
}
