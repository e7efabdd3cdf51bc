/** What no transaction ever takes back: fences, identities, ended epochs, and the direction of every state. */
module AuthorityHistory {
  import opened Wrappers
  import opened AuthorityTables
  import opened AuthoritySteps
  import opened AuthorityInvariant

  /** Reachability in the demand life cycle: queued, preparing, claimed, reported, then a final state. */
  predicate DemandLeads(a: DemandState, b: DemandState) {
    a == b || match a
              case Queued => true
              case Preparing => b != Queued
              case Claimed => b != Queued && b != Preparing
              case Reported => b == Completed || b == Failed
              case _ => false
  }

  predicate ReceiptLeads(a: ReceiptState, b: ReceiptState) {
    a == b || match a
              case PreparingReceipt => b != EmptyReceipt
              case ActiveReceipt => b in {ReportedReceipt, RecoveringReceipt, ReleasedReceipt}
              case ReportedReceipt => b == ReleasedReceipt
              case RecoveringReceipt => b == ReleasedReceipt
              case _ => false
  }

  predicate ClaimLeads(a: ClaimState, b: ClaimState) {
    a == b || match a
              case ActiveClaim => true
              case ReportedClaim => b == ReleasedClaim
              case RecoveringClaim => b == ReleasedClaim
              case ReleasedClaim => false
  }

  ghost predicate EpochsEvolve(a: map<string, bool>, b: map<string, bool>) {
    forall e :: e in a ==> e in b && (b[e] ==> a[e])
  }

  ghost predicate AdmissionsEvolve(a: map<string, Admission>, b: map<string, Admission>) {
    forall g :: g in a ==> g in b && b[g].policy == a[g].policy && (b[g].Active() ==> a[g].Active())
  }

  ghost predicate EventsEvolve(a: map<string, Event>, b: map<string, Event>) {
    forall e :: e in a ==> e in b && b[e] == a[e]
  }

  ghost predicate TuplesEvolve(a: map<ReviewJob, Event>, b: map<ReviewJob, Event>) {
    forall k :: k in a ==> k in b && b[k] == a[k]
  }

  ghost predicate DemandsEvolve(a: map<string, Demand>, b: map<string, Demand>) {
    forall d :: d in a ==> d in b && b[d] == a[d].(state := b[d].state) && DemandLeads(a[d].state, b[d].state)
  }

  ghost predicate ReceiptsEvolve(a: map<string, Receipt>, b: map<string, Receipt>) {
    forall c :: c in a ==> c in b && b[c] == a[c].(state := b[c].state) && ReceiptLeads(a[c].state, b[c].state)
  }

  ghost predicate ClaimsEvolve(a: map<string, Claim>, b: map<string, Claim>) {
    forall c :: c in a ==>
      && c in b && ClaimLeads(a[c].state, b[c].state)
      && b[c] == a[c].(state := b[c].state, leaseExpiresAt := b[c].leaseExpiresAt,
          renewalId := b[c].renewalId, recoveryId := b[c].recoveryId)
  }

  ghost predicate Evolves(t: Tables, t': Tables) {
    && EpochsEvolve(t.epochs, t'.epochs) && AdmissionsEvolve(t.admissions, t'.admissions)
    && EventsEvolve(t.eventFences, t'.eventFences) && TuplesEvolve(t.tupleFences, t'.tupleFences)
    && DemandsEvolve(t.demands, t'.demands) && ReceiptsEvolve(t.receipts, t'.receipts) && ClaimsEvolve(t.claims, t'.claims)
  }

  lemma EvolvesReflexive(t: Tables)
    ensures Evolves(t, t)
  {
  }

  lemma RowsTransitive(a: Tables, b: Tables, c: Tables)
    requires DemandsEvolve(a.demands, b.demands) && DemandsEvolve(b.demands, c.demands)
    requires ReceiptsEvolve(a.receipts, b.receipts) && ReceiptsEvolve(b.receipts, c.receipts)
    ensures DemandsEvolve(a.demands, c.demands) && ReceiptsEvolve(a.receipts, c.receipts)
  {
  }

  lemma ClaimsTransitive(a: map<string, Claim>, b: map<string, Claim>, c: map<string, Claim>)
    requires ClaimsEvolve(a, b) && ClaimsEvolve(b, c)
    ensures ClaimsEvolve(a, c)
  {
  }

  lemma EvolvesTransitive(a: Tables, b: Tables, c: Tables)
    requires Evolves(a, b) && Evolves(b, c)
    ensures Evolves(a, c)
  {
    hide DemandsEvolve, ReceiptsEvolve, ClaimsEvolve;
    RowsTransitive(a, b, c);
    ClaimsTransitive(a.claims, b.claims, c.claims);
  }

  /** Claims move forward together with their receipts. */
  lemma MoveEvolves(t: Tables, ids: set<string>, cs: ClaimState)
    requires ClaimsOk(t.receipts, t.claims, t.demands)
    requires forall c :: c in ids ==> c in t.claims && ClaimLeads(t.claims[c].state, cs)
    ensures ClaimsEvolve(t.claims, MoveClaims(t.claims, ids, cs))
    ensures ReceiptsEvolve(t.receipts, MoveReceipts(t.receipts, ids, ReceiptOf(cs)))
  {
    hide ClaimsEvolve, ReceiptsEvolve, ClaimsOk, ClaimLeads, ReceiptLeads;
    forall c | c in ids ensures c in t.receipts && ReceiptLeads(t.receipts[c].state, ReceiptOf(cs)) {
      RowOfClaim(t.receipts, t.claims, t.demands, c);
      ReceiptFollows(t.claims[c].state, cs);
    }
    MoveClaimsEvolves(t.claims, ids, cs);
    MoveReceiptsEvolves(t.receipts, ids, ReceiptOf(cs));
  }

  lemma ReceiptFollows(a: ClaimState, b: ClaimState)
    requires ClaimLeads(a, b)
    ensures ReceiptLeads(ReceiptOf(a), ReceiptOf(b))
  {
  }

  lemma MoveClaimsEvolves(claims: map<string, Claim>, ids: set<string>, cs: ClaimState)
    requires forall c :: c in ids ==> c in claims && ClaimLeads(claims[c].state, cs)
    ensures ClaimsEvolve(claims, MoveClaims(claims, ids, cs))
  {
  }

  lemma MoveReceiptsEvolves(receipts: map<string, Receipt>, ids: set<string>, rs: ReceiptState)
    requires forall c :: c in ids ==> c in receipts && ReceiptLeads(receipts[c].state, rs)
    ensures ReceiptsEvolve(receipts, MoveReceipts(receipts, ids, rs))
  {
  }

  lemma DemandPut(demands: map<string, Demand>, d: string, demand: Demand)
    requires d in demands ==> demand == demands[d].(state := demand.state) && DemandLeads(demands[d].state, demand.state)
    ensures DemandsEvolve(demands, demands[d := demand])
  {
  }

  lemma ReceiptPut(receipts: map<string, Receipt>, c: string, receipt: Receipt)
    requires c in receipts ==> receipt == receipts[c].(state := receipt.state) && ReceiptLeads(receipts[c].state, receipt.state)
    ensures ReceiptsEvolve(receipts, receipts[c := receipt])
  {
  }

  lemma MoveDemandsEvolves(t: Tables, ids: set<string>, ds: DemandState)
    requires ClaimsOk(t.receipts, t.claims, t.demands) && ReceiptsOk(t.receipts, t.demands)
    requires forall c :: c in ids ==> c in t.claims && forall d :: Coupled(ReceiptOf(t.claims[c].state), d) ==> DemandLeads(d, ds)
    ensures DemandsEvolve(t.demands, MoveDemands(t.demands, DemandsOfClaims(t, ids), ds))
  {
    hide ClaimsOk;
    forall d | d in t.demands && d in DemandsOfClaims(t, ids) ensures DemandLeads(t.demands[d].state, ds) {
      var c :| c in ids && c in t.claims && t.claims[c].demandId == d;
      RowOfClaim(t.receipts, t.claims, t.demands, c);
      assert Coupled(ReceiptOf(t.claims[c].state), t.demands[d].state);
    }
  }

  lemma FenceEvolves(t: Tables, ids: set<string>, reason: FenceReason)
    requires Inv(t) && ids <= ActiveClaims(t)
    ensures Evolves(t, Fence(t, ids, reason))
  {
    hide Inv, ClaimsOk, EpochsEvolve, AdmissionsEvolve, EventsEvolve, TuplesEvolve, DemandsEvolve, ClaimsEvolve,
      ReceiptsEvolve;
    EvolvesReflexive(t);
    InvClaims(t);
    MoveEvolves(t, ids, RecoveringClaim);
  }

  lemma InvClaims(t: Tables)
    requires Inv(t)
    ensures ClaimsOk(t.receipts, t.claims, t.demands) && ReceiptsOk(t.receipts, t.demands)
  {
  }

  lemma FinishEvolves(t: Tables, ids: set<string>, delivered: bool)
    requires Inv(t) && forall c :: c in ids ==> c in t.claims && t.claims[c].state == ReportedClaim
    ensures Evolves(t, Finish(t, ids, delivered))
  {
    hide Inv, ClaimsOk, ReceiptsOk, EpochsEvolve, AdmissionsEvolve, EventsEvolve, TuplesEvolve, DemandsEvolve,
      ClaimsEvolve, ReceiptsEvolve;
    EvolvesReflexive(t);
    InvClaims(t);
    MoveEvolves(t, ids, ReleasedClaim);
    MoveDemandsEvolves(t, ids, if delivered then Completed else Failed);
  }

  lemma CloseRecoveryEvolves(t: Tables, c: string)
    requires Inv(t) && c in t.claims && t.claims[c].state == RecoveringClaim
    ensures Evolves(t, CloseRecovery(t, c))
  {
    hide Inv, ClaimsOk, ReceiptsOk, EpochsEvolve, AdmissionsEvolve, EventsEvolve, TuplesEvolve, DemandsEvolve,
      ClaimsEvolve, ReceiptsEvolve;
    EvolvesReflexive(t);
    InvClaims(t);
    MoveEvolves(t, {c}, ReleasedClaim);
    MoveDemandsEvolves(t, {c}, Superseded);
  }

  lemma PutResultEvolves(t: Tables, hostId: string, q: ResultRequest)
    requires Inv(t) && q.claimId in t.claims && t.claims[q.claimId].state == ActiveClaim
    ensures Evolves(t, PutResult(t, hostId, q))
  {
    hide Inv, ClaimsOk, ReceiptsOk, EpochsEvolve, AdmissionsEvolve, EventsEvolve, TuplesEvolve, DemandsEvolve,
      ClaimsEvolve, ReceiptsEvolve;
    EvolvesReflexive(t);
    InvClaims(t);
    MoveEvolves(t, {q.claimId}, ReportedClaim);
    MoveDemandsEvolves(t, {q.claimId}, Reported);
  }

  lemma RetireEvolves(t: Tables, generations: set<string>, state: AdmissionState)
    requires state != Admitted
    ensures Evolves(t, Retire(t, generations, state))
  {
    hide ClaimsEvolve, ReceiptsEvolve;
    EvolvesReflexive(t);
  }

  lemma InvalidateEvolves(t: Tables, generations: set<string>, state: AdmissionState)
    requires Inv(t) && state != Admitted
    ensures Evolves(t, Invalidate(t, generations, state))
  {
    hide Inv, Evolves;
    var reported := GenerationClaims(t, generations, ReportedClaim);
    var denied := Finish(t, reported, false);
    FinishKeepsInv(t, reported, false);
    FinishEvolves(t, reported, false);
    var active := GenerationClaims(denied, generations, ActiveClaim);
    FenceEvolves(denied, active, GenerationRotated);
    var fenced := Fence(denied, active, GenerationRotated);
    RetireEvolves(fenced, generations, state);
    EvolvesTransitive(t, denied, fenced);
    EvolvesTransitive(t, fenced, Retire(fenced, generations, state));
  }

  lemma ExpireEvolves(t: Tables, i: Instance, now: int)
    requires Inv(t)
    ensures Evolves(t, Expire(t, i, now))
  {
    hide Inv, Evolves, Invalidate;
    var fenced := Fence(t, ExpiredClaims(t, now), LeaseLost);
    FenceKeepsInv(t, ExpiredClaims(t, now), LeaseLost);
    FenceEvolves(t, ExpiredClaims(t, now), LeaseLost);
    InvalidateEvolves(fenced, ForeignGenerations(fenced, i.capacityDigest), Replaced);
    EvolvesTransitive(t, fenced, Expire(t, i, now));
  }

  lemma OpenEvolves(t: Tables, i: Instance, now: int)
    requires Inv(t)
    ensures Evolves(t, Open(t, i, now).tables)
  {
    hide Inv, Expire, BeginEpoch, Evolves;
    if i.epochId in t.epochs {
      EvolvesReflexive(t);
    } else {
      BeginEpochKeepsInv(t, i.epochId);
      BeginEpochEvolves(t, i.epochId);
      ExpireEvolves(BeginEpoch(t, i.epochId), i, now);
      EvolvesTransitive(t, BeginEpoch(t, i.epochId), Open(t, i, now).tables);
    }
  }

  lemma BeginEpochEvolves(t: Tables, epochId: string)
    requires Inv(t) && epochId !in t.epochs
    ensures Evolves(t, BeginEpoch(t, epochId))
  {
    hide Inv, ClaimsEvolve, ReceiptsEvolve, DemandsEvolve;
    FenceEvolves(t, ActiveClaims(t), ServiceRestart);
  }

  lemma PutAdmissionEvolves(t: Tables, g: string, a: Admission)
    requires g in t.admissions ==> t.admissions[g].Active() && t.admissions[g].policy == a.policy
    ensures Evolves(t, PutAdmission(t, g, a))
  {
    hide ClaimsEvolve, ReceiptsEvolve, DemandsEvolve;
    EvolvesReflexive(t);
  }

  lemma AdmitEvolves(t: Tables, i: Instance, policy: Policy, now: int, uuid: string)
    requires Inv(t)
    ensures Evolves(t, Admit(t, i, policy, now, uuid).tables)
  {
    hide Inv, Expire, Invalidate, PutAdmission, Evolves;
    var swept := Expire(t, i, now);
    ExpireKeepsInv(t, i, now);
    ExpireEvolves(t, i, now);
    var existing := ActiveGeneration(swept, policy.projectId, policy.repositoryId);
    var t' := Admit(t, i, policy, now, uuid).tables;
    if Reusable(swept, i, policy, existing) {
      PutAdmissionEvolves(swept, existing.value,
        swept.admissions[existing.value].(expiresAt := now + i.admissionLease));
      EvolvesTransitive(t, swept, t');
    } else {
      var cleared := Cleared(swept, existing);
      if existing.Some? { InvalidateEvolves(swept, {existing.value}, Replaced); } else { EvolvesReflexive(swept); }
      EvolvesTransitive(t, swept, cleared);
      EvolvesReflexive(t);
      if uuid !in cleared.admissions {
        PutAdmissionEvolves(cleared, uuid,
          Admission(policy, i.serviceId, i.capacityDigest, now + i.admissionLease, Admitted));
        EvolvesTransitive(t, cleared, t');
      }
    }
  }

  lemma RevokeEvolves(t: Tables, i: Instance, projectId: string, repositoryId: string, g: string, now: int)
    requires Inv(t)
    ensures Evolves(t, Revoke(t, i, projectId, repositoryId, g, now).tables)
  {
    hide Inv, Expire, Invalidate, Evolves;
    var swept := Expire(t, i, now);
    ExpireKeepsInv(t, i, now);
    ExpireEvolves(t, i, now);
    InvalidateEvolves(swept, {g}, Revoked);
    EvolvesTransitive(t, swept, Invalidate(swept, {g}, Revoked));
    EvolvesReflexive(t);
  }

  lemma ReplayEvolves(t: Tables, event: Event)
    ensures Evolves(t, CheckReplay(t, event).tables) && Evolves(t, Replay(t, event).tables)
  {
    hide EpochsEvolve, AdmissionsEvolve, TuplesEvolve, DemandsEvolve, ClaimsEvolve, ReceiptsEvolve;
    EvolvesReflexive(t);
  }

  lemma InsertAcceptedEvolves(t: Tables, event: Event, generation: string, now: int, d: string)
    requires event.eventId !in t.eventFences && event.Job() !in t.tupleFences && d !in t.demands
    ensures Evolves(t, InsertAccepted(t, event, generation, now, d))
  {
    hide EpochsEvolve, AdmissionsEvolve, DemandsEvolve, ClaimsEvolve, ReceiptsEvolve;
    EvolvesReflexive(t);
    DemandPut(t.demands, d, Demand(event, generation, Queued, now));
  }

  lemma AcceptEvolves(t: Tables, i: Instance, event: Event, now: int, uuid: string)
    ensures Evolves(t, Accept(t, i, event, now, uuid).tables)
  {
    hide Evolves, NonterminalDemands, InsertAccepted;
    EvolvesReflexive(t);
    ReplayEvolves(t, event);
    var admission := AdmissionFor(t, i, event);
    if Replay(t, event).reply == New && admission.Some? && uuid !in t.demands {
      InsertAcceptedEvolves(t, event, admission.value, now, uuid);
    }
  }

  lemma TakeNothingEvolves(t: Tables, r: Request, c: string)
    requires c !in t.receipts
    ensures Evolves(t, TakeNothing(t, r, c))
  {
    hide EpochsEvolve, AdmissionsEvolve, EventsEvolve, TuplesEvolve, DemandsEvolve, ClaimsEvolve, ReceiptsEvolve;
    EvolvesReflexive(t);
    ReceiptPut(t.receipts, c, Receipt(r.slot, r.requestId, None, None, EmptyReceipt));
  }

  lemma TakeDemandEvolves(t: Tables, r: Request, c: string, d: string)
    requires c !in t.receipts && d in t.demands && t.demands[d].state == Queued
    ensures Evolves(t, TakeDemand(t, r, c, d))
  {
    hide EpochsEvolve, AdmissionsEvolve, EventsEvolve, TuplesEvolve, DemandsEvolve, ClaimsEvolve, ReceiptsEvolve;
    EvolvesReflexive(t);
    ReceiptPut(t.receipts, c, Receipt(r.slot, r.requestId, Some(d), Some(t.demands[d].generation), PreparingReceipt));
    DemandPut(t.demands, d, t.demands[d].(state := Preparing));
  }

  lemma ReserveEvolves(t: Tables, i: Instance, r: Request, now: int, uuid: string)
    ensures Evolves(t, Reserve(t, i, r, now, uuid).tables)
  {
    hide SlotBusy, Existing, Evolves, TakeDemand, TakeNothing;
    EvolvesReflexive(t);
    if uuid !in t.receipts {
      forall d | d in t.demands && t.demands[d].state == Queued ensures Evolves(t, TakeDemand(t, r, uuid, d)) {
        TakeDemandEvolves(t, r, uuid, d);
      }
      TakeNothingEvolves(t, r, uuid);
    }
  }

  lemma ActivateEvolves(t: Tables, i: Instance, q: Request, r: Reservation, p: Proof, now: int)
    requires Inv(t) && r.Prepared?
    ensures Evolves(t, Activate(t, i, q, r, p, now).tables)
  {
    hide Inv, ClaimsOk, ReceiptsOk, EpochsEvolve, AdmissionsEvolve, EventsEvolve, TuplesEvolve, DemandsEvolve,
      ReceiptsEvolve;
    EvolvesReflexive(t);
    InvClaims(t);
    if r.claimId in t.receipts && t.receipts[r.claimId].state == PreparingReceipt {
      PreparingDemand(t, r.claimId);
      var d := t.receipts[r.claimId].demandId.value;
      ReceiptPut(t.receipts, r.claimId, t.receipts[r.claimId].(state := ActiveReceipt));
      DemandPut(t.demands, d, t.demands[d].(state := Claimed));
    }
  }

  lemma ReleaseStaleEvolves(t: Tables, q: Request, c: string)
    requires Inv(t)
    ensures Evolves(t, ReleaseStale(t, q, c))
  {
    hide Inv, ClaimsOk, ReceiptsOk, EpochsEvolve, AdmissionsEvolve, EventsEvolve, TuplesEvolve, DemandsEvolve,
      ClaimsEvolve, ReceiptsEvolve;
    EvolvesReflexive(t);
    InvClaims(t);
    if c in t.receipts && t.receipts[c].state == PreparingReceipt {
      PreparingDemand(t, c);
      var d := t.receipts[c].demandId.value;
      ReceiptPut(t.receipts, c, t.receipts[c].(state := ReleasedReceipt));
      DemandPut(t.demands, d, t.demands[d].(state := Superseded));
    }
  }

  lemma LeaseEvolves(t: Tables, i: Instance, q: HostRequest, now: int)
    ensures Evolves(t, Renew(t, i, q, now).tables)
    ensures q.claimId in t.claims ==> Evolves(t, AcknowledgeCleanup(t, q.claimId, q.requestId))
  {
    hide ReceiptsEvolve, DemandsEvolve;
    EvolvesReflexive(t);
  }

  lemma RecoveryEvolves(t: Tables, i: Instance, q: HostRequest, resourceId: string, revocation: Revocation)
    requires Inv(t)
    ensures Evolves(t, PrepareRecovery(t, i, q, resourceId).tables)
    ensures Evolves(t, CompleteRecovery(t, i, q, resourceId, revocation).tables)
  {
    hide Inv, Evolves, AcknowledgeCleanup, CloseRecovery;
    EvolvesReflexive(t);
    LeaseEvolves(t, i, q, 0);
    if q.claimId in t.claims && t.claims[q.claimId].state == ActiveClaim {
      var fenced := Fence(t, {q.claimId}, LeaseLost);
      FenceEvolves(t, {q.claimId}, LeaseLost);
      LeaseEvolves(fenced, i, q, 0);
      EvolvesTransitive(t, fenced, AcknowledgeCleanup(fenced, q.claimId, q.requestId));
    }
    if MayEndRecovery(t, q, resourceId, revocation) { CloseRecoveryEvolves(t, q.claimId); }
  }

  lemma ResultEvolves(t: Tables, i: Instance, hostId: string, q: ResultRequest, now: int)
    requires Inv(t)
    ensures Evolves(t, AcceptResult(t, i, hostId, q, now).tables)
  {
    hide Inv, Evolves, PutResult, ResultSeen;
    EvolvesReflexive(t);
    if q.claimId in t.claims && CurrentClaim(t, i, q.claimId, q.payload, now) { PutResultEvolves(t, hostId, q); }
  }

  lemma ReportEvolves(t: Tables, c: string, delivered: bool, state: OutboxState)
    requires Inv(t) && Undelivered(state)
    ensures Evolves(t, CompleteReport(t, c, delivered)) && Evolves(t, MarkReport(t, c, state))
  {
    hide Inv, Finish, ClaimsEvolve, ReceiptsEvolve, DemandsEvolve;
    EvolvesReflexive(t);
    if MayComplete(t, c) { FinishEvolves(t, {c}, delivered); }
  }
}
