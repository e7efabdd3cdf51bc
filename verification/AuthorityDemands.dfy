/** The edges of a demand's life cycle, transaction by transaction. */
module AuthorityDemands {
  import opened Wrappers
  import opened AuthorityTables
  import opened AuthoritySteps
  import opened AuthorityInvariant
  import opened AuthorityRotation
  import opened AuthorityRuns

  /** The one move a transaction may make with a demand. */
  predicate Edge(s: Step, a: DemandState, b: DemandState) {
    match s
    case ReserveStep(_, _, _, _) => a == Queued && b == Preparing
    case ActivateStep(_, _, _, _, _) => a == Preparing && b == Claimed
    case ReleaseStaleStep(_, _) => a == Preparing && b == Superseded
    case ResultStep(_, _, _, _) => a == Claimed && b == Reported
    case CompleteRecoveryStep(_, _, _, _) => a == Claimed && b == Superseded
    case CompleteReportStep(_, delivered) => a == Reported && b == if delivered then Completed else Failed
    case OpenStep(_, _) => EndsWithAdmission(a, b)
    case ExpireStep(_, _) => EndsWithAdmission(a, b)
    case AdmitStep(_, _, _, _) => EndsWithAdmission(a, b)
    case RevokeStep(_, _, _, _, _) => EndsWithAdmission(a, b)
    case _ => false
  }

  /** What the end of an admission does: a queued demand is superseded, a reported one fails. */
  predicate EndsWithAdmission(a: DemandState, b: DemandState) {
    (a == Queued && b == Superseded) || (a == Reported && b == Failed)
  }

  ghost predicate OnlyEnds(a: map<string, Demand>, b: map<string, Demand>) {
    forall d :: d in a ==> d in b && (b[d].state == a[d].state || EndsWithAdmission(a[d].state, b[d].state))
  }

  lemma OnlyEndsTwice(a: map<string, Demand>, b: map<string, Demand>, c: map<string, Demand>)
    requires OnlyEnds(a, b) && OnlyEnds(b, c)
    ensures OnlyEnds(a, c)
  {
  }

  lemma InvalidateOnlyEnds(t: Tables, gs: set<string>, state: AdmissionState)
    requires Inv(t)
    ensures OnlyEnds(t.demands, Invalidate(t, gs, state).demands)
  {
    hide InboxOk, DemandsOk, QueueOk, ReceiptKeysOk, HoldersOk, AttemptsOk, ClaimAuthorityOk, EpochsOk, AdmissionsOk,
      AssignmentsOk, FencesOk, OutboxOk, ResultsOk, LimitsOk, ClaimsOk, ReceiptsOk;
    var ids := GenerationClaims(t, gs, ReportedClaim);
    forall d | d in t.demands && d in DemandsOfClaims(t, ids) ensures t.demands[d].state == Reported {
      var c :| c in ids && c in t.claims && t.claims[c].demandId == d;
      ReportedClaimsDemand(t, c);
    }
  }

  lemma ExpireOnlyEnds(t: Tables, i: Instance, now: int)
    requires Inv(t)
    ensures OnlyEnds(t.demands, Expire(t, i, now).demands)
  {
    hide Inv, OnlyEnds, Invalidate;
    var fenced := Fence(t, ExpiredClaims(t, now), LeaseLost);
    FenceKeepsInv(t, ExpiredClaims(t, now), LeaseLost);
    InvalidateOnlyEnds(fenced, ForeignGenerations(fenced, i.capacityDigest), Replaced);
  }

  lemma OpenOnlyEnds(t: Tables, i: Instance, now: int)
    requires Inv(t)
    ensures OnlyEnds(t.demands, Open(t, i, now).tables.demands)
  {
    hide Inv, Expire, OnlyEnds;
    BeginEpochKeepsInv(t, i.epochId);
    ExpireOnlyEnds(BeginEpoch(t, i.epochId), i, now);
    Unchanged(t.demands);
  }

  lemma Unchanged(demands: map<string, Demand>)
    ensures OnlyEnds(demands, demands)
  {
  }

  lemma AdmitOnlyEnds(t: Tables, i: Instance, policy: Policy, now: int, uuid: string)
    requires Inv(t)
    ensures OnlyEnds(t.demands, Admit(t, i, policy, now, uuid).tables.demands)
  {
    hide Inv, Expire, Cleared, OnlyEnds, Reusable, ActiveGeneration;
    var swept := Expire(t, i, now);
    var existing := ActiveGeneration(swept, policy.projectId, policy.repositoryId);
    ExpireKeepsInv(t, i, now);
    ExpireOnlyEnds(t, i, now);
    ClearedOnlyEnds(swept, existing);
    OnlyEndsTwice(t.demands, swept.demands, Cleared(swept, existing).demands);
    Unchanged(t.demands);
  }

  lemma ClearedOnlyEnds(t: Tables, existing: Option<string>)
    requires Inv(t)
    ensures OnlyEnds(t.demands, Cleared(t, existing).demands)
  {
    hide Inv, OnlyEnds, Invalidate;
    Unchanged(t.demands);
    if existing.Some? { InvalidateOnlyEnds(t, {existing.value}, Replaced); }
  }

  lemma RevokeOnlyEnds(t: Tables, i: Instance, projectId: string, repositoryId: string, g: string, now: int)
    requires Inv(t)
    ensures OnlyEnds(t.demands, Revoke(t, i, projectId, repositoryId, g, now).tables.demands)
  {
    hide Inv, Expire, Invalidate, OnlyEnds;
    ExpireKeepsInv(t, i, now);
    ExpireOnlyEnds(t, i, now);
    Unchanged(t.demands);
    InvalidateOnlyEnds(Expire(t, i, now), {g}, Revoked);
    OnlyEndsTwice(t.demands, Expire(t, i, now).demands, Invalidate(Expire(t, i, now), {g}, Revoked).demands);
  }

  /** One demand moves along one edge. */
  ghost predicate OneMoves(a: map<string, Demand>, b: map<string, Demand>, s: Step) {
    forall d :: d in a ==> d in b && (b[d].state == a[d].state || Edge(s, a[d].state, b[d].state))
  }

  lemma TakeMoves(t: Tables, i: Instance, r: Request, capacity: CapacityPolicy, now: int, uuid: string)
    ensures OneMoves(t.demands, ReserveNew(t, i, r, capacity, now, uuid).tables.demands, ReserveStep(i, r, now, uuid))
  {
    forall d | IsOldest(t, i, now, d)
      ensures OneMoves(t.demands, TakeDemand(t, r, uuid, d).demands, ReserveStep(i, r, now, uuid))
    {
      Taken(t, i, r, now, uuid, d);
    }
    hide OneMoves, TakeDemand, IsOldest;
    NoneMoves(t.demands, ReserveStep(i, r, now, uuid));
  }

  lemma Taken(t: Tables, i: Instance, r: Request, now: int, uuid: string, d: string)
    requires d in t.demands && t.demands[d].state == Queued
    ensures OneMoves(t.demands, TakeDemand(t, r, uuid, d).demands, ReserveStep(i, r, now, uuid))
  {
  }

  lemma NoneMoves(demands: map<string, Demand>, s: Step)
    ensures OneMoves(demands, demands, s)
  {
  }

  lemma ReserveMoves(t: Tables, i: Instance, r: Request, now: int, uuid: string)
    ensures OneMoves(t.demands, Reserve(t, i, r, now, uuid).tables.demands, ReserveStep(i, r, now, uuid))
  {
    hide SlotBusy, ReceiptFor, Existing, ReserveNew, OneMoves;
    NoneMoves(t.demands, ReserveStep(i, r, now, uuid));
    if r.slot in i.capacities { TakeMoves(t, i, r, i.capacities[r.slot], now, uuid); }
  }

  lemma ClaimMoves(t: Tables, c: string, claim: Claim, s: Step)
    requires c in t.receipts && claim.demandId in t.demands && t.demands[claim.demandId].state == Preparing
    requires s.ActivateStep?
    ensures OneMoves(t.demands, PutClaim(t, c, claim).demands, s)
  {
  }

  lemma ActivateMoves(t: Tables, i: Instance, q: Request, r: Reservation, p: Proof, now: int)
    requires r.Prepared?
    ensures OneMoves(t.demands, Activate(t, i, q, r, p, now).tables.demands, ActivateStep(i, q, r, p, now))
  {
    hide DescriptorMatchesPolicy, AttemptUsed, LoadActive, AssignmentMatches, PutClaim, OneMoves;
    NoneMoves(t.demands, ActivateStep(i, q, r, p, now));
    if MayActivate(t, i, q, r, p, now) {
      ClaimMoves(t, r.claimId, NewClaim(i, q, r, p, t.receipts[r.claimId].demandId.value, now),
        ActivateStep(i, q, r, p, now));
    }
  }

  lemma ReleaseMoves(t: Tables, q: Request, c: string)
    requires Inv(t)
    ensures OneMoves(t.demands, ReleaseStale(t, q, c).demands, ReleaseStaleStep(q, c))
  {
    hide InboxOk, DemandsOk, QueueOk, ReceiptKeysOk, HoldersOk, ClaimsOk, AttemptsOk, ClaimAuthorityOk, EpochsOk,
      AdmissionsOk, AssignmentsOk, FencesOk, OutboxOk, ResultsOk, LimitsOk;
  }

  /** The demand of a claim is in the state its claim says. */
  lemma DemandOfClaim(t: Tables, c: string)
    requires ClaimsOk(t.receipts, t.claims, t.demands) && ReceiptsOk(t.receipts, t.demands) && c in t.claims
    ensures t.claims[c].demandId in t.demands
    ensures Coupled(ReceiptOf(t.claims[c].state), t.demands[t.claims[c].demandId].state)
  {
    hide ClaimsOk;
    RowOfClaim(t.receipts, t.claims, t.demands, c);
  }

  lemma PutResultMoves(t: Tables, hostId: string, q: ResultRequest, s: Step)
    requires s.ResultStep? && q.claimId in t.claims && t.claims[q.claimId].demandId in t.demands
    requires t.demands[t.claims[q.claimId].demandId].state == Claimed
    ensures OneMoves(t.demands, PutResult(t, hostId, q).demands, s)
  {
    hide MoveClaims, MoveReceipts;
    assert DemandsOfClaims(t, {q.claimId}) == {t.claims[q.claimId].demandId};
  }

  lemma ResultMoves(t: Tables, i: Instance, hostId: string, q: ResultRequest, now: int)
    ensures OneMoves(t.demands, AcceptResult(t, i, hostId, q, now).tables.demands, ResultStep(i, hostId, q, now))
  {
    hide ResultSeen, PutResult, OneMoves;
    NoneMoves(t.demands, ResultStep(i, hostId, q, now));
    if q.claimId in t.claims && CurrentClaim(t, i, q.claimId, q.payload, now) {
      PutResultMoves(t, hostId, q, ResultStep(i, hostId, q, now));
    }
  }

  lemma RecoveryMoves(t: Tables, i: Instance, q: HostRequest, resource: string, x: Revocation)
    requires Inv(t)
    ensures OneMoves(t.demands, CompleteRecovery(t, i, q, resource, x).tables.demands, CompleteRecoveryStep(i, q, resource, x))
  {
    hide InboxOk, DemandsOk, QueueOk, ReceiptKeysOk, HoldersOk, ClaimsOk, AttemptsOk, ClaimAuthorityOk, EpochsOk,
      AdmissionsOk, AssignmentsOk, FencesOk, OutboxOk, ResultsOk, LimitsOk, ReceiptsOk, RevocationMatches;
    if q.claimId in t.claims { DemandOfClaim(t, q.claimId); }
  }

  lemma ReportMoves(t: Tables, c: string, delivered: bool)
    requires Inv(t)
    ensures OneMoves(t.demands, CompleteReport(t, c, delivered).demands, CompleteReportStep(c, delivered))
  {
    hide InboxOk, DemandsOk, QueueOk, ReceiptKeysOk, HoldersOk, ClaimsOk, AttemptsOk, ClaimAuthorityOk, EpochsOk,
      AdmissionsOk, AssignmentsOk, FencesOk, OutboxOk, ResultsOk, LimitsOk, ReceiptsOk;
    if c in t.claims { DemandOfClaim(t, c); }
  }

  lemma ReplayMovesNothing(t: Tables, event: Event)
    ensures CheckReplay(t, event).tables.demands == t.demands
  {
  }

  lemma RenewMovesNothing(t: Tables, i: Instance, q: HostRequest, now: int)
    ensures Renew(t, i, q, now).tables.demands == t.demands
  {
    hide OwnsActiveEpoch, ExactClaim;
  }

  lemma FenceMovesNothing(t: Tables, ids: set<string>, reason: FenceReason)
    ensures Fence(t, ids, reason).demands == t.demands
  {
  }

  lemma AcknowledgeMovesNothing(t: Tables, c: string, requestId: string)
    requires c in t.claims
    ensures AcknowledgeCleanup(t, c, requestId).demands == t.demands
  {
  }

  lemma PrepareMovesNothing(t: Tables, i: Instance, q: HostRequest, resource: string)
    ensures PrepareRecovery(t, i, q, resource).tables.demands == t.demands
  {
    if q.claimId in t.claims {
      assert q.claimId in Fence(t, {q.claimId}, LeaseLost).claims;
      FenceMovesNothing(t, {q.claimId}, LeaseLost);
      AcknowledgeMovesNothing(t, q.claimId, q.requestId);
      AcknowledgeMovesNothing(Fence(t, {q.claimId}, LeaseLost), q.claimId, q.requestId);
    }
    hide OwnsActiveEpoch, AssignedTo, Fence, AcknowledgeCleanup;
  }

  lemma MarkMovesNothing(t: Tables, c: string, state: OutboxState)
    requires Undelivered(state)
    ensures MarkReport(t, c, state).demands == t.demands
  {
  }

  lemma AcceptMovesNothing(t: Tables, i: Instance, event: Event, now: int, uuid: string)
    ensures OneMoves(t.demands, Accept(t, i, event, now, uuid).tables.demands, AcceptStep(i, event, now, uuid))
  {
    ReplayKeepsDemands(t, event);
    hide AdmissionFor, InsertAccepted, OneMoves, NonterminalDemands, Replay;
    NoneMoves(t.demands, AcceptStep(i, event, now, uuid));
    forall g | uuid !in t.demands
      ensures OneMoves(t.demands, InsertAccepted(t, event, g, now, uuid).demands, AcceptStep(i, event, now, uuid))
    {
      NewDemand(t, event, g, now, uuid, AcceptStep(i, event, now, uuid));
    }
  }

  lemma ReplayKeepsDemands(t: Tables, event: Event)
    ensures Replay(t, event).tables.demands == t.demands
  {
  }

  lemma NewDemand(t: Tables, event: Event, g: string, now: int, d: string, s: Step)
    requires d !in t.demands
    ensures OneMoves(t.demands, InsertAccepted(t, event, g, now, d).demands, s)
  {
  }

  lemma EndsAreMoves(a: map<string, Demand>, b: map<string, Demand>, s: Step)
    requires OnlyEnds(a, b) && (s.OpenStep? || s.ExpireStep? || s.AdmitStep? || s.RevokeStep?)
    ensures OneMoves(a, b, s)
  {
  }

  lemma StepMovesDemands(w: World, s: Step)
    requires WorldOk(w)
    ensures OneMoves(w.tables.demands, NextTables(w, s).demands, s)
  {
    hide Inv, Genuine, Open, Expire, Admit, Revoke, CheckReplay, Accept, Reserve, Activate, ReleaseStale, Renew,
      PrepareRecovery,
      CompleteRecovery, AcceptResult, CompleteReport, MarkReport, OneMoves, OnlyEnds;
    var t := w.tables;
    NoneMoves(t.demands, s);
    match s
    case OpenStep(i, now) =>
      OpenOnlyEnds(t, i, now);
      EndsAreMoves(t.demands, NextTables(w, s).demands, s);
    case ExpireStep(i, now) =>
      ExpireOnlyEnds(t, i, now);
      EndsAreMoves(t.demands, NextTables(w, s).demands, s);
    case AdmitStep(i, policy, now, uuid) =>
      AdmitOnlyEnds(t, i, policy, now, uuid);
      EndsAreMoves(t.demands, NextTables(w, s).demands, s);
    case RevokeStep(i, p, r, g, now) =>
      RevokeOnlyEnds(t, i, p, r, g, now);
      EndsAreMoves(t.demands, NextTables(w, s).demands, s);
    case AcceptStep(i, event, now, uuid) => AcceptMovesNothing(t, i, event, now, uuid);
    case ReserveStep(i, r, now, uuid) => ReserveMoves(t, i, r, now, uuid);
    case ActivateStep(i, q, r, p, now) => if r in w.issued && r.Prepared? { ActivateMoves(t, i, q, r, p, now); }
    case ReleaseStaleStep(q, c) => ReleaseMoves(t, q, c);
    case CompleteRecoveryStep(i, q, resource, x) => RecoveryMoves(t, i, q, resource, x);
    case ResultStep(i, host, q, now) => ResultMoves(t, i, host, q, now);
    case CompleteReportStep(c, delivered) => ReportMoves(t, c, delivered);
    case CheckReplayStep(event) => ReplayMovesNothing(t, event);
    case RenewStep(i, q, now) => RenewMovesNothing(t, i, q, now);
    case PrepareRecoveryStep(i, q, resource) => PrepareMovesNothing(t, i, q, resource);
    case MarkReportStep(c, delivering) => MarkMovesNothing(t, c, if delivering then Delivering else Pending);
  }

  /** In every run each transaction moves a demand along at most the one edge that is the transaction's own. */
  lemma DemandEdges(steps: seq<Step>, s: Step, d: string)
    requires d in Reached(steps).demands
    ensures var t := NextTables(Run(START, steps), s);
      d in t.demands && (t.demands[d].state == Reached(steps).demands[d].state
      || Edge(s, Reached(steps).demands[d].state, t.demands[d].state))
  {
    hide Inv, Genuine, Run, NextTables, Edge;
    StartOk();
    RunOk(START, steps);
    StepMovesDemands(Run(START, steps), s);
  }
}
