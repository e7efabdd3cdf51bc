/** What the authority promises in every run: claims, fences, demands, replays, requests, stale instances. */
module AuthorityTheorems {
  import opened Wrappers
  import opened AuthorityTables
  import opened AuthoritySteps
  import opened AuthorityInvariant
  import opened AuthorityHistory
  import opened AuthorityOrder
  import opened AuthorityRuns

  // ---- claims and fences ----

  /** One active epoch, one assignment, an active admission, and a capacity of its own. */
  ghost predicate SoundlyActive(t: Tables, c: string, claim: Claim) {
    && (forall e :: e in t.epochs && t.epochs[e] <==> e == claim.epochId)
    && c in t.receipts && t.receipts[c].state == ActiveReceipt && t.receipts[c].slot == claim.slot
    && claim.demandId in t.demands && t.demands[claim.demandId].state == Claimed
    && claim.generation in t.admissions && t.admissions[claim.generation].Active()
    && (forall k :: k in t.assignments && t.assignments[k].claimId == c <==> k == claim.job)
    && t.assignments[claim.job] == AssignmentOf(c, claim)
    && claim.slot !in t.fences
    && (forall c' :: c' in t.receipts && t.receipts[c'].slot == claim.slot && NonterminalReceipt(t.receipts[c'].state) ==> c' == c)
  }

  /** Every active claim of every run is soundly active. */
  lemma ActiveClaimSafety(steps: seq<Step>, c: string)
    requires c in Reached(steps).claims && Reached(steps).claims[c].state == ActiveClaim
    ensures SoundlyActive(Reached(steps), c, Reached(steps).claims[c])
  {
    hide Reached, Inv, SoundlyActive;
    ReachedInv(steps);
    ActiveIsSound(Reached(steps), c);
  }

  lemma ActiveIsSound(t: Tables, c: string)
    requires Inv(t) && c in t.claims && t.claims[c].state == ActiveClaim
    ensures SoundlyActive(t, c, t.claims[c])
  {
    hide AdmissionsOk, InboxOk, DemandsOk, QueueOk, HoldersOk, AttemptsOk, OutboxOk, ResultsOk, LimitsOk, AssignmentsOk,
      FencesOk, ReceiptKeysOk;
    assert ClaimRow(t.claims[c], t.receipts[c], t.demands[t.claims[c].demandId]);
    ActiveClaimUnfenced(t, c);
    OwnAssignment(t.claims, t.assignments, c);
    OwnCapacity(t.receipts, c);
  }

  lemma OwnAssignment(claims: map<string, Claim>, assignments: map<ReviewJob, Assignment>, c: string)
    requires AssignmentsOk(claims, assignments) && c in claims && Assigned(claims[c].state)
    ensures forall k :: k in assignments && assignments[k].claimId == c <==> k == claims[c].job
    ensures assignments[claims[c].job] == AssignmentOf(c, claims[c])
  {
  }

  lemma OwnCapacity(receipts: map<string, Receipt>, c: string)
    requires ReceiptKeysOk(receipts) && c in receipts && NonterminalReceipt(receipts[c].state)
    ensures forall c' :: c' in receipts && receipts[c'].slot == receipts[c].slot && NonterminalReceipt(receipts[c'].state) ==> c' == c
  {
  }

  /** A fenced claim of any run: its own fence on its capacity, no assignment, and it never becomes active again. */
  lemma RecoveringClaimSafety(before: seq<Step>, after: seq<Step>, c: string)
    requires c in Reached(before).claims && Reached(before).claims[c].state == RecoveringClaim
    ensures var t := Reached(before);
      && t.claims[c].slot in t.fences && t.fences[t.claims[c].slot].claimId == c
      && forall k :: k in t.assignments ==> t.assignments[k].claimId != c
    ensures var t' := Run(Run(START, before), after).tables;
      c in t'.claims && t'.claims[c].state in {RecoveringClaim, ReleasedClaim}
  {
    hide InboxOk, DemandsOk, QueueOk, ReceiptsOk, ReceiptKeysOk, HoldersOk, ClaimsOk, AttemptsOk, ClaimAuthorityOk,
      EpochsOk, AdmissionsOk, OutboxOk, ResultsOk, LimitsOk, Run, Genuine, DemandsEvolve, ReceiptsEvolve;
    StartOk();
    RunOk(START, before);
    RunOk(Run(START, before), after);
  }

  /** An epoch that has ended never becomes active again. */
  lemma EndedEpochStaysEnded(before: seq<Step>, after: seq<Step>, e: string)
    requires e in Reached(before).epochs && !Reached(before).epochs[e]
    ensures var t := Run(Run(START, before), after).tables; e in t.epochs && !t.epochs[e]
  {
    hide Inv, Run, Genuine, DemandsEvolve, ReceiptsEvolve, ClaimsEvolve;
    StartOk();
    RunOk(START, before);
    RunOk(Run(START, before), after);
  }

  /** Opening a new epoch ends every older one. */
  lemma OpeningEndsOlderEpochs(t: Tables, i: Instance, now: int, e: string)
    requires e in t.epochs && i.epochId !in t.epochs
    ensures var t' := Open(t, i, now).tables; e in t'.epochs && !t'.epochs[e] && i.epochId in t'.epochs && t'.epochs[i.epochId]
  {
    ExpireKeepsEpochs(BeginEpoch(t, i.epochId), i, now);
  }

  lemma ExpireKeepsEpochs(t: Tables, i: Instance, now: int)
    ensures Expire(t, i, now).epochs == t.epochs
  {
  }

  /**
   Once another instance has opened the database, an older instance can never reserve, activate, renew
   or recover again.
   */
  lemma StaleInstanceIsPowerless(before: seq<Step>, newer: Instance, openedAt: int, after: seq<Step>, stale: Instance,
      now: int, uuid: string)
    requires stale.epochId in Reached(before).epochs && newer.epochId !in Reached(before).epochs
    ensures var t := Run(Next(Run(START, before), OpenStep(newer, openedAt)), after).tables;
      && (forall r :: Reserve(t, stale, r, now, uuid).tables == t
                      && Reserve(t, stale, r, now, uuid).reply in {ReserveConflict, ReserveFailed(StaleAuthority)})
      && (forall q, r: Reservation, p | r.Prepared? :: Activate(t, stale, q, r, p, now) == Txn(t, ActivateFailed(StaleAuthority)))
      && (forall q :: Renew(t, stale, q, now) == Txn(t, RenewFailed(StaleAuthority)))
      && (forall q, resource :: PrepareRecovery(t, stale, q, resource) == Txn(t, RecoveryFailed(StaleAuthority)))
      && (forall q, resource, x :: CompleteRecovery(t, stale, q, resource, x) == Txn(t, RecoveryEndFailed(StaleAuthority)))
  {
    var w := Run(START, before);
    var w' := Next(w, OpenStep(newer, openedAt));
    StaleEpoch(w, newer, openedAt, after, stale.epochId);
    var t := Run(w', after).tables;
    hide Run, Next, Reserve, Activate, Renew, PrepareRecovery, CompleteRecovery;
    forall r ensures Reserve(t, stale, r, now, uuid).tables == t
      && Reserve(t, stale, r, now, uuid).reply in {ReserveConflict, ReserveFailed(StaleAuthority)} { StaleReserve(t, stale, r, now, uuid); }
    forall q, r: Reservation, p | r.Prepared?
      ensures Activate(t, stale, q, r, p, now) == Txn(t, ActivateFailed(StaleAuthority))
    {
      StaleActivate(t, stale, q, r, p, now);
    }
    forall q ensures Renew(t, stale, q, now) == Txn(t, RenewFailed(StaleAuthority)) { StaleRenew(t, stale, q, now); }
    forall q, resource, x
      ensures CompleteRecovery(t, stale, q, resource, x) == Txn(t, RecoveryEndFailed(StaleAuthority))
    {
      StaleRecovery(t, stale, q, resource, x);
    }
    forall q, resource ensures PrepareRecovery(t, stale, q, resource) == Txn(t, RecoveryFailed(StaleAuthority)) {
      StalePreparation(t, stale, q, resource);
    }
  }

  lemma StaleReserve(t: Tables, i: Instance, r: Request, now: int, uuid: string)
    requires !OwnsActiveEpoch(t, i)
    ensures Reserve(t, i, r, now, uuid).tables == t
    ensures Reserve(t, i, r, now, uuid).reply in {ReserveConflict, ReserveFailed(StaleAuthority)}
  {
  }

  lemma StaleActivate(t: Tables, i: Instance, q: Request, r: Reservation, p: Proof, now: int)
    requires !OwnsActiveEpoch(t, i) && r.Prepared?
    ensures Activate(t, i, q, r, p, now) == Txn(t, ActivateFailed(StaleAuthority))
  {
  }

  lemma StaleRenew(t: Tables, i: Instance, q: HostRequest, now: int)
    requires !OwnsActiveEpoch(t, i)
    ensures Renew(t, i, q, now) == Txn(t, RenewFailed(StaleAuthority))
  {
  }

  lemma StalePreparation(t: Tables, i: Instance, q: HostRequest, resource: string)
    requires !OwnsActiveEpoch(t, i)
    ensures PrepareRecovery(t, i, q, resource) == Txn(t, RecoveryFailed(StaleAuthority))
  {
  }

  lemma StaleRecovery(t: Tables, i: Instance, q: HostRequest, resource: string, x: Revocation)
    requires !OwnsActiveEpoch(t, i)
    ensures CompleteRecovery(t, i, q, resource, x) == Txn(t, RecoveryEndFailed(StaleAuthority))
  {
  }

  lemma StaleEpoch(w: World, newer: Instance, openedAt: int, after: seq<Step>, e: string)
    requires (exists before :: w == Run(START, before)) && e in w.tables.epochs && newer.epochId !in w.tables.epochs
    ensures var t := Run(Next(w, OpenStep(newer, openedAt)), after).tables; e in t.epochs && !t.epochs[e]
  {
    hide Inv, Run, Genuine, DemandsEvolve, ReceiptsEvolve, ClaimsEvolve, Open;
    var before :| w == Run(START, before);
    StartOk();
    RunOk(START, before);
    NextOk(w, OpenStep(newer, openedAt));
    OpeningEndsOlderEpochs(w.tables, newer, openedAt, e);
    RunOk(Next(w, OpenStep(newer, openedAt)), after);
  }

  // ---- demands ----

  /** A demand keeps its event for ever and only moves forward; once it leaves the queue it is never queued again. */
  lemma DemandConservation(before: seq<Step>, after: seq<Step>, d: string)
    requires d in Reached(before).demands
    ensures var t, t' := Reached(before), Run(Run(START, before), after).tables;
      && d in t'.demands
      && t'.demands[d] == t.demands[d].(state := t'.demands[d].state)
      && DemandLeads(t.demands[d].state, t'.demands[d].state)
      && (t.demands[d].state != Queued ==> t'.demands[d].state != Queued)
  {
    hide Inv, Run, Genuine, ReceiptsEvolve, ClaimsEvolve, EpochsEvolve, AdmissionsEvolve;
    StartOk();
    RunOk(START, before);
    RunOk(Run(START, before), after);
  }

  /** A demand in hand is held by exactly one receipt; a queued one by none, and its admission is active. */
  lemma DemandHeldOnce(steps: seq<Step>, d: string)
    requires d in Reached(steps).demands
    ensures var t := Reached(steps);
      && (InHand(t.demands[d].state) ==> Held(t.receipts, d))
      && (forall c, c' | c in t.receipts && c' in t.receipts && t.receipts[c].demandId == t.receipts[c'].demandId == Some(d) :: c == c')
      && (t.demands[d].state == Queued ==> !Held(t.receipts, d))
      && (t.demands[d].state == Queued ==> t.demands[d].generation in t.admissions && t.admissions[t.demands[d].generation].Active())
  {
    hide Reached, Coupled;
    ReachedInv(steps);
    hide InboxOk, DemandsOk, ClaimsOk, AttemptsOk, ClaimAuthorityOk, EpochsOk, AdmissionsOk, AssignmentsOk, FencesOk,
      OutboxOk, ResultsOk, LimitsOk;
    QueuedUnheld(Reached(steps), d);
  }

  lemma QueuedUnheld(t: Tables, d: string)
    requires ReceiptsOk(t.receipts, t.demands) && d in t.demands
    ensures t.demands[d].state == Queued ==> !Held(t.receipts, d)
  {
  }

  /** Over a whole run a review job yields at most one demand and an event id keeps one event. */
  lemma OneDemandPerReviewJob(before: seq<Step>, after: seq<Step>, d: string, d': string)
    requires d in Reached(before).demands && d' in Run(Run(START, before), after).tables.demands
    requires Reached(before).demands[d].event.Job() == Run(Run(START, before), after).tables.demands[d'].event.Job()
    ensures d == d'
  {
    hide InboxOk, QueueOk, ReceiptsOk, ReceiptKeysOk, HoldersOk, ClaimsOk, AttemptsOk, ClaimAuthorityOk, AssignmentsOk,
      FencesOk,
      EpochsOk, AdmissionsOk, OutboxOk, ResultsOk, LimitsOk, Run, Genuine, ReceiptsEvolve, ClaimsEvolve, EpochsEvolve,
      AdmissionsEvolve;
    StartOk();
    RunOk(START, before);
    RunOk(Run(START, before), after);
  }

  lemma EventKeepsItsDigest(before: seq<Step>, after: seq<Step>, e: string)
    requires e in Reached(before).eventFences
    ensures var t' := Run(Run(START, before), after).tables; e in t'.eventFences && t'.eventFences[e] == Reached(before).eventFences[e]
  {
    hide Inv, Run, Genuine, DemandsEvolve, ReceiptsEvolve, ClaimsEvolve, EpochsEvolve, AdmissionsEvolve;
    StartOk();
    RunOk(START, before);
    RunOk(Run(START, before), after);
  }

  lemma LimitsHold(steps: seq<Step>)
    ensures var t := Reached(steps);
      && |t.eventFences| <= 100_000 && |t.tupleFences| <= 100_000
      && |set d | d in t.demands && t.demands[d].state in {Queued, Preparing, Claimed, Reported}| <= 10_000
  {
    hide Reached, InboxOk, DemandsOk, QueueOk, ReceiptsOk, ReceiptKeysOk, HoldersOk, ClaimsOk, AttemptsOk,
      ClaimAuthorityOk,
      EpochsOk, AdmissionsOk, AssignmentsOk, FencesOk, OutboxOk, ResultsOk;
    ReachedInv(steps);
    var t := Reached(steps);
    assert NonterminalDemands(t.demands)
        == set d | d in t.demands && t.demands[d].state in {Queued, Preparing, Claimed, Reported};
  }

  // ---- intake ----

  /** Whatever the replay check decides on its own, intake decides alike and leaves alike. */
  lemma ReplayCheckRefinesIntake(t: Tables, i: Instance, event: Event, now: int, uuid: string)
    ensures var fast, slow := CheckReplay(t, event), Accept(t, i, event, now, uuid);
      && (fast.reply == Accepted || fast.reply == Full ==> slow == fast)
      && (fast.reply == New ==> fast.tables == t
                                && (Replay(t, event).reply == New || slow == Txn(t, IntakeConflict)))
  {
  }

  // ---- reservations ----

  /** A new reservation takes the oldest eligible demand; it comes back empty only when there is none. */
  lemma ReserveTakesOldest(t: Tables, i: Instance, r: Request, now: int, uuid: string)
    requires ReceiptFor(t, r).None?
    ensures var x := Reserve(t, i, r, now, uuid);
      && (x.reply.Prepared? ==> exists d :: IsOldest(t, i, now, d) && x.tables == TakeDemand(t, r, uuid, d)
                                         && x.reply.event == t.inbox[t.demands[d].event.eventId].event)
      && (x.reply == NothingQueued ==> forall d :: !Eligible(t, i, now, d))
  {
    hide SlotBusy, TakeDemand;
    if d :| Eligible(t, i, now, d) { OldestExists(t, i, now, d); }
  }

  predicate Answered(r: Reservation) { r == NothingQueued || r.Prepared? || r.AlreadyActive? }

  /** Repeating a request, at any later time, changes nothing and names the same claim. */
  lemma RepeatedRequest(before: seq<Step>, i: Instance, r: Request, now: int, uuid: string,
                        after: seq<Step>, i': Instance, now': int, uuid': string)
    requires Answered(Reserve(Reached(before), i, r, now, uuid).reply)
    ensures var first := Reserve(Reached(before), i, r, now, uuid).reply;
            var t := Run(Next(Run(START, before), ReserveStep(i, r, now, uuid)), after).tables;
            var again := Reserve(t, i', r, now', uuid');
      && again.tables == t
      && (again.reply.Prepared? || again.reply.AlreadyActive? ==> first != NothingQueued && again.reply.claimId == first.claimId)
      && (first == NothingQueued ==> again.reply in {NothingQueued, ReserveConflict, ReserveFailed(StaleAuthority)})
  {
    hide Inv, Run, Reserve, Genuine, Existing;
    var w := Run(START, before);
    var w' := Next(w, ReserveStep(i, r, now, uuid));
    StartOk();
    RunOk(START, before);
    var c := ReserveLeavesReceipt(w.tables, i, r, now, uuid);
    NextOk(w, ReserveStep(i, r, now, uuid));
    RunOk(w', after);
    SameRequestSameClaim(Run(w', after).tables, i', r, now', uuid', c);
  }

  /** The receipt that answers the request from now on. */
  lemma ReserveLeavesReceipt(t: Tables, i: Instance, r: Request, now: int, uuid: string) returns (c: string)
    requires Inv(t) && Answered(Reserve(t, i, r, now, uuid).reply)
    ensures var x := Reserve(t, i, r, now, uuid);
      && IsReceiptOf(x.tables, r, c)
      && (x.reply != NothingQueued ==> x.reply.claimId == c)
      && (x.reply == NothingQueued ==> x.tables.receipts[c].state == EmptyReceipt)
  {
    hide Inv, SlotBusy, ReserveNew, LoadActive;
    if ReceiptFor(t, r).Some? {
      c := ReceiptFor(t, r).value;
    } else {
      c := uuid;
      NewReceipt(t, i, r, i.capacities[r.slot], now, uuid);
    }
  }

  lemma NewReceipt(t: Tables, i: Instance, r: Request, capacity: CapacityPolicy, now: int, uuid: string)
    requires Answered(ReserveNew(t, i, r, capacity, now, uuid).reply)
    ensures var x := ReserveNew(t, i, r, capacity, now, uuid);
      && IsReceiptOf(x.tables, r, uuid)
      && (if x.reply == NothingQueued then x.tables.receipts[uuid].state == EmptyReceipt else x.reply.Prepared? && x.reply.claimId == uuid)
  {
    hide TakeDemand;
    forall d | IsOldest(t, i, now, d)
      ensures IsReceiptOf(TakeDemand(t, r, uuid, d), r, uuid)
    {
      TakenReceipt(t, r, uuid, d);
    }
  }

  lemma TakenReceipt(t: Tables, r: Request, c: string, d: string)
    requires d in t.demands
    ensures IsReceiptOf(TakeDemand(t, r, c, d), r, c)
  {
  }

  lemma SameRequestSameClaim(t: Tables, i: Instance, r: Request, now: int, uuid: string, c: string)
    requires Inv(t) && IsReceiptOf(t, r, c)
    ensures var x := Reserve(t, i, r, now, uuid);
      && x.tables == t
      && (x.reply.Prepared? || x.reply.AlreadyActive? ==> x.reply.claimId == c && t.receipts[c].state != EmptyReceipt)
      && (t.receipts[c].state == EmptyReceipt ==> x.reply in {NothingQueued, ReserveConflict, ReserveFailed(StaleAuthority)})
  {
    hide InboxOk, DemandsOk, QueueOk, ReceiptsOk, HoldersOk, ClaimsOk, AttemptsOk, ClaimAuthorityOk, AssignmentsOk,
      FencesOk,
      EpochsOk, AdmissionsOk, OutboxOk, ResultsOk, LimitsOk, LoadActive, SlotBusy;
    assert ReceiptFor(t, r).Some?;
    assert ReceiptFor(t, r).value == c;
  }
}
