/** Every transaction of every instance keeps the coupling invariant of the authority tables. */
module AuthorityInvariant {
  import opened Wrappers
  import opened AuthorityTables
  import opened AuthoritySteps

  // ---- rows that only change state ----

  /** `now` differs from `before` in states only. */
  ghost predicate SameReceipts(before: map<string, Receipt>, now: map<string, Receipt>) {
    now.Keys == before.Keys && forall c :: c in before ==> now[c] == before[c].(state := now[c].state)
  }

  ghost predicate SameDemands(before: map<string, Demand>, now: map<string, Demand>) {
    now.Keys == before.Keys && forall d :: d in before ==> now[d] == before[d].(state := now[d].state)
  }

  ghost predicate SameInbox(before: map<string, InboxRow>, now: map<string, InboxRow>) {
    now.Keys == before.Keys && forall e :: e in before ==> now[e] == before[e].(terminal := now[e].terminal)
  }

  predicate InHand(s: DemandState) { s in {Preparing, Claimed, Reported} }

  lemma FewerNonterminal(before: map<string, Demand>, now: map<string, Demand>)
    requires forall d :: d in now && NonterminalDemand(now[d].state) ==> d in before && NonterminalDemand(before[d].state)
    ensures |NonterminalDemands(now)| <= |NonterminalDemands(before)|
  {
    var a, b := NonterminalDemands(now), NonterminalDemands(before);
    assert b == a + (b - a);
  }

  lemma KeepHolders(receipts: map<string, Receipt>, demands: map<string, Demand>,
                    receipts': map<string, Receipt>, demands': map<string, Demand>)
    requires HoldersOk(receipts, demands)
    requires forall c :: c in receipts ==> c in receipts' && receipts'[c].demandId == receipts[c].demandId
    requires forall d :: d in demands' && InHand(demands'[d].state) ==> Held(receipts', d) || (d in demands && InHand(demands[d].state))
    ensures HoldersOk(receipts', demands')
  {
    forall d | d in demands' && InHand(demands'[d].state) && !Held(receipts', d) ensures Held(receipts', d) {
      assert Held(receipts, d);
    }
  }

  lemma KeepReceiptKeys(receipts: map<string, Receipt>, now: map<string, Receipt>)
    requires ReceiptKeysOk(receipts) && SameReceipts(receipts, now)
    requires forall c :: c in now && NonterminalReceipt(now[c].state) ==> NonterminalReceipt(receipts[c].state)
    ensures ReceiptKeysOk(now)
  {
  }

  lemma KeepInbox(eventFences: map<string, Event>, inbox: map<string, InboxRow>, demands: map<string, Demand>,
                  inbox': map<string, InboxRow>, demands': map<string, Demand>)
    requires InboxOk(eventFences, inbox, demands) && SameInbox(inbox, inbox') && SameDemands(demands, demands')
    ensures InboxOk(eventFences, inbox', demands')
  {
  }

  lemma KeepDemands(tupleFences: map<ReviewJob, Event>, inbox: map<string, InboxRow>, demands: map<string, Demand>,
                    inbox': map<string, InboxRow>, demands': map<string, Demand>)
    requires DemandsOk(tupleFences, inbox, demands) && SameInbox(inbox, inbox') && SameDemands(demands, demands')
    ensures DemandsOk(tupleFences, inbox', demands')
  {
  }

  /** Intake, queue and limits are kept when one unfinished demand leaves the queue or moves on. */
  lemma OneDemandMoves(t: Tables, d: string, s: DemandState)
    requires InboxOk(t.eventFences, t.inbox, t.demands) && DemandsOk(t.tupleFences, t.inbox, t.demands)
    requires QueueOk(t.admissions, t.demands) && LimitsOk(t.eventFences, t.tupleFences, t.demands)
    requires d in t.demands && s != Queued && NonterminalDemand(t.demands[d].state)
    ensures var demands' := t.demands[d := t.demands[d].(state := s)];
      && InboxOk(t.eventFences, t.inbox, demands') && DemandsOk(t.tupleFences, t.inbox, demands')
      && QueueOk(t.admissions, demands') && LimitsOk(t.eventFences, t.tupleFences, demands')
  {
    hide InboxOk, DemandsOk;
    var demands' := t.demands[d := t.demands[d].(state := s)];
    KeepInbox(t.eventFences, t.inbox, t.demands, t.inbox, demands');
    KeepDemands(t.tupleFences, t.inbox, t.demands, t.inbox, demands');
    FewerNonterminal(t.demands, demands');
  }

  // ---- a set of claims moves to a new state together with its receipts and demands ----

  /**
   Each claim in `ids` is unfinished and its demand now suits a receipt in the state of `cs`; other
   demands are as before.
   */
  ghost predicate Movable(claims: map<string, Claim>, demands: map<string, Demand>, demands': map<string, Demand>,
                          ids: set<string>, cs: ClaimState) {
    && SameDemands(demands, demands')
    && (forall c :: c in ids ==> c in claims && claims[c].state != ReleasedClaim)
    && (forall c :: c in ids && claims[c].demandId in demands' ==> Coupled(ReceiptOf(cs), demands'[claims[c].demandId].state))
    && (forall d :: d in demands && demands'[d] != demands[d] ==> exists c :: c in ids && claims[c].demandId == d)
  }

  lemma MoveKeepsReceipts(receipts: map<string, Receipt>, claims: map<string, Claim>, demands: map<string, Demand>,
                          demands': map<string, Demand>, ids: set<string>, cs: ClaimState)
    requires ReceiptsOk(receipts, demands) && ReceiptKeysOk(receipts) && ClaimsOk(receipts, claims, demands)
    requires Movable(claims, demands, demands', ids, cs)
    ensures ReceiptsOk(MoveReceipts(receipts, ids, ReceiptOf(cs)), demands')
  {
    forall c | c in receipts && c !in ids && receipts[c].demandId.Some? && receipts[c].demandId.value in demands
      ensures demands'[receipts[c].demandId.value] == demands[receipts[c].demandId.value]
    {
      forall c' | c' in ids ensures claims[c'].demandId != receipts[c].demandId.value {
        assert ClaimRow(claims[c'], receipts[c'], demands[claims[c'].demandId]);
      }
    }
    forall c | c in ids ensures c in receipts && receipts[c].demandId == Some(claims[c].demandId) {
      assert ClaimRow(claims[c], receipts[c], demands[claims[c].demandId]);
    }
  }

  lemma MoveKeepsClaims(receipts: map<string, Receipt>, claims: map<string, Claim>, demands: map<string, Demand>,
                        demands': map<string, Demand>, ids: set<string>, cs: ClaimState)
    requires ClaimsOk(receipts, claims, demands) && SameDemands(demands, demands') && ids <= claims.Keys
    ensures ClaimsOk(MoveReceipts(receipts, ids, ReceiptOf(cs)), MoveClaims(claims, ids, cs), demands')
  {
  }

  lemma MoveKeepsAttempts(claims: map<string, Claim>, ids: set<string>, cs: ClaimState)
    requires AttemptsOk(claims)
    ensures AttemptsOk(MoveClaims(claims, ids, cs))
  {
  }

  lemma MoveKeepsAuthority(epochs: map<string, bool>, admissions: map<string, Admission>, claims: map<string, Claim>,
                           ids: set<string>, cs: ClaimState)
    requires ClaimAuthorityOk(epochs, admissions, claims) && cs != ActiveClaim
    requires cs == ReportedClaim ==> forall c :: c in ids && c in claims ==> Assigned(claims[c].state)
    ensures ClaimAuthorityOk(epochs, admissions, MoveClaims(claims, ids, cs))
  {
  }

  lemma MoveKeepsAssignments(claims: map<string, Claim>, assignments: map<ReviewJob, Assignment>, ids: set<string>,
      cs: ClaimState)
    requires AssignmentsOk(claims, assignments) && !Assigned(cs)
    ensures AssignmentsOk(MoveClaims(claims, ids, cs), Unassign(assignments, ids))
  {
  }

  lemma MoveKeepsReceiptKeys(receipts: map<string, Receipt>, claims: map<string, Claim>, demands: map<string, Demand>,
                             ids: set<string>, cs: ClaimState)
    requires ClaimsOk(receipts, claims, demands) && ReceiptKeysOk(receipts)
    requires forall c :: c in ids ==> c in claims && claims[c].state != ReleasedClaim
    ensures ReceiptKeysOk(MoveReceipts(receipts, ids, ReceiptOf(cs)))
  {
    forall c | c in ids ensures c in receipts && NonterminalReceipt(receipts[c].state) {
      assert ClaimRow(claims[c], receipts[c], demands[claims[c].demandId]);
    }
    KeepReceiptKeys(receipts, MoveReceipts(receipts, ids, ReceiptOf(cs)));
  }

  /** What a claim shares with its receipt and its demand. */
  lemma RowOfClaim(receipts: map<string, Receipt>, claims: map<string, Claim>, demands: map<string, Demand>, c: string)
    requires ClaimsOk(receipts, claims, demands) && c in claims
    ensures c in receipts && claims[c].demandId in demands
    ensures receipts[c].state == ReceiptOf(claims[c].state) && receipts[c].demandId == Some(claims[c].demandId)
    ensures receipts[c].slot == claims[c].slot && receipts[c].generation == Some(claims[c].generation)
    ensures demands[claims[c].demandId].event.Job() == claims[c].job
    ensures demands[claims[c].demandId].event.eventId == claims[c].eventId
  {
    assert ClaimRow(claims[c], receipts[c], demands[claims[c].demandId]);
  }

  /** A demand that a move changes was in hand before, and is not queued after. */
  lemma MoveDemandStates(receipts: map<string, Receipt>, claims: map<string, Claim>, demands: map<string, Demand>,
                         demands': map<string, Demand>, ids: set<string>, cs: ClaimState)
    requires ReceiptsOk(receipts, demands) && ClaimsOk(receipts, claims, demands)
    requires Movable(claims, demands, demands', ids, cs)
    ensures forall d :: d in demands && demands'[d] != demands[d] ==> InHand(demands[d].state) && demands'[d].state != Queued
  {
    hide ClaimsOk;
    forall d | d in demands && demands'[d] != demands[d]
      ensures InHand(demands[d].state) && demands'[d].state != Queued
    {
      var c :| c in ids && claims[c].demandId == d;
      RowOfClaim(receipts, claims, demands, c);
    }
  }

  lemma MoveKeepsDemands(admissions: map<string, Admission>, receipts: map<string, Receipt>, receipts': map<string, Receipt>,
                         demands: map<string, Demand>, demands': map<string, Demand>)
    requires SameDemands(demands, demands') && SameReceipts(receipts, receipts')
    requires forall d :: d in demands && demands'[d] != demands[d] ==> InHand(demands[d].state) && demands'[d].state != Queued
    requires HoldersOk(receipts, demands) && QueueOk(admissions, demands)
    ensures HoldersOk(receipts', demands') && QueueOk(admissions, demands')
    ensures |NonterminalDemands(demands')| <= |NonterminalDemands(demands)|
  {
    assert forall d :: d in demands ==> demands'[d] == demands[d] || (InHand(demands[d].state) && demands'[d].state != Queued);
    KeepHolders(receipts, demands, receipts', demands');
    FewerNonterminal(demands, demands');
  }

  /** The parts of the invariant that every such move keeps. */
  lemma MoveKeeps(t: Tables, t': Tables, ids: set<string>, cs: ClaimState)
    requires Inv(t) && Movable(t.claims, t.demands, t'.demands, ids, cs) && cs != ActiveClaim
    requires t'.claims == MoveClaims(t.claims, ids, cs) && t'.receipts == MoveReceipts(t.receipts, ids, ReceiptOf(cs))
    requires SameInbox(t.inbox, t'.inbox)
    requires cs == ReportedClaim ==> forall c :: c in ids ==> Assigned(t.claims[c].state)
    ensures InboxOk(t.eventFences, t'.inbox, t'.demands) && DemandsOk(t.tupleFences, t'.inbox, t'.demands)
    ensures ReceiptsOk(t'.receipts, t'.demands) && ReceiptKeysOk(t'.receipts) && HoldersOk(t'.receipts, t'.demands)
    ensures ClaimsOk(t'.receipts, t'.claims, t'.demands) && AttemptsOk(t'.claims)
    ensures ClaimAuthorityOk(t.epochs, t.admissions, t'.claims) && QueueOk(t.admissions, t'.demands)
    ensures LimitsOk(t.eventFences, t.tupleFences, t'.demands)
  {
    hide InboxOk, DemandsOk, QueueOk, ReceiptsOk, ReceiptKeysOk, HoldersOk, ClaimsOk, AttemptsOk, ClaimAuthorityOk;
    KeepInbox(t.eventFences, t.inbox, t.demands, t'.inbox, t'.demands);
    KeepDemands(t.tupleFences, t.inbox, t.demands, t'.inbox, t'.demands);
    MoveKeepsReceipts(t.receipts, t.claims, t.demands, t'.demands, ids, cs);
    MoveKeepsReceiptKeys(t.receipts, t.claims, t.demands, ids, cs);
    MoveDemandStates(t.receipts, t.claims, t.demands, t'.demands, ids, cs);
    MoveKeepsDemands(t.admissions, t.receipts, t'.receipts, t.demands, t'.demands);
    MoveKeepsClaims(t.receipts, t.claims, t.demands, t'.demands, ids, cs);
    MoveKeepsAttempts(t.claims, ids, cs);
    MoveKeepsAuthority(t.epochs, t.admissions, t.claims, ids, cs);
  }

  // ---- fencing ----

  /** An active claim sits on a capacity without a fence, alone. */
  lemma ActiveClaimUnfenced(t: Tables, c: string)
    requires ClaimsOk(t.receipts, t.claims, t.demands) && ReceiptKeysOk(t.receipts) && FencesOk(t.claims, t.fences)
    requires c in t.claims && t.claims[c].state == ActiveClaim
    ensures t.claims[c].slot !in t.fences
    ensures forall c' :: c' in t.claims && t.claims[c'].state == ActiveClaim && t.claims[c'].slot == t.claims[c].slot ==> c' == c
  {
    if t.claims[c].slot in t.fences {
      var f := t.fences[t.claims[c].slot].claimId;
      assert t.receipts[f].slot == t.receipts[c].slot;
      assert NonterminalReceipt(t.receipts[f].state) && NonterminalReceipt(t.receipts[c].state);
    }
    forall c' | c' in t.claims && t.claims[c'].state == ActiveClaim && t.claims[c'].slot == t.claims[c].slot
      ensures c' == c
    {
      assert t.receipts[c'].slot == t.receipts[c].slot;
      assert NonterminalReceipt(t.receipts[c'].state) && NonterminalReceipt(t.receipts[c].state);
    }
  }

  /** `added` holds one fence for each claim in `ids`, on its own capacity, where `fences` has none. */
  ghost predicate OneFenceEach(claims: map<string, Claim>, ids: set<string>, reason: FenceReason,
                               fences: map<Slot, CapacityFence>, added: map<Slot, CapacityFence>) {
    && ids <= claims.Keys
    && (forall c :: c in ids ==>
          claims[c].slot !in fences && claims[c].slot in added && added[claims[c].slot] == CapacityFence(c, reason))
    && (forall s :: s in added ==> added[s].claimId in ids && claims[added[s].claimId].slot == s)
  }

  /** `INSERT OR IGNORE` drops no row. */
  lemma FenceRows(t: Tables, ids: set<string>, reason: FenceReason)
    requires ClaimsOk(t.receipts, t.claims, t.demands) && ReceiptKeysOk(t.receipts) && FencesOk(t.claims, t.fences)
    requires ids <= ActiveClaims(t)
    ensures OneFenceEach(t.claims, ids, reason, t.fences, NewFences(t.claims, ids, reason))
  {
    hide ClaimsOk, ReceiptKeysOk, FencesOk;
    forall c | c in ids
      ensures var s := t.claims[c].slot;
        s !in t.fences && s in NewFences(t.claims, ids, reason) && NewFences(t.claims, ids, reason)[s] == CapacityFence(c, reason)
    {
      ActiveClaimUnfenced(t, c);
    }
  }

  lemma FencesJoin(claims: map<string, Claim>, ids: set<string>, reason: FenceReason, fences: map<Slot, CapacityFence>,
                   added: map<Slot, CapacityFence>)
    requires FencesOk(claims, fences) && OneFenceEach(claims, ids, reason, fences, added)
    ensures FencesOk(MoveClaims(claims, ids, RecoveringClaim), added + fences)
  {
  }

  lemma FenceKeepsOutbox(t: Tables, ids: set<string>)
    requires OutboxOk(t.claims, t.results, t.outbox) && ids <= ActiveClaims(t)
    ensures OutboxOk(MoveClaims(t.claims, ids, RecoveringClaim), t.results, t.outbox)
  {
  }

  lemma FenceMoves(t: Tables, ids: set<string>)
    requires ClaimsOk(t.receipts, t.claims, t.demands) && ReceiptsOk(t.receipts, t.demands) && ids <= ActiveClaims(t)
    ensures Movable(t.claims, t.demands, t.demands, ids, RecoveringClaim)
  {
    hide ClaimsOk;
    forall c | c in ids && t.claims[c].demandId in t.demands
      ensures Coupled(RecoveringReceipt, t.demands[t.claims[c].demandId].state)
    {
      RowOfClaim(t.receipts, t.claims, t.demands, c);
    }
  }

  lemma FenceKeepsInv(t: Tables, ids: set<string>, reason: FenceReason)
    requires Inv(t) && ids <= ActiveClaims(t)
    ensures Inv(Fence(t, ids, reason))
  {
    hide InboxOk, DemandsOk, QueueOk, ReceiptsOk, ReceiptKeysOk, HoldersOk, ClaimsOk, AttemptsOk, ClaimAuthorityOk,
      EpochsOk, AdmissionsOk, AssignmentsOk, FencesOk, OutboxOk, ResultsOk, LimitsOk;
    FenceMoves(t, ids);
    MoveKeeps(t, Fence(t, ids, reason), ids, RecoveringClaim);
    MoveKeepsAssignments(t.claims, t.assignments, ids, RecoveringClaim);
    FenceRows(t, ids, reason);
    FencesJoin(t.claims, ids, reason, t.fences, NewFences(t.claims, ids, reason));
    FenceKeepsOutbox(t, ids);
  }

  // ---- closing reports and recoveries ----

  lemma KeepFences(claims: map<string, Claim>, fences: map<Slot, CapacityFence>, ids: set<string>, cs: ClaimState)
    requires FencesOk(claims, fences) && cs != RecoveringClaim
    ensures FencesOk(MoveClaims(claims, ids, cs), Unfence(fences, ids))
  {
  }

  /** The demands of `ids` move to `ds`, which suits the receipts they move to. */
  lemma MovesDemands(t: Tables, ids: set<string>, cs: ClaimState, ds: DemandState)
    requires forall c :: c in ids ==> c in t.claims && t.claims[c].state != ReleasedClaim
    requires Coupled(ReceiptOf(cs), ds)
    ensures Movable(t.claims, t.demands, MoveDemands(t.demands, DemandsOfClaims(t, ids), ds), ids, cs)
  {
  }

  lemma FinishKeepsOutbox(t: Tables, ids: set<string>, delivered: bool)
    requires OutboxOk(t.claims, t.results, t.outbox)
    ensures var t' := Finish(t, ids, delivered); OutboxOk(t'.claims, t'.results, t'.outbox)
  {
  }

  lemma FinishKeepsInv(t: Tables, ids: set<string>, delivered: bool)
    requires Inv(t) && forall c :: c in ids ==> c in t.claims && t.claims[c].state == ReportedClaim
    ensures Inv(Finish(t, ids, delivered))
  {
    hide InboxOk, DemandsOk, QueueOk, ReceiptsOk, ReceiptKeysOk, HoldersOk, ClaimsOk, AttemptsOk, ClaimAuthorityOk,
      EpochsOk, AdmissionsOk, AssignmentsOk, FencesOk, OutboxOk, ResultsOk, LimitsOk;
    MovesDemands(t, ids, ReleasedClaim, if delivered then Completed else Failed);
    MoveKeeps(t, Finish(t, ids, delivered), ids, ReleasedClaim);
    MoveKeepsAssignments(t.claims, t.assignments, ids, ReleasedClaim);
    KeepFences(t.claims, t.fences, ids, ReleasedClaim);
    FinishKeepsOutbox(t, ids, delivered);
  }

  lemma CloseKeepsAssignments(claims: map<string, Claim>, assignments: map<ReviewJob, Assignment>, c: string)
    requires AssignmentsOk(claims, assignments) && c in claims && claims[c].state == RecoveringClaim
    ensures AssignmentsOk(MoveClaims(claims, {c}, ReleasedClaim), assignments)
  {
  }

  lemma CloseKeepsOutbox(t: Tables, c: string)
    requires OutboxOk(t.claims, t.results, t.outbox) && c in t.claims && t.claims[c].state == RecoveringClaim
    ensures OutboxOk(MoveClaims(t.claims, {c}, ReleasedClaim), t.results, t.outbox)
  {
  }

  lemma CloseRecoveryKeepsInv(t: Tables, c: string)
    requires Inv(t) && c in t.claims && t.claims[c].state == RecoveringClaim
    ensures Inv(CloseRecovery(t, c))
  {
    hide InboxOk, DemandsOk, QueueOk, ReceiptsOk, ReceiptKeysOk, HoldersOk, ClaimsOk, AttemptsOk, ClaimAuthorityOk,
      EpochsOk, AdmissionsOk, AssignmentsOk, FencesOk, OutboxOk, ResultsOk, LimitsOk;
    MovesDemands(t, {c}, ReleasedClaim, Superseded);
    MoveKeeps(t, CloseRecovery(t, c), {c}, ReleasedClaim);
    CloseKeepsAssignments(t.claims, t.assignments, c);
    KeepFences(t.claims, t.fences, {c}, ReleasedClaim);
    CloseKeepsOutbox(t, c);
  }

  lemma ReportKeepsAssignments(claims: map<string, Claim>, assignments: map<ReviewJob, Assignment>,
      fences: map<Slot, CapacityFence>, c: string)
    requires AssignmentsOk(claims, assignments) && FencesOk(claims, fences) && c in claims
    requires claims[c].state == ActiveClaim
    ensures AssignmentsOk(MoveClaims(claims, {c}, ReportedClaim), assignments)
    ensures FencesOk(MoveClaims(claims, {c}, ReportedClaim), fences)
  {
  }

  lemma ReportKeepsOutbox(t: Tables, c: string, result: HostResult)
    requires OutboxOk(t.claims, t.results, t.outbox) && ResultsOk(t.results) && c in t.claims
    requires t.claims[c].state == ActiveClaim
    requires forall c' :: c' in t.results ==> t.results[c'].hostId != result.hostId || t.results[c'].requestId != result.requestId
    ensures OutboxOk(MoveClaims(t.claims, {c}, ReportedClaim), t.results[c := result], t.outbox[c := Pending])
    ensures ResultsOk(t.results[c := result])
  {
  }

  lemma PutResultKeepsInv(t: Tables, hostId: string, q: ResultRequest)
    requires Inv(t) && q.claimId in t.claims && t.claims[q.claimId].state == ActiveClaim && !ResultSeen(t, hostId, q)
    ensures Inv(PutResult(t, hostId, q))
  {
    hide InboxOk, DemandsOk, QueueOk, ReceiptsOk, ReceiptKeysOk, HoldersOk, ClaimsOk, AttemptsOk, ClaimAuthorityOk,
      EpochsOk, AdmissionsOk, AssignmentsOk, FencesOk, OutboxOk, ResultsOk, LimitsOk;
    MovesDemands(t, {q.claimId}, ReportedClaim, Reported);
    MoveKeeps(t, PutResult(t, hostId, q), {q.claimId}, ReportedClaim);
    ReportKeepsAssignments(t.claims, t.assignments, t.fences, q.claimId);
    ReportKeepsOutbox(t, q.claimId, HostResult(hostId, q.requestId, q.payload));
  }

  // ---- admissions and epochs ----

  lemma RetireKeepsReceipts(t: Tables, generations: set<string>, state: AdmissionState)
    requires ReceiptsOk(t.receipts, t.demands) && HoldersOk(t.receipts, t.demands)
    ensures var t' := Retire(t, generations, state);
      ReceiptsOk(t'.receipts, t'.demands) && HoldersOk(t'.receipts, t'.demands)
  {
    var t' := Retire(t, generations, state);
    assert forall d :: d in t'.demands && InHand(t'.demands[d].state) ==> t'.demands[d] == t.demands[d];
  }

  lemma RetireKeepsClaims(t: Tables, generations: set<string>, state: AdmissionState)
    requires ClaimsOk(t.receipts, t.claims, t.demands)
    ensures var t' := Retire(t, generations, state); ClaimsOk(t'.receipts, t'.claims, t'.demands)
  {
  }

  lemma RetireKeepsAuthority(t: Tables, generations: set<string>, state: AdmissionState)
    requires ClaimAuthorityOk(t.epochs, t.admissions, t.claims)
    requires forall c :: c in t.claims && Assigned(t.claims[c].state) ==> t.claims[c].generation !in generations
    ensures var t' := Retire(t, generations, state); ClaimAuthorityOk(t'.epochs, t'.admissions, t'.claims)
  {
  }

  lemma RetireKeepsQueue(t: Tables, generations: set<string>, state: AdmissionState)
    requires AdmissionsOk(t.admissions) && QueueOk(t.admissions, t.demands) && state != Admitted
    ensures var t' := Retire(t, generations, state);
      && AdmissionsOk(t'.admissions) && QueueOk(t'.admissions, t'.demands)
      && |NonterminalDemands(t'.demands)| <= |NonterminalDemands(t.demands)|
  {
    FewerNonterminal(t.demands, Retire(t, generations, state).demands);
  }

  lemma RetireKeepsInv(t: Tables, generations: set<string>, state: AdmissionState)
    requires Inv(t) && state != Admitted
    requires forall c :: c in t.claims && Assigned(t.claims[c].state) ==> t.claims[c].generation !in generations
    ensures Inv(Retire(t, generations, state))
  {
    hide InboxOk, DemandsOk, QueueOk, ReceiptsOk, ReceiptKeysOk, HoldersOk, ClaimsOk, AttemptsOk, ClaimAuthorityOk,
      EpochsOk, AdmissionsOk, AssignmentsOk, FencesOk, OutboxOk, ResultsOk;
    var t' := Retire(t, generations, state);
    KeepInbox(t.eventFences, t.inbox, t.demands, t'.inbox, t'.demands);
    KeepDemands(t.tupleFences, t.inbox, t.demands, t'.inbox, t'.demands);
    RetireKeepsReceipts(t, generations, state);
    RetireKeepsClaims(t, generations, state);
    RetireKeepsAuthority(t, generations, state);
    RetireKeepsQueue(t, generations, state);
  }

  lemma InvalidateKeepsInv(t: Tables, generations: set<string>, state: AdmissionState)
    requires Inv(t) && state != Admitted
    ensures Inv(Invalidate(t, generations, state))
  {
    hide Inv;
    var denied := Finish(t, GenerationClaims(t, generations, ReportedClaim), false);
    FinishKeepsInv(t, GenerationClaims(t, generations, ReportedClaim), false);
    var ids := GenerationClaims(denied, generations, ActiveClaim);
    var fenced := Fence(denied, ids, GenerationRotated);
    FenceKeepsInv(denied, ids, GenerationRotated);
    RetireKeepsInv(fenced, generations, state);
  }

  lemma ExpireKeepsInv(t: Tables, i: Instance, now: int)
    requires Inv(t)
    ensures Inv(Expire(t, i, now))
  {
    hide Inv;
    var fenced := Fence(t, ExpiredClaims(t, now), LeaseLost);
    FenceKeepsInv(t, ExpiredClaims(t, now), LeaseLost);
    InvalidateKeepsInv(fenced, ForeignGenerations(fenced, i.capacityDigest), Replaced);
  }

  lemma EpochsSwitch(epochs: map<string, bool>, admissions: map<string, Admission>, claims: map<string, Claim>,
      epochId: string)
    requires ClaimAuthorityOk(epochs, admissions, claims) && forall c :: c in claims ==> claims[c].state != ActiveClaim
    ensures var epochs' := (map e | e in epochs :: false)[epochId := true];
      EpochsOk(epochs') && ClaimAuthorityOk(epochs', admissions, claims)
  {
  }

  lemma BeginEpochKeepsInv(t: Tables, epochId: string)
    requires Inv(t)
    ensures Inv(BeginEpoch(t, epochId))
  {
    hide InboxOk, DemandsOk, QueueOk, ReceiptsOk, ReceiptKeysOk, HoldersOk, ClaimsOk, AttemptsOk, ClaimAuthorityOk,
      EpochsOk, AdmissionsOk, AssignmentsOk, FencesOk, OutboxOk, ResultsOk, LimitsOk;
    FenceKeepsInv(t, ActiveClaims(t), ServiceRestart);
    EpochsSwitch(t.epochs, t.admissions, Fence(t, ActiveClaims(t), ServiceRestart).claims, epochId);
  }

  lemma OpenKeepsInv(t: Tables, i: Instance, now: int)
    requires Inv(t)
    ensures Inv(Open(t, i, now).tables)
  {
    hide Inv, Expire, BeginEpoch;
    BeginEpochKeepsInv(t, i.epochId);
    ExpireKeepsInv(BeginEpoch(t, i.epochId), i, now);
  }

  lemma PutAdmissionKeepsInv(t: Tables, g: string, a: Admission)
    requires Inv(t) && a.Active() && (g in t.admissions ==> t.admissions[g].Active())
    requires forall g' :: ActiveFor(t, g', a.policy.projectId, a.policy.repositoryId) ==> g' == g
    ensures Inv(PutAdmission(t, g, a))
  {
    hide InboxOk, DemandsOk, ReceiptsOk, ReceiptKeysOk, HoldersOk, ClaimsOk, AttemptsOk,
      EpochsOk, AssignmentsOk, FencesOk, OutboxOk, ResultsOk, LimitsOk;
    assert forall g' | g' in t.admissions && t.admissions[g'].Active() && t.admissions[g'].policy.projectId == a.policy.projectId
      && t.admissions[g'].policy.repositoryId == a.policy.repositoryId
      :: ActiveFor(t, g', a.policy.projectId, a.policy.repositoryId);
  }

  /** Only one admission is active for a repository. */
  lemma ActiveForUnique(t: Tables, g: string, g': string, projectId: string, repositoryId: string)
    requires AdmissionsOk(t.admissions) && ActiveFor(t, g, projectId, repositoryId)
    requires ActiveFor(t, g', projectId, repositoryId)
    ensures g == g'
  {
  }

  /** Clearing leaves no active admission for the repository. */
  lemma ClearedFrees(t: Tables, projectId: string, repositoryId: string)
    requires AdmissionsOk(t.admissions)
    ensures forall g :: !ActiveFor(Cleared(t, ActiveGeneration(t, projectId, repositoryId)), g, projectId, repositoryId)
  {
    var existing := ActiveGeneration(t, projectId, repositoryId);
    var t' := Cleared(t, existing);
    forall g ensures !ActiveFor(t', g, projectId, repositoryId) {
      if ActiveFor(t, g, projectId, repositoryId) {
        ActiveForUnique(t, g, existing.value, projectId, repositoryId);
      }
    }
  }

  lemma AdmitKeepsInv(t: Tables, i: Instance, policy: Policy, now: int, uuid: string)
    requires Inv(t)
    ensures Inv(Admit(t, i, policy, now, uuid).tables)
  {
    hide InboxOk, DemandsOk, QueueOk, ReceiptsOk, ReceiptKeysOk, HoldersOk, ClaimsOk, AttemptsOk, ClaimAuthorityOk,
      EpochsOk, AdmissionsOk, AssignmentsOk, FencesOk, OutboxOk, ResultsOk, LimitsOk, Expire, Invalidate, PutAdmission,
      Cleared;
    var swept := Expire(t, i, now);
    ExpireKeepsInv(t, i, now);
    var existing := ActiveGeneration(swept, policy.projectId, policy.repositoryId);
    if Reusable(swept, i, policy, existing) {
      var a := swept.admissions[existing.value].(expiresAt := now + i.admissionLease);
      forall g | ActiveFor(swept, g, policy.projectId, policy.repositoryId) ensures g == existing.value {
        ActiveForUnique(swept, g, existing.value, policy.projectId, policy.repositoryId);
      }
      PutAdmissionKeepsInv(swept, existing.value, a);
    } else {
      var cleared := Cleared(swept, existing);
      ClearedKeepsInv(swept, existing);
      ClearedFrees(swept, policy.projectId, policy.repositoryId);
      if uuid !in cleared.admissions {
        PutAdmissionKeepsInv(cleared, uuid,
          Admission(policy, i.serviceId, i.capacityDigest, now + i.admissionLease, Admitted));
      }
    }
  }

  lemma ClearedKeepsInv(t: Tables, existing: Option<string>)
    requires Inv(t)
    ensures Inv(Cleared(t, existing))
  {
    hide Inv;
    if existing.Some? { InvalidateKeepsInv(t, {existing.value}, Replaced); }
  }

  lemma RevokeKeepsInv(t: Tables, i: Instance, projectId: string, repositoryId: string, g: string, now: int)
    requires Inv(t)
    ensures Inv(Revoke(t, i, projectId, repositoryId, g, now).tables)
  {
    hide Inv, Expire, Invalidate;
    ExpireKeepsInv(t, i, now);
    InvalidateKeepsInv(Expire(t, i, now), {g}, Revoked);
  }

  // ---- event intake ----

  lemma AddEventFence(t: Tables, event: Event)
    requires Inv(t) && event.eventId !in t.eventFences && |t.eventFences| < REPLAY_FENCE_LIMIT
    ensures Inv(t.(eventFences := t.eventFences[event.eventId := event]))
  {
    hide DemandsOk, QueueOk, ReceiptsOk, ReceiptKeysOk, HoldersOk, ClaimsOk, AttemptsOk, ClaimAuthorityOk,
      EpochsOk, AdmissionsOk, AssignmentsOk, FencesOk, OutboxOk, ResultsOk;
  }

  lemma CheckReplayKeepsInv(t: Tables, event: Event)
    requires Inv(t)
    ensures Inv(CheckReplay(t, event).tables) && Inv(Replay(t, event).tables)
  {
    hide Inv;
    if event.eventId !in t.eventFences && |t.eventFences| < REPLAY_FENCE_LIMIT { AddEventFence(t, event); }
  }

  lemma NewDemandInbox(fences: map<string, Event>, inbox: map<string, InboxRow>, demands: map<string, Demand>,
      d: string, demand: Demand)
    requires InboxOk(fences, inbox, demands) && demand.event.eventId !in fences && d !in demands
    ensures InboxOk(fences[demand.event.eventId := demand.event],
                    inbox[demand.event.eventId := InboxRow(demand.event, Some(d), false)], demands[d := demand])
  {
  }

  lemma NewDemandTuple(fences: map<ReviewJob, Event>, inbox: map<string, InboxRow>, demands: map<string, Demand>,
      d: string, demand: Demand)
    requires DemandsOk(fences, inbox, demands) && demand.event.eventId !in inbox && demand.event.Job() !in fences
    requires d !in demands
    ensures DemandsOk(fences[demand.event.Job() := demand.event.Tuple()],
                      inbox[demand.event.eventId := InboxRow(demand.event, Some(d), false)], demands[d := demand])
  {
  }

  lemma NewDemandHolders(t: Tables, demand: Demand, d: string)
    requires ReceiptsOk(t.receipts, t.demands) && HoldersOk(t.receipts, t.demands)
    requires ClaimsOk(t.receipts, t.claims, t.demands)
    requires d !in t.demands && demand.state == Queued
    ensures ReceiptsOk(t.receipts, t.demands[d := demand]) && HoldersOk(t.receipts, t.demands[d := demand])
    ensures ClaimsOk(t.receipts, t.claims, t.demands[d := demand])
  {
  }

  lemma NewDemandCount(demands: map<string, Demand>, d: string, demand: Demand)
    requires d !in demands
    ensures |NonterminalDemands(demands[d := demand])| <= |NonterminalDemands(demands)| + 1
  {
    var a, b := NonterminalDemands(demands[d := demand]), NonterminalDemands(demands);
    assert b + {d} == a + (b + {d} - a);
  }

  lemma InsertAcceptedKeepsInv(t: Tables, event: Event, generation: string, now: int, d: string)
    requires Inv(t) && event.eventId !in t.eventFences && event.Job() !in t.tupleFences && d !in t.demands
    requires generation in t.admissions && t.admissions[generation].Active()
    requires |t.eventFences| < REPLAY_FENCE_LIMIT && |t.tupleFences| < REPLAY_FENCE_LIMIT
    requires |NonterminalDemands(t.demands)| < NONTERMINAL_DEMAND_LIMIT
    ensures Inv(InsertAccepted(t, event, generation, now, d))
  {
    hide DemandsOk, ReceiptsOk, ReceiptKeysOk, HoldersOk, ClaimsOk, AttemptsOk, ClaimAuthorityOk,
      EpochsOk, AdmissionsOk, AssignmentsOk, FencesOk, OutboxOk, ResultsOk, NonterminalDemands;
    var demand := Demand(event, generation, Queued, now);
    NewDemandInbox(t.eventFences, t.inbox, t.demands, d, demand);
    NewDemandTuple(t.tupleFences, t.inbox, t.demands, d, demand);
    NewDemandHolders(t, demand, d);
    NewDemandCount(t.demands, d, demand);
  }

  lemma AcceptKeepsInv(t: Tables, i: Instance, event: Event, now: int, uuid: string)
    requires Inv(t)
    ensures Inv(Accept(t, i, event, now, uuid).tables)
  {
    hide Inv, InsertAccepted, NonterminalDemands;
    CheckReplayKeepsInv(t, event);
    var admission := AdmissionFor(t, i, event);
    if Accept(t, i, event, now, uuid).reply == Accepted && Replay(t, event).reply == New {
      InsertAcceptedKeepsInv(t, event, admission.value, now, uuid);
    }
  }

  // ---- reservations ----

  /** A receipt for a new request on a capacity, with or without a demand nobody holds, clashes with no other. */
  lemma NewReceiptKeys(t: Tables, c: string, receipt: Receipt)
    requires ReceiptKeysOk(t.receipts) && c !in t.receipts
    requires forall c' :: !IsReceiptOf(t, Request(receipt.slot, receipt.requestId), c')
    requires receipt.demandId.Some? ==> !Held(t.receipts, receipt.demandId.value) && !SlotBusy(t, receipt.slot)
    requires receipt.demandId.None? ==> !NonterminalReceipt(receipt.state)
    ensures ReceiptKeysOk(t.receipts[c := receipt])
  {
    assert forall c' :: c' in t.receipts && t.receipts[c'].slot == receipt.slot && t.receipts[c'].requestId == receipt.requestId
                        ==> IsReceiptOf(t, Request(receipt.slot, receipt.requestId), c');
  }

  lemma NewReceiptClaims(t: Tables, c: string, receipt: Receipt)
    requires ClaimsOk(t.receipts, t.claims, t.demands) && c !in t.receipts
    requires receipt.state in {EmptyReceipt, PreparingReceipt}
    ensures ClaimsOk(t.receipts[c := receipt], t.claims, t.demands)
  {
  }

  lemma NewReceiptHolders(t: Tables, c: string, receipt: Receipt)
    requires HoldersOk(t.receipts, t.demands) && c !in t.receipts
    ensures HoldersOk(t.receipts[c := receipt], t.demands)
  {
    KeepHolders(t.receipts, t.demands, t.receipts[c := receipt], t.demands);
  }

  lemma TakeNothingKeepsInv(t: Tables, r: Request, c: string)
    requires Inv(t) && c !in t.receipts && (forall c' :: !IsReceiptOf(t, r, c'))
    ensures Inv(TakeNothing(t, r, c))
  {
    hide InboxOk, DemandsOk, QueueOk, ReceiptKeysOk, AttemptsOk, ClaimsOk, ClaimAuthorityOk, EpochsOk, AdmissionsOk,
      AssignmentsOk,
      FencesOk, OutboxOk, ResultsOk, LimitsOk, HoldersOk;
    var receipt := Receipt(r.slot, r.requestId, None, None, EmptyReceipt);
    assert forall c' :: !IsReceiptOf(t, Request(receipt.slot, receipt.requestId), c') by { assert r == Request(r.slot, r.requestId); }
    NewReceiptKeys(t, c, receipt);
    NewReceiptClaims(t, c, receipt);
    NewReceiptHolders(t, c, receipt);
  }

  lemma TakeDemandReceipts(t: Tables, r: Request, c: string, d: string)
    requires ReceiptsOk(t.receipts, t.demands) && d in t.demands && t.demands[d].state == Queued && c !in t.receipts
    ensures var t' := TakeDemand(t, r, c, d); ReceiptsOk(t'.receipts, t'.demands)
    ensures !Held(t.receipts, d)
  {
  }

  lemma TakeDemandKeys(t: Tables, r: Request, c: string, d: string)
    requires ReceiptKeysOk(t.receipts) && d in t.demands && !Held(t.receipts, d) && c !in t.receipts
    requires (forall c' :: !IsReceiptOf(t, r, c')) && !SlotBusy(t, r.slot)
    ensures ReceiptKeysOk(TakeDemand(t, r, c, d).receipts)
  {
    assert r == Request(r.slot, r.requestId);
    NewReceiptKeys(t, c, Receipt(r.slot, r.requestId, Some(d), Some(t.demands[d].generation), PreparingReceipt));
  }

  lemma TakeDemandHolders(t: Tables, r: Request, c: string, d: string)
    requires HoldersOk(t.receipts, t.demands) && d in t.demands && c !in t.receipts
    ensures var t' := TakeDemand(t, r, c, d); HoldersOk(t'.receipts, t'.demands)
  {
    var t' := TakeDemand(t, r, c, d);
    assert c in t'.receipts && t'.receipts[c].demandId == Some(d);
    KeepHolders(t.receipts, t.demands, t'.receipts, t'.demands);
  }

  lemma TakeDemandClaims(t: Tables, r: Request, c: string, d: string)
    requires ClaimsOk(t.receipts, t.claims, t.demands) && d in t.demands && c !in t.receipts
    ensures var t' := TakeDemand(t, r, c, d); ClaimsOk(t'.receipts, t'.claims, t'.demands)
  {
  }

  lemma TakeDemandKeepsInv(t: Tables, r: Request, c: string, d: string)
    requires Inv(t) && d in t.demands && t.demands[d].state == Queued && c !in t.receipts
    requires (forall c' :: !IsReceiptOf(t, r, c')) && !SlotBusy(t, r.slot)
    ensures Inv(TakeDemand(t, r, c, d))
  {
    hide InboxOk, DemandsOk, QueueOk, ReceiptsOk, ReceiptKeysOk, HoldersOk, ClaimsOk, AttemptsOk, ClaimAuthorityOk,
      EpochsOk, AdmissionsOk, AssignmentsOk, FencesOk, OutboxOk, ResultsOk, LimitsOk, Held, SlotBusy, IsReceiptOf;
    OneDemandMoves(t, d, Preparing);
    TakeDemandReceipts(t, r, c, d);
    TakeDemandKeys(t, r, c, d);
    TakeDemandHolders(t, r, c, d);
    TakeDemandClaims(t, r, c, d);
  }

  lemma ReserveKeepsInv(t: Tables, i: Instance, r: Request, now: int, uuid: string)
    requires Inv(t)
    ensures Inv(Reserve(t, i, r, now, uuid).tables)
  {
    hide Inv, TakeDemand, TakeNothing, Existing, SlotBusy;
    if r.slot in i.capacities && OwnsActiveEpoch(t, i) && ReceiptFor(t, r).None? && !SlotBusy(t, r.slot) && uuid !in t.receipts {
      if d :| IsOldest(t, i, now, d) {
        forall d | IsOldest(t, i, now, d) ensures Inv(TakeDemand(t, r, uuid, d)) { TakeDemandKeepsInv(t, r, uuid, d); }
      } else {
        TakeNothingKeepsInv(t, r, uuid);
      }
    }
  }

  lemma ReleaseStaleKeepsInv(t: Tables, q: Request, c: string)
    requires Inv(t)
    ensures Inv(ReleaseStale(t, q, c))
  {
    hide InboxOk, DemandsOk, QueueOk, ReceiptsOk, ReceiptKeysOk, HoldersOk, AttemptsOk, ClaimAuthorityOk, ClaimsOk,
      EpochsOk, AdmissionsOk, AssignmentsOk, FencesOk, OutboxOk, ResultsOk, LimitsOk;
    var t' := ReleaseStale(t, q, c);
    if t' != t {
      PreparingDemand(t, c);
      OneDemandMoves(t, t.receipts[c].demandId.value, Superseded);
      ReleaseStaleClaims(t.receipts, t.claims, t.demands, c);
      ReleaseStaleReceipts(t.receipts, t.demands, c);
      KeepReceiptKeys(t.receipts, t'.receipts);
      KeepHolders(t.receipts, t.demands, t'.receipts, t'.demands);
    }
  }

  lemma ReleaseStaleReceipts(receipts: map<string, Receipt>, demands: map<string, Demand>, c: string)
    requires ReceiptsOk(receipts, demands) && ReceiptKeysOk(receipts) && c in receipts
    requires receipts[c].state == PreparingReceipt
    ensures ReceiptsOk(receipts[c := receipts[c].(state := ReleasedReceipt)],
                       demands[receipts[c].demandId.value := demands[receipts[c].demandId.value].(state := Superseded)])
  {
  }

  lemma ReleaseStaleClaims(receipts: map<string, Receipt>, claims: map<string, Claim>, demands: map<string, Demand>,
      c: string)
    requires ClaimsOk(receipts, claims, demands) && c in receipts && receipts[c].state == PreparingReceipt
    requires receipts[c].demandId.Some? && receipts[c].demandId.value in demands
    ensures ClaimsOk(receipts[c := receipts[c].(state := ReleasedReceipt)], claims,
                     demands[receipts[c].demandId.value := demands[receipts[c].demandId.value].(state := Superseded)])
  {
  }

  // ---- activation ----

  /** The reservation still describes the receipt and the demand it was made for. */
  ghost predicate Genuine(t: Tables, r: Reservation) {
    && r.Prepared? && r.claimId in t.receipts && t.receipts[r.claimId].demandId.Some?
    && t.receipts[r.claimId].demandId.value in t.demands
    && t.demands[t.receipts[r.claimId].demandId.value].event == r.event
  }

  lemma PutClaimReceipts(receipts: map<string, Receipt>, demands: map<string, Demand>, c: string)
    requires ReceiptsOk(receipts, demands) && ReceiptKeysOk(receipts) && c in receipts
    requires receipts[c].state == PreparingReceipt
    ensures var d := receipts[c].demandId.value;
      ReceiptsOk(receipts[c := receipts[c].(state := ActiveReceipt)], demands[d := demands[d].(state := Claimed)])
  {
  }

  lemma PutClaimClaims(t: Tables, c: string, claim: Claim)
    requires ClaimsOk(t.receipts, t.claims, t.demands)
    requires c in t.receipts && t.receipts[c].state == PreparingReceipt && claim.demandId in t.demands
    requires ClaimRow(claim, t.receipts[c].(state := ActiveReceipt), t.demands[claim.demandId])
    ensures var t' := PutClaim(t, c, claim); ClaimsOk(t'.receipts, t'.claims, t'.demands)
  {
  }

  lemma PutClaimAttempts(t: Tables, c: string, claim: Claim)
    requires AttemptsOk(t.claims) && !AttemptUsed(t, claim.attemptId)
    ensures AttemptsOk(t.claims[c := claim])
  {
  }

  /** No assignment exists yet for the review job of a demand that is still being prepared. */
  lemma PreparingUnassigned(t: Tables, d: string)
    requires ClaimsOk(t.receipts, t.claims, t.demands) && ReceiptsOk(t.receipts, t.demands)
    requires AssignmentsOk(t.claims, t.assignments) && DemandsOk(t.tupleFences, t.inbox, t.demands)
    requires d in t.demands && t.demands[d].state == Preparing
    ensures t.demands[d].event.Job() !in t.assignments
  {
    hide ClaimsOk;
    forall k | k in t.assignments ensures k != t.demands[d].event.Job() {
      RowOfClaim(t.receipts, t.claims, t.demands, t.assignments[k].claimId);
    }
  }

  lemma PutClaimAssignments(claims: map<string, Claim>, assignments: map<ReviewJob, Assignment>, fences: map<Slot, CapacityFence>,
                            c: string, claim: Claim)
    requires AssignmentsOk(claims, assignments) && FencesOk(claims, fences)
    requires c !in claims && claim.job !in assignments && claim.state == ActiveClaim
    ensures AssignmentsOk(claims[c := claim], assignments[claim.job := AssignmentOf(c, claim)])
    ensures FencesOk(claims[c := claim], fences)
  {
  }

  lemma PutClaimOutbox(t: Tables, c: string, claim: Claim)
    requires OutboxOk(t.claims, t.results, t.outbox) && ClaimAuthorityOk(t.epochs, t.admissions, t.claims)
    requires c !in t.claims && claim.state == ActiveClaim
    requires claim.epochId in t.epochs && t.epochs[claim.epochId]
    requires claim.generation in t.admissions && t.admissions[claim.generation].Active()
    ensures OutboxOk(t.claims[c := claim], t.results, t.outbox)
    ensures ClaimAuthorityOk(t.epochs, t.admissions, t.claims[c := claim])
  {
  }

  lemma PutClaimKeepsInv(t: Tables, c: string, claim: Claim)
    requires Inv(t) && c in t.receipts && t.receipts[c].state == PreparingReceipt && claim.demandId in t.demands
    requires claim.state == ActiveClaim && !AttemptUsed(t, claim.attemptId)
    requires ClaimRow(claim, t.receipts[c].(state := ActiveReceipt), t.demands[claim.demandId])
    requires claim.epochId in t.epochs && t.epochs[claim.epochId]
    requires claim.generation in t.admissions && t.admissions[claim.generation].Active()
    ensures Inv(PutClaim(t, c, claim))
  {
    hide InboxOk, DemandsOk, QueueOk, ReceiptKeysOk, HoldersOk, ClaimsOk, AttemptsOk, ClaimAuthorityOk, ReceiptsOk,
      EpochsOk, AdmissionsOk, AssignmentsOk, FencesOk, OutboxOk, ResultsOk, LimitsOk, AttemptUsed;
    var t' := PutClaim(t, c, claim);
    PreparingDemand(t, c);
    OneDemandMoves(t, claim.demandId, Claimed);
    PutClaimReceipts(t.receipts, t.demands, c);
    KeepReceiptKeys(t.receipts, t'.receipts);
    KeepHolders(t.receipts, t.demands, t'.receipts, t'.demands);
    PutClaimClaims(t, c, claim);
    PutClaimAttempts(t, c, claim);
    PreparingUnassigned(t, claim.demandId);
    PutClaimAssignments(t.claims, t.assignments, t.fences, c, claim);
    PutClaimOutbox(t, c, claim);
  }

  /** A preparing receipt holds a preparing demand and has no claim yet. */
  lemma PreparingDemand(t: Tables, c: string)
    requires ReceiptsOk(t.receipts, t.demands) && ClaimsOk(t.receipts, t.claims, t.demands)
    requires c in t.receipts && t.receipts[c].state == PreparingReceipt
    ensures t.receipts[c].demandId.Some? && t.receipts[c].demandId.value in t.demands
    ensures t.demands[t.receipts[c].demandId.value].state == Preparing
    ensures t.receipts[c].generation == Some(t.demands[t.receipts[c].demandId.value].generation)
    ensures c !in t.claims
  {
  }

  lemma ActivateKeepsInv(t: Tables, i: Instance, q: Request, r: Reservation, p: Proof, now: int)
    requires Inv(t) && Genuine(t, r)
    ensures Inv(Activate(t, i, q, r, p, now).tables)
  {
    hide InboxOk, DemandsOk, QueueOk, ReceiptKeysOk, HoldersOk, ClaimsOk, AttemptsOk, ClaimAuthorityOk, ReceiptsOk,
      EpochsOk, AdmissionsOk, AssignmentsOk, FencesOk, OutboxOk, ResultsOk, LimitsOk, PutClaim;
    if OwnsActiveEpoch(t, i) && MayActivate(t, i, q, r, p, now) {
      var claim := NewClaim(i, q, r, p, t.receipts[r.claimId].demandId.value, now);
      if !AttemptUsed(t, p.attemptId) && claim.MatchesIssuance() {
        PutClaimKeepsInv(t, r.claimId, claim);
      }
    }
  }

  // ---- leases, recovery, reports ----

  lemma RestateClaimKeepsInv(t: Tables, c: string, leaseExpiresAt: int, renewalId: Option<string>,
      recoveryId: Option<string>)
    requires Inv(t) && c in t.claims
    ensures Inv(t.(claims := t.claims[c :=
      t.claims[c].(leaseExpiresAt := leaseExpiresAt, renewalId := renewalId, recoveryId := recoveryId)]))
  {
    hide InboxOk, DemandsOk, QueueOk, ReceiptKeysOk, HoldersOk, ReceiptsOk, EpochsOk, AdmissionsOk, ResultsOk, LimitsOk,
      AssignmentsOk, FencesOk, ClaimsOk, ClaimAuthorityOk, OutboxOk, AttemptsOk;
    var claim := t.claims[c].(leaseExpiresAt := leaseExpiresAt, renewalId := renewalId, recoveryId := recoveryId);
    RestateClaim(t, c, claim);
    RestateAuthority(t, c, claim);
    RestateOwned(t, c, claim);
    RestateOutbox(t, c, claim);
  }

  lemma RestateClaim(t: Tables, c: string, claim: Claim)
    requires ClaimsOk(t.receipts, t.claims, t.demands) && c in t.claims
    requires claim == t.claims[c].(leaseExpiresAt := claim.leaseExpiresAt, renewalId := claim.renewalId, recoveryId := claim.recoveryId)
    ensures ClaimsOk(t.receipts, t.claims[c := claim], t.demands)
  {
    assert ClaimRow(t.claims[c], t.receipts[c], t.demands[t.claims[c].demandId]);
    assert ClaimRow(claim, t.receipts[c], t.demands[claim.demandId]);
  }

  lemma RestateAuthority(t: Tables, c: string, claim: Claim)
    requires AttemptsOk(t.claims) && ClaimAuthorityOk(t.epochs, t.admissions, t.claims) && c in t.claims
    requires claim == t.claims[c].(leaseExpiresAt := claim.leaseExpiresAt, renewalId := claim.renewalId, recoveryId := claim.recoveryId)
    ensures AttemptsOk(t.claims[c := claim]) && ClaimAuthorityOk(t.epochs, t.admissions, t.claims[c := claim])
  {
  }

  lemma RestateOwned(t: Tables, c: string, claim: Claim)
    requires AssignmentsOk(t.claims, t.assignments) && FencesOk(t.claims, t.fences) && c in t.claims
    requires claim == t.claims[c].(leaseExpiresAt := claim.leaseExpiresAt, renewalId := claim.renewalId, recoveryId := claim.recoveryId)
    ensures AssignmentsOk(t.claims[c := claim], t.assignments) && FencesOk(t.claims[c := claim], t.fences)
  {
  }

  lemma RestateOutbox(t: Tables, c: string, claim: Claim)
    requires OutboxOk(t.claims, t.results, t.outbox) && c in t.claims && claim.state == t.claims[c].state
    ensures OutboxOk(t.claims[c := claim], t.results, t.outbox)
  {
  }

  lemma RenewKeepsInv(t: Tables, i: Instance, q: HostRequest, now: int)
    requires Inv(t)
    ensures Inv(Renew(t, i, q, now).tables)
  {
    hide Inv;
    if q.claimId in t.claims {
      RestateClaimKeepsInv(t, q.claimId, now + i.claimLease, Some(q.requestId), t.claims[q.claimId].recoveryId);
    }
  }

  lemma AcknowledgeKeepsInv(t: Tables, c: string, requestId: string)
    requires Inv(t) && c in t.claims
    ensures Inv(AcknowledgeCleanup(t, c, requestId))
  {
    hide Inv;
    RestateClaimKeepsInv(t, c, t.claims[c].leaseExpiresAt, t.claims[c].renewalId, Some(requestId));
  }

  lemma PrepareRecoveryKeepsInv(t: Tables, i: Instance, q: HostRequest, resourceId: string)
    requires Inv(t)
    ensures Inv(PrepareRecovery(t, i, q, resourceId).tables)
  {
    hide Inv, AcknowledgeCleanup;
    if q.claimId in t.claims {
      AcknowledgeKeepsInv(t, q.claimId, q.requestId);
      if t.claims[q.claimId].state == ActiveClaim {
        FenceKeepsInv(t, {q.claimId}, LeaseLost);
        AcknowledgeKeepsInv(Fence(t, {q.claimId}, LeaseLost), q.claimId, q.requestId);
      }
    }
  }

  lemma CompleteRecoveryKeepsInv(t: Tables, i: Instance, q: HostRequest, resourceId: string, revocation: Revocation)
    requires Inv(t)
    ensures Inv(CompleteRecovery(t, i, q, resourceId, revocation).tables)
  {
    hide Inv, CloseRecovery;
    if MayEndRecovery(t, q, resourceId, revocation) { CloseRecoveryKeepsInv(t, q.claimId); }
  }

  lemma AcceptResultKeepsInv(t: Tables, i: Instance, hostId: string, q: ResultRequest, now: int)
    requires Inv(t)
    ensures Inv(AcceptResult(t, i, hostId, q, now).tables)
  {
    hide Inv, PutResult, ResultSeen;
    if !ResultSeen(t, hostId, q) && q.claimId in t.claims && CurrentClaim(t, i, q.claimId, q.payload, now) {
      PutResultKeepsInv(t, hostId, q);
    }
  }

  lemma CompleteReportKeepsInv(t: Tables, c: string, delivered: bool)
    requires Inv(t)
    ensures Inv(CompleteReport(t, c, delivered))
  {
    hide Inv, Finish;
    if MayComplete(t, c) { FinishKeepsInv(t, {c}, delivered); }
  }

  lemma MarkReportKeepsInv(t: Tables, c: string, state: OutboxState)
    requires Inv(t) && Undelivered(state)
    ensures Inv(MarkReport(t, c, state))
  {
    hide InboxOk, DemandsOk, QueueOk, ReceiptKeysOk, HoldersOk, ReceiptsOk, EpochsOk, AdmissionsOk, ResultsOk, LimitsOk,
      AssignmentsOk, FencesOk, ClaimsOk, ClaimAuthorityOk, AttemptsOk;
  }
}
