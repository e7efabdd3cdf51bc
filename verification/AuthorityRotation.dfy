/** Invalidating generations one after another is the same as invalidating them all at once, in any order. */
module AuthorityRotation {
  import opened Wrappers
  import opened AuthorityTables
  import opened AuthoritySteps
  import opened AuthorityInvariant

  /** What invalidating the generations in `gs` does to one row. */
  function RotatedClaim(claim: Claim, gs: set<string>): Claim {
    if claim.generation !in gs then claim
    else if claim.state == ActiveClaim then claim.(state := RecoveringClaim)
    else if claim.state == ReportedClaim then claim.(state := ReleasedClaim)
    else claim
  }

  function RotatedDemand(demand: Demand, gs: set<string>): Demand {
    if demand.generation !in gs then demand
    else if demand.state == Queued then demand.(state := Superseded)
    else if demand.state == Reported then demand.(state := Failed)
    else demand
  }

  function RotateAdmissions(admissions: map<string, Admission>, gs: set<string>,
      state: AdmissionState): map<string, Admission> {
    map g | g in admissions :: if g in gs then admissions[g].(state := state) else admissions[g]
  }

  function RotateClaims(claims: map<string, Claim>, gs: set<string>): map<string, Claim> {
    map c | c in claims :: RotatedClaim(claims[c], gs)
  }

  function RotateReceipts(receipts: map<string, Receipt>, claims: map<string, Claim>,
      gs: set<string>): map<string, Receipt> {
    map c | c in receipts ::
      if c in claims then receipts[c].(state := ReceiptOf(RotatedClaim(claims[c], gs).state)) else receipts[c]
  }

  function RotateDemands(demands: map<string, Demand>, gs: set<string>): map<string, Demand> {
    map d | d in demands :: RotatedDemand(demands[d], gs)
  }

  function RotateInbox(inbox: map<string, InboxRow>, demands: map<string, Demand>,
      gs: set<string>): map<string, InboxRow> {
    map e | e in inbox ::
      if inbox[e].demandId.Some? && inbox[e].demandId.value in demands && demands[inbox[e].demandId.value].generation in gs
         && demands[inbox[e].demandId.value].state == Reported
      then inbox[e].(terminal := true) else inbox[e]
  }

  function RotateOutbox(outbox: map<string, OutboxState>, claims: map<string, Claim>,
      gs: set<string>): map<string, OutboxState> {
    map c | c in outbox ::
      if c in claims && claims[c].generation in gs && claims[c].state == ReportedClaim then Denied else outbox[c]
  }

  function RotateAssignments(assignments: map<ReviewJob, Assignment>, gs: set<string>): map<ReviewJob, Assignment> {
    map k | k in assignments && assignments[k].generation !in gs :: assignments[k]
  }

  function ActiveIn(claims: map<string, Claim>, gs: set<string>): set<string> {
    set c | c in claims && claims[c].state == ActiveClaim && claims[c].generation in gs
  }

  ghost function RotateFences(fences: map<Slot, CapacityFence>, claims: map<string, Claim>,
      gs: set<string>): map<Slot, CapacityFence> {
    NewFences(claims, ActiveIn(claims, gs), GenerationRotated) + fences
  }

  ghost function Rotate(t: Tables, gs: set<string>, state: AdmissionState): Tables {
    t.(admissions := RotateAdmissions(t.admissions, gs, state),
       claims := RotateClaims(t.claims, gs),
       receipts := RotateReceipts(t.receipts, t.claims, gs),
       demands := RotateDemands(t.demands, gs),
       inbox := RotateInbox(t.inbox, t.demands, gs),
       outbox := RotateOutbox(t.outbox, t.claims, gs),
       assignments := RotateAssignments(t.assignments, gs),
       fences := RotateFences(t.fences, t.claims, gs))
  }

  // ---- Invalidate is Rotate ----

  lemma ClaimsRotate(t: Tables, gs: set<string>)
    ensures var denied := MoveClaims(t.claims, GenerationClaims(t, gs, ReportedClaim), ReleasedClaim);
      && MoveClaims(denied, GenerationClaims(t.(claims := denied), gs, ActiveClaim), RecoveringClaim) == RotateClaims(t.claims, gs)
      && GenerationClaims(t.(claims := denied), gs, ActiveClaim) == ActiveIn(t.claims, gs)
  {
  }

  lemma ReceiptsRotate(t: Tables, gs: set<string>)
    requires ClaimsOk(t.receipts, t.claims, t.demands)
    ensures MoveReceipts(MoveReceipts(t.receipts, GenerationClaims(t, gs, ReportedClaim), ReleasedReceipt),
                         ActiveIn(t.claims, gs), RecoveringReceipt) == RotateReceipts(t.receipts, t.claims, gs)
  {
    forall c | c in t.claims ensures c in t.receipts && t.receipts[c].state == ReceiptOf(t.claims[c].state) {
      assert ClaimRow(t.claims[c], t.receipts[c], t.demands[t.claims[c].demandId]);
    }
  }

  /** A reported demand of a rotated generation is the demand of a reported claim of that generation, and conversely. */
  lemma ReportedDemands(t: Tables, gs: set<string>, d: string)
    requires ClaimsOk(t.receipts, t.claims, t.demands) && ReceiptsOk(t.receipts, t.demands)
    requires HoldersOk(t.receipts, t.demands)
    requires d in t.demands
    ensures d in DemandsOfClaims(t, GenerationClaims(t, gs, ReportedClaim)) <==>
            t.demands[d].generation in gs && t.demands[d].state == Reported
  {
    if t.demands[d].state == Reported { ReportedByClaim(t, d); }
    if c :| c in t.claims && t.claims[c].demandId == d && t.claims[c].state == ReportedClaim && t.claims[c].generation in gs {
      ReportedClaimsDemand(t, c);
    }
  }

  lemma ReportedByClaim(t: Tables, d: string)
    requires ClaimsOk(t.receipts, t.claims, t.demands) && ReceiptsOk(t.receipts, t.demands)
    requires HoldersOk(t.receipts, t.demands)
    requires d in t.demands && t.demands[d].state == Reported
    ensures exists c ::
      c in t.claims && t.claims[c].demandId == d && t.claims[c].state == ReportedClaim && t.claims[c].generation == t.demands[d].generation
  {
    assert Held(t.receipts, d);
    var c :| c in t.receipts && t.receipts[c].demandId == Some(d);
    assert c in t.claims;
    hide ClaimsOk;
    RowOfClaim(t.receipts, t.claims, t.demands, c);
  }

  lemma ReportedClaimsDemand(t: Tables, c: string)
    requires ClaimsOk(t.receipts, t.claims, t.demands) && ReceiptsOk(t.receipts, t.demands)
    requires c in t.claims && t.claims[c].state == ReportedClaim
    ensures t.claims[c].demandId in t.demands && t.demands[t.claims[c].demandId].state == Reported
    ensures t.demands[t.claims[c].demandId].generation == t.claims[c].generation
  {
    hide ClaimsOk;
    RowOfClaim(t.receipts, t.claims, t.demands, c);
  }

  lemma DemandsRotate(t: Tables, gs: set<string>, state: AdmissionState)
    requires ClaimsOk(t.receipts, t.claims, t.demands) && ReceiptsOk(t.receipts, t.demands)
    requires HoldersOk(t.receipts, t.demands)
    ensures Retire(t.(demands := MoveDemands(t.demands, DemandsOfClaims(t, GenerationClaims(t, gs, ReportedClaim)), Failed)), gs, state).demands
         == RotateDemands(t.demands, gs)
  {
    hide ClaimsOk, ReceiptsOk, HoldersOk, DemandsOfClaims;
    forall d | d in t.demands
      ensures d in DemandsOfClaims(t, GenerationClaims(t, gs, ReportedClaim)) <==>
              t.demands[d].generation in gs && t.demands[d].state == Reported
    { ReportedDemands(t, gs, d); }
  }

  lemma InboxRotate(t: Tables, gs: set<string>)
    requires ClaimsOk(t.receipts, t.claims, t.demands) && ReceiptsOk(t.receipts, t.demands)
    requires HoldersOk(t.receipts, t.demands)
    requires InboxOk(t.eventFences, t.inbox, t.demands) && DemandsOk(t.tupleFences, t.inbox, t.demands)
    ensures EndInbox(t.inbox, EventsOfClaims(t, GenerationClaims(t, gs, ReportedClaim))) == RotateInbox(t.inbox, t.demands, gs)
  {
    hide ReceiptsOk, HoldersOk, ClaimsOk, InboxOk, DemandsOk, EventsOfClaims;
    forall e | e in t.inbox
      ensures t.inbox[e].demandId.Some? && t.inbox[e].demandId.value in t.demands
      ensures var d := t.inbox[e].demandId.value;
        e in EventsOfClaims(t, GenerationClaims(t, gs, ReportedClaim)) <==> t.demands[d].generation in gs && t.demands[d].state == Reported
    {
      LinkedDemand(t, e);
      ReportedDemands(t, gs, t.inbox[e].demandId.value);
      EventOfDemand(t, GenerationClaims(t, gs, ReportedClaim), e);
    }
  }

  lemma LinkedDemand(t: Tables, e: string)
    requires InboxOk(t.eventFences, t.inbox, t.demands) && e in t.inbox
    ensures t.inbox[e].demandId.Some? && t.inbox[e].demandId.value in t.demands
  {
  }

  lemma EventOfDemand(t: Tables, ids: set<string>, e: string)
    requires ClaimsOk(t.receipts, t.claims, t.demands) && InboxOk(t.eventFences, t.inbox, t.demands)
    requires DemandsOk(t.tupleFences, t.inbox, t.demands) && e in t.inbox
    ensures e in EventsOfClaims(t, ids) <==> t.inbox[e].demandId.value in DemandsOfClaims(t, ids)
  {
    forall c | c in ids && c in t.claims
      ensures t.claims[c].eventId == e <==> t.claims[c].demandId == t.inbox[e].demandId.value
    {
      assert ClaimRow(t.claims[c], t.receipts[c], t.demands[t.claims[c].demandId]);
    }
  }

  lemma AssignmentsRotate(t: Tables, gs: set<string>)
    requires AssignmentsOk(t.claims, t.assignments)
    ensures Unassign(Unassign(t.assignments, GenerationClaims(t, gs, ReportedClaim)), ActiveIn(t.claims, gs))
         == RotateAssignments(t.assignments, gs)
  {
    forall k | k in t.assignments
      ensures t.assignments[k] == AssignmentOf(t.assignments[k].claimId, t.claims[t.assignments[k].claimId])
    {
      assert t.claims[t.assignments[k].claimId].job == k;
    }
  }

  lemma FencesRotate(t: Tables, gs: set<string>)
    requires FencesOk(t.claims, t.fences)
    ensures Unfence(t.fences, GenerationClaims(t, gs, ReportedClaim)) == t.fences
  {
  }

  /** New fence rows depend only on the capacities of the claims they are for. */
  lemma SameNewFences(t: Tables, claims: map<string, Claim>, ids: set<string>, reason: FenceReason)
    requires OneFenceEach(t.claims, ids, reason, t.fences, NewFences(t.claims, ids, reason))
    requires claims.Keys == t.claims.Keys && forall c :: c in ids ==> claims[c].slot == t.claims[c].slot
    ensures NewFences(claims, ids, reason) == NewFences(t.claims, ids, reason)
  {
  }

  lemma OutboxRotate(t: Tables, gs: set<string>)
    ensures EndOutbox(t.outbox, GenerationClaims(t, gs, ReportedClaim), Denied) == RotateOutbox(t.outbox, t.claims, gs)
  {
  }

  lemma InvalidateIsRotate(t: Tables, gs: set<string>, state: AdmissionState)
    requires Inv(t)
    ensures Invalidate(t, gs, state) == Rotate(t, gs, state)
  {
    hide InboxOk, DemandsOk, QueueOk, ReceiptsOk, ReceiptKeysOk, HoldersOk, ClaimsOk, AttemptsOk, ClaimAuthorityOk,
      EpochsOk, AdmissionsOk, AssignmentsOk, FencesOk, OutboxOk, ResultsOk, LimitsOk, MoveClaims, MoveReceipts,
      MoveDemands,
      EndInbox, EndOutbox, Unassign, Unfence, NewFences, OneFenceEach, RotateClaims, RotateReceipts, RotateDemands,
      RotateInbox,
      RotateOutbox, RotateAssignments, DemandsOfClaims, EventsOfClaims, ActiveIn;
    ClaimsRotate(t, gs);
    ReceiptsRotate(t, gs);
    DemandsRotate(t, gs, state);
    InboxRotate(t, gs);
    OutboxRotate(t, gs);
    AssignmentsRotate(t, gs);
    FencesRotate(t, gs);
    var denied := Finish(t, GenerationClaims(t, gs, ReportedClaim), false);
    assert GenerationClaims(denied, gs, ActiveClaim) == ActiveIn(t.claims, gs);
    ActiveSlots(t, gs);
  }

  /** Denying reports leaves the fence rows of active claims as they were. */
  lemma ActiveSlots(t: Tables, gs: set<string>)
    requires Inv(t)
    ensures NewFences(MoveClaims(t.claims, GenerationClaims(t, gs, ReportedClaim), ReleasedClaim), ActiveIn(t.claims, gs), GenerationRotated)
         == NewFences(t.claims, ActiveIn(t.claims, gs), GenerationRotated)
  {
    hide InboxOk, DemandsOk, QueueOk, ReceiptsOk, ReceiptKeysOk, HoldersOk, ClaimsOk, AttemptsOk, ClaimAuthorityOk,
      EpochsOk, AdmissionsOk, AssignmentsOk, FencesOk, OutboxOk, ResultsOk, LimitsOk, NewFences, OneFenceEach;
    FenceRows(t, ActiveIn(t.claims, gs), GenerationRotated);
    SameNewFences(t, MoveClaims(t.claims, GenerationClaims(t, gs, ReportedClaim), ReleasedClaim),
      ActiveIn(t.claims, gs), GenerationRotated);
  }

  // ---- rotations compose ----

  lemma RowsCompose(t: Tables, gs: set<string>, g: string)
    ensures RotateClaims(RotateClaims(t.claims, gs), {g}) == RotateClaims(t.claims, gs + {g})
    ensures RotateDemands(RotateDemands(t.demands, gs), {g}) == RotateDemands(t.demands, gs + {g})
    ensures RotateAssignments(RotateAssignments(t.assignments, gs), {g}) == RotateAssignments(t.assignments, gs + {g})
  {
  }

  lemma AdmissionsCompose(admissions: map<string, Admission>, gs: set<string>, g: string, state: AdmissionState)
    ensures RotateAdmissions(RotateAdmissions(admissions, gs, state), {g}, state) == RotateAdmissions(admissions, gs + {g}, state)
  {
  }

  lemma ReceiptsCompose(t: Tables, gs: set<string>, g: string)
    ensures RotateReceipts(RotateReceipts(t.receipts, t.claims, gs), RotateClaims(t.claims, gs), {g})
         == RotateReceipts(t.receipts, t.claims, gs + {g})
  {
    forall c | c in t.claims
      ensures RotatedClaim(RotatedClaim(t.claims[c], gs), {g}) == RotatedClaim(t.claims[c], gs + {g})
    {
    }
  }

  lemma InboxCompose(t: Tables, gs: set<string>, g: string)
    requires InboxOk(t.eventFences, t.inbox, t.demands)
    ensures RotateInbox(RotateInbox(t.inbox, t.demands, gs), RotateDemands(t.demands, gs), {g}) == RotateInbox(t.inbox, t.demands, gs + {g})
  {
    var a := RotateInbox(RotateInbox(t.inbox, t.demands, gs), RotateDemands(t.demands, gs), {g});
    var b := RotateInbox(t.inbox, t.demands, gs + {g});
    forall e | e in t.inbox ensures a[e] == b[e] {
      var d := t.demands[t.inbox[e].demandId.value];
      assert RotatedDemand(d, gs).generation == d.generation;
      assert RotatedDemand(d, gs).state == Reported <==> d.state == Reported && d.generation !in gs;
    }
  }

  lemma OutboxCompose(t: Tables, gs: set<string>, g: string)
    ensures RotateOutbox(RotateOutbox(t.outbox, t.claims, gs), RotateClaims(t.claims, gs), {g})
         == RotateOutbox(t.outbox, t.claims, gs + {g})
  {
  }

  lemma FencesCompose(t: Tables, gs: set<string>, g: string)
    requires ClaimsOk(t.receipts, t.claims, t.demands) && ReceiptKeysOk(t.receipts) && FencesOk(t.claims, t.fences)
    requires g !in gs
    ensures RotateFences(RotateFences(t.fences, t.claims, gs), RotateClaims(t.claims, gs), {g})
         == RotateFences(t.fences, t.claims, gs + {g})
  {
    hide ClaimsOk, ReceiptKeysOk, FencesOk, NewFences;
    var claims' := RotateClaims(t.claims, gs);
    assert ActiveIn(claims', {g}) == ActiveIn(t.claims, {g});
    assert ActiveIn(t.claims, gs + {g}) == ActiveIn(t.claims, gs) + ActiveIn(t.claims, {g});
    FenceRows(t, ActiveIn(t.claims, {g}), GenerationRotated);
    FenceRows(t, ActiveIn(t.claims, gs), GenerationRotated);
    FenceRows(t, ActiveIn(t.claims, gs + {g}), GenerationRotated);
    SameNewFences(t, claims', ActiveIn(t.claims, {g}), GenerationRotated);
    JoinRows(t, ActiveIn(t.claims, gs), ActiveIn(t.claims, {g}),
             NewFences(t.claims, ActiveIn(t.claims, gs), GenerationRotated),
             NewFences(t.claims, ActiveIn(t.claims, {g}), GenerationRotated),
             NewFences(t.claims, ActiveIn(t.claims, gs + {g}), GenerationRotated));
  }

  lemma JoinRows(t: Tables, a: set<string>, b: set<string>, fa: map<Slot, CapacityFence>, fb: map<Slot, CapacityFence>,
      fab: map<Slot, CapacityFence>)
    requires OneFenceEach(t.claims, a, GenerationRotated, t.fences, fa)
    requires OneFenceEach(t.claims, b, GenerationRotated, t.fences, fb)
    requires OneFenceEach(t.claims, a + b, GenerationRotated, t.fences, fab)
    ensures fb + (fa + t.fences) == fab + t.fences
  {
  }

  lemma RotateCompose(t: Tables, gs: set<string>, g: string, state: AdmissionState)
    requires Inv(t) && g !in gs
    ensures Rotate(Rotate(t, gs, state), {g}, state) == Rotate(t, gs + {g}, state)
  {
    hide InboxOk, DemandsOk, QueueOk, ReceiptsOk, ReceiptKeysOk, HoldersOk, ClaimsOk, AttemptsOk, ClaimAuthorityOk,
      EpochsOk, AdmissionsOk, AssignmentsOk, FencesOk, OutboxOk, ResultsOk, LimitsOk, RotateAdmissions, RotateClaims,
      RotateReceipts,
      RotateDemands, RotateInbox, RotateOutbox, RotateAssignments, RotateFences;
    RowsCompose(t, gs, g);
    AdmissionsCompose(t.admissions, gs, g, state);
    ReceiptsCompose(t, gs, g);
    InboxCompose(t, gs, g);
    OutboxCompose(t, gs, g);
    FencesCompose(t, gs, g);
  }

  /** One more generation: the loop over stale admissions does what the set does. */
  lemma InvalidateStep(t: Tables, gs: set<string>, g: string, state: AdmissionState)
    requires Inv(t) && g !in gs && state != Admitted
    ensures Invalidate(Invalidate(t, gs, state), {g}, state) == Invalidate(t, gs + {g}, state)
  {
    hide Inv, Invalidate, Rotate;
    InvalidateKeepsInv(t, gs, state);
    InvalidateIsRotate(t, gs, state);
    InvalidateIsRotate(t, gs + {g}, state);
    InvalidateIsRotate(Invalidate(t, gs, state), {g}, state);
    RotateCompose(t, gs, g, state);
  }

  lemma InvalidateNone(t: Tables, state: AdmissionState)
    requires Inv(t)
    ensures Invalidate(t, {}, state) == t
  {
    hide Inv, Rotate;
    InvalidateIsRotate(t, {}, state);
    RotateNone(t, state);
  }

  lemma RotateNone(t: Tables, state: AdmissionState)
    requires Inv(t)
    ensures Rotate(t, {}, state) == t
  {
    hide Inv, RotateAdmissions, RotateClaims, RotateReceipts, RotateDemands, RotateInbox, RotateOutbox,
      RotateAssignments;
    assert ActiveIn(t.claims, {}) == {};
    NoRowsRotate(t, state);
    SameReceiptStates(t);
  }

  lemma NoRowsRotate(t: Tables, state: AdmissionState)
    ensures RotateAdmissions(t.admissions, {}, state) == t.admissions && RotateClaims(t.claims, {}) == t.claims
    ensures RotateDemands(t.demands, {}) == t.demands && RotateInbox(t.inbox, t.demands, {}) == t.inbox
    ensures RotateOutbox(t.outbox, t.claims, {}) == t.outbox && RotateAssignments(t.assignments, {}) == t.assignments
  {
  }

  lemma SameReceiptStates(t: Tables)
    requires Inv(t)
    ensures RotateReceipts(t.receipts, t.claims, {}) == t.receipts
  {
    hide InboxOk, DemandsOk, QueueOk, ReceiptsOk, ReceiptKeysOk, HoldersOk, AttemptsOk, ClaimAuthorityOk,
      EpochsOk, AdmissionsOk, AssignmentsOk, FencesOk, OutboxOk, ResultsOk, LimitsOk;
    forall c | c in t.claims ensures c in t.receipts && t.receipts[c].state == ReceiptOf(t.claims[c].state) {
      assert ClaimRow(t.claims[c], t.receipts[c], t.demands[t.claims[c].demandId]);
    }
  }
}
