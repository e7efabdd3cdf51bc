/**
 What the sweeping and fencing transactions of the authority do to each row, in the columns' own terms:
 which claims end up fenced, which keep their work, and what becomes of admissions and demands.
 */
module AuthorityLaws {
  import opened Wrappers
  import opened AuthorityTables
  import opened AuthoritySteps
  import opened AuthorityInvariant
  import opened AuthorityRotation
  import opened AuthorityStore

  // ---- what can become of a claim ----

  /** The claim and its receipt are recovering, its capacity is fenced in its name, and it has no assignment. */
  ghost predicate Fenced(t: Tables, t': Tables, c: string, reason: FenceReason)
    requires c in t.claims && c in t.receipts
  {
    && c in t'.claims && t'.claims[c] == t.claims[c].(state := RecoveringClaim)
    && c in t'.receipts && t'.receipts[c] == t.receipts[c].(state := RecoveringReceipt)
    && t.claims[c].slot in t'.fences && t'.fences[t.claims[c].slot] == CapacityFence(c, reason)
    && Unassigned(t', c)
  }

  ghost predicate Unassigned(t: Tables, c: string) { forall k :: k in t.assignments ==> t.assignments[k].claimId != c }

  /** The claim's report is denied: claim and receipt are released, the demand has failed, it has no assignment. */
  ghost predicate Refused(t: Tables, t': Tables, c: string)
    requires c in t.claims && c in t.receipts
  {
    && c in t'.claims && t'.claims[c] == t.claims[c].(state := ReleasedClaim)
    && c in t'.receipts && t'.receipts[c] == t.receipts[c].(state := ReleasedReceipt)
    && t.claims[c].demandId in t'.demands && t'.demands[t.claims[c].demandId].state == Failed
    && c in t'.outbox && t'.outbox[c] == Denied
    && Unassigned(t', c)
  }

  /** Claim, receipt and assignment are as they were, and its capacity has no fence it had not. */
  ghost predicate Kept(t: Tables, t': Tables, c: string)
    requires c in t.claims && c in t.receipts
  {
    && c in t'.claims && t'.claims[c] == t.claims[c]
    && c in t'.receipts && t'.receipts[c] == t.receipts[c]
    && (forall k :: k in t.assignments && t.assignments[k].claimId == c ==>
          k in t'.assignments && t'.assignments[k] == t.assignments[k])
    && (Unassigned(t, c) ==> Unassigned(t', c))
    && (t.claims[c].slot in t.fences && t.fences[t.claims[c].slot].claimId == c ==>
          t.claims[c].slot in t'.fences && t'.fences[t.claims[c].slot] == t.fences[t.claims[c].slot])
    && (t.claims[c].state == ActiveClaim ==> t.claims[c].slot !in t'.fences)
  }

  lemma KeptThenFenced(a: Tables, b: Tables, c: Tables, id: string, reason: FenceReason)
    requires id in a.claims && id in a.receipts && Kept(a, b, id) && Fenced(b, c, id, reason)
    ensures Fenced(a, c, id, reason)
  {
  }

  lemma FencedThenKept(a: Tables, b: Tables, c: Tables, id: string, reason: FenceReason)
    requires id in a.claims && id in a.receipts && Fenced(a, b, id, reason) && Kept(b, c, id)
    ensures Fenced(a, c, id, reason)
  {
  }

  lemma KeptThenRefused(a: Tables, b: Tables, c: Tables, id: string)
    requires id in a.claims && id in a.receipts && Kept(a, b, id) && Refused(b, c, id)
    ensures Refused(a, c, id)
  {
  }

  lemma KeptThenKept(a: Tables, b: Tables, c: Tables, id: string)
    requires id in a.claims && id in a.receipts && Kept(a, b, id) && Kept(b, c, id)
    ensures Kept(a, c, id)
  {
  }

  lemma HasReceipt(t: Tables, c: string)
    requires Inv(t) && c in t.claims
    ensures c in t.receipts && t.receipts[c].slot == t.claims[c].slot && t.receipts[c].state == ReceiptOf(t.claims[c].state)
    ensures t.claims[c].demandId in t.demands
  {
    hide InboxOk, DemandsOk, QueueOk, ReceiptsOk, ReceiptKeysOk, HoldersOk, ClaimsOk, AttemptsOk, ClaimAuthorityOk,
      EpochsOk, AdmissionsOk, AssignmentsOk, FencesOk, OutboxOk, ResultsOk, LimitsOk;
    RowOfClaim(t.receipts, t.claims, t.demands, c);
  }

  // ---- fencing ----

  lemma InTheirRows(t: Tables, ids: set<string>, reason: FenceReason, added: map<Slot, CapacityFence>, c: string)
    requires OneFenceEach(t.claims, ids, reason, t.fences, added) && c in ids && c in t.receipts
    ensures Fenced(t, t.(claims := MoveClaims(t.claims, ids, RecoveringClaim),
      receipts := MoveReceipts(t.receipts, ids, RecoveringReceipt), assignments := Unassign(t.assignments, ids),
      fences := added + t.fences), c, reason)
  {
  }

  lemma OutsideTheirRows(t: Tables, ids: set<string>, added: map<Slot, CapacityFence>, c: string)
    requires c in t.claims && c in t.receipts && c !in ids
    requires t.claims[c].state == ActiveClaim ==> t.claims[c].slot !in added && t.claims[c].slot !in t.fences
    ensures Kept(t, t.(claims := MoveClaims(t.claims, ids, RecoveringClaim),
      receipts := MoveReceipts(t.receipts, ids, RecoveringReceipt), assignments := Unassign(t.assignments, ids),
      fences := added + t.fences), c)
  {
  }

  /** Fencing active claims fences each of them and leaves every other claim its work. */
  lemma FenceLaw(t: Tables, ids: set<string>, reason: FenceReason, c: string)
    requires Inv(t) && ids <= ActiveClaims(t) && c in t.claims && c in t.receipts
    ensures c in ids ==> Fenced(t, Fence(t, ids, reason), c, reason)
    ensures c !in ids ==> Kept(t, Fence(t, ids, reason), c)
  {
    hide Inv, NewFences, ClaimsOk, ReceiptKeysOk, FencesOk, OneFenceEach, Fenced, Kept, MoveClaims, MoveReceipts,
      Unassign, ActiveClaims;
    InvFencing(t);
    FenceRows(t, ids, reason);
    var added := NewFences(t.claims, ids, reason);
    if c in ids {
      InTheirRows(t, ids, reason, added, c);
    } else {
      if t.claims[c].state == ActiveClaim { OwnSlot(t, ids, reason, added, c); }
      OutsideTheirRows(t, ids, added, c);
    }
  }

  lemma OwnSlot(t: Tables, ids: set<string>, reason: FenceReason, added: map<Slot, CapacityFence>, c: string)
    requires ClaimsOk(t.receipts, t.claims, t.demands) && ReceiptKeysOk(t.receipts) && FencesOk(t.claims, t.fences)
    requires c in t.claims && t.claims[c].state == ActiveClaim && c !in ids && ids <= ActiveClaims(t)
    requires OneFenceEach(t.claims, ids, reason, t.fences, added)
    ensures t.claims[c].slot !in added && t.claims[c].slot !in t.fences
  {
    hide ClaimsOk, ReceiptKeysOk, FencesOk;
    ActiveClaimUnfenced(t, c);
    forall s | s in added ensures s != t.claims[c].slot { assert added[s].claimId in ActiveClaims(t); }
  }

  // ---- ending admissions ----

  /** Every assignment of the claim is of the claim's own generation. */
  ghost predicate OwnAssignments(t: Tables, c: string)
    requires c in t.claims
  {
    forall k :: k in t.assignments && t.assignments[k].claimId == c ==> t.assignments[k].generation == t.claims[c].generation
  }

  lemma RotatedFenced(t: Tables, gs: set<string>, state: AdmissionState, c: string)
    requires c in t.claims && c in t.receipts && OwnAssignments(t, c)
    requires t.claims[c].generation in gs && t.claims[c].state == ActiveClaim
    requires OneFenceEach(t.claims, ActiveIn(t.claims, gs), GenerationRotated, t.fences,
      NewFences(t.claims, ActiveIn(t.claims, gs), GenerationRotated))
    ensures Fenced(t, Rotate(t, gs, state), c, GenerationRotated)
  {
    hide NewFences, RotateDemands, RotateInbox, RotateOutbox, RotateAdmissions;
  }

  lemma RotatedRefused(t: Tables, gs: set<string>, state: AdmissionState, c: string)
    requires c in t.claims && c in t.receipts && OwnAssignments(t, c)
    requires t.claims[c].generation in gs && t.claims[c].state == ReportedClaim && c in t.outbox
    requires t.claims[c].demandId in t.demands && t.demands[t.claims[c].demandId].state == Reported
    requires t.demands[t.claims[c].demandId].generation == t.claims[c].generation
    ensures Refused(t, Rotate(t, gs, state), c)
  {
    hide RotateFences, RotateInbox, RotateAdmissions;
  }

  lemma RotatedKept(t: Tables, gs: set<string>, state: AdmissionState, c: string)
    requires c in t.claims && c in t.receipts && OwnAssignments(t, c)
    requires t.receipts[c].state == ReceiptOf(t.claims[c].state)
    requires t.claims[c].generation !in gs || (t.claims[c].state in {RecoveringClaim, ReleasedClaim} && Unassigned(t, c))
    requires t.claims[c].state == ActiveClaim ==>
      t.claims[c].slot !in t.fences && t.claims[c].slot !in NewFences(t.claims, ActiveIn(t.claims, gs), GenerationRotated)
    ensures Kept(t, Rotate(t, gs, state), c)
  {
    hide NewFences, RotateDemands, RotateInbox, RotateOutbox, RotateAdmissions;
  }

  /** Ending admissions: their active claims are fenced, their reports refused, every other claim keeps its work. */
  lemma RotationLaw(t: Tables, gs: set<string>, state: AdmissionState, c: string)
    requires Inv(t) && c in t.claims && c in t.receipts
    ensures var t' := Invalidate(t, gs, state); var claim := t.claims[c];
      && (claim.generation in gs && claim.state == ActiveClaim ==> Fenced(t, t', c, GenerationRotated))
      && (claim.generation in gs && claim.state == ReportedClaim ==> Refused(t, t', c))
      && (claim.generation !in gs || claim.state == RecoveringClaim || claim.state == ReleasedClaim ==> Kept(t, t', c))
  {
    hide Inv, NewFences, ClaimsOk, ReceiptKeysOk, FencesOk, Invalidate, Rotate, OneFenceEach, Fenced, Kept, Refused,
      OwnAssignments, Unassigned;
    InvalidateIsRotate(t, gs, state);
    InvFencing(t);
    HasReceipt(t, c);
    var ids := ActiveIn(t.claims, gs);
    FenceRows(t, ids, GenerationRotated);
    AssignmentsByGeneration(t, c);
    if t.claims[c].generation in gs && t.claims[c].state == ActiveClaim {
      RotatedFenced(t, gs, state, c);
    } else if t.claims[c].generation in gs && t.claims[c].state == ReportedClaim {
      ReportedRows(t, c);
      RotatedRefused(t, gs, state, c);
    } else {
      if t.claims[c].state == ActiveClaim { OwnSlot(t, ids, GenerationRotated, NewFences(t.claims, ids, GenerationRotated), c); }
      RotatedKept(t, gs, state, c);
    }
  }

  lemma AssignmentsByGeneration(t: Tables, c: string)
    requires Inv(t) && c in t.claims
    ensures OwnAssignments(t, c)
    ensures t.claims[c].state == RecoveringClaim || t.claims[c].state == ReleasedClaim ==> Unassigned(t, c)
  {
    hide InboxOk, DemandsOk, QueueOk, ReceiptsOk, ReceiptKeysOk, HoldersOk, ClaimsOk, AttemptsOk, ClaimAuthorityOk,
      EpochsOk, AdmissionsOk, FencesOk, OutboxOk, ResultsOk, LimitsOk;
  }

  lemma ReportedRows(t: Tables, c: string)
    requires Inv(t) && c in t.claims && t.claims[c].state == ReportedClaim
    ensures c in t.outbox && t.claims[c].demandId in t.demands && t.demands[t.claims[c].demandId].state == Reported
    ensures t.demands[t.claims[c].demandId].generation == t.claims[c].generation
  {
    hide InboxOk, DemandsOk, QueueOk, ReceiptKeysOk, HoldersOk, AttemptsOk, ClaimAuthorityOk,
      EpochsOk, AdmissionsOk, AssignmentsOk, FencesOk, ResultsOk, LimitsOk, ClaimsOk, ReceiptsOk;
    ReportedClaimsDemand(t, c);
  }

  /** A demand whose admission has ended: off the queue if it waited, failed if its report was undelivered. */
  function Ended(d: Demand): Demand {
    if d.state == Queued then d.(state := Superseded) else if d.state == Reported then d.(state := Failed) else d
  }

  /** And the admissions and demands themselves. */
  lemma EndedRows(t: Tables, gs: set<string>, state: AdmissionState)
    requires Inv(t)
    ensures var t' := Invalidate(t, gs, state);
      && t'.admissions.Keys == t.admissions.Keys && t'.demands.Keys == t.demands.Keys && t'.epochs == t.epochs
      && (forall g :: g in t.admissions ==>
            t'.admissions[g] == if g in gs then t.admissions[g].(state := state) else t.admissions[g])
      && (forall d :: d in t.demands ==>
            t'.demands[d] == if t.demands[d].generation in gs then Ended(t.demands[d]) else t.demands[d])
  {
    hide Inv, NewFences, Invalidate;
    InvalidateIsRotate(t, gs, state);
  }

  /** An inbox row ends exactly when its demand's undelivered report is refused. */
  ghost predicate InboxEnded(t: Tables, t': Tables, e: string, gs: set<string>)
    requires e in t.inbox
  {
    && e in t'.inbox && t.inbox[e].demandId.Some? && t.inbox[e].demandId.value in t.demands
    && var d := t.demands[t.inbox[e].demandId.value];
      t'.inbox[e] == if d.generation in gs && d.state == Reported then t.inbox[e].(terminal := true) else t.inbox[e]
  }

  lemma EndedInbox(t: Tables, gs: set<string>, state: AdmissionState, e: string)
    requires Inv(t) && e in t.inbox
    ensures InboxEnded(t, Invalidate(t, gs, state), e, gs)
  {
    hide Inv, NewFences, Invalidate;
    InvalidateIsRotate(t, gs, state);
    InboxNamesDemand(t, e);
  }

  lemma InboxNamesDemand(t: Tables, e: string)
    requires Inv(t) && e in t.inbox
    ensures t.inbox[e].demandId.Some? && t.inbox[e].demandId.value in t.demands
  {
    hide DemandsOk, QueueOk, ReceiptsOk, ReceiptKeysOk, HoldersOk, ClaimsOk, AttemptsOk, ClaimAuthorityOk,
      EpochsOk, AdmissionsOk, AssignmentsOk, FencesOk, OutboxOk, ResultsOk, LimitsOk;
  }

  // ---- the sweep ----

  /** The active admissions whose capacity digest is not the instance's. */
  ghost predicate Foreign(t: Tables, i: Instance, g: string) {
    g in t.admissions && t.admissions[g].state == Admitted && t.admissions[g].capacityDigest != i.capacityDigest
  }

  lemma ForeignIs(t: Tables, i: Instance, now: int, g: string)
    ensures g in ForeignGenerations(Fence(t, ExpiredClaims(t, now), LeaseLost), i.capacityDigest) <==> Foreign(t, i, g)
  {
    hide NewFences;
  }

  /** What a sweep at `now` that ends exactly the admissions `ending` selects does to a claim. */
  ghost predicate Outcome(t: Tables, t': Tables, now: int, ending: bool, c: string)
    requires c in t.claims && c in t.receipts
  {
    var claim := t.claims[c];
    && (claim.state == ActiveClaim && claim.leaseExpiresAt <= now ==> Fenced(t, t', c, LeaseLost))
    && (claim.state == ActiveClaim && claim.leaseExpiresAt > now && ending ==> Fenced(t, t', c, GenerationRotated))
    && (claim.state == ActiveClaim && claim.leaseExpiresAt > now && !ending ==> Kept(t, t', c))
    && (claim.state == ReportedClaim ==> if ending then Refused(t, t', c) else Kept(t, t', c))
    && (claim.state == RecoveringClaim || claim.state == ReleasedClaim ==> Kept(t, t', c))
  }

  /**
   The sweep, claim by claim: an active claim whose lease has run out is fenced as lease-lost; any other
   active claim of a foreign admission is fenced as rotated; a report under a foreign admission is
   refused; every other claim keeps its work.
   */
  lemma ExpireLaw(t: Tables, i: Instance, now: int, c: string)
    requires Inv(t) && c in t.claims && c in t.receipts
    ensures Outcome(t, Expire(t, i, now), now, Foreign(t, i, t.claims[c].generation), c)
  {
    hide Inv, Fence, Fenced, Kept, Refused, Invalidate, Foreign, ExpiredClaims, ForeignGenerations;
    var ids := ExpiredClaims(t, now);
    Expired(t, now, c);
    var fenced := Fence(t, ids, LeaseLost);
    var gs := ForeignGenerations(fenced, i.capacityDigest);
    FenceLaw(t, ids, LeaseLost, c);
    FenceKeepsInv(t, ids, LeaseLost);
    StillThere(t, ids, LeaseLost, c);
    RotationLaw(fenced, gs, Replaced, c);
    ForeignIs(t, i, now, t.claims[c].generation);
    var t' := Expire(t, i, now);
    if c in ids {
      FencedThenKept(t, fenced, t', c, LeaseLost);
    } else if t.claims[c].state == ActiveClaim && t.claims[c].generation in gs {
      KeptThenFenced(t, fenced, t', c, GenerationRotated);
    } else if t.claims[c].state == ReportedClaim && t.claims[c].generation in gs {
      KeptThenRefused(t, fenced, t', c);
    } else {
      KeptThenKept(t, fenced, t', c);
    }
  }

  lemma Expired(t: Tables, now: int, c: string)
    requires c in t.claims
    ensures ExpiredClaims(t, now) <= ActiveClaims(t)
    ensures c in ExpiredClaims(t, now) <==> t.claims[c].state == ActiveClaim && t.claims[c].leaseExpiresAt <= now
  {
  }

  lemma StillThere(t: Tables, ids: set<string>, reason: FenceReason, c: string)
    requires c in t.claims && c in t.receipts
    ensures var t' := Fence(t, ids, reason);
      && c in t'.claims && c in t'.receipts
      && t'.claims[c] == if c in ids then t.claims[c].(state := RecoveringClaim) else t.claims[c]
  {
    hide NewFences;
  }

  /** After a sweep no claim is active past its expiry, and none under a foreign admission. */
  lemma SweptClean(t: Tables, i: Instance, now: int, c: string)
    requires Inv(t) && c in Expire(t, i, now).claims && Expire(t, i, now).claims[c].state == ActiveClaim
    ensures c in t.claims && Expire(t, i, now).claims[c] == t.claims[c]
    ensures t.claims[c].leaseExpiresAt > now && !Foreign(t, i, t.claims[c].generation)
  {
    hide Inv, Expire, Foreign, Unassigned;
    SweepAddsNone(t, i, now, c);
    HasReceipt(t, c);
    ExpireLaw(t, i, now, c);
  }

  lemma SweepAddsNone(t: Tables, i: Instance, now: int, c: string)
    requires c in Expire(t, i, now).claims
    ensures c in t.claims
  {
    hide NewFences;
  }

  /** The sweep's admissions and demands: foreign admissions are replaced, and their demands end as above. */
  lemma SweptRows(t: Tables, i: Instance, now: int)
    requires Inv(t)
    ensures var t' := Expire(t, i, now);
      && t'.admissions.Keys == t.admissions.Keys && t'.demands.Keys == t.demands.Keys && t'.epochs == t.epochs
      && (forall g :: g in t.admissions ==>
            t'.admissions[g] == if Foreign(t, i, g) then t.admissions[g].(state := Replaced) else t.admissions[g])
      && (forall d :: d in t.demands ==>
            t'.demands[d] == if Foreign(t, i, t.demands[d].generation) then Ended(t.demands[d]) else t.demands[d])
  {
    hide Inv, Invalidate, Foreign, NewFences;
    var fenced := Fence(t, ExpiredClaims(t, now), LeaseLost);
    FenceKeepsInv(t, ExpiredClaims(t, now), LeaseLost);
    EndedRows(fenced, ForeignGenerations(fenced, i.capacityDigest), Replaced);
    forall g ensures g in ForeignGenerations(fenced, i.capacityDigest) <==> Foreign(t, i, g) { ForeignIs(t, i, now, g); }
    hide Fence, ForeignGenerations;
  }

  /** Opening: every active claim is fenced for the restart, whatever its lease, and the new epoch alone is active. */
  lemma OpenLaw(t: Tables, i: Instance, now: int, c: string)
    requires Inv(t) && i.epochId !in t.epochs && c in t.claims && c in t.receipts
    ensures var t' := Open(t, i, now).tables; var claim := t.claims[c]; var foreign := Foreign(t, i, claim.generation);
      && Open(t, i, now).reply == None && (forall e :: e in t'.epochs && t'.epochs[e] <==> e == i.epochId)
      && (claim.state == ActiveClaim ==> Fenced(t, t', c, ServiceRestart))
      && (claim.state == ReportedClaim ==> if foreign then Refused(t, t', c) else Kept(t, t', c))
      && (claim.state == RecoveringClaim || claim.state == ReleasedClaim ==> Kept(t, t', c))
  {
    hide Inv, Fence, Fenced, Kept, Refused, Expire;
    var begun := BeginEpoch(t, i.epochId);
    FenceLaw(t, ActiveClaims(t), ServiceRestart, c);
    BeginEpochKeepsInv(t, i.epochId);
    StillThere(t, ActiveClaims(t), ServiceRestart, c);
    EpochsApart(t, Fence(t, ActiveClaims(t), ServiceRestart), begun, c);
    SameForeign(t, i, begun, t.claims[c].generation);
    ExpireLaw(begun, i, now, c);
    SweptRows(begun, i, now);
    hide Foreign;
    var t' := Expire(begun, i, now);
    if t.claims[c].state == ActiveClaim {
      FencedThenKept(t, begun, t', c, ServiceRestart);
    } else if t.claims[c].state == ReportedClaim && Foreign(t, i, t.claims[c].generation) {
      KeptThenRefused(t, begun, t', c);
    } else {
      KeptThenKept(t, begun, t', c);
    }
  }

  /** Which epoch is active is no part of what happens to a claim. */
  lemma EpochsApart(t: Tables, a: Tables, b: Tables, c: string)
    requires c in t.claims && c in t.receipts && b == a.(epochs := b.epochs)
    ensures forall reason :: Fenced(t, a, c, reason) <==> Fenced(t, b, c, reason)
    ensures Kept(t, a, c) <==> Kept(t, b, c)
  {
  }

  lemma SameForeign(t: Tables, i: Instance, begun: Tables, g: string)
    requires begun == BeginEpoch(t, i.epochId)
    ensures Foreign(begun, i, g) <==> Foreign(t, i, g)
  {
    hide NewFences;
  }

  // ---- admitting and revoking ----

  lemma RefusedThenKept(a: Tables, b: Tables, c: Tables, id: string)
    requires id in a.claims && id in a.receipts && Refused(a, b, id) && Kept(b, c, id)
    requires a.claims[id].demandId in c.demands && c.demands[a.claims[id].demandId].state == Failed
    requires id in c.outbox && c.outbox[id] == Denied
    ensures Refused(a, c, id)
  {
  }

  lemma AfterKept(a: Tables, b: Tables, c: string)
    requires c in a.claims && c in a.receipts && Kept(a, b, c)
    ensures c in b.claims && b.claims[c] == a.claims[c] && c in b.receipts
  {
  }

  lemma AfterFenced(a: Tables, b: Tables, c: string, reason: FenceReason)
    requires c in a.claims && c in a.receipts && Fenced(a, b, c, reason)
    ensures c in b.claims && b.claims[c].state == RecoveringClaim && c in b.receipts
  {
  }

  lemma AfterRefused(a: Tables, b: Tables, c: string)
    requires c in a.claims && c in a.receipts && Refused(a, b, c)
    ensures c in b.claims && b.claims[c].state == ReleasedClaim && c in b.receipts
    ensures a.claims[c].demandId in b.demands && b.demands[a.claims[c].demandId].state == Failed
    ensures c in b.outbox && b.outbox[c] == Denied
  {
  }

  /** A failed demand stays failed and a denied report denied when more admissions end. */
  lemma RefusalStays(t: Tables, gs: set<string>, state: AdmissionState, d: string, c: string)
    requires Inv(t) && d in t.demands && t.demands[d].state == Failed && c in t.outbox && t.outbox[c] == Denied
    ensures var t' := Invalidate(t, gs, state);
      d in t'.demands && t'.demands[d].state == Failed && c in t'.outbox && t'.outbox[c] == Denied
  {
    hide Inv, Invalidate, NewFences;
    InvalidateIsRotate(t, gs, state);
  }

  lemma SweepThenEnd(t: Tables, i: Instance, now: int, gs: set<string>, state: AdmissionState, c: string)
    requires Inv(t) && c in t.claims && c in t.receipts
    ensures Outcome(t, Invalidate(Expire(t, i, now), gs, state), now,
      Foreign(t, i, t.claims[c].generation) || t.claims[c].generation in gs, c)
  {
    hide Inv, Expire, Fenced, Kept, Refused, Foreign, Invalidate;
    var swept := Expire(t, i, now);
    var t' := Invalidate(swept, gs, state);
    ExpireKeepsInv(t, i, now);
    ExpireLaw(t, i, now, c);
    var claim, foreign := t.claims[c], Foreign(t, i, t.claims[c].generation);
    if claim.state == ActiveClaim && (claim.leaseExpiresAt <= now || foreign) {
      var reason := if claim.leaseExpiresAt <= now then LeaseLost else GenerationRotated;
      AfterFenced(t, swept, c, reason);
      RotationLaw(swept, gs, state, c);
      FencedThenKept(t, swept, t', c, reason);
    } else if claim.state == ReportedClaim && foreign {
      AfterRefused(t, swept, c);
      RotationLaw(swept, gs, state, c);
      RefusalStays(swept, gs, state, claim.demandId, c);
      RefusedThenKept(t, swept, t', c);
    } else {
      AfterKept(t, swept, c);
      RotationLaw(swept, gs, state, c);
      if claim.state == ActiveClaim && claim.generation in gs {
        KeptThenFenced(t, swept, t', c, GenerationRotated);
      } else if claim.state == ReportedClaim && claim.generation in gs {
        KeptThenRefused(t, swept, t', c);
      } else {
        KeptThenKept(t, swept, t', c);
      }
    }
  }

  /** Admissions are no part of what happens to a claim. */
  lemma AdmissionsApart(t: Tables, a: Tables, b: Tables, now: int, ending: bool, c: string)
    requires c in t.claims && c in t.receipts && b == a.(admissions := b.admissions)
    ensures Outcome(t, a, now, ending, c) ==> Outcome(t, b, now, ending, c)
  {
    hide Fenced, Kept, Refused;
    ClaimTablesOnly(t, a, b, c);
  }

  lemma ClaimTablesOnly(t: Tables, a: Tables, b: Tables, c: string)
    requires c in t.claims && c in t.receipts && b == a.(admissions := b.admissions)
    ensures Kept(t, a, c) == Kept(t, b, c) && Refused(t, a, c) == Refused(t, b, c)
    ensures forall reason :: Fenced(t, a, c, reason) == Fenced(t, b, c, reason)
  {
  }

  /** The active admission of the repository. */
  ghost predicate Standing(t: Tables, projectId: string, repositoryId: string, g: string) {
    && g in t.admissions && t.admissions[g].state == Admitted
    && t.admissions[g].policy.projectId == projectId && t.admissions[g].policy.repositoryId == repositoryId
  }

  lemma StandingAfterSweep(t: Tables, i: Instance, now: int, projectId: string, repositoryId: string, g: string)
    requires Inv(t)
    ensures ActiveFor(Expire(t, i, now), g, projectId, repositoryId)
        <==> Standing(t, projectId, repositoryId, g) && t.admissions[g].capacityDigest == i.capacityDigest
  {
    hide Inv, Expire;
    SweptRows(t, i, now);
  }

  /**
   A revocation takes effect exactly when the repository's active admission is the one named and carries
   this instance's capacity digest: it ends that admission besides the foreign ones, with its claims.
   Otherwise nothing at all is written, not even the sweep.
   */
  lemma RevokeLaw(t: Tables, i: Instance, projectId: string, repositoryId: string, g: string, now: int)
    requires Inv(t)
    ensures var x := Revoke(t, i, projectId, repositoryId, g, now);
      && (x.reply <==> Standing(t, projectId, repositoryId, g) && t.admissions[g].capacityDigest == i.capacityDigest)
      && (!x.reply ==> x.tables == t)
      && (x.reply ==>
            && x.tables.admissions.Keys == t.admissions.Keys
            && (forall h :: h in t.admissions ==>
                  x.tables.admissions[h] == if h == g then t.admissions[h].(state := Revoked)
                    else if Foreign(t, i, h) then t.admissions[h].(state := Replaced) else t.admissions[h])
            && (forall c :: c in t.claims && c in t.receipts ==>
                  Outcome(t, x.tables, now, Foreign(t, i, t.claims[c].generation) || t.claims[c].generation == g, c)))
  {
    hide Inv, Expire, Invalidate, Outcome, Standing, ActiveFor;
    StandingAfterSweep(t, i, now, projectId, repositoryId, g);
    var x := Revoke(t, i, projectId, repositoryId, g, now);
    if x.reply {
      NamedStands(t, projectId, repositoryId, g);
      ExpireKeepsInv(t, i, now);
      SweptRows(t, i, now);
      EndedRows(Expire(t, i, now), {g}, Revoked);
      forall c | c in t.claims && c in t.receipts
        ensures Outcome(t, x.tables, now, Foreign(t, i, t.claims[c].generation) || t.claims[c].generation == g, c)
      {
        SweepThenEnd(t, i, now, {g}, Revoked, c);
      }
    }
  }

  lemma NamedStands(t: Tables, projectId: string, repositoryId: string, g: string)
    requires Standing(t, projectId, repositoryId, g)
    ensures g in t.admissions && t.admissions[g].state == Admitted
  {
  }

  /** An admission still good for the policy at this capacity digest. */
  ghost predicate Reuses(t: Tables, i: Instance, policy: Policy, g: string) {
    && g in t.admissions && t.admissions[g].state == Admitted && t.admissions[g].policy == policy
    && t.admissions[g].capacityDigest == i.capacityDigest
  }

  /** Admitting a policy that its admission already carries extends that admission and sweeps. */
  lemma AdmitAgain(t: Tables, i: Instance, policy: Policy, now: int, uuid: string, g: string)
    requires Inv(t) && Reuses(t, i, policy, g)
    ensures var x := Admit(t, i, policy, now, uuid);
      && x.reply == Success(g) && x.tables.admissions.Keys == t.admissions.Keys
      && (forall h :: h in t.admissions ==>
            x.tables.admissions[h] == if h == g then t.admissions[h].(expiresAt := now + i.admissionLease)
              else if Foreign(t, i, h) then t.admissions[h].(state := Replaced) else t.admissions[h])
      && (forall c :: c in t.claims && c in t.receipts ==> Outcome(t, x.tables, now, Foreign(t, i, t.claims[c].generation), c))
  {
    hide Inv, Expire, Outcome, Foreign, ActiveGeneration;
    var swept := Expire(t, i, now);
    SweptRows(t, i, now);
    SweptReuse(t, i, policy, now, g);
    var x := Admit(t, i, policy, now, uuid);
    forall c | c in t.claims && c in t.receipts ensures Outcome(t, x.tables, now, Foreign(t, i, t.claims[c].generation), c) {
      ExpireLaw(t, i, now, c);
      AdmissionsApart(t, swept, x.tables, now, Foreign(t, i, t.claims[c].generation), c);
    }
  }

  lemma SweptReuse(t: Tables, i: Instance, policy: Policy, now: int, g: string)
    requires Inv(t) && Reuses(t, i, policy, g)
    ensures var swept := Expire(t, i, now);
      && ActiveGeneration(swept, policy.projectId, policy.repositoryId) == Some(g)
      && g in swept.admissions && swept.admissions[g] == t.admissions[g] && !Foreign(t, i, g)
  {
    hide Inv, Expire, ActiveFor;
    StandingAfterSweep(t, i, now, policy.projectId, policy.repositoryId, g);
    SweptRows(t, i, now);
    ExpireKeepsInv(t, i, now);
    OneActive(Expire(t, i, now), policy.projectId, policy.repositoryId, g);
  }

  lemma OneActive(t: Tables, projectId: string, repositoryId: string, g: string)
    requires Inv(t) && ActiveFor(t, g, projectId, repositoryId)
    ensures ActiveGeneration(t, projectId, repositoryId) == Some(g)
  {
    var h := ActiveGeneration(t, projectId, repositoryId).value;
    hide InboxOk, DemandsOk, QueueOk, ReceiptsOk, ReceiptKeysOk, HoldersOk, ClaimsOk, AttemptsOk, ClaimAuthorityOk,
      EpochsOk, AssignmentsOk, FencesOk, OutboxOk, ResultsOk, LimitsOk;
    ActiveForUnique(t, g, h, projectId, repositoryId);
  }

  /** Admitting the policy anew ends the foreign admissions and the repository's own. */
  ghost predicate GivesWay(t: Tables, i: Instance, policy: Policy, g: string) {
    Foreign(t, i, g) || Standing(t, policy.projectId, policy.repositoryId, g)
  }

  /**
   Admitting a policy that no admission carries at this capacity digest: a used id changes nothing;
   otherwise a new admission of this service, and the repository's old one is replaced with its claims.
   */
  lemma AdmitAnew(t: Tables, i: Instance, policy: Policy, now: int, uuid: string)
    requires Inv(t) && forall g :: !Reuses(t, i, policy, g)
    ensures var x := Admit(t, i, policy, now, uuid);
      if uuid in t.admissions then x == Txn(t, Failure(ConstraintViolation))
      else
        && x.reply == Success(uuid) && x.tables.admissions.Keys == t.admissions.Keys + {uuid}
        && x.tables.admissions[uuid] == Admission(policy, i.serviceId, i.capacityDigest, now + i.admissionLease, Admitted)
        && (forall h :: h in t.admissions ==>
              x.tables.admissions[h] == if GivesWay(t, i, policy, h) then t.admissions[h].(state := Replaced) else t.admissions[h])
        && (forall c :: c in t.claims && c in t.receipts ==>
              Outcome(t, x.tables, now, GivesWay(t, i, policy, t.claims[c].generation), c))
  {
    hide Inv, Expire, Outcome, GivesWay, Reuses, ActiveGeneration, Cleared, Reusable;
    var swept := Expire(t, i, now);
    var existing := ActiveGeneration(swept, policy.projectId, policy.repositoryId);
    SweptAnew(t, i, policy, now);
    ClearedRows(t, i, policy, now);
    var x := Admit(t, i, policy, now, uuid);
    if uuid !in t.admissions {
      forall c | c in t.claims && c in t.receipts
        ensures Outcome(t, x.tables, now, GivesWay(t, i, policy, t.claims[c].generation), c)
      {
        ClearedOutcome(t, i, policy, now, c);
        AdmissionsApart(t, Cleared(swept, existing), x.tables, now, GivesWay(t, i, policy, t.claims[c].generation), c);
      }
    }
  }

  lemma ClearedRows(t: Tables, i: Instance, policy: Policy, now: int)
    requires Inv(t) && forall g :: !Reuses(t, i, policy, g)
    ensures var swept := Expire(t, i, now);
            var cleared := Cleared(swept, ActiveGeneration(swept, policy.projectId, policy.repositoryId));
      && cleared.admissions.Keys == t.admissions.Keys
      && (forall h :: h in t.admissions ==>
            cleared.admissions[h] == if GivesWay(t, i, policy, h) then t.admissions[h].(state := Replaced) else t.admissions[h])
  {
    hide Inv, Expire, Foreign, Standing, Reuses, ActiveGeneration, Invalidate, Reusable;
    var swept := Expire(t, i, now);
    var existing := ActiveGeneration(swept, policy.projectId, policy.repositoryId);
    SweptRows(t, i, now);
    SweptAnew(t, i, policy, now);
    ExpireKeepsInv(t, i, now);
    if existing.Some? { EndedRows(swept, {existing.value}, Replaced); }
  }

  lemma ClearedOutcome(t: Tables, i: Instance, policy: Policy, now: int, c: string)
    requires Inv(t) && c in t.claims && c in t.receipts && forall g :: !Reuses(t, i, policy, g)
    ensures var swept := Expire(t, i, now);
      Outcome(t, Cleared(swept, ActiveGeneration(swept, policy.projectId, policy.repositoryId)), now,
        GivesWay(t, i, policy, t.claims[c].generation), c)
  {
    hide Inv, Expire, Foreign, Standing, Reuses, ActiveGeneration, Invalidate, Reusable, Outcome;
    var swept := Expire(t, i, now);
    var existing := ActiveGeneration(swept, policy.projectId, policy.repositoryId);
    SweptAnew(t, i, policy, now);
    if existing.Some? { SweepThenEnd(t, i, now, {existing.value}, Replaced, c); } else { ExpireLaw(t, i, now, c); }
  }

  /** What the sweep leaves for the repository: the one admission that stands and is not foreign, if any; it is not reusable. */
  lemma SweptAnew(t: Tables, i: Instance, policy: Policy, now: int)
    requires Inv(t) && forall g :: !Reuses(t, i, policy, g)
    ensures var swept := Expire(t, i, now); var existing := ActiveGeneration(swept, policy.projectId, policy.repositoryId);
      && !Reusable(swept, i, policy, existing)
      && (forall g :: Foreign(t, i, g) || Standing(t, policy.projectId, policy.repositoryId, g) <==>
            Foreign(t, i, g) || existing == Some(g))
      && (existing.Some? ==> existing.value in t.admissions && !Foreign(t, i, existing.value))
  {
    hide Inv, Expire;
    var swept := Expire(t, i, now);
    var existing := ActiveGeneration(swept, policy.projectId, policy.repositoryId);
    SweptRows(t, i, now);
    ExpireKeepsInv(t, i, now);
    forall g
      ensures Foreign(t, i, g) || Standing(t, policy.projectId, policy.repositoryId, g) <==>
        Foreign(t, i, g) || existing == Some(g)
    {
      StandingAfterSweep(t, i, now, policy.projectId, policy.repositoryId, g);
      if ActiveFor(swept, g, policy.projectId, policy.repositoryId) {
        OneActive(swept, policy.projectId, policy.repositoryId, g);
      }
    }
    if existing.Some? {
      StandingAfterSweep(t, i, now, policy.projectId, policy.repositoryId, existing.value);
      assert !Reuses(t, i, policy, existing.value);
    }
  }
}
