/**
 The declared constraints of the authority database and its insert statements. A statement that
 would break a PRIMARY KEY, UNIQUE, partial unique index or FOREIGN KEY reports failure and changes
 nothing; the transaction around it is then rolled back.
 */
module AuthoritySchema {
  import opened Wrappers
  import opened AuthorityTables
  import opened AuthorityInvariant

  // ---- the unique keys and partial unique indexes, table by table ----

  ghost predicate EpochKeys(epochs: map<string, bool>) {
    forall e, e' :: e in epochs && e' in epochs && epochs[e] && epochs[e'] ==> e == e'
  }

  predicate SameActiveRepository(a: Admission, b: Admission) {
    && a.Active() && b.Active()
    && a.policy.projectId == b.policy.projectId && a.policy.repositoryId == b.policy.repositoryId
  }

  ghost predicate AdmissionKeys(admissions: map<string, Admission>) {
    forall g, g' :: g in admissions && g' in admissions && SameActiveRepository(admissions[g], admissions[g']) ==> g == g'
  }

  predicate InboxClash(a: InboxRow,
      b: InboxRow) { a.event == b.event || (a.demandId.Some? && a.demandId == b.demandId) }

  ghost predicate InboxKeys(inbox: map<string, InboxRow>) {
    forall e, e' :: e in inbox && e' in inbox && InboxClash(inbox[e], inbox[e']) ==> e == e'
  }

  predicate DemandClash(a: Demand, b: Demand) {
    || a.event.eventId == b.event.eventId
    || (a.event.Job() == b.event.Job() && NonterminalDemand(a.state) && NonterminalDemand(b.state))
  }

  ghost predicate DemandKeys(demands: map<string, Demand>) {
    forall d, d' :: d in demands && d' in demands && DemandClash(demands[d], demands[d']) ==> d == d'
  }

  predicate ReceiptClash(a: Receipt, b: Receipt) {
    (a.demandId.Some? && a.demandId == b.demandId) || (a.slot == b.slot && a.requestId == b.requestId)
  }

  ghost predicate ReceiptKeys(receipts: map<string, Receipt>) {
    forall c, c' :: c in receipts && c' in receipts && ReceiptClash(receipts[c], receipts[c']) ==> c == c'
  }

  predicate ClaimClash(a: Claim, b: Claim) { a.demandId == b.demandId || a.attemptId == b.attemptId }

  ghost predicate ClaimKeys(claims: map<string, Claim>) {
    forall c, c' :: c in claims && c' in claims && ClaimClash(claims[c], claims[c']) ==> c == c'
  }

  predicate AssignmentClash(a: Assignment, b: Assignment) { a.claimId == b.claimId || a.attemptId == b.attemptId }

  ghost predicate AssignmentKeys(assignments: map<ReviewJob, Assignment>) {
    forall k, k' :: k in assignments && k' in assignments && AssignmentClash(assignments[k], assignments[k']) ==> k == k'
  }

  ghost predicate FenceKeys(fences: map<Slot, CapacityFence>) {
    forall s, s' :: s in fences && s' in fences && fences[s].claimId == fences[s'].claimId ==> s == s'
  }

  predicate ResultClash(a: HostResult, b: HostResult) { a.hostId == b.hostId && a.requestId == b.requestId }

  ghost predicate ResultKeys(results: map<string, HostResult>) {
    forall c, c' :: c in results && c' in results && ResultClash(results[c], results[c']) ==> c == c'
  }

  ghost predicate UniqueKeys(t: Tables) {
    && EpochKeys(t.epochs) && AdmissionKeys(t.admissions) && InboxKeys(t.inbox) && DemandKeys(t.demands)
    && ReceiptKeys(t.receipts) && ClaimKeys(t.claims) && AssignmentKeys(t.assignments) && FenceKeys(t.fences)
    && ResultKeys(t.results)
  }

  // ---- the references, each over the keys of the tables referred to ----

  predicate InboxRef(fences: set<string>, demands: set<string>, e: string, row: InboxRow) {
    e in fences && (row.demandId.Some? ==> row.demandId.value in demands)
  }

  ghost predicate InboxRefs(fences: set<string>, demands: set<string>, inbox: map<string, InboxRow>) {
    forall e :: e in inbox ==> InboxRef(fences, demands, e, inbox[e])
  }

  predicate DemandRef(inbox: set<string>, admissions: set<string>, d: Demand) {
    d.event.eventId in inbox && d.generation in admissions
  }

  ghost predicate DemandRefs(inbox: set<string>, admissions: set<string>, demands: map<string, Demand>) {
    forall d :: d in demands ==> DemandRef(inbox, admissions, demands[d])
  }

  predicate ReceiptRef(demands: set<string>, admissions: set<string>, r: Receipt) {
    (r.demandId.Some? ==> r.demandId.value in demands) && (r.generation.Some? ==> r.generation.value in admissions)
  }

  ghost predicate ReceiptRefs(demands: set<string>, admissions: set<string>, receipts: map<string, Receipt>) {
    forall c :: c in receipts ==> ReceiptRef(demands, admissions, receipts[c])
  }

  /** The keys a claim refers to, one set per table. */
  datatype ClaimTargets = ClaimTargets(
    receipts: set<string>, demands: set<string>, inbox: set<string>, admissions: set<string>, epochs: set<string>)

  function TargetsIn(t: Tables): ClaimTargets {
    ClaimTargets(t.receipts.Keys, t.demands.Keys, t.inbox.Keys, t.admissions.Keys, t.epochs.Keys)
  }

  predicate Within(a: ClaimTargets, b: ClaimTargets) {
    && a.receipts <= b.receipts && a.demands <= b.demands && a.inbox <= b.inbox && a.admissions <= b.admissions
    && a.epochs <= b.epochs
  }

  predicate ClaimRef(to: ClaimTargets, c: string, claim: Claim) {
    && c in to.receipts && claim.demandId in to.demands && claim.eventId in to.inbox
    && claim.generation in to.admissions && claim.epochId in to.epochs
  }

  ghost predicate ClaimRefs(to: ClaimTargets, claims: map<string, Claim>) {
    forall c :: c in claims ==> ClaimRef(to, c, claims[c])
  }

  predicate AssignmentRef(claims: set<string>, admissions: set<string>, a: Assignment) {
    a.claimId in claims && a.generation in admissions
  }

  ghost predicate AssignmentRefs(claims: set<string>, admissions: set<string>,
      assignments: map<ReviewJob, Assignment>) {
    forall k :: k in assignments ==> AssignmentRef(claims, admissions, assignments[k])
  }

  ghost predicate FenceRefs(claims: set<string>, fences: map<Slot, CapacityFence>) {
    forall s :: s in fences ==> fences[s].claimId in claims
  }

  ghost predicate ForeignKeys(t: Tables) {
    && InboxRefs(t.eventFences.Keys, t.demands.Keys, t.inbox)
    && DemandRefs(t.inbox.Keys, t.admissions.Keys, t.demands)
    && ReceiptRefs(t.demands.Keys, t.admissions.Keys, t.receipts)
    && ClaimRefs(TargetsIn(t), t.claims)
    && AssignmentRefs(t.claims.Keys, t.admissions.Keys, t.assignments)
    && FenceRefs(t.claims.Keys, t.fences)
    && t.results.Keys <= t.claims.Keys && t.outbox.Keys <= t.claims.Keys
  }

  ghost predicate MeetsSchema(t: Tables) { UniqueKeys(t) && ForeignKeys(t) }

  // ---- every state that keeps the invariant meets the schema ----

  /** The invariant implies every UNIQUE constraint and partial unique index. */
  lemma InvGivesUniqueKeys(t: Tables)
    requires Inv(t)
    ensures UniqueKeys(t)
  {
    hide QueueOk, HoldersOk, ClaimAuthorityOk, AdmissionsOk, OutboxOk, LimitsOk, InboxOk, DemandsOk, ReceiptsOk,
      ReceiptKeysOk, ClaimsOk, AttemptsOk, AssignmentsOk, FencesOk, AdmissionKeys, InboxKeys, DemandKeys, ReceiptKeys,
      ClaimKeys, AssignmentKeys, FenceKeys;
    AdmissionsAreKeyed(t.admissions);
    InboxIsKeyed(t);
    DemandsAreKeyed(t);
    ReceiptsAreKeyed(t.receipts);
    ClaimsAreKeyed(t);
    AssignmentsAreKeyed(t);
  }

  lemma AdmissionsAreKeyed(admissions: map<string, Admission>)
    requires AdmissionsOk(admissions)
    ensures AdmissionKeys(admissions)
  {
  }

  lemma InboxIsKeyed(t: Tables)
    requires InboxOk(t.eventFences, t.inbox, t.demands) && DemandsOk(t.tupleFences, t.inbox, t.demands)
    ensures InboxKeys(t.inbox)
  {
  }

  lemma DemandsAreKeyed(t: Tables)
    requires InboxOk(t.eventFences, t.inbox, t.demands) && DemandsOk(t.tupleFences, t.inbox, t.demands)
    ensures DemandKeys(t.demands)
  {
  }

  lemma ReceiptsAreKeyed(receipts: map<string, Receipt>)
    requires ReceiptKeysOk(receipts)
    ensures ReceiptKeys(receipts)
  {
  }

  lemma ClaimsAreKeyed(t: Tables)
    requires ClaimsOk(t.receipts, t.claims, t.demands) && ReceiptKeysOk(t.receipts) && AttemptsOk(t.claims)
    ensures ClaimKeys(t.claims)
  {
    hide ClaimsOk;
    forall c, c' | c in t.claims && c' in t.claims && ClaimClash(t.claims[c], t.claims[c']) ensures c == c' {
      RowOfClaim(t.receipts, t.claims, t.demands, c);
      RowOfClaim(t.receipts, t.claims, t.demands, c');
    }
  }

  lemma AssignmentsAreKeyed(t: Tables)
    requires AssignmentsOk(t.claims, t.assignments) && FencesOk(t.claims, t.fences) && AttemptsOk(t.claims)
    ensures AssignmentKeys(t.assignments) && FenceKeys(t.fences)
  {
  }

  /** The invariant implies every FOREIGN KEY. */
  lemma InvGivesForeignKeys(t: Tables)
    requires Inv(t)
    ensures ForeignKeys(t)
  {
    hide InboxOk, DemandsOk, QueueOk, ReceiptsOk, HoldersOk, AdmissionsOk, ResultsOk, LimitsOk, ReceiptKeysOk,
      AttemptsOk,
      ClaimsOk, ClaimAuthorityOk, AssignmentsOk, FencesOk, InboxRefs, DemandRefs, ReceiptRefs, ClaimRefs,
      AssignmentRefs, FenceRefs;
    IntakeReferences(t);
    ClaimReferences(t);
    AssignmentReferences(t);
  }

  lemma IntakeReferences(t: Tables)
    requires InboxOk(t.eventFences, t.inbox, t.demands) && DemandsOk(t.tupleFences, t.inbox, t.demands)
    requires QueueOk(t.admissions, t.demands) && ReceiptsOk(t.receipts, t.demands)
    ensures InboxRefs(t.eventFences.Keys, t.demands.Keys, t.inbox)
    ensures DemandRefs(t.inbox.Keys, t.admissions.Keys, t.demands)
    ensures ReceiptRefs(t.demands.Keys, t.admissions.Keys, t.receipts)
  {
  }

  lemma ClaimReferences(t: Tables)
    requires DemandsOk(t.tupleFences, t.inbox, t.demands) && ClaimsOk(t.receipts, t.claims, t.demands)
    requires ClaimAuthorityOk(t.epochs, t.admissions, t.claims)
    ensures ClaimRefs(TargetsIn(t), t.claims)
  {
    hide ClaimsOk;
    forall c | c in t.claims
      ensures ClaimRef(TargetsIn(t), c, t.claims[c])
    {
      RowOfClaim(t.receipts, t.claims, t.demands, c);
    }
  }

  lemma AssignmentReferences(t: Tables)
    requires ClaimAuthorityOk(t.epochs, t.admissions, t.claims) && AssignmentsOk(t.claims, t.assignments)
    requires FencesOk(t.claims, t.fences)
    ensures AssignmentRefs(t.claims.Keys, t.admissions.Keys, t.assignments) && FenceRefs(t.claims.Keys, t.fences)
  {
  }

  // ---- what each insert statement tests ----

  predicate CanInsertEpoch(t: Tables, e: string) {
    e !in t.epochs && forall e' :: e' in t.epochs ==> !t.epochs[e']
  }

  predicate CanInsertAdmission(t: Tables, g: string, a: Admission) {
    g !in t.admissions && forall g' :: g' in t.admissions ==> !SameActiveRepository(t.admissions[g'], a)
  }

  predicate CanInsertEventFence(t: Tables, event: Event) { event.eventId !in t.eventFences }

  predicate CanInsertTupleFence(t: Tables, event: Event) { event.Job() !in t.tupleFences }

  predicate CanInsertInbox(t: Tables, e: string, row: InboxRow) {
    && e !in t.inbox && InboxRef(t.eventFences.Keys, t.demands.Keys, e, row)
    && forall e' :: e' in t.inbox ==> !InboxClash(t.inbox[e'], row)
  }

  predicate CanInsertDemand(t: Tables, d: string, demand: Demand) {
    && d !in t.demands && DemandRef(t.inbox.Keys, t.admissions.Keys, demand)
    && forall d' :: d' in t.demands ==> !DemandClash(t.demands[d'], demand)
  }

  predicate CanLinkInbox(t: Tables, e: string, d: string) {
    d in t.demands && forall e' :: e' in t.inbox && e' != e ==> t.inbox[e'].demandId != Some(d)
  }

  predicate CanInsertReceipt(t: Tables, c: string, r: Receipt) {
    && c !in t.receipts && ReceiptRef(t.demands.Keys, t.admissions.Keys, r)
    && forall c' :: c' in t.receipts ==> !ReceiptClash(t.receipts[c'], r)
  }

  predicate CanInsertClaim(t: Tables, c: string, claim: Claim) {
    && c !in t.claims && ClaimRef(TargetsIn(t), c, claim)
    && forall c' :: c' in t.claims ==> !ClaimClash(t.claims[c'], claim)
  }

  predicate CanInsertAssignment(t: Tables, k: ReviewJob, a: Assignment) {
    && k !in t.assignments && AssignmentRef(t.claims.Keys, t.admissions.Keys, a)
    && forall k' :: k' in t.assignments ==> !AssignmentClash(t.assignments[k'], a)
  }

  predicate CanInsertFence(t: Tables, s: Slot, f: CapacityFence) {
    s !in t.fences && f.claimId in t.claims && forall s' :: s' in t.fences ==> t.fences[s'].claimId != f.claimId
  }

  predicate CanInsertResult(t: Tables, c: string, r: HostResult) {
    c !in t.results && c in t.claims && forall c' :: c' in t.results ==> !ResultClash(t.results[c'], r)
  }

  predicate CanInsertReport(t: Tables, c: string) { c !in t.outbox && c in t.claims }

  // ---- the tests are exact: a new row passes exactly when the tables with it still meet the schema ----

  lemma DemandRefsGrow(inbox: set<string>, inbox': set<string>, admissions: set<string>, admissions': set<string>,
      demands: map<string, Demand>)
    requires DemandRefs(inbox, admissions, demands) && inbox <= inbox' && admissions <= admissions'
    ensures DemandRefs(inbox', admissions', demands)
  {
  }

  lemma InboxRefsGrow(fences: set<string>, fences': set<string>, demands: set<string>, demands': set<string>,
      inbox: map<string, InboxRow>)
    requires InboxRefs(fences, demands, inbox) && fences <= fences' && demands <= demands'
    ensures InboxRefs(fences', demands', inbox)
  {
  }

  lemma ReceiptRefsGrow(demands: set<string>, demands': set<string>, admissions: set<string>, admissions': set<string>,
      receipts: map<string, Receipt>)
    requires ReceiptRefs(demands, admissions, receipts) && demands <= demands' && admissions <= admissions'
    ensures ReceiptRefs(demands', admissions', receipts)
  {
  }

  lemma ClaimRefsGrow(to: ClaimTargets, to': ClaimTargets, claims: map<string, Claim>)
    requires ClaimRefs(to, claims) && Within(to, to')
    ensures ClaimRefs(to', claims)
  {
  }

  lemma AssignmentRefsGrow(claims: set<string>, claims': set<string>, admissions: set<string>, admissions': set<string>,
      assignments: map<ReviewJob, Assignment>)
    requires AssignmentRefs(claims, admissions, assignments) && claims <= claims' && admissions <= admissions'
    ensures AssignmentRefs(claims', admissions', assignments)
  {
  }

  /** A table that only gains rows leaves the references to it standing. */
  lemma ReferencesGrow(t: Tables, t': Tables)
    requires ForeignKeys(t) && Within(TargetsIn(t), TargetsIn(t')) && t.eventFences.Keys <= t'.eventFences.Keys
    requires t.claims.Keys <= t'.claims.Keys
    ensures InboxRefs(t'.eventFences.Keys, t'.demands.Keys, t.inbox)
    ensures DemandRefs(t'.inbox.Keys, t'.admissions.Keys, t.demands)
    ensures ReceiptRefs(t'.demands.Keys, t'.admissions.Keys, t.receipts) && ClaimRefs(TargetsIn(t'), t.claims)
    ensures AssignmentRefs(t'.claims.Keys, t'.admissions.Keys, t.assignments) && FenceRefs(t'.claims.Keys, t.fences)
    ensures t.results.Keys <= t'.claims.Keys && t.outbox.Keys <= t'.claims.Keys
  {
    hide InboxRefs, DemandRefs, ReceiptRefs, ClaimRefs, AssignmentRefs;
    InboxRefsGrow(t.eventFences.Keys, t'.eventFences.Keys, t.demands.Keys, t'.demands.Keys, t.inbox);
    DemandRefsGrow(t.inbox.Keys, t'.inbox.Keys, t.admissions.Keys, t'.admissions.Keys, t.demands);
    ReceiptRefsGrow(t.demands.Keys, t'.demands.Keys, t.admissions.Keys, t'.admissions.Keys, t.receipts);
    ClaimRefsGrow(TargetsIn(t), TargetsIn(t'), t.claims);
    AssignmentRefsGrow(t.claims.Keys, t'.claims.Keys, t.admissions.Keys, t'.admissions.Keys, t.assignments);
  }

  lemma EpochInsertExact(t: Tables, e: string)
    requires MeetsSchema(t)
    ensures CanInsertEpoch(t, e) <==> e !in t.epochs && MeetsSchema(t.(epochs := t.epochs[e := true]))
  {
    hide AdmissionKeys, InboxKeys, DemandKeys, ReceiptKeys, ClaimKeys, AssignmentKeys, FenceKeys, ResultKeys;
    hide InboxRefs, DemandRefs, ReceiptRefs, ClaimRefs, AssignmentRefs, FenceRefs;
    var t' := t.(epochs := t.epochs[e := true]);
    ReferencesGrow(t, t');
    if e !in t.epochs {
      assert t'.epochs[e] == true && forall x | x in t.epochs :: t'.epochs[x] == t.epochs[x];
    }
  }

  lemma AdmissionInsertExact(t: Tables, g: string, a: Admission)
    requires MeetsSchema(t)
    ensures CanInsertAdmission(t, g, a) <==> g !in t.admissions && MeetsSchema(t.(admissions := t.admissions[g := a]))
  {
    hide EpochKeys, InboxKeys, DemandKeys, ReceiptKeys, ClaimKeys, AssignmentKeys, FenceKeys, ResultKeys;
    hide InboxRefs, DemandRefs, ReceiptRefs, ClaimRefs, AssignmentRefs, FenceRefs;
    var t' := t.(admissions := t.admissions[g := a]);
    ReferencesGrow(t, t');
    if g !in t.admissions {
      assert t'.admissions[g] == a && forall x | x in t.admissions :: t'.admissions[x] == t.admissions[x];
    }
  }

  lemma InboxInsertExact(t: Tables, e: string, row: InboxRow)
    requires MeetsSchema(t)
    ensures CanInsertInbox(t, e, row) <==> e !in t.inbox && MeetsSchema(t.(inbox := t.inbox[e := row]))
  {
    hide EpochKeys, AdmissionKeys, DemandKeys, ReceiptKeys, ClaimKeys, AssignmentKeys, FenceKeys, ResultKeys;
    hide DemandRefs, ReceiptRefs, ClaimRefs, AssignmentRefs, FenceRefs;
    var t' := t.(inbox := t.inbox[e := row]);
    ReferencesGrow(t, t');
    if e !in t.inbox {
      assert t'.inbox[e] == row && forall x | x in t.inbox :: t'.inbox[x] == t.inbox[x];
    }
  }

  lemma DemandInsertExact(t: Tables, d: string, demand: Demand)
    requires MeetsSchema(t)
    ensures CanInsertDemand(t, d, demand) <==> d !in t.demands && MeetsSchema(t.(demands := t.demands[d := demand]))
  {
    hide EpochKeys, AdmissionKeys, InboxKeys, ReceiptKeys, ClaimKeys, AssignmentKeys, FenceKeys, ResultKeys;
    hide InboxRefs, ReceiptRefs, ClaimRefs, AssignmentRefs, FenceRefs;
    var t' := t.(demands := t.demands[d := demand]);
    ReferencesGrow(t, t');
    if d !in t.demands {
      assert t'.demands[d] == demand && forall x | x in t.demands :: t'.demands[x] == t.demands[x];
    }
  }

  lemma ReceiptInsertExact(t: Tables, c: string, r: Receipt)
    requires MeetsSchema(t)
    ensures CanInsertReceipt(t, c, r) <==> c !in t.receipts && MeetsSchema(t.(receipts := t.receipts[c := r]))
  {
    hide EpochKeys, AdmissionKeys, InboxKeys, DemandKeys, ClaimKeys, AssignmentKeys, FenceKeys, ResultKeys;
    hide InboxRefs, DemandRefs, ClaimRefs, AssignmentRefs, FenceRefs;
    var t' := t.(receipts := t.receipts[c := r]);
    ReferencesGrow(t, t');
    if c !in t.receipts {
      assert t'.receipts[c] == r && forall x | x in t.receipts :: t'.receipts[x] == t.receipts[x];
    }
  }

  lemma ClaimInsertExact(t: Tables, c: string, claim: Claim)
    requires MeetsSchema(t)
    ensures CanInsertClaim(t, c, claim) <==> c !in t.claims && MeetsSchema(t.(claims := t.claims[c := claim]))
  {
    hide EpochKeys, AdmissionKeys, InboxKeys, DemandKeys, ReceiptKeys, AssignmentKeys, FenceKeys, ResultKeys;
    hide InboxRefs, DemandRefs, ReceiptRefs, AssignmentRefs, FenceRefs;
    var t' := t.(claims := t.claims[c := claim]);
    ReferencesGrow(t, t');
    if c !in t.claims {
      assert t'.claims[c] == claim && forall x | x in t.claims :: t'.claims[x] == t.claims[x];
    }
  }

  lemma AssignmentInsertExact(t: Tables, k: ReviewJob, a: Assignment)
    requires MeetsSchema(t)
    ensures CanInsertAssignment(t, k, a) <==> k !in t.assignments && MeetsSchema(t.(assignments := t.assignments[k := a]))
  {
    hide EpochKeys, AdmissionKeys, InboxKeys, DemandKeys, ReceiptKeys, ClaimKeys, FenceKeys, ResultKeys;
    hide InboxRefs, DemandRefs, ReceiptRefs, ClaimRefs, FenceRefs;
    var t' := t.(assignments := t.assignments[k := a]);
    ReferencesGrow(t, t');
    if k !in t.assignments {
      assert t'.assignments[k] == a && forall x | x in t.assignments :: t'.assignments[x] == t.assignments[x];
    }
  }

  lemma FenceInsertExact(t: Tables, s: Slot, f: CapacityFence)
    requires MeetsSchema(t)
    ensures CanInsertFence(t, s, f) <==> s !in t.fences && MeetsSchema(t.(fences := t.fences[s := f]))
  {
    hide EpochKeys, AdmissionKeys, InboxKeys, DemandKeys, ReceiptKeys, ClaimKeys, AssignmentKeys, ResultKeys;
    hide InboxRefs, DemandRefs, ReceiptRefs, ClaimRefs, AssignmentRefs;
    var t' := t.(fences := t.fences[s := f]);
    ReferencesGrow(t, t');
    if s !in t.fences {
      assert t'.fences[s] == f && forall x | x in t.fences :: t'.fences[x] == t.fences[x];
    }
  }

  lemma ResultInsertExact(t: Tables, c: string, r: HostResult)
    requires MeetsSchema(t)
    ensures CanInsertResult(t, c, r) <==> c !in t.results && MeetsSchema(t.(results := t.results[c := r]))
  {
    hide EpochKeys, AdmissionKeys, InboxKeys, DemandKeys, ReceiptKeys, ClaimKeys, AssignmentKeys, FenceKeys;
    hide InboxRefs, DemandRefs, ReceiptRefs, ClaimRefs, AssignmentRefs, FenceRefs;
    var t' := t.(results := t.results[c := r]);
    ReferencesGrow(t, t');
    if c !in t.results {
      assert t'.results[c] == r && forall x | x in t.results :: t'.results[x] == t.results[x];
    }
  }

  lemma EventFenceInsertExact(t: Tables, event: Event)
    requires MeetsSchema(t)
    ensures CanInsertEventFence(t, event) <==>
      event.eventId !in t.eventFences && MeetsSchema(t.(eventFences := t.eventFences[event.eventId := event]))
  {
    hide EpochKeys, AdmissionKeys, InboxKeys, DemandKeys, ReceiptKeys, ClaimKeys, AssignmentKeys, FenceKeys, ResultKeys;
    hide InboxRefs, DemandRefs, ReceiptRefs, ClaimRefs, AssignmentRefs, FenceRefs;
    ReferencesGrow(t, t.(eventFences := t.eventFences[event.eventId := event]));
  }

  lemma TupleFenceInsertExact(t: Tables, event: Event)
    requires MeetsSchema(t)
    ensures CanInsertTupleFence(t, event) <==>
      event.Job() !in t.tupleFences && MeetsSchema(t.(tupleFences := t.tupleFences[event.Job() := event.Tuple()]))
  {
    hide EpochKeys, AdmissionKeys, InboxKeys, DemandKeys, ReceiptKeys, ClaimKeys, AssignmentKeys, FenceKeys, ResultKeys;
    hide InboxRefs, DemandRefs, ReceiptRefs, ClaimRefs, AssignmentRefs, FenceRefs;
    ReferencesGrow(t, t.(tupleFences := t.tupleFences[event.Job() := event.Tuple()]));
  }

  /** Naming the demand of an inbox row, once the demand is there. */
  lemma InboxLinkExact(t: Tables, e: string, d: string)
    requires MeetsSchema(t) && e in t.inbox
    ensures CanLinkInbox(t, e, d) <==> MeetsSchema(t.(inbox := t.inbox[e := t.inbox[e].(demandId := Some(d))]))
  {
    hide EpochKeys, AdmissionKeys, DemandKeys, ReceiptKeys, ClaimKeys, AssignmentKeys, FenceKeys, ResultKeys;
    hide DemandRefs, ReceiptRefs, ClaimRefs, AssignmentRefs, FenceRefs;
    var t' := t.(inbox := t.inbox[e := t.inbox[e].(demandId := Some(d))]);
    assert t'.inbox.Keys == t.inbox.Keys && t'.inbox[e] == t.inbox[e].(demandId := Some(d));
    ReferencesGrow(t, t');
    assert forall x | x in t.inbox && x != e :: t'.inbox[x] == t.inbox[x];
  }

  lemma ReportInsertExact(t: Tables, c: string, o: OutboxState)
    requires MeetsSchema(t)
    ensures CanInsertReport(t, c) <==> c !in t.outbox && MeetsSchema(t.(outbox := t.outbox[c := o]))
  {
    hide EpochKeys, AdmissionKeys, InboxKeys, DemandKeys, ReceiptKeys, ClaimKeys, AssignmentKeys, FenceKeys, ResultKeys;
    hide InboxRefs, DemandRefs, ReceiptRefs, ClaimRefs, AssignmentRefs, FenceRefs;
    var t' := t.(outbox := t.outbox[c := o]);
    ReferencesGrow(t, t');
    assert c in t'.outbox.Keys;
  }

  /** The database connection: its tables, changed one statement at a time. */
  class Database {
    var tables: Tables

    constructor ()
      ensures tables == EMPTY_TABLES
    {
      tables := EMPTY_TABLES;
    }

    /** `ROLLBACK` to the tables at `BEGIN`. */
    method Rollback(begun: Tables)
      modifies this
      ensures tables == begun
    {
      tables := begun;
    }

    method InsertEpoch(e: string) returns (ok: bool)
      modifies this
      ensures ok == CanInsertEpoch(old(tables), e)
      ensures tables == if ok then old(tables).(epochs := old(tables).epochs[e := true]) else old(tables)
      ensures MeetsSchema(old(tables)) ==> MeetsSchema(tables)
      ensures MeetsSchema(old(tables)) ==>
        (ok <==> e !in old(tables).epochs && MeetsSchema(old(tables).(epochs := old(tables).epochs[e := true])))
    {
      hide UniqueKeys, ForeignKeys;
      if MeetsSchema(tables) { EpochInsertExact(tables, e); }
      ok := CanInsertEpoch(tables, e);
      if ok { tables := tables.(epochs := tables.epochs[e := true]); }
    }

    method InsertAdmission(g: string, a: Admission) returns (ok: bool)
      modifies this
      ensures ok == CanInsertAdmission(old(tables), g, a)
      ensures tables == if ok then old(tables).(admissions := old(tables).admissions[g := a]) else old(tables)
      ensures MeetsSchema(old(tables)) ==> MeetsSchema(tables)
      ensures MeetsSchema(old(tables)) ==>
        (ok <==> g !in old(tables).admissions && MeetsSchema(old(tables).(admissions := old(tables).admissions[g := a])))
    {
      hide UniqueKeys, ForeignKeys;
      if MeetsSchema(tables) { AdmissionInsertExact(tables, g, a); }
      ok := CanInsertAdmission(tables, g, a);
      if ok { tables := tables.(admissions := tables.admissions[g := a]); }
    }

    method InsertEventFence(event: Event) returns (ok: bool)
      modifies this
      ensures ok == CanInsertEventFence(old(tables), event)
      ensures tables == if ok then old(tables).(eventFences := old(tables).eventFences[event.eventId := event]) else old(tables)
      ensures MeetsSchema(old(tables)) ==> MeetsSchema(tables)
      ensures MeetsSchema(old(tables)) ==>
        (ok <==>
          event.eventId !in old(tables).eventFences && MeetsSchema(old(tables).(eventFences := old(tables).eventFences[event.eventId := event])))
    {
      hide UniqueKeys, ForeignKeys;
      if MeetsSchema(tables) { EventFenceInsertExact(tables, event); }
      ok := CanInsertEventFence(tables, event);
      if ok { tables := tables.(eventFences := tables.eventFences[event.eventId := event]); }
    }

    method InsertTupleFence(event: Event) returns (ok: bool)
      modifies this
      ensures ok == CanInsertTupleFence(old(tables), event)
      ensures tables == if ok then old(tables).(tupleFences := old(tables).tupleFences[event.Job() := event.Tuple()]) else old(tables)
      ensures MeetsSchema(old(tables)) ==> MeetsSchema(tables)
      ensures MeetsSchema(old(tables)) ==>
        (ok <==>
          event.Job() !in old(tables).tupleFences && MeetsSchema(old(tables).(tupleFences := old(tables).tupleFences[event.Job() := event.Tuple()])))
    {
      hide UniqueKeys, ForeignKeys;
      if MeetsSchema(tables) { TupleFenceInsertExact(tables, event); }
      ok := CanInsertTupleFence(tables, event);
      if ok { tables := tables.(tupleFences := tables.tupleFences[event.Job() := event.Tuple()]); }
    }

    method InsertInbox(e: string, row: InboxRow) returns (ok: bool)
      modifies this
      ensures ok == CanInsertInbox(old(tables), e, row)
      ensures tables == if ok then old(tables).(inbox := old(tables).inbox[e := row]) else old(tables)
      ensures MeetsSchema(old(tables)) ==> MeetsSchema(tables)
      ensures MeetsSchema(old(tables)) ==>
        (ok <==> e !in old(tables).inbox && MeetsSchema(old(tables).(inbox := old(tables).inbox[e := row])))
    {
      hide UniqueKeys, ForeignKeys;
      if MeetsSchema(tables) { InboxInsertExact(tables, e, row); }
      ok := CanInsertInbox(tables, e, row);
      if ok { tables := tables.(inbox := tables.inbox[e := row]); }
    }

    method InsertDemand(d: string, demand: Demand) returns (ok: bool)
      modifies this
      ensures ok == CanInsertDemand(old(tables), d, demand)
      ensures tables == if ok then old(tables).(demands := old(tables).demands[d := demand]) else old(tables)
      ensures MeetsSchema(old(tables)) ==> MeetsSchema(tables)
      ensures MeetsSchema(old(tables)) ==>
        (ok <==> d !in old(tables).demands && MeetsSchema(old(tables).(demands := old(tables).demands[d := demand])))
    {
      hide UniqueKeys, ForeignKeys;
      if MeetsSchema(tables) { DemandInsertExact(tables, d, demand); }
      ok := CanInsertDemand(tables, d, demand);
      if ok { tables := tables.(demands := tables.demands[d := demand]); }
    }

    /** `UPDATE native_event_inbox SET demand_id` */
    method LinkInbox(e: string, d: string) returns (ok: bool)
      requires e in tables.inbox
      modifies this
      ensures ok == CanLinkInbox(old(tables), e, d)
      ensures tables ==
        if ok then old(tables).(inbox := old(tables).inbox[e := old(tables).inbox[e].(demandId := Some(d))])
        else old(tables)
      ensures MeetsSchema(old(tables)) ==> MeetsSchema(tables)
      ensures MeetsSchema(old(tables)) ==>
        (ok <==> MeetsSchema(old(tables).(inbox := old(tables).inbox[e := old(tables).inbox[e].(demandId := Some(d))])))
    {
      hide UniqueKeys, ForeignKeys;
      if MeetsSchema(tables) { InboxLinkExact(tables, e, d); }
      ok := CanLinkInbox(tables, e, d);
      if ok { tables := tables.(inbox := tables.inbox[e := tables.inbox[e].(demandId := Some(d))]); }
    }

    method InsertReceipt(c: string, r: Receipt) returns (ok: bool)
      modifies this
      ensures ok == CanInsertReceipt(old(tables), c, r)
      ensures tables == if ok then old(tables).(receipts := old(tables).receipts[c := r]) else old(tables)
      ensures MeetsSchema(old(tables)) ==> MeetsSchema(tables)
      ensures MeetsSchema(old(tables)) ==>
        (ok <==> c !in old(tables).receipts && MeetsSchema(old(tables).(receipts := old(tables).receipts[c := r])))
    {
      hide UniqueKeys, ForeignKeys;
      if MeetsSchema(tables) { ReceiptInsertExact(tables, c, r); }
      ok := CanInsertReceipt(tables, c, r);
      if ok { tables := tables.(receipts := tables.receipts[c := r]); }
    }

    method InsertClaim(c: string, claim: Claim) returns (ok: bool)
      modifies this
      ensures ok == CanInsertClaim(old(tables), c, claim)
      ensures tables == if ok then old(tables).(claims := old(tables).claims[c := claim]) else old(tables)
      ensures MeetsSchema(old(tables)) ==> MeetsSchema(tables)
      ensures MeetsSchema(old(tables)) ==>
        (ok <==> c !in old(tables).claims && MeetsSchema(old(tables).(claims := old(tables).claims[c := claim])))
    {
      hide UniqueKeys, ForeignKeys;
      if MeetsSchema(tables) { ClaimInsertExact(tables, c, claim); }
      ok := CanInsertClaim(tables, c, claim);
      if ok { tables := tables.(claims := tables.claims[c := claim]); }
    }

    method InsertAssignment(k: ReviewJob, a: Assignment) returns (ok: bool)
      modifies this
      ensures ok == CanInsertAssignment(old(tables), k, a)
      ensures tables == if ok then old(tables).(assignments := old(tables).assignments[k := a]) else old(tables)
      ensures MeetsSchema(old(tables)) ==> MeetsSchema(tables)
      ensures MeetsSchema(old(tables)) ==>
        (ok <==> k !in old(tables).assignments && MeetsSchema(old(tables).(assignments := old(tables).assignments[k := a])))
    {
      hide UniqueKeys, ForeignKeys;
      if MeetsSchema(tables) { AssignmentInsertExact(tables, k, a); }
      ok := CanInsertAssignment(tables, k, a);
      if ok { tables := tables.(assignments := tables.assignments[k := a]); }
    }

    method InsertFence(s: Slot, f: CapacityFence) returns (ok: bool)
      modifies this
      ensures ok == CanInsertFence(old(tables), s, f)
      ensures tables == if ok then old(tables).(fences := old(tables).fences[s := f]) else old(tables)
      ensures MeetsSchema(old(tables)) ==> MeetsSchema(tables)
      ensures MeetsSchema(old(tables)) ==>
        (ok <==> s !in old(tables).fences && MeetsSchema(old(tables).(fences := old(tables).fences[s := f])))
    {
      hide UniqueKeys, ForeignKeys;
      if MeetsSchema(tables) { FenceInsertExact(tables, s, f); }
      ok := CanInsertFence(tables, s, f);
      if ok { tables := tables.(fences := tables.fences[s := f]); }
    }
  }
}
