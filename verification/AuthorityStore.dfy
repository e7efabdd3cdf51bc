/**
 The authority stores as they run: one transaction per method, one statement after another on the
 shared database, rolled back when a statement breaks a constraint. On a database that satisfies the
 invariant every method is proved to have exactly the effect and answer of its function in
 `AuthoritySteps`, so no constraint error other than a colliding random id or attempt id can occur.
 */
module AuthorityStore {
  import opened Wrappers
  import opened AuthorityTables
  import opened AuthoritySteps
  import opened AuthorityInvariant
  import opened AuthorityOrder
  import opened AuthorityRotation
  import opened AuthoritySchema

  // ---- nativeOrdinaryFencing.ts ----

  lemma NewFencesStep(t: Tables, done: set<string>, c: string, reason: FenceReason)
    requires ClaimsOk(t.receipts, t.claims, t.demands) && ReceiptKeysOk(t.receipts) && FencesOk(t.claims, t.fences)
    requires done + {c} <= ActiveClaims(t) && c !in done
    ensures var before := NewFences(t.claims, done, reason) + t.fences;
      && NewFences(t.claims, done + {c}, reason) + t.fences == before[t.claims[c].slot := CapacityFence(c, reason)]
      && CanInsertFence(t.(fences := before), t.claims[c].slot, CapacityFence(c, reason))
  {
    hide ClaimsOk, ReceiptKeysOk, NewFences, OneFenceEach;
    FenceRows(t, done, reason);
    FenceRows(t, done + {c}, reason);
    OneMoreFence(t, done, c, reason, NewFences(t.claims, done, reason), NewFences(t.claims, done + {c}, reason));
  }

  lemma OneMoreFence(t: Tables, done: set<string>, c: string, reason: FenceReason,
                     added: map<Slot, CapacityFence>, added': map<Slot, CapacityFence>)
    requires FencesOk(t.claims, t.fences) && c !in done && done + {c} <= ActiveClaims(t)
    requires OneFenceEach(t.claims, done, reason, t.fences, added)
    requires OneFenceEach(t.claims, done + {c}, reason, t.fences, added')
    ensures added' + t.fences == (added + t.fences)[t.claims[c].slot := CapacityFence(c, reason)]
    ensures CanInsertFence(t.(fences := added + t.fences), t.claims[c].slot, CapacityFence(c, reason))
  {
  }

  /** `INSERT OR IGNORE INTO capacity_fences`: a row that cannot be inserted is skipped; none is. */
  method InsertOrIgnoreFences(db: Database, ids: set<string>, reason: FenceReason)
    requires ClaimsOk(db.tables.receipts, db.tables.claims, db.tables.demands) && ReceiptKeysOk(db.tables.receipts)
    requires FencesOk(db.tables.claims, db.tables.fences) && ids <= ActiveClaims(db.tables)
    modifies db
    ensures db.tables == old(db.tables).(fences := NewFences(old(db.tables.claims), ids, reason) + old(db.tables.fences))
  {
    hide ClaimsOk, ReceiptKeysOk, FencesOk, NewFences, ActiveClaims;
    ghost var t := db.tables;
    ghost var done: set<string> := {};
    var todo := ids;
    NoNewFences(t, reason);
    while todo != {}
      invariant done <= ids && todo == ids - done
      invariant db.tables == t.(fences := NewFences(t.claims, done, reason) + t.fences)
      decreases |todo|
    {
      var c :| c in todo;
      InsertOrIgnoreFence(db, t, done, c, reason);
      done, todo := done + {c}, todo - {c};
    }
    assert done == ids;
  }

  /** One row of it, beside those already inserted. */
  method InsertOrIgnoreFence(db: Database, ghost t: Tables, ghost done: set<string>, c: string, reason: FenceReason)
    requires ClaimsOk(t.receipts, t.claims, t.demands) && ReceiptKeysOk(t.receipts) && FencesOk(t.claims, t.fences)
    requires done + {c} <= ActiveClaims(t) && c !in done
    requires db.tables == t.(fences := NewFences(t.claims, done, reason) + t.fences)
    modifies db
    ensures db.tables == t.(fences := NewFences(t.claims, done + {c}, reason) + t.fences)
  {
    hide ClaimsOk, ReceiptKeysOk, FencesOk, NewFences, CanInsertFence;
    NewFencesStep(t, done, c, reason);
    assert c in t.claims;
    var inserted := db.InsertFence(db.tables.claims[c].slot, CapacityFence(c, reason));
    assert inserted;
  }

  lemma NoNewFences(t: Tables, reason: FenceReason)
    ensures NewFences(t.claims, {}, reason) + t.fences == t.fences
  {
    assert NewFences(t.claims, {}, reason) == map[];
  }

  method FenceGenerationClaims(db: Database, g: string)
    requires ClaimsOk(db.tables.receipts, db.tables.claims, db.tables.demands) && ReceiptKeysOk(db.tables.receipts)
    requires FencesOk(db.tables.claims, db.tables.fences)
    modifies db
    ensures db.tables == Fence(old(db.tables), GenerationClaims(old(db.tables), {g}, ActiveClaim), GenerationRotated)
  {
    hide ClaimsOk, ReceiptKeysOk, FencesOk, NewFences;
    InsertOrIgnoreFences(db, GenerationClaims(db.tables, {g}, ActiveClaim), GenerationRotated);
    db.tables := db.tables.(assignments := Unassign(db.tables.assignments, GenerationClaims(db.tables, {g}, ActiveClaim)));
    db.tables := db.tables.(receipts := MoveReceipts(db.tables.receipts, GenerationClaims(db.tables, {g}, ActiveClaim), RecoveringReceipt));
    db.tables := db.tables.(claims := MoveClaims(db.tables.claims, GenerationClaims(db.tables, {g}, ActiveClaim), RecoveringClaim));
  }

  method FenceExpiredClaims(db: Database, now: int)
    requires ClaimsOk(db.tables.receipts, db.tables.claims, db.tables.demands) && ReceiptKeysOk(db.tables.receipts)
    requires FencesOk(db.tables.claims, db.tables.fences)
    modifies db
    ensures db.tables == Fence(old(db.tables), ExpiredClaims(old(db.tables), now), LeaseLost)
  {
    hide ClaimsOk, ReceiptKeysOk, FencesOk, NewFences;
    InsertOrIgnoreFences(db, ExpiredClaims(db.tables, now), LeaseLost);
    db.tables := db.tables.(assignments := Unassign(db.tables.assignments, ExpiredClaims(db.tables, now)));
    db.tables := db.tables.(receipts := MoveReceipts(db.tables.receipts, ExpiredClaims(db.tables, now), RecoveringReceipt));
    db.tables := db.tables.(claims := MoveClaims(db.tables.claims, ExpiredClaims(db.tables, now), RecoveringClaim));
  }

  function ActiveReceipts(t: Tables): set<string> {
    set c | c in t.receipts && t.receipts[c].state == ActiveReceipt
  }

  /** The receipts this routine selects by their own state are those of the active claims. */
  lemma ActiveReceiptsAreClaims(t: Tables)
    requires ClaimsOk(t.receipts, t.claims, t.demands)
    ensures ActiveReceipts(t) == ActiveClaims(t)
  {
    forall c | c in t.claims ensures c in t.receipts && t.receipts[c].state == ReceiptOf(t.claims[c].state) {
      assert ClaimRow(t.claims[c], t.receipts[c], t.demands[t.claims[c].demandId]);
    }
  }

  method FenceRestartedClaims(db: Database)
    requires ClaimsOk(db.tables.receipts, db.tables.claims, db.tables.demands) && ReceiptKeysOk(db.tables.receipts)
    requires FencesOk(db.tables.claims, db.tables.fences)
    modifies db
    ensures db.tables == Fence(old(db.tables), ActiveClaims(old(db.tables)), ServiceRestart)
  {
    hide ClaimsOk, ReceiptKeysOk, FencesOk, NewFences;
    ActiveReceiptsAreClaims(db.tables);
    InsertOrIgnoreFences(db, ActiveClaims(db.tables), ServiceRestart);
    db.tables := db.tables.(assignments := Unassign(db.tables.assignments, ActiveClaims(db.tables)));
    db.tables := db.tables.(claims := MoveClaims(db.tables.claims, ActiveClaims(db.tables), RecoveringClaim));
    db.tables := db.tables.(receipts := MoveReceipts(db.tables.receipts, ActiveReceipts(db.tables), RecoveringReceipt));
  }

  // ---- nativeOrdinaryResultStore.ts, as far as admissions end reports ----

  /** `#completeInTransaction` for a report that is denied because its admission ended. */
  method DenyReport(db: Database, c: string) returns (done: bool)
    modifies db
    ensures done == MayComplete(old(db.tables), c)
    ensures db.tables == CompleteReport(old(db.tables), c, false)
  {
    done := MayComplete(db.tables, c);
    if !done { return; }
    ghost var t := db.tables;
    db.tables := db.tables.(outbox := EndOutbox(db.tables.outbox, {c}, Denied));
    db.tables := db.tables.(claims := MoveClaims(db.tables.claims, {c}, ReleasedClaim));
    db.tables := db.tables.(receipts := MoveReceipts(db.tables.receipts, {c}, ReleasedReceipt));
    db.tables := db.tables.(demands := MoveDemands(db.tables.demands, DemandsOfClaims(db.tables, {c}), Failed));
    db.tables := db.tables.(inbox := EndInbox(db.tables.inbox, EventsOfClaims(db.tables, {c})));
    db.tables := db.tables.(assignments := Unassign(db.tables.assignments, {c}), fences := Unfence(db.tables.fences, {c}));
    assert DemandsOfClaims(db.tables, {c}) == DemandsOfClaims(t, {c});
    assert EventsOfClaims(db.tables, {c}) == EventsOfClaims(t, {c});
  }

  lemma MovesJoin(t: Tables, a: set<string>, b: set<string>, cs: ClaimState, rs: ReceiptState)
    ensures MoveClaims(MoveClaims(t.claims, a, cs), b, cs) == MoveClaims(t.claims, a + b, cs)
    ensures MoveReceipts(MoveReceipts(t.receipts, a, rs), b, rs) == MoveReceipts(t.receipts, a + b, rs)
  {
  }

  lemma MoveDemandsJoin(demands: map<string, Demand>, a: set<string>, b: set<string>, ds: DemandState)
    ensures MoveDemands(MoveDemands(demands, a, ds), b, ds) == MoveDemands(demands, a + b, ds)
  {
  }

  lemma EndsJoin(t: Tables, a: set<string>, b: set<string>, ids: set<string>, ids': set<string>)
    ensures EndInbox(EndInbox(t.inbox, a), b) == EndInbox(t.inbox, a + b)
    ensures EndOutbox(EndOutbox(t.outbox, ids, Denied), ids', Denied) == EndOutbox(t.outbox, ids + ids', Denied)
    ensures Unassign(Unassign(t.assignments, ids), ids') == Unassign(t.assignments, ids + ids')
    ensures Unfence(Unfence(t.fences, ids), ids') == Unfence(t.fences, ids + ids')
  {
  }

  lemma FinishStep(t: Tables, done: set<string>, c: string)
    requires c in t.claims && done <= t.claims.Keys
    ensures Finish(Finish(t, done, false), {c}, false) == Finish(t, done + {c}, false)
  {
    hide MoveReceipts, MoveDemands, EndInbox, EndOutbox, Unassign, Unfence;
    var t' := Finish(t, done, false);
    assert DemandsOfClaims(t', {c}) == DemandsOfClaims(t, {c}) && EventsOfClaims(t', {c}) == EventsOfClaims(t, {c});
    assert DemandsOfClaims(t, done + {c}) == DemandsOfClaims(t, done) + DemandsOfClaims(t, {c});
    assert EventsOfClaims(t, done + {c}) == EventsOfClaims(t, done) + EventsOfClaims(t, {c});
    MovesJoin(t, done, {c}, ReleasedClaim, ReleasedReceipt);
    MoveDemandsJoin(t.demands, DemandsOfClaims(t, done), DemandsOfClaims(t, {c}), Failed);
    EndsJoin(t, EventsOfClaims(t, done), EventsOfClaims(t, {c}), done, {c});
  }

  lemma FinishNone(t: Tables)
    ensures Finish(t, {}, false) == t
  {
  }

  method DenyGeneration(db: Database, g: string)
    requires OutboxOk(db.tables.claims, db.tables.results, db.tables.outbox)
    modifies db
    ensures db.tables == Finish(old(db.tables), GenerationClaims(old(db.tables), {g}, ReportedClaim), false)
  {
    ghost var t := db.tables;
    var rows := GenerationClaims(db.tables, {g}, ReportedClaim);
    var todo := rows;
    FinishNone(t);
    assert rows - todo == {};
    while todo != {}
      invariant todo <= rows
      invariant db.tables == Finish(t, rows - todo, false)
      decreases |todo|
    {
      var c :| c in todo;
      assert MayComplete(db.tables, c);
      var done := DenyReport(db, c);
      FinishStep(t, rows - todo, c);
      assert rows - (todo - {c}) == rows - todo + {c};
      todo := todo - {c};
    }
    assert rows - todo == rows;
  }

  // ---- nativeOrdinaryAuthorityStore.ts ----

  lemma RetireFinishCommute(t: Tables, ids: set<string>, generations: set<string>, state: AdmissionState)
    ensures Finish(Retire(t, generations, state), ids, false) == Retire(Finish(t, ids, false), generations, state)
  {
    hide MoveClaims, MoveReceipts, EndInbox, EndOutbox, Unassign, Unfence;
    var r := Retire(t, generations, state);
    assert DemandsOfClaims(r, ids) == DemandsOfClaims(t, ids) && EventsOfClaims(r, ids) == EventsOfClaims(t, ids);
    RetireMoveCommute(t, DemandsOfClaims(t, ids), generations, state);
  }

  lemma RetireMoveCommute(t: Tables, ds: set<string>, generations: set<string>, state: AdmissionState)
    ensures MoveDemands(Retire(t, generations, state).demands, ds, Failed)
         == Retire(t.(demands := MoveDemands(t.demands, ds, Failed)), generations, state).demands
  {
  }

  /** `#invalidateGeneration` ends the admission first; the order does not matter. */
  method InvalidateGeneration(db: Database, g: string, state: AdmissionState)
    requires Inv(db.tables) && state != Admitted
    modifies db
    ensures db.tables == Invalidate(old(db.tables), {g}, state) && Inv(db.tables)
  {
    hide InboxOk, DemandsOk, QueueOk, ReceiptsOk, ReceiptKeysOk, HoldersOk, ClaimsOk, AttemptsOk, ClaimAuthorityOk,
      EpochsOk, AdmissionsOk, AssignmentsOk, FencesOk, OutboxOk, ResultsOk, LimitsOk, MoveClaims, MoveReceipts,
      MoveDemands, EndInbox,
      EndOutbox, Unassign, Unfence, NewFences;
    ghost var t := db.tables;
    InvalidateKeepsInv(t, {g}, state);
    db.tables := db.tables.(admissions := Retire(db.tables, {g}, state).admissions);
    db.tables := db.tables.(demands := Retire(db.tables, {g}, state).demands);
    assert db.tables == Retire(t, {g}, state);
    DenyGeneration(db, g);
    ghost var reported := GenerationClaims(t, {g}, ReportedClaim);
    ghost var denied := Finish(t, reported, false);
    RetireFinishCommute(t, reported, {g}, state);
    FinishKeepsInv(t, reported, false);
    RetireKeepsClaims(denied, {g}, state);
    assert GenerationClaims(Retire(t, {g}, state), {g}, ReportedClaim) == reported;
    assert db.tables == Retire(denied, {g}, state);
    FenceGenerationClaims(db, g);
  }

  /** `#expireInTransaction` */
  method ExpireInTransaction(db: Database, i: Instance, now: int)
    requires Inv(db.tables)
    modifies db
    ensures db.tables == Expire(old(db.tables), i, now) && Inv(db.tables)
  {
    hide Inv, Invalidate, Fence;
    ghost var t := db.tables;
    InvFencing(t);
    FenceExpiredClaims(db, now);
    FenceKeepsInv(t, ExpiredClaims(t, now), LeaseLost);
    ghost var fenced := db.tables;
    var stale := ForeignGenerations(db.tables, i.capacityDigest);
    var todo := stale;
    assert stale - todo == {};
    InvalidateNone(fenced, Replaced);
    while todo != {}
      invariant todo <= stale && Inv(db.tables)
      invariant db.tables == Invalidate(fenced, stale - todo, Replaced)
      decreases |todo|
    {
      var g :| g in todo;
      InvalidateStep(fenced, stale - todo, g, Replaced);
      InvalidateGeneration(db, g, Replaced);
      assert stale - (todo - {g}) == stale - todo + {g};
      todo := todo - {g};
    }
    assert stale - todo == stale;
  }

  lemma InvFencing(t: Tables)
    requires Inv(t)
    ensures ClaimsOk(t.receipts, t.claims, t.demands) && ReceiptKeysOk(t.receipts) && FencesOk(t.claims, t.fences)
  {
  }

  /** `#beginEpochAndExpire` */
  method BeginEpochAndExpire(db: Database, i: Instance, now: int) returns (error: Option<StoreError>)
    requires Inv(db.tables)
    modifies db
    ensures Txn(db.tables, error) == Open(old(db.tables), i, now)
  {
    hide Inv, Fence, Expire;
    var begun := db.tables;
    db.tables := db.tables.(epochs := map e | e in db.tables.epochs :: false);
    InvFencing(begun);
    FenceRestartedClaims(db);
    FenceKeepsEpochs(begun);
    var ok := db.InsertEpoch(i.epochId);
    if !ok {
      db.Rollback(begun);
      return Some(ConstraintViolation);
    }
    assert db.tables == BeginEpoch(begun, i.epochId);
    BeginEpochKeepsInv(begun, i.epochId);
    ExpireInTransaction(db, i, now);
    error := None;
  }

  lemma FenceKeepsEpochs(t: Tables)
    ensures var ended := t.(epochs := map e | e in t.epochs :: false);
      Fence(ended, ActiveClaims(ended), ServiceRestart)
        == Fence(t, ActiveClaims(t), ServiceRestart).(epochs := map e | e in t.epochs :: false)
  {
  }

  /** The active admission of a repository, as `SELECT ... WHERE state = 'active'` finds it. */
  method SelectActiveGeneration(db: Database, projectId: string,
      repositoryId: string) returns (existing: Option<string>)
    requires Inv(db.tables)
    ensures existing == ActiveGeneration(db.tables, projectId, repositoryId)
  {
    hide InboxOk, DemandsOk, QueueOk, ReceiptsOk, ReceiptKeysOk, HoldersOk, ClaimsOk, AttemptsOk, ClaimAuthorityOk,
      EpochsOk, AssignmentsOk, FencesOk, OutboxOk, ResultsOk, LimitsOk;
    var t := db.tables;
    if g :| && g in t.admissions && t.admissions[g].Active() && t.admissions[g].policy.projectId == projectId
            && t.admissions[g].policy.repositoryId == repositoryId {
      assert ActiveFor(t, g, projectId, repositoryId);
      ActiveForUnique(t, g, ActiveGeneration(t, projectId, repositoryId).value, projectId, repositoryId);
      return Some(g);
    }
    return None;
  }

  lemma ClearedAllowsInsert(t: Tables, existing: Option<string>, g: string, a: Admission)
    requires AdmissionsOk(t.admissions) && existing == ActiveGeneration(t, a.policy.projectId, a.policy.repositoryId)
    ensures CanInsertAdmission(Cleared(t, existing), g, a) <==> g !in Cleared(t, existing).admissions
  {
    hide Cleared;
    ClearedFrees(t, a.policy.projectId, a.policy.repositoryId);
    var t' := Cleared(t, existing);
    forall g' | g' in t'.admissions && t'.admissions[g'].Active() && t'.admissions[g'].policy.projectId == a.policy.projectId
      ensures t'.admissions[g'].policy.repositoryId != a.policy.repositoryId
    {
      assert !ActiveFor(t', g', a.policy.projectId, a.policy.repositoryId);
    }
  }

  class NativeOrdinaryAuthorityStore {
    const database: Database
    const options: Instance

    constructor (database: Database, options: Instance)
      ensures this.database == database && this.options == options
    {
      this.database := database;
      this.options := options;
    }

    method Admit(policy: Policy, now: int, uuid: string) returns (reply: Result<string, StoreError>)
      requires Inv(database.tables)
      modifies database
      ensures Txn(database.tables, reply) == AuthoritySteps.Admit(old(database.tables), options, policy, now, uuid)
      ensures Inv(database.tables)
    {
      hide InboxOk, DemandsOk, QueueOk, ReceiptsOk, ReceiptKeysOk, HoldersOk, ClaimsOk, AttemptsOk, ClaimAuthorityOk,
        EpochsOk, AdmissionsOk, AssignmentsOk, FencesOk, OutboxOk, ResultsOk, LimitsOk, Expire, Invalidate,
        CanInsertAdmission, ActiveGeneration;
      var begun := database.tables;
      AdmitKeepsInv(begun, options, policy, now, uuid);
      ExpireInTransaction(database, options, now);
      var swept := database.tables;
      var existing := SelectActiveGeneration(database, policy.projectId, policy.repositoryId);
      if Reusable(swept, options, policy, existing) {
        database.tables := swept.(admissions :=
          swept.admissions[existing.value :=
            swept.admissions[existing.value].(policy := policy, expiresAt := now + options.admissionLease)]);
        return Success(existing.value);
      }
      if existing.Some? { InvalidateGeneration(database, existing.value, Replaced); }
      var admission := Admission(policy, options.serviceId, options.capacityDigest, now + options.admissionLease,
        Admitted);
      ClearedAllowsInsert(swept, existing, uuid, admission);
      var ok := database.InsertAdmission(uuid, admission);
      if !ok {
        database.Rollback(begun);
        return Failure(ConstraintViolation);
      }
      reply := Success(uuid);
    }

    method Revoke(projectId: string, repositoryId: string, g: string, now: int) returns (reply: bool)
      requires Inv(database.tables)
      modifies database
      ensures Txn(database.tables, reply) == AuthoritySteps.Revoke(old(database.tables), options, projectId, repositoryId, g, now)
      ensures Inv(database.tables)
    {
      hide Inv, Expire, Invalidate;
      var begun := database.tables;
      ExpireInTransaction(database, options, now);
      var swept := database.tables;
      reply := g in swept.admissions && swept.admissions[g].Active()
        && swept.admissions[g].policy.projectId == projectId && swept.admissions[g].policy.repositoryId == repositoryId;
      if !reply {
        database.Rollback(begun);
        return;
      }
      InvalidateGeneration(database, g, Revoked);
    }
  }

  // ---- nativeOrdinaryEventStore.ts ----

  lemma AdmissionForUnique(t: Tables, i: Instance, event: Event, g: string)
    requires AdmissionsOk(t.admissions) && Admits(t, i, event, g)
    ensures AdmissionFor(t, i, event) == Some(g)
  {
  }

  /** Nothing stands in the way of the rows of a new event except a colliding demand id. */
  lemma IntakeInserts(t: Tables, event: Event, generation: string, now: int, d: string)
    requires InboxOk(t.eventFences, t.inbox, t.demands) && DemandsOk(t.tupleFences, t.inbox, t.demands)
    requires event.eventId !in t.eventFences && event.Job() !in t.tupleFences && generation in t.admissions
    ensures var t1 := t.(eventFences := t.eventFences[event.eventId := event], tupleFences := t.tupleFences[event.Job() := event.Tuple()]);
            var t2 := t1.(inbox := t.inbox[event.eventId := InboxRow(event, None, false)]);
            var t3 := t2.(demands := t.demands[d := Demand(event, generation, Queued, now)]);
      && CanInsertInbox(t1, event.eventId, InboxRow(event, None, false))
      && (CanInsertDemand(t2, d, Demand(event, generation, Queued, now)) <==> d !in t.demands)
      && (d !in t.demands ==> CanLinkInbox(t3, event.eventId, d))
  {
    NewEventIsAlone(t, event, d);
    hide InboxOk, DemandsOk;
  }

  /** No inbox row or demand speaks of an event that is new, nor links to a demand that does not exist. */
  lemma NewEventIsAlone(t: Tables, event: Event, d: string)
    requires InboxOk(t.eventFences, t.inbox, t.demands) && DemandsOk(t.tupleFences, t.inbox, t.demands)
    requires event.eventId !in t.eventFences && event.Job() !in t.tupleFences
    ensures event.eventId !in t.inbox
    ensures forall e :: e in t.inbox ==> t.inbox[e].event.eventId == e && (t.inbox[e].demandId == Some(d) ==> d in t.demands)
    ensures forall k :: k in t.demands ==> t.demands[k].event.eventId != event.eventId && t.demands[k].event.Job() != event.Job()
  {
  }

  class NativeOrdinaryEventStore {
    const database: Database
    const options: Instance

    constructor (database: Database, options: Instance)
      ensures this.database == database && this.options == options
    {
      this.database := database;
      this.options := options;
    }

    method CheckReplay(event: Event) returns (reply: Intake)
      modifies database
      ensures Txn(database.tables, reply) == AuthoritySteps.CheckReplay(old(database.tables), event)
    {
      var t := database.tables;
      if event.eventId in t.eventFences {
        return if t.eventFences[event.eventId] == event then Accepted else New;
      }
      if event.Job() in t.tupleFences {
        if t.tupleFences[event.Job()] != event.Tuple() { return New; }
        if |t.eventFences| >= REPLAY_FENCE_LIMIT { return Full; }
        var ok := database.InsertEventFence(event);
        return Accepted;
      }
      reply := New;
    }

    /** `replayInTransaction` */
    method ReplayInTransaction(event: Event) returns (reply: Intake)
      modifies database
      ensures Txn(database.tables, reply) == Replay(old(database.tables), event)
    {
      var t := database.tables;
      if event.eventId in t.eventFences {
        return if t.eventFences[event.eventId] == event then Accepted else IntakeConflict;
      }
      if event.Job() !in t.tupleFences { return New; }
      if t.tupleFences[event.Job()] != event.Tuple() { return IntakeConflict; }
      if |t.eventFences| >= REPLAY_FENCE_LIMIT { return Full; }
      var ok := database.InsertEventFence(event);
      reply := Accepted;
    }

    /** `insertAccepted`: five statements, of which only the demand's random id can clash. */
    method InsertAcceptedRows(event: Event, generation: string, now: int, demandId: string) returns (ok: bool)
      requires Inv(database.tables) && generation in database.tables.admissions
      requires event.eventId !in database.tables.eventFences && event.Job() !in database.tables.tupleFences
      modifies database
      ensures ok == (demandId !in old(database.tables.demands))
      ensures ok ==> database.tables == InsertAccepted(old(database.tables), event, generation, now, demandId)
    {
      hide QueueOk, ReceiptsOk, ReceiptKeysOk, HoldersOk, ClaimsOk, AttemptsOk, ClaimAuthorityOk, InboxOk, DemandsOk,
        EpochsOk, AdmissionsOk, AssignmentsOk, FencesOk, OutboxOk, ResultsOk, LimitsOk, CanInsertInbox,
        CanInsertDemand, CanLinkInbox, MeetsSchema;
      IntakeInserts(database.tables, event, generation, now, demandId);
      ok := database.InsertEventFence(event);
      if !ok { return; }
      ok := database.InsertTupleFence(event);
      if !ok { return; }
      ok := database.InsertInbox(event.eventId, InboxRow(event, None, false));
      if !ok { return; }
      ok := database.InsertDemand(demandId, Demand(event, generation, Queued, now));
      if !ok { return; }
      ok := database.LinkInbox(event.eventId, demandId);
    }

    method Accept(event: Event, now: int, uuid: string) returns (reply: Intake)
      requires Inv(database.tables)
      modifies database
      ensures Txn(database.tables, reply) == AuthoritySteps.Accept(old(database.tables), options, event, now, uuid)
      ensures Inv(database.tables)
    {
      hide InboxOk, DemandsOk, QueueOk, ReceiptsOk, ReceiptKeysOk, HoldersOk, ClaimsOk, AttemptsOk, ClaimAuthorityOk,
        EpochsOk, AdmissionsOk, AssignmentsOk, FencesOk, OutboxOk, ResultsOk, LimitsOk, InsertAccepted,
        NonterminalDemands, AdmissionFor;
      var begun := database.tables;
      AcceptKeepsInv(begun, options, event, now, uuid);
      var replay := ReplayInTransaction(event);
      if replay != New { return replay; }
      var admission := SelectAdmission(event);
      if admission.None? || begun.admissions[admission.value].expiresAt <= now { return NotFound; }
      if |begun.eventFences| >= REPLAY_FENCE_LIMIT || |begun.tupleFences| >= REPLAY_FENCE_LIMIT
         || |NonterminalDemands(begun.demands)| >= NONTERMINAL_DEMAND_LIMIT { return Full; }
      var ok := InsertAcceptedRows(event, admission.value, now, uuid);
      if !ok {
        database.Rollback(begun);
        return IntakeFailed(ConstraintViolation);
      }
      reply := Accepted;
    }

    method SelectAdmission(event: Event) returns (admission: Option<string>)
      requires Inv(database.tables)
      ensures admission == AdmissionFor(database.tables, options, event)
      ensures admission.Some? ==> Admits(database.tables, options, event, admission.value)
    {
      hide InboxOk, DemandsOk, QueueOk, ReceiptsOk, ReceiptKeysOk, HoldersOk, ClaimsOk, AttemptsOk, ClaimAuthorityOk,
        EpochsOk, AssignmentsOk, FencesOk, OutboxOk, ResultsOk, LimitsOk;
      var t := database.tables;
      if g :| g in t.admissions && AdmitsEvent(t.admissions[g], options, event) {
        AdmissionForUnique(t, options, event, g);
        return Some(g);
      }
      assert forall g :: !Admits(t, options, event, g);
      return None;
    }
  }

  // ---- nativeOrdinaryClaimStore.ts ----

  lemma ReceiptForUnique(t: Tables, r: Request, c: string)
    requires ReceiptKeysOk(t.receipts) && IsReceiptOf(t, r, c)
    ensures ReceiptFor(t, r) == Some(c)
  {
  }

  /** A receipt for a first request on a free capacity can be inserted unless its random id collides. */
  lemma ReceiptInserts(t: Tables, r: Request, c: string, d: string)
    requires ReceiptsOk(t.receipts, t.demands) && QueueOk(t.admissions, t.demands) && ReceiptFor(t, r).None?
    ensures CanInsertReceipt(t, c, Receipt(r.slot, r.requestId, None, None, EmptyReceipt)) <==> c !in t.receipts
    ensures d in t.demands && t.demands[d].state == Queued ==>
      (CanInsertReceipt(t, c, Receipt(r.slot, r.requestId, Some(d), Some(t.demands[d].generation), PreparingReceipt)) <==> c !in t.receipts)
  {
    assert forall c' :: c' in t.receipts && t.receipts[c'].slot == r.slot && t.receipts[c'].requestId == r.requestId ==>
      IsReceiptOf(t, r, c');
  }

  /** The claim and assignment rows of an activation can be inserted unless the attempt id is already used. */
  lemma ActivationInserts(t: Tables, c: string, claim: Claim)
    requires ReceiptsOk(t.receipts, t.demands) && ReceiptKeysOk(t.receipts) && ClaimsOk(t.receipts, t.claims, t.demands)
    requires AssignmentsOk(t.claims, t.assignments) && DemandsOk(t.tupleFences, t.inbox, t.demands)
    requires InboxOk(t.eventFences, t.inbox, t.demands)
    requires c in t.receipts && t.receipts[c].state == PreparingReceipt
    requires t.receipts[c].demandId == Some(claim.demandId)
    requires claim.demandId in t.demands && t.demands[claim.demandId].event.Job() == claim.job
    requires t.demands[claim.demandId].event.eventId == claim.eventId
    requires claim.generation in t.admissions && claim.epochId in t.epochs && claim.state == ActiveClaim
    ensures CanInsertClaim(t, c, claim) <==> !AttemptUsed(t, claim.attemptId)
    ensures !AttemptUsed(t, claim.attemptId) ==> CanInsertAssignment(t.(claims := t.claims[c := claim]), claim.job, AssignmentOf(c, claim))
  {
    hide DemandsOk, InboxOk, ClaimsOk, ReceiptsOk, AssignmentsOk, ReceiptKeysOk;
    PreparingDemand(t, c);
    PreparingUnassigned(t, claim.demandId);
    EventOfPreparing(t, claim.demandId);
    OwnDemand(t, c, claim.demandId);
    AssignedAttempts(t);
  }

  lemma OwnDemand(t: Tables, c: string, d: string)
    requires ReceiptKeysOk(t.receipts) && ClaimsOk(t.receipts, t.claims, t.demands)
    requires c in t.receipts && c !in t.claims && t.receipts[c].demandId == Some(d)
    ensures forall c' :: c' in t.claims ==> t.claims[c'].demandId != d
  {
    hide ClaimsOk;
    forall c' | c' in t.claims ensures t.claims[c'].demandId != d { RowOfClaim(t.receipts, t.claims, t.demands, c'); }
  }

  lemma AssignedAttempts(t: Tables)
    requires AssignmentsOk(t.claims, t.assignments)
    ensures forall k :: k in t.assignments ==>
      t.assignments[k].claimId in t.claims && t.assignments[k].attemptId == t.claims[t.assignments[k].claimId].attemptId
  {
  }

  lemma EventOfPreparing(t: Tables, d: string)
    requires DemandsOk(t.tupleFences, t.inbox, t.demands) && d in t.demands
    ensures t.demands[d].event.eventId in t.inbox
  {
  }

  class NativeOrdinaryClaimStore {
    const database: Database
    const options: Instance

    constructor (database: Database, options: Instance)
      ensures this.database == database && this.options == options
    {
      this.database := database;
      this.options := options;
    }

    /** `ORDER BY created_at, demand_id LIMIT 1` over the eligible demands. */
    method SelectOldest(now: int) returns (oldest: Option<string>)
      ensures oldest.Some? ==> IsOldest(database.tables, options, now, oldest.value)
      ensures oldest.None? ==> forall d :: !Eligible(database.tables, options, now, d)
    {
      var t := database.tables;
      var eligible := set d | d in t.demands && Eligible(t, options, now, d);
      var todo := eligible;
      oldest := None;
      while todo != {}
        invariant todo <= eligible
        invariant oldest.None? ==> todo == eligible
        invariant oldest.Some? ==> oldest.value in eligible - todo
        invariant oldest.Some? ==> forall d :: d in eligible - todo && d != oldest.value ==> Older(t, oldest.value, d)
        decreases |todo|
      {
        var d :| d in todo;
        if oldest.None? || Older(t, d, oldest.value) {
          if oldest.Some? {
            forall x | x in eligible - todo && x != oldest.value
              ensures Older(t, d, x)
            {
              OlderTransitive(t, d, oldest.value, x);
            }
          }
          oldest := Some(d);
        } else {
          BeforeTotal(d, oldest.value);
        }
        todo := todo - {d};
      }
      assert forall d :: Eligible(t, options, now, d) ==> d in eligible;
    }

    /** The receipt of a request, as `SELECT` finds it by its unique key. */
    method SelectReceipt(r: Request) returns (existing: Option<string>)
      requires ReceiptKeysOk(database.tables.receipts)
      ensures existing == ReceiptFor(database.tables, r)
      ensures existing.Some? ==> existing.value in database.tables.receipts
    {
      var t := database.tables;
      if c :| c in t.receipts && t.receipts[c].slot == r.slot && t.receipts[c].requestId == r.requestId {
        ReceiptForUnique(t, r, c);
        return Some(c);
      }
      assert forall c :: !IsReceiptOf(t, r, c);
      return None;
    }

    method Reserve(r: Request, now: int, uuid: string) returns (reply: Reservation)
      requires Inv(database.tables)
      modifies database
      ensures Txn(database.tables, reply) == AuthoritySteps.Reserve(old(database.tables), options, r, now, uuid)
      ensures Inv(database.tables)
    {
      hide InboxOk, DemandsOk, QueueOk, ReceiptsOk, ReceiptKeysOk, HoldersOk, ClaimsOk, AttemptsOk, ClaimAuthorityOk,
        EpochsOk, AdmissionsOk, AssignmentsOk, FencesOk, OutboxOk, ResultsOk, LimitsOk, ReceiptFor, ReserveNew,
        Existing, SlotBusy, LoadActive;
      ReserveKeepsInv(database.tables, options, r, now, uuid);
      if r.slot !in options.capacities { return ReserveConflict; }
      var capacity := options.capacities[r.slot];
      if !OwnsActiveEpoch(database.tables, options) { return ReserveFailed(StaleAuthority); }
      var existing := SelectReceipt(r);
      if existing.Some? { return Existing(database.tables, options, capacity, existing.value); }
      if SlotBusy(database.tables, r.slot) { return ReserveConflict; }
      reply := ReserveOldest(r, capacity, now, uuid);
    }

    /** The rest of `reserve`, once the request is known to be new and its capacity free. */
    method ReserveOldest(r: Request, capacity: CapacityPolicy, now: int, uuid: string) returns (reply: Reservation)
      requires Inv(database.tables) && ReceiptFor(database.tables, r).None?
      modifies database
      ensures Txn(database.tables, reply) == ReserveNew(old(database.tables), options, r, capacity, now, uuid)
    {
      hide InboxOk, DemandsOk, QueueOk, ReceiptsOk, ReceiptKeysOk, HoldersOk, ClaimsOk, AttemptsOk, ClaimAuthorityOk,
        EpochsOk, AdmissionsOk, AssignmentsOk, FencesOk, OutboxOk, ResultsOk, LimitsOk, ReceiptFor, CanInsertReceipt;
      var begun := database.tables;
      var oldest := SelectOldest(now);
      var d := if oldest.Some? then oldest.value else "";
      ReceiptInserts(begun, r, uuid, d);
      var row := if oldest.Some? then Receipt(r.slot, r.requestId, Some(d), Some(begun.demands[d].generation), PreparingReceipt)
                 else Receipt(r.slot, r.requestId, None, None, EmptyReceipt);
      var ok := database.InsertReceipt(uuid, row);
      if !ok {
        database.Rollback(begun);
        return ReserveFailed(ConstraintViolation);
      }
      if oldest.None? { return NothingQueued; }
      forall d' | IsOldest(begun, options, now, d') ensures d' == d { OldestUnique(begun, options, now, d', d); }
      database.tables := database.tables.(demands := database.tables.demands[d := database.tables.demands[d].(state := Preparing)]);
      reply := Prepared(uuid, options.epochId, begun.inbox[begun.demands[d].event.eventId].event, begun.demands[d].generation, capacity);
    }

    /** `activate`, for a reservation that `reserve` handed out. */
    method Activate(q: Request, r: Reservation, p: Proof, now: int) returns (reply: Activation)
      requires Inv(database.tables) && Genuine(database.tables, r)
      modifies database
      ensures Txn(database.tables, reply) == AuthoritySteps.Activate(old(database.tables), options, q, r, p, now)
      ensures Inv(database.tables)
    {
      hide InboxOk, DemandsOk, QueueOk, ReceiptsOk, ReceiptKeysOk, HoldersOk, ClaimsOk, AttemptsOk, ClaimAuthorityOk,
        EpochsOk, AdmissionsOk, AssignmentsOk, FencesOk, OutboxOk, ResultsOk, LimitsOk, CanInsertClaim,
        CanInsertAssignment,
        AttemptUsed, DescriptorMatchesPolicy;
      var begun := database.tables;
      ActivateKeepsInv(begun, options, q, r, p, now);
      if !OwnsActiveEpoch(begun, options) { return ActivateFailed(StaleAuthority); }
      if r.claimId in begun.receipts && begun.receipts[r.claimId].slot == q.slot
         && begun.receipts[r.claimId].requestId == q.requestId && begun.receipts[r.claimId].state == ActiveReceipt {
        var loaded := LoadActive(begun, r.claimId);
        return if loaded.Success? then Activated(r.claimId, loaded.value) else ActivateFailed(loaded.error);
      }
      if !MayActivate(begun, options, q, r, p, now) { return ActivateConflict; }
      var claim := NewClaim(options, q, r, p, begun.receipts[r.claimId].demandId.value, now);
      ActivationInserts(begun, r.claimId, claim);
      var ok := database.InsertClaim(r.claimId, claim);
      if ok { ok := database.InsertAssignment(claim.job, AssignmentOf(r.claimId, claim)); }
      if !ok {
        database.Rollback(begun);
        return ActivateFailed(ConstraintViolation);
      }
      database.tables := database.tables.(receipts :=
        database.tables.receipts[r.claimId := database.tables.receipts[r.claimId].(state := ActiveReceipt)]);
      database.tables := database.tables.(demands :=
        database.tables.demands[claim.demandId := database.tables.demands[claim.demandId].(state := Claimed)]);
      var loaded := LoadActive(database.tables, r.claimId);
      if loaded.Failure? {
        database.Rollback(begun);
        return ActivateFailed(loaded.error);
      }
      reply := Activated(r.claimId, loaded.value);
    }

    method ReleaseStale(q: Request, c: string)
      requires Inv(database.tables)
      modifies database
      ensures database.tables == AuthoritySteps.ReleaseStale(old(database.tables), q, c)
      ensures Inv(database.tables)
    {
      hide Inv, ClaimsOk, ReceiptsOk;
      var t := database.tables;
      ReleaseStaleKeepsInv(t, q, c);
      InvFencing(t);
      if c in t.receipts && t.receipts[c].slot == q.slot && t.receipts[c].requestId == q.requestId
         && t.receipts[c].state == PreparingReceipt && t.receipts[c].demandId.Some? {
        var d := t.receipts[c].demandId.value;
        PreparingHeld(t, c);
        database.tables := database.tables.(demands := t.demands[d := t.demands[d].(state := Superseded)]);
        database.tables := database.tables.(receipts := t.receipts[c := t.receipts[c].(state := ReleasedReceipt)]);
      }
    }

    /** `active`: the claim a host may still work on. */
    method Active(hostId: string, c: string, now: int) returns (claim: Option<Claim>)
      requires Inv(database.tables)
      ensures claim.Some? <==> var t := database.tables;
        && c in t.claims && t.claims[c].state == ActiveClaim && t.claims[c].slot.hostId == hostId
        && t.claims[c].leaseExpiresAt > now && t.claims[c].epochId == options.epochId
      ensures claim.Some? ==> claim.value == database.tables.claims[c] && OwnsActiveEpoch(database.tables, options)
    {
      hide InboxOk, DemandsOk, QueueOk, ReceiptsOk, ReceiptKeysOk, HoldersOk, AttemptsOk,
        EpochsOk, AdmissionsOk, AssignmentsOk, FencesOk, OutboxOk, ResultsOk, LimitsOk;
      var t := database.tables;
      if c in t.claims { assert ClaimRow(t.claims[c], t.receipts[c], t.demands[t.claims[c].demandId]); }
      if c in t.receipts && c in t.claims && t.claims[c].epochId in t.epochs
         && t.receipts[c].slot.hostId == hostId && t.receipts[c].state == ActiveReceipt
         && t.claims[c].state == ActiveClaim && t.claims[c].leaseExpiresAt > now
         && t.claims[c].epochId == options.epochId && t.epochs[t.claims[c].epochId] {
        var loaded := LoadActive(t, c);
        return if loaded.Success? then Some(loaded.value) else None;
      }
      return None;
    }
  }

  lemma PreparingHeld(t: Tables, c: string)
    requires Inv(t) && c in t.receipts && t.receipts[c].state == PreparingReceipt
    ensures t.receipts[c].demandId.Some? && t.receipts[c].demandId.value in t.demands
  {
    hide InboxOk, DemandsOk, QueueOk, ReceiptKeysOk, HoldersOk, ClaimsOk, AttemptsOk, ClaimAuthorityOk,
      EpochsOk, AdmissionsOk, AssignmentsOk, FencesOk, OutboxOk, ResultsOk, LimitsOk;
  }
}
