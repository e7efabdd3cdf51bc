/**
 Runs of any number of authority instances over one database. Each step is one transaction of
 one instance, chosen freely: an instance may belong to an epoch that has ended, clocks need not
 advance, random ids may collide. Only `activate` is restricted, to reservations that were handed out.
 */
module AuthorityRuns {
  import opened AuthorityTables
  import opened AuthoritySteps
  import opened AuthorityInvariant
  import opened AuthorityHistory

  /** The database and every reservation handed out so far. */
  datatype World = World(tables: Tables, issued: set<Reservation>)

  const START := World(EMPTY_TABLES, {})

  datatype Step =
    | OpenStep(i: Instance, now: int)
    | ExpireStep(i: Instance, now: int)
    | AdmitStep(i: Instance, policy: Policy, now: int, uuid: string)
    | RevokeStep(i: Instance, projectId: string, repositoryId: string, generation: string, now: int)
    | CheckReplayStep(event: Event)
    | AcceptStep(i: Instance, event: Event, now: int, uuid: string)
    | ReserveStep(i: Instance, request: Request, now: int, uuid: string)
    | ActivateStep(i: Instance, request: Request, reservation: Reservation, proof: Proof, now: int)
    | ReleaseStaleStep(request: Request, claimId: string)
    | RenewStep(i: Instance, hostRequest: HostRequest, now: int)
    | PrepareRecoveryStep(i: Instance, hostRequest: HostRequest, resourceId: string)
    | CompleteRecoveryStep(i: Instance, hostRequest: HostRequest, resourceId: string, revocation: Revocation)
    | ResultStep(i: Instance, hostId: string, result: ResultRequest, now: int)
    | CompleteReportStep(claimId: string, delivered: bool)
    | MarkReportStep(claimId: string, delivering: bool)

  ghost function NextTables(w: World, s: Step): Tables {
    var t := w.tables;
    match s
    case OpenStep(i, now) => Open(t, i, now).tables
    case ExpireStep(i, now) => Expire(t, i, now)
    case AdmitStep(i, policy, now, uuid) => Admit(t, i, policy, now, uuid).tables
    case RevokeStep(i, p, r, g, now) => Revoke(t, i, p, r, g, now).tables
    case CheckReplayStep(event) => CheckReplay(t, event).tables
    case AcceptStep(i, event, now, uuid) => Accept(t, i, event, now, uuid).tables
    case ReserveStep(i, r, now, uuid) => Reserve(t, i, r, now, uuid).tables
    case ActivateStep(i, q, r, p, now) => if r in w.issued && r.Prepared? then Activate(t, i, q, r, p, now).tables else t
    case ReleaseStaleStep(q, c) => ReleaseStale(t, q, c)
    case RenewStep(i, q, now) => Renew(t, i, q, now).tables
    case PrepareRecoveryStep(i, q, resource) => PrepareRecovery(t, i, q, resource).tables
    case CompleteRecoveryStep(i, q, resource, revocation) => CompleteRecovery(t, i, q, resource, revocation).tables
    case ResultStep(i, host, q, now) => AcceptResult(t, i, host, q, now).tables
    case CompleteReportStep(c, delivered) => CompleteReport(t, c, delivered)
    case MarkReportStep(c, delivering) => MarkReport(t, c, if delivering then Delivering else Pending)
  }

  ghost function Next(w: World, s: Step): World {
    var reply := if s.ReserveStep? then Reserve(w.tables, s.i, s.request, s.now, s.uuid).reply else NothingQueued;
    World(NextTables(w, s), if reply.Prepared? then w.issued + {reply} else w.issued)
  }

  ghost function Run(w: World, steps: seq<Step>): World
    decreases |steps|
  {
    if steps == [] then w else Run(Next(w, steps[0]), steps[1..])
  }

  ghost predicate WorldOk(w: World) {
    Inv(w.tables) && forall r :: r in w.issued ==> Genuine(w.tables, r)
  }

  lemma GenuineForever(t: Tables, t': Tables, r: Reservation)
    requires Genuine(t, r) && Evolves(t, t')
    ensures Genuine(t', r)
  {
  }

  lemma NewIsGenuine(t: Tables, i: Instance, r: Request, capacity: CapacityPolicy, now: int, uuid: string)
    requires InboxOk(t.eventFences, t.inbox, t.demands) && DemandsOk(t.tupleFences, t.inbox, t.demands)
    ensures var x := ReserveNew(t, i, r, capacity, now, uuid); x.reply.Prepared? ==> Genuine(x.tables, x.reply)
  {
  }

  /** What `reserve` hands out names the receipt and demand it was made for. */
  lemma ReserveIssuesGenuine(t: Tables, i: Instance, r: Request, now: int, uuid: string)
    requires Inv(t)
    ensures var x := Reserve(t, i, r, now, uuid); x.reply.Prepared? ==> Genuine(x.tables, x.reply)
  {
    hide EpochsOk, AdmissionsOk, QueueOk, ReceiptKeysOk, HoldersOk, ClaimsOk, AttemptsOk, ClaimAuthorityOk,
      AssignmentsOk, FencesOk, OutboxOk, ResultsOk, LimitsOk, SlotBusy, LoadActive, ReserveNew;
    if r.slot in i.capacities { NewIsGenuine(t, i, r, i.capacities[r.slot], now, uuid); }
  }

  lemma NextTablesOk(w: World, s: Step)
    requires WorldOk(w)
    ensures Inv(NextTables(w, s)) && Evolves(w.tables, NextTables(w, s))
  {
    hide Inv, Evolves, Open, Expire, Admit, Revoke, CheckReplay, Accept, Reserve, Activate, ReleaseStale, Renew,
      PrepareRecovery, CompleteRecovery, AcceptResult, CompleteReport, MarkReport, Genuine;
    var t := w.tables;
    match s
    case OpenStep(i, now) => OpenKeepsInv(t, i, now); OpenEvolves(t, i, now);
    case ExpireStep(i, now) => ExpireKeepsInv(t, i, now); ExpireEvolves(t, i, now);
    case AdmitStep(i, policy, now, uuid) => AdmitKeepsInv(t, i, policy, now, uuid); AdmitEvolves(t, i, policy, now, uuid);
    case RevokeStep(i, p, r, g, now) => RevokeKeepsInv(t, i, p, r, g, now); RevokeEvolves(t, i, p, r, g, now);
    case CheckReplayStep(event) => CheckReplayKeepsInv(t, event); ReplayEvolves(t, event);
    case AcceptStep(i, event, now, uuid) => AcceptKeepsInv(t, i, event, now, uuid); AcceptEvolves(t, i, event, now, uuid);
    case ReserveStep(i, r, now, uuid) => ReserveKeepsInv(t, i, r, now, uuid); ReserveEvolves(t, i, r, now, uuid);
    case ActivateStep(i, q, r, p, now) =>
      EvolvesReflexive(t);
      if r in w.issued && r.Prepared? { ActivateKeepsInv(t, i, q, r, p, now); ActivateEvolves(t, i, q, r, p, now); }
    case ReleaseStaleStep(q, c) => ReleaseStaleKeepsInv(t, q, c); ReleaseStaleEvolves(t, q, c);
    case RenewStep(i, q, now) => RenewKeepsInv(t, i, q, now); LeaseEvolves(t, i, q, now);
    case PrepareRecoveryStep(i, q, resource) =>
      PrepareRecoveryKeepsInv(t, i, q, resource); RecoveryEvolves(t, i, q, resource,
        Revocation("", "", "", 0, "", q.slot));
    case CompleteRecoveryStep(i, q, resource, revocation) =>
      CompleteRecoveryKeepsInv(t, i, q, resource, revocation); RecoveryEvolves(t, i, q, resource, revocation);
    case ResultStep(i, host, q, now) => AcceptResultKeepsInv(t, i, host, q, now); ResultEvolves(t, i, host, q, now);
    case CompleteReportStep(c, delivered) => CompleteReportKeepsInv(t, c, delivered); ReportEvolves(t, c, delivered, Pending);
    case MarkReportStep(c, delivering) =>
      var state := if delivering then Delivering else Pending;
      MarkReportKeepsInv(t, c, state); ReportEvolves(t, c, true, state);
  }

  lemma NextOk(w: World, s: Step)
    requires WorldOk(w)
    ensures WorldOk(Next(w, s)) && Evolves(w.tables, Next(w, s).tables)
  {
    hide Inv, Evolves, NextTables, Reserve, Genuine;
    NextTablesOk(w, s);
    forall r | r in w.issued ensures Genuine(Next(w, s).tables, r) { GenuineForever(w.tables, Next(w, s).tables, r); }
    if s.ReserveStep? {
      ReserveIssuesGenuine(w.tables, s.i, s.request, s.now, s.uuid);
      assert NextTables(w, s) == Reserve(w.tables, s.i, s.request, s.now, s.uuid).tables by { ReserveNext(w, s); }
    }
  }

  lemma ReserveNext(w: World, s: Step)
    requires s.ReserveStep?
    ensures NextTables(w, s) == Reserve(w.tables, s.i, s.request, s.now, s.uuid).tables
  {
    hide Reserve;
  }

  /** Every run keeps the invariant and moves every row only forward. */
  lemma {:induction false} RunOk(w: World, steps: seq<Step>)
    requires WorldOk(w)
    ensures WorldOk(Run(w, steps)) && Evolves(w.tables, Run(w, steps).tables)
    decreases |steps|
  {
    hide Inv, Evolves, Next, Genuine;
    EvolvesReflexive(w.tables);
    if steps != [] {
      NextOk(w, steps[0]);
      RunOk(Next(w, steps[0]), steps[1..]);
      EvolvesTransitive(w.tables, Next(w, steps[0]).tables, Run(w, steps).tables);
    }
  }

  lemma StartOk()
    ensures WorldOk(START)
  {
    assert NonterminalDemands(EMPTY_TABLES.demands) == {};
  }

  /** The tables after a run from the empty database. */
  ghost function Reached(steps: seq<Step>): Tables { Run(START, steps).tables }

  lemma ReachedInv(steps: seq<Step>)
    ensures Inv(Reached(steps))
  {
    hide Inv, Evolves, Genuine;
    StartOk();
    RunOk(START, steps);
  }
}
