/**
 The host's lease and the authority's database in one run: renewals are transactions of the
 authority, and what the host is told is what they record. The authority's clock shows whole
 milliseconds; a renewal is granted at a tick between its sending and its receipt.
 */
module HostLeaseAuthority {
  import opened Wrappers
  import opened AuthorityTables
  import opened AuthoritySteps
  import opened AuthorityInvariant
  import opened AuthorityHistory
  import Authority = AuthorityRuns
  import opened HostLease

  datatype Joint = Joint(now: real, lease: Lease, authority: Authority.World)

  datatype JointStep =
    | HostSide(host: HostLease.Step)
    | AuthoritySide(transaction: Authority.Step)
    | Answer(i: Instance, q: HostRequest, tick: int)

  /** When the database would have the claim fenced as lease-lost. */
  ghost function Expiry(j: Joint, c: string): int
    requires c in j.authority.tables.claims
  {
    j.authority.tables.claims[c].leaseExpiresAt
  }

  /** The host's world, its expiry read off the database. */
  ghost function Seen(j: Joint, c: string): HostLease.World
    requires c in j.authority.tables.claims
  {
    HostLease.World(j.now, Expiry(j, c) as real, j.lease)
  }

  ghost predicate Keeps(j: Joint, after: Authority.World, c: string) {
    && c in j.authority.tables.claims && c in after.tables.claims
    && j.authority.tables.claims[c].leaseExpiresAt <= after.tables.claims[c].leaseExpiresAt
  }

  ghost predicate MayAnswer(j: Joint, c: string, q: HostRequest, tick: int) {
    && q.claimId == c && j.lease.renewal.Some? && j.lease.renewal.value.granted.None?
    && j.lease.renewal.value.started <= tick as real <= j.now
  }

  /** Transactions that would take time back from the claim's lease do not happen. */
  ghost function JointNext(j: Joint, c: string, s: JointStep): Joint
    requires c in j.authority.tables.claims
  {
    match s
    case HostSide(h) =>
      if h.Grant? then j else
      var w := HostLease.Next(Seen(j, c), h);
      j.(now := w.now, lease := w.lease)
    case AuthoritySide(x) =>
      var after := Authority.Next(j.authority, x);
      if Keeps(j, after, c) then j.(authority := after) else j
    case Answer(i, q, tick) =>
      var after := Authority.Next(j.authority, Authority.RenewStep(i, q, tick));
      var reply := Renew(j.authority.tables, i, q, tick).reply;
      if !MayAnswer(j, c, q, tick) || !reply.Renewed? || !Keeps(j, after, c) then j
      else j.(authority := after, lease := j.lease.(renewal := Some(j.lease.renewal.value.(granted := Some(reply.leaseDuration as real)))))
  }

  lemma NextKeepsClaim(j: Joint, c: string, s: JointStep)
    requires c in j.authority.tables.claims
    ensures c in JointNext(j, c, s).authority.tables.claims
  {
    hide Authority.Next, HostLease.Next;
  }

  ghost function JointRun(j: Joint, c: string, steps: seq<JointStep>): (r: Joint)
    requires c in j.authority.tables.claims
    ensures c in r.authority.tables.claims
    decreases |steps|
  {
    if steps == [] then j else
      NextKeepsClaim(j, c, steps[0]);
      JointRun(JointNext(j, c, steps[0]), c, steps[1..])
  }

  lemma AnswerIsSafe(j: Joint, c: string, i: Instance, q: HostRequest, tick: int)
    requires c in j.authority.tables.claims && Safe(Seen(j, c))
    ensures Safe(Seen(JointNext(j, c, Answer(i, q, tick)), c))
  {
    hide Renew, Authority.Next;
    var t := j.authority.tables;
    var after := Authority.Next(j.authority, Authority.RenewStep(i, q, tick));
    if MayAnswer(j, c, q, tick) && Renew(t, i, q, tick).reply.Renewed? {
      RenewalGrantsRecordedExpiry(t, i, q, tick);
      RenewIsNext(j.authority, i, q, tick);
      assert after.tables.claims[c].leaseExpiresAt == tick + Renew(t, i, q, tick).reply.leaseDuration;
    }
  }

  lemma RenewIsNext(a: Authority.World, i: Instance, q: HostRequest, tick: int)
    ensures Authority.Next(a, Authority.RenewStep(i, q, tick)).tables == Renew(a.tables, i, q, tick).tables
  {
    hide Renew, Reserve;
  }

  lemma HostSideIsSafe(w: HostLease.World, h: HostLease.Step)
    requires Safe(w) && !h.Grant?
    ensures Safe(HostLease.Next(w, h)) && HostLease.Next(w, h).expiry == w.expiry
  {
  }

  lemma StepIsSafe(j: Joint, c: string, s: JointStep)
    requires c in j.authority.tables.claims && Safe(Seen(j, c))
    ensures Safe(Seen(JointNext(j, c, s), c))
  {
    hide Authority.Next, HostLease.Next, Renew;
    match s
    case HostSide(h) => if !h.Grant? { HostSideIsSafe(Seen(j, c), h); }
    case AuthoritySide(_) =>
    case Answer(i, q, tick) => AnswerIsSafe(j, c, i, q, tick);
  }

  lemma {:induction false} JointRunIsSafe(j: Joint, c: string, steps: seq<JointStep>)
    requires c in j.authority.tables.claims && Safe(Seen(j, c))
    ensures Safe(Seen(JointRun(j, c, steps), c))
    decreases |steps|
  {
    hide JointNext, Safe;
    if steps != [] {
      NextKeepsClaim(j, c, steps[0]);
      StepIsSafe(j, c, steps[0]);
      JointRunIsSafe(JointNext(j, c, steps[0]), c, steps[1..]);
    }
  }

  /** The first renewal has come back: sent, granted by the database at a tick, and accepted. */
  ghost predicate JointBegun(j: Joint, c: string, started: real, tick: int, duration: int) {
    && c in j.authority.tables.claims && started <= tick as real <= j.now
    && Expiry(j, c) == tick + duration && j.lease == Lease(started + duration as real, None, false, None)
  }

  /**
   In every run of host and authority together, whatever transactions others make: while the host may
   say its lease is current, no sweep by the authority's clock takes the claim for lease-lost.
   */
  lemma CurrentIsNotSwept(j: Joint, c: string, started: real, granted: int, duration: int, steps: seq<JointStep>,
      tick: int)
    requires JointBegun(j, c, started, granted, duration) && tick as real <= JointRun(j, c, steps).now
    ensures var r := JointRun(j, c, steps);
      IsCurrent(r.lease, r.now).1 && !r.lease.stopped ==> c !in ExpiredClaims(r.authority.tables, tick)
  {
    hide JointRun;
    JointRunIsSafe(j, c, steps);
  }

  /** The database never drops the claim, so `JointNext` only ever skips transactions that take time back. */
  lemma ClaimsStay(j: Joint, c: string, s: Authority.Step)
    requires Authority.WorldOk(j.authority) && c in j.authority.tables.claims
    ensures c in Authority.Next(j.authority, s).tables.claims
  {
    hide Inv, Genuine, Authority.Next, DemandsEvolve, ReceiptsEvolve;
    Authority.NextOk(j.authority, s);
  }
}
