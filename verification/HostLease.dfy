/**
 The host's view of its lease (core/packages/core/src/nativeOrdinaryExecutorLease.ts) beside the
 expiry the authority keeps. Times are on one time line; the two clocks need not agree on its origin,
 since only durations cross.
 */
module HostLease {
  import opened Wrappers
  import opened AuthorityTables
  import opened AuthoritySteps

  /** Why a lease was lost: it ran out, or a renewal failed with some other error. */
  datatype Reason = RanOut | Broke(error: string)

  /** A renewal on its way: when it was sent, and what the authority has granted so far. */
  datatype Renewal = Renewal(started: real, granted: Option<real>)

  datatype Lease = Lease(deadline: real, lost: Option<Reason>, stopped: bool, renewal: Option<Renewal>)

  /** `expiry` is when the authority would fence the claim as lease-lost. */
  datatype World = World(now: real, expiry: real, lease: Lease)

  /** `lose`: the first loss counts; a later error may only replace "ran out". Nothing is lost after a stop. */
  function Lose(l: Lease, reason: Reason): Lease {
    if l.lost.Some? then (if l.lost == Some(RanOut) then l.(lost := Some(reason)) else l)
    else if l.stopped then l
    else l.(lost := Some(reason))
  }

  /** `accept`: the deadline counts from when the request was sent. */
  function TakeRenewal(l: Lease, now: real, started: real, duration: real): Lease {
    if now >= started + duration then Lose(l, RanOut) else l.(deadline := started + duration)
  }

  /** `isCurrent`: the state it leaves and the answer. */
  function IsCurrent(l: Lease, now: real): (Lease, bool) {
    var l' := if l.lost.None? && now >= l.deadline then Lose(l, RanOut) else l;
    (l', l'.lost.None?)
  }

  class NativeLease {
    var state: Lease

    /** `startNativeLease` after its first renewal came back at `now`; None when it is too late. */
    static method Start(started: real, duration: real, now: real) returns (lease: Option<NativeLease>)
      ensures lease.None? <==> now >= started + duration
      ensures lease.Some? ==> fresh(lease.value) && lease.value.state == Lease(started + duration, None, false, None)
    {
      if now >= started + duration { return None; }
      var l := new NativeLease(started + duration);
      return Some(l);
    }

    constructor (deadline: real)
      ensures state == Lease(deadline, None, false, None)
    {
      state := Lease(deadline, None, false, None);
    }

    method LoseFor(reason: Reason)
      modifies this
      ensures state == Lose(old(state), reason)
    {
      if state.lost.Some? {
        if state.lost == Some(RanOut) { state := state.(lost := Some(reason)); }
        return;
      }
      if state.stopped { return; }
      state := state.(lost := Some(reason));
    }

    method AcceptResponse(now: real, started: real, duration: real) returns (ok: bool)
      modifies this
      ensures state == TakeRenewal(old(state), now, started, duration) && ok == (now < started + duration)
    {
      var nextDeadline := started + duration;
      if now >= nextDeadline {
        LoseFor(RanOut);
        return false;
      }
      state := state.(deadline := nextDeadline);
      return true;
    }

    method Current(now: real) returns (current: bool)
      modifies this
      ensures (state, current) == IsCurrent(old(state), now)
    {
      if state.lost.None? && now >= state.deadline { LoseFor(RanOut); }
      return state.lost.None?;
    }
  }

  datatype Step =
    | Wait(time: real)
    | Send
    | Grant(duration: real)
    | Receive
    | RenewalFails(error: string)
    | TimerFires
    | AskCurrent
    | Stop

  function Next(w: World, s: Step): World {
    var l := w.lease;
    match s
    case Wait(time) => if time >= 0.0 then w.(now := w.now + time) else w
    case Send => if l.renewal.Some? || l.lost.Some? || l.stopped then w else w.(lease := l.(renewal := Some(Renewal(w.now, None))))
    case Grant(duration) =>
      // The authority answers a renewal once, before the claim expired, and never takes time back.
      if l.renewal.None? || l.renewal.value.granted.Some? || w.now >= w.expiry || w.now + duration < w.expiry then w
      else World(w.now, w.now + duration, l.(renewal := Some(l.renewal.value.(granted := Some(duration)))))
    case Receive =>
      if l.renewal.None? || l.renewal.value.granted.None? then w
      else w.(lease := TakeRenewal(l.(renewal := None), w.now, l.renewal.value.started, l.renewal.value.granted.value))
    case RenewalFails(error) => if l.renewal.None? then w else w.(lease := Lose(l.(renewal := None), Broke(error)))
    case TimerFires => if !l.stopped && w.now >= l.deadline then w.(lease := Lose(l, RanOut)) else w
    case AskCurrent => w.(lease := IsCurrent(l, w.now).0)
    case Stop => w.(lease := l.(stopped := true))
  }

  function Run(w: World, steps: seq<Step>): World
    decreases |steps|
  {
    if steps == [] then w else Run(Next(w, steps[0]), steps[1..])
  }

  /** The lease has just been accepted: its first renewal was granted after it was sent. */
  predicate Begun(w: World, started: real, duration: real, granted: real) {
    && started <= granted <= w.now && w.expiry == granted + duration
    && w.lease == Lease(started + duration, None, false, None)
  }

  /** The host's deadline, and the one a granted renewal would give it, never lie beyond the authority's expiry. */
  predicate Safe(w: World) {
    && w.lease.deadline <= w.expiry
    && (w.lease.renewal.Some? ==> w.lease.renewal.value.started <= w.now)
    && (w.lease.renewal.Some? && w.lease.renewal.value.granted.Some? ==>
         w.lease.renewal.value.started + w.lease.renewal.value.granted.value <= w.expiry)
  }

  lemma {:induction false} RunIsSafe(w: World, steps: seq<Step>)
    requires Safe(w)
    ensures Safe(Run(w, steps))
    decreases |steps|
  {
    if steps != [] {
      assert Safe(Next(w, steps[0]));
      RunIsSafe(Next(w, steps[0]), steps[1..]);
    }
  }

  /** In every run, a lease that says it is current before it is stopped has not expired at the authority. */
  lemma CurrentMeansUnexpired(w: World, started: real, duration: real, granted: real, steps: seq<Step>)
    requires Begun(w, started, duration, granted)
    ensures var r := Run(w, steps); IsCurrent(r.lease, r.now).1 && !r.lease.stopped ==> r.now < r.expiry
  {
    RunIsSafe(w, steps);
  }

  /** A renewal that arrives makes a running lease current exactly until one duration after the request was sent. */
  lemma RenewalLasts(l: Lease, now: real, started: real, duration: real, at: real)
    requires l.lost.None? && !l.stopped && now <= at
    ensures IsCurrent(TakeRenewal(l, now, started, duration), at).1 <==> at < started + duration
  {
  }

  /** Once lost, always lost. */
  lemma {:induction false} LossIsPermanent(w: World, steps: seq<Step>)
    requires w.lease.lost.Some?
    ensures var r := Run(w, steps); r.lease.lost.Some? && !IsCurrent(r.lease, r.now).1
    ensures w.lease.lost != Some(RanOut) ==> Run(w, steps).lease.lost == w.lease.lost
    decreases |steps|
  {
    if steps != [] {
      assert Next(w, steps[0]).lease.lost.Some?;
      LossIsPermanent(Next(w, steps[0]), steps[1..]);
    }
  }

  /** After a stop the answer no longer says anything: an unlost lease stays current for ever. */
  lemma {:induction false} StoppedStaysCurrent(w: World, steps: seq<Step>)
    requires w.lease.stopped && w.lease.lost.None?
    ensures var r := Run(w, steps); r.lease.stopped && r.lease.lost.None? && IsCurrent(r.lease, r.now).1
    decreases |steps|
  {
    if steps != [] { StoppedStaysCurrent(Next(w, steps[0]), steps[1..]); }
  }

  /** And so it may be current after the authority's expiry. */
  lemma StoppedOutlivesExpiry(w: World, started: real, duration: real, granted: real)
    requires Begun(w, started, duration, granted) && duration >= 0.0
    ensures var r := Run(w, [Stop, Wait(duration)]); IsCurrent(r.lease, r.now).1 && r.now >= r.expiry
  {
    var s := [Stop, Wait(duration)];
    assert s[1..] == [Wait(duration)] && [Wait(duration)][1..] == [];
    assert Run(w, s) == Run(Next(w, Stop), [Wait(duration)]);
    assert Run(Next(w, Stop), [Wait(duration)]) == Run(Next(Next(w, Stop), Wait(duration)), []);
  }

  /**
   The exact condition: at any state of any run, the lease answers "current" at no time at or past the
   authority's expiry exactly when it has not been stopped or is already lost.
   */
  lemma SafeExactlyUntilStopped(w: World, started: real, duration: real, granted: real, steps: seq<Step>)
    requires Begun(w, started, duration, granted)
    ensures var r := Run(w, steps);
      (forall at :: at >= r.now && IsCurrent(r.lease, at).1 ==> at < r.expiry) <==> !r.lease.stopped || r.lease.lost.Some?
  {
    hide Run;
    RunIsSafe(w, steps);
    var r := Run(w, steps);
    var late := if r.now < r.expiry then r.expiry else r.now;
    assert r.lease.stopped && r.lease.lost.None? ==> IsCurrent(r.lease, late).1;
  }

  // ---- the authority's side ----

  /** What the authority answers is how far its recorded expiry lies ahead; it answers only before it. */
  lemma RenewalGrantsRecordedExpiry(t: Tables, i: Instance, q: HostRequest, now: int)
    requires Renew(t, i, q, now).reply.Renewed?
    ensures q.claimId in t.claims && now < t.claims[q.claimId].leaseExpiresAt
    ensures var r := Renew(t, i, q, now);
      q.claimId in r.tables.claims && r.tables.claims[q.claimId].leaseExpiresAt == now + r.reply.leaseDuration == r.reply.leaseExpiresAt
  {
    hide OwnsActiveEpoch;
    var r := Renew(t, i, q, now);
    var claim := t.claims[q.claimId];
    if claim.renewalId == Some(q.requestId) {
      assert r.tables == t;
    } else {
      assert r.tables.claims[q.claimId] == claim.(leaseExpiresAt := now + i.claimLease, renewalId := Some(q.requestId));
    }
  }
}
