/**
 Admission of operations under the host lifecycle lock (core/packages/core/src/hostAdminAdmission.ts),
 beside shutdowns and starts that take the same lock and write, stop and recover one step at a time.
 */
module HostAdmission {
  import opened Wrappers
  import opened HostLifecycle

  /** What a call is for; `ok(i)` is whether its i-th workspace action succeeds. */
  datatype Work =
    | ShutdownWork(listing: seq<Workspace>, ok: nat -> bool)
    | StartWork(ok: nat -> bool)
    | AdminWork
    | RuntimeWork

  /** Working: past the check of the host's phase. `before` is the record found, `fuel` the writes and actions done. */
  datatype Stage = Waiting | Checking | Working(before: Option<Record>, fuel: nat) | Finished

  datatype Job = Job(work: Work, stage: Stage)

  /** `past` are the shutdowns and starts that have ended or crashed, with how far each came. */
  datatype Host = Host(record: Option<Record>, lock: Option<nat>, jobs: map<nat, Job>, past: seq<Call>)

  datatype Step = Arrive(id: nat, work: Work) | TakeLock(id: nat) | Check(id: nat) | Act(id: nat) | Finish(id: nat) | Crash(id: nat)

  predicate At(h: Host, id: nat, stage: Stage) { id in h.jobs && h.jobs[id].stage == stage }

  predicate Works(h: Host, id: nat) { id in h.jobs && h.jobs[id].stage.Working? }

  function Move(h: Host, id: nat, stage: Stage): Host
    requires id in h.jobs
  {
    h.(jobs := h.jobs[id := h.jobs[id].(stage := stage)])
  }

  function Unlock(h: Host, id: nat): Host { if h.lock == Some(id) then h.(lock := None) else h }

  /** The call a shutdown or start amounts to when it has come `fuel` far. */
  function CallOf(work: Work, fuel: nat): Call
    requires work.ShutdownWork? || work.StartWork?
  {
    if work.ShutdownWork? then Shutdown(work.listing, work.ok, fuel) else Start(work.ok, fuel)
  }

  function RecordAfter(work: Work, before: Option<Record>, fuel: nat): Option<Record> {
    match work
    case ShutdownWork(listing, ok) => ShutdownCall(before, listing, ok, fuel)
    case StartWork(ok) => StartCall(before, ok, fuel).record
    case _ => before
  }

  predicate IsLifecycle(work: Work) { work.ShutdownWork? || work.StartWork? }

  /** A call that ends, by itself or by a crash, is entered in the past. */
  function Ended(h: Host, id: nat): Host
    requires id in h.jobs
  {
    var job := h.jobs[id];
    var past := if job.stage.Working? && IsLifecycle(job.work) then h.past + [CallOf(job.work, job.stage.fuel)] else h.past;
    Unlock(Move(h, id, Finished), id).(past := past)
  }

  function NextHost(h: Host, s: Step): Host {
    match s
    case Arrive(id, work) => if id in h.jobs then h else h.(jobs := h.jobs[id := Job(work, Waiting)])
    case TakeLock(id) => if At(h, id, Waiting) && h.lock == None then Move(h, id, Checking).(lock := Some(id)) else h
    case Check(id) =>
      if !At(h, id, Checking) then h
      else if IsLifecycle(h.jobs[id].work) then Move(h, id, Working(h.record, 0))
      else if !IsReady(h.record) then Ended(h, id)
      else if h.jobs[id].work == RuntimeWork then Unlock(Move(h, id, Working(h.record, 0)), id)
      else Move(h, id, Working(h.record, 0))
    case Act(id) =>
      if !Works(h, id) || !IsLifecycle(h.jobs[id].work) then h
      else
        var job := h.jobs[id];
        Move(h, id, Working(job.stage.before, job.stage.fuel + 1)).(record := RecordAfter(job.work, job.stage.before, job.stage.fuel + 1))
    case Finish(id) => if Works(h, id) then Ended(h, id) else h
    case Crash(id) => if id in h.jobs then Ended(h, id) else h
  }

  function RunHost(h: Host, steps: seq<Step>): Host
    decreases |steps|
  {
    if steps == [] then h else RunHost(NextHost(h, steps[0]), steps[1..])
  }

  /** The workspace that a step stops or recovers. */
  function Touches(h: Host, s: Step): Option<string> {
    if !s.Act? || !Works(h, s.id) then None else
    var job := h.jobs[s.id];
    var fuel := job.stage.fuel;
    match job.work
    case ShutdownWork(listing, _) =>
      if IsReady(job.stage.before) && 0 < fuel <= |StopNames(listing)| then Some(StopNames(listing)[fuel - 1]) else None
    case StartWork(_) =>
      if !IsReady(job.stage.before) && 0 < fuel <= |job.stage.before.value.resume|
        then Some(job.stage.before.value.resume[fuel - 1]) else None
    case _ => None
  }

  /**
   Past the lock, an operation is let in exactly when the host is ready; an admin operation then keeps the
   lock, a runtime operation gives it back. Shutdowns and starts go on whatever the phase.
   */
  lemma AdmissionExact(h: Host, id: nat)
    requires At(h, id, Checking) && h.lock == Some(id)
    ensures var h' := NextHost(h, Check(id)); var work := h.jobs[id].work;
      && h'.record == h.record
      && (Works(h', id) <==> work.ShutdownWork? || work.StartWork? || h.record.None? || h.record.value.phase == Ready)
      && (h'.lock == Some(id) <==> Works(h', id) && work != RuntimeWork)
  {
  }

  // ---- the lock keeps them apart ----

  /** Inside the lock: checking, or doing the work of anything but a runtime operation. */
  predicate Inside(j: Job) { j.stage == Checking || (j.stage.Working? && j.work != RuntimeWork) }

  ghost predicate LockHeld(h: Host) { forall id :: id in h.jobs && Inside(h.jobs[id]) ==> h.lock == Some(id) }

  ghost predicate AdminIsReady(h: Host) {
    forall id :: Works(h, id) && h.jobs[id].work == AdminWork ==> IsReady(h.record) && h.jobs[id].stage.before == h.record
  }

  /** What the working lifecycle call found, and what it has made of it. */
  ghost predicate RecordFollows(h: Host, start: HostLifecycle.World) {
    var past := Run(start, h.past).record;
    && (forall id :: Works(h, id) && IsLifecycle(h.jobs[id].work) ==>
          h.jobs[id].stage.before == past && h.record == RecordAfter(h.jobs[id].work, past, h.jobs[id].stage.fuel))
    && ((forall id :: Works(h, id) ==> !IsLifecycle(h.jobs[id].work)) ==> h.record == past)
  }

  ghost predicate HostInv(h: Host,
      start: HostLifecycle.World) { LockHeld(h) && AdminIsReady(h) && RecordFollows(h, start) }

  lemma NothingDone(work: Work, before: Option<Record>)
    ensures RecordAfter(work, before, 0) == before
  {
  }

  lemma {:induction false} RunAppend(w: HostLifecycle.World, calls: seq<Call>, c: Call)
    ensures Run(w, calls + [c]) == HostLifecycle.Next(Run(w, calls), c)
    decreases |calls|
  {
    hide HostLifecycle.Next;
    if calls == [] {
      assert calls + [c] == [c] && [c][1..] == [];
    } else {
      assert (calls + [c])[1..] == calls[1..] + [c];
      RunAppend(HostLifecycle.Next(w, calls[0]), calls[1..], c);
    }
  }

  lemma CallRecord(w: HostLifecycle.World, work: Work, fuel: nat)
    requires IsLifecycle(work)
    ensures HostLifecycle.Next(w, CallOf(work, fuel)).record == RecordAfter(work, w.record, fuel)
  {
  }

  lemma EndedKeepsInv(h: Host, id: nat, start: HostLifecycle.World)
    requires HostInv(h, start) && id in h.jobs
    ensures HostInv(Ended(h, id), start)
  {
    hide Run, RecordAfter;
    var job := h.jobs[id];
    if job.stage.Working? && IsLifecycle(job.work) {
      RunAppend(start, h.past, CallOf(job.work, job.stage.fuel));
      CallRecord(Run(start, h.past), job.work, job.stage.fuel);
      assert Inside(job);
      forall x | Works(h, x) && IsLifecycle(h.jobs[x].work) ensures x == id { assert Inside(h.jobs[x]); }
    }
    var r := Ended(h, id);
    assert forall x | Works(r, x) :: x != id && Works(h, x) && r.jobs[x] == h.jobs[x];
    assert forall x | Works(h, x) && x != id :: Works(r, x) && r.jobs[x] == h.jobs[x];
  }

  lemma ActKeepsInv(h: Host, id: nat, start: HostLifecycle.World)
    requires HostInv(h, start)
    ensures HostInv(NextHost(h, Act(id)), start)
  {
    hide Run, RecordAfter;
    if Works(h, id) && IsLifecycle(h.jobs[id].work) {
      var r := NextHost(h, Act(id));
      assert Inside(h.jobs[id]);
      forall x | Works(h, x) && h.jobs[x].work != RuntimeWork ensures x == id { assert Inside(h.jobs[x]); }
      assert Works(r, id) && forall x | x in h.jobs && x != id :: r.jobs[x] == h.jobs[x];
    }
  }

  lemma CheckKeepsInv(h: Host, id: nat, start: HostLifecycle.World)
    requires HostInv(h, start)
    ensures HostInv(NextHost(h, Check(id)), start)
  {
    hide Run, RecordAfter;
    if At(h, id, Checking) {
      NothingDone(h.jobs[id].work, h.record);
      EndedKeepsInv(h, id, start);
    }
  }

  lemma HostStepKeepsInv(h: Host, s: Step, start: HostLifecycle.World)
    requires HostInv(h, start)
    ensures HostInv(NextHost(h, s), start)
  {
    match s
    case Arrive(id, work) => ArriveKeepsInv(h, id, work, start);
    case TakeLock(id) => TakeLockKeepsInv(h, id, start);
    case Check(id) => CheckKeepsInv(h, id, start);
    case Act(id) => ActKeepsInv(h, id, start);
    case Finish(id) => if id in h.jobs { EndedKeepsInv(h, id, start); }
    case Crash(id) => if id in h.jobs { EndedKeepsInv(h, id, start); }
  }

  /** Two hosts with the same record and past, and the same jobs at work. */
  ghost predicate SameWork(h: Host, r: Host) {
    && h.record == r.record && h.past == r.past
    && forall id :: (Works(h, id) <==> Works(r, id)) && (Works(h, id) ==> h.jobs[id] == r.jobs[id])
  }

  lemma SameWorkFollows(h: Host, r: Host, start: HostLifecycle.World)
    requires SameWork(h, r) && AdminIsReady(h) && RecordFollows(h, start)
    ensures AdminIsReady(r) && RecordFollows(r, start)
  {
    hide Run, RecordAfter, Works;
  }

  lemma ArriveKeepsInv(h: Host, id: nat, work: Work, start: HostLifecycle.World)
    requires HostInv(h, start)
    ensures HostInv(NextHost(h, Arrive(id, work)), start)
  {
    hide RecordFollows, AdminIsReady;
    SameWorkFollows(h, NextHost(h, Arrive(id, work)), start);
  }

  lemma TakeLockKeepsInv(h: Host, id: nat, start: HostLifecycle.World)
    requires HostInv(h, start)
    ensures HostInv(NextHost(h, TakeLock(id)), start)
  {
    hide RecordFollows, AdminIsReady;
    SameWorkFollows(h, NextHost(h, TakeLock(id)), start);
  }

  lemma {:induction false} HostRunKeepsInv(h: Host, steps: seq<Step>, start: HostLifecycle.World)
    requires HostInv(h, start)
    ensures HostInv(RunHost(h, steps), start)
    decreases |steps|
  {
    hide HostInv, NextHost;
    if steps != [] {
      HostStepKeepsInv(h, steps[0], start);
      HostRunKeepsInv(NextHost(h, steps[0]), steps[1..], start);
    }
  }

  /** Nobody is at work and nothing has happened yet. */
  ghost predicate Quiet(h: Host, start: HostLifecycle.World) {
    h.jobs == map[] && h.lock == None && h.past == [] && h.record == start.record
  }

  lemma QuietInv(h: Host, start: HostLifecycle.World)
    requires Quiet(h, start)
    ensures HostInv(h, start)
  {
  }

  /**
   In every run, while an admitted admin operation works: the host is ready and its record does not
   change, no step stops or recovers a workspace, and no shutdown, start or other admin operation works.
   */
  lemma AdminIsUndisturbed(h: Host, start: HostLifecycle.World, steps: seq<Step>, admin: nat, s: Step)
    requires Quiet(h, start)
    requires Works(RunHost(h, steps), admin) && RunHost(h, steps).jobs[admin].work == AdminWork
    ensures var r := RunHost(h, steps);
      && IsReady(r.record) && Touches(r, s) == None && NextHost(r, s).record == r.record
      && forall id :: Works(r, id) && r.jobs[id].work != RuntimeWork ==> id == admin
  {
    hide RunHost, RecordFollows;
    QuietInv(h, start);
    HostRunKeepsInv(h, steps, start);
    var r := RunHost(h, steps);
    assert Inside(r.jobs[admin]);
    forall id | Works(r, id) && r.jobs[id].work != RuntimeWork ensures id == admin { assert Inside(r.jobs[id]); }
  }

  /** The lifecycle call now at work, if there is one, as far as it has come. */
  ghost function AtWork(h: Host): seq<Call> {
    if exists id :: LifecycleAtWork(h, id)
    then var id :| LifecycleAtWork(h, id); [CallOf(h.jobs[id].work, h.jobs[id].stage.fuel)]
    else []
  }

  predicate LifecycleAtWork(h: Host, id: nat) { Works(h, id) && IsLifecycle(h.jobs[id].work) }

  /** Every shutdown and start that took the lock, in that order, each with how far it came. */
  ghost function Log(h: Host): seq<Call> { h.past + AtWork(h) }

  lemma LogTellsRecord(h: Host, start: HostLifecycle.World)
    requires HostInv(h, start)
    ensures h.record == Run(start, Log(h)).record
  {
    hide Run, RecordAfter, LockHeld, AdminIsReady;
    if id :| LifecycleAtWork(h, id) {
      var id' :| LifecycleAtWork(h, id') && AtWork(h) == [CallOf(h.jobs[id'].work, h.jobs[id'].stage.fuel)];
      var job := h.jobs[id'];
      RunAppend(start, h.past, CallOf(job.work, job.stage.fuel));
      CallRecord(Run(start, h.past), job.work, job.stage.fuel);
    } else {
      assert h.past + [] == h.past;
      assert forall id :: Works(h, id) ==> !LifecycleAtWork(h, id);
    }
  }

  /**
   The results on runs of calls hold of every interleaving: the record is what the logged calls, one
   after the other, make of it, and until one logged start has recovered them all it holds exactly the
   workspaces that were ready when the last logged shutdown began.
   */
  lemma InterleavingKeepsResumeList(h: Host, start: HostLifecycle.World, steps: seq<Step>)
    requires Quiet(h, start) && Keeps(start)
    ensures var r := RunHost(h, steps); var w := Run(start, Log(r));
      && r.record == w.record
      && (w.owed ==> r.record.Some? && r.record.value.phase != Ready && r.record.value.resume == w.listed)
  {
    hide RunHost, Run, HostInv, Log;
    QuietInv(h, start);
    HostRunKeepsInv(h, steps, start);
    LogTellsRecord(RunHost(h, steps), start);
    ResumeListIsKept(start, Log(RunHost(h, steps)));
  }

  /** The log only grows, and a call already ended stays in it as it is. */
  lemma {:induction false} LogOnlyGrows(h: Host, steps: seq<Step>)
    ensures h.past <= RunHost(h, steps).past
    decreases |steps|
  {
    if steps != [] {
      LogOnlyGrows(NextHost(h, steps[0]), steps[1..]);
      assert h.past <= NextHost(h, steps[0]).past;
    }
  }

  /** A runtime operation gives the lock back before it works, so a shutdown can stop workspaces beside it. */
  lemma RuntimeMayOverlap(h: Host, name: string, ok: nat -> bool)
    requires h == Host(None, None, map[], [])
    ensures var work := ShutdownWork([Workspace(name, WorkspaceReady)], ok);
      var steps := [Arrive(0, RuntimeWork), TakeLock(0), Check(0), Arrive(1, work), TakeLock(1), Check(1), Act(1)];
      Works(RunHost(h, steps), 0) && Touches(RunHost(h, steps), Act(1)) == Some(name)
  {
    hide RunHost;
    var work := ShutdownWork([Workspace(name, WorkspaceReady)], ok);
    var beside := RuntimeWorks(h);
    var r := ShutdownActs(beside, name, work);
    var first, second := [Arrive(0, RuntimeWork), TakeLock(0), Check(0)], [Arrive(1, work), TakeLock(1), Check(1), Act(1)];
    RunHostAppend(h, first, second);
    assert first + second == [Arrive(0, RuntimeWork), TakeLock(0), Check(0), Arrive(1, work), TakeLock(1), Check(1), Act(1)];
  }

  lemma {:induction false} RunHostAppend(h: Host, a: seq<Step>, b: seq<Step>)
    ensures RunHost(h, a + b) == RunHost(RunHost(h, a), b)
    decreases |a|
  {
    hide NextHost;
    if a == [] {
      assert a + b == b;
    } else {
      assert (a + b)[1..] == a[1..] + b;
      RunHostAppend(NextHost(h, a[0]), a[1..], b);
    }
  }

  lemma Unroll(h: Host, s: Step, rest: seq<Step>)
    ensures RunHost(h, [s] + rest) == RunHost(NextHost(h, s), rest)
  {
    hide NextHost;
    assert ([s] + rest)[1..] == rest;
  }

  lemma Stay(h: Host)
    ensures RunHost(h, []) == h
  {
  }

  lemma RuntimeWorks(h: Host) returns (r: Host)
    requires h == Host(None, None, map[], [])
    ensures r == RunHost(h, [Arrive(0, RuntimeWork), TakeLock(0), Check(0)])
    ensures r == Host(None, None, map[0 := Job(RuntimeWork, Working(None, 0))], [])
  {
    hide RunHost;
    var h1 := NextHost(h, Arrive(0, RuntimeWork));
    var h2 := NextHost(h1, TakeLock(0));
    assert h2 == Host(None, Some(0), map[0 := Job(RuntimeWork, Checking)], []);
    r := NextHost(h2, Check(0));
    hide NextHost;
    Unroll(h, Arrive(0, RuntimeWork), [TakeLock(0), Check(0)]);
    Unroll(h1, TakeLock(0), [Check(0)]);
    Unroll(h2, Check(0), []);
    Stay(r);
    assert [Check(0)] + [] == [Check(0)] && [TakeLock(0)] + [Check(0)] == [TakeLock(0), Check(0)];
    assert [Arrive(0, RuntimeWork)] + [TakeLock(0), Check(0)] == [Arrive(0, RuntimeWork), TakeLock(0), Check(0)];
  }

  lemma ShutdownActs(h: Host, name: string, work: Work) returns (r: Host)
    requires h == Host(None, None, map[0 := Job(RuntimeWork, Working(None, 0))], [])
    requires work.ShutdownWork? && work.listing == [Workspace(name, WorkspaceReady)]
    ensures r == RunHost(h, [Arrive(1, work), TakeLock(1), Check(1), Act(1)])
    ensures Works(r, 0) && Touches(r, Act(1)) == Some(name)
  {
    hide RunHost, RecordAfter;
    var h1 := NextHost(h, Arrive(1, work));
    var h2 := NextHost(h1, TakeLock(1));
    var h3 := NextHost(h2, Check(1));
    r := NextHost(h3, Act(1));
    assert h3.jobs[1] == Job(work, Working(None, 0)) && h3.jobs[0] == Job(RuntimeWork, Working(None, 0));
    assert StopNames(work.listing) == [name] by { assert work.listing[1..] == []; assert StopNames([]) == []; }
    hide NextHost;
    Unroll(h, Arrive(1, work), [TakeLock(1), Check(1), Act(1)]);
    Unroll(h1, TakeLock(1), [Check(1), Act(1)]);
    Unroll(h2, Check(1), [Act(1)]);
    Unroll(h3, Act(1), []);
    Stay(r);
    assert [Act(1)] + [] == [Act(1)] && [Check(1)] + [Act(1)] == [Check(1), Act(1)];
    assert [TakeLock(1)] + [Check(1), Act(1)] == [TakeLock(1), Check(1), Act(1)];
    assert [Arrive(1, work)] + [TakeLock(1), Check(1), Act(1)] == [Arrive(1, work), TakeLock(1), Check(1), Act(1)];
  }
}
