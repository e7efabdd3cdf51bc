/**
 Shutting the host down and starting it again (core/packages/core/src/hostShutdown.ts,
 core/packages/core/src/hostRecovery.ts), and admitting operations beside them
 (core/packages/core/src/hostAdminAdmission.ts).
 */
module HostLifecycle {
  import opened Wrappers

  datatype HostPhase = Ready | Stopping | Stopped | Starting | Broken

  datatype Record = Record(phase: HostPhase, resume: seq<string>)

  datatype WorkspacePhase = WorkspaceReady | Discarding | OtherPhase

  datatype Workspace = Workspace(name: string, phase: WorkspacePhase)

  function ReadyNames(listing: seq<Workspace>): seq<string> {
    if listing == [] then []
    else (if listing[0].phase == WorkspaceReady then [listing[0].name] else []) + ReadyNames(listing[1..])
  }

  function StopNames(listing: seq<Workspace>): seq<string> {
    if listing == [] then []
    else (if listing[0].phase != OtherPhase then [listing[0].name] else []) + StopNames(listing[1..])
  }

  /** Exactly the ready workspaces are resumed; exactly those and the ones being discarded are stopped. */
  lemma {:induction false} NamesExact(listing: seq<Workspace>, name: string)
    ensures name in ReadyNames(listing) <==> Workspace(name, WorkspaceReady) in listing
    ensures name in StopNames(listing) <==> Workspace(name, WorkspaceReady) in listing || Workspace(name, Discarding) in listing
    decreases |listing|
  {
    if listing != [] {
      NamesExact(listing[1..], name);
      assert listing == [listing[0]] + listing[1..];
    }
  }

  predicate IsReady(record: Option<Record>) { record.None? || record.value.phase == Ready }

  // ---- one call, cut short by a crash after `fuel` writes and workspace actions ----

  predicate AllOk(ok: nat -> bool, n: nat) { forall i | 0 <= i < n :: ok(i) }

  /** `ok(i)` is whether stopping the i-th workspace succeeds. */
  function ShutdownCall(record: Option<Record>, listing: seq<Workspace>, ok: nat -> bool, fuel: nat): Option<Record> {
    if !IsReady(record) || fuel == 0 then record
    else if fuel < |StopNames(listing)| + 2 then Some(Record(Stopping, ReadyNames(listing)))
    else Some(Record(if AllOk(ok, |StopNames(listing)|) then Stopped else Broken, ReadyNames(listing)))
  }

  datatype Recovery = Recovery(record: Option<Record>, recovered: seq<string>)

  /** The recovery loop from the i-th name of the list on, with `fuel` left. */
  function RecoverFrom(resume: seq<string>, ok: nat -> bool, i: nat, fuel: nat): Recovery
    requires i <= |resume|
    decreases |resume| - i
  {
    if fuel == 0 then Recovery(Some(Record(Starting, resume)), resume[..i])
    else if i == |resume| then Recovery(Some(Record(Ready, [])), resume)
    else if ok(i) then RecoverFrom(resume, ok, i + 1, fuel - 1)
    else Recovery(Some(Record(Broken, resume)), resume[..i])
  }

  function StartCall(record: Option<Record>, ok: nat -> bool, fuel: nat): Recovery {
    if IsReady(record) || fuel == 0 then Recovery(record, []) else RecoverFrom(record.value.resume, ok, 0, fuel - 1)
  }

  class Host {
    var record: Option<Record>

    constructor (record: Option<Record>)
      ensures this.record == record
    {
      this.record := record;
    }

    method ShutdownHost(listing: seq<Workspace>, ok: nat -> bool, fuel: nat) returns (errors: seq<string>)
      modifies this
      ensures record == ShutdownCall(old(record), listing, ok, fuel)
    {
      errors := [];
      if record.Some? && record.value.phase != Ready { return; }
      if fuel == 0 { return; }
      var resumeWorkspaces, shutdownWorkspaces := ReadyNames(listing), StopNames(listing);
      record := Some(Record(Stopping, resumeWorkspaces));
      for i := 0 to |shutdownWorkspaces|
        invariant record == Some(Record(Stopping, resumeWorkspaces)) && i + 1 <= fuel
        invariant errors == [] <==> forall k | 0 <= k < i :: ok(k)
      {
        if fuel == i + 1 { return; }
        if !ok(i) { errors := errors + [shutdownWorkspaces[i]]; }
      }
      if fuel == |shutdownWorkspaces| + 1 { return; }
      record := Some(Record(if errors == [] then Stopped else Broken, resumeWorkspaces));
    }

    method StartHost(ok: nat -> bool, fuel: nat) returns (recovered: seq<string>)
      modifies this
      ensures Recovery(record, recovered) == StartCall(old(record), ok, fuel)
    {
      recovered := [];
      if record.None? || record.value.phase == Ready || fuel == 0 { return; }
      var resume := record.value.resume;
      record := Some(Record(Starting, resume));
      var i, left := 0, fuel - 1;
      while i < |resume|
        invariant 0 <= i <= |resume| && 0 <= left && record == Some(Record(Starting, resume))
        invariant recovered == resume[..i]
        invariant RecoverFrom(resume, ok, 0, fuel - 1) == RecoverFrom(resume, ok, i, left)
      {
        if left == 0 { return; }
        if !ok(i) {
          record := Some(Record(Broken, resume));
          return;
        }
        recovered := recovered + [resume[i]];
        i, left := i + 1, left - 1;
      }
      assert resume[..|resume|] == resume;
      if left == 0 { return; }
      record := Some(Record(Ready, []));
    }
  }

  lemma {:induction false} RecoverIsExact(resume: seq<string>, ok: nat -> bool, i: nat, fuel: nat)
    requires i <= |resume|
    ensures var r := RecoverFrom(resume, ok, i, fuel);
      && r.record.Some?
      && (r.record.value.phase == Ready ==> r.recovered == resume && r.record.value.resume == [])
      && (r.record.value.phase != Ready ==> r.record.value.resume == resume)
    decreases |resume| - i
  {
    if fuel > 0 && i < |resume| && ok(i) { RecoverIsExact(resume, ok, i + 1, fuel - 1); }
  }

  // ---- runs of calls ----

  /**
   `listed`: the workspaces ready when the last shutdown began; `owed`: no start call since has
   recovered them all.
   */
  datatype World = World(record: Option<Record>, listed: seq<string>, owed: bool)

  datatype Call =
    | Shutdown(listing: seq<Workspace>, ok: nat -> bool, fuel: nat)
    | Start(ok: nat -> bool, fuel: nat)

  function Next(w: World, c: Call): World {
    match c
    case Shutdown(listing, ok, fuel) =>
      var record := ShutdownCall(w.record, listing, ok, fuel);
      if IsReady(w.record) && fuel > 0 then World(record, ReadyNames(listing), true) else w.(record := record)
    case Start(ok, fuel) =>
      var r := StartCall(w.record, ok, fuel);
      World(r.record, w.listed, w.owed && r.recovered != w.listed)
  }

  function Run(w: World, calls: seq<Call>): World
    decreases |calls|
  {
    if calls == [] then w else Run(Next(w, calls[0]), calls[1..])
  }

  /** A host that is not ready keeps the list; a host that owes the list is not ready. */
  predicate Keeps(w: World) {
    (!IsReady(w.record) ==> w.record.value.resume == w.listed) && (w.owed ==> !IsReady(w.record))
  }

  lemma NextKeeps(w: World, c: Call)
    requires Keeps(w)
    ensures Keeps(Next(w, c))
  {
    if c.Start? && !IsReady(w.record) && c.fuel > 0 { RecoverIsExact(w.record.value.resume, c.ok, 0, c.fuel - 1); }
  }

  lemma {:induction false} RunKeeps(w: World, calls: seq<Call>)
    requires Keeps(w)
    ensures Keeps(Run(w, calls))
    decreases |calls|
  {
    hide Keeps, Next;
    if calls != [] {
      NextKeeps(w, calls[0]);
      RunKeeps(Next(w, calls[0]), calls[1..]);
    }
  }

  /**
   Through any crashes and failed calls: from the moment a shutdown records its list until one start
   call has recovered every name on it, the record holds exactly that list.
   */
  lemma ResumeListIsKept(w: World, calls: seq<Call>)
    requires Keeps(w)
    ensures var r := Run(w, calls); r.owed ==> r.record.Some? && r.record.value.phase != Ready && r.record.value.resume == r.listed
  {
    RunKeeps(w, calls);
  }

  /** The host becomes ready again only through a start call that recovered the whole list. */
  lemma ReadyMeansRecovered(w: World, calls: seq<Call>, c: Call)
    requires Keeps(w)
    ensures var r := Run(w, calls);
      !IsReady(r.record) && IsReady(Next(r, c).record) ==>
      c.Start? && StartCall(r.record, c.ok, c.fuel).recovered == r.listed
  {
    RunKeeps(w, calls);
    var r := Run(w, calls);
    if c.Start? && !IsReady(r.record) && c.fuel > 0 { RecoverIsExact(r.record.value.resume, c.ok, 0, c.fuel - 1); }
  }

  /**
   A shutdown of a ready host that no crash cuts short ends stopped exactly when every stop succeeded and
   broken otherwise; cut short after its first write it is left stopping. Either way the list holds
   exactly the ready workspaces.
   */
  lemma UndisturbedShutdown(record: Option<Record>, listing: seq<Workspace>, ok: nat -> bool, fuel: nat, name: string)
    requires (record.Some? ==> record.value.phase == Ready) && fuel > 0
    ensures var r := ShutdownCall(record, listing, ok, fuel);
      && r.Some? && (name in r.value.resume <==> Workspace(name, WorkspaceReady) in listing)
      && (if fuel < |StopNames(listing)| + 2 then r.value.phase == Stopping
          else if exists i: nat :: i < |StopNames(listing)| && !ok(i) then r.value.phase == Broken
          else r.value.phase == Stopped)
  {
    NamesExact(listing, name);
  }

  /** A host that is not ready refuses a shutdown, and a ready one has nothing to start. */
  lemma RefusedCalls(record: Option<Record>, listing: seq<Workspace>, ok: nat -> bool, fuel: nat)
    ensures record.Some? && record.value.phase != Ready ==> ShutdownCall(record, listing, ok, fuel) == record
    ensures (record.Some? ==> record.value.phase == Ready) ==> StartCall(record, ok, fuel) == Recovery(record, [])
  {
  }

  /** A start call in which every recovery succeeds and no crash comes makes the host ready. */
  lemma {:induction false} UndisturbedStart(resume: seq<string>, ok: nat -> bool, i: nat, fuel: nat)
    requires i <= |resume| && fuel > |resume| - i && forall k :: i <= k < |resume| ==> ok(k)
    ensures RecoverFrom(resume, ok, i, fuel) == Recovery(Some(Record(Ready, [])), resume)
    decreases |resume| - i
  {
    if i < |resume| { UndisturbedStart(resume, ok, i + 1, fuel - 1); }
  }

  /** One that fails stops at the first name it cannot recover, broken, with the whole list kept. */
  lemma {:induction false} FailedStart(resume: seq<string>, ok: nat -> bool, i: nat, j: nat, fuel: nat)
    requires i <= j < |resume| && fuel > j - i && (forall k :: i <= k < j ==> ok(k)) && !ok(j)
    ensures RecoverFrom(resume, ok, i, fuel) == Recovery(Some(Record(Broken, resume)), resume[..j])
    decreases |resume| - i
  {
    if i < j { FailedStart(resume, ok, i + 1, j, fuel - 1); }
  }
}
