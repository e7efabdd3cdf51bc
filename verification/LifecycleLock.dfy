/**
 The lifecycle lock (core/packages/core/src/lifecycleLock.ts): a kernel guard in front of a durable
 owner record. Any number of acquirers in any number of processes interleave with process exits,
 reboots, write faults and the loss of the guard's helper process.
 */
module LifecycleLock {
  import opened Wrappers

  /** A process instance: the boot it runs in, its pid, and its start time in clock ticks. */
  datatype Process = Process(bootId: string, pid: nat, startTicks: string)

  datatype Owner = Owner(process: Process, nonce: string)

  datatype OwnerFile = Missing | Malformed | Unreadable | Valid(owner: Owner)

  /** Where an acquirer stands in `acquireLifecycleLock` and the release function it returns. */
  datatype Phase =
    | Waiting
    | Guarded
    | Probing(seen: Owner)
    | Publishing
    | Holding
    | Releasing
    | Removing
    | Removed
    | Finished
    | Crashed

  datatype Acquirer = Acquirer(process: Process, phase: Phase)

  datatype World = World(
    bootId: string,
    processes: map<nat, string>,
    acquirers: map<string, Acquirer>,
    guard: Option<string>,
    file: OwnerFile)

  predicate Live(w: World, p: Process) {
    p.bootId == w.bootId && p.pid in w.processes && w.processes[p.pid] == p.startTicks
  }

  datatype ProbeResult = ProbedLive | ProbedDead | ProbedReused | ProbedUnknown

  /** `probeProcess`; `readable` is false when the proc file system refuses the answer. */
  function Probe(w: World, owner: Owner, readable: bool): ProbeResult {
    if !readable then ProbedUnknown
    else if owner.process.bootId != w.bootId then ProbedReused
    else if owner.process.pid !in w.processes then ProbedDead
    else if w.processes[owner.process.pid] == owner.process.startTicks then ProbedLive
    else ProbedReused
  }

  datatype Step =
    | Spawn(pid: nat, startTicks: string)
    | Exit(pid: nat)
    | Reboot(bootId: string)
    | Begin(nonce: string, pid: nat)
    | TakeGuard(nonce: string)
    | ReadOwner(nonce: string)
    | ProbeOwner(nonce: string, readable: bool)
    | PublishOwner(nonce: string)
    | PublishFails(nonce: string, renamed: bool)
    | Fault(nonce: string)
    | LoseGuard
    | GiveUp(nonce: string)
    | CallRelease(nonce: string)
    | ReadBack(nonce: string)
    | RemoveRecord(nonce: string)
    | FreeGuard(nonce: string)

  predicate At(w: World, nonce: string, phase: Phase) {
    nonce in w.acquirers && w.acquirers[nonce].phase == phase
  }

  function Move(w: World, nonce: string, phase: Phase): World
    requires nonce in w.acquirers
  {
    w.(acquirers := w.acquirers[nonce := w.acquirers[nonce].(phase := phase)])
  }

  /** Between taking the guard and publishing the record. */
  predicate Critical(p: Phase) { p == Guarded || p.Probing? || p == Publishing }

  /** The lock function has returned and the record is not yet removed. */
  predicate Holder(p: Phase) { p == Holding || p == Releasing || p == Removing }

  /** Where a file operation can throw; the error path frees the guard and leaves the record. */
  predicate CanFault(p: Phase) { Critical(p) || p == Releasing || p == Removing || p == Removed }

  predicate Running(p: Phase) { p != Finished && p != Crashed }

  function Crash(w: World): map<string, Acquirer> {
    map n | n in w.acquirers ::
      if Running(w.acquirers[n].phase) && !Live(w, w.acquirers[n].process)
      then w.acquirers[n].(phase := Crashed) else w.acquirers[n]
  }

  function Unguard(w: World, nonce: string): World {
    if w.guard == Some(nonce) then w.(guard := None) else w
  }

  /** The guard's helper process may die: at any time after its acquirer published or was gone. */
  predicate GuardCanGo(w: World) {
    w.guard.Some? && (w.guard.value in w.acquirers ==> !Critical(w.acquirers[w.guard.value].phase))
  }

  function Next(w: World, s: Step): World {
    match s
    case Spawn(pid, ticks) => if pid in w.processes then w else w.(processes := w.processes[pid := ticks])
    case Exit(pid) =>
      var w' := w.(processes := w.processes - {pid});
      w'.(acquirers := Crash(w'))
    case Reboot(boot) =>
      var w' := w.(bootId := boot, processes := map[], guard := None);
      w'.(acquirers := Crash(w'))
    case Begin(nonce, pid) =>
      if pid !in w.processes || nonce in w.acquirers || (w.file.Valid? && w.file.owner.nonce == nonce) then w
      else w.(acquirers := w.acquirers[nonce := Acquirer(Process(w.bootId, pid, w.processes[pid]), Waiting)])
    case TakeGuard(nonce) =>
      if !At(w, nonce, Waiting) || w.guard.Some? then w else Move(w, nonce, Guarded).(guard := Some(nonce))
    case ReadOwner(nonce) =>
      if !At(w, nonce, Guarded) then w
      else (match w.file
            case Missing => Move(w, nonce, Publishing)
            case Valid(owner) => Move(w, nonce, Probing(owner))
            case _ => Unguard(Move(w, nonce, Waiting), nonce))
    case ProbeOwner(nonce, readable) =>
      if nonce !in w.acquirers || !w.acquirers[nonce].phase.Probing? then w
      else (match Probe(w, w.acquirers[nonce].phase.seen, readable)
            case ProbedDead => Move(w, nonce, Publishing)
            case ProbedReused => Move(w, nonce, Publishing)
            case _ => Unguard(Move(w, nonce, Waiting), nonce))
    case PublishOwner(nonce) =>
      if !At(w, nonce, Publishing) then w
      else Move(w, nonce, Holding).(file := Valid(Owner(w.acquirers[nonce].process, nonce)))
    case PublishFails(nonce, renamed) =>
      if !At(w, nonce, Publishing) then w
      else var w' := Unguard(Move(w, nonce, Finished), nonce);
           if renamed then w'.(file := Valid(Owner(w.acquirers[nonce].process, nonce))) else w'
    case Fault(nonce) =>
      if nonce in w.acquirers && CanFault(w.acquirers[nonce].phase) then Unguard(Move(w, nonce, Finished), nonce) else w
    case LoseGuard => if GuardCanGo(w) then w.(guard := None) else w
    case GiveUp(nonce) => if At(w, nonce, Waiting) then Move(w, nonce, Finished) else w
    case CallRelease(nonce) => if At(w, nonce, Holding) then Move(w, nonce, Releasing) else w
    case ReadBack(nonce) =>
      if !At(w, nonce, Releasing) then w
      else if w.file.Valid? && w.file.owner.nonce == nonce then Move(w, nonce, Removing)
      else Unguard(Move(w, nonce, Finished), nonce)
    case RemoveRecord(nonce) => if At(w, nonce, Removing) then Move(w, nonce, Removed).(file := Missing) else w
    case FreeGuard(nonce) => if At(w, nonce, Removed) then Unguard(Move(w, nonce, Finished), nonce) else w
  }

  function Run(w: World, steps: seq<Step>): World
    decreases |steps|
  {
    if steps == [] then w else Run(Next(w, steps[0]), steps[1..])
  }

  /** No acquirer yet; the record may hold anything an earlier run left behind. */
  ghost predicate Initial(w: World) { w.acquirers == map[] && w.guard == None }

  // ---- the invariant ----

  ghost predicate RunningAreLive(w: World) {
    forall n :: n in w.acquirers && Running(w.acquirers[n].phase) ==> Live(w, w.acquirers[n].process)
  }

  ghost predicate CriticalHasGuard(w: World) {
    forall n :: n in w.acquirers && Critical(w.acquirers[n].phase) ==> w.guard == Some(n)
  }

  ghost predicate HolderOwnsRecord(w: World) {
    forall n :: n in w.acquirers && Holder(w.acquirers[n].phase) ==> w.file == Valid(Owner(w.acquirers[n].process, n))
  }

  /** What an acquirer saw is still there, or was removed by its owner. */
  ghost predicate SeenIsCurrent(w: World) {
    forall n :: n in w.acquirers && w.acquirers[n].phase.Probing? ==> w.file == Valid(w.acquirers[n].phase.seen) || w.file == Missing
  }

  ghost predicate PublisherIsAlone(w: World) {
    forall n, h :: n in w.acquirers && h in w.acquirers && w.acquirers[n].phase == Publishing ==> !Holder(w.acquirers[h].phase)
  }

  ghost predicate Inv(w: World) {
    RunningAreLive(w) && CriticalHasGuard(w) && HolderOwnsRecord(w) && SeenIsCurrent(w) && PublisherIsAlone(w)
  }

  /** The probe never calls a running acquirer's process dead or reused. */
  lemma ProbeSound(w: World, owner: Owner, readable: bool)
    ensures Live(w, owner.process) <==> Probe(w, owner, true) == ProbedLive
    ensures Live(w, owner.process) ==> Probe(w, owner, readable) in {ProbedLive, ProbedUnknown}
  {
  }

  /** Processes disappear, and their acquirers with them; at a reboot all of them and the guard. */
  lemma CrashKeepsInv(w: World, m: World)
    requires Inv(w) && m.acquirers == w.acquirers && m.file == w.file && (m.guard == w.guard || m.processes == map[])
    ensures Inv(m.(acquirers := Crash(m)))
  {
  }

  /** An acquirer that moves back to waiting or out gives the guard up. */
  lemma LeaveKeepsInv(w: World, nonce: string, phase: Phase)
    requires Inv(w) && nonce in w.acquirers && Running(w.acquirers[nonce].phase)
    requires (phase == Waiting || phase == Finished)
    ensures Inv(Unguard(Move(w, nonce, phase), nonce))
  {
  }

  /** Publishing replaces no record of a running holder: there is none. */
  lemma PublishKeepsInv(w: World, nonce: string, phase: Phase)
    requires Inv(w) && At(w, nonce, Publishing) && (phase == Holding || phase == Finished)
    ensures var w' := Move(w, nonce, phase).(file := Valid(Owner(w.acquirers[nonce].process, nonce)));
      Inv(w') && Inv(Unguard(w', nonce))
  {
  }

  lemma RemoveKeepsInv(w: World, nonce: string)
    requires Inv(w) && At(w, nonce, Removing)
    ensures Inv(Move(w, nonce, Removed).(file := Missing))
  {
  }

  lemma ForwardKeepsInv(w: World, nonce: string, phase: Phase)
    requires Inv(w) && nonce in w.acquirers && Running(w.acquirers[nonce].phase)
    requires Holder(phase) ==> Holder(w.acquirers[nonce].phase)
    requires Critical(phase) ==> Critical(w.acquirers[nonce].phase) || (w.guard == None && phase == Guarded)
    requires phase.Probing? ==> w.file == Valid(phase.seen)
    requires phase == Publishing ==> forall h :: h in w.acquirers ==> !Holder(w.acquirers[h].phase)
    requires Running(phase)
    ensures Inv(if w.guard == None && phase == Guarded then Move(w, nonce, phase).(guard := Some(nonce)) else Move(w, nonce, phase))
  {
  }

  /** An owner found missing, dead or reused leaves no holder. */
  lemma NoHolderLeft(w: World, nonce: string)
    requires Inv(w) && nonce in w.acquirers
    requires (At(w, nonce, Guarded) && w.file == Missing)
          || (w.acquirers[nonce].phase.Probing? && !Live(w, w.acquirers[nonce].phase.seen.process))
    ensures forall h :: h in w.acquirers ==> !Holder(w.acquirers[h].phase)
  {
  }

  lemma StepKeepsInv(w: World, s: Step)
    requires Inv(w)
    ensures Inv(Next(w, s))
  {
    hide RunningAreLive, CriticalHasGuard, HolderOwnsRecord, SeenIsCurrent, PublisherIsAlone, Live;
    match s
    case Spawn(pid, ticks) => SpawnKeepsInv(w, pid, ticks);
    case Exit(pid) => CrashKeepsInv(w, w.(processes := w.processes - {pid}));
    case Reboot(boot) => CrashKeepsInv(w, w.(bootId := boot, processes := map[], guard := None));
    case Begin(nonce, pid) => BeginKeepsInv(w, nonce, pid);
    case TakeGuard(nonce) => if At(w, nonce, Waiting) && w.guard == None { ForwardKeepsInv(w, nonce, Guarded); }
    case ReadOwner(nonce) =>
      if At(w, nonce, Guarded) {
        LeaveKeepsInv(w, nonce, Waiting);
        if w.file == Missing { NoHolderLeft(w, nonce); ForwardKeepsInv(w, nonce, Publishing); }
        if w.file.Valid? { ForwardKeepsInv(w, nonce, Probing(w.file.owner)); }
      }
    case ProbeOwner(nonce, readable) =>
      if nonce in w.acquirers && w.acquirers[nonce].phase.Probing? {
        LeaveKeepsInv(w, nonce, Waiting);
        ProbeSound(w, w.acquirers[nonce].phase.seen, readable);
        if !Live(w, w.acquirers[nonce].phase.seen.process) {
          NoHolderLeft(w, nonce); ForwardKeepsInv(w, nonce, Publishing);
        }
      }
    case PublishOwner(nonce) => if At(w, nonce, Publishing) { PublishKeepsInv(w, nonce, Holding); }
    case PublishFails(nonce, renamed) =>
      if At(w, nonce, Publishing) { LeaveKeepsInv(w, nonce, Finished); PublishKeepsInv(w, nonce, Finished); }
    case Fault(nonce) =>
      if nonce in w.acquirers && CanFault(w.acquirers[nonce].phase) { LeaveKeepsInv(w, nonce, Finished); }
    case LoseGuard => LoseGuardKeepsInv(w);
    case GiveUp(nonce) => if At(w, nonce, Waiting) { GiveUpKeepsInv(w, nonce); }
    case CallRelease(nonce) => if At(w, nonce, Holding) { ForwardKeepsInv(w, nonce, Releasing); }
    case ReadBack(nonce) =>
      if At(w, nonce, Releasing) { ForwardKeepsInv(w, nonce, Removing); LeaveKeepsInv(w, nonce, Finished); }
    case RemoveRecord(nonce) => if At(w, nonce, Removing) { RemoveKeepsInv(w, nonce); }
    case FreeGuard(nonce) => if At(w, nonce, Removed) { LeaveKeepsInv(w, nonce, Finished); }
  }

  lemma SpawnKeepsInv(w: World, pid: nat, ticks: string)
    requires Inv(w)
    ensures Inv(Next(w, Spawn(pid, ticks)))
  {
  }

  lemma BeginKeepsInv(w: World, nonce: string, pid: nat)
    requires Inv(w)
    ensures Inv(Next(w, Begin(nonce, pid)))
  {
  }

  lemma LoseGuardKeepsInv(w: World)
    requires Inv(w)
    ensures Inv(Next(w, LoseGuard))
  {
  }

  lemma GiveUpKeepsInv(w: World, nonce: string)
    requires Inv(w) && At(w, nonce, Waiting)
    ensures Inv(Move(w, nonce, Finished))
  {
  }

  lemma {:induction false} RunKeepsInv(w: World, steps: seq<Step>)
    requires Inv(w)
    ensures Inv(Run(w, steps))
    decreases |steps|
  {
    hide Inv, Next;
    if steps != [] {
      StepKeepsInv(w, steps[0]);
      RunKeepsInv(Next(w, steps[0]), steps[1..]);
    }
  }

  // ---- what the lock promises ----

  /** At most one running acquirer holds the lock, and the record names it. */
  lemma MutualExclusion(w: World, steps: seq<Step>, a: string, b: string)
    requires Initial(w)
    requires var r := Run(w, steps).acquirers; a in r && b in r && Holder(r[a].phase) && Holder(r[b].phase)
    ensures a == b
    ensures var r := Run(w, steps); r.file == Valid(Owner(r.acquirers[a].process, a)) && Live(r, r.acquirers[a].process)
  {
    RunKeepsInv(w, steps);
  }

  /** A record is only ever replaced when nobody holds the lock, or removed by the acquirer it names. */
  lemma RecordIsRespected(w: World, steps: seq<Step>, s: Step)
    requires Initial(w)
    ensures var r := Run(w, steps); r.file.Valid? && Next(r, s).file != r.file ==>
      || s == RemoveRecord(r.file.owner.nonce)
      || ((s.PublishOwner? || s.PublishFails?) && forall h :: h in r.acquirers ==> !Holder(r.acquirers[h].phase))
  {
    RunKeepsInv(w, steps);
  }

  /** Releasing deletes the acquirer's own record and no other. */
  lemma ReleaseRemovesOwnRecord(w: World, steps: seq<Step>, nonce: string)
    requires Initial(w)
    ensures var r := Run(w, steps); At(r, nonce, Removing) ==>
      r.file == Valid(Owner(r.acquirers[nonce].process, nonce)) && Next(r, RemoveRecord(nonce)).file == Missing
  {
    RunKeepsInv(w, steps);
  }

  /**
   When the recorded process is gone and nobody is between guard and record, any waiting acquirer can
   take the lock over.
   */
  lemma TakeOver(w: World, nonce: string)
    requires At(w, nonce, Waiting) && (w.file == Missing || (w.file.Valid? && !Live(w, w.file.owner.process)))
    requires w.guard.Some? ==> GuardCanGo(w)
    ensures At(Run(w, [LoseGuard, TakeGuard(nonce), ReadOwner(nonce), ProbeOwner(nonce, true), PublishOwner(nonce)]), nonce, Holding)
  {
    hide Run, At, Live, GuardCanGo, Next;
    var w1, w2 := TakesFreeGuard(w, nonce);
    var w3, w4 := FindsNoOwner(w2, nonce);
    var last := [PublishOwner(nonce)];
    var probe, read, take := [ProbeOwner(nonce, true)] + last, [ReadOwner(nonce), ProbeOwner(nonce, true)] + last,
      [TakeGuard(nonce), ReadOwner(nonce), ProbeOwner(nonce, true)] + last;
    Unroll(w4, PublishOwner(nonce), []);
    assert last == [PublishOwner(nonce)] + [];
    Unroll(w3, ProbeOwner(nonce, true), last);
    Unroll(w2, ReadOwner(nonce), probe);
    assert read == [ReadOwner(nonce)] + probe;
    Unroll(w1, TakeGuard(nonce), read);
    assert take == [TakeGuard(nonce)] + read;
    Unroll(w, LoseGuard, take);
    assert [LoseGuard, TakeGuard(nonce), ReadOwner(nonce), ProbeOwner(nonce, true), PublishOwner(nonce)] == [LoseGuard] + take;
    Published(w4, nonce);
  }

  /**
   And so, from any state in which the recorded process is gone: whoever is between guard and record
   only has to fail first.
   */
  lemma TakeOverAlways(w: World, nonce: string) returns (steps: seq<Step>)
    requires At(w, nonce, Waiting) && (w.file == Missing || (w.file.Valid? && !Live(w, w.file.owner.process)))
    ensures At(Run(w, steps), nonce, Holding)
    ensures forall i :: 0 <= i < |steps| ==> !steps[i].Exit? && !steps[i].Reboot? && !steps[i].Spawn?
  {
    var five := [LoseGuard, TakeGuard(nonce), ReadOwner(nonce), ProbeOwner(nonce, true), PublishOwner(nonce)];
    if w.guard.Some? && !GuardCanGo(w) {
      var g := w.guard.value;
      ContenderFails(w, g, nonce);
      TakeOver(Next(w, Fault(g)), nonce);
      Unroll(w, Fault(g), five);
      steps := [Fault(g)] + five;
    } else {
      TakeOver(w, nonce);
      steps := five;
    }
  }

  lemma ContenderFails(w: World, g: string, nonce: string)
    requires w.guard == Some(g) && !GuardCanGo(w) && At(w, nonce, Waiting)
    ensures var w' := Next(w, Fault(g));
      w'.guard == None && w'.file == w.file && At(w', nonce, Waiting) && forall p :: Live(w', p) == Live(w, p)
  {
  }

  lemma TakesFreeGuard(w: World, nonce: string) returns (w1: World, w2: World)
    requires At(w, nonce, Waiting) && (w.guard.Some? ==> GuardCanGo(w))
    ensures w1 == Next(w, LoseGuard) && w2 == Next(w1, TakeGuard(nonce)) && At(w2, nonce, Guarded)
    ensures w2.file == w.file && forall p :: Live(w2, p) == Live(w, p)
  {
    w1 := Next(w, LoseGuard);
    w2 := Next(w1, TakeGuard(nonce));
  }

  lemma FindsNoOwner(w: World, nonce: string) returns (w1: World, w2: World)
    requires At(w, nonce, Guarded) && (w.file == Missing || (w.file.Valid? && !Live(w, w.file.owner.process)))
    ensures w1 == Next(w, ReadOwner(nonce)) && w2 == Next(w1, ProbeOwner(nonce, true)) && At(w2, nonce, Publishing)
  {
    w1 := Next(w, ReadOwner(nonce));
    w2 := Next(w1, ProbeOwner(nonce, true));
  }

  lemma Published(w: World, nonce: string)
    requires At(w, nonce, Publishing)
    ensures At(Run(Next(w, PublishOwner(nonce)), []), nonce, Holding)
  {
  }

  lemma Unroll(w: World, s: Step, rest: seq<Step>)
    ensures Run(w, [s] + rest) == Run(Next(w, s), rest)
  {
    hide Next;
    assert ([s] + rest)[1..] == rest;
  }

  // ---- when the lock cannot be had ----

  /**
   Nobody holds the lock or is about to, and the record, though of no holder, cannot be taken over: its
   process is live, or it cannot be read as a record.
   */
  ghost predicate Frozen(w: World) {
    && w.file != Missing && (w.file.Valid? ==> Live(w, w.file.owner.process))
    && forall n :: n in w.acquirers ==> !Holder(w.acquirers[n].phase) && w.acquirers[n].phase != Publishing
  }

  /** The process that the record names ends, by itself or with the host. */
  predicate Frees(w: World, s: Step) {
    w.file.Valid? && (s == Exit(w.file.owner.process.pid) || s.Reboot?)
  }

  lemma CrashStaysFrozen(w: World, m: World)
    requires Frozen(w) && m.acquirers == w.acquirers && m.file == w.file
    requires m.file.Valid? ==> Live(m, m.file.owner.process)
    ensures Frozen(m.(acquirers := Crash(m)))
  {
  }

  lemma MoveStaysFrozen(w: World, nonce: string, phase: Phase, guard: Option<string>)
    requires Frozen(w) && nonce in w.acquirers && !Holder(phase) && phase != Publishing
    ensures Frozen(Move(w, nonce, phase).(guard := guard))
  {
  }

  /** Only the end of the recorded process thaws the lock; a record that cannot be read thaws never. */
  lemma StepStaysFrozen(w: World, s: Step)
    requires Inv(w) && Frozen(w) && !Frees(w, s)
    ensures Frozen(Next(w, s)) && Next(w, s).file == w.file
  {
    hide RunningAreLive, CriticalHasGuard, HolderOwnsRecord, PublisherIsAlone;
    match s
    case Exit(pid) => CrashStaysFrozen(w, w.(processes := w.processes - {pid}));
    case Reboot(boot) => CrashStaysFrozen(w, w.(bootId := boot, processes := map[], guard := None));
    case ReadOwner(nonce) => if At(w, nonce, Guarded) { FrozenRead(w, nonce); }
    case ProbeOwner(nonce, readable) =>
      if nonce in w.acquirers && w.acquirers[nonce].phase.Probing? {
        ProbeSound(w, w.acquirers[nonce].phase.seen, readable);
        MoveStaysFrozen(w, nonce, Waiting, Unguard(w, nonce).guard);
      }
    case TakeGuard(nonce) => if At(w, nonce, Waiting) { MoveStaysFrozen(w, nonce, Guarded, Some(nonce)); }
    case Fault(nonce) => if nonce in w.acquirers { MoveStaysFrozen(w, nonce, Finished, Unguard(w, nonce).guard); }
    case GiveUp(nonce) => if At(w, nonce, Waiting) { MoveStaysFrozen(w, nonce, Finished, w.guard); }
    case FreeGuard(nonce) => if At(w, nonce, Removed) { MoveStaysFrozen(w, nonce, Finished, Unguard(w, nonce).guard); }
    case _ =>
  }

  lemma FrozenRead(w: World, nonce: string)
    requires Frozen(w) && At(w, nonce, Guarded)
    ensures Frozen(Next(w, ReadOwner(nonce)))
  {
    if w.file.Valid? { MoveStaysFrozen(w, nonce, Probing(w.file.owner), w.guard); }
    MoveStaysFrozen(w, nonce, Waiting, Unguard(w, nonce).guard);
  }

  /** No step of the run ends a process. */
  predicate Gentle(steps: seq<Step>) { forall i :: 0 <= i < |steps| ==> !steps[i].Exit? && !steps[i].Reboot? }

  lemma {:induction false} RunStaysFrozen(w: World, steps: seq<Step>)
    requires Inv(w) && Frozen(w) && Gentle(steps)
    ensures Frozen(Run(w, steps))
    decreases |steps|
  {
    hide Inv, Frozen, Next;
    if steps != [] {
      assert !Frees(w, steps[0]);
      StepKeepsInv(w, steps[0]);
      StepStaysFrozen(w, steps[0]);
      RunStaysFrozen(Next(w, steps[0]), steps[1..]);
    }
  }

  lemma {:induction false} RunConcat(w: World, a: seq<Step>, b: seq<Step>)
    ensures Run(w, a + b) == Run(Run(w, a), b)
    decreases |a|
  {
    hide Next;
    if a == [] {
      assert a + b == b;
    } else {
      assert (a + b)[1..] == a[1..] + b;
      RunConcat(Next(w, a[0]), a[1..], b);
    }
  }

  /** A holder lets go: whatever part of its release is left. */
  lemma HolderReleases(w: World, h: string, nonce: string)
    requires Inv(w) && h in w.acquirers && Holder(w.acquirers[h].phase) && At(w, nonce, Waiting)
    ensures var steps := [CallRelease(h), ReadBack(h), RemoveRecord(h)];
      Run(w, steps).file == Missing && At(Run(w, steps), nonce, Waiting)
  {
    hide RunningAreLive, CriticalHasGuard, SeenIsCurrent, PublisherIsAlone, Run;
    var w1 := Next(w, CallRelease(h));
    var w2 := Next(w1, ReadBack(h));
    assert At(w2, h, Removing) && At(w2, nonce, Waiting);
    var w3 := Next(w2, RemoveRecord(h));
    Unroll(w, CallRelease(h), [ReadBack(h), RemoveRecord(h)]);
    Unroll(w1, ReadBack(h), [RemoveRecord(h)]);
    Unroll(w2, RemoveRecord(h), []);
    NoSteps(w3);
    assert [RemoveRecord(h)] + [] == [RemoveRecord(h)];
    assert [ReadBack(h)] + [RemoveRecord(h)] == [ReadBack(h), RemoveRecord(h)];
    assert [CallRelease(h)] + [ReadBack(h), RemoveRecord(h)] == [CallRelease(h), ReadBack(h), RemoveRecord(h)];
  }

  lemma NoSteps(w: World)
    ensures Run(w, []) == w
  {
  }

  lemma AfterHolder(w: World, h: string, nonce: string) returns (steps: seq<Step>)
    requires Inv(w) && h in w.acquirers && Holder(w.acquirers[h].phase) && At(w, nonce, Waiting)
    ensures Gentle(steps) && At(Run(w, steps), nonce, Holding)
  {
    hide Inv, Run;
    HolderReleases(w, h, nonce);
    var release := [CallRelease(h), ReadBack(h), RemoveRecord(h)];
    var rest := TakeOverAlways(Run(w, release), nonce);
    RunConcat(w, release, rest);
    steps := release + rest;
  }

  lemma AfterPublisher(w: World, p: string, nonce: string) returns (steps: seq<Step>)
    requires Inv(w) && At(w, p, Publishing) && At(w, nonce, Waiting)
    ensures Gentle(steps) && At(Run(w, steps), nonce, Holding)
  {
    var w1 := Next(w, PublishOwner(p));
    assert At(w1, p, Holding) && At(w1, nonce, Waiting);
    StepKeepsInv(w, PublishOwner(p));
    hide Inv, Run, Next;
    var rest := AfterHolder(w1, p, nonce);
    Unroll(w, PublishOwner(p), rest);
    steps := [PublishOwner(p)] + rest;
  }

  /**
   The exact condition: a waiting acquirer can come to hold the lock without any process ending exactly
   when the lock is not frozen.
   */
  lemma LockAvailableExactly(w: World, nonce: string)
    requires Inv(w) && At(w, nonce, Waiting)
    ensures (exists steps :: Gentle(steps) && At(Run(w, steps), nonce, Holding)) <==> !Frozen(w)
  {
    if Frozen(w) {
      forall steps | Gentle(steps) ensures !At(Run(w, steps), nonce, Holding) { RunStaysFrozen(w, steps); }
    } else if n :| n in w.acquirers && Holder(w.acquirers[n].phase) {
      var steps := AfterHolder(w, n, nonce);
    } else if n :| n in w.acquirers && w.acquirers[n].phase == Publishing {
      var steps := AfterPublisher(w, n, nonce);
    } else {
      var steps := TakeOverAlways(w, nonce);
      assert Gentle(steps);
    }
  }

  /** A release that fails once it has read its record back freezes the lock, in every run. */
  lemma FailedReleaseFreezes(w: World, steps: seq<Step>, nonce: string)
    requires Initial(w) && At(Run(w, steps), nonce, Removing)
    ensures Frozen(Next(Run(w, steps), Fault(nonce)))
  {
    hide Run;
    RunKeepsInv(w, steps);
    FaultFreezes(Run(w, steps), nonce);
  }

  lemma FaultFreezes(w: World, nonce: string)
    requires Inv(w) && At(w, nonce, Removing)
    ensures Frozen(Next(w, Fault(nonce)))
  {
    var r := Next(w, Fault(nonce));
    assert r.acquirers[nonce].phase == Finished && r.file == w.file;
    assert forall n | n in w.acquirers && n != nonce :: r.acquirers[n] == w.acquirers[n];
  }

  /** So does a publication that fails after its record is in place. */
  lemma FailedPublicationFreezes(w: World, steps: seq<Step>, nonce: string)
    requires Initial(w) && At(Run(w, steps), nonce, Publishing)
    ensures Frozen(Next(Run(w, steps), PublishFails(nonce, true)))
  {
    hide Run;
    RunKeepsInv(w, steps);
    PublishFaultFreezes(Run(w, steps), nonce);
  }

  lemma PublishFaultFreezes(w: World, nonce: string)
    requires Inv(w) && At(w, nonce, Publishing)
    ensures Frozen(Next(w, PublishFails(nonce, true)))
  {
    var r := Next(w, PublishFails(nonce, true));
    assert r.acquirers[nonce].phase == Finished;
    assert forall n | n in w.acquirers && n != nonce :: r.acquirers[n] == w.acquirers[n];
  }

  /** The guard is needed up to publication: losing it earlier lets two acquirers hold the lock. */
  lemma EarlyGuardLossBreaksExclusion(w: World, a: string, b: string, pid: nat)
    requires Initial(w) && w.file == Missing && a != b && pid in w.processes
    ensures var w3 := Next(Next(Next(Next(w, Begin(a, pid)), Begin(b, pid)), TakeGuard(a)), ReadOwner(a));
            var lost := w3.(guard := None);
            var w7 := Next(Next(Next(Next(lost, TakeGuard(b)), ReadOwner(b)), PublishOwner(a)), PublishOwner(b));
      w3.guard == Some(a) && !GuardCanGo(w3) && At(w7, a, Holding) && At(w7, b, Holding)
  {
    var w3 := Next(Next(Next(Next(w, Begin(a, pid)), Begin(b, pid)), TakeGuard(a)), ReadOwner(a));
    assert At(w3, a, Publishing) && At(w3, b, Waiting);
    var lost := w3.(guard := None);
    var w5 := Next(Next(lost, TakeGuard(b)), ReadOwner(b));
    assert At(w5, a, Publishing) && At(w5, b, Publishing);
  }
}
