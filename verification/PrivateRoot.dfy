/**
 The host's private work directory (core/packages/core/src/nativeOrdinaryExecutorRoot.ts): created in
 a staging directory with an owner marker, then renamed; cleaned up from the planned identity after a
 crash at any file operation.
 */
module PrivateRoot {
  import opened Wrappers

  type Mode = bv9

  const DIRECTORY_MODE: Mode := 0x1C0 // rwx------
  const MARKER_MODE: Mode := 0x180 // rw-------

  datatype File = File(regular: bool, uid: nat, mode: Mode, links: nat, bytes: string)

  datatype Directory = Directory(real_: bool, uid: nat, mode: Mode, inode: nat, entries: map<string, File>)

  /** The parent directory: whether it is private, and what it holds by name. */
  datatype FileSystem = FileSystem(private: bool, entries: map<string, Directory>)

  datatype Identity = Planned(rootId: string) | Created(rootId: string, inode: nat)

  /** The reading of a marker's text: the root and claim it names, if it is one. */
  type Reader = string -> Option<(string, string)>

  const MARKER_NAME := ".dim-native-ordinary-owner.json"

  function FinalName(rootId: string): string { "work-" + rootId }

  function StagingName(rootId: string): string { ".work-" + rootId + ".staging" }

  function MarkerText(rootId: string, claimId: string): string {
    "{\"schemaVersion\":1,\"rootId\":\"" + rootId + "\",\"claimId\":\"" + claimId + "\"}"
  }

  predicate IsPrivate(d: Directory, uid: nat) { d.real_ && d.uid == uid && d.mode == DIRECTORY_MODE }

  predicate OwnFile(f: File, uid: nat) { f.regular && f.uid == uid && f.mode == MARKER_MODE && f.links == 1 }

  predicate MarkerMatches(d: Directory, uid: nat, read: Reader, rootId: string, claimId: string) {
    MARKER_NAME in d.entries && OwnFile(d.entries[MARKER_NAME], uid) && 1 <= |d.entries[MARKER_NAME].bytes| <= 1024
    && read(d.entries[MARKER_NAME].bytes) == Some((rootId, claimId))
  }

  // ---- creation, one file operation at a time ----

  function Marker(uid: nat, mode: Mode,
      bytes: string): map<string, File> { map[MARKER_NAME := File(true, uid, mode, 1, bytes)] }

  /** The staging directory after `k` of: mkdir, chmod, open, chmod, then one more byte of the marker each. */
  function Staged(uid: nat, umask: Mode, inode: nat, text: string, k: nat): Directory
    requires 0 < k <= 4 + |text|
  {
    if k == 1 then Directory(true, uid, DIRECTORY_MODE & !umask, inode, map[])
    else if k == 2 then Directory(true, uid, DIRECTORY_MODE, inode, map[])
    else if k == 3 then Directory(true, uid, DIRECTORY_MODE, inode, Marker(uid, MARKER_MODE & !umask, ""))
    else Directory(true, uid, DIRECTORY_MODE, inode, Marker(uid, MARKER_MODE, text[..k - 4]))
  }

  /** The file system when creation has come `k` operations far; the last is the rename. */
  function Interrupted(fs: FileSystem, uid: nat, umask: Mode, inode: nat, rootId: string, text: string,
      k: nat): FileSystem {
    if k == 0 then fs
    else if k <= 4 + |text| then fs.(entries := fs.entries[StagingName(rootId) := Staged(uid, umask, inode, text, k)])
    else fs.(entries := fs.entries[FinalName(rootId) := Staged(uid, umask, inode, text, 4 + |text|)])
  }

  datatype Outcome = Crashed | Refused | Done(identity: Identity)

  /** What `create` has done when it ends or crashes after `budget` file operations. */
  function CreatedUpTo(fs: FileSystem, uid: nat, umask: Mode, read: Reader, identity: Identity, claimId: string,
      inode: nat, budget: nat): (FileSystem, Outcome) {
    var rootId, text := identity.rootId, MarkerText(identity.rootId, claimId);
    if identity.Created? || !fs.private || StagingName(rootId) in fs.entries then (fs, Refused)
    else if budget < 4 + |text| then (Interrupted(fs, uid, umask, inode, rootId, text, budget), Crashed)
    else if !CanPublish(fs, read, rootId, claimId) then (Interrupted(fs, uid, umask, inode, rootId, text, 4 + |text|), Refused)
    else if budget == 4 + |text| then (Interrupted(fs, uid, umask, inode, rootId, text, 4 + |text|), Crashed)
    else (Interrupted(fs, uid, umask, inode, rootId, text, 5 + |text|), Done(Created(rootId, inode)))
  }

  /** The complete marker passes its own check exactly when it reads back and is not too long. */
  lemma CompleteMarker(uid: nat, umask: Mode, inode: nat, read: Reader, rootId: string, claimId: string)
    ensures var text := MarkerText(rootId, claimId); var d := Staged(uid, umask, inode, text, 4 + |text|);
      IsPrivate(d, uid) && (MarkerMatches(d, uid, read, rootId, claimId) <==> |text| <= 1024 && read(text) == Some((rootId, claimId)))
  {
    var text := MarkerText(rootId, claimId);
    assert text[..|text|] == text && |text| >= 1;
  }

  class PrivateRootHost {
    const uid: nat
    const umask: Mode
    const read: Reader
    var fs: FileSystem

    constructor (uid: nat, umask: Mode, read: Reader, fs: FileSystem)
      ensures this.uid == uid && this.umask == umask && this.read == read && this.fs == fs
    {
      this.uid, this.umask, this.read, this.fs := uid, umask, read, fs;
    }

    /** Makes or changes one directory of the parent. */
    method Write(name: string, d: Directory, ghost others: map<string, Directory>)
      requires fs.entries == others || (name in fs.entries && fs.entries == others[name := fs.entries[name]])
      modifies this
      ensures fs == old(fs).(entries := others[name := d])
    {
      fs := fs.(entries := fs.entries[name := d]);
    }

    /** Everything up to the complete marker, stopped by a crash after `budget` file operations. */
    method Stage(rootId: string, text: string, inode: nat, budget: nat) returns (crashed: bool)
      requires StagingName(rootId) !in fs.entries
      modifies this
      ensures fs == Interrupted(old(fs), uid, umask, inode, rootId, text, if budget < 4 + |text| then budget else 4 + |text|)
      ensures crashed == (budget < 4 + |text|)
    {
      hide StagingName, FinalName;
      var staging := StagingName(rootId);
      ghost var was := fs;
      if budget == 0 { return true; }
      Write(staging, Directory(true, uid, DIRECTORY_MODE & !umask, inode, map[]), was.entries);
      if budget == 1 { return true; }
      Write(staging, fs.entries[staging].(mode := DIRECTORY_MODE), was.entries);
      if budget == 2 { return true; }
      Write(staging, fs.entries[staging].(entries := Marker(uid, MARKER_MODE & !umask, "")), was.entries);
      if budget == 3 { return true; }
      Write(staging, fs.entries[staging].(entries := Marker(uid, MARKER_MODE, "")), was.entries);
      crashed := WriteMarker(rootId, text, inode, budget, was);
    }

    /** The marker's bytes, of which any number may reach the file. */
    method WriteMarker(rootId: string, text: string, inode: nat, budget: nat,
        ghost was: FileSystem) returns (crashed: bool)
      requires budget >= 4 && fs == Interrupted(was, uid, umask, inode, rootId, text, 4)
      modifies this
      ensures fs == Interrupted(was, uid, umask, inode, rootId, text, if budget < 4 + |text| then budget else 4 + |text|)
      ensures crashed == (budget < 4 + |text|)
    {
      hide StagingName, FinalName;
      var staging := StagingName(rootId);
      var written := 0;
      while written < |text|
        invariant 0 <= written <= |text| && 4 + written <= budget
        invariant fs == Interrupted(was, uid, umask, inode, rootId, text, 4 + written)
      {
        if 4 + written == budget { return true; }
        var marker := fs.entries[staging].entries[MARKER_NAME];
        assert text[..written] + [text[written]] == text[..written + 1];
        Write(staging, fs.entries[staging].(entries := Marker(uid, marker.mode, marker.bytes + [text[written]])),
          was.entries);
        written := written + 1;
      }
      return false;
    }

    /** `create`, stopped by a crash after `budget` file operations. */
    method Create(identity: Identity, claimId: string, inode: nat, budget: nat) returns (r: Outcome)
      modifies this
      ensures (fs, r) == CreatedUpTo(old(fs), uid, umask, read, identity, claimId, inode, budget)
    {
      hide StagingName, FinalName, MarkerText;
      if identity.Created? || !fs.private { return Refused; }
      var rootId, text := identity.rootId, MarkerText(identity.rootId, claimId);
      var staging, final := StagingName(rootId), FinalName(rootId);
      if staging in fs.entries { return Refused; }
      ghost var was := fs;
      var crashed := Stage(rootId, text, inode, budget);
      if crashed { return Crashed; }
      var staged := fs.entries[staging];
      CompleteMarker(uid, umask, inode, read, rootId, claimId);
      StagingIsNotFinal(rootId, rootId);
      hide Staged, MarkerMatches, IsPrivate;
      if !IsPrivate(staged, uid) || !MarkerMatches(staged, uid, read, rootId, claimId) { return Refused; }
      if final in fs.entries { return Refused; }
      if budget == 4 + |text| { return Crashed; }
      fs := fs.(entries := (fs.entries - {staging})[final := staged]);
      assert (was.entries[staging := staged] - {staging}) == was.entries;
      return Done(Created(rootId, inode));
    }

    /** `cleanup`: true when neither directory is left. */
    method Cleanup(identity: Identity, claimId: string) returns (clean: bool)
      modifies this
      ensures (fs, clean) == CleanedUp(old(fs), uid, read, identity, claimId)
    {
      if !fs.private { return false; }
      var staging, final := StagingName(identity.rootId), FinalName(identity.rootId);
      if staging in fs.entries && final in fs.entries { return false; }
      if staging in fs.entries {
        var d := fs.entries[staging];
        if !RemovableStaging(d, uid, MarkerText(identity.rootId, claimId)) { return false; }
        fs := fs.(entries := fs.entries - {staging});
        return true;
      }
      if final !in fs.entries { return true; }
      if !RemovableFinal(fs.entries[final], uid, read, identity, claimId) { return false; }
      fs := fs.(entries := fs.entries - {final});
      return true;
    }
  }

  /** The marker reads back and nothing stands at the final name. */
  predicate CanPublish(fs: FileSystem, read: Reader, rootId: string, claimId: string) {
    var text := MarkerText(rootId, claimId);
    FinalName(rootId) !in fs.entries && |text| <= 1024 && read(text) == Some((rootId, claimId))
  }

  // ---- cleaning up ----

  /** Nothing but the marker, and of it only a beginning of what this claim would have written. */
  predicate RemovableStaging(d: Directory, uid: nat, text: string) {
    && IsPrivate(d, uid)
    && d.entries.Keys <= {MARKER_NAME}
    && (MARKER_NAME in d.entries ==> OwnFile(d.entries[MARKER_NAME], uid) && d.entries[MARKER_NAME].bytes <= text)
  }

  predicate RemovableFinal(d: Directory, uid: nat, read: Reader, identity: Identity, claimId: string) {
    && IsPrivate(d, uid)
    && (identity.Created? ==> d.inode == identity.inode)
    && MarkerMatches(d, uid, read, identity.rootId, claimId)
  }

  function CleanedUp(fs: FileSystem, uid: nat, read: Reader, identity: Identity, claimId: string): (FileSystem, bool) {
    var staging, final := StagingName(identity.rootId), FinalName(identity.rootId);
    if !fs.private || (staging in fs.entries && final in fs.entries) then (fs, false)
    else if staging in fs.entries then
      if RemovableStaging(fs.entries[staging], uid, MarkerText(identity.rootId, claimId))
      then (fs.(entries := fs.entries - {staging}), true)
      else (fs, false)
    else if final !in fs.entries then (fs, true)
    else if RemovableFinal(fs.entries[final], uid, read, identity, claimId) then (fs.(entries := fs.entries - {final}), true)
    else (fs, false)
  }

  lemma StagingIsNotFinal(a: string, b: string)
    ensures StagingName(a) != FinalName(b)
  {
    assert StagingName(a)[0] == '.' && FinalName(b)[0] == 'w';
  }

  lemma NamesApart(a: string, b: string)
    requires a != b
    ensures FinalName(a) != FinalName(b) && StagingName(a) != StagingName(b)
  {
    assert FinalName(a)[5..] == a && FinalName(b)[5..] == b;
    var x, y := StagingName(a), StagingName(b);
    assert x[6..|x| - 8] == a && y[6..|y| - 8] == b;
  }

  /** The windows in which the process mask, not a chmod, decides a mode. */
  predicate MaskAllows(umask: Mode, k: nat) {
    (k == 1 ==> DIRECTORY_MODE & umask == 0) && (k == 3 ==> MARKER_MODE & umask == 0)
  }

  lemma MaskedDirectory(umask: Mode)
    ensures DIRECTORY_MODE & !umask == DIRECTORY_MODE <==> DIRECTORY_MODE & umask == 0
  {
  }

  lemma MaskedMarker(umask: Mode)
    ensures MARKER_MODE & !umask == MARKER_MODE <==> MARKER_MODE & umask == 0
  {
  }

  lemma StagedIsRemovable(uid: nat, umask: Mode, inode: nat, text: string, k: nat)
    requires 0 < k <= 4 + |text|
    ensures RemovableStaging(Staged(uid, umask, inode, text, k), uid, text) <==> MaskAllows(umask, k)
  {
    MaskedDirectory(umask);
    MaskedMarker(umask);
    var d := Staged(uid, umask, inode, text, k);
    if k >= 4 { assert text[..k - 4] <= text; }
    if k >= 3 { assert MARKER_NAME in d.entries; }
  }

  /**
   After a crash at any file operation of `create`, at any byte of the marker, cleaning up from the
   planned identity leaves neither directory, exactly when the process mask did not take an owner
   bit away in the window between making the directory or marker and setting its mode.
   */
  lemma CleanupAfterCrash(fs: FileSystem, uid: nat, umask: Mode, inode: nat, read: Reader, rootId: string,
      claimId: string, k: nat)
    requires fs.private && StagingName(rootId) !in fs.entries && FinalName(rootId) !in fs.entries
    requires k > 4 + |MarkerText(rootId, claimId)| ==> CanPublish(fs, read, rootId, claimId)
    ensures var crashed := Interrupted(fs, uid, umask, inode, rootId, MarkerText(rootId, claimId), k);
      var r := CleanedUp(crashed, uid, read, Planned(rootId), claimId);
      (r.1 <==> MaskAllows(umask, k)) && r.0 == (if MaskAllows(umask, k) then fs else crashed)
  {
    hide RemovableStaging, RemovableFinal, MarkerText, Staged, MaskAllows;
    var text, staging, final := MarkerText(rootId, claimId), StagingName(rootId), FinalName(rootId);
    StagingIsNotFinal(rootId, rootId);
    if k == 0 {
      NoWindow(umask, k);
    } else if k <= 4 + |text| {
      StagedIsRemovable(uid, umask, inode, text, k);
      assert fs.entries[staging := Staged(uid, umask, inode, text, k)] - {staging} == fs.entries;
    } else {
      NoWindow(umask, k);
      PublishedIsRemovable(uid, umask, inode, read, rootId, claimId);
      assert fs.entries[final := Staged(uid, umask, inode, text, 4 + |text|)] - {final} == fs.entries;
    }
  }

  /**
   However far `create` came and however it ended, cleaning up from the planned identity restores the
   parent, masks permitting.
   */
  lemma CreateThenCleanup(fs: FileSystem, uid: nat, umask: Mode, inode: nat, read: Reader, rootId: string,
      claimId: string, budget: nat)
    requires fs.private && StagingName(rootId) !in fs.entries && FinalName(rootId) !in fs.entries
    ensures var r := CreatedUpTo(fs, uid, umask, read, Planned(rootId), claimId, inode, budget);
      CleanedUp(r.0, uid, read, Planned(rootId), claimId) == (if MaskAllows(umask, budget) then (fs, true) else (r.0, false))
  {
    hide MarkerText, Interrupted, CleanedUp, MaskAllows, StagingName, FinalName;
    var text := MarkerText(rootId, claimId);
    if budget <= 4 + |text| {
      CleanupAfterCrash(fs, uid, umask, inode, read, rootId, claimId, budget);
    } else {
      NoWindow(umask, budget);
      CleanupAfterCrash(fs, uid, umask, inode, read, rootId, claimId, 4 + |text|);
      NoWindow(umask, 4 + |text|);
      if CanPublish(fs, read, rootId, claimId) {
        CleanupAfterCrash(fs, uid, umask, inode, read, rootId, claimId, 5 + |text|);
        NoWindow(umask, 5 + |text|);
      }
    }
  }

  lemma NoWindow(umask: Mode, k: nat)
    requires k != 1 && k != 3
    ensures MaskAllows(umask, k)
  {
  }

  lemma PublishedIsRemovable(uid: nat, umask: Mode, inode: nat, read: Reader, rootId: string, claimId: string)
    requires var text := MarkerText(rootId, claimId); |text| <= 1024 && read(text) == Some((rootId, claimId))
    ensures var text := MarkerText(rootId, claimId); var d := Staged(uid, umask, inode, text, 4 + |text|);
      RemovableFinal(d, uid, read, Planned(rootId), claimId) && RemovableFinal(d, uid, read, Created(rootId, inode), claimId)
  {
    var text := MarkerText(rootId, claimId);
    assert text[..|text|] == text;
    assert |text| >= 1;
  }

  /** A mask that takes the owner's bits makes the planned directory stay behind. */
  lemma MaskedCrashStays(fs: FileSystem, uid: nat, inode: nat, read: Reader, rootId: string, claimId: string)
    requires fs.private && StagingName(rootId) !in fs.entries && FinalName(rootId) !in fs.entries
    ensures var crashed := Interrupted(fs, uid, 0x40, inode, rootId, MarkerText(rootId, claimId), 1);
      CleanedUp(crashed, uid, read, Planned(rootId), claimId) == (crashed, false)
  {
    hide MarkerText;
    CleanupAfterCrash(fs, uid, 0x40, inode, read, rootId, claimId, 1);
    assert DIRECTORY_MODE & 0x40 != 0;
  }

  /**
   Whatever the parent holds: cleaning up takes away at most one directory, never another root's,
   never a final one whose marker or identity differs, never a staging one with anything beyond a
   beginning of the expected marker; a refusal changes nothing and success leaves neither.
   */
  lemma CleanupNeverOverreaches(fs: FileSystem, uid: nat, read: Reader, identity: Identity, claimId: string,
      name: string)
    ensures var r := CleanedUp(fs, uid, read, identity, claimId); var rootId := identity.rootId;
      && (!r.1 ==> r.0 == fs)
      && (r.1 ==> StagingName(rootId) !in r.0.entries && FinalName(rootId) !in r.0.entries)
      && (name in r.0.entries ==> name in fs.entries && r.0.entries[name] == fs.entries[name])
      && (name in fs.entries && name !in r.0.entries ==>
            || (name == StagingName(rootId) && RemovableStaging(fs.entries[name], uid, MarkerText(rootId, claimId)))
            || (name == FinalName(rootId) && RemovableFinal(fs.entries[name], uid, read, identity, claimId)))
  {
    hide MarkerText, RemovableStaging, RemovableFinal;
    StagingIsNotFinal(identity.rootId, identity.rootId);
  }

  /** A real directory of the service user with mode 700. */
  ghost predicate PrivateDirectory(d: Directory, uid: nat) { d.real_ && d.uid == uid && d.mode == 7 * 64 }

  /** A regular file of the service user with mode 600 and one link, holding no more than `limit` characters. */
  ghost predicate PrivateFile(f: File, uid: nat, limit: nat) {
    f.regular && f.uid == uid && f.mode == 6 * 64 && f.links == 1 && |f.bytes| <= limit
  }

  /** The staging directory holds at most a beginning of this claim's marker. */
  ghost predicate OwnStaging(d: Directory, uid: nat, expected: string) {
    && PrivateDirectory(d, uid)
    && forall name :: name in d.entries ==>
         && name == ".dim-native-ordinary-owner.json" && PrivateFile(d.entries[name], uid, |expected|)
         && forall i :: 0 <= i < |d.entries[name].bytes| ==> d.entries[name].bytes[i] == expected[i]
  }

  /** The final directory is the one created, if that is known, and its marker names this root and claim. */
  ghost predicate OwnFinal(d: Directory, uid: nat, read: Reader, identity: Identity, claimId: string) {
    && PrivateDirectory(d, uid) && (identity.Created? ==> d.inode == identity.inode)
    && var name := ".dim-native-ordinary-owner.json";
      name in d.entries && PrivateFile(d.entries[name], uid, 1024) && d.entries[name].bytes != ""
      && read(d.entries[name].bytes) == Some((identity.rootId, claimId))
  }

  /**
   Cleanup succeeds exactly when the parent is private, at most one of the two directories is there, and
   that one is this claim's own; then neither is left and nothing else is touched, otherwise nothing is.
   */
  lemma CleanupExact(fs: FileSystem, uid: nat, read: Reader, identity: Identity, claimId: string)
    ensures var r := CleanedUp(fs, uid, read, identity, claimId);
            var staging, final := ".work-" + identity.rootId + ".staging", "work-" + identity.rootId;
      && (r.1 <==>
            && fs.private && !(staging in fs.entries && final in fs.entries)
            && (staging in fs.entries ==> OwnStaging(fs.entries[staging], uid, MarkerText(identity.rootId, claimId)))
            && (final in fs.entries ==> OwnFinal(fs.entries[final], uid, read, identity, claimId)))
      && r.0 == if r.1 then fs.(entries := fs.entries - {staging, final}) else fs
  {
    hide MarkerText, RemovableStaging, RemovableFinal, OwnStaging, OwnFinal;
    var staging, final := StagingName(identity.rootId), FinalName(identity.rootId);
    if staging in fs.entries { StagingOwned(fs.entries[staging], uid, MarkerText(identity.rootId, claimId)); }
    if final in fs.entries { FinalOwned(fs.entries[final], uid, read, identity, claimId); }
    assert staging !in fs.entries ==> fs.entries - {staging, final} == fs.entries - {final};
    assert final !in fs.entries ==> fs.entries - {staging, final} == fs.entries - {staging};
    assert staging !in fs.entries && final !in fs.entries ==> fs.entries - {staging, final} == fs.entries;
  }

  lemma StagingOwned(d: Directory, uid: nat, text: string)
    ensures RemovableStaging(d, uid, text) <==> OwnStaging(d, uid, text)
  {
    if OwnStaging(d, uid, text) {
      forall name | name in d.entries.Keys ensures name == MARKER_NAME {}
      if MARKER_NAME in d.entries {
        var bytes := d.entries[MARKER_NAME].bytes;
        assert bytes == text[..|bytes|];
      }
    }
    if RemovableStaging(d, uid, text) {
      forall name | name in d.entries ensures name == MARKER_NAME { assert name in d.entries.Keys; }
    }
  }

  lemma FinalOwned(d: Directory, uid: nat, read: Reader, identity: Identity, claimId: string)
    ensures RemovableFinal(d, uid, read, identity, claimId) <==> OwnFinal(d, uid, read, identity, claimId)
  {
  }

  /** Cleaning up one root leaves every other root's directories, and cleaning up twice is cleaning up once. */
  lemma CleanupIsLocal(fs: FileSystem, uid: nat, read: Reader, identity: Identity, claimId: string, other: string)
    requires other != identity.rootId
    ensures var r := CleanedUp(fs, uid, read, identity, claimId);
      && (StagingName(other) in fs.entries ==> StagingName(other) in r.0.entries)
      && (FinalName(other) in fs.entries ==> FinalName(other) in r.0.entries)
      && (r.1 ==> CleanedUp(r.0, uid, read, identity, claimId) == r)
  {
    hide MarkerText, RemovableStaging, RemovableFinal;
    NamesApart(other, identity.rootId);
    StagingIsNotFinal(other, identity.rootId);
    StagingIsNotFinal(identity.rootId, other);
    StagingIsNotFinal(identity.rootId, identity.rootId);
  }

  // ---- a crash inside cleanup ----

  /** The removal of a directory cut short: some of its entries are gone, the directory is not. */
  function CutShort(fs: FileSystem, name: string, removed: set<string>): FileSystem
    requires name in fs.entries
  {
    fs.(entries := fs.entries[name := fs.entries[name].(entries := fs.entries[name].entries - removed)])
  }

  /**
   A staging directory's removal can be resumed: unlinking the marker leaves a directory that is removed
   next time.
   */
  lemma StagingRemovalResumes(fs: FileSystem, uid: nat, read: Reader, identity: Identity, claimId: string,
      removed: set<string>)
    requires CleanedUp(fs, uid, read, identity, claimId).1 && StagingName(identity.rootId) in fs.entries
    ensures var cut := CutShort(fs, StagingName(identity.rootId), removed);
      CleanedUp(cut, uid, read, identity, claimId) == CleanedUp(fs, uid, read, identity, claimId)
  {
    hide MarkerText;
    var staging := StagingName(identity.rootId);
    var cut := CutShort(fs, staging, removed);
    StagingIsNotFinal(identity.rootId, identity.rootId);
    assert cut.entries - {staging} == fs.entries - {staging};
    assert cut.entries[staging].entries.Keys <= fs.entries[staging].entries.Keys;
  }

  /**
   The recursive removal of a final directory can be resumed exactly when the marker was not among what
   is already gone. Otherwise every later cleanup, from whatever identity and claim, refuses the directory.
   */
  lemma FinalRemovalExact(fs: FileSystem, uid: nat, read: Reader, identity: Identity, claimId: string,
      removed: set<string>)
    requires CleanedUp(fs, uid, read, identity, claimId).1 && StagingName(identity.rootId) !in fs.entries
    requires FinalName(identity.rootId) in fs.entries
    ensures var cut := CutShort(fs, FinalName(identity.rootId), removed);
      && (MARKER_NAME !in removed ==> CleanedUp(cut, uid, read, identity, claimId) == CleanedUp(fs, uid, read, identity, claimId))
      && (MARKER_NAME in removed ==>
            forall later: Identity, claim | later.rootId == identity.rootId :: CleanedUp(cut, uid, read, later, claim) == (cut, false))
  {
    hide MarkerText, RemovableStaging;
    var final := FinalName(identity.rootId);
    var cut := CutShort(fs, final, removed);
    StagingIsNotFinal(identity.rootId, identity.rootId);
    assert cut.entries - {final} == fs.entries - {final};
    if MARKER_NAME !in removed {
      assert cut.entries[final].entries[MARKER_NAME] == fs.entries[final].entries[MARKER_NAME];
    }
  }
}
