/** The statements of `readRootEntries` and `writeRootEntries` (core/packages/core/src/nativeGitRootSnapshotTree.ts). */
module GitRootReader {
  import opened Wrappers
  import opened ByteStrings
  import opened GitTree
  import opened GitSnapshot

  function Behind(done: seq<RootEntry>, rest: Result<Listed, Refusal>): Result<Listed, Refusal> {
    if rest.Failure? then rest else Success(rest.value.(entries := done + rest.value.entries))
  }

  lemma BehindBehind(a: seq<RootEntry>, b: seq<RootEntry>, rest: Result<Listed, Refusal>)
    ensures Behind(a, Behind(b, rest)) == Behind(a + b, rest)
  {
    if rest.Success? { assert a + (b + rest.value.entries) == a + b + rest.value.entries; }
  }

  lemma BehindNothing(rest: Result<Listed, Refusal>)
    ensures Behind([], rest) == rest
  {
    if rest.Success? { assert [] + rest.value.entries == rest.value.entries; }
  }

  /** One turn of the decoding loop on an entry that is complete and starts at the front. */
  function Turn(g: Git, lim: Limits, raw: Raw, tail: Bytes, names: set<Bytes>, parent: Path, levels: nat, count: nat,
      treeBytes: nat): Result<Listed, Refusal>
    requires levels > 0
  {
    var mode, name := ModeOf(raw.token, true), DecodeName(raw.name);
    if mode.None? then Failure(BadTree(UnsafeMode))
    else if name.Failure? then Failure(BadTree(name.error))
    else if name.value in names then Failure(BadTree(DuplicateName))
    else if count + 1 > lim.entries then Failure(TooManyEntries)
    else
      var entry := RootEntry(mode.value, parent + [name.value], raw.id);
      var sub := if entry.mode == Directory then ReadRoot(g, lim, entry.id, entry.path, levels - 1, count + 1, treeBytes)
                 else Success(Listed([], count + 1, treeBytes));
      if sub.Failure? then sub else
      Behind([entry] + sub.value.entries,
        ReadRootLoop(g, lim, tail, names + {name.value}, parent, levels, sub.value.count, sub.value.treeBytes))
  }

  lemma LoopTurn(g: Git, lim: Limits, s: Bytes, names: set<Bytes>, parent: Path, levels: nat, count: nat,
      treeBytes: nat)
    requires levels > 0 && s != []
    ensures ReadRootLoop(g, lim, s, names, parent, levels, count, treeBytes) ==
      if Split(s, g.rawLength).None? then Failure(BadTree(InvalidEncoding))
      else Turn(g, lim, Split(s, g.rawLength).value, s[|Join(Split(s, g.rawLength).value)|..], names, parent, levels, count, treeBytes)
  {
    hide ReadRoot, ModeOf, DecodeName, Split;
  }

  /** One turn of the decoding loop, in the offsets of the whole buffer. */
  lemma LoopAt(g: Git, lim: Limits, bytes: Bytes, offset: nat, space: int, nul: int, names: set<Bytes>, parent: Path,
      levels: nat, count: nat, treeBytes: nat)
    requires levels > 0 && offset < |bytes| && Found(bytes, 0x20, offset, space)
    requires if space < 0 then nul == -1 else Found(bytes, 0, space + 1, nul)
    ensures ReadRootLoop(g, lim, bytes[offset..], names, parent, levels, count, treeBytes) ==
      if space < 0 || nul < 0 || nul + 1 + g.rawLength > |bytes| then Failure(BadTree(InvalidEncoding))
      else Turn(g, lim, Raw(bytes[offset..space], bytes[space + 1..nul], bytes[nul + 1..nul + 1 + g.rawLength]),
             bytes[nul + 1 + g.rawLength..], names, parent, levels, count, treeBytes)
  {
    hide ReadRootLoop, Turn, Split;
    LoopTurn(g, lim, bytes[offset..], names, parent, levels, count, treeBytes);
    if space >= 0 {
      SplitAt(bytes, offset, space, nul, g.rawLength);
      if nul >= 0 && nul + 1 + g.rawLength <= |bytes| {
        assert bytes[offset..][nul + 1 + g.rawLength - offset..] == bytes[nul + 1 + g.rawLength..];
      }
    } else {
      NoSpaceNoEntry(bytes[offset..], g.rawLength);
    }
  }

  lemma TurnBehind(g: Git, lim: Limits, done: seq<RootEntry>, raw: Raw, tail: Bytes, names: set<Bytes>, parent: Path,
      levels: nat, count: nat, treeBytes: nat)
    requires levels > 0
    ensures Behind(done, Turn(g, lim, raw, tail, names, parent, levels, count, treeBytes)) ==
      var mode, name := ModeOf(raw.token, true), DecodeName(raw.name);
      if mode.None? then Failure(BadTree(UnsafeMode))
      else if name.Failure? then Failure(BadTree(name.error))
      else if name.value in names then Failure(BadTree(DuplicateName))
      else if count + 1 > lim.entries then Failure(TooManyEntries)
      else if mode.value == Directory then
        var sub := ReadRoot(g, lim, raw.id, parent + [name.value], levels - 1, count + 1, treeBytes);
        if sub.Failure? then sub else
        Behind(done + ([RootEntry(Directory, parent + [name.value], raw.id)] + sub.value.entries),
          ReadRootLoop(g, lim, tail, names + {name.value}, parent, levels, sub.value.count, sub.value.treeBytes))
      else
        Behind(done + [RootEntry(mode.value, parent + [name.value], raw.id)],
          ReadRootLoop(g, lim, tail, names + {name.value}, parent, levels, count + 1, treeBytes))
  {
    hide ReadRoot, ReadRootLoop, ModeOf, DecodeName, Behind;
    FailureBehind(done);
    var mode, name := ModeOf(raw.token, true), DecodeName(raw.name);
    if mode.Some? && name.Success? && name.value !in names && count + 1 <= lim.entries {
      var entry := RootEntry(mode.value, parent + [name.value], raw.id);
      var sub := if mode.value == Directory then ReadRoot(g, lim, raw.id, entry.path, levels - 1, count + 1, treeBytes)
                 else Success(Listed([], count + 1, treeBytes));
      if sub.Success? {
        assert mode.value != Directory ==> [entry] + sub.value.entries == [entry];
        BehindBehind(done, [entry] + sub.value.entries,
          ReadRootLoop(g, lim, tail, names + {name.value}, parent, levels, sub.value.count, sub.value.treeBytes));
      }
    }
  }

  lemma LoopDone(g: Git, lim: Limits, done: seq<RootEntry>, names: set<Bytes>, parent: Path, levels: nat, count: nat,
      treeBytes: nat)
    requires levels > 0
    ensures Behind(done, ReadRootLoop(g, lim, [], names, parent, levels, count, treeBytes)) == Success(Listed(done, count, treeBytes))
  {
    assert done + [] == done;
  }

  class RootReader {
    var entries: nat
    var bytes: nat
    var treeBytes: nat
    var files: map<Path, Written>

    constructor ()
      ensures entries == 0 && bytes == 0 && treeBytes == 0 && files == map[[] := Folder]
    {
      entries, bytes, treeBytes, files := 0, 0, 0, map[[] := Folder];
    }

    method ReadRootEntries(g: Git, lim: Limits, tree: Bytes, parent: Path,
        depth: nat) returns (r: Result<seq<RootEntry>, Refusal>)
      requires depth <= lim.depth + 1
      modifies this`entries, this`treeBytes
      ensures var spec := ReadRoot(g, lim, tree, parent, lim.depth + 1 - depth, old(entries), old(treeBytes));
        if spec.Success? then r == Success(spec.value.entries) && entries == spec.value.count && treeBytes == spec.value.treeBytes
        else r == Failure(spec.error)
      decreases lim.depth + 1 - depth, 1
    {
      hide ReadRootLoop;
      if depth > lim.depth { return Failure(TooDeep); }
      var found := ReadTreeObject(g, tree, lim.treeBytes);
      if found.Failure? { return Failure(found.error); }
      treeBytes := treeBytes + |found.value|;
      if treeBytes > lim.treeBytes { return Failure(TooManyTreeBytes); }
      r := ReadRootBytes(g, lim, found.value, parent, depth);
    }

    /** The loop over one directory's bytes. */
    method ReadRootBytes(g: Git, lim: Limits, bytes: Bytes, parent: Path,
        depth: nat) returns (r: Result<seq<RootEntry>, Refusal>)
      requires depth <= lim.depth
      modifies this`entries, this`treeBytes
      ensures var spec := ReadRootLoop(g, lim, bytes, {}, parent, lim.depth + 1 - depth, old(entries), old(treeBytes));
        if spec.Success? then r == Success(spec.value.entries) && entries == spec.value.count && treeBytes == spec.value.treeBytes
        else r == Failure(spec.error)
      decreases lim.depth + 1 - depth, 0
    {
      hide ReadRootLoop, ReadRoot, ModeOf, DecodeName, Found, Behind, Turn;
      ghost var levels := lim.depth + 1 - depth;
      ghost var spec := ReadRootLoop(g, lim, bytes, {}, parent, levels, entries, treeBytes);
      var done: seq<RootEntry>, names: set<Bytes>, offset := [], {}, 0;
      assert bytes[0..] == bytes;
      BehindNothing(spec);
      while offset < |bytes|
        invariant 0 <= offset <= |bytes|
        invariant spec == Behind(done, ReadRootLoop(g, lim, bytes[offset..], names, parent, levels, entries, treeBytes))
        decreases |bytes| - offset
      {
        var space := IndexOf(bytes, 0x20, offset);
        var nul := -1;
        if space >= 0 { nul := IndexOf(bytes, 0, space + 1); }
        LoopAt(g, lim, bytes, offset, space, nul, names, parent, levels, entries, treeBytes);
        FailureBehind(done);
        var next := nul + 1 + g.rawLength;
        if space < 0 || nul < 0 || next > |bytes| { return Failure(BadTree(InvalidEncoding)); }
        TurnBehind(g, lim, done, Raw(bytes[offset..space], bytes[space + 1..nul], bytes[nul + 1..next]), bytes[next..],
          names, parent, levels, entries, treeBytes);
        var mode := ModeOf(bytes[offset..space], true);
        if mode.None? { return Failure(BadTree(UnsafeMode)); }
        var name := DecodeName(bytes[space + 1..nul]);
        if name.Failure? { return Failure(BadTree(name.error)); }
        if name.value in names { return Failure(BadTree(DuplicateName)); }
        entries := entries + 1;
        if entries > lim.entries { return Failure(TooManyEntries); }
        var entry := RootEntry(mode.value, parent + [name.value], bytes[nul + 1..next]);
        if entry.mode == Directory {
          var sub := ReadRootEntries(g, lim, entry.id, entry.path, depth + 1);
          if sub.Failure? { return sub; }
          done := done + ([entry] + sub.value);
        } else {
          done := done + [entry];
        }
        names := names + {name.value};
        offset := next;
      }
      assert bytes[offset..] == [];
      LoopDone(g, lim, done, names, parent, levels, entries, treeBytes);
      return Success(done);
    }

    method WriteRootEntries(g: Git, lim: Limits, list: seq<RootEntry>) returns (r: Option<Refusal>)
      modifies this`bytes, this`files
      ensures var spec := WriteRoot(g, lim, list, old(Output(bytes, files)));
        if spec.Success? then r == None && Output(bytes, files) == spec.value else r == Some(spec.error)
    {
      hide Put;
      ghost var spec := WriteRoot(g, lim, list, Output(bytes, files));
      assert list[0..] == list;
      for i := 0 to |list|
        invariant spec == WriteRoot(g, lim, list[i..], Output(bytes, files))
      {
        var entry := list[i];
        assert list[i..][0] == entry && list[i..][1..] == list[i + 1..];
        if entry.mode == Directory {
          var made := Put(files, entry.path, Folder);
          if made.Failure? { return Some(made.error); }
          files := made.value;
        } else if entry.mode != SymbolicLink {
          var remaining := Min(lim.blobBytes, lim.materializedBytes - bytes);
          if remaining < 0 { return Some(TooManyBytes); }
          var blob := ReadBlobObject(g, entry.id, remaining);
          if blob.Failure? { return Some(blob.error); }
          bytes := bytes + |blob.value|;
          var made := Put(files, entry.path, File(entry.mode == Executable, blob.value));
          if made.Failure? { return Some(made.error); }
          files := made.value;
        }
      }
      return None;
    }
  }

  lemma FailureBehind(done: seq<RootEntry>)
    ensures forall e :: Behind(done, Failure(e)) == Failure(e)
  {
  }
}
