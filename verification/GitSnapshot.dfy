/**
 Materialising a Git tree: the recursive form (core/packages/core/src/nativeGitCandidateObjects.ts)
 and the form that lists all entries first and then writes them
 (core/packages/core/src/nativeGitRootSnapshotTree.ts). An object store may hold anything, even a
 tree that contains itself.
 */
module GitSnapshot {
  import opened Wrappers
  import opened ByteStrings
  import opened GitTree

  datatype Object = TreeObject(bytes: Bytes) | BlobObject(bytes: Bytes)

  datatype Git = Git(store: map<Bytes, Object>, rawLength: nat)

  datatype Limits = Limits(blobBytes: nat, materializedBytes: nat, treeBytes: nat, entries: nat, depth: nat)

  datatype Refusal =
    | TooDeep
    | Unreadable
    | BadTree(error: TreeError)
    | TooManyTreeBytes
    | TooManyEntries
    | TooManyBytes
    | PathExists
    | NoParent
    | UnsafePath
    | AbsentPath
    | NotATree
    | NotAFile

  type Path = seq<Bytes>

  datatype Written = Folder | File(executable: bool, bytes: Bytes)

  /** `mkdir`, or `writeFile` with the flag that refuses an existing file. */
  function Put(files: map<Path, Written>, path: Path, written: Written): Result<map<Path, Written>, Refusal> {
    if path in files then Failure(PathExists)
    else if path == [] || path[..|path| - 1] !in files || files[path[..|path| - 1]] != Folder then Failure(NoParent)
    else Success(files[path := written])
  }

  function ReadTreeObject(g: Git, id: Bytes, maximumBytes: nat): Result<Bytes, Refusal> {
    if id in g.store && g.store[id].TreeObject? && |g.store[id].bytes| <= maximumBytes then Success(g.store[id].bytes)
    else Failure(Unreadable)
  }

  function ReadBlobObject(g: Git, id: Bytes, maximumBytes: nat): Result<Bytes, Refusal> {
    if id in g.store && g.store[id].BlobObject? && |g.store[id].bytes| <= maximumBytes then Success(g.store[id].bytes)
    else Failure(Unreadable)
  }

  // ---- the recursive form ----

  datatype State = State(entries: nat, bytes: nat, treeBytes: nat, files: map<Path, Written>)

  /** `levels` is how many more directories may be nested: the depth limit plus one, less the depth. */
  function Materialize(g: Git, lim: Limits, id: Bytes, dest: Path, levels: nat, st: State): Result<State, Refusal>
    decreases levels, 1, 0
  {
    if levels == 0 then Failure(TooDeep) else
    var bytes := ReadTreeObject(g, id, lim.treeBytes);
    if bytes.Failure? then Failure(bytes.error) else
    var es := Decode(bytes.value, g.rawLength, false, {});
    if es.Failure? then Failure(BadTree(es.error))
    else if st.treeBytes + |bytes.value| > lim.treeBytes then Failure(TooManyTreeBytes)
    else MaterializeEntries(g, lim, es.value, dest, levels, st.(treeBytes := st.treeBytes + |bytes.value|))
  }

  function MaterializeEntries(g: Git, lim: Limits, es: seq<Entry>, dest: Path, levels: nat,
      st: State): Result<State, Refusal>
    requires levels > 0
    decreases levels, 0, |es|
  {
    if es == [] then Success(st) else
    var next := if es[0].mode == Directory then MaterializeFolder(g, lim, es[0], dest, levels, st)
      else MaterializeFile(g, lim, es[0], dest, st);
    if next.Failure? then next else MaterializeEntries(g, lim, es[1..], dest, levels, next.value)
  }

  function MaterializeFolder(g: Git, lim: Limits, e: Entry, dest: Path, levels: nat, st: State): Result<State, Refusal>
    requires levels > 0
    decreases levels, 0, 0
  {
    if st.entries + 1 > lim.entries then Failure(TooManyEntries) else
    var files := Put(st.files, dest + [e.name], Folder);
    if files.Failure? then Failure(files.error)
    else Materialize(g, lim, e.id, dest + [e.name], levels - 1, st.(entries := st.entries + 1, files := files.value))
  }

  function MaterializeFile(g: Git, lim: Limits, e: Entry, dest: Path, st: State): Result<State, Refusal> {
    if st.entries + 1 > lim.entries then Failure(TooManyEntries) else
    var remaining := Min(lim.blobBytes, lim.materializedBytes - st.bytes);
    if remaining < 0 then Failure(TooManyBytes) else
    var bytes := ReadBlobObject(g, e.id, remaining);
    if bytes.Failure? then Failure(bytes.error) else
    var files := Put(st.files, dest + [e.name], File(e.mode == Executable, bytes.value));
    if files.Failure? then Failure(files.error)
    else Success(st.(entries := st.entries + 1, bytes := st.bytes + |bytes.value|, files := files.value))
  }

  function Min(a: int, b: int): int { if a < b then a else b }

  class Materializer {
    var entries: nat
    var bytes: nat
    var treeBytes: nat
    var files: map<Path, Written>

    constructor ()
      ensures Now() == State(0, 0, 0, map[[] := Folder])
    {
      entries, bytes, treeBytes, files := 0, 0, 0, map[[] := Folder];
    }

    function Now(): State
      reads this
    {
      State(entries, bytes, treeBytes, files)
    }

    /** None when all went well. */
    method MaterializeDirectory(g: Git, lim: Limits, id: Bytes, dest: Path, depth: nat) returns (r: Option<Refusal>)
      requires depth <= lim.depth + 1
      modifies this
      ensures var spec := Materialize(g, lim, id, dest, lim.depth + 1 - depth, old(Now()));
        if spec.Success? then r == None && Now() == spec.value else r == Some(spec.error)
      decreases lim.depth + 1 - depth
    {
      hide Decode;
      if depth > lim.depth { return Some(TooDeep); }
      var tree := ReadTreeObject(g, id, lim.treeBytes);
      if tree.Failure? { return Some(tree.error); }
      var es := ReadTree(tree.value, g.rawLength, false);
      if es.Failure? { return Some(BadTree(es.error)); }
      treeBytes := treeBytes + |tree.value|;
      if treeBytes > lim.treeBytes { return Some(TooManyTreeBytes); }
      r := MaterializeAll(g, lim, es.value, dest, depth);
    }

    /** The loop over a directory's entries. */
    method MaterializeAll(g: Git, lim: Limits, es: seq<Entry>, dest: Path, depth: nat) returns (r: Option<Refusal>)
      requires depth <= lim.depth
      modifies this
      ensures var spec := MaterializeEntries(g, lim, es, dest, lim.depth + 1 - depth, old(Now()));
        if spec.Success? then r == None && Now() == spec.value else r == Some(spec.error)
      decreases lim.depth + 1 - depth, 0
    {
      hide Decode, Put;
      var i := 0;
      assert es[0..] == es;
      while i < |es|
        invariant 0 <= i <= |es|
        invariant MaterializeEntries(g, lim, es, dest, lim.depth + 1 - depth, old(Now()))
               == MaterializeEntries(g, lim, es[i..], dest, lim.depth + 1 - depth, Now())
      {
        EntriesStep(g, lim, es[i..], dest, lim.depth + 1 - depth, Now());
        assert es[i..][1..] == es[i + 1..];
        hide Materialize, MaterializeEntries;
        var entry := es[i];
        entries := entries + 1;
        if entries > lim.entries { return Some(TooManyEntries); }
        var path := dest + [entry.name];
        if entry.mode == Directory {
          var made := Put(files, path, Folder);
          if made.Failure? { return Some(made.error); }
          files := made.value;
          r := MaterializeDirectory(g, lim, entry.id, path, depth + 1);
          if r.Some? { return r; }
        } else {
          var remaining := Min(lim.blobBytes, lim.materializedBytes - bytes);
          if remaining < 0 { return Some(TooManyBytes); }
          var blob := ReadBlobObject(g, entry.id, remaining);
          if blob.Failure? { return Some(blob.error); }
          bytes := bytes + |blob.value|;
          var made := Put(files, path, File(entry.mode == Executable, blob.value));
          if made.Failure? { return Some(made.error); }
          files := made.value;
        }
        i := i + 1;
      }
      return None;
    }
  }

  lemma EntriesStep(g: Git, lim: Limits, es: seq<Entry>, dest: Path, levels: nat, st: State)
    requires es != [] && levels > 0
    ensures MaterializeEntries(g, lim, es, dest, levels, st) ==
      var next := if es[0].mode == Directory then MaterializeFolder(g, lim, es[0], dest, levels, st)
        else MaterializeFile(g, lim, es[0], dest, st);
      if next.Failure? then next else MaterializeEntries(g, lim, es[1..], dest, levels, next.value)
  {
    hide Materialize, Put;
  }

  // ---- the tree an id stands for ----

  datatype Node = Blob(mode: Mode, id: Bytes) | Dir(id: Bytes, size: nat, listing: Listing)

  datatype Listing = Nil | Cons(name: Bytes, node: Node, next: Listing)

  /** The tree below an id, if it is readable and at most `levels` directories deep. */
  function Load(g: Git, links: bool, id: Bytes, levels: nat): (r: Option<Node>)
    ensures r.Some? ==> r.value.Dir?
    decreases levels, 1, 0
  {
    if levels == 0 || id !in g.store || !g.store[id].TreeObject? then None else
    var bytes := g.store[id].bytes;
    var es := Decode(bytes, g.rawLength, links, {});
    if es.Failure? then None else
    var listing := LoadEntries(g, links, es.value, levels);
    if listing.None? then None else Some(Dir(id, |bytes|, listing.value))
  }

  function LoadEntries(g: Git, links: bool, es: seq<Entry>, levels: nat): Option<Listing>
    requires levels > 0
    decreases levels, 0, |es|
  {
    if es == [] then Some(Nil) else
    var node := if es[0].mode == Directory then Load(g, links, es[0].id, levels - 1) else Some(Blob(es[0].mode, es[0].id));
    if node.None? then None else
    var next := LoadEntries(g, links, es[1..], levels);
    if next.None? then None else Some(Cons(es[0].name, node.value, next.value))
  }

  function EntryCount(l: Listing): nat {
    match l
    case Nil => 0
    case Cons(_, node, next) => 1 + (if node.Dir? then EntryCount(node.listing) else 0) + EntryCount(next)
  }

  /** The encoded bytes of every directory below, the listing's own not included. */
  function TreeBytes(l: Listing): nat {
    match l
    case Nil => 0
    case Cons(_, node, next) => (if node.Dir? then node.size + TreeBytes(node.listing) else 0) + TreeBytes(next)
  }

  function BlobContent(g: Git, id: Bytes): Bytes {
    if id in g.store && g.store[id].BlobObject? then g.store[id].bytes else []
  }

  predicate IsFile(n: Node) { n.Blob? && n.mode != SymbolicLink }

  function BlobBytes(g: Git, l: Listing): nat {
    match l
    case Nil => 0
    case Cons(_, node, next) =>
      (if node.Dir? then BlobBytes(g, node.listing) else if IsFile(node) then |BlobContent(g, node.id)| else 0) + BlobBytes(g, next)
  }

  /** Every file's bytes are there and none is over the limit for one file. */
  predicate BlobsOk(g: Git, lim: Limits, l: Listing) {
    match l
    case Nil => true
    case Cons(_, node, next) => NodeBlobsOk(g, lim, node) && BlobsOk(g, lim, next)
  }

  predicate NodeBlobsOk(g: Git, lim: Limits, n: Node) {
    match n
    case Dir(_, _, listing) => BlobsOk(g, lim, listing)
    case Blob(mode, id) => mode != SymbolicLink ==> id in g.store && g.store[id].BlobObject? && |g.store[id].bytes| <= lim.blobBytes
  }

  predicate Fits(g: Git, lim: Limits, l: Listing, entries: nat, bytes: nat, treeBytes: nat) {
    && BlobsOk(g, lim, l)
    && entries + EntryCount(l) <= lim.entries
    && bytes + BlobBytes(g, l) <= lim.materializedBytes
    && treeBytes + TreeBytes(l) <= lim.treeBytes
  }

  /** The flattened tree: what a destination holds when everything below `dest` is written. */
  function Files(g: Git, l: Listing, dest: Path): map<Path, Written> {
    match l
    case Nil => map[]
    case Cons(name, node, next) => NodeFiles(g, node, dest + [name]) + Files(g, next, dest)
  }

  function NodeFiles(g: Git, n: Node, path: Path): map<Path, Written> {
    match n
    case Dir(_, _, listing) => map[path := Folder] + Files(g, listing, path)
    case Blob(mode, id) => if mode == SymbolicLink then map[] else map[path := File(mode == Executable, BlobContent(g, id))]
  }

  predicate Under(p: Path, dest: Path) { |dest| <= |p| && p[..|dest|] == dest }

  lemma UnderTrans(p: Path, dest: Path, name: Bytes)
    requires Under(p, dest + [name])
    ensures Under(p, dest) && |p| > |dest| && p[|dest|] == name
  {
    var q := dest + [name];
    assert p[..|q|][..|dest|] == p[..|dest|];
    assert q[..|dest|] == dest;
    assert p[|dest|] == p[..|q|][|dest|];
  }

  lemma {:induction false} FilesUnder(g: Git, l: Listing, dest: Path, p: Path)
    requires p in Files(g, l, dest)
    ensures Under(p, dest) && |p| > |dest|
    decreases l
  {
    hide Under;
    if p in NodeFiles(g, l.node, dest + [l.name]) {
      NodeFilesUnder(g, l.node, dest + [l.name], p);
      UnderTrans(p, dest, l.name);
    } else {
      FilesUnder(g, l.next, dest, p);
    }
  }

  lemma {:induction false} NodeFilesUnder(g: Git, n: Node, path: Path, p: Path)
    requires p in NodeFiles(g, n, path)
    ensures Under(p, path)
    decreases n
  {
    if n.Dir? && p in Files(g, n.listing, path) { FilesUnder(g, n.listing, path, p); }
  }

  // ---- the recursive form writes the flattened tree ----

  /** Nothing is written yet at a name or below it. */
  ghost predicate Free(files: map<Path, Written>, path: Path) { forall p :: p in files ==> !Under(p, path) }

  ghost predicate AllFree(files: map<Path, Written>, dest: Path, names: seq<Entry>) {
    forall i :: 0 <= i < |names| ==> Free(files, dest + [names[i].name])
  }

  predicate IsFolder(files: map<Path, Written>, dest: Path) { dest in files && files[dest] == Folder }

  function After(g: Git, st: State, l: Listing, dest: Path): State {
    State(st.entries + EntryCount(l), st.bytes + BlobBytes(g, l), st.treeBytes + TreeBytes(l), st.files + Files(g, l, dest))
  }

  predicate Within(st: State, lim: Limits) {
    st.entries <= lim.entries && st.bytes <= lim.materializedBytes && st.treeBytes <= lim.treeBytes
  }

  lemma PutFree(files: map<Path, Written>, dest: Path, name: Bytes, w: Written)
    requires IsFolder(files, dest) && Free(files, dest + [name])
    ensures Put(files, dest + [name], w) == Success(files[dest + [name] := w])
  {
    var path := dest + [name];
    assert path[..|path| - 1] == dest;
    assert Under(path, path);
  }

  /** Writing at or below one name leaves the folder and the other names as they were. */
  lemma OthersStayFree(files: map<Path, Written>, more: map<Path, Written>, dest: Path, name: Bytes, es: seq<Entry>)
    requires IsFolder(files, dest) && AllFree(files, dest, es)
    requires forall p :: p in more ==> Under(p, dest + [name])
    requires forall i :: 0 <= i < |es| ==> es[i].name != name
    ensures IsFolder(files + more, dest) && AllFree(files + more, dest, es)
  {
    forall p | p in more ensures |p| > |dest| && p[|dest|] == name { UnderTrans(p, dest, name); }
    forall i | 0 <= i < |es| ensures Free(files + more, dest + [es[i].name]) {
      forall p | p in files + more ensures !Under(p, dest + [es[i].name]) {
        if Under(p, dest + [es[i].name]) { UnderTrans(p, dest, es[i].name); }
      }
    }
  }

  /** The totals of a listing with one entry. */
  lemma Alone(g: Git, lim: Limits, name: Bytes, n: Node, dest: Path)
    ensures var l := Cons(name, n, Nil);
      && EntryCount(l) == 1 + (if n.Dir? then EntryCount(n.listing) else 0)
      && BlobBytes(g, l) == (if n.Dir? then BlobBytes(g, n.listing) else if IsFile(n) then |BlobContent(g, n.id)| else 0)
      && TreeBytes(l) == (if n.Dir? then n.size + TreeBytes(n.listing) else 0)
      && (BlobsOk(g, lim, l) <==> NodeBlobsOk(g, lim, n))
      && Files(g, l, dest) == NodeFiles(g, n, dest + [name])
  {
    assert EntryCount(Nil) == 0 && BlobBytes(g, Nil) == 0 && TreeBytes(Nil) == 0 && BlobsOk(g, lim, Nil);
    assert Files(g, Nil, dest) == map[];
  }

  lemma FileStep(g: Git, lim: Limits, e: Entry, dest: Path, st: State)
    requires e.mode != Directory && e.mode != SymbolicLink && Within(st, lim) && IsFolder(st.files, dest)
    requires Free(st.files, dest + [e.name])
    ensures var r := MaterializeFile(g, lim, e, dest, st); var l := Cons(e.name, Blob(e.mode, e.id), Nil);
      (r.Success? <==> Fits(g, lim, l, st.entries, st.bytes, st.treeBytes)) && (r.Success? ==> r.value == After(g, st, l, dest))
  {
    hide Under, Free;
    var content := BlobContent(g, e.id);
    PutFree(st.files, dest, e.name, File(e.mode == Executable, content));
    Alone(g, lim, e.name, Blob(e.mode, e.id), dest);
  }

  /** Fitting and writing a listing is doing so with its first entry, then with the rest. */
  lemma FitsSplit(g: Git, lim: Limits, l: Listing, st: State, dest: Path)
    requires l.Cons?
    ensures var first := Cons(l.name, l.node, Nil); var mid := After(g, st, first, dest);
      && (Fits(g, lim, l, st.entries, st.bytes, st.treeBytes) <==>
          Fits(g, lim, first, st.entries, st.bytes, st.treeBytes) && Fits(g, lim, l.next, mid.entries, mid.bytes, mid.treeBytes))
      && After(g, st, l, dest) == After(g, mid, l.next, dest)
      && (Fits(g, lim, first, st.entries, st.bytes, st.treeBytes) ==> Within(mid, lim))
  {
    var first := Cons(l.name, l.node, Nil);
    FirstCounts(g, l);
    FirstBlobs(g, lim, l);
    var a, b := NodeFiles(g, l.node, dest + [l.name]), Files(g, l.next, dest);
    assert Files(g, first, dest) == a + Files(g, Nil, dest) == a;
    assert st.files + (a + b) == st.files + a + b;
  }

  lemma FirstCounts(g: Git, l: Listing)
    requires l.Cons?
    ensures var first := Cons(l.name, l.node, Nil);
      && EntryCount(l) == EntryCount(first) + EntryCount(l.next)
      && BlobBytes(g, l) == BlobBytes(g, first) + BlobBytes(g, l.next)
      && TreeBytes(l) == TreeBytes(first) + TreeBytes(l.next)
  {
  }

  lemma FirstBlobs(g: Git, lim: Limits, l: Listing)
    requires l.Cons?
    ensures BlobsOk(g, lim, l) <==> BlobsOk(g, lim, Cons(l.name, l.node, Nil)) && BlobsOk(g, lim, l.next)
  {
  }

  /** The state after a directory's own entry is made and its bytes are counted. */
  function Opened(st: State, path: Path, size: nat): State {
    State(st.entries + 1, st.bytes, st.treeBytes + size, st.files[path := Folder])
  }

  lemma FolderStep(g: Git, lim: Limits, name: Bytes, n: Node, dest: Path, st: State)
    requires n.Dir? && Within(st, lim)
    ensures var first := Cons(name, n, Nil); var mid := Opened(st, dest + [name], n.size);
      && (Fits(g, lim, first, st.entries, st.bytes, st.treeBytes) <==> Fits(g, lim, n.listing, mid.entries, mid.bytes, mid.treeBytes))
      && After(g, st, first, dest) == After(g, mid, n.listing, dest + [name])
  {
    Alone(g, lim, name, n, dest);
    var path := dest + [name];
    assert st.files + (map[path := Folder] + Files(g, n.listing, path)) == st.files[path := Folder] + Files(g, n.listing, path);
  }

  /** What a materialisation of `listing` from `st` must give. */
  ghost predicate Gives(g: Git, lim: Limits, r: Result<State, Refusal>, listing: Option<Listing>, st: State,
      dest: Path) {
    && (r.Success? <==> listing.Some? && Fits(g, lim, listing.value, st.entries, st.bytes, st.treeBytes))
    && (r.Success? ==> r.value == After(g, st, listing.value, dest))
  }

  lemma {:induction false} MaterializeGives(g: Git, lim: Limits, id: Bytes, dest: Path, levels: nat, st: State)
    requires Within(st, lim) && IsFolder(st.files, dest) && forall p :: p in st.files && Under(p, dest) ==> p == dest
    ensures var r := Materialize(g, lim, id, dest, levels, st); var n := Load(g, false, id, levels);
      if n.None? then r.Failure? else Gives(g, lim, r, Some(n.value.listing), st.(treeBytes := st.treeBytes + n.value.size), dest)
    decreases levels, 1, 0
  {
    hide Decode, Fits, Under, Free;
    if levels > 0 && id in g.store && g.store[id].TreeObject? {
      var bytes := g.store[id].bytes;
      var es := Decode(bytes, g.rawLength, false, {});
      if es.Success? {
        DecodedNames(bytes, g.rawLength, false);
        AllFreeInside(st.files, dest, es.value);
        var l := LoadEntries(g, false, es.value, levels);
        if l.Some? && st.treeBytes + |bytes| > lim.treeBytes {
          FitsBounds(g, lim, l.value, st.entries, st.bytes, st.treeBytes + |bytes|);
        }
        if st.treeBytes + |bytes| <= lim.treeBytes {
          MaterializeEntriesGives(g, lim, es.value, dest, levels, st.(treeBytes := st.treeBytes + |bytes|));
        }
      }
    }
  }

  lemma FitsBounds(g: Git, lim: Limits, l: Listing, entries: nat, bytes: nat, treeBytes: nat)
    requires entries > lim.entries || bytes > lim.materializedBytes || treeBytes > lim.treeBytes
    ensures !Fits(g, lim, l, entries, bytes, treeBytes)
  {
  }

  ghost predicate PlainNames(es: seq<Entry>) { DistinctNames(es) && forall i :: 0 <= i < |es| ==> SafeName(es[i].name) }

  lemma DecodedNames(bytes: Bytes, rawLength: nat, links: bool)
    requires Decode(bytes, rawLength, links, {}).Success?
    ensures PlainNames(Decode(bytes, rawLength, links, {}).value)
    ensures !links ==> NoLinkModes(Decode(bytes, rawLength, links, {}).value)
  {
    hide Decode, SafeName, Harmless;
    DecodedAreSafe(bytes, rawLength, links, {});
    var es := Decode(bytes, rawLength, links, {}).value;
    forall i | 0 <= i < |es| ensures SafeName(es[i].name) { SafeIsHarmless(es[i].name); }
  }

  ghost predicate NoLinkModes(es: seq<Entry>) { forall i :: 0 <= i < |es| ==> es[i].mode != SymbolicLink }

  lemma AllFreeInside(files: map<Path, Written>, dest: Path, es: seq<Entry>)
    requires forall p :: p in files && Under(p, dest) ==> p == dest
    ensures AllFree(files, dest, es)
  {
    forall i, p | 0 <= i < |es| && p in files ensures !Under(p, dest + [es[i].name]) {
      if Under(p, dest + [es[i].name]) { UnderTrans(p, dest, es[i].name); }
    }
  }

  lemma {:induction false} MaterializeEntriesGives(g: Git, lim: Limits, es: seq<Entry>, dest: Path, levels: nat,
      st: State)
    requires levels > 0 && Within(st, lim) && IsFolder(st.files, dest) && AllFree(st.files, dest, es)
    requires PlainNames(es) && NoLinkModes(es)
    ensures Gives(g, lim, MaterializeEntries(g, lim, es, dest, levels, st), LoadEntries(g, false, es, levels), st, dest)
    decreases levels, 0, |es|
  {
    hide Materialize, Load, MaterializeFile, MaterializeFolder, Under, Free, Fits, After, SafeName;
    if es == [] {
      NothingToWrite(g, lim, st, dest);
    } else {
      var e, rest := es[0], es[1..];
      var node := if e.mode == Directory then Load(g, false, e.id, levels - 1) else Some(Blob(e.mode, e.id));
      if e.mode == Directory { FolderGives(g, lim, e, dest, levels, st); } else { FileStep(g, lim, e, dest, st); }
      var r := if e.mode == Directory then MaterializeFolder(g, lim, e, dest, levels, st) else MaterializeFile(g, lim, e, dest, st);
      if node.Some? {
        var first := Cons(e.name, node.value, Nil);
        var next := LoadEntries(g, false, rest, levels);
        if next.Some? { FitsSplit(g, lim, Cons(e.name, node.value, next.value), st, dest); }
        if r.Success? {
          FitsSplit(g, lim, first, st, dest);
          RestIsFree(g, st, e, node.value, dest, rest);
          MaterializeEntriesGives(g, lim, rest, dest, levels, r.value);
        }
      }
    }
  }

  lemma NothingToWrite(g: Git, lim: Limits, st: State, dest: Path)
    requires Within(st, lim)
    ensures Fits(g, lim, Nil, st.entries, st.bytes, st.treeBytes) && After(g, st, Nil, dest) == st
  {
    assert st.files + map[] == st.files;
  }

  lemma RestIsFree(g: Git, st: State, e: Entry, node: Node, dest: Path, rest: seq<Entry>)
    requires IsFolder(st.files, dest) && AllFree(st.files, dest, rest) && forall i :: 0 <= i < |rest| ==> rest[i].name != e.name
    ensures var mid := After(g, st, Cons(e.name, node, Nil), dest); IsFolder(mid.files, dest) && AllFree(mid.files, dest, rest)
  {
    hide Under, Free, AllFree;
    var more := Files(g, Cons(e.name, node, Nil), dest);
    assert more == NodeFiles(g, node, dest + [e.name]) by { assert Files(g, Nil, dest) == map[]; }
    forall p | p in more ensures Under(p, dest + [e.name]) { NodeFilesUnder(g, node, dest + [e.name], p); }
    OthersStayFree(st.files, more, dest, e.name, rest);
  }

  lemma {:induction false} FolderGives(g: Git, lim: Limits, e: Entry, dest: Path, levels: nat, st: State)
    requires levels > 0 && Within(st, lim) && IsFolder(st.files, dest) && Free(st.files, dest + [e.name])
    ensures var r := MaterializeFolder(g, lim, e, dest, levels, st); var n := Load(g, false, e.id, levels - 1);
      Gives(g, lim, r, if n.None? then None else Some(Cons(e.name, n.value, Nil)), st, dest)
    decreases levels - 1, 2, 0
  {
    hide Materialize, Load, Under, Free, Fits, After;
    var path := dest + [e.name];
    PutFree(st.files, dest, e.name, Folder);
    var n := Load(g, false, e.id, levels - 1);
    if n.Some? {
      FolderStep(g, lim, e.name, n.value, dest, st);
      if st.entries + 1 > lim.entries {
        FitsBounds(g, lim, n.value.listing, st.entries + 1, st.bytes, st.treeBytes + n.value.size);
      }
    }
    if st.entries + 1 <= lim.entries {
      OnlyItself(st.files, path);
      MaterializeGives(g, lim, e.id, path, levels - 1,
        st.(entries := st.entries + 1, files := st.files[path := Folder]));
    }
  }

  lemma OnlyItself(files: map<Path, Written>, path: Path)
    requires Free(files, path)
    ensures forall p :: p in files[path := Folder] && Under(p, path) ==> p == path
  {
  }

  // ---- the list form ----

  datatype RootEntry = RootEntry(mode: Mode, path: Path, id: Bytes)

  datatype Listed = Listed(entries: seq<RootEntry>, count: nat, treeBytes: nat)

  /** `readRootEntries`: a directory's tree, and the loop over its bytes that recurses as it decodes. */
  function ReadRoot(g: Git, lim: Limits, id: Bytes, parent: Path, levels: nat, count: nat,
      treeBytes: nat): Result<Listed, Refusal>
    decreases levels, 1, 0
  {
    if levels == 0 then Failure(TooDeep) else
    var bytes := ReadTreeObject(g, id, lim.treeBytes);
    if bytes.Failure? then Failure(bytes.error)
    else if treeBytes + |bytes.value| > lim.treeBytes then Failure(TooManyTreeBytes)
    else ReadRootLoop(g, lim, bytes.value, {}, parent, levels, count, treeBytes + |bytes.value|)
  }

  function ReadRootLoop(g: Git, lim: Limits, s: Bytes, names: set<Bytes>, parent: Path, levels: nat, count: nat,
      treeBytes: nat): Result<Listed, Refusal>
    requires levels > 0
    decreases levels, 0, |s|
  {
    if s == [] then Success(Listed([], count, treeBytes)) else
    var raw := Split(s, g.rawLength);
    if raw.None? then Failure(BadTree(InvalidEncoding)) else
    var e := Head(raw.value, true);
    if e.Failure? then Failure(BadTree(e.error))
    else if e.value.name in names then Failure(BadTree(DuplicateName))
    else if count + 1 > lim.entries then Failure(TooManyEntries)
    else
      var entry := RootEntry(e.value.mode, parent + [e.value.name], e.value.id);
      var sub := if entry.mode == Directory then ReadRoot(g, lim, entry.id, entry.path, levels - 1, count + 1, treeBytes)
                 else Success(Listed([], count + 1, treeBytes));
      if sub.Failure? then sub else
      var rest := ReadRootLoop(g, lim, s[|Join(raw.value)|..], names + {e.value.name},
        parent, levels, sub.value.count, sub.value.treeBytes);
      if rest.Failure? then rest
      else Success(rest.value.(entries := [entry] + sub.value.entries + rest.value.entries))
  }

  datatype Output = Output(bytes: nat, files: map<Path, Written>)

  /** The first loop of `writeRootEntries`; links are left to a second loop. */
  function WriteRoot(g: Git, lim: Limits, entries: seq<RootEntry>, out: Output): Result<Output, Refusal>
    decreases |entries|
  {
    if entries == [] then Success(out) else
    var next := WriteEntry(g, lim, entries[0], out);
    if next.Failure? then next else WriteRoot(g, lim, entries[1..], next.value)
  }

  function WriteEntry(g: Git, lim: Limits, e: RootEntry, out: Output): Result<Output, Refusal> {
    if e.mode == Directory then
      var files := Put(out.files, e.path, Folder);
      if files.Failure? then Failure(files.error) else Success(out.(files := files.value))
    else if e.mode == SymbolicLink then Success(out)
    else
      var remaining := Min(lim.blobBytes, lim.materializedBytes - out.bytes);
      if remaining < 0 then Failure(TooManyBytes) else
      var bytes := ReadBlobObject(g, e.id, remaining);
      if bytes.Failure? then Failure(bytes.error) else
      var files := Put(out.files, e.path, File(e.mode == Executable, bytes.value));
      if files.Failure? then Failure(files.error) else Success(Output(out.bytes + |bytes.value|, files.value))
  }
}
