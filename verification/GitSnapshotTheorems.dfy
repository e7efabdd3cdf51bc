/** What the two ways of materialising a tree, and of reading one file of it, have in common. */
module GitSnapshotTheorems {
  import opened Wrappers
  import opened ByteStrings
  import opened GitTree
  import opened GitSnapshot

  const START := State(0, 0, 0, map[[] := Folder])

  /** A tree, readable within the depth limit, whose totals are all within their limits. */
  predicate TreeFits(g: Git, lim: Limits, n: Option<Node>) {
    n.Some? && n.value.Dir? && Fits(g, lim, n.value.listing, 0, 0, n.value.size)
  }

  /** Materialising succeeds exactly on such a tree, and writes its flattening. */
  lemma MaterializeExact(g: Git, lim: Limits, id: Bytes)
    ensures var r := Materialize(g, lim, id, [], lim.depth + 1, START); var n := Load(g, false, id, lim.depth + 1);
      && (r.Success? <==> TreeFits(g, lim, n))
      && (r.Success? ==> r.value.files == map[[] := Folder] + Files(g, n.value.listing, []) && Within(r.value, lim))
  {
    hide Materialize, Load, Fits;
    MaterializeGives(g, lim, id, [], lim.depth + 1, START);
    var n := Load(g, false, id, lim.depth + 1);
    if TreeFits(g, lim, n) { FitsAreBounds(g, lim, n.value.listing, 0, 0, n.value.size); }
  }

  lemma FitsAreBounds(g: Git, lim: Limits, l: Listing, entries: nat, bytes: nat, treeBytes: nat)
    requires Fits(g, lim, l, entries, bytes, treeBytes)
    ensures entries + EntryCount(l) <= lim.entries && bytes + BlobBytes(g, l) <= lim.materializedBytes
    ensures treeBytes + TreeBytes(l) <= lim.treeBytes
  {
  }

  /** Tree `a`, if it can be read at all, has tree `b` as a directory. */
  ghost predicate HasDirectory(g: Git, links: bool, a: Bytes, b: Bytes) {
    && a in g.store && g.store[a].TreeObject?
    && var es := Decode(g.store[a].bytes, g.rawLength, links, {});
       es.Success? ==> exists k :: 0 <= k < |es.value| && es.value[k].mode == Directory && es.value[k].id == b
  }

  /** Each tree of the cycle has the next as a directory, and the last has the first. */
  ghost predicate IsCycle(g: Git, links: bool, cycle: seq<Bytes>) {
    cycle != [] && forall i :: 0 <= i < |cycle| ==> HasDirectory(g, links, cycle[i], cycle[if i + 1 < |cycle| then i + 1 else 0])
  }

  ghost predicate NeverLoads(g: Git, links: bool, id: Bytes) { forall levels: nat :: Load(g, links, id, levels).None? }

  lemma RefusedBelow(g: Git, links: bool, a: Bytes, b: Bytes, levels: nat)
    requires HasDirectory(g, links, a, b) && levels > 0 && Load(g, links, b, levels - 1) == None
    ensures Load(g, links, a, levels) == None
  {
    hide Decode;
    var es := Decode(g.store[a].bytes, g.rawLength, links, {});
    if es.Success? {
      var k :| 0 <= k < |es.value| && es.value[k].mode == Directory && es.value[k].id == b;
      OneUnloadedEntry(g, links, es.value, levels, k);
    }
  }

  /** A tree on a cycle of directories, of whatever length, is refused at every depth limit. */
  lemma {:induction false} CyclicTreeIsRefused(g: Git, links: bool, cycle: seq<Bytes>, i: nat, levels: nat)
    requires IsCycle(g, links, cycle) && i < |cycle|
    ensures Load(g, links, cycle[i], levels) == None
    decreases levels
  {
    hide Load, HasDirectory;
    var next := if i + 1 < |cycle| then i + 1 else 0;
    assert HasDirectory(g, links, cycle[i], cycle[next]);
    if levels > 0 {
      CyclicTreeIsRefused(g, links, cycle, next, levels - 1);
      RefusedBelow(g, links, cycle[i], cycle[next], levels);
    } else {
      NoLevels(g, links, cycle[i]);
    }
  }

  lemma NoLevels(g: Git, links: bool, id: Bytes)
    ensures Load(g, links, id, 0) == None
  {
  }

  /** So neither form materialises it, whatever the limits. */
  lemma CyclicTreeIsNotMaterialized(g: Git, lim: Limits, cycle: seq<Bytes>, i: nat)
    requires i < |cycle|
    ensures IsCycle(g, false, cycle) ==> Materialize(g, lim, cycle[i], [], lim.depth + 1, START).Failure?
    ensures IsCycle(g, true, cycle) ==> RootSnapshot(g, lim, cycle[i]).Failure?
  {
    hide Materialize, RootSnapshot, Load, IsCycle;
    MaterializeExact(g, lim, cycle[i]);
    RootSnapshotExact(g, lim, cycle[i]);
    if IsCycle(g, false, cycle) { CyclicTreeIsRefused(g, false, cycle, i, lim.depth + 1); }
    if IsCycle(g, true, cycle) { CyclicTreeIsRefused(g, true, cycle, i, lim.depth + 1); }
  }

  /** A tree from which a path of directories leads to one that never loads does not load either. */
  lemma {:induction false} ReachingCycleIsRefused(g: Git, links: bool, path: seq<Bytes>, levels: nat)
    requires path != [] && (forall i :: 0 <= i < |path| - 1 ==> HasDirectory(g, links, path[i], path[i + 1]))
    requires NeverLoads(g, links, path[|path| - 1])
    ensures Load(g, links, path[0], levels) == None
    decreases |path|
  {
    hide Load, HasDirectory;
    if |path| > 1 && levels > 0 {
      var rest := path[1..];
      forall i | 0 <= i < |rest| - 1 ensures HasDirectory(g, links, rest[i], rest[i + 1]) {
        assert rest[i] == path[i + 1] && rest[i + 1] == path[i + 2];
      }
      ReachingCycleIsRefused(g, links, rest, levels - 1);
      RefusedBelow(g, links, path[0], path[1], levels);
    } else if levels == 0 {
      NoLevels(g, links, path[0]);
    }
  }

  lemma {:induction false} OneUnloadedEntry(g: Git, links: bool, es: seq<Entry>, levels: nat, k: nat)
    requires levels > 0 && k < |es| && es[k].mode == Directory && Load(g, links, es[k].id, levels - 1) == None
    ensures LoadEntries(g, links, es, levels) == None
    decreases k
  {
    if k > 0 { OneUnloadedEntry(g, links, es[1..], levels, k - 1); }
  }

  // ---- the flattening is the lookup of every path ----

  function Child(l: Listing, name: Bytes): Option<Node> {
    match l
    case Nil => None
    case Cons(n, node, next) => if n == name then Some(node) else Child(next, name)
  }

  function Lookup(n: Node, path: Path): Option<Node>
    decreases |path|
  {
    if path == [] then Some(n)
    else if n.Blob? then None
    else
      var c := Child(n.listing, path[0]);
      if c.None? then None else Lookup(c.value, path[1..])
  }

  function Shape(g: Git, n: Node): Written {
    if n.Dir? then Folder else File(n.mode == Executable, BlobContent(g, n.id))
  }

  /** Every name is safe and appears once in its directory. */
  predicate Tidy(l: Listing) {
    match l
    case Nil => true
    case Cons(name, node, next) =>
      SafeName(name) && Child(next, name) == None && (if node.Dir? then Tidy(node.listing) else node.mode != Directory) && Tidy(next)
  }

  lemma {:induction false} LoadTidy(g: Git, links: bool, id: Bytes, levels: nat)
    requires Load(g, links, id, levels).Some?
    ensures Tidy(Load(g, links, id, levels).value.listing)
    decreases levels, 1, 0
  {
    hide Decode, SafeName;
    DecodedNames(g.store[id].bytes, g.rawLength, links);
    LoadEntriesTidy(g, links, Decode(g.store[id].bytes, g.rawLength, links, {}).value, levels);
  }

  lemma {:induction false} LoadEntriesTidy(g: Git, links: bool, es: seq<Entry>, levels: nat)
    requires levels > 0 && PlainNames(es) && LoadEntries(g, links, es, levels).Some?
    ensures Tidy(LoadEntries(g, links, es, levels).value)
    decreases levels, 0, |es|
  {
    hide Load, SafeName;
    if es != [] {
      if es[0].mode == Directory { LoadTidy(g, links, es[0].id, levels - 1); }
      LoadEntriesTidy(g, links, es[1..], levels);
      ChildLoaded(g, links, es[1..], levels, es[0].name);
    }
  }

  function FindEntry(es: seq<Entry>, name: Bytes): (r: Option<Entry>)
    ensures r.None? <==> forall i :: 0 <= i < |es| ==> es[i].name != name
  {
    if es == [] then None else if es[0].name == name then Some(es[0]) else FindEntry(es[1..], name)
  }

  function NodeOf(g: Git, links: bool, e: Entry, levels: nat): Option<Node>
    requires levels > 0
  {
    if e.mode == Directory then Load(g, links, e.id, levels - 1) else Some(Blob(e.mode, e.id))
  }

  lemma {:induction false} ChildLoaded(g: Git, links: bool, es: seq<Entry>, levels: nat, name: Bytes)
    requires levels > 0 && LoadEntries(g, links, es, levels).Some?
    ensures Child(LoadEntries(g, links, es, levels).value, name) ==
      (if FindEntry(es, name).None? then None else NodeOf(g, links, FindEntry(es, name).value, levels))
    ensures FindEntry(es, name).Some? ==> NodeOf(g, links, FindEntry(es, name).value, levels).Some?
    decreases |es|
  {
    hide Load;
    if es != [] { ChildLoaded(g, links, es[1..], levels, name); }
  }

  lemma {:induction false} FilesByChild(g: Git, l: Listing, dest: Path, p: Path)
    requires Tidy(l) && Under(p, dest) && |p| > |dest|
    ensures var c := Child(l, p[|dest|]);
      && (p in Files(g, l, dest) <==> c.Some? && p in NodeFiles(g, c.value, dest + [p[|dest|]]))
      && (p in Files(g, l, dest) ==> Files(g, l, dest)[p] == NodeFiles(g, c.value, dest + [p[|dest|]])[p])
    decreases l
  {
    hide Under, NodeFiles, SafeName;
    if l.Cons? {
      FilesByChild(g, l.next, dest, p);
      if p in NodeFiles(g, l.node, dest + [l.name]) {
        NodeFilesUnder(g, l.node, dest + [l.name], p);
        UnderTrans(p, dest, l.name);
      }
    }
  }

  /** A path is written exactly when the tree has a file or directory there, with its content. */
  lemma {:induction false} NodeFilesAreLookup(g: Git, n: Node, dest: Path, path: Path)
    requires n.Dir? ==> Tidy(n.listing)
    ensures var m := Lookup(n, path); var files := NodeFiles(g, n, dest);
      && (dest + path in files <==> m.Some? && (m.value.Dir? || IsFile(m.value)))
      && (dest + path in files ==> files[dest + path] == Shape(g, m.value))
    decreases |path|
  {
    hide Under, SafeName;
    var p := dest + path;
    if path == [] {
      assert p == dest;
      if n.Dir? && p in Files(g, n.listing, dest) { FilesUnder(g, n.listing, dest, p); }
    } else if n.Dir? {
      assert Under(p, dest) by { assert p[..|dest|] == dest; UnderItself(p, dest); }
      FilesByChild(g, n.listing, dest, p);
      assert p[|dest|] == path[0];
      var c := Child(n.listing, path[0]);
      if c.Some? {
        ChildTidy(n.listing, path[0]);
        assert dest + [path[0]] + path[1..] == p;
        NodeFilesAreLookup(g, c.value, dest + [path[0]], path[1..]);
      }
    } else {
      assert |p| > |dest|;
    }
  }

  lemma UnderItself(p: Path, dest: Path)
    requires |dest| <= |p| && p[..|dest|] == dest
    ensures Under(p, dest)
  {
  }

  lemma {:induction false} ChildTidy(l: Listing, name: Bytes)
    requires Tidy(l) && Child(l, name).Some?
    ensures SafeName(name) && (Child(l, name).value.Dir? ==> Tidy(Child(l, name).value.listing))
    decreases l
  {
    hide SafeName;
    if l.name != name { ChildTidy(l.next, name); }
  }

  /** After a successful materialisation the destination is the tree, path by path. */
  lemma MaterializedIsTheTree(g: Git, lim: Limits, id: Bytes, path: Path)
    requires Materialize(g, lim, id, [], lim.depth + 1, START).Success?
    ensures Load(g, false, id, lim.depth + 1).Some?
    ensures var files := Materialize(g, lim, id, [], lim.depth + 1, START).value.files;
      var m := Lookup(Load(g, false, id, lim.depth + 1).value, path);
      && (path in files <==> m.Some? && (m.value.Dir? || IsFile(m.value)))
      && (path in files ==> files[path] == Shape(g, m.value))
  {
    hide Materialize, Load, Fits, Tidy;
    MaterializeExact(g, lim, id);
    LoadTidy(g, false, id, lim.depth + 1);
    var n := Load(g, false, id, lim.depth + 1).value;
    NodeFilesAreLookup(g, n, [], path);
    assert [] + path == path;
  }

  // ---- reading one file ----

  datatype CandidateBlob = CandidateBlob(id: Bytes, mode: Mode, bytes: Bytes)

  function WalkBlob(g: Git, lim: Limits, tree: Bytes, components: Path,
      maximumBytes: nat): Result<CandidateBlob, Refusal>
    requires components != []
    decreases |components|
  {
    var bytes := ReadTreeObject(g, tree, lim.treeBytes);
    if bytes.Failure? then Failure(bytes.error) else
    var es := Decode(bytes.value, g.rawLength, false, {});
    if es.Failure? then Failure(BadTree(es.error)) else
    var e := FindEntry(es.value, components[0]);
    if e.None? then Failure(AbsentPath)
    else if |components| > 1 then
      if e.value.mode != Directory then Failure(NotATree) else WalkBlob(g, lim, e.value.id, components[1..], maximumBytes)
    else if e.value.mode == Directory then Failure(NotAFile)
    else
      var blob := ReadBlobObject(g, e.value.id, Min(maximumBytes, lim.blobBytes));
      if blob.Failure? then Failure(blob.error) else Success(CandidateBlob(e.value.id, e.value.mode, blob.value))
  }

  predicate PathAllowed(lim: Limits, components: Path) {
    0 < |components| <= lim.depth && forall i :: 0 <= i < |components| ==> SafeName(components[i])
  }

  /** `readVerifiedBlob`. */
  function ReadBlob(g: Git, lim: Limits, tree: Bytes, components: Path,
      maximumBytes: nat): Result<CandidateBlob, Refusal> {
    if !PathAllowed(lim, components) then Failure(UnsafePath) else WalkBlob(g, lim, tree, components, maximumBytes)
  }

  method ReadVerifiedBlob(g: Git, lim: Limits, treeObjectId: Bytes, components: Path, maximumBytes: nat)
    returns (r: Result<CandidateBlob, Refusal>)
    ensures r == ReadBlob(g, lim, treeObjectId, components, maximumBytes)
  {
    hide Decode, SafeName;
    if |components| == 0 || |components| > lim.depth || !forall i :: 0 <= i < |components| ==> SafeName(components[i]) {
      return Failure(UnsafePath);
    }
    var tree := treeObjectId;
    assert components[0..] == components;
    for index := 0 to |components|
      invariant index < |components| ==>
        WalkBlob(g, lim, treeObjectId, components, maximumBytes) == WalkBlob(g, lim, tree, components[index..], maximumBytes)
      invariant index < |components|
    {
      assert components[index..][0] == components[index] && components[index..][1..] == components[index + 1..];
      var bytes := ReadTreeObject(g, tree, lim.treeBytes);
      if bytes.Failure? { return Failure(bytes.error); }
      var listing := ReadTree(bytes.value, g.rawLength, false);
      if listing.Failure? { return Failure(BadTree(listing.error)); }
      var entry := FindEntry(listing.value, components[index]);
      if entry.None? { return Failure(AbsentPath); }
      if index < |components| - 1 {
        if entry.value.mode != Directory { return Failure(NotATree); }
        tree := entry.value.id;
        continue;
      }
      if entry.value.mode == Directory { return Failure(NotAFile); }
      var blob := ReadBlobObject(g, entry.value.id, Min(maximumBytes, lim.blobBytes));
      if blob.Failure? { return Failure(blob.error); }
      return Success(CandidateBlob(entry.value.id, entry.value.mode, blob.value));
    }
    return Failure(UnsafePath);
  }

  /** The walk finds what the tree has, for a tree whose own bytes are within the tree limit. */
  lemma {:induction false} WalkIsLookup(g: Git, lim: Limits, id: Bytes, levels: nat, path: Path, max: nat)
    requires path != [] && Load(g, false, id, levels).Some?
    requires var n := Load(g, false, id, levels).value; n.size + TreeBytes(n.listing) <= lim.treeBytes && BlobsOk(g, lim, n.listing)
    ensures var m := Lookup(Load(g, false, id, levels).value, path);
      WalkBlob(g, lim, id, path, max).Success? <==> m.Some? && IsFile(m.value) && |BlobContent(g, m.value.id)| <= max
    ensures var m := Lookup(Load(g, false, id, levels).value, path); WalkBlob(g, lim, id, path, max).Success? ==>
      WalkBlob(g, lim, id, path, max).value == CandidateBlob(m.value.id, m.value.mode, BlobContent(g, m.value.id))
    decreases |path|
  {
    hide Decode, LoadEntries;
    var n := Load(g, false, id, levels).value;
    var es := Decode(g.store[id].bytes, g.rawLength, false, {}).value;
    var name := path[0];
    ChildLoaded(g, false, es, levels, name);
    DecodedNames(g.store[id].bytes, g.rawLength, false);
    var e := FindEntry(es, name);
    if e.Some? {
      FoundEntryIsListed(es, name);
      ChildBounds(g, lim, n.listing, name);
      if |path| > 1 && e.value.mode == Directory {
        WalkIsLookup(g, lim, e.value.id, levels - 1, path[1..], max);
      }
    }
  }

  lemma {:induction false} FoundEntryIsListed(es: seq<Entry>, name: Bytes)
    requires FindEntry(es, name).Some? && NoLinkModes(es)
    ensures FindEntry(es, name).value.mode != SymbolicLink
    decreases |es|
  {
    if es[0].name != name { FoundEntryIsListed(es[1..], name); }
  }

  lemma {:induction false} ChildBounds(g: Git, lim: Limits, l: Listing, name: Bytes)
    requires Child(l, name).Some? && BlobsOk(g, lim, l)
    ensures var c := Child(l, name).value; NodeBlobsOk(g, lim, c) && (c.Dir? ==> c.size + TreeBytes(c.listing) <= TreeBytes(l))
    decreases l
  {
    if l.name != name { ChildBounds(g, lim, l.next, name); }
  }

  lemma {:induction false} LookupSafe(n: Node, path: Path, i: nat)
    requires (n.Dir? ==> Tidy(n.listing)) && Lookup(n, path).Some? && i < |path|
    ensures SafeName(path[i])
    decreases |path|
  {
    hide SafeName;
    ChildTidy(n.listing, path[0]);
    if i > 0 { LookupSafe(Child(n.listing, path[0]).value, path[1..], i - 1); }
  }

  /**
   Reading one file of a tree that materialises gives the materialised file, exactly when the path
   has at most as many components as the depth limit and the file is within the reader's own limit.
   */
  lemma ReadAgreesWithMaterialized(g: Git, lim: Limits, id: Bytes, path: Path, max: nat)
    requires Materialize(g, lim, id, [], lim.depth + 1, START).Success?
    ensures var files := Materialize(g, lim, id, [], lim.depth + 1, START).value.files; var r := ReadBlob(g, lim, id, path, max);
      && (r.Success? <==> path in files && files[path].File? && |path| <= lim.depth && |files[path].bytes| <= max)
      && (r.Success? ==> files[path] == File(r.value.mode == Executable, r.value.bytes))
  {
    hide Materialize, Load, Tidy, SafeName, WalkBlob, Lookup, BlobsOk;
    MaterializedIsTheTree(g, lim, id, path);
    MaterializeExact(g, lim, id);
    LoadTidy(g, false, id, lim.depth + 1);
    var n := Load(g, false, id, lim.depth + 1).value;
    if path == [] {
      RootIsFolder(n);
    } else {
      WalkIsLookup(g, lim, id, lim.depth + 1, path, max);
      forall i | 0 <= i < |path| && Lookup(n, path).Some? ensures SafeName(path[i]) { LookupSafe(n, path, i); }
    }
  }

  lemma RootIsFolder(n: Node)
    ensures Lookup(n, []) == Some(n)
  {
  }

  // ---- the list form ----

  function Preorder(l: Listing, parent: Path): seq<RootEntry> {
    match l
    case Nil => []
    case Cons(name, node, next) => NodeList(node, parent + [name]) + Preorder(next, parent)
  }

  function NodeList(n: Node, path: Path): seq<RootEntry> {
    match n
    case Dir(id, _, listing) => [RootEntry(Directory, path, id)] + Preorder(listing, path)
    case Blob(mode, id) => [RootEntry(mode, path, id)]
  }

  /** What reading a listing into a list must give. */
  ghost predicate Lists(r: Result<Listed, Refusal>, lim: Limits, l: Option<Listing>, parent: Path, count: nat,
      treeBytes: nat) {
    && (r.Success? <==> l.Some? && count + EntryCount(l.value) <= lim.entries && treeBytes + TreeBytes(l.value) <= lim.treeBytes)
    && (r.Success? ==> r.value == Listed(Preorder(l.value, parent), count + EntryCount(l.value), treeBytes + TreeBytes(l.value)))
  }

  lemma {:induction false} ReadRootLists(g: Git, lim: Limits, id: Bytes, parent: Path, levels: nat, count: nat,
      treeBytes: nat)
    requires count <= lim.entries && treeBytes <= lim.treeBytes
    ensures var n := Load(g, true, id, levels); var r := ReadRoot(g, lim, id, parent, levels, count, treeBytes);
      if n.None? then r.Failure? else Lists(r, lim, Some(n.value.listing), parent, count, treeBytes + n.value.size)
    decreases levels, 1, 0
  {
    hide Decode, ReadRootLoop, LoadEntries, Lists;
    if levels > 0 && id in g.store && g.store[id].TreeObject? {
      var bytes := g.store[id].bytes;
      var es := Decode(bytes, g.rawLength, true, {});
      if treeBytes + |bytes| <= lim.treeBytes {
        ReadRootLoopLists(g, lim, bytes, {}, parent, levels, count, treeBytes + |bytes|);
        NoListing(ReadRootLoop(g, lim, bytes, {}, parent, levels, count, treeBytes + |bytes|), lim, parent, count,
          treeBytes + |bytes|);
      } else if es.Success? {
        OverLimit(ReadRoot(g, lim, id, parent, levels, count, treeBytes), lim, LoadEntries(g, true, es.value, levels),
          parent, count, treeBytes + |bytes|);
      }
    }
  }

  lemma NoListing(r: Result<Listed, Refusal>, lim: Limits, parent: Path, count: nat, treeBytes: nat)
    ensures Lists(r, lim, None, parent, count, treeBytes) <==> r.Failure?
  {
  }

  lemma OverLimit(r: Result<Listed, Refusal>, lim: Limits, l: Option<Listing>, parent: Path, count: nat, treeBytes: nat)
    requires r.Failure? && (count > lim.entries || treeBytes > lim.treeBytes)
    ensures Lists(r, lim, l, parent, count, treeBytes)
  {
  }

  /** Recursing while decoding lists what decoding first and then recursing would. */
  lemma {:induction false} ReadRootLoopLists(g: Git, lim: Limits, s: Bytes, names: set<Bytes>, parent: Path,
      levels: nat, count: nat, treeBytes: nat)
    requires levels > 0 && count <= lim.entries && treeBytes <= lim.treeBytes
    ensures var es := Decode(s, g.rawLength, true, names);
      var l := if es.Failure? then None else LoadEntries(g, true, es.value, levels);
      Lists(ReadRootLoop(g, lim, s, names, parent, levels, count, treeBytes), lim, l, parent, count, treeBytes)
    decreases levels, 0, |s|
  {
    hide Split, Head, ReadRoot, Load, Lists;
    var r := ReadRootLoop(g, lim, s, names, parent, levels, count, treeBytes);
    if s == [] {
      EmptyLists(lim, parent, count, treeBytes);
    } else if Split(s, g.rawLength).None? || Head(Split(s, g.rawLength).value, true).Failure?
      || Head(Split(s, g.rawLength).value, true).value.name in names {
      NoListing(r, lim, parent, count, treeBytes);
    } else {
      var raw := Split(s, g.rawLength).value;
      var e := Head(raw, true).value;
      var tail, path := s[|Join(raw)|..], parent + [e.name];
      var rest := Decode(tail, g.rawLength, true, names + {e.name});
      var next := if rest.Failure? then None else LoadEntries(g, true, rest.value, levels);
      var node := NodeOf(g, true, e, levels);
      if rest.Success? { assert ([e] + rest.value)[1..] == rest.value; }
      var l := if node.None? || next.None? then None else Some(Cons(e.name, node.value, next.value));
      if count + 1 > lim.entries {
        TooManyToList(r, lim, l, parent, count, treeBytes);
      } else {
        if e.mode == Directory { ReadRootLists(g, lim, e.id, path, levels - 1, count + 1, treeBytes); }
        var sub := if e.mode == Directory then ReadRoot(g, lim, e.id, path, levels - 1, count + 1, treeBytes)
                   else Success(Listed([], count + 1, treeBytes));
        NodeLists(g, lim, e, path, levels, count, treeBytes, sub);
        if sub.Success? {
          ListedBounds(sub, lim, node, path, count, treeBytes);
          ReadRootLoopLists(g, lim, tail, names + {e.name}, parent, levels, sub.value.count, sub.value.treeBytes);
          var tailList := ReadRootLoop(g, lim, tail, names + {e.name}, parent, levels, sub.value.count,
            sub.value.treeBytes);
          ListsCons(r, sub, tailList, lim, RootEntry(e.mode, path, e.id), e.name, node.value, next, parent, count,
            treeBytes);
        } else {
          ListsNoNode(r, lim, node, e.name, next, parent, count, treeBytes);
        }
      }
    }
  }

  lemma EmptyLists(lim: Limits, parent: Path, count: nat, treeBytes: nat)
    requires count <= lim.entries && treeBytes <= lim.treeBytes
    ensures Lists(Success(Listed([], count, treeBytes)), lim, Some(Nil), parent, count, treeBytes)
  {
  }

  lemma TooManyToList(r: Result<Listed, Refusal>, lim: Limits, l: Option<Listing>, parent: Path, count: nat,
      treeBytes: nat)
    requires r.Failure? && count + 1 > lim.entries && (l.Some? ==> l.value.Cons?)
    ensures Lists(r, lim, l, parent, count, treeBytes)
  {
  }

  /** What reading one entry must give: its own line, counted, and everything below it. */
  ghost predicate ListsNode(sub: Result<Listed, Refusal>, lim: Limits, node: Option<Node>, path: Path, count: nat,
      treeBytes: nat) {
    var l := if node.None? then None else if node.value.Dir? then Some(node.value.listing) else Some(Nil);
    Lists(sub, lim, l, path, count + 1, treeBytes + if node.Some? && node.value.Dir? then node.value.size else 0)
  }

  lemma NodeLists(g: Git, lim: Limits, e: Entry, path: Path, levels: nat, count: nat, treeBytes: nat,
      sub: Result<Listed, Refusal>)
    requires levels > 0 && count + 1 <= lim.entries && treeBytes <= lim.treeBytes
    requires if e.mode != Directory then sub == Success(Listed([], count + 1, treeBytes)) else
      var n := Load(g, true, e.id, levels - 1);
      if n.None? then sub.Failure? else Lists(sub, lim, Some(n.value.listing), path, count + 1, treeBytes + n.value.size)
    ensures ListsNode(sub, lim, NodeOf(g, true, e, levels), path, count, treeBytes)
    ensures NodeOf(g, true, e, levels).Some? ==>
      NodeMode(NodeOf(g, true, e, levels).value) == e.mode && NodeOf(g, true, e, levels).value.id == e.id
  {
    hide Load;
    if e.mode == Directory && Load(g, true, e.id, levels - 1).Some? { LoadKeepsId(g, true, e.id, levels - 1); }
  }

  function NodeMode(n: Node): Mode { if n.Dir? then Directory else n.mode }

  lemma ListedBounds(sub: Result<Listed, Refusal>, lim: Limits, node: Option<Node>, path: Path, count: nat,
      treeBytes: nat)
    requires sub.Success? && ListsNode(sub, lim, node, path, count, treeBytes)
    ensures node.Some? && sub.value.count <= lim.entries && sub.value.treeBytes <= lim.treeBytes
  {
  }

  lemma ListsNoNode(r: Result<Listed, Refusal>, lim: Limits, node: Option<Node>, name: Bytes, next: Option<Listing>,
      parent: Path, count: nat, treeBytes: nat)
    requires r.Failure? && exists sub: Result<Listed, Refusal> ::
      sub.Failure? && ListsNode(sub, lim, node, parent + [name], count, treeBytes)
    ensures Lists(r, lim, if node.None? || next.None? then None else Some(Cons(name, node.value, next.value)), parent, count, treeBytes)
  {
  }

  lemma ListsCons(r: Result<Listed, Refusal>, sub: Result<Listed, Refusal>, rest: Result<Listed, Refusal>, lim: Limits,
      entry: RootEntry, name: Bytes, node: Node, next: Option<Listing>, parent: Path, count: nat, treeBytes: nat)
    requires sub.Success? && ListsNode(sub, lim, Some(node), parent + [name], count, treeBytes)
    requires Lists(rest, lim, next, parent, sub.value.count, sub.value.treeBytes)
    requires entry == RootEntry(NodeMode(node), parent + [name], node.id) && (r.Success? <==> rest.Success?)
    requires rest.Success? ==> r.value == rest.value.(entries := [entry] + sub.value.entries + rest.value.entries)
    ensures Lists(r, lim, if next.None? then None else Some(Cons(name, node, next.value)), parent, count, treeBytes)
  {
    if rest.Success? {
      var l := Cons(name, node, next.value);
      assert NodeList(node, parent + [name]) == [entry] + sub.value.entries;
      assert Preorder(l, parent) == NodeList(node, parent + [name]) + Preorder(next.value, parent);
    }
  }

  lemma LoadKeepsId(g: Git, links: bool, id: Bytes, levels: nat)
    requires Load(g, links, id, levels).Some?
    ensures Load(g, links, id, levels).value.id == id
  {
    hide Decode;
  }

  /** Every name of the listing is free below `dest`. */
  ghost predicate ListFree(files: map<Path, Written>, dest: Path, l: Listing) {
    forall name :: Child(l, name).Some? ==> Free(files, dest + [name])
  }

  predicate ListFits(g: Git, lim: Limits, l: Listing,
      bytes: nat) { BlobsOk(g, lim, l) && bytes + BlobBytes(g, l) <= lim.materializedBytes }

  function WrittenOut(g: Git, l: Listing, dest: Path, out: Output): Output {
    Output(out.bytes + BlobBytes(g, l), out.files + Files(g, l, dest))
  }

  lemma ListFreeNext(g: Git, files: map<Path, Written>, dest: Path, l: Listing)
    requires l.Cons? && Tidy(l) && IsFolder(files, dest) && ListFree(files, dest, l)
    ensures Free(files, dest + [l.name])
    ensures var more := files + NodeFiles(g, l.node, dest + [l.name]); IsFolder(more, dest) && ListFree(more, dest, l.next)
  {
    hide Under, Free, SafeName;
    assert Child(l, l.name).Some?;
    var more := NodeFiles(g, l.node, dest + [l.name]);
    forall p | p in more ensures Under(p, dest + [l.name]) { NodeFilesUnder(g, l.node, dest + [l.name], p); }
    forall name | Child(l.next, name).Some? ensures Free(files + more, dest + [name]) {
      assert Child(l, name).Some?;
      OthersStayFree(files, more, dest, l.name, [Entry(Directory, name, [])]);
      assert [Entry(Directory, name, [])][0].name == name;
    }
    OthersStayFree(files, more, dest, l.name, []);
  }

  lemma InsideFree(files: map<Path, Written>, path: Path, l: Listing)
    requires Free(files, path)
    ensures ListFree(files[path := Folder], path, l)
  {
    OnlyItself(files, path);
    forall name, p | p in files[path := Folder] ensures !Under(p, path + [name]) {
      if Under(p, path + [name]) { UnderTrans(p, path, name); }
    }
  }

  lemma WriteEntryStep(g: Git, lim: Limits, e: RootEntry, rest: seq<RootEntry>, out: Output)
    ensures WriteRoot(g, lim, [e] + rest, out) ==
      (var next := WriteEntry(g, lim, e, out); if next.Failure? then next else WriteRoot(g, lim, rest, next.value))
  {
    hide WriteEntry;
    assert ([e] + rest)[1..] == rest;
  }

  /** Writing a preordered list writes the flattened tree, each path once and after its folder. */
  lemma {:induction false} WriteRootWrites(g: Git, lim: Limits, l: Listing, dest: Path, rest: seq<RootEntry>,
      out: Output)
    requires Tidy(l) && IsFolder(out.files, dest) && ListFree(out.files, dest, l) && out.bytes <= lim.materializedBytes
    ensures var r := WriteRoot(g, lim, Preorder(l, dest) + rest, out);
      if ListFits(g, lim, l, out.bytes) then r == WriteRoot(g, lim, rest, WrittenOut(g, l, dest, out)) else r.Failure?
    decreases l
  {
    hide WriteRoot, WriteEntry, Free, SafeName, Under;
    if l == Nil {
      assert Preorder(l, dest) + rest == rest;
      assert out.files + map[] == out.files;
    } else {
      var path := dest + [l.name];
      var tail := Preorder(l.next, dest) + rest;
      assert Preorder(l, dest) + rest == NodeList(l.node, path) + tail;
      ListFreeNext(g, out.files, dest, l);
      WriteNodeWrites(g, lim, l.name, l.node, dest, tail, out);
      SplitFits(g, lim, l, dest, out);
      var first := Cons(l.name, l.node, Nil);
      if ListFits(g, lim, first, out.bytes) {
        WriteRootWrites(g, lim, l.next, dest, rest, WrittenOut(g, first, dest, out));
      }
    }
  }

  lemma SplitFits(g: Git, lim: Limits, l: Listing, dest: Path, out: Output)
    requires l.Cons?
    ensures var first := Cons(l.name, l.node, Nil); var mid := WrittenOut(g, first, dest, out);
      && (ListFits(g, lim, l, out.bytes) <==> ListFits(g, lim, first, out.bytes) && ListFits(g, lim, l.next, mid.bytes))
      && WrittenOut(g, l.next, dest, mid) == WrittenOut(g, l, dest, out)
      && mid.files == out.files + NodeFiles(g, l.node, dest + [l.name])
  {
    FirstCounts(g, l);
    FirstBlobs(g, lim, l);
    Alone(g, lim, l.name, l.node, dest);
    var a, b := NodeFiles(g, l.node, dest + [l.name]), Files(g, l.next, dest);
    assert out.files + (a + b) == out.files + a + b;
  }

  lemma {:induction false} WriteNodeWrites(g: Git, lim: Limits, name: Bytes, n: Node, dest: Path, rest: seq<RootEntry>,
      out: Output)
    requires (if n.Dir? then Tidy(n.listing) else n.mode != Directory) && IsFolder(out.files, dest)
    requires Free(out.files, dest + [name]) && out.bytes <= lim.materializedBytes
    ensures var r := WriteRoot(g, lim, NodeList(n, dest + [name]) + rest, out); var first := Cons(name, n, Nil);
      if ListFits(g, lim, first, out.bytes) then r == WriteRoot(g, lim, rest, WrittenOut(g, first, dest, out)) else r.Failure?
    decreases n
  {
    hide WriteRoot, Free, SafeName, Under, Put;
    var path := dest + [name];
    var e := RootEntry(NodeMode(n), path, n.id);
    Alone(g, lim, name, n, dest);
    if n.Dir? {
      var inside := Preorder(n.listing, path) + rest;
      assert NodeList(n, path) + rest == [e] + inside;
      WriteEntryStep(g, lim, e, inside, out);
      PutFree(out.files, dest, name, Folder);
      InsideFree(out.files, path, n.listing);
      var made := out.files[path := Folder];
      WriteRootWrites(g, lim, n.listing, path, rest, out.(files := made));
      assert made + Files(g, n.listing, path) == out.files + NodeFiles(g, n, path);
    } else {
      assert NodeList(n, path) + rest == [e] + rest;
      WriteEntryStep(g, lim, e, rest, out);
      PutFree(out.files, dest, name, Shape(g, n));
      assert out.files + map[] == out.files;
      assert out.files + map[path := Shape(g, n)] == out.files[path := Shape(g, n)];
    }
  }

  // ---- both forms write the same files ----

  const EMPTY := Output(0, map[[] := Folder])

  /** `readRootEntries` followed by the first loop of `writeRootEntries`. */
  function RootSnapshot(g: Git, lim: Limits, id: Bytes): Result<Output, Refusal> {
    var listed := ReadRoot(g, lim, id, [], lim.depth + 1, 0, 0);
    if listed.Failure? then Failure(listed.error) else WriteRoot(g, lim, listed.value.entries, EMPTY)
  }

  /** The list form succeeds exactly on a readable tree within all limits, links aside, and writes its flattening. */
  lemma RootSnapshotExact(g: Git, lim: Limits, id: Bytes)
    ensures var r := RootSnapshot(g, lim, id); var n := Load(g, true, id, lim.depth + 1);
      && (r.Success? <==> TreeFits(g, lim, n))
      && (r.Success? ==> r.value.files == map[[] := Folder] + Files(g, n.value.listing, []))
  {
    hide ReadRoot, Load, WriteRoot, Tidy, BlobsOk;
    ReadRootLists(g, lim, id, [], lim.depth + 1, 0, 0);
    var n := Load(g, true, id, lim.depth + 1);
    if n.Some? {
      var l := n.value.listing;
      LoadTidy(g, true, id, lim.depth + 1);
      NothingWrittenYet(l);
      WriteRootWrites(g, lim, l, [], [], EMPTY);
      assert Preorder(l, []) + [] == Preorder(l, []);
      WriteNothing(g, lim, WrittenOut(g, l, [], EMPTY));
    }
  }

  lemma NothingWrittenYet(l: Listing)
    ensures IsFolder(EMPTY.files, []) && ListFree(EMPTY.files, [], l)
  {
    forall name, p | p in EMPTY.files ensures !Under(p, [] + [name]) {}
  }

  lemma WriteNothing(g: Git, lim: Limits, out: Output)
    ensures WriteRoot(g, lim, [], out) == Success(out)
  {
  }

  predicate NoLinks(l: Listing) {
    match l
    case Nil => true
    case Cons(_, node, next) => (if node.Dir? then NoLinks(node.listing) else node.mode != SymbolicLink) && NoLinks(next)
  }

  lemma HeadLinks(r: Raw)
    ensures Head(r, false).Success? ==> Head(r, true) == Head(r, false)
    ensures Head(r, true).Success? && Head(r, true).value.mode != SymbolicLink ==> Head(r, false) == Head(r, true)
  {
    hide Utf8, SafeName;
  }

  lemma {:induction false} DecodeLinks(s: Bytes, rawLength: nat, names: set<Bytes>)
    ensures Decode(s, rawLength, false, names).Success? ==> Decode(s, rawLength, true, names) == Decode(s, rawLength, false, names)
    ensures var es := Decode(s, rawLength, true, names);
      es.Success? && NoLinkModes(es.value) ==> Decode(s, rawLength, false, names) == es
    decreases |s|
  {
    hide Split, Head;
    if s != [] && Split(s, rawLength).Some? {
      var raw := Split(s, rawLength).value;
      HeadLinks(raw);
      if Head(raw, true).Success? {
        var e := Head(raw, true).value;
        DecodeLinks(s[|Join(raw)|..], rawLength, names + {e.name});
        var rest := Decode(s[|Join(raw)|..], rawLength, true, names + {e.name});
        if rest.Success? {
          forall i | 0 <= i < |rest.value| ensures rest.value[i] == ([e] + rest.value)[i + 1] {}
          assert ([e] + rest.value)[0] == e;
        }
      }
    }
  }

  lemma {:induction false} LoadLinks(g: Git, id: Bytes, levels: nat)
    ensures Load(g, false, id, levels).Some? ==> Load(g, true, id, levels) == Load(g, false, id, levels)
    ensures var n := Load(g, true, id, levels); n.Some? && NoLinks(n.value.listing) ==> Load(g, false, id, levels) == n
    decreases levels, 1, 0
  {
    hide Decode;
    if levels > 0 && id in g.store && g.store[id].TreeObject? {
      var bytes := g.store[id].bytes;
      DecodeLinks(bytes, g.rawLength, {});
      var es := Decode(bytes, g.rawLength, true, {});
      if es.Success? {
        LoadEntriesLinks(g, es.value, levels);
      }
    }
  }

  lemma {:induction false} LoadEntriesLinks(g: Git, es: seq<Entry>, levels: nat)
    requires levels > 0
    ensures LoadEntries(g, false, es, levels).Some? ==> LoadEntries(g, true, es, levels) == LoadEntries(g, false, es, levels)
    ensures var l := LoadEntries(g, true, es, levels);
      l.Some? && NoLinks(l.value) ==> LoadEntries(g, false, es, levels) == l && NoLinkModes(es)
    decreases levels, 0, |es|
  {
    hide Load;
    if es != [] {
      if es[0].mode == Directory { LoadLinks(g, es[0].id, levels - 1); }
      LoadEntriesLinks(g, es[1..], levels);
      forall i | 0 < i < |es| ensures es[i] == es[1..][i - 1] {}
    }
  }

  /** On a tree without links the two forms succeed together and write the same files. */
  lemma BothFormsAgree(g: Git, lim: Limits, id: Bytes)
    requires var n := Load(g, true, id, lim.depth + 1); n.Some? ==> NoLinks(n.value.listing)
    ensures var a := Materialize(g, lim, id, [], lim.depth + 1, START); var b := RootSnapshot(g, lim, id);
      (a.Success? <==> b.Success?) && (a.Success? ==> a.value.files == b.value.files)
  {
    hide Materialize, RootSnapshot, Load, Fits;
    MaterializeExact(g, lim, id);
    RootSnapshotExact(g, lim, id);
    LoadLinks(g, id, lim.depth + 1);
  }
}
