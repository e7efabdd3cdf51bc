/**
 Exactly which bytes are a tree, with modes and names written as the texts they stand for, and so what
 paths can ever be written.
 */
module GitTreeLaws {
  import opened Wrappers
  import opened ByteStrings
  import opened GitTree
  import opened GitSnapshot
  import opened GitSnapshotTheorems

  // ---- modes ----

  /** The token reads as the text once the high bit of each byte is cleared. */
  ghost predicate TokenReads(token: Bytes, text: string) {
    |token| == |text| && forall k :: 0 <= k < |token| ==> token[k] % 128 == text[k] as int
  }

  ghost predicate HasMode(token: Bytes, mode: Mode) {
    match mode
    case Directory => TokenReads(token, "40000")
    case Regular => TokenReads(token, "100644")
    case Executable => TokenReads(token, "100755")
    case SymbolicLink => TokenReads(token, "120000")
  }

  lemma ModeExact(token: Bytes, mode: Mode, links: bool)
    ensures ModeOf(token, links) == Some(mode) <==> HasMode(token, mode) && (mode == SymbolicLink ==> links)
  {
    Masked(token, Directory);
    Masked(token, Regular);
    Masked(token, Executable);
    Masked(token, SymbolicLink);
  }

  lemma Masked(token: Bytes, mode: Mode)
    ensures Ascii(token) == ModeToken(mode) <==> HasMode(token, mode)
  {
    var text := match mode
      case Directory => "40000"
      case Regular => "100644"
      case Executable => "100755"
      case SymbolicLink => "120000";
    assert |ModeToken(mode)| == |text| && forall k :: 0 <= k < |text| ==> ModeToken(mode)[k] == text[k] as int;
    if Ascii(token) == ModeToken(mode) {
      forall k | 0 <= k < |token| ensures token[k] % 128 == text[k] as int { assert Ascii(token)[k] == token[k] % 128; }
    }
  }

  // ---- UTF-8 ----

  /** Unicode scalar values: code points that are not surrogates. */
  predicate Scalar(c: nat) { c < 0xD800 || 0xE000 <= c < 0x11_0000 }

  function EncodeScalar(c: nat): (s: Bytes)
    requires Scalar(c)
    ensures s != []
  {
    if c < 0x80 then [c]
    else if c < 0x800 then [0xC0 + c / 64, 0x80 + c % 64]
    else if c < 0x1_0000 then [0xE0 + c / 4096, 0x80 + c / 64 % 64, 0x80 + c % 64]
    else [0xF0 + c / 262144, 0x80 + c / 4096 % 64, 0x80 + c / 64 % 64, 0x80 + c % 64]
  }

  ghost predicate Scalars(cs: seq<nat>) { forall i :: 0 <= i < |cs| ==> Scalar(cs[i]) }

  function EncodeText(cs: seq<nat>): Bytes
    requires Scalars(cs)
  {
    if cs == [] then [] else EncodeScalar(cs[0]) + EncodeText(cs[1..])
  }

  lemma ScalarWidth(c: nat, rest: Bytes)
    requires Scalar(c)
    ensures Utf8Width(EncodeScalar(c) + rest) == |EncodeScalar(c)|
  {
    var s := EncodeScalar(c) + rest;
    var e := EncodeScalar(c);
    assert forall k :: 0 <= k < |e| ==> s[k] == e[k];
  }

  /** The base-64 digits of a number, as the shifts of the encoder find them. */
  lemma Digit(c: nat, d: nat)
    requires d < 64
    ensures (c * 64 + d) / 64 == c && (c * 64 + d) % 64 == d
  {
  }

  lemma Digits(a: nat, b: nat, c: nat, d: nat)
    requires b < 64 && c < 64 && d < 64
    ensures var n := ((a * 64 + b) * 64 + c) * 64 + d;
      n / 262144 == a && n / 4096 % 64 == b && n / 64 % 64 == c && n % 64 == d && n / 4096 == a * 64 + b
  {
    Digit((a * 64 + b) * 64 + c, d);
    Digit(a * 64 + b, c);
    Digit(a, b);
  }

  lemma FirstScalar(s: Bytes) returns (c: nat)
    requires s != [] && Utf8Width(s) > 0
    ensures Scalar(c) && EncodeScalar(c) == s[..Utf8Width(s)]
  {
    var n := Utf8Width(s);
    if n == 1 { c := s[0]; }
    else if n == 2 { c := TwoBytes(s[0], s[1]); }
    else if n == 3 { c := ThreeBytes(s[0], s[1], s[2]); }
    else { c := FourBytes(s[0], s[1], s[2], s[3]); }
  }

  lemma TwoBytes(x: int, y: int) returns (c: nat)
    requires 0xC2 <= x < 0xE0 && 0x80 <= y < 0xC0
    ensures Scalar(c) && EncodeScalar(c) == [x, y]
  {
    c := (x - 0xC0) * 64 + y - 0x80;
    Digits(0, 0, x - 0xC0, y - 0x80);
  }

  lemma ThreeBytes(x: int, y: int, z: int) returns (c: nat)
    requires 0xE0 <= x < 0xF0 && 0x80 <= y < 0xC0 && 0x80 <= z < 0xC0
    requires (x == 0xE0 ==> y >= 0xA0) && (x == 0xED ==> y < 0xA0)
    ensures Scalar(c) && EncodeScalar(c) == [x, y, z]
  {
    c := ((x - 0xE0) * 64 + y - 0x80) * 64 + z - 0x80;
    Digits(0, x - 0xE0, y - 0x80, z - 0x80);
  }

  lemma FourBytes(x: int, y: int, z: int, w: int) returns (c: nat)
    requires 0xF0 <= x < 0xF5 && 0x80 <= y < 0xC0 && 0x80 <= z < 0xC0 && 0x80 <= w < 0xC0
    requires (x == 0xF0 ==> y >= 0x90) && (x == 0xF4 ==> y < 0x90)
    ensures Scalar(c) && EncodeScalar(c) == [x, y, z, w]
  {
    c := (((x - 0xF0) * 64 + y - 0x80) * 64 + z - 0x80) * 64 + w - 0x80;
    Digits(x - 0xF0, y - 0x80, z - 0x80, w - 0x80);
  }

  /** The bytes a name may consist of are exactly the UTF-8 forms of texts. */
  lemma {:induction false} Utf8Exact(s: Bytes)
    ensures Utf8(s) <==> exists cs :: Scalars(cs) && s == EncodeText(cs)
    decreases |s|
  {
    hide Utf8Width, EncodeScalar, Scalar;
    if s == [] {
      assert EncodeText([]) == [];
    } else {
      if Utf8(s) {
        var n := Utf8Width(s);
        var c := FirstScalar(s);
        Utf8Exact(s[n..]);
        var cs :| Scalars(cs) && s[n..] == EncodeText(cs);
        assert ([c] + cs)[1..] == cs;
        assert Scalars([c] + cs) && EncodeText([c] + cs) == s;
      }
      if cs :| Scalars(cs) && s == EncodeText(cs) {
        ScalarWidth(cs[0], EncodeText(cs[1..]));
        var n := |EncodeScalar(cs[0])|;
        assert s[n..] == EncodeText(cs[1..]);
        assert Scalars(cs[1..]);
        Utf8Exact(s[n..]);
      }
    }
  }

  // ---- one entry, and a whole tree ----

  /** The name an entry's bytes stand for: a leading byte-order mark, EF BB BF, is no part of it. */
  ghost predicate Names(raw: Bytes, name: Bytes) {
    if |raw| >= 3 && raw[..3] == [0xEF, 0xBB, 0xBF] then name == raw[3..] else name == raw
  }

  ghost predicate IsEntry(r: Raw, links: bool, e: Entry) {
    && HasMode(r.token, e.mode) && (e.mode == SymbolicLink ==> links)
    && (exists cs :: Scalars(cs) && r.name == EncodeText(cs)) && Names(r.name, e.name) && Harmless(e.name)
    && e.id == r.id
  }

  lemma HeadExact(r: Raw, links: bool, e: Entry)
    ensures Head(r, links) == Success(e) <==> IsEntry(r, links, e)
  {
    hide Utf8, SafeName, Harmless, ModeOf, HasMode;
    ModeExact(r.token, e.mode, links);
    Utf8Exact(r.name);
    SafeIsHarmless(DropMark(r.name));
    assert HasMark(r.name) <==> |r.name| >= 3 && r.name[..3] == [0xEF, 0xBB, 0xBF];
  }

  function JoinAll(raws: seq<Raw>): Bytes { if raws == [] then [] else Join(raws[0]) + JoinAll(raws[1..]) }

  /** The bytes are one whole entry after another, and the entries are these. */
  ghost predicate Spells(raws: seq<Raw>, rawLength: nat, links: bool, es: seq<Entry>) {
    |raws| == |es| && forall i :: 0 <= i < |raws| ==> RawOk(raws[i], rawLength) && IsEntry(raws[i], links, es[i])
  }

  lemma {:induction false} SpelledIsDecoded(raws: seq<Raw>, rawLength: nat, links: bool, names: set<Bytes>, es: seq<Entry>)
    requires Spells(raws, rawLength, links, es) && DistinctNames(es) && NamesOutside(es, names)
    ensures Decode(JoinAll(raws), rawLength, links, names) == Success(es)
    decreases |raws|
  {
    hide IsEntry, Head, RawOk, Split;
    if raws != [] {
      var rest := JoinAll(raws[1..]);
      HeadExact(raws[0], links, es[0]);
      SplitJoin(raws[0], rest, rawLength);
      assert JoinAll(raws)[|Join(raws[0])|..] == rest;
      SpelledIsDecoded(raws[1..], rawLength, links, names + {es[0].name}, es[1..]);
      assert [es[0]] + es[1..] == es;
    }
  }

  lemma {:induction false} DecodedIsSpelled(s: Bytes, rawLength: nat, links: bool, names: set<Bytes>) returns (raws: seq<Raw>)
    requires Decode(s, rawLength, links, names).Success?
    ensures s == JoinAll(raws) && Spells(raws, rawLength, links, Decode(s, rawLength, links, names).value)
    decreases |s|
  {
    hide IsEntry, Head, RawOk, Split;
    raws := [];
    if s != [] {
      var raw := Split(s, rawLength).value;
      var e := Head(raw, links).value;
      var n := |Join(raw)|;
      SplitIsPrefix(s, rawLength);
      HeadExact(raw, links, e);
      var rest := DecodedIsSpelled(s[n..], rawLength, links, names + {e.name});
      raws := [raw] + rest;
      assert raws[1..] == rest;
    }
  }

  /** A tree is accepted, and read as these entries, exactly when its bytes spell them and no name comes twice. */
  lemma AcceptedExactly(s: Bytes, rawLength: nat, links: bool, es: seq<Entry>)
    ensures Decode(s, rawLength, links, {}) == Success(es)
        <==> DistinctNames(es) && exists raws :: s == JoinAll(raws) && Spells(raws, rawLength, links, es)
  {
    hide Decode, Spells;
    if Decode(s, rawLength, links, {}) == Success(es) {
      DecodedAreSafe(s, rawLength, links, {});
      var raws := DecodedIsSpelled(s, rawLength, links, {});
    }
    if raws :| DistinctNames(es) && s == JoinAll(raws) && Spells(raws, rawLength, links, es) {
      SpelledIsDecoded(raws, rawLength, links, {}, es);
    }
  }

  // ---- the paths written ----

  ghost predicate HarmlessPath(p: Path, from: nat) { forall i :: from <= i < |p| ==> Harmless(p[i]) }

  lemma {:induction false} FilesHarmless(g: Git, l: Listing, dest: Path, p: Path)
    requires Tidy(l) && p in Files(g, l, dest) && HarmlessPath(dest, 0)
    ensures HarmlessPath(p, 0)
    decreases l
  {
    hide SafeName, Harmless;
    if p in NodeFiles(g, l.node, dest + [l.name]) {
      SafeIsHarmless(l.name);
      NodeFilesHarmless(g, l.node, dest + [l.name], p);
    } else {
      FilesHarmless(g, l.next, dest, p);
    }
  }

  lemma {:induction false} NodeFilesHarmless(g: Git, n: Node, path: Path, p: Path)
    requires (n.Dir? ==> Tidy(n.listing)) && p in NodeFiles(g, n, path) && HarmlessPath(path, 0)
    ensures HarmlessPath(p, 0)
    decreases n
  {
    if n.Dir? && p in Files(g, n.listing, path) { FilesHarmless(g, n.listing, path, p); }
  }

  /** Neither form ever writes a path with an empty or reserved component, or one that holds a slash. */
  lemma WrittenPathsAreHarmless(g: Git, lim: Limits, id: Bytes, p: Path)
    ensures var r := Materialize(g, lim, id, [], lim.depth + 1, START); r.Success? && p in r.value.files ==> HarmlessPath(p, 0)
    ensures var r := RootSnapshot(g, lim, id); r.Success? && p in r.value.files ==> HarmlessPath(p, 0)
  {
    hide Materialize, RootSnapshot, Load, Fits, Tidy;
    MaterializeExact(g, lim, id);
    RootSnapshotExact(g, lim, id);
    var a, b := Load(g, false, id, lim.depth + 1), Load(g, true, id, lim.depth + 1);
    if a.Some? {
      LoadTidy(g, false, id, lim.depth + 1);
      if p in Files(g, a.value.listing, []) { FilesHarmless(g, a.value.listing, [], p); }
    }
    if b.Some? {
      LoadTidy(g, true, id, lim.depth + 1);
      if p in Files(g, b.value.listing, []) { FilesHarmless(g, b.value.listing, [], p); }
    }
  }

  lemma {:induction false} PreorderHarmless(l: Listing, parent: Path, k: nat)
    requires Tidy(l) && HarmlessPath(parent, 0) && k < |Preorder(l, parent)|
    ensures HarmlessPath(Preorder(l, parent)[k].path, 0)
    decreases l
  {
    hide SafeName, Harmless;
    var path := parent + [l.name];
    SafeIsHarmless(l.name);
    assert HarmlessPath(path, 0);
    var first := NodeList(l.node, path);
    if k >= |first| {
      PreorderHarmless(l.next, parent, k - |first|);
    } else if k > 0 {
      PreorderHarmless(l.node.listing, path, k - 1);
    }
  }

  /** Nor does the list form list one, so neither is a link ever made at one. */
  lemma ListedPathsAreHarmless(g: Git, lim: Limits, id: Bytes, k: nat)
    ensures var r := ReadRoot(g, lim, id, [], lim.depth + 1, 0, 0);
      r.Success? && k < |r.value.entries| ==> HarmlessPath(r.value.entries[k].path, 0)
  {
    hide ReadRoot, Load, Tidy;
    ReadRootLists(g, lim, id, [], lim.depth + 1, 0, 0);
    var n := Load(g, true, id, lim.depth + 1);
    if n.Some? {
      LoadTidy(g, true, id, lim.depth + 1);
      if k < |Preorder(n.value.listing, [])| { PreorderHarmless(n.value.listing, [], k); }
    }
  }
}
