/**
 The Git tree decoder shared in shape by `readTree` (core/packages/core/src/nativeGitCandidateObjects.ts)
 and `readRootEntries` (core/packages/core/src/nativeGitRootSnapshotTree.ts), on bytes. A name is the
 UTF-8 form of the decoded string.
 */
module GitTree {
  import opened Wrappers
  import opened ByteStrings

  datatype Mode = Directory | Regular | Executable | SymbolicLink

  datatype Entry = Entry(mode: Mode, name: Bytes, id: Bytes)

  datatype TreeError = InvalidEncoding | UnsafeMode | NotUtf8 | UnsafeName | DuplicateName

  function ModeToken(m: Mode): Bytes {
    match m
    case Directory => [0x34, 0x30, 0x30, 0x30, 0x30]
    case Regular => [0x31, 0x30, 0x30, 0x36, 0x34, 0x34]
    case Executable => [0x31, 0x30, 0x30, 0x37, 0x35, 0x35]
    case SymbolicLink => [0x31, 0x32, 0x30, 0x30, 0x30, 0x30]
  }

  /** `toString("ascii")` clears the high bit of every byte. */
  function Ascii(s: Bytes): (r: Bytes)
    ensures |r| == |s|
  {
    seq(|s|, i requires 0 <= i < |s| => s[i] % 128)
  }

  /** `links` admits symbolic links: the root snapshot reader does, the candidate reader does not. */
  function ModeOf(token: Bytes, links: bool): Option<Mode> {
    var text := Ascii(token);
    if text == ModeToken(Directory) then Some(Directory)
    else if text == ModeToken(Regular) then Some(Regular)
    else if text == ModeToken(Executable) then Some(Executable)
    else if links && text == ModeToken(SymbolicLink) then Some(SymbolicLink)
    else None
  }

  // ---- names ----

  predicate Tail(s: Bytes, i: nat) { i < |s| && 0x80 <= s[i] < 0xC0 }

  /** How many bytes the first character takes; 0 when the text is not UTF-8 there. */
  function Utf8Width(s: Bytes): (n: nat)
    requires s != []
    ensures n <= |s|
  {
    if s[0] < 0x80 then 1
    else if 0xC2 <= s[0] < 0xE0 && Tail(s, 1) then 2
    else if 0xE0 <= s[0] < 0xF0 && Tail(s, 1) && Tail(s, 2) && (s[0] == 0xE0 ==> s[1] >= 0xA0) && (s[0] == 0xED ==> s[1] < 0xA0) then 3
    else if 0xF0 <= s[0] < 0xF5 && Tail(s, 1) && Tail(s, 2) && Tail(s, 3) &&
      (s[0] == 0xF0 ==> s[1] >= 0x90) && (s[0] == 0xF4 ==> s[1] < 0x90) then 4
    else 0
  }

  predicate Utf8(s: Bytes)
    decreases |s|
  {
    s == [] || (Utf8Width(s) > 0 && Utf8(s[Utf8Width(s)..]))
  }

  predicate HasMark(s: Bytes) { |s| >= 3 && s[0] == 0xEF && s[1] == 0xBB && s[2] == 0xBF }

  /** The decoder drops one leading byte-order mark. */
  function DropMark(s: Bytes): Bytes { if HasMark(s) then s[3..] else s }

  predicate SafeName(s: Bytes) {
    s != [] && s != [0x2E] && s != [0x2E, 0x2E] && s != [0x2E, 0x67, 0x69, 0x74] && 0x2F !in s && 0x5C !in s && 0 !in s
  }

  function DecodeName(raw: Bytes): Result<Bytes, TreeError> {
    if !Utf8(raw) then Failure(NotUtf8)
    else if !SafeName(DropMark(raw)) then Failure(UnsafeName)
    else Success(DropMark(raw))
  }

  // ---- one entry ----

  /** The bytes of an entry as they stand: mode token, name, object id. */
  datatype Raw = Raw(token: Bytes, name: Bytes, id: Bytes)

  function Join(r: Raw): (s: Bytes)
    ensures |s| == |r.token| + |r.name| + |r.id| + 2
  {
    r.token + [0x20] + r.name + [0] + r.id
  }

  predicate RawOk(r: Raw, rawLength: nat) { Lacks(r.token, 0x20) && Lacks(r.name, 0) && |r.id| == rawLength }

  /** The name and id at the front of the bytes, if they are complete. */
  function SplitTail(tail: Bytes, rawLength: nat): (r: Option<(Bytes, Bytes)>)
    ensures r.Some? ==> |r.value.0| + 1 + |r.value.1| <= |tail|
  {
    var nul := Find(tail, 0);
    if nul == |tail| || nul + 1 + rawLength > |tail| then None else Some((tail[..nul], tail[nul + 1..nul + 1 + rawLength]))
  }

  /** The entry at the front of the bytes, if it is complete. */
  function Split(s: Bytes, rawLength: nat): (r: Option<Raw>)
    ensures r.Some? ==> |Join(r.value)| <= |s|
  {
    var space := Find(s, 0x20);
    if space == |s| then None else
    var rest := SplitTail(s[space + 1..], rawLength);
    if rest.None? then None else Some(Raw(s[..space], rest.value.0, rest.value.1))
  }

  lemma SplitTailIsPrefix(tail: Bytes, rawLength: nat)
    requires SplitTail(tail, rawLength).Some?
    ensures var (name, id) := SplitTail(tail, rawLength).value;
      && Lacks(name, 0) && |id| == rawLength
      && tail == name + [0] + id + tail[|name| + 1 + |id|..]
  {
    var (name, id) := SplitTail(tail, rawLength).value;
    assert tail[..|name|] == name && tail[|name|] == 0 && tail[|name| + 1..|name| + 1 + |id|] == id;
  }

  lemma SplitIsPrefix(s: Bytes, rawLength: nat)
    requires Split(s, rawLength).Some?
    ensures var r := Split(s, rawLength).value; RawOk(r, rawLength) && s == Join(r) + s[|Join(r)|..]
  {
    hide SplitTail;
    var r := Split(s, rawLength).value;
    var tail := s[Find(s, 0x20) + 1..];
    SplitTailIsPrefix(tail, rawLength);
    JoinTail(s, r, tail);
  }

  lemma JoinTail(s: Bytes, r: Raw, tail: Bytes)
    requires |r.token| < |s| && s[..|r.token|] == r.token && s[|r.token|] == 0x20 && tail == s[|r.token| + 1..]
    requires |r.name| + 1 + |r.id| <= |tail| && tail == r.name + [0] + r.id + tail[|r.name| + 1 + |r.id|..]
    ensures s == Join(r) + s[|Join(r)|..]
  {
    var rest := tail[|r.name| + 1 + |r.id|..];
    assert s == r.token + [0x20] + tail;
    assert rest == s[|Join(r)|..];
    assert r.token + [0x20] + (r.name + [0] + r.id + rest) == Join(r) + rest;
  }

  /** What stands before the first occurrence of a byte, and behind it. */
  lemma FindMark(a: Bytes, b: Byte, rest: Bytes)
    requires Lacks(a, b)
    ensures var s := a + [b] + rest; Find(s, b) == |a| && s[..|a|] == a && s[|a| + 1..] == rest
  {
    var s := a + [b] + rest;
    assert s[..|a|] == a;
    FindIs(s, b, |a|);
  }

  lemma SplitTailJoin(name: Bytes, id: Bytes, rest: Bytes)
    requires Lacks(name, 0)
    ensures SplitTail(name + [0] + (id + rest), |id|) == Some((name, id))
  {
    FindMark(name, 0, id + rest);
    var tail := name + [0] + (id + rest);
    assert tail[|name| + 1..|name| + 1 + |id|] == (id + rest)[..|id|] == id;
  }

  lemma SplitJoin(r: Raw, rest: Bytes, rawLength: nat)
    requires RawOk(r, rawLength)
    ensures Split(Join(r) + rest, rawLength) == Some(r)
  {
    hide SplitTail;
    var tail := r.name + [0] + (r.id + rest);
    assert Join(r) + rest == r.token + [0x20] + tail;
    FindMark(r.token, 0x20, tail);
    SplitTailJoin(r.name, r.id, rest);
  }

  function Head(r: Raw, links: bool): Result<Entry, TreeError> {
    var mode := ModeOf(r.token, links);
    if mode.None? then Failure(UnsafeMode) else
    var name := DecodeName(r.name);
    if name.Failure? then Failure(name.error) else Success(Entry(mode.value, name.value, r.id))
  }

  // ---- a whole tree ----

  function Decode(s: Bytes, rawLength: nat, links: bool, names: set<Bytes>): Result<seq<Entry>, TreeError>
    decreases |s|
  {
    if s == [] then Success([]) else
    var raw := Split(s, rawLength);
    if raw.None? then Failure(InvalidEncoding) else
    var entry := Head(raw.value, links);
    if entry.Failure? then Failure(entry.error)
    else if entry.value.name in names then Failure(DuplicateName)
    else
      var rest := Decode(s[|Join(raw.value)|..], rawLength, links, names + {entry.value.name});
      if rest.Failure? then rest else Success([entry.value] + rest.value)
  }

  function RawOf(e: Entry): Raw { Raw(ModeToken(e.mode), e.name, e.id) }

  function Encode(es: seq<Entry>): Bytes {
    if es == [] then [] else Join(RawOf(es[0])) + Encode(es[1..])
  }

  /** Buffer.indexOf from an offset. */
  method IndexOf(bytes: Bytes, b: Byte, from: nat) returns (i: int)
    requires from <= |bytes|
    ensures Found(bytes, b, from, i) && (i < 0 || from <= i < |bytes|)
  {
    ghost var n := Find(bytes[from..], b);
    i := from;
    while i < |bytes| && bytes[i] != b
      invariant from <= i <= from + n
    {
      assert bytes[i] == bytes[from..][i - from];
      i := i + 1;
    }
    assert i < |bytes| ==> bytes[i] == bytes[from..][i - from];
    if i == |bytes| { i := -1; }
  }

  /** The loop of `readTree`: each turn moves the offset past one whole entry. */
  method ReadTree(bytes: Bytes, rawLength: nat, links: bool) returns (r: Result<seq<Entry>, TreeError>)
    ensures r == Decode(bytes, rawLength, links, {})
  {
    hide Decode, ModeOf, DecodeName, Find, Then;
    var entries: seq<Entry>, names: set<Bytes>, offset := [], {}, 0;
    assert bytes[0..] == bytes;
    ThenNothing(Decode(bytes, rawLength, links, {}));
    while offset < |bytes|
      invariant 0 <= offset <= |bytes|
      invariant Decode(bytes, rawLength, links, {}) == Then(entries, Decode(bytes[offset..], rawLength, links, names))
      decreases |bytes| - offset
    {
      var space := IndexOf(bytes, 0x20, offset);
      var nul := -1;
      if space >= 0 { nul := IndexOf(bytes, 0, space + 1); }
      DecodeAt(bytes, offset, space, nul, rawLength, links, names, entries);
      var nextOffset := nul + 1 + rawLength;
      if space < 0 || nul < 0 || nextOffset > |bytes| { return Failure(InvalidEncoding); }
      var mode := ModeOf(bytes[offset..space], links);
      if mode.None? { return Failure(UnsafeMode); }
      var name := DecodeName(bytes[space + 1..nul]);
      if name.Failure? { return Failure(name.error); }
      if name.value in names { return Failure(DuplicateName); }
      entries := entries + [Entry(mode.value, name.value, bytes[nul + 1..nextOffset])];
      names := names + {name.value};
      offset := nextOffset;
    }
    ThenDone(entries, bytes[offset..], rawLength, links, names);
    return Success(entries);
  }

  ghost predicate Found(bytes: Bytes, b: Byte, from: nat, i: int)
    requires from <= |bytes|
  {
    i == if Find(bytes[from..], b) == |bytes| - from then -1 else from + Find(bytes[from..], b)
  }

  /** One turn of the loop, in the offsets of the whole buffer. */
  lemma DecodeAt(bytes: Bytes, offset: nat, space: int, nul: int, rawLength: nat, links: bool, names: set<Bytes>,
      entries: seq<Entry>)
    requires offset < |bytes| && Found(bytes, 0x20, offset, space)
    requires if space < 0 then nul == -1 else Found(bytes, 0, space + 1, nul)
    ensures Then(entries, Decode(bytes[offset..], rawLength, links, names)) ==
      if space < 0 || nul < 0 || nul + 1 + rawLength > |bytes| then Failure(InvalidEncoding) else
      var mode, name := ModeOf(bytes[offset..space], links), DecodeName(bytes[space + 1..nul]);
      if mode.None? then Failure(UnsafeMode)
      else if name.Failure? then Failure(name.error)
      else if name.value in names then Failure(DuplicateName)
      else Then(entries + [Entry(mode.value, name.value, bytes[nul + 1..nul + 1 + rawLength])],
             Decode(bytes[nul + 1 + rawLength..], rawLength, links, names + {name.value}))
  {
    hide Decode, ModeOf, DecodeName, Split;
    DecodeStep(bytes[offset..], rawLength, links, names);
    if space >= 0 {
      SplitAt(bytes, offset, space, nul, rawLength);
      if nul >= 0 && nul + 1 + rawLength <= |bytes| {
        var next := nul + 1 + rawLength;
        var mode, name := ModeOf(bytes[offset..space], links), DecodeName(bytes[space + 1..nul]);
        assert bytes[offset..][next - offset..] == bytes[next..];
        if mode.Some? && name.Success? {
          ThenThen(entries, Entry(mode.value, name.value, bytes[nul + 1..next]),
            Decode(bytes[next..], rawLength, links, names + {name.value}));
        }
      }
    } else {
      NoSpaceNoEntry(bytes[offset..], rawLength);
    }
  }

  lemma NoSpaceNoEntry(s: Bytes, rawLength: nat)
    requires Find(s, 0x20) == |s|
    ensures Split(s, rawLength) == None
  {
  }

  lemma ThenDone(entries: seq<Entry>, s: Bytes, rawLength: nat, links: bool, names: set<Bytes>)
    requires s == []
    ensures Then(entries, Decode(s, rawLength, links, names)) == Success(entries)
  {
    assert entries + [] == entries;
  }

  function Then(entries: seq<Entry>, rest: Result<seq<Entry>, TreeError>): Result<seq<Entry>, TreeError> {
    if rest.Failure? then rest else Success(entries + rest.value)
  }

  lemma ThenNothing(rest: Result<seq<Entry>, TreeError>)
    ensures Then([], rest) == rest
  {
    if rest.Success? { assert [] + rest.value == rest.value; }
  }

  lemma ThenThen(entries: seq<Entry>, e: Entry, rest: Result<seq<Entry>, TreeError>)
    ensures Then(entries, Then([e], rest)) == Then(entries + [e], rest)
  {
    if rest.Success? { assert entries + ([e] + rest.value) == entries + [e] + rest.value; }
  }

  lemma DecodeStep(s: Bytes, rawLength: nat, links: bool, names: set<Bytes>)
    ensures Decode(s, rawLength, links, names) ==
      if s == [] then Success([]) else
      var raw := Split(s, rawLength);
      if raw.None? then Failure(InvalidEncoding)
      else if ModeOf(raw.value.token, links).None? then Failure(UnsafeMode)
      else if DecodeName(raw.value.name).Failure? then Failure(DecodeName(raw.value.name).error)
      else if DecodeName(raw.value.name).value in names then Failure(DuplicateName)
      else Then([Entry(ModeOf(raw.value.token, links).value, DecodeName(raw.value.name).value, raw.value.id)],
             Decode(s[|Join(raw.value)|..], rawLength, links, names + {DecodeName(raw.value.name).value}))
  {
    hide ModeOf, DecodeName;
  }

  lemma SplitAt(bytes: Bytes, offset: nat, space: nat, nul: int, rawLength: nat)
    requires offset < |bytes| && Found(bytes, 0x20, offset, space) && Found(bytes, 0, space + 1, nul)
    ensures Split(bytes[offset..], rawLength) ==
      if nul < 0 || nul + 1 + rawLength > |bytes| then None
      else Some(Raw(bytes[offset..space], bytes[space + 1..nul], bytes[nul + 1..nul + 1 + rawLength]))
  {
    hide SplitTail;
    assert bytes[offset..][space - offset + 1..] == bytes[space + 1..];
    SliceOfTail(bytes, offset, 0, space - offset);
    SplitTailAt(bytes, space + 1, nul, rawLength);
  }

  lemma SplitTailAt(bytes: Bytes, from: nat, nul: int, rawLength: nat)
    requires from <= |bytes| && Found(bytes, 0, from, nul)
    ensures SplitTail(bytes[from..], rawLength) ==
      if nul < 0 || nul + 1 + rawLength > |bytes| then None else Some((bytes[from..nul], bytes[nul + 1..nul + 1 + rawLength]))
  {
    FoundAt(bytes, 0, from, nul);
    if nul >= 0 && nul + 1 + rawLength <= |bytes| {
      SliceOfTail(bytes, from, 0, nul - from);
      SliceOfTail(bytes, from, nul + 1 - from, nul + 1 + rawLength - from);
    }
  }

  lemma FoundAt(bytes: Bytes, b: Byte, from: nat, i: int)
    requires from <= |bytes| && Found(bytes, b, from, i)
    ensures i < 0 <==> Find(bytes[from..], b) == |bytes| - from
    ensures i >= 0 ==> i == from + Find(bytes[from..], b) && i < |bytes|
  {
  }

  lemma SliceOfTail(s: Bytes, from: nat, i: nat, j: nat)
    requires from + j <= |s| && i <= j
    ensures s[from..][i..j] == s[from + i..from + j]
  {
  }

  // ---- round trips ----

  predicate EntryOk(e: Entry, rawLength: nat, links: bool) {
    && (e.mode == SymbolicLink ==> links)
    && Utf8(e.name) && SafeName(e.name) && !HasMark(e.name) && |e.id| == rawLength
  }

  ghost predicate DistinctNames(es: seq<Entry>) {
    forall i, j :: 0 <= i < j < |es| ==> es[i].name != es[j].name
  }

  ghost predicate NamesOutside(es: seq<Entry>, names: set<Bytes>) { forall i :: 0 <= i < |es| ==> es[i].name !in names }

  lemma HeadOfEntry(e: Entry, rawLength: nat, links: bool)
    requires EntryOk(e, rawLength, links)
    ensures RawOk(RawOf(e), rawLength) && Head(RawOf(e), links) == Success(e)
  {
    hide Utf8, SafeName;
    assert Ascii(ModeToken(e.mode)) == ModeToken(e.mode);
    SafeNameHasNoNul(e.name);
  }

  lemma SafeNameHasNoNul(s: Bytes)
    requires SafeName(s)
    ensures Lacks(s, 0)
  {
  }

  lemma {:induction false} DecodeOfEncodeFrom(es: seq<Entry>, rawLength: nat, links: bool, names: set<Bytes>)
    requires forall i :: 0 <= i < |es| ==> EntryOk(es[i], rawLength, links)
    requires DistinctNames(es) && NamesOutside(es, names)
    ensures Decode(Encode(es), rawLength, links, names) == Success(es)
    decreases |es|
  {
    hide EntryOk, Head, RawOk, Split;
    if es != [] {
      var e, raw, rest := es[0], RawOf(es[0]), Encode(es[1..]);
      HeadOfEntry(e, rawLength, links);
      SplitJoin(raw, rest, rawLength);
      assert Encode(es)[|Join(raw)|..] == rest;
      DecodeOfEncodeFrom(es[1..], rawLength, links, names + {e.name});
      assert [e] + es[1..] == es;
    }
  }

  /** Decoding an encoded list of distinct safe entries gives the list back, whatever the id length. */
  lemma DecodeOfEncode(es: seq<Entry>, rawLength: nat, links: bool)
    requires forall i :: 0 <= i < |es| ==> EntryOk(es[i], rawLength, links)
    requires DistinctNames(es)
    ensures Decode(Encode(es), rawLength, links, {}) == Success(es)
  {
    DecodeOfEncodeFrom(es, rawLength, links, {});
  }

  lemma MarkIsOneCharacter(s: Bytes)
    requires Utf8(s)
    ensures Utf8(DropMark(s))
  {
    if HasMark(s) { assert Utf8Width(s) == 3; }
  }

  /** The bytes are the characters of an ASCII text. */
  ghost predicate Reads(s: Bytes, text: string) { |s| == |text| && forall k :: 0 <= k < |s| ==> s[k] == text[k] as int }

  /** Not empty, none of the three reserved names, and without slash, backslash or zero byte. */
  ghost predicate Harmless(s: Bytes) {
    && |s| > 0 && !Reads(s, ".") && !Reads(s, "..") && !Reads(s, ".git")
    && forall k :: 0 <= k < |s| ==> s[k] != '/' as int && s[k] != '\\' as int && s[k] != 0
  }

  lemma SafeIsHarmless(s: Bytes)
    ensures SafeName(s) <==> Harmless(s)
  {
    assert s == [0x2E] <==> Reads(s, ".");
    assert s == [0x2E, 0x2E] <==> Reads(s, "..");
    assert s == [0x2E, 0x67, 0x69, 0x74] <==> Reads(s, ".git");
  }

  lemma HeadIsSafe(r: Raw, rawLength: nat, links: bool)
    requires RawOk(r, rawLength) && Head(r, links).Success?
    ensures var e := Head(r, links).value;
      (e.mode == SymbolicLink ==> links) && Utf8(e.name) && Harmless(e.name) && |e.id| == rawLength
  {
    MarkIsOneCharacter(r.name);
    SafeIsHarmless(Head(r, links).value.name);
  }

  /** Whatever bytes are accepted, the entries have harmless UTF-8 names, all distinct, and whole ids. */
  lemma {:induction false} DecodedAreSafe(s: Bytes, rawLength: nat, links: bool, names: set<Bytes>)
    requires Decode(s, rawLength, links, names).Success?
    ensures var es := Decode(s, rawLength, links, names).value;
      && DistinctNames(es) && NamesOutside(es, names)
      && forall i :: 0 <= i < |es| ==>
           (es[i].mode == SymbolicLink ==> links) && Utf8(es[i].name) && Harmless(es[i].name) && |es[i].id| == rawLength
    decreases |s|
  {
    hide Utf8, Harmless, Head, RawOk, Split;
    if s != [] {
      var raw := Split(s, rawLength).value;
      var e := Head(raw, links).value;
      SplitIsPrefix(s, rawLength);
      HeadIsSafe(raw, rawLength, links);
      DecodedAreSafe(s[|Join(raw)|..], rawLength, links, names + {e.name});
      var rest := Decode(s[|Join(raw)|..], rawLength, links, names + {e.name}).value;
      assert Decode(s, rawLength, links, names).value == [e] + rest;
      forall i, j | 0 <= i < j < |[e] + rest| ensures ([e] + rest)[i].name != ([e] + rest)[j].name {
        assert ([e] + rest)[j] == rest[j - 1];
        assert rest[j - 1].name !in names + {e.name};
      }
    }
  }

  predicate SevenBit(s: Bytes) { forall i :: 0 <= i < |s| ==> s[i] < 128 }

  /** Every mode token is 7-bit and no name starts with a byte-order mark. */
  predicate Canonical(s: Bytes, rawLength: nat)
    decreases |s|
  {
    s == [] ||
    (var raw := Split(s, rawLength);
     raw.Some? && SevenBit(raw.value.token) && !HasMark(raw.value.name) && Canonical(s[|Join(raw.value)|..], rawLength))
  }

  lemma AsciiOfSevenBit(s: Bytes)
    ensures SevenBit(s) <==> Ascii(s) == s
  {
    if Ascii(s) == s {
      forall i | 0 <= i < |s| ensures s[i] < 128 { assert Ascii(s)[i] == s[i] % 128; }
    }
  }

  lemma HeadIsRaw(r: Raw, links: bool)
    requires Head(r, links).Success?
    ensures RawOf(Head(r, links).value) == r <==> SevenBit(r.token) && !HasMark(r.name)
    ensures RawOk(RawOf(Head(r, links).value), |r.id|)
  {
    hide Utf8;
    AsciiOfSevenBit(r.token);
    if HasMark(r.name) { assert |DropMark(r.name)| < |r.name|; }
  }

  /** Accepted bytes re-encode to themselves exactly when they are canonical. */
  lemma {:induction false} EncodeOfDecodeFrom(s: Bytes, rawLength: nat, links: bool, names: set<Bytes>)
    requires Decode(s, rawLength, links, names).Success?
    ensures Encode(Decode(s, rawLength, links, names).value) == s <==> Canonical(s, rawLength)
    decreases |s|
  {
    hide Head;
    if s != [] {
      var raw := Split(s, rawLength).value;
      var e := Head(raw, links).value;
      var n := |Join(raw)|;
      var rest := Decode(s[n..], rawLength, links, names + {e.name}).value;
      EncodeOfDecodeFrom(s[n..], rawLength, links, names + {e.name});
      HeadIsRaw(raw, links);
      assert ([e] + rest)[1..] == rest;
      assert Encode([e] + rest) == Join(RawOf(e)) + Encode(rest);
      SplitIsPrefix(s, rawLength);
      HeadKeepsId(raw, links);
      SplitJoin(RawOf(e), Encode(rest), rawLength);
      if Encode([e] + rest) == s {
        assert RawOf(e) == raw;
        assert Encode(rest) == (Join(raw) + Encode(rest))[n..] == s[n..];
      }
    }
  }

  lemma HeadKeepsId(r: Raw, links: bool)
    requires Head(r, links).Success?
    ensures Head(r, links).value.id == r.id
  {
  }

  lemma EncodeOfDecode(s: Bytes, rawLength: nat, links: bool)
    requires Decode(s, rawLength, links, {}).Success?
    ensures Encode(Decode(s, rawLength, links, {}).value) == s <==> Canonical(s, rawLength)
  {
    EncodeOfDecodeFrom(s, rawLength, links, {});
  }

  /** A mode token with a high bit set is accepted and is not what its entry encodes to. */
  lemma HighBitTokenIsAccepted(id: Bytes)
    requires |id| == 20
    ensures var s := [0xB4, 0x30, 0x30, 0x30, 0x30, 0x20, 0x61, 0] + id;
      Decode(s, 20, false, {}) == Success([Entry(Directory, [0x61], id)]) && Encode([Entry(Directory, [0x61], id)]) != s
  {
    var raw := Raw([0xB4, 0x30, 0x30, 0x30, 0x30], [0x61], id);
    var s := [0xB4, 0x30, 0x30, 0x30, 0x30, 0x20, 0x61, 0] + id;
    var e := Entry(Directory, [0x61], id);
    HighBitHead(id);
    assert s == Join(raw) + [];
    SplitJoin(raw, [], 20);
    assert s[|Join(raw)|..] == [];
    assert [e] + [] == [e];
    assert Encode([e])[0] == 0x34;
  }

  lemma HighBitHead(id: Bytes)
    ensures Head(Raw([0xB4, 0x30, 0x30, 0x30, 0x30], [0x61], id), false) == Success(Entry(Directory, [0x61], id))
  {
    assert Ascii([0xB4, 0x30, 0x30, 0x30, 0x30]) == ModeToken(Directory);
    assert Utf8Width([0x61]) == 1 && Utf8([0x61][1..]);
  }
}
