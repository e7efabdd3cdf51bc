/** The duplicate-key scanner (core/packages/core/src/nativeControlPlaneJson.ts). */
module JsonDuplicateKeys {
  import opened Wrappers
  import opened JsonText

  /** `keys` is None for an array. */
  datatype Frame = Frame(keys: Option<set<Text>>, keyExpected: bool)

  datatype Verdict = Unique | Duplicate | SyntaxError

  function Take(s: Text, n: nat): Text { if n < |s| then s[..n] else s }

  function Drop(s: Text, n: nat): Text { if n < |s| then s[n..] else [] }

  function Pop(stack: seq<Frame>): seq<Frame> { if stack == [] then [] else stack[..|stack| - 1] }

  predicate InObject(stack: seq<Frame>) { stack != [] && stack[|stack| - 1].keys.Some? }

  predicate ExpectsKey(stack: seq<Frame>) { InObject(stack) && stack[|stack| - 1].keyExpected }

  /** Where the literal opened before `i` is closed; past the end when it is not. */
  function Close(s: Text, i: nat): (n: nat)
    ensures i <= n <= |s| + 1 || n == i
    decreases |s| + 1 - i
  {
    if i >= |s| then i
    else if s[i] == BACKSLASH then Close(s, i + 2)
    else if s[i] == QUOTE then i
    else Close(s, i + 1)
  }

  /** The scan of the rest of a text. */
  function Scan(s: Text, stack: seq<Frame>): Verdict
    decreases |s|
  {
    if s == [] then Unique
    else if s[0] == OPEN_BRACE then Scan(s[1..], stack + [Frame(Some({}), true)])
    else if s[0] == OPEN_BRACKET then Scan(s[1..], stack + [Frame(None, false)])
    else if s[0] == CLOSE_BRACE || s[0] == CLOSE_BRACKET then Scan(s[1..], Pop(stack))
    else if s[0] == COMMA then Scan(s[1..], AfterComma(stack))
    else if s[0] == QUOTE then
      var end := Close(s, 1) + 1;
      if !ExpectsKey(stack) then Scan(Drop(s, end), stack) else
      var key := DecodeLiteral(Take(s, end));
      if key.None? then SyntaxError
      else if key.value in stack[|stack| - 1].keys.value then Duplicate
      else Scan(Drop(s, end), AddKey(stack, key.value))
    else Scan(s[1..], stack)
  }

  function AfterComma(stack: seq<Frame>): seq<Frame> {
    if InObject(stack) then Pop(stack) + [stack[|stack| - 1].(keyExpected := true)] else stack
  }

  function AddKey(stack: seq<Frame>, key: Text): seq<Frame>
    requires InObject(stack)
  {
    Pop(stack) + [Frame(Some(stack[|stack| - 1].keys.value + {key}), false)]
  }

  // ---- the loop ----

  lemma CloseShift(text: Text, start: nat, i: nat)
    requires start <= |text|
    ensures Close(text, start + i) == start + Close(text[start..], i)
    decreases |text| + 1 - i
  {
    if start + i < |text| {
      if text[start + i] == BACKSLASH { CloseShift(text, start, i + 2); }
      else if text[start + i] != QUOTE { CloseShift(text, start, i + 1); }
    }
  }

  /** One turn of the loop on anything but a quote. */
  lemma ScanUnit(text: Text, index: nat, stack: seq<Frame>)
    requires index < |text| && text[index] != QUOTE
    ensures Scan(Drop(text, index), stack) ==
      Scan(Drop(text, index + 1),
        if text[index] == OPEN_BRACE then stack + [Frame(Some({}), true)]
        else if text[index] == OPEN_BRACKET then stack + [Frame(None, false)]
        else if text[index] == CLOSE_BRACE || text[index] == CLOSE_BRACKET then Pop(stack)
        else if text[index] == COMMA then AfterComma(stack)
        else stack)
  {
    assert text[index..][1..] == Drop(text, index + 1);
  }

  function Slice(text: Text, start: nat, end: nat): Text
    requires start <= |text| && start <= end
  {
    text[start..if end < |text| then end else |text|]
  }

  /** One turn of the loop on a quote whose literal is closed at `index`. */
  lemma ScanQuote(text: Text, start: nat, index: nat, stack: seq<Frame>)
    requires start < |text| && text[start] == QUOTE && index == Close(text, start + 1)
    ensures start <= index && Scan(Drop(text, start), stack) ==
      if !ExpectsKey(stack) then Scan(Drop(text, index + 1), stack) else
      var key := DecodeLiteral(Slice(text, start, index + 1));
      if key.None? then SyntaxError
      else if key.value in stack[|stack| - 1].keys.value then Duplicate
      else Scan(Drop(text, index + 1), AddKey(stack, key.value))
  {
    hide DecodeLiteral;
    var s := text[start..];
    CloseShift(text, start, 1);
    assert Take(s, index + 1 - start) == Slice(text, start, index + 1);
    assert Drop(s, index + 1 - start) == Drop(text, index + 1);
  }

  method HasDuplicateJsonKeys(text: Text) returns (verdict: Verdict)
    ensures verdict == Scan(text, [])
  {
    hide Scan, DecodeLiteral;
    var stack: seq<Frame> := [];
    var index := 0;
    assert Drop(text, 0) == text;
    while index < |text|
      invariant 0 <= index <= |text| + 2
      invariant Scan(Drop(text, index), stack) == Scan(text, [])
    {
      var character := text[index];
      if character != QUOTE { ScanUnit(text, index, stack); }
      if character == OPEN_BRACE {
        stack := stack + [Frame(Some({}), true)];
      } else if character == OPEN_BRACKET {
        stack := stack + [Frame(None, false)];
      } else if character == CLOSE_BRACE || character == CLOSE_BRACKET {
        if stack != [] { stack := stack[..|stack| - 1]; }
      } else if character == COMMA {
        if InObject(stack) { stack := stack[..|stack| - 1] + [stack[|stack| - 1].(keyExpected := true)]; }
      } else if character == QUOTE {
        var start := index;
        index := index + 1;
        while index < |text|
          invariant start < index <= |text| + 1
          invariant Close(text, index) == Close(text, start + 1)
        {
          if text[index] == BACKSLASH {
            index := index + 2;
          } else {
            if text[index] == QUOTE { break; }
            index := index + 1;
          }
        }
        ScanQuote(text, start, index, stack);
        if ExpectsKey(stack) {
          var key := DecodeLiteral(Slice(text, start, index + 1));
          if key.None? { return SyntaxError; }
          var keys := stack[|stack| - 1].keys.value;
          if key.value in keys { return Duplicate; }
          stack := stack[..|stack| - 1] + [Frame(Some(keys + {key.value}), false)];
        }
      }
      index := index + 1;
    }
    ScanNothing(stack);
    return Unique;
  }

  lemma ScanNothing(stack: seq<Frame>)
    ensures Scan([], stack) == Unique
  {
  }

  // ---- the scan of a document ----

  lemma {:induction false} ScanInert(w: Text, rest: Text, stack: seq<Frame>)
    requires Inert(w)
    ensures Scan(w + rest, stack) == Scan(rest, stack)
    decreases |w|
  {
    if w == [] {
      assert w + rest == rest;
    } else {
      assert (w + rest)[1..] == w[1..] + rest;
      ScanInert(w[1..], rest, stack);
    }
  }

  lemma {:induction false} ClosePieces(before: Text, ps: seq<Piece>, rest: Text)
    requires PiecesOk(ps)
    ensures Close(before + RenderPieces(ps) + [QUOTE] + rest, |before|) == |before + RenderPieces(ps)|
    decreases |ps|
  {
    hide Close, PieceOk;
    var s := before + RenderPieces(ps) + [QUOTE] + rest;
    if ps == [] {
      CloseHere(s, |before|);
    } else {
      var first, more := RenderPiece(ps[0]), RenderPieces(ps[1..]);
      assert s == (before + first) + more + [QUOTE] + rest == before + first + (more + [QUOTE] + rest);
      ClosePiece(before, ps[0], more + [QUOTE] + rest);
      ClosePieces(before + first, ps[1..], rest);
    }
  }

  lemma CloseHere(s: Text, i: nat)
    requires i < |s| && s[i] == QUOTE
    ensures Close(s, i) == i
  {
  }

  lemma CloseNext(s: Text, i: nat)
    requires i < |s| && s[i] != QUOTE && s[i] != BACKSLASH
    ensures Close(s, i) == Close(s, i + 1)
  {
  }

  lemma CloseEscape(s: Text, i: nat)
    requires i < |s| && s[i] == BACKSLASH
    ensures Close(s, i) == Close(s, i + 2)
  {
  }

  /** Inside a literal no piece is taken for the closing quote. */
  lemma ClosePiece(before: Text, p: Piece, rest: Text)
    requires PieceOk(p)
    ensures var s := before + RenderPiece(p) + rest; Close(s, |before|) == Close(s, |before + RenderPiece(p)|)
  {
    hide Close;
    var s, i := before + RenderPiece(p) + rest, |before|;
    match p
    case Plain(c) =>
      assert s[i] == c;
      CloseNext(s, i);
    case Escaped(letter) =>
      assert s[i] == BACKSLASH;
      CloseEscape(s, i);
    case Unicode(digits) =>
      assert s[i] == BACKSLASH;
      CloseEscape(s, i);
      assert s == before + [BACKSLASH, LOWER_U] + digits + rest;
      CloseDigits(before + [BACKSLASH, LOWER_U], digits, rest);
  }

  lemma CloseDigits(before: Text, digits: Text, rest: Text)
    requires IsHex(digits)
    ensures var s := before + digits + rest; Close(s, |before|) == Close(s, |before| + 4)
  {
    hide Close;
    var s, i := before + digits + rest, |before|;
    assert s[i] == digits[0];
    CloseNext(s, i);
    assert s[i + 1] == digits[1];
    CloseNext(s, i + 1);
    assert s[i + 2] == digits[2];
    CloseNext(s, i + 2);
    assert s[i + 3] == digits[3];
    CloseNext(s, i + 3);
  }

  lemma ScanLiteral(ps: seq<Piece>, rest: Text, stack: seq<Frame>)
    requires PiecesOk(ps)
    ensures Scan(Literal(ps) + rest, stack) ==
      if !ExpectsKey(stack) then Scan(rest, stack)
      else if Name(ps) in stack[|stack| - 1].keys.value then Duplicate
      else Scan(rest, AddKey(stack, Name(ps)))
  {
    var s := Literal(ps) + rest;
    assert s == [QUOTE] + RenderPieces(ps) + [QUOTE] + rest;
    ClosePieces([QUOTE], ps, rest);
    var end := Close(s, 1) + 1;
    assert end == |Literal(ps)|;
    assert Take(s, end) == Literal(ps) && Drop(s, end) == rest;
    DecodeOfLiteral(ps);
  }

  lemma ScanOpen(bracket: CodeUnit, gap: Text, rest: Text, stack: seq<Frame>)
    requires Inert(gap) && (bracket == OPEN_BRACE || bracket == OPEN_BRACKET)
    ensures Scan([bracket] + gap + rest, stack) ==
      Scan(rest, stack + [if bracket == OPEN_BRACE then Frame(Some({}), true) else Frame(None, false)])
  {
    var s := [bracket] + gap + rest;
    assert s[1..] == gap + rest;
    ScanInert(gap, rest, stack + [if bracket == OPEN_BRACE then Frame(Some({}), true) else Frame(None, false)]);
  }

  lemma ScanClose(bracket: CodeUnit, rest: Text, stack: seq<Frame>, top: Frame)
    requires bracket == CLOSE_BRACE || bracket == CLOSE_BRACKET
    ensures Scan([bracket] + rest, stack + [top]) == Scan(rest, stack)
  {
    assert ([bracket] + rest)[1..] == rest;
    assert Pop(stack + [top]) == stack;
  }

  lemma ScanComma(rest: Text, stack: seq<Frame>, top: Frame)
    ensures Scan([COMMA] + rest, stack + [top]) == Scan(rest, stack + [if top.keys.Some? then top.(keyExpected := true) else top])
  {
    assert ([COMMA] + rest)[1..] == rest;
    assert Pop(stack + [top]) == stack;
  }

  /** The member's name is read, then everything up to its value is skipped. */
  lemma ScanMemberHead(m: Members, rest: Text, stack: seq<Frame>, keys: set<Text>)
    requires m.Member? && MembersOk(m)
    ensures Scan(m.before + (Literal(m.pieces) + (m.beforeColon + ([COLON] + (m.afterColon + rest)))), stack + [Frame(Some(keys), true)]) ==
      if Name(m.pieces) in keys then Duplicate else Scan(rest, stack + [Frame(Some(keys + {Name(m.pieces)}), false)])
  {
    var open_ := stack + [Frame(Some(keys), true)];
    var done := stack + [Frame(Some(keys + {Name(m.pieces)}), false)];
    var afterName := m.beforeColon + ([COLON] + (m.afterColon + rest));
    ScanInert(m.before, Literal(m.pieces) + afterName, open_);
    ScanLiteral(m.pieces, afterName, open_);
    assert Pop(open_) == stack;
    assert AddKey(open_, Name(m.pieces)) == done;
    ScanInert(m.beforeColon, [COLON] + (m.afterColon + rest), done);
    ScanInert([COLON], m.afterColon + rest, done);
    ScanInert(m.afterColon, rest, done);
  }

  /** Repetition found while reading members after the names in `keys`. */
  predicate MembersRepeat(members: Members, keys: set<Text>)
    requires MembersOk(members)
  {
    members.Member? &&
    (Name(members.pieces) in keys || ValueRepeats(members.value) || MembersRepeat(members.next, keys + {Name(members.pieces)}))
  }

  predicate ItemsRepeat(items: Items)
    requires ItemsOk(items)
  {
    items.Item? && (ValueRepeats(items.value) || ItemsRepeat(items.next))
  }

  predicate ValueRepeats(v: Value)
    requires ValueOk(v)
  {
    match v
    case Array(_, items) => ItemsRepeat(items)
    case Object(_, members) => MembersRepeat(members, {})
    case _ => false
  }

  lemma {:induction false} ScanValue(v: Value, rest: Text, stack: seq<Frame>)
    requires ValueOk(v) && !ExpectsKey(stack)
    ensures Scan(Render(v) + rest, stack) == if ValueRepeats(v) then Duplicate else Scan(rest, stack)
    decreases v
  {
    hide Scan, Inert, PiecesOk, ExpectsKey;
    match v
    case Scalar(text) => ScanInert(text, rest, stack);
    case Str(pieces) => ScanLiteral(pieces, rest, stack);
    case Array(gap, items) =>
      var inner := RenderItems(items) + ([CLOSE_BRACKET] + rest);
      assert Render(v) + rest == [OPEN_BRACKET] + gap + inner;
      ScanOpen(OPEN_BRACKET, gap, inner, stack);
      ScanItems(items, rest, stack);
    case Object(gap, members) =>
      var inner := RenderMembers(members) + ([CLOSE_BRACE] + rest);
      assert Render(v) + rest == [OPEN_BRACE] + gap + inner;
      ScanOpen(OPEN_BRACE, gap, inner, stack);
      ScanMembers(members, {}, rest, stack);
  }

  lemma {:induction false} ScanItems(items: Items, rest: Text, stack: seq<Frame>)
    requires ItemsOk(items)
    ensures Scan(RenderItems(items) + ([CLOSE_BRACKET] + rest), stack + [Frame(None, false)]) ==
      if ItemsRepeat(items) then Duplicate else Scan(rest, stack)
    decreases items
  {
    hide Scan, Inert;
    var inside := stack + [Frame(None, false)];
    match items
    case NoItems =>
      assert RenderItems(items) + ([CLOSE_BRACKET] + rest) == [CLOSE_BRACKET] + rest;
      ScanClose(CLOSE_BRACKET, rest, stack, Frame(None, false));
    case Item(before, value, behind, next) =>
      var more := (if next == NoItems then [] else [COMMA] + RenderItems(next)) + ([CLOSE_BRACKET] + rest);
      assert RenderItems(items) + ([CLOSE_BRACKET] + rest) == before + (Render(value) + (behind + more));
      ScanInert(before, Render(value) + (behind + more), inside);
      ScanValue(value, behind + more, inside);
      ScanInert(behind, more, inside);
      ScanItems(next, rest, stack);
      if next == NoItems {
        assert more == [CLOSE_BRACKET] + rest == RenderItems(next) + ([CLOSE_BRACKET] + rest);
      } else {
        assert more == [COMMA] + (RenderItems(next) + ([CLOSE_BRACKET] + rest));
        ScanComma(RenderItems(next) + ([CLOSE_BRACKET] + rest), stack, Frame(None, false));
      }
  }

  lemma {:induction false} ScanMembers(members: Members, keys: set<Text>, rest: Text, stack: seq<Frame>)
    requires MembersOk(members)
    ensures Scan(RenderMembers(members) + ([CLOSE_BRACE] + rest), stack + [Frame(Some(keys), true)]) ==
      if MembersRepeat(members, keys) then Duplicate else Scan(rest, stack)
    decreases members
  {
    hide Scan, Inert, PiecesOk, Literal, Render;
    match members
    case NoMembers =>
      assert RenderMembers(members) + ([CLOSE_BRACE] + rest) == [CLOSE_BRACE] + rest;
      ScanClose(CLOSE_BRACE, rest, stack, Frame(Some(keys), true));
    case Member(before, pieces, beforeColon, afterColon, value, behind, next) =>
      var tail := [CLOSE_BRACE] + rest;
      var more := (if next == NoMembers then [] else [COMMA] + RenderMembers(next)) + tail;
      var keys' := keys + {Name(pieces)};
      var top := Frame(Some(keys'), false);
      SplitMember(members, tail);
      ScanMemberHead(members, Render(value) + (behind + more), stack, keys);
      ScanValue(value, behind + more, stack + [top]);
      ScanMemberEnd(behind, next, rest, stack, keys');
      ScanMembers(next, keys', rest, stack);
  }

  /** Behind a member's value: the end of the object, or a comma and the next member. */
  lemma ScanMemberEnd(behind: Text, next: Members, rest: Text, stack: seq<Frame>, keys: set<Text>)
    requires Inert(behind)
    ensures var tail := [CLOSE_BRACE] + rest; var more := (if next == NoMembers then [] else [COMMA] + RenderMembers(next)) + tail;
      Scan(behind + more, stack + [Frame(Some(keys), false)]) == Scan(RenderMembers(next) + tail, stack + [Frame(Some(keys), true)])
  {
    hide Scan, Inert;
    var tail := [CLOSE_BRACE] + rest;
    var more := (if next == NoMembers then [] else [COMMA] + RenderMembers(next)) + tail;
    var top := Frame(Some(keys), false);
    ScanInert(behind, more, stack + [top]);
    if next == NoMembers {
      assert more == tail && RenderMembers(next) + tail == tail;
      ScanClose(CLOSE_BRACE, rest, stack, top);
      ScanClose(CLOSE_BRACE, rest, stack, Frame(Some(keys), true));
    } else {
      assert more == [COMMA] + (RenderMembers(next) + tail);
      ScanComma(RenderMembers(next) + tail, stack, top);
    }
  }

  lemma SplitMember(m: Members, tail: Text)
    requires m.Member?
    ensures var more := (if m.next == NoMembers then [] else [COMMA] + RenderMembers(m.next)) + tail;
      RenderMembers(m) + tail ==
      m.before + (Literal(m.pieces) + (m.beforeColon + ([COLON] + (m.afterColon + (Render(m.value) + (m.behind + more))))))
  {
  }

  // ---- repetition found in passing is repetition in the document ----

  ghost predicate SomeRepeats(lists: seq<seq<Text>>) { exists k :: 0 <= k < |lists| && Repeats(lists[k]) }

  lemma SomeRepeatsAppend(a: seq<seq<Text>>, b: seq<seq<Text>>)
    ensures SomeRepeats(a + b) <==> SomeRepeats(a) || SomeRepeats(b)
  {
    if SomeRepeats(a) {
      var k :| 0 <= k < |a| && Repeats(a[k]);
      assert (a + b)[k] == a[k];
    }
    if SomeRepeats(b) {
      var k :| 0 <= k < |b| && Repeats(b[k]);
      assert (a + b)[|a| + k] == b[k];
    }
  }

  ghost predicate Collides(names: seq<Text>, keys: set<Text>) { Repeats(names) || Meets(names, keys) }

  ghost predicate Meets(names: seq<Text>, keys: set<Text>) { exists i :: 0 <= i < |names| && names[i] in keys }

  lemma RepeatsCons(name: Text, names: seq<Text>)
    ensures Repeats([name] + names) <==> name in names || Repeats(names)
  {
    var all := [name] + names;
    if Repeats(names) {
      var i, j :| 0 <= i < j < |names| && names[i] == names[j];
      assert all[i + 1] == names[i] && all[j + 1] == names[j];
    }
    if name in names {
      var j :| 0 <= j < |names| && names[j] == name;
      assert all[0] == name && all[j + 1] == names[j];
    }
    if Repeats(all) { RepeatsTail(name, names); }
  }

  lemma RepeatsTail(name: Text, names: seq<Text>)
    requires Repeats([name] + names)
    ensures name in names || Repeats(names)
  {
    var all := [name] + names;
    var i, j :| 0 <= i < j < |all| && all[i] == all[j];
    assert all[j] == names[j - 1];
    if i > 0 { assert all[i] == names[i - 1]; }
  }

  lemma MeetsCons(name: Text, names: seq<Text>, keys: set<Text>)
    ensures Meets([name] + names, keys) <==> name in keys || Meets(names, keys)
    ensures Meets(names, keys + {name}) <==> Meets(names, keys) || name in names
  {
    var all := [name] + names;
    assert all[0] == name && forall i | 0 <= i < |names| :: all[i + 1] == names[i];
    if Meets(names, keys) {
      var i :| 0 <= i < |names| && names[i] in keys;
      assert all[i + 1] in keys && names[i] in keys + {name};
    }
    if Meets(all, keys) {
      var i :| 0 <= i < |all| && all[i] in keys;
      if i > 0 { assert names[i - 1] in keys; }
    }
    if name in names {
      var i :| 0 <= i < |names| && names[i] == name;
      assert names[i] in keys + {name};
    }
  }

  lemma CollidesCons(name: Text, names: seq<Text>, keys: set<Text>)
    ensures Collides([name] + names, keys) <==> name in keys || Collides(names, keys + {name})
  {
    hide Repeats, Meets;
    RepeatsCons(name, names);
    MeetsCons(name, names, keys);
  }

  lemma {:induction false} ValueRepeatsIff(v: Value)
    requires ValueOk(v)
    ensures ValueRepeats(v) <==> SomeRepeats(NameLists(v))
    decreases v
  {
    hide SomeRepeats, Inert, PiecesOk;
    match v
    case Scalar(_) => NothingRepeats();
    case Str(_) => NothingRepeats();
    case Array(_, items) => ItemsRepeatIff(items);
    case Object(_, members) =>
      MembersRepeatIff(members, {});
      SomeRepeatsAppend([MemberNames(members)], MemberNameLists(members));
      JustOne(MemberNames(members));
  }

  lemma NothingRepeats()
    ensures !SomeRepeats([])
  {
  }

  lemma JustOne(names: seq<Text>)
    ensures SomeRepeats([names]) <==> Collides(names, {})
  {
    assert [names][0] == names;
  }

  lemma {:induction false} ItemsRepeatIff(items: Items)
    requires ItemsOk(items)
    ensures ItemsRepeat(items) <==> SomeRepeats(ItemNameLists(items))
    decreases items
  {
    hide SomeRepeats, Inert, PiecesOk;
    match items
    case NoItems => NothingRepeats();
    case Item(_, value, _, next) =>
      ValueRepeatsIff(value);
      ItemsRepeatIff(next);
      SomeRepeatsAppend(NameLists(value), ItemNameLists(next));
  }

  lemma {:induction false} MembersRepeatIff(members: Members, keys: set<Text>)
    requires MembersOk(members)
    ensures MembersRepeat(members, keys) <==> Collides(MemberNames(members), keys) || SomeRepeats(MemberNameLists(members))
    decreases members
  {
    hide SomeRepeats, Inert, PiecesOk;
    match members
    case NoMembers => NothingRepeats();
    case Member(_, pieces, _, _, value, _, next) =>
      ValueRepeatsIff(value);
      MembersRepeatIff(next, keys + {Name(pieces)});
      SomeRepeatsAppend(NameLists(value), MemberNameLists(next));
      CollidesCons(Name(pieces), MemberNames(next), keys);
  }

  /** On the text of any document the scanner answers, and says true exactly when a name is repeated. */
  lemma ScanDetectsRepeatedNames(before: Text, v: Value, behind: Text)
    requires Inert(before) && ValueOk(v) && Inert(behind)
    ensures Scan(before + Render(v) + behind, []) == if HasRepeatedName(v) then Duplicate else Unique
  {
    hide Scan;
    assert before + Render(v) + behind == before + (Render(v) + behind);
    ScanInert(before, Render(v) + behind, []);
    ScanValue(v, behind, []);
    ScanBlank(behind);
    ValueRepeatsIff(v);
  }

  lemma ScanBlank(w: Text)
    requires Inert(w)
    ensures Scan(w, []) == Unique
  {
    ScanInert(w, [], []);
    assert w + [] == w;
  }
}
