/**
 JSON texts as sequences of UTF-16 code units: string literals and their decoded names, and
 documents with every layout of white space.
 */
module JsonText {
  import opened Wrappers

  type CodeUnit = c: int | 0 <= c < 0x1_0000
  type Text = seq<CodeUnit>

  const QUOTE: CodeUnit := 0x22
  const COMMA: CodeUnit := 0x2C
  const COLON: CodeUnit := 0x3A
  const OPEN_BRACKET: CodeUnit := 0x5B
  const BACKSLASH: CodeUnit := 0x5C
  const CLOSE_BRACKET: CodeUnit := 0x5D
  const LOWER_U: CodeUnit := 0x75
  const OPEN_BRACE: CodeUnit := 0x7B
  const CLOSE_BRACE: CodeUnit := 0x7D

  // ---- string literals ----

  /** What one escape letter stands for: the quote, both slashes, \b, \f, \n, \r and \t. */
  function EscapeValue(letter: CodeUnit): Option<CodeUnit> {
    if letter == QUOTE || letter == BACKSLASH || letter == 0x2F then Some(letter)
    else if letter == 0x62 then Some(0x08)
    else if letter == 0x66 then Some(0x0C)
    else if letter == 0x6E then Some(0x0A)
    else if letter == 0x72 then Some(0x0D)
    else if letter == 0x74 then Some(0x09)
    else None
  }

  function HexValue(c: CodeUnit): (r: Option<int>)
    ensures r.Some? ==> 0 <= r.value < 16 && c != QUOTE && c != BACKSLASH
  {
    if 0x30 <= c <= 0x39 then Some(c - 0x30)
    else if 0x41 <= c <= 0x46 then Some(c - 0x37)
    else if 0x61 <= c <= 0x66 then Some(c - 0x57)
    else None
  }

  predicate IsHex(s: Text) { |s| == 4 && forall i :: 0 <= i < 4 ==> HexValue(s[i]).Some? }

  function HexUnit(s: Text): CodeUnit
    requires IsHex(s)
  {
    ((HexValue(s[0]).value * 16 + HexValue(s[1]).value) * 16 + HexValue(s[2]).value) * 16 + HexValue(s[3]).value
  }

  /** The escape letters and what they stand for, as texts. */
  lemma EscapesAsText(letter: CodeUnit, value: CodeUnit)
    ensures EscapeValue(letter) == Some(value) <==>
      exists k :: 0 <= k < 8 && "\"\\/bfnrt"[k] as int == letter && "\"\\/\U{0008}\U{000C}\n\r\t"[k] as int == value
  {
    var letters, values := "\"\\/bfnrt", "\"\\/\U{0008}\U{000C}\n\r\t";
    assert letters[0] == '"' && letters[1] == '\\' && letters[2] == '/' && letters[3] == 'b';
    assert letters[4] == 'f' && letters[5] == 'n' && letters[6] == 'r' && letters[7] == 't';
    if EscapeValue(letter) == Some(value) {
      var k := if letter == QUOTE then 0 else if letter == BACKSLASH then 1 else if letter == 0x2F then 2
        else if letter == 0x62 then 3 else if letter == 0x66 then 4 else if letter == 0x6E then 5
        else if letter == 0x72 then 6 else 7;
      assert letters[k] as int == letter && values[k] as int == value;
    }
  }

  /** The hexadecimal digits, as texts: their place is their value, in either case. */
  lemma HexAsText(c: CodeUnit, v: int)
    ensures HexValue(c) == Some(v) <==>
      0 <= v < 16 && (c == "0123456789abcdef"[v] as int || c == "0123456789ABCDEF"[v] as int)
  {
  }

  /** One written character of a string literal. */
  datatype Piece = Plain(unit: CodeUnit) | Escaped(letter: CodeUnit) | Unicode(digits: Text)

  predicate PieceOk(p: Piece) {
    match p
    case Plain(c) => c >= 0x20 && c != QUOTE && c != BACKSLASH
    case Escaped(letter) => EscapeValue(letter).Some?
    case Unicode(digits) => IsHex(digits)
  }

  predicate PiecesOk(ps: seq<Piece>) { forall p :: p in ps ==> PieceOk(p) }

  function RenderPiece(p: Piece): Text {
    match p
    case Plain(c) => [c]
    case Escaped(letter) => [BACKSLASH, letter]
    case Unicode(digits) => [BACKSLASH, LOWER_U] + digits
  }

  function RenderPieces(ps: seq<Piece>): Text {
    if ps == [] then [] else RenderPiece(ps[0]) + RenderPieces(ps[1..])
  }

  function PieceUnit(p: Piece): CodeUnit
    requires PieceOk(p)
  {
    match p
    case Plain(c) => c
    case Escaped(letter) => EscapeValue(letter).value
    case Unicode(digits) => HexUnit(digits)
  }

  /** The decoded name: one code unit per piece. */
  function Name(ps: seq<Piece>): (name: Text)
    requires PiecesOk(ps)
    ensures |name| == |ps|
  {
    seq(|ps|, i requires 0 <= i < |ps| => PieceUnit(ps[i]))
  }

  function Literal(ps: seq<Piece>): Text { [QUOTE] + RenderPieces(ps) + [QUOTE] }

  // ---- reading a literal back ----

  function Prepend(c: CodeUnit, rest: Option<Text>): Option<Text> {
    if rest.Some? then Some([c] + rest.value) else None
  }

  /** The rest of a string literal after its opening quote; anything else is a syntax error. */
  function DecodeBody(s: Text): Option<Text>
    decreases |s|
  {
    if s == [] then None
    else if s[0] == QUOTE then (if |s| == 1 then Some([]) else None)
    else if s[0] != BACKSLASH then (if s[0] < 0x20 then None else Prepend(s[0], DecodeBody(s[1..])))
    else if |s| == 1 then None
    else if s[1] == LOWER_U then
      (if |s| >= 6 && IsHex(s[2..6]) then Prepend(HexUnit(s[2..6]), DecodeBody(s[6..])) else None)
    else if EscapeValue(s[1]).Some? then Prepend(EscapeValue(s[1]).value, DecodeBody(s[2..]))
    else None
  }

  /** JSON.parse on a text that starts with a quote and has no second value after the literal. */
  function DecodeLiteral(s: Text): Option<Text> {
    if s == [] || s[0] != QUOTE then None else DecodeBody(s[1..])
  }

  lemma NameCons(p: Piece, ps: seq<Piece>)
    requires PieceOk(p) && PiecesOk(ps)
    ensures PiecesOk([p] + ps) && Name([p] + ps) == [PieceUnit(p)] + Name(ps)
  {
  }

  lemma DecodePiece(p: Piece, rest: Text)
    requires PieceOk(p)
    ensures DecodeBody(RenderPiece(p) + rest) == Prepend(PieceUnit(p), DecodeBody(rest))
  {
    var s := RenderPiece(p) + rest;
    assert s[|RenderPiece(p)|..] == rest;
    if p.Unicode? { assert s[2..6] == p.digits; }
  }

  lemma {:induction false} DecodeBodyOfPieces(ps: seq<Piece>)
    requires PiecesOk(ps)
    ensures DecodeBody(RenderPieces(ps) + [QUOTE]) == Some(Name(ps))
  {
    if ps != [] {
      var rest := RenderPieces(ps[1..]) + [QUOTE];
      assert RenderPieces(ps) + [QUOTE] == RenderPiece(ps[0]) + rest;
      DecodePiece(ps[0], rest);
      DecodeBodyOfPieces(ps[1..]);
      NameCons(ps[0], ps[1..]);
      assert [ps[0]] + ps[1..] == ps;
    }
  }

  /** Reading a written literal gives its name. */
  lemma DecodeOfLiteral(ps: seq<Piece>)
    requires PiecesOk(ps)
    ensures DecodeLiteral(Literal(ps)) == Some(Name(ps))
  {
    assert Literal(ps)[1..] == RenderPieces(ps) + [QUOTE];
    DecodeBodyOfPieces(ps);
  }

  /** The first piece of a body that decodes to something. */
  function FirstPiece(s: Text): Piece
    requires s != []
  {
    if s[0] != BACKSLASH then Plain(s[0])
    else if |s| >= 6 && s[1] == LOWER_U then Unicode(s[2..6])
    else if |s| >= 2 then Escaped(s[1])
    else Escaped(s[0])
  }

  lemma {:induction false} BodyIsPieces(s: Text) returns (ps: seq<Piece>)
    requires DecodeBody(s).Some?
    ensures PiecesOk(ps) && s == RenderPieces(ps) + [QUOTE] && DecodeBody(s) == Some(Name(ps))
    decreases |s|
  {
    if s[0] == QUOTE {
      ps := [];
    } else {
      var p := FirstPiece(s);
      var n := |RenderPiece(p)|;
      assert PieceOk(p) && n <= |s| && s == RenderPiece(p) + s[n..];
      DecodePiece(p, s[n..]);
      var rest := BodyIsPieces(s[n..]);
      ps := [p] + rest;
      NameCons(p, rest);
      assert ps[1..] == rest;
    }
  }

  /** Only written literals are accepted, and the name read is theirs. */
  lemma LiteralOfDecode(s: Text) returns (ps: seq<Piece>)
    requires DecodeLiteral(s).Some?
    ensures PiecesOk(ps) && s == Literal(ps) && DecodeLiteral(s) == Some(Name(ps))
  {
    ps := BodyIsPieces(s[1..]);
    assert s == [s[0]] + s[1..];
  }

  // ---- documents ----

  /** White space and the text of numbers and the three literals are runs without these units. */
  predicate Inert(s: Text) {
    forall i :: 0 <= i < |s| ==> s[i] !in [QUOTE, COMMA, OPEN_BRACKET, CLOSE_BRACKET, OPEN_BRACE, CLOSE_BRACE]
  }

  datatype Value =
    | Scalar(text: Text)
    | Str(pieces: seq<Piece>)
    | Array(gap: Text, items: Items)
    | Object(gap: Text, members: Members)

  datatype Items = NoItems | Item(before: Text, value: Value, behind: Text, next: Items)

  datatype Members =
    | NoMembers
    | Member(before: Text, pieces: seq<Piece>, beforeColon: Text, afterColon: Text, value: Value, behind: Text, next: Members)

  predicate ValueOk(v: Value) {
    match v
    case Scalar(text) => Inert(text)
    case Str(pieces) => PiecesOk(pieces)
    case Array(gap, items) => Inert(gap) && ItemsOk(items)
    case Object(gap, members) => Inert(gap) && MembersOk(members)
  }

  predicate ItemsOk(items: Items) {
    match items
    case NoItems => true
    case Item(before, value, behind, next) => Inert(before) && ValueOk(value) && Inert(behind) && ItemsOk(next)
  }

  predicate MembersOk(members: Members) {
    match members
    case NoMembers => true
    case Member(before, pieces, beforeColon, afterColon, value, behind, next) =>
      && Inert(before) && PiecesOk(pieces) && Inert(beforeColon) && Inert(afterColon)
      && ValueOk(value) && Inert(behind) && MembersOk(next)
  }

  function Render(v: Value): Text {
    match v
    case Scalar(text) => text
    case Str(pieces) => Literal(pieces)
    case Array(gap, items) => [OPEN_BRACKET] + gap + RenderItems(items) + [CLOSE_BRACKET]
    case Object(gap, members) => [OPEN_BRACE] + gap + RenderMembers(members) + [CLOSE_BRACE]
  }

  function RenderItems(items: Items): Text {
    match items
    case NoItems => []
    case Item(before, value, behind, next) =>
      before + Render(value) + behind + if next == NoItems then [] else [COMMA] + RenderItems(next)
  }

  function RenderMembers(members: Members): Text {
    match members
    case NoMembers => []
    case Member(before, pieces, beforeColon, afterColon, value, behind, next) =>
      before + Literal(pieces) + beforeColon + [COLON] + afterColon + Render(value) + behind +
      if next == NoMembers then [] else [COMMA] + RenderMembers(next)
  }

  // ---- repeated names, section 4 of RFC 8259 ----

  /** The member names of every object of a value, one list per object, whatever its depth. */
  function NameLists(v: Value): seq<seq<Text>>
    requires ValueOk(v)
  {
    match v
    case Scalar(_) => []
    case Str(_) => []
    case Array(_, items) => ItemNameLists(items)
    case Object(_, members) => [MemberNames(members)] + MemberNameLists(members)
  }

  function ItemNameLists(items: Items): seq<seq<Text>>
    requires ItemsOk(items)
  {
    match items
    case NoItems => []
    case Item(_, value, _, next) => NameLists(value) + ItemNameLists(next)
  }

  function MemberNames(members: Members): seq<Text>
    requires MembersOk(members)
  {
    match members
    case NoMembers => []
    case Member(_, pieces, _, _, _, _, next) => [Name(pieces)] + MemberNames(next)
  }

  function MemberNameLists(members: Members): seq<seq<Text>>
    requires MembersOk(members)
  {
    match members
    case NoMembers => []
    case Member(_, _, _, _, value, _, next) => NameLists(value) + MemberNameLists(next)
  }

  ghost predicate Repeats(names: seq<Text>) {
    exists i, j :: 0 <= i < j < |names| && names[i] == names[j]
  }

  /** Some object, at some depth, has two members of the same name. */
  ghost predicate HasRepeatedName(v: Value)
    requires ValueOk(v)
  {
    exists k :: 0 <= k < |NameLists(v)| && Repeats(NameLists(v)[k])
  }
}
