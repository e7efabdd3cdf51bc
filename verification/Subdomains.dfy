/**
 Subdomain labels (plugin-external-urls/src/routePolicy.ts, the automatic choice in
 plugin-external-urls/src/index.ts and the check in plugin-external-urls/src/httpIngress.ts).
 */
module Subdomains {
  import opened Texts

  predicate Alphanumeric(c: char) { 'a' <= c <= 'z' || '0' <= c <= '9' }

  predicate LabelChar(c: char) { Alphanumeric(c) || c == '-' }

  /** A label of section 2.3.4 of RFC 1035 in lower case. */
  predicate LabelOk(s: string) {
    0 < |s| <= 63 && Alphanumeric(s[0]) && Alphanumeric(s[|s| - 1]) && LabelText(s)
  }

  /** `validateSubdomain`. */
  predicate SubdomainOk(s: string) {
    0 < |s| <= 253 && s[|s| - 1] != '.' && forall i :: 0 <= i < |Split(s, '.')| ==> LabelOk(Split(s, '.')[i])
  }

  // ---- the workspace's part ----

  predicate LabelText(s: string) { forall i :: 0 <= i < |s| ==> LabelChar(s[i]) }

  function Cleaned(lowered: string): (s: string)
    ensures |s| == |lowered| && LabelText(s)
  {
    seq(|lowered|, i requires 0 <= i < |lowered| => if LabelChar(lowered[i]) then lowered[i] else '-')
  }

  function TrimLeft(s: string): (r: string)
    ensures (r == "" || r[0] != '-') && (LabelText(s) ==> LabelText(r))
    decreases |s|
  {
    if s == "" || s[0] != '-' then s else TrimLeft(s[1..])
  }

  function TrimRight(s: string): (r: string)
    ensures (r == "" || (r[|r| - 1] != '-' && s != "" && r[0] == s[0])) && (LabelText(s) ==> LabelText(r))
    decreases |s|
  {
    if s == "" || s[|s| - 1] != '-' then s else TrimRight(s[..|s| - 1])
  }

  /** The normalised name of a workspace, from its lower-case form. */
  function Normalized(lowered: string): (s: string)
    ensures s != "" && Alphanumeric(s[0]) && Alphanumeric(s[|s| - 1]) && LabelText(s)
  {
    var trimmed := TrimRight(TrimLeft(Cleaned(lowered)));
    if trimmed == "" then "workspace" else trimmed
  }

  lemma {:induction false} TrimmedLeft(s: string) returns (i: nat)
    ensures i <= |s| && TrimLeft(s) == s[i..] && forall k :: 0 <= k < i ==> s[k] == '-'
    decreases |s|
  {
    i := 0;
    if s != "" && s[0] == '-' {
      var rest := TrimmedLeft(s[1..]);
      i := rest + 1;
      forall k | 0 <= k < i ensures s[k] == '-' { if k > 0 { assert s[1..][k - 1] == s[k]; } }
    }
  }

  lemma {:induction false} TrimmedRight(s: string) returns (j: nat)
    ensures j <= |s| && TrimRight(s) == s[..j] && forall k :: j <= k < |s| ==> s[k] == '-'
    decreases |s|
  {
    j := |s|;
    if s != "" && s[|s| - 1] == '-' { j := TrimmedRight(s[..|s| - 1]); }
  }

  /**
   Normalising keeps everything from the first to the last letter or digit, with a hyphen for each
   character that may not stand in a label; a name without any is called "workspace".
   */
  lemma NormalizedExact(lowered: string) returns (i: nat, j: nat)
    ensures if forall k :: 0 <= k < |lowered| ==> !Alphanumeric(lowered[k]) then Normalized(lowered) == "workspace"
      else
        && i < j <= |lowered| && Alphanumeric(lowered[i]) && Alphanumeric(lowered[j - 1])
        && (forall k :: 0 <= k < |lowered| && Alphanumeric(lowered[k]) ==> i <= k < j)
        && |Normalized(lowered)| == j - i
        && forall k :: i <= k < j ==> Normalized(lowered)[k - i] == if LabelChar(lowered[k]) then lowered[k] else '-'
  {
    var clean := Cleaned(lowered);
    i, j := Trimmed(clean);
    assert forall k :: 0 <= k < |clean| ==> clean[k] == if LabelChar(lowered[k]) then lowered[k] else '-';
    hide Cleaned, TrimLeft, TrimRight;
    assert forall k :: 0 <= k < |lowered| && Alphanumeric(lowered[k]) ==> clean[k] != '-';
  }

  lemma Trimmed(clean: string) returns (i: nat, j: nat)
    requires LabelText(clean)
    ensures i <= j <= |clean| && TrimRight(TrimLeft(clean)) == clean[i..j]
    ensures forall k :: 0 <= k < |clean| && !(i <= k < j) ==> clean[k] == '-'
    ensures i < j ==> Alphanumeric(clean[i]) && Alphanumeric(clean[j - 1])
  {
    i := TrimmedLeft(clean);
    var rest := clean[i..];
    assert TrimLeft(clean) == rest;
    var n := TrimmedRight(rest);
    j := i + n;
    assert rest[..n] == clean[i..j];
    forall k | 0 <= k < |clean| && !(i <= k < j) ensures clean[k] == '-' {
      if k >= j { assert rest[k - i] == clean[k]; }
    }
    if i < j {
      assert TrimRight(rest) == clean[i..j];
      assert clean[i..j][0] == clean[i] && clean[i..j][n - 1] == clean[j - 1];
    }
  }

  // ---- the hash of a long name ----

  function Multiplied(hash: bv32): bv32 { hash * 0x01000193 }

  function Fold(hash: bv32, bytes: seq<bv8>): bv32
    decreases |bytes|
  {
    if bytes == [] then hash else Fold(Multiplied(hash ^ (bytes[0] as bv32)), bytes[1..])
  }

  method StableHash(bytes: seq<bv8>) returns (hash: bv32)
    ensures hash == Fold(0x811c9dc5, bytes)
  {
    hide Multiplied;
    hash := 0x811c9dc5;
    assert bytes[0..] == bytes;
    for i := 0 to |bytes|
      invariant Fold(hash, bytes[i..]) == Fold(0x811c9dc5, bytes)
    {
      assert bytes[i..][0] == bytes[i] && bytes[i..][1..] == bytes[i + 1..];
      hash := hash ^ (bytes[i] as bv32);
      hash := Multiplied(hash);
    }
  }

  function Hex(n: nat, width: nat): (s: string)
    ensures |s| == width && forall i :: 0 <= i < |s| ==> Alphanumeric(s[i])
    decreases width
  {
    if width == 0 then "" else Hex(n / 16, width - 1) + ["0123456789abcdef"[n % 16]]
  }

  function NameBytes(s: string): seq<bv8> {
    seq(|s|, i requires 0 <= i < |s| => if s[i] as int < 256 then s[i] as bv8 else 0)
  }

  function HashText(s: string): (r: string)
    ensures |r| == 8 && forall i :: 0 <= i < |r| ==> Alphanumeric(r[i])
  {
    Hex(Fold(0x811c9dc5, NameBytes(s)) as nat, 8)
  }

  /** The 32-bit FNV-1a hash: two of its published values. */
  lemma HashIsFnv()
    ensures Fold(0x811c9dc5, NameBytes("")) == 0x811c9dc5 && Fold(0x811c9dc5, NameBytes("a")) == 0xe40c292c
  {
    assert NameBytes("") == [] && NameBytes("a") == [0x61];
    assert [0x61 as bv8][1..] == [];
    assert Fold(0x811c9dc5, [0x61]) == Fold(0xe40c292c, []) == 0xe40c292c;
  }

  /** The number that a text of lower-case hexadecimal digits stands for. */
  function HexNumber(s: string): int {
    if s == "" then 0
    else
      var c := s[|s| - 1];
      HexNumber(s[..|s| - 1]) * 16 + if c <= '9' then c as int - '0' as int else c as int - 'a' as int + 10
  }

  function Power16(n: nat): nat { if n == 0 then 1 else 16 * Power16(n - 1) }

  lemma {:induction false} HexReads(n: nat, width: nat)
    requires n < Power16(width)
    ensures HexNumber(Hex(n, width)) == n
    decreases width
  {
    if width > 0 {
      HexReads(n / 16, width - 1);
      var s := Hex(n, width);
      assert s[..|s| - 1] == Hex(n / 16, width - 1);
    }
  }

  /** `workspaceSubdomainPrefix`. */
  function Prefix(lowered: string): string {
    var name := Normalized(lowered);
    if |name| <= 50 then name + "--" else name[..41] + "-" + HashText(name) + "--"
  }

  /** `workspacePermalinkSubdomain`. */
  function Permalink(lowered: string, routeId: string): string {
    var name := Normalized(lowered);
    name[..if |name| < 16 then |name| else 16] + "-permalink-" + routeId
  }

  // ---- the automatic choice ----

  /** The names taken by the first `n` indexes. */
  function FirstNames(prefix: string, n: nat): set<string> { set i | 0 <= i < n :: NameAt(prefix, i) }

  lemma NamesApart(prefix: string, i: nat, j: nat)
    requires prefix + Decimal(i) == prefix + Decimal(j)
    ensures i == j
  {
    assert (prefix + Decimal(i))[|prefix|..] == Decimal(i) && (prefix + Decimal(j))[|prefix|..] == Decimal(j);
    DecimalInjective(i, j);
  }

  function NameAt(prefix: string, i: nat): string { prefix + Decimal(i) }

  lemma OneMoreName(prefix: string, n: nat)
    ensures FirstNames(prefix, n + 1) == FirstNames(prefix, n) + {NameAt(prefix, n)}
    ensures NameAt(prefix, n) !in FirstNames(prefix, n)
  {
    if NameAt(prefix, n) in FirstNames(prefix, n) {
      var i :| 0 <= i < n && NameAt(prefix, i) == NameAt(prefix, n);
      NamesApart(prefix, i, n);
    }
    hide NameAt;
    assert forall s :: s in FirstNames(prefix, n + 1) <==> s in FirstNames(prefix, n) || s == NameAt(prefix, n);
  }

  lemma {:induction false} CountFirstNames(prefix: string, n: nat)
    ensures |FirstNames(prefix, n)| == n
  {
    if n > 0 {
      CountFirstNames(prefix, n - 1);
      OneMoreName(prefix, n - 1);
    }
  }

  lemma {:induction false} SubsetSize(a: set<string>, b: set<string>)
    requires a <= b
    ensures |a| <= |b|
  {
    assert b == a + (b - a);
  }

  /** Counts up to the least index whose name is unused; it exists below or at the number of used names. */
  method ChooseSubdomain(used: set<string>, prefix: string) returns (index: nat)
    ensures prefix + Decimal(index) !in used && forall j :: 0 <= j < index ==> prefix + Decimal(j) in used
    ensures index <= |used|
  {
    index := 0;
    while prefix + Decimal(index) in used
      invariant index <= |used| && forall j :: 0 <= j < index ==> prefix + Decimal(j) in used
      decreases |used| - index
    {
      index := index + 1;
      CountFirstNames(prefix, index);
      SubsetSize(FirstNames(prefix, index), used);
    }
  }

  // ---- what the labels satisfy ----

  lemma LabelIsSubdomain(s: string)
    requires LabelOk(s)
    ensures SubdomainOk(s)
  {
    SplitNone(s, '.');
  }

  lemma OneLabel(s: string)
    requires LabelText(s)
    ensures SubdomainOk(s) <==> LabelOk(s)
  {
    SplitNone(s, '.');
    if SubdomainOk(s) { assert Split(s, '.')[0] == s; }
  }

  lemma PrefixShape(lowered: string)
    ensures var p := Prefix(lowered);
      3 <= |p| <= 52 && Alphanumeric(p[0]) && LabelText(p)
    ensures |Normalized(lowered)| > 50 ==> |Prefix(lowered)| == 52
  {
    hide HashText;
    var name := Normalized(lowered);
    if |name| > 50 { LongPrefix(name[..41], HashText(name)); }
  }

  lemma LongPrefix(head: string, hash: string)
    requires |head| == 41 && |hash| == 8 && Alphanumeric(head[0])
    requires LabelText(head) && forall i :: 0 <= i < |hash| ==> Alphanumeric(hash[i])
    ensures var p := head + "-" + hash + "--"; |p| == 52 && Alphanumeric(p[0]) && LabelText(p)
  {
    var p := head + "-" + hash + "--";
    forall i | 0 <= i < |p| ensures LabelChar(p[i]) {
      if i < 41 { assert p[i] == head[i]; }
      else if i == 41 { assert p[i] == '-'; }
      else if i < 50 { assert p[i] == hash[i - 42]; }
      else { assert p[i] == '-'; }
    }
  }

  /** An automatic name passes the prefix policy, and the label check exactly when it fits in 63 octets. */
  lemma AutomaticName(lowered: string, index: nat)
    ensures var s := Prefix(lowered) + Decimal(index);
      && Prefix(lowered) <= s
      && (SubdomainOk(s) <==> |Prefix(lowered)| + |Decimal(index)| <= 63)
      && (|Decimal(index)| <= 11 ==> SubdomainOk(s))
      && (|Normalized(lowered)| > 50 ==> (SubdomainOk(s) <==> |Decimal(index)| <= 11))
  {
    hide Prefix, Normalized, SubdomainOk, Decimal;
    PrefixShape(lowered);
    Appended(Prefix(lowered), Decimal(index));
    OneLabel(Prefix(lowered) + Decimal(index));
  }

  lemma Appended(p: string, d: string)
    requires |p| > 0 && Alphanumeric(p[0]) && LabelText(p)
    requires |d| > 0 && forall i :: 0 <= i < |d| ==> '0' <= d[i] <= '9'
    ensures LabelText(p + d) && (LabelOk(p + d) <==> |p| + |d| <= 63)
  {
    var s := p + d;
    assert s[|s| - 1] == d[|d| - 1] && s[0] == p[0];
  }

  /** The text of a random id: 36 hexadecimal digits and hyphens, a digit at both ends. */
  predicate RouteId(id: string) {
    |id| == 36 && Alphanumeric(id[0]) && Alphanumeric(id[35]) && forall i :: 0 <= i < 36 ==> LabelChar(id[i])
  }

  /** A permalink name is always a label of at most 63 octets. */
  lemma PermalinkIsLabel(lowered: string, id: string)
    requires RouteId(id)
    ensures SubdomainOk(Permalink(lowered, id)) && |Permalink(lowered, id)| <= 63
  {
    hide SubdomainOk, Normalized;
    var name := Normalized(lowered);
    var head := name[..if |name| < 16 then |name| else 16];
    Joined(head, "-permalink-", id);
    LabelIsSubdomain(Permalink(lowered, id));
  }

  lemma Joined(head: string, middle: string, id: string)
    requires 0 < |head| <= 16 && |middle| == 11 && RouteId(id) && Alphanumeric(head[0])
    requires LabelText(head) && LabelText(middle)
    ensures LabelOk(head + middle + id)
  {
    var s := head + middle + id;
    assert s[0] == head[0] && s[|s| - 1] == id[35];
    forall i | 0 <= i < |s| ensures LabelChar(s[i]) {
      if i < |head| { assert s[i] == head[i]; }
      else if i < |head| + 11 { assert s[i] == middle[i - |head|]; }
      else { assert s[i] == id[i - |head| - 11]; }
    }
  }

  /** Routes with different ids have different permalinks, whatever their workspaces. */
  lemma PermalinksApart(a: string, b: string, x: string, y: string)
    requires RouteId(x) && RouteId(y) && Permalink(a, x) == Permalink(b, y)
    ensures x == y
  {
    hide Normalized;
    var p, q := Permalink(a, x), Permalink(b, y);
    assert p[|p| - 36..] == x && q[|q| - 36..] == y;
  }
}
