/**
 Which host names a URL can have, as far as labels that start with "xn--" decide it: such a label is
 decoded (section 6.2 of RFC 3492), and a name with one that cannot be is not a host.
 */
module Punycode {
  import opened Wrappers
  import opened Texts

  const BASE: nat := 36
  const T_MIN: nat := 1
  const T_MAX: nat := 26
  const MAX_INT: nat := 0x7FFF_FFFF

  function DigitValue(c: char): (r: Option<nat>)
    ensures r.Some? ==> r.value < BASE
  {
    if 'a' <= c <= 'z' then Some(c as int - 'a' as int)
    else if 'A' <= c <= 'Z' then Some(c as int - 'A' as int)
    else if '0' <= c <= '9' then Some(26 + c as int - '0' as int)
    else None
  }

  function Threshold(k: nat, bias: nat): (t: nat)
    ensures T_MIN <= t <= T_MAX
  {
    if k <= bias + T_MIN then T_MIN else if k >= bias + T_MAX then T_MAX else k - bias
  }

  /** A generalised variable-length integer: its value added to `i`, and the text behind it. */
  function ReadInteger(s: string, i: nat, weight: nat, k: nat, bias: nat): (r: Option<(nat, string)>)
    requires weight > 0
    ensures r.Some? ==> |r.value.1| < |s|
  {
    if s == "" then None else
    var digit := DigitValue(s[0]);
    if digit.None? || i > MAX_INT || digit.value > (MAX_INT - i) / weight then None else
    var t := Threshold(k, bias);
    if digit.value < t then Some((i + digit.value * weight, s[1..]))
    else if weight > MAX_INT / (BASE - t) then None
    else Heavier(weight, t); ReadInteger(s[1..], i + digit.value * weight, weight * (BASE - t), k + BASE, bias)
  }

  lemma Heavier(weight: nat, t: nat)
    requires weight > 0 && t < BASE
    ensures weight * (BASE - t) > 0
  {
  }

  /** Quotient and remainder, by taking the divisor away as often as it goes. */
  function Quotient(a: nat, b: nat): nat
    requires b > 0
  {
    if a < b then 0 else 1 + Quotient(a - b, b)
  }

  function Remainder(a: nat, b: nat): (r: nat)
    requires b > 0
    ensures r < b
  {
    if a < b then a else Remainder(a - b, b)
  }

  function Damped(delta: nat, k: nat): nat
    decreases delta
  {
    if delta > ((BASE - T_MIN) * T_MAX) / 2 then Damped(delta / (BASE - T_MIN), k + BASE)
    else k + Quotient((BASE - T_MIN + 1) * delta, delta + 38)
  }

  function Adapt(delta: nat, points: nat, first: bool): nat
    requires points > 0
  {
    var damped := if first then delta / 700 else delta / 2;
    Damped(damped + Quotient(damped, points), 0)
  }

  function DecodeFrom(s: string, n: nat, i: nat, bias: nat, output: seq<nat>): Option<seq<nat>>
    requires i <= |output|
    decreases |s|
  {
    if s == "" then Some(output) else
    var read := ReadInteger(s, i, 1, BASE, bias);
    if read.None? || read.value.0 < i then None else
    var (i', rest) := read.value;
    var length := |output| + 1;
    var n', at := n + Quotient(i', length), Remainder(i', length);
    if n' > MAX_INT then None
    else DecodeFrom(rest, n', at + 1, Adapt(i' - i, length, i == 0), output[..at] + [n'] + output[at..])
  }

  /** Where the last hyphen stands; 0 when there is none. */
  function LastHyphen(s: string): (n: nat)
    ensures n < |s| || n == 0
  {
    if s == "" then 0 else if s[|s| - 1] == '-' then |s| - 1 else LastHyphen(s[..|s| - 1])
  }

  function Basic(s: string): Option<seq<nat>> {
    if forall i :: 0 <= i < |s| ==> s[i] as int < 0x80 then Some(seq(|s|, i requires 0 <= i < |s| => s[i] as int)) else None
  }

  function Decode(s: string): Option<seq<nat>> {
    var b := LastHyphen(s);
    var basic := Basic(s[..b]);
    if basic.None? then None else DecodeFrom(if b > 0 then s[b + 1..] else s, 0x80, 0, 72, basic.value)
  }

  /** Some label starts with "xn--" and cannot be decoded. */
  predicate Undecodable(host: string) {
    exists i :: 0 <= i < |Split(host, '.')| && "xn--" <= Split(host, '.')[i] && Decode(Split(host, '.')[i][4..]).None?
  }

  /** A URL parser, as far as it is known here: it refuses hosts with an undecodable label. */
  ghost predicate Parses(accepts: string -> bool) { forall host :: Undecodable(host) ==> !accepts(host) }

  /** Decimal digits are worth at least the largest threshold, so an integer of nothing else never ends. */
  lemma {:induction false} DigitsNeverEnd(s: string, i: nat, weight: nat, k: nat, bias: nat)
    requires weight > 0 && forall j :: 0 <= j < |s| ==> '0' <= s[j] <= '9'
    ensures ReadInteger(s, i, weight, k, bias) == None
    decreases |s|
  {
    if s != "" && i <= MAX_INT && DigitValue(s[0]).value <= (MAX_INT - i) / weight {
      var t := Threshold(k, bias);
      Heavier(weight, t);
      DigitsNeverEnd(s[1..], i + DigitValue(s[0]).value * weight, weight * (BASE - t), k + BASE, bias);
    }
  }

  lemma {:induction false} NoHyphen(s: string)
    requires forall j :: 0 <= j < |s| ==> s[j] != '-'
    ensures LastHyphen(s) == 0
    decreases |s|
  {
    if s != "" { NoHyphen(s[..|s| - 1]); }
  }

  lemma DecimalIsUndecodable(n: nat)
    ensures Decode(Decimal(n)) == None
  {
    hide ReadInteger;
    var s := Decimal(n);
    NoHyphen(s);
    DigitsNeverEnd(s, 0, 1, BASE, 72);
    assert s[..0] == "" && Basic("").Some? && Basic("").value == [];
  }

  /** No host whose first label is "xn--" and a number is accepted. */
  lemma NumberedNameIsRefused(accepts: string -> bool, n: nat, domain: string)
    requires Parses(accepts)
    ensures !accepts("xn--" + Decimal(n) + "." + domain)
  {
    hide Decode, Decimal;
    var first := "xn--" + Decimal(n);
    var host := first + "." + domain;
    assert forall i | 0 <= i < |first| :: first[i] != '.' by {
      assert forall i | 4 <= i < |first| :: first[i] == Decimal(n)[i - 4];
    }
    SplitFirst(first, domain, '.');
    assert first + ['.'] + domain == host;
    assert Split(host, '.')[0] == first && first[4..] == Decimal(n) && "xn--" <= first;
    DecimalIsUndecodable(n);
    assert Undecodable(host);
  }
}
