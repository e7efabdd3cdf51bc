/** Decimal numbers and the splitting of texts. */
module Texts {
  type Digit = d: nat | d < 10

  function Digits(n: nat): (s: seq<Digit>)
    ensures |s| > 0
  {
    if n < 10 then [n] else Digits(n / 10) + [n % 10]
  }

  function Value(s: seq<Digit>): nat { if s == [] then 0 else Value(s[..|s| - 1]) * 10 + s[|s| - 1] }

  lemma {:induction false} ValueOfDigits(n: nat)
    ensures Value(Digits(n)) == n
  {
    var s := Digits(n);
    if n < 10 {
      assert s[..0] == [];
    } else {
      assert s[..|s| - 1] == Digits(n / 10);
      ValueOfDigits(n / 10);
    }
  }

  function DigitChar(d: Digit): char { "0123456789"[d] }

  /** The decimal text of a number. */
  function Decimal(n: nat): (s: string)
    ensures |s| == |Digits(n)| && forall i :: 0 <= i < |s| ==> '0' <= s[i] <= '9'
  {
    var digits := Digits(n);
    seq(|digits|, i requires 0 <= i < |digits| => DigitChar(digits[i]))
  }

  lemma DecimalInjective(a: nat, b: nat)
    requires Decimal(a) == Decimal(b)
    ensures a == b
  {
    var x, y := Digits(a), Digits(b);
    forall i | 0 <= i < |x| ensures x[i] == y[i] {
      assert Decimal(a)[i] == DigitChar(x[i]) && Decimal(b)[i] == DigitChar(y[i]);
    }
    assert x == y;
    ValueOfDigits(a);
    ValueOfDigits(b);
  }

  /** Where a character first stands; the length when it does not. */
  function FirstIndex(s: string, c: char): (n: nat)
    ensures n <= |s| && (n < |s| ==> s[n] == c) && forall i :: 0 <= i < n ==> s[i] != c
  {
    if s == "" || s[0] == c then 0 else FirstIndex(s[1..], c) + 1
  }

  function Split(s: string, c: char): seq<string> {
    var n := FirstIndex(s, c);
    if n == |s| then [s] else [s[..n]] + Split(s[n + 1..], c)
  }

  lemma SplitFirst(part: string, rest: string, c: char)
    requires forall i :: 0 <= i < |part| ==> part[i] != c
    ensures Split(part + [c] + rest, c) == [part] + Split(rest, c)
  {
    var s := part + [c] + rest;
    assert forall i | 0 <= i < |part| :: s[i] == part[i];
    assert s[|part|] == c;
    assert FirstIndex(s, c) == |part|;
    assert s[..|part|] == part && s[|part| + 1..] == rest;
  }

  lemma SplitNone(part: string, c: char)
    requires forall i :: 0 <= i < |part| ==> part[i] != c
    ensures Split(part, c) == [part]
  {
  }
}
