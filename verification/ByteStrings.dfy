/** Byte strings and the search for a byte in them. */
module ByteStrings {
  type Byte = b: int | 0 <= b < 256
  type Bytes = seq<Byte>

  predicate Lacks(s: Bytes, b: Byte) { forall i :: 0 <= i < |s| ==> s[i] != b }

  /** Like Buffer.indexOf on a slice, with the length standing for "not found". */
  function Find(s: Bytes, b: Byte): (n: nat)
    ensures n <= |s| && (forall i :: 0 <= i < n ==> s[i] != b) && (n < |s| ==> s[n] == b)
  {
    if s == [] || s[0] == b then 0 else Find(s[1..], b) + 1
  }

  lemma FindIs(s: Bytes, b: Byte, n: nat)
    requires n < |s| && Lacks(s[..n], b) && s[n] == b
    ensures Find(s, b) == n
  {
    forall i | 0 <= i < n ensures s[i] != b { assert s[..n][i] == s[i]; }
  }
}
