/** Demands are totally ordered by creation time and id, so a queue that is not empty has one oldest demand. */
module AuthorityOrder {
  import opened AuthorityTables
  import opened AuthoritySteps

  lemma {:induction false} BeforeTotal(a: string, b: string)
    ensures a == b || Before(a, b) || Before(b, a)
  {
    if a != [] && b != [] && a[0] == b[0] {
      BeforeTotal(a[1..], b[1..]);
      assert a == [a[0]] + a[1..] && b == [b[0]] + b[1..];
    }
  }

  lemma {:induction false} BeforeTransitive(a: string, b: string, c: string)
    requires Before(a, b) && Before(b, c)
    ensures Before(a, c)
  {
    if a != [] && a[0] == b[0] == c[0] { BeforeTransitive(a[1..], b[1..], c[1..]); }
  }

  lemma OlderTransitive(t: Tables, a: string, b: string, c: string)
    requires a in t.demands && b in t.demands && c in t.demands && Older(t, a, b) && Older(t, b, c)
    ensures Older(t, a, c)
  {
    if t.demands[a].createdAt == t.demands[b].createdAt == t.demands[c].createdAt { BeforeTransitive(a, b, c); }
  }

  /** A nonempty set of demands has an oldest one. */
  lemma {:induction false} OldestOf(t: Tables, s: set<string>) returns (d: string)
    requires s != {} && s <= t.demands.Keys
    ensures d in s && forall d' :: d' in s && d' != d ==> Older(t, d, d')
    decreases |s|
  {
    var x :| x in s;
    if s == {x} {
      d := x;
    } else {
      var rest := s - {x};
      var y := OldestOf(t, rest);
      BeforeTotal(x, y);
      if Older(t, x, y) {
        d := x;
        forall d' | d' in s && d' != x && d' != y ensures Older(t, x, d') { OlderTransitive(t, x, y, d'); }
      } else {
        d := y;
      }
    }
  }

  lemma OldestExists(t: Tables, i: Instance, now: int, d: string)
    requires Eligible(t, i, now, d)
    ensures exists d' :: IsOldest(t, i, now, d')
  {
    var s := set x | x in t.demands && Eligible(t, i, now, x);
    assert d in s;
    var o := OldestOf(t, s);
    assert IsOldest(t, i, now, o);
  }

  lemma {:induction false} BeforeAsymmetric(a: string, b: string)
    requires Before(a, b)
    ensures !Before(b, a)
  {
    if a != [] && a[0] == b[0] { BeforeAsymmetric(a[1..], b[1..]); }
  }

  lemma OldestUnique(t: Tables, i: Instance, now: int, d: string, d': string)
    requires IsOldest(t, i, now, d) && IsOldest(t, i, now, d')
    ensures d == d'
  {
    if d != d' && Before(d, d') { BeforeAsymmetric(d, d'); }
    if d != d' && Before(d', d) { BeforeAsymmetric(d', d); }
  }
}
