/** Cutting texts at a separator and comparing them. */
module Text {

  /** A text is cut by the first occurrence of a character in one way only. */
  lemma SplitsOnce(x: string, y: string, c: char, p: string, q: string)
    requires c !in x && c !in y
    requires x + [c] + p == y + [c] + q
    ensures x == y && p == q
  {
    var s, t := x + [c] + p, y + [c] + q;
    assert forall i | 0 <= i < |x| :: s[i] == x[i];
    assert forall i | 0 <= i < |y| :: t[i] == y[i];
    assert s[|x|] == c && t[|y|] == c;
    assert |x| == |y|;
    assert x == s[..|x|] && y == t[..|y|];
    assert p == s[|x| + 1..] && q == t[|y| + 1..];
  }

  /** Strict lexicographic order. */
  predicate Less(a: string, b: string) {
    b != "" && (a == "" || a[0] < b[0] || (a[0] == b[0] && Less(a[1..], b[1..])))
  }

  lemma {:induction false} LessIsTotal(a: string, b: string)
    ensures Less(a, b) || a == b || Less(b, a)
    ensures !(Less(a, b) && (a == b || Less(b, a)))
  {
    if a != "" && b != "" {
      LessIsTotal(a[1..], b[1..]);
      if a[0] == b[0] && a[1..] == b[1..] {
        assert a == [a[0]] + a[1..] && b == [b[0]] + b[1..];
      }
    }
    if a == b && a != "" { LessIsTotal(a[1..], b[1..]); }
  }

  lemma {:induction false} LessIsTransitive(a: string, b: string, c: string)
    requires Less(a, b) && Less(b, c)
    ensures Less(a, c)
  {
    if a != "" && a[0] == b[0] == c[0] { LessIsTransitive(a[1..], b[1..], c[1..]); }
  }

  /** The order of texts: a proper beginning comes first, and otherwise the first difference
      decides. */
  lemma {:induction false} LessExactly(a: string, b: string)
    ensures Less(a, b) <==>
      a < b || exists k :: 0 <= k < |a| && k < |b| && a[..k] == b[..k] && a[k] < b[k]
  {
    if a != "" && b != "" {
      LessExactly(a[1..], b[1..]);
      if a[0] == b[0] {
        assert a < b <==> a[1..] < b[1..] by {
          assert a == [a[0]] + a[1..] && b == [b[0]] + b[1..];
        }
        FirstDifference(a, b);
      } else if a[0] < b[0] {
        assert a[..0] == b[..0];
      } else {
        assert forall k | 0 < k < |a| && k < |b| && a[..k] == b[..k] :: a[..k][0] == b[..k][0];
      }
    }
  }

  lemma FirstDifference(a: string, b: string)
    requires a != "" && b != "" && a[0] == b[0]
    ensures (exists k :: 0 <= k < |a| && k < |b| && a[..k] == b[..k] && a[k] < b[k])
       <==> exists k :: 0 <= k < |a[1..]| && k < |b[1..]| && a[1..][..k] == b[1..][..k] && a[1..][k] < b[1..][k]
  {
    if k :| 0 <= k < |a| && k < |b| && a[..k] == b[..k] && a[k] < b[k] {
      assert a[1..][..k - 1] == a[..k][1..] && b[1..][..k - 1] == b[..k][1..];
      assert a[1..][k - 1] < b[1..][k - 1];
    }
    if k :| 0 <= k < |a[1..]| && k < |b[1..]| && a[1..][..k] == b[1..][..k] && a[1..][k] < b[1..][k] {
      assert a[..k + 1] == [a[0]] + a[1..][..k] && b[..k + 1] == [b[0]] + b[1..][..k];
      assert a[k + 1] < b[k + 1];
    }
  }
}
