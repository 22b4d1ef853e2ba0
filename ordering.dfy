/** Python's ordering of strings: lexicographic by code point, a proper
    prefix first. Dafny's `<` on sequences means "proper prefix", so the
    order is defined here. */
module Ordering {

  /** `a <= b` in Python's string order. */
  function NotAfter(a: string, b: string): (r: bool)
    decreases |a|
    ensures a <= b ==> r
    ensures r && |a| > 0 ==> |b| > 0 && a[0] <= b[0]
  {
    |a| == 0 || (|b| > 0 && (a[0] < b[0] || (a[0] == b[0] && NotAfter(a[1..], b[1..]))))
  }

  /** Any two strings are comparable. */
  lemma {:induction false} NotAfterTotal(a: string, b: string)
    ensures NotAfter(a, b) || NotAfter(b, a)
    decreases |a|
  {
    if |a| > 0 && |b| > 0 && a[0] == b[0] {
      NotAfterTotal(a[1..], b[1..]);
    }
  }

  lemma {:induction false} NotAfterTransitive(a: string, b: string, c: string)
    requires NotAfter(a, b) && NotAfter(b, c)
    ensures NotAfter(a, c)
    decreases |a|
  {
    if |a| > 0 && a[0] == b[0] && b[0] == c[0] {
      NotAfterTransitive(a[1..], b[1..], c[1..]);
    }
  }

  lemma {:induction false} NotAfterAntisymmetric(a: string, b: string)
    requires NotAfter(a, b) && NotAfter(b, a)
    ensures a == b
    decreases |a|
  {
    if |a| > 0 {
      NotAfterAntisymmetric(a[1..], b[1..]);
    }
  }

  /** `a` and `b` agree before position `k`, where `a` has the lower character. */
  predicate LowerAt(a: string, b: string, k: nat) {
    k < |a| && k < |b| && a[..k] == b[..k] && a[k] < b[k]
  }

  /** The textbook description of lexicographic order: `a` is a prefix of
      `b`, or the two agree up to some position where `a` has the lower
      character. */
  lemma NotAfterIsLexicographic(a: string, b: string)
    ensures NotAfter(a, b) <==> a <= b || exists k: nat :: LowerAt(a, b, k)
  {
    if NotAfter(a, b) {
      NotAfterOnlyIfLexicographic(a, b);
    }
    if a <= b {
      PrefixNotAfter(a, b);
    }
    if exists k: nat :: LowerAt(a, b, k) {
      var k: nat :| LowerAt(a, b, k);
      LowerAtNotAfter(a, b, k);
    }
  }

  lemma {:induction false} NotAfterOnlyIfLexicographic(a: string, b: string)
    requires NotAfter(a, b)
    ensures a <= b || exists k: nat :: LowerAt(a, b, k)
    decreases |a|
  {
    if |a| > 0 {
      if a[0] < b[0] {
        assert LowerAt(a, b, 0);
      } else {
        NotAfterOnlyIfLexicographic(a[1..], b[1..]);
        if a[1..] <= b[1..] {
          assert a == [a[0]] + a[1..] && b[..|a|] == [b[0]] + b[1..][..|a| - 1];
        } else {
          var k: nat :| LowerAt(a[1..], b[1..], k);
          assert a[..k + 1] == [a[0]] + a[1..][..k];
          assert b[..k + 1] == [b[0]] + b[1..][..k];
          assert LowerAt(a, b, k + 1);
        }
      }
    }
  }

  lemma {:induction false} PrefixNotAfter(a: string, b: string)
    requires a <= b
    ensures NotAfter(a, b)
    decreases |a|
  {
    if |a| > 0 {
      assert a[1..] <= b[1..];
      PrefixNotAfter(a[1..], b[1..]);
    }
  }

  lemma {:induction false} LowerAtNotAfter(a: string, b: string, k: nat)
    requires LowerAt(a, b, k)
    ensures NotAfter(a, b)
    decreases k
  {
    if k > 0 {
      assert a[0] == a[..k][0] && b[0] == b[..k][0];
      assert a[1..][..k - 1] == a[..k][1..] && b[1..][..k - 1] == b[..k][1..];
      LowerAtNotAfter(a[1..], b[1..], k - 1);
    }
  }
}
