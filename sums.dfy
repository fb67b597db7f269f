/// Finite sums of reals, written the way the source's accumulating loops
/// compute them: element by element from the front.
module Sums {

  /** The sum of all elements of s. */
  function Sum(s: seq<real>): real
    decreases |s|
  {
    if s == [] then 0.0 else Sum(s[..|s| - 1]) + s[|s| - 1]
  }

  /** One more loop step: the sum of a longer prefix. */
  lemma SumPrefixStep(s: seq<real>, k: nat)
    requires k < |s|
    ensures Sum(s[..k + 1]) == Sum(s[..k]) + s[k]
  {
    assert s[..k + 1][..k] == s[..k];
  }

  lemma {:induction false} SumAppend(a: seq<real>, b: seq<real>)
    ensures Sum(a + b) == Sum(a) + Sum(b)
    decreases |b|
  {
    if b == [] {
      assert a + b == a;
    } else {
      var b' := b[..|b| - 1];
      assert (a + b)[..|a + b| - 1] == a + b';
      SumAppend(a, b');
    }
  }

  /** Adding v to one element adds v to the sum. */
  lemma SumUpdate(s: seq<real>, j: nat, v: real)
    requires j < |s|
    ensures Sum(s[j := s[j] + v]) == Sum(s) + v
  {
    var t := s[j := s[j] + v];
    assert s == s[..j] + [s[j]] + s[j + 1..];
    assert t == s[..j] + [s[j] + v] + s[j + 1..];
    SumAppend(s[..j] + [s[j]], s[j + 1..]);
    SumAppend(s[..j], [s[j]]);
    SumAppend(s[..j] + [s[j] + v], s[j + 1..]);
    SumAppend(s[..j], [s[j] + v]);
  }

  lemma {:induction false} SumNonNegative(s: seq<real>)
    requires forall k :: 0 <= k < |s| ==> 0.0 <= s[k]
    ensures 0.0 <= Sum(s)
    decreases |s|
  {
    if s != [] {
      SumNonNegative(s[..|s| - 1]);
    }
  }

  /** A sum of non-negative terms is zero exactly when every term is. */
  lemma {:induction false} SumZeroIff(s: seq<real>)
    requires forall k :: 0 <= k < |s| ==> 0.0 <= s[k]
    ensures Sum(s) == 0.0 <==> forall k :: 0 <= k < |s| ==> s[k] == 0.0
    decreases |s|
  {
    if s != [] {
      var init := s[..|s| - 1];
      SumZeroIff(init);
      SumNonNegative(init);
      if Sum(s) == 0.0 {
        forall k | 0 <= k < |s| ensures s[k] == 0.0 {
          if k < |s| - 1 { assert s[k] == init[k]; }
        }
      }
    }
  }

  lemma {:induction false} SumZeros(n: nat)
    ensures Sum(seq(n, _ => 0.0)) == 0.0
  {
    if n > 0 {
      assert seq(n, _ => 0.0)[..n - 1] == seq(n - 1, _ => 0.0);
      SumZeros(n - 1);
    }
  }

  /** Moving a prefix to the back does not change the sum. */
  lemma SumRotation(s: seq<real>, m: nat)
    requires m <= |s|
    ensures Sum(s[m..] + s[..m]) == Sum(s)
  {
    assert s == s[..m] + s[m..];
    SumAppend(s[..m], s[m..]);
    SumAppend(s[m..], s[..m]);
  }
}
