/** Superposition: every field in the simulator is the sum of one contribution
    per source, accumulated in list order. `SumOf` is that sum; the lemmas
    say the order of the list and the way it is split do not matter. */
module Superposition {
  import opened Vectors

  /** The running total after adding `f(s[0])`, ..., `f(s[|s|-1])` to the zero
      vector, in that order. */
  function SumOf<T>(f: T -> Vec3, s: seq<T>): Vec3
    decreases |s|
  {
    if |s| == 0 then Zero else Add(SumOf(f, s[..|s| - 1]), f(s[|s| - 1]))
  }

  /** The scalar counterpart of `SumOf`. */
  function ScalarSumOf<T>(f: T -> real, s: seq<T>): real
    decreases |s|
  {
    if |s| == 0 then 0 as real else ScalarSumOf(f, s[..|s| - 1]) + f(s[|s| - 1])
  }

  lemma AddZero(a: Vec3)
    ensures Add(a, Zero) == a && Add(Zero, a) == a
  {
  }

  lemma AddAssociative(a: Vec3, b: Vec3, c: Vec3)
    ensures Add(Add(a, b), c) == Add(a, Add(b, c))
  {
  }

  lemma AddCommutative(a: Vec3, b: Vec3)
    ensures Add(a, b) == Add(b, a)
  {
  }

  /** The total over a concatenation is the sum of the two totals. */
  lemma {:induction false} SumOfConcat<T>(f: T -> Vec3, a: seq<T>, b: seq<T>)
    ensures SumOf(f, a + b) == Add(SumOf(f, a), SumOf(f, b))
    decreases |b|
  {
    if |b| == 0 {
      assert a + b == a;
      AddZero(SumOf(f, a));
    } else {
      var b' := b[..|b| - 1];
      assert (a + b)[..|a + b| - 1] == a + b';
      assert (a + b)[|a + b| - 1] == b[|b| - 1];
      SumOfConcat(f, a, b');
      AddAssociative(SumOf(f, a), SumOf(f, b'), f(b[|b| - 1]));
    }
  }

  lemma {:induction false} ScalarSumOfConcat<T>(f: T -> real, a: seq<T>, b: seq<T>)
    ensures ScalarSumOf(f, a + b) == ScalarSumOf(f, a) + ScalarSumOf(f, b)
    decreases |b|
  {
    if |b| == 0 {
      assert a + b == a;
    } else {
      var b' := b[..|b| - 1];
      assert (a + b)[..|a + b| - 1] == a + b';
      assert (a + b)[|a + b| - 1] == b[|b| - 1];
      ScalarSumOfConcat(f, a, b');
    }
  }

  /** The total over a one-element list is that element's contribution. */
  lemma SumOfSingleton<T>(f: T -> Vec3, x: T)
    ensures SumOf(f, [x]) == f(x)
  {
    assert [x][..0] == [];
    AddZero(f(x));
  }

  /** Reordering the list does not change the total. */
  lemma {:induction false} SumOfPermutation<T>(f: T -> Vec3, a: seq<T>, b: seq<T>)
    requires multiset(a) == multiset(b)
    ensures SumOf(f, a) == SumOf(f, b)
    decreases |a|
  {
    if |a| == 0 {
      assert |b| == |multiset(b)| == 0;
    } else {
      var x := a[|a| - 1];
      var a' := a[..|a| - 1];
      assert a == a' + [x];
      assert x in multiset(b);
      var j :| 0 <= j < |b| && b[j] == x;
      var b' := b[..j] + b[j + 1..];
      assert b == b[..j] + [x] + b[j + 1..];
      assert multiset(b) == multiset(b[..j]) + multiset{x} + multiset(b[j + 1..]);
      assert multiset(b') == multiset(b[..j]) + multiset(b[j + 1..]);
      assert multiset(a) == multiset(a') + multiset{x};
      assert multiset(a') == multiset(a) - multiset{x};
      assert multiset(b') == multiset(b) - multiset{x};
      SumOfPermutation(f, a', b');
      SumOfConcat(f, b[..j] + [x], b[j + 1..]);
      SumOfConcat(f, b[..j], [x]);
      SumOfConcat(f, b[..j], b[j + 1..]);
      SumOfSingleton(f, x);
      var p, q, r := SumOf(f, b[..j]), f(x), SumOf(f, b[j + 1..]);
      AddAssociative(p, q, r);
      AddCommutative(q, r);
      AddAssociative(p, r, q);
    }
  }

  /** Only non-zero contributions matter: if every element contributes zero,
      the total is zero. */
  lemma {:induction false} SumOfAllZero<T>(f: T -> Vec3, s: seq<T>)
    requires forall i :: 0 <= i < |s| ==> f(s[i]) == Zero
    ensures SumOf(f, s) == Zero
    decreases |s|
  {
    if |s| > 0 {
      SumOfAllZero(f, s[..|s| - 1]);
      AddZero(Zero);
    }
  }

  /** Two contribution functions that agree on every element give the same total. */
  lemma {:induction false} SumOfPointwise<T>(f: T -> Vec3, g: T -> Vec3, s: seq<T>)
    requires forall i :: 0 <= i < |s| ==> f(s[i]) == g(s[i])
    ensures SumOf(f, s) == SumOf(g, s)
    decreases |s|
  {
    if |s| > 0 {
      SumOfPointwise(f, g, s[..|s| - 1]);
    }
  }

  lemma {:induction false} ScalarSumOfAllZero<T>(f: T -> real, s: seq<T>)
    requires forall i :: 0 <= i < |s| ==> f(s[i]) == 0 as real
    ensures ScalarSumOf(f, s) == 0 as real
    decreases |s|
  {
    if |s| > 0 {
      ScalarSumOfAllZero(f, s[..|s| - 1]);
    }
  }
}
