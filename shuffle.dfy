/** The random source and the Fisher–Yates shuffle (`shuffleArray`) of the quiz engine. */
module Shuffle {
  import opened Seqs

  /** A value `Math.random()` can return. */
  type Unit = r: real | 0.0 <= r < 1.0

  /** `Math.floor(r * n)`: an index of an `n`-element array, or 0 when the array is empty. */
  function RandomIndex(r: Unit, n: nat): (j: nat)
    ensures n == 0 ==> j == 0
    ensures n > 0 ==> j < n
  {
    assert 0.0 <= r * (n as real) <= n as real;
    (r * (n as real)).Floor
  }

  /** Every index can be drawn: no outcome of the source is lost by the model. */
  lemma RandomIndexReaches(j: nat, n: nat)
    requires j < n
    ensures (j as real) / (n as real) < 1.0
    ensures RandomIndex((j as real) / (n as real), n) == j
  {
    var r := (j as real) / (n as real);
    assert r * (n as real) == j as real;
  }

  /** The destructuring swap `[a[i], a[j]] = [a[j], a[i]]`. */
  function Swap<T>(s: seq<T>, i: nat, j: nat): (r: seq<T>)
    requires i < |s| && j < |s|
    ensures |r| == |s| && r[i] == s[j] && r[j] == s[i]
    ensures forall k :: 0 <= k < |s| && k != i && k != j ==> r[k] == s[k]
  {
    s[i := s[j]][j := s[i]]
  }

  /** The index the loop of `shuffleArray` swaps with when its counter is `i`. */
  function SwapPartner(rnd: nat -> Unit, i: nat): (j: nat)
    ensures j <= i
  {
    RandomIndex(rnd(i), i + 1)
  }

  /** What the loop of `shuffleArray` makes of `s` in the passes with counter `i`, `i - 1`, ..., 1. */
  function ShuffleFrom<T>(s: seq<T>, i: nat, rnd: nat -> Unit): (r: seq<T>)
    requires i < |s| || i == 0
    ensures |r| == |s|
    decreases i
  {
    if i == 0 then s else ShuffleFrom(Swap(s, i, SwapPartner(rnd, i)), i - 1, rnd)
  }

  /** The result of `shuffleArray(s)` when the `i`-th pass draws `rnd(i)`. */
  function Shuffled<T>(s: seq<T>, rnd: nat -> Unit): (r: seq<T>)
    ensures |r| == |s|
  {
    if |s| == 0 then s else ShuffleFrom(s, |s| - 1, rnd)
  }

  lemma SwapMultiset<T>(s: seq<T>, i: nat, j: nat)
    requires i < |s| && j < |s|
    ensures multiset(Swap(s, i, j)) == multiset(s)
  {
  }

  /** Every pass only swaps, so the passes together permute. */
  lemma {:induction false} ShuffleFromPermutes<T>(s: seq<T>, i: nat, rnd: nat -> Unit)
    requires i < |s| || i == 0
    ensures multiset(ShuffleFrom(s, i, rnd)) == multiset(s)
    decreases i
  {
    if i > 0 {
      var t := Swap(s, i, SwapPartner(rnd, i));
      SwapMultiset(s, i, SwapPartner(rnd, i));
      ShuffleFromPermutes(t, i - 1, rnd);
    }
  }

  /** A shuffle is a permutation of its input. */
  lemma ShuffledPermutes<T>(s: seq<T>, rnd: nat -> Unit)
    ensures multiset(Shuffled(s, rnd)) == multiset(s)
  {
    if |s| > 0 {
      ShuffleFromPermutes(s, |s| - 1, rnd);
    }
  }

  lemma {:induction false} ShuffleFromKeepsDistinctBy<T, K>(s: seq<T>, i: nat, rnd: nat -> Unit, key: T -> K)
    requires i < |s| || i == 0
    requires DistinctBy(s, key)
    ensures DistinctBy(ShuffleFrom(s, i, rnd), key)
    decreases i
  {
    if i > 0 {
      var j := SwapPartner(rnd, i);
      var t := Swap(s, i, j);
      forall a, b | 0 <= a < b < |t|
        ensures key(t[a]) != key(t[b])
      {
        var a' := if a == i then j else if a == j then i else a;
        var b' := if b == i then j else if b == j then i else b;
        assert t[a] == s[a'] && t[b] == s[b'] && a' != b';
        if a' > b' {
          assert key(s[b']) != key(s[a']);
        }
      }
      ShuffleFromKeepsDistinctBy(t, i - 1, rnd, key);
    }
  }

  /** A shuffle of elements with pairwise distinct keys has pairwise distinct keys. */
  lemma ShuffledKeepsDistinctBy<T, K>(s: seq<T>, rnd: nat -> Unit, key: T -> K)
    requires DistinctBy(s, key)
    ensures DistinctBy(Shuffled(s, rnd), key)
  {
    if |s| > 0 {
      ShuffleFromKeepsDistinctBy(s, |s| - 1, rnd, key);
    }
  }

  /** A shuffle of pairwise distinct elements has pairwise distinct elements. */
  lemma ShuffledKeepsDistinct<T>(s: seq<T>, rnd: nat -> Unit)
    requires Distinct(s)
    ensures Distinct(Shuffled(s, rnd))
  {
    var r := Shuffled(s, rnd);
    ShuffledPermutes(s, rnd);
    forall a, b | 0 <= a < b < |r|
      ensures r[a] != r[b]
    {
      if r[a] == r[b] {
        DistinctCountsOnce(s, r[a]);
        TwiceInSeq(r, a, b);
        assert false;
      }
    }
  }

  lemma {:induction false} DistinctCountsOnce<T>(s: seq<T>, x: T)
    requires Distinct(s)
    ensures multiset(s)[x] <= 1
  {
    if s != [] {
      assert s == [s[0]] + s[1..];
      FilterKeepsDistinctPrefix(s);
      DistinctCountsOnce(s[1..], x);
      if x == s[0] {
        assert x !in s[1..];
      }
    }
  }

  lemma FilterKeepsDistinctPrefix<T>(s: seq<T>)
    requires s != [] && Distinct(s)
    ensures Distinct(s[1..])
  {
    forall a, b | 0 <= a < b < |s[1..]|
      ensures s[1..][a] != s[1..][b]
    {
      assert s[1..][a] == s[a + 1] && s[1..][b] == s[b + 1];
    }
  }

  lemma {:induction false} TwiceInSeq<T>(s: seq<T>, a: nat, b: nat)
    requires a < b < |s| && s[a] == s[b]
    ensures multiset(s)[s[a]] >= 2
  {
    if a > 0 {
      assert s == [s[0]] + s[1..];
      TwiceInSeq(s[1..], a - 1, b - 1);
    } else {
      assert s == [s[0]] + s[1..];
      assert s[1..][b - 1] == s[a];
      assert s[a] in multiset(s[1..]);
    }
  }

  /**
   * `shuffleArray`: copies its input into a fresh array and, for `i` from the last index
   * down to 1, swaps entry `i` with the entry at `floor(rnd(i) * (i + 1))`.
   * The input is a value, so it is left as it was.
   */
  method ShuffleArray<T>(input: seq<T>, rnd: nat -> Unit) returns (shuffled: seq<T>)
    ensures shuffled == Shuffled(input, rnd)
    ensures multiset(shuffled) == multiset(input)
  {
    var a := new T[|input|](k requires 0 <= k < |input| => input[k]);
    assert a[..] == input by {
      assert forall k :: 0 <= k < |input| ==> a[k] == input[k];
    }
    var i: int := a.Length - 1;
    while i > 0
      invariant a.Length == |input|
      invariant a.Length == 0 || 0 <= i < a.Length
      invariant a.Length > 0 ==> ShuffleFrom(a[..], i, rnd) == Shuffled(input, rnd)
    {
      var j := SwapPartner(rnd, i);
      ghost var before := a[..];
      a[i], a[j] := a[j], a[i];
      assert a[..] == Swap(before, i, j);
      i := i - 1;
    }
    shuffled := a[..];
    ShuffledPermutes(input, rnd);
  }
}
