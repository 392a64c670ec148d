/** Sequence operations shared by the selection code: order-preserving filtering,
    distinct keys, and `random.shuffle` as CPython implements it (a Fisher–Yates pass from
    the back) with the random generator replaced by a stream of draws. */
module Seqs {

  /** A list comprehension `[x for x in s if keep(x)]`: the kept elements, in order. */
  function Filter<T(!new)>(s: seq<T>, keep: T -> bool): (r: seq<T>)
    ensures |r| <= |s|
    ensures forall x :: x in r <==> x in s && keep(x)
  {
    if s == [] then []
    else Filter(s[..|s| - 1], keep) + (if keep(s[|s| - 1]) then [s[|s| - 1]] else [])
  }

  /** Filtering distributes over concatenation: the kept elements keep their relative order. */
  lemma {:induction false} FilterSplice<T(!new)>(a: seq<T>, b: seq<T>, keep: T -> bool)
    ensures Filter(a + b, keep) == Filter(a, keep) + Filter(b, keep)
    decreases |b|
  {
    if b == [] {
      assert a + b == a;
    } else {
      var n := |b| - 1;
      assert (a + b)[..|a + b| - 1] == a + b[..n];
      FilterSplice(a, b[..n], keep);
      Assoc(Filter(a, keep), Filter(b[..n], keep), if keep(b[n]) then [b[n]] else []);
    }
  }

  /** A filter that keeps every element is the identity. */
  lemma {:induction false} FilterKeepsAll<T(!new)>(s: seq<T>, keep: T -> bool)
    requires forall x :: x in s ==> keep(x)
    ensures Filter(s, keep) == s
  {
    if s != [] {
      FilterKeepsAll(s[..|s| - 1], keep);
      assert s == s[..|s| - 1] + [s[|s| - 1]];
    }
  }

  /** Filtering keeps keys distinct. */
  lemma {:induction false} FilterKeepsDistinct<T(!new), K>(s: seq<T>, keep: T -> bool, key: T -> K)
    requires DistinctBy(s, key)
    ensures DistinctBy(Filter(s, keep), key)
  {
    if s != [] {
      var init := s[..|s| - 1];
      assert DistinctBy(init, key);
      FilterKeepsDistinct(init, keep, key);
      var f := Filter(init, keep);
      if keep(s[|s| - 1]) {
        forall i | 0 <= i < |f| ensures key(f[i]) != key(s[|s| - 1]) {
          assert f[i] in init;
          var k :| 0 <= k < |init| && init[k] == f[i];
        }
      }
    }
  }

  /** No two elements of `s` share a key. */
  ghost predicate DistinctBy<T, K>(s: seq<T>, key: T -> K) {
    forall i, j :: 0 <= i < j < |s| ==> key(s[i]) != key(s[j])
  }

  /** Two positions holding `x` make its multiplicity at least two. */
  lemma {:induction false} TwoPositionsCount<T>(s: seq<T>, i: nat, j: nat)
    requires i < j < |s| && s[i] == s[j]
    ensures multiset(s)[s[i]] >= 2
  {
    assert s == s[..j] + [s[j]] + s[j + 1..];
    assert s[i] in multiset(s[..j]);
  }

  /** Multiplicity two or more means two distinct positions. */
  lemma {:induction false} CountTwoPositions<T>(s: seq<T>, x: T) returns (i: nat, j: nat)
    requires multiset(s)[x] >= 2
    ensures i < j < |s| && s[i] == x && s[j] == x
  {
    assert s == [s[0]] + s[1..];
    if s[0] == x {
      assert x in multiset(s[1..]);
      var k :| 0 <= k < |s[1..]| && s[1..][k] == x;
      i, j := 0, k + 1;
    } else {
      var a, b := CountTwoPositions(s[1..], x);
      i, j := a + 1, b + 1;
    }
  }

  /** A permutation of a sequence with distinct keys has distinct keys. */
  lemma PermutationKeepsDistinct<T, K>(s: seq<T>, r: seq<T>, key: T -> K)
    requires multiset(r) == multiset(s) && DistinctBy(s, key)
    ensures DistinctBy(r, key)
  {
    forall i, j | 0 <= i < j < |r| ensures key(r[i]) != key(r[j]) {
      if r[i] == r[j] {
        TwoPositionsCount(r, i, j);
        var p, q := CountTwoPositions(s, r[i]);
        assert false;
      } else {
        assert r[i] in multiset(s) && r[j] in multiset(s);
        var p :| 0 <= p < |s| && s[p] == r[i];
        var q :| 0 <= q < |s| && s[q] == r[j];
        assert p != q;
        assert key(s[p]) != key(s[q]) by {
          if p < q { } else { }
        }
      }
    }
  }

  /** Exchanging two positions. */
  function Swap<T>(s: seq<T>, i: nat, j: nat): (r: seq<T>)
    requires i < |s| && j < |s|
    ensures |r| == |s| && multiset(r) == multiset(s)
    ensures r[i] == s[j] && r[j] == s[i]
    ensures forall k :: 0 <= k < |s| && k != i && k != j ==> r[k] == s[k]
  {
    s[i := s[j]][j := s[i]]
  }

  /** `randbelow(n)` fed from the stream: the next draw reduced modulo `n` (0 once the stream is spent). */
  function RandBelow(draws: seq<nat>, n: nat): (j: nat)
    requires n > 0
    ensures j < n
  {
    if draws == [] then 0 else draws[0] % n
  }

  /** The loop `for i in reversed(range(1, i + 1)): j = randbelow(i + 1); x[i], x[j] = x[j], x[i]`. */
  function ShuffleDown<T>(s: seq<T>, i: int, draws: seq<nat>): (r: seq<T>)
    requires i < |s|
    ensures |r| == |s| && multiset(r) == multiset(s)
    decreases i
  {
    if i < 1 then s
    else
      var j := RandBelow(draws, i + 1);
      ShuffleDown(Swap(s, i, j), i - 1, if draws == [] then [] else draws[1..])
  }

  /** `random.shuffle(s)`: some permutation of `s`, whichever draws the generator makes. */
  function Shuffle<T>(s: seq<T>, draws: seq<nat>): (r: seq<T>)
    ensures |r| == |s| && multiset(r) == multiset(s)
  {
    ShuffleDown(s, |s| - 1, draws)
  }

  /** Shuffling keeps keys distinct. */
  lemma ShuffleKeepsDistinct<T, K>(s: seq<T>, draws: seq<nat>, key: T -> K)
    requires DistinctBy(s, key)
    ensures DistinctBy(Shuffle(s, draws), key)
  {
    PermutationKeepsDistinct(s, Shuffle(s, draws), key);
  }

  /** Every element of a prefix of a permutation of `s` is an element of `s`. */
  lemma PrefixOfPermutation<T>(s: seq<T>, r: seq<T>, n: nat)
    requires multiset(r) == multiset(s) && n <= |r|
    ensures multiset(r[..n]) <= multiset(s)
    ensures forall x :: x in r[..n] ==> x in s
  {
    assert r == r[..n] + r[n..];
    assert multiset(r) == multiset(r[..n]) + multiset(r[n..]);
    forall x | x in r[..n] ensures x in s {
      assert x in multiset(r[..n]);
      assert x in multiset(s);
    }
  }

  /** `[y for x in xs for y in f(x)]`: each element's results, in order. */
  function FlatMap<A, B>(xs: seq<A>, f: A -> seq<B>): seq<B> {
    if xs == [] then [] else FlatMap(xs[..|xs| - 1], f) + f(xs[|xs| - 1])
  }

  /** `[f(x) for x in xs]`. */
  function MapSeq<A, B>(xs: seq<A>, f: A -> B): (r: seq<B>)
    ensures |r| == |xs| && forall i :: 0 <= i < |xs| ==> r[i] == f(xs[i])
  {
    seq(|xs|, i requires 0 <= i < |xs| => f(xs[i]))
  }

  /** A non-empty sequence is its front followed by its last element. */
  lemma InitLast<A>(xs: seq<A>)
    requires xs != []
    ensures xs == xs[..|xs| - 1] + [xs[|xs| - 1]]
  {
  }

  /** Mapping one more element appends its image. */
  lemma MapSeqSnoc<A, B>(xs: seq<A>, i: nat, f: A -> B)
    requires i < |xs|
    ensures MapSeq(xs[..i + 1], f) == MapSeq(xs[..i], f) + [f(xs[i])]
  {
    var a := MapSeq(xs[..i + 1], f);
    var b := MapSeq(xs[..i], f) + [f(xs[i])];
    assert |a| == |b|;
    forall m | 0 <= m < |a|
      ensures a[m] == b[m]
    {
      assert xs[..i + 1][m] == xs[m];
      if m < i {
        assert xs[..i][m] == xs[m];
      }
    }
  }

  /** A non-empty sequence is its front followed by its last element. */
  lemma SplitLast<T>(s: seq<T>)
    requires s != []
    ensures s[..|s| - 1] + [s[|s| - 1]] == s
  {
  }

  /** Concatenation is associative. */
  lemma Assoc<T>(a: seq<T>, b: seq<T>, c: seq<T>)
    ensures a + b + c == a + (b + c)
  {
  }

  /** The results of one more element come last. */
  lemma FlatMapSnoc<A, B>(xs: seq<A>, i: nat, f: A -> seq<B>)
    requires i < |xs|
    ensures FlatMap(xs[..i + 1], f) == FlatMap(xs[..i], f) + f(xs[i])
  {
    assert xs[..i + 1][..i] == xs[..i];
  }

  /** What holds of every result of every element holds of every element of the whole. */
  lemma {:induction false} FlatMapAll<A, B>(xs: seq<A>, f: A -> seq<B>, p: B -> bool)
    requires forall i :: 0 <= i < |xs| ==> forall k :: 0 <= k < |f(xs[i])| ==> p(f(xs[i])[k])
    ensures forall k :: 0 <= k < |FlatMap(xs, f)| ==> p(FlatMap(xs, f)[k])
  {
    if xs != [] {
      var init := xs[..|xs| - 1];
      assert forall i :: 0 <= i < |init| ==> init[i] == xs[i];
      FlatMapAll(init, f, p);
      var r := FlatMap(xs, f);
      forall k | 0 <= k < |r|
        ensures p(r[k])
      {
        if k >= |FlatMap(init, f)| {
          assert r[k] == f(xs[|xs| - 1])[k - |FlatMap(init, f)|];
        }
      }
    }
  }

  /** Flattening distributes over concatenation. */
  lemma {:induction false} FlatMapSplice<A, B>(a: seq<A>, b: seq<A>, f: A -> seq<B>)
    ensures FlatMap(a + b, f) == FlatMap(a, f) + FlatMap(b, f)
    decreases |b|
  {
    if b == [] {
      assert a + b == a;
    } else {
      var n := |b| - 1;
      assert (a + b)[..|a + b| - 1] == a + b[..n];
      FlatMapSplice(a, b[..n], f);
    }
  }

  /** One element with a result is enough for a result. */
  lemma {:induction false} FlatMapNonEmpty<A, B>(xs: seq<A>, f: A -> seq<B>, i: nat)
    requires i < |xs| && f(xs[i]) != []
    ensures FlatMap(xs, f) != []
  {
    if i < |xs| - 1 {
      FlatMapNonEmpty(xs[..|xs| - 1], f, i);
    }
  }
}
