/**
 * The array idioms the application is written in, as functions on
 * sequences: `reduce` as a left-to-right sum, `filter` on a key, `map` that
 * rewrites the records carrying a key, and the first-seen key order of a
 * JavaScript object filled in a `forEach`. The lemmas are the algebra the
 * aggregation proofs rest on.
 */
module SeqOps {

  /** `s.reduce((acc, x) => acc + f(x), 0)`: the elements are added in order. */
  function SumOf<T>(s: seq<T>, f: T -> int): int
  {
    if s == [] then 0 else SumOf(s[..|s| - 1], f) + f(s[|s| - 1])
  }

  /** `s.filter(x => key(x) === k)`. */
  function Matching<T, K(==)>(s: seq<T>, key: T -> K, k: K): (r: seq<T>)
    ensures |r| <= |s|
    ensures forall i :: 0 <= i < |r| ==> key(r[i]) == k
    ensures forall i :: 0 <= i < |s| && key(s[i]) == k ==> s[i] in r
  {
    if s == [] then []
    else
      var p, y := s[..|s| - 1], s[|s| - 1];
      assert s == p + [y];
      Matching(p, key, k) + (if key(y) == k then [y] else [])
  }

  /** `s.filter(x => key(x) !== k)`: removal of every element carrying key `k`. */
  function Without<T, K(==)>(s: seq<T>, key: T -> K, k: K): (r: seq<T>)
    ensures |r| <= |s|
    ensures forall i :: 0 <= i < |r| ==> key(r[i]) != k
    ensures forall i :: 0 <= i < |s| && key(s[i]) != k ==> s[i] in r
  {
    if s == [] then []
    else
      var p, y := s[..|s| - 1], s[|s| - 1];
      assert s == p + [y];
      Without(p, key, k) + (if key(y) != k then [y] else [])
  }

  /** `s.map(x => key(x) === k ? f(x) : x)`. */
  function UpdateWhere<T, K(==)>(s: seq<T>, key: T -> K, k: K, f: T -> T): seq<T>
  {
    seq(|s|, i requires 0 <= i < |s| => if key(s[i]) == k then f(s[i]) else s[i])
  }

  predicate Distinct<K(==)>(ks: seq<K>)
  {
    forall i, j :: 0 <= i < j < |ks| ==> ks[i] != ks[j]
  }

  /**
   * The keys of `s` in the order they are first met, which is the order in
   * which `Object.keys` lists the properties of an object filled by
   * `s.forEach(x => o[key(x)] = ...)`.
   */
  function FirstSeen<T, K(==)>(s: seq<T>, key: T -> K): (r: seq<K>)
    ensures Distinct(r)
    ensures forall i :: 0 <= i < |s| ==> key(s[i]) in r
  {
    if s == [] then []
    else
      var p := FirstSeen(s[..|s| - 1], key);
      assert s == s[..|s| - 1] + [s[|s| - 1]];
      if key(s[|s| - 1]) in p then p else p + [key(s[|s| - 1])]
  }

  /** The sum, over the keys `ks`, of the elements of `s` carrying each key. */
  function KeyedSum<T, K(==)>(ks: seq<K>, s: seq<T>, key: T -> K, f: T -> int): int
  {
    if ks == [] then 0
    else KeyedSum(ks[..|ks| - 1], s, key, f) + SumOf(Matching(s, key, ks[|ks| - 1]), f)
  }

  lemma SumOfSnoc<T>(s: seq<T>, x: T, f: T -> int)
    ensures SumOf(s + [x], f) == SumOf(s, f) + f(x)
  {
    assert (s + [x])[..|s|] == s;
  }

  /** One more element adds its term to the sum of its own key and nothing to the others. */
  lemma MatchingSumSnoc<T, K>(s: seq<T>, x: T, key: T -> K, k: K, f: T -> int)
    ensures SumOf(Matching(s + [x], key, k), f)
         == SumOf(Matching(s, key, k), f) + (if key(x) == k then f(x) else 0)
  {
    assert (s + [x])[..|s|] == s;
    var m := Matching(s, key, k);
    if key(x) == k {
      assert Matching(s + [x], key, k) == m + [x];
      SumOfSnoc(m, x, f);
    } else {
      assert Matching(s + [x], key, k) == m + [];
      assert m + [] == m;
    }
  }

  lemma {:induction false} SumOfAppend<T>(a: seq<T>, b: seq<T>, f: T -> int)
    ensures SumOf(a + b, f) == SumOf(a, f) + SumOf(b, f)
  {
    if b == [] {
      assert a + b == a;
    } else {
      var b' := b[..|b| - 1];
      SumOfAppend(a, b', f);
      assert a + b == (a + b') + [b[|b| - 1]];
      SumOfSnoc(a + b', b[|b| - 1], f);
    }
  }

  /** A sum of non-negative terms is non-negative and at least each term. */
  lemma {:induction false} SumOfNonNegative<T>(s: seq<T>, f: T -> int)
    requires forall x :: x in s ==> f(x) >= 0
    ensures SumOf(s, f) >= 0
    ensures forall x :: x in s ==> f(x) <= SumOf(s, f)
  {
    if s != [] {
      var s' := s[..|s| - 1];
      assert forall x :: x in s' ==> x in s;
      SumOfNonNegative(s', f);
      assert s == s' + [s[|s| - 1]];
    }
  }

  /** Adding in any order gives the same total: a sum depends only on the multiset. */
  lemma {:induction false} SumOfPermutation<T>(a: seq<T>, b: seq<T>, f: T -> int)
    requires multiset(a) == multiset(b)
    ensures SumOf(a, f) == SumOf(b, f)
  {
    if a == [] {
      assert |b| == |multiset(b)| == 0;
    } else {
      var a' := a[..|a| - 1];
      var x := a[|a| - 1];
      assert a == a' + [x];
      assert multiset(a) == multiset(a') + multiset{x};
      assert x in multiset(b);
      var j :| 0 <= j < |b| && b[j] == x;
      var b' := b[..j] + b[j + 1..];
      RemoveAtMultiset(b, j);
      RemoveAtSum(b, j, f);
      assert multiset(a') == multiset(a) - multiset{x};
      SumOfPermutation(a', b', f);
      SumOfSnoc(a', x, f);
    }
  }

  /** Taking out the element at `j` takes it out of the multiset ... */
  lemma RemoveAtMultiset<T>(b: seq<T>, j: nat)
    requires j < |b|
    ensures multiset(b[..j] + b[j + 1..]) == multiset(b) - multiset{b[j]}
  {
    assert b == b[..j] + [b[j]] + b[j + 1..];
    assert multiset(b) == multiset(b[..j]) + multiset{b[j]} + multiset(b[j + 1..]);
  }

  /** ... and its term out of the sum. */
  lemma RemoveAtSum<T>(b: seq<T>, j: nat, f: T -> int)
    requires j < |b|
    ensures SumOf(b, f) == SumOf(b[..j] + b[j + 1..], f) + f(b[j])
  {
    PrefixSnoc(b, j);
    assert b == b[..j + 1] + b[j + 1..];
    SumOfAppend(b[..j + 1], b[j + 1..], f);
    SumOfSnoc(b[..j], b[j], f);
    SumOfAppend(b[..j], b[j + 1..], f);
  }

  /** Summing a pointwise sum is summing each part. */
  lemma {:induction false} SumOfPointwise<T>(s: seq<T>, f: T -> int, g: T -> int, h: T -> int)
    requires forall x :: h(x) == f(x) + g(x)
    ensures SumOf(s, h) == SumOf(s, f) + SumOf(s, g)
  {
    if s != [] {
      SumOfPointwise(s[..|s| - 1], f, g, h);
    }
  }

  /** A sum of equal terms is their number times the term. */
  lemma {:induction false} SumOfConstant<T>(s: seq<T>, f: T -> int, v: int)
    requires forall i :: 0 <= i < |s| ==> f(s[i]) == v
    ensures SumOf(s, f) == |s| * v
  {
    if s != [] {
      SumOfConstant(s[..|s| - 1], f, v);
    }
  }

  /** Sums agree when their terms agree position by position. */
  lemma {:induction false} SumOfCongruent<T, U>(a: seq<T>, f: T -> int, b: seq<U>, g: U -> int)
    requires |a| == |b|
    requires forall i :: 0 <= i < |a| ==> f(a[i]) == g(b[i])
    ensures SumOf(a, f) == SumOf(b, g)
  {
    if a != [] {
      SumOfCongruent(a[..|a| - 1], f, b[..|b| - 1], g);
    }
  }

  /** Filtering distributes over concatenation: the kept elements keep their order. */
  lemma {:induction false} MatchingAppend<T, K>(a: seq<T>, b: seq<T>, key: T -> K, k: K)
    ensures Matching(a + b, key, k) == Matching(a, key, k) + Matching(b, key, k)
  {
    if b == [] {
      assert a + b == a;
    } else {
      var b' := b[..|b| - 1];
      MatchingAppend(a, b', key, k);
      assert (a + b)[..|a + b| - 1] == a + b';
    }
  }

  /** Removal distributes over concatenation: the survivors keep their order. */
  lemma {:induction false} WithoutAppend<T, K>(a: seq<T>, b: seq<T>, key: T -> K, k: K)
    ensures Without(a + b, key, k) == Without(a, key, k) + Without(b, key, k)
  {
    if b == [] {
      assert a + b == a;
    } else {
      var b' := b[..|b| - 1];
      WithoutAppend(a, b', key, k);
      assert (a + b)[..|a + b| - 1] == a + b';
    }
  }

  /**
   * Removal by key conserves the elements and their sum: what is removed is
   * exactly what carries the key.
   */
  lemma {:induction false} SplitByKey<T, K>(s: seq<T>, key: T -> K, k: K, f: T -> int)
    ensures |Matching(s, key, k)| + |Without(s, key, k)| == |s|
    ensures SumOf(Matching(s, key, k), f) + SumOf(Without(s, key, k), f) == SumOf(s, f)
  {
    if s != [] {
      var s' := s[..|s| - 1];
      var x := s[|s| - 1];
      var m', w' := Matching(s', key, k), Without(s', key, k);
      SplitByKey(s', key, k, f);
      if key(x) == k {
        assert Matching(s, key, k) == m' + [x];
        assert Without(s, key, k) == w' + [];
        SumOfSnoc(m', x, f);
        assert w' + [] == w';
      } else {
        assert Matching(s, key, k) == m' + [];
        assert Without(s, key, k) == w' + [x];
        SumOfSnoc(w', x, f);
        assert m' + [] == m';
      }
    }
  }

  /** Removing a key no element carries changes nothing. */
  lemma {:induction false} WithoutAbsent<T, K>(s: seq<T>, key: T -> K, k: K)
    requires forall i :: 0 <= i < |s| ==> key(s[i]) != k
    ensures Without(s, key, k) == s
  {
    if s != [] {
      var s' := s[..|s| - 1];
      WithoutAbsent(s', key, k);
      assert s == s' + [s[|s| - 1]];
    }
  }

  /** No element carries the key: nothing matches. */
  lemma MatchingAbsent<T, K>(s: seq<T>, key: T -> K, k: K)
    requires forall i :: 0 <= i < |s| ==> key(s[i]) != k
    ensures Matching(s, key, k) == []
  {
  }

  lemma MatchingSnoc<T, K>(s: seq<T>, x: T, key: T -> K, k: K)
    ensures Matching(s + [x], key, k) == Matching(s, key, k) + (if key(x) == k then [x] else [])
    ensures Without(s + [x], key, k) == Without(s, key, k) + (if key(x) != k then [x] else [])
  {
    assert (s + [x])[..|s|] == s;
  }

  lemma UpdateWhereSnoc<T, K>(s: seq<T>, x: T, key: T -> K, k: K, f: T -> T)
    ensures UpdateWhere(s + [x], key, k, f) == UpdateWhere(s, key, k, f) + [if key(x) == k then f(x) else x]
  {
  }

  /**
   * A rewrite that keeps the key touches the elements carrying `k` and no
   * other: the other elements stay as and where they were, and the ones
   * carrying `k` are rewritten in place.
   */
  lemma {:induction false} UpdateWhereFrame<T, K>(s: seq<T>, key: T -> K, k: K, f: T -> T)
    requires forall x :: key(f(x)) == key(x)
    ensures Without(UpdateWhere(s, key, k, f), key, k) == Without(s, key, k)
    ensures Matching(UpdateWhere(s, key, k, f), key, k) == UpdateWhere(Matching(s, key, k), key, k, f)
  {
    if s != [] {
      var s', x := s[..|s| - 1], s[|s| - 1];
      assert s == s' + [x];
      var u' := UpdateWhere(s', key, k, f);
      var y := if key(x) == k then f(x) else x;
      UpdateWhereFrame(s', key, k, f);
      UpdateWhereSnoc(s', x, key, k, f);
      MatchingSnoc(s', x, key, k);
      MatchingSnoc(u', y, key, k);
      if key(x) == k {
        UpdateWhereSnoc(Matching(s', key, k), x, key, k, f);
      } else {
        assert UpdateWhere(Matching(s', key, k) + [], key, k, f) == UpdateWhere(Matching(s', key, k), key, k, f);
      }
    }
  }

  /**
   * A rewrite that keeps a second key `key2` commutes with filtering on it:
   * the elements carrying `k2` afterwards are the rewritten elements that
   * carried it before.
   */
  lemma {:induction false} UpdateWhereMatching<T, K, K2>(s: seq<T>, key: T -> K, k: K, f: T -> T, key2: T -> K2, k2: K2)
    requires forall x :: key2(f(x)) == key2(x)
    ensures Matching(UpdateWhere(s, key, k, f), key2, k2) == UpdateWhere(Matching(s, key2, k2), key, k, f)
  {
    if s != [] {
      var s', x := s[..|s| - 1], s[|s| - 1];
      assert s == s' + [x];
      var y := if key(x) == k then f(x) else x;
      UpdateWhereMatching(s', key, k, f, key2, k2);
      UpdateWhereSnoc(s', x, key, k, f);
      MatchingSnoc(s', x, key2, k2);
      MatchingSnoc(UpdateWhere(s', key, k, f), y, key2, k2);
      if key2(x) == k2 {
        UpdateWhereSnoc(Matching(s', key2, k2), x, key, k, f);
      } else {
        assert Matching(s', key2, k2) + [] == Matching(s', key2, k2);
      }
    }
  }

  /** Rewriting a key no element carries changes nothing. */
  lemma UpdateWhereAbsent<T, K>(s: seq<T>, key: T -> K, k: K, f: T -> T)
    requires forall i :: 0 <= i < |s| ==> key(s[i]) != k
    ensures UpdateWhere(s, key, k, f) == s
  {
  }

  /**
   * The sum after a key-preserving rewrite: the terms of the elements carrying
   * `k` are replaced by the terms of their rewritten forms.
   */
  lemma UpdateWhereSum<T, K>(s: seq<T>, key: T -> K, k: K, f: T -> T, g: T -> int)
    requires forall x :: key(f(x)) == key(x)
    ensures SumOf(UpdateWhere(s, key, k, f), g)
         == SumOf(s, g) - SumOf(Matching(s, key, k), g) + SumOf(UpdateWhere(Matching(s, key, k), key, k, f), g)
  {
    UpdateWhereFrame(s, key, k, f);
    SplitByKey(s, key, k, g);
    SplitByKey(UpdateWhere(s, key, k, f), key, k, g);
  }

  /**
   * A rewrite that moves each term by `d` moves the sum by the `d` of the
   * elements carrying `k`, the only ones rewritten.
   */
  lemma {:induction false} UpdateWhereShift<T, K>(s: seq<T>, key: T -> K, k: K, f: T -> T, g: T -> int, d: T -> int)
    requires forall x :: g(f(x)) == g(x) + d(x)
    ensures SumOf(UpdateWhere(s, key, k, f), g) == SumOf(s, g) + SumOf(Matching(s, key, k), d)
  {
    if s != [] {
      var s', x := s[..|s| - 1], s[|s| - 1];
      assert s == s' + [x];
      UpdateWhereShift(s', key, k, f, g, d);
      UpdateWhereSnoc(s', x, key, k, f);
      MatchingSnoc(s', x, key, k);
      SumOfSnoc(UpdateWhere(s', key, k, f), if key(x) == k then f(x) else x, g);
      SumOfSnoc(s', x, g);
      if key(x) == k {
        SumOfSnoc(Matching(s', key, k), x, d);
      } else {
        assert Matching(s' + [x], key, k) == Matching(s', key, k) + [];
        assert Matching(s, key, k) == Matching(s', key, k);
      }
    }
  }

  /** A rewrite that leaves every term as it was leaves the sum as it was. */
  lemma UpdateWhereNeutral<T, K>(s: seq<T>, key: T -> K, k: K, f: T -> T, g: T -> int)
    requires forall x :: g(f(x)) == g(x)
    ensures SumOf(UpdateWhere(s, key, k, f), g) == SumOf(s, g)
  {
    SumOfCongruent(UpdateWhere(s, key, k, f), g, s, g);
  }

  /** Removing a key twice is removing it once. */
  lemma WithoutIdempotent<T, K>(s: seq<T>, key: T -> K, k: K)
    ensures Without(Without(s, key, k), key, k) == Without(s, key, k)
  {
    WithoutAbsent(Without(s, key, k), key, k);
  }

  /** The keys met in a prefix come first, in the same order: first-seen order. */
  lemma {:induction false} FirstSeenPrefix<T, K>(s: seq<T>, key: T -> K, i: nat)
    requires i <= |s|
    ensures FirstSeen(s[..i], key) <= FirstSeen(s, key)
  {
    if i < |s| {
      var s' := s[..|s| - 1];
      FirstSeenPrefix(s', key, i);
      assert s'[..i] == s[..i];
    } else {
      assert s[..i] == s;
    }
  }

  lemma PrefixSnoc<T>(s: seq<T>, i: nat)
    requires i < |s|
    ensures s[..i + 1] == s[..i] + [s[i]]
  {
  }

  /** Appending an element adds its key at the end, unless the key was already seen. */
  /** Every key listed is the key of some element: `Object.keys` invents no property. */
  lemma {:induction false} FirstSeenOccurs<T, K>(s: seq<T>, key: T -> K)
    ensures forall j :: 0 <= j < |FirstSeen(s, key)| ==> exists i :: 0 <= i < |s| && key(s[i]) == FirstSeen(s, key)[j]
  {
    if s != [] {
      var p, x := s[..|s| - 1], s[|s| - 1];
      assert s == p + [x];
      FirstSeenOccurs(p, key);
      FirstSeenSnoc(p, x, key);
      forall j | 0 <= j < |FirstSeen(s, key)|
        ensures exists i :: 0 <= i < |s| && key(s[i]) == FirstSeen(s, key)[j]
      {
        if j < |FirstSeen(p, key)| {
          var i :| 0 <= i < |p| && key(p[i]) == FirstSeen(p, key)[j];
          assert s[i] == p[i];
        } else {
          assert key(s[|s| - 1]) == FirstSeen(s, key)[j];
        }
      }
    } else {
      assert FirstSeen(s, key) == [];
    }
  }

  /**
   * `filter` draws its result from its input with the multiplicities kept:
   * an element carrying the key occurs as often as in the input, any other
   * not at all.
   */
  lemma {:induction false} MatchingCount<T, K>(s: seq<T>, key: T -> K, k: K)
    ensures multiset(Matching(s, key, k)) <= multiset(s)
    ensures forall x | x in multiset(s) :: multiset(Matching(s, key, k))[x] == if key(x) == k then multiset(s)[x] else 0
  {
    if s != [] {
      var p, y := s[..|s| - 1], s[|s| - 1];
      assert s == p + [y];
      assert multiset(s) == multiset(p) + multiset{y};
      MatchingCount(p, key, k);
      assert Matching(s, key, k) == Matching(p, key, k) + (if key(y) == k then [y] else []);
    }
  }

  /** The id filter of a delete keeps every other element as often as it occurs, and adds none. */
  lemma {:induction false} WithoutCount<T, K>(s: seq<T>, key: T -> K, k: K)
    ensures multiset(Without(s, key, k)) <= multiset(s)
    ensures forall x | x in multiset(s) :: multiset(Without(s, key, k))[x] == if key(x) != k then multiset(s)[x] else 0
  {
    if s != [] {
      var p, y := s[..|s| - 1], s[|s| - 1];
      assert s == p + [y];
      assert multiset(s) == multiset(p) + multiset{y};
      WithoutCount(p, key, k);
      assert Without(s, key, k) == Without(p, key, k) + (if key(y) != k then [y] else []);
    }
  }

  lemma FirstSeenSnoc<T, K>(s: seq<T>, x: T, key: T -> K)
    ensures key(x) in FirstSeen(s, key) ==> FirstSeen(s + [x], key) == FirstSeen(s, key)
    ensures key(x) !in FirstSeen(s, key) ==> FirstSeen(s + [x], key) == FirstSeen(s, key) + [key(x)]
  {
    assert (s + [x])[..|s|] == s;
  }

  lemma {:induction false} KeyedSumOfEmpty<T, K>(ks: seq<K>, key: T -> K, f: T -> int)
    ensures KeyedSum(ks, [], key, f) == 0
  {
    if ks != [] {
      KeyedSumOfEmpty(ks[..|ks| - 1], key, f);
    }
  }

  /** An element added to the input is counted once, under its own key, if that key is listed. */
  lemma {:induction false} KeyedSumSnoc<T, K>(ks: seq<K>, s: seq<T>, x: T, key: T -> K, f: T -> int)
    requires Distinct(ks)
    ensures KeyedSum(ks, s + [x], key, f)
         == KeyedSum(ks, s, key, f) + (if key(x) in ks then f(x) else 0)
  {
    if ks != [] {
      var ks' := ks[..|ks| - 1];
      var k := ks[|ks| - 1];
      assert ks == ks' + [k];
      KeyedSumSnoc(ks', s, x, key, f);
      MatchingSumSnoc(s, x, key, k, f);
      if key(x) == k {
        assert key(x) !in ks';
      }
    }
  }

  /**
   * Partition: when every element's key is listed exactly once, the per-key
   * sums add up to the sum of everything.
   */
  lemma {:induction false} KeyedSumPartition<T, K>(ks: seq<K>, s: seq<T>, key: T -> K, f: T -> int)
    requires Distinct(ks)
    requires forall x :: x in s ==> key(x) in ks
    ensures KeyedSum(ks, s, key, f) == SumOf(s, f)
  {
    if s == [] {
      KeyedSumOfEmpty(ks, key, f);
    } else {
      var s' := s[..|s| - 1];
      var x := s[|s| - 1];
      assert s == s' + [x];
      assert forall y :: y in s' ==> y in s;
      KeyedSumPartition(ks, s', key, f);
      KeyedSumSnoc(ks, s', x, key, f);
    }
  }
}
