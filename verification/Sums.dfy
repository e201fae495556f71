/** Sums along sequences, and how they change when a table row is written or added. */
module Sums {
  function Sum<T>(s: seq<T>, f: T -> int): int {
    if s == [] then 0 else Sum(s[..|s|-1], f) + f(s[|s|-1])
  }

  function SumReal<T>(s: seq<T>, f: T -> real): real {
    if s == [] then 0.0 else SumReal(s[..|s|-1], f) + f(s[|s|-1])
  }

  lemma SumAppend<T>(s: seq<T>, x: T, f: T -> int)
    ensures Sum(s + [x], f) == Sum(s, f) + f(x)
  {
    assert (s + [x])[..|s|] == s;
  }

  lemma SumRealAppend<T>(s: seq<T>, x: T, f: T -> real)
    ensures SumReal(s + [x], f) == SumReal(s, f) + f(x)
  {
    assert (s + [x])[..|s|] == s;
  }

  lemma {:induction false} SumUpdate<T>(s: seq<T>, i: nat, x: T, f: T -> int)
    requires i < |s|
    ensures Sum(s[i := x], f) == Sum(s, f) - f(s[i]) + f(x)
  {
    var n := |s| - 1;
    if i < n {
      SumUpdate(s[..n], i, x, f);
      assert s[i := x][..n] == s[..n][i := x];
    } else {
      assert s[i := x][..n] == s[..n];
    }
  }

  lemma {:induction false} SumRealUpdate<T>(s: seq<T>, i: nat, x: T, f: T -> real)
    requires i < |s|
    ensures SumReal(s[i := x], f) == SumReal(s, f) - f(s[i]) + f(x)
  {
    var n := |s| - 1;
    if i < n {
      SumRealUpdate(s[..n], i, x, f);
      assert s[i := x][..n] == s[..n][i := x];
    } else {
      assert s[i := x][..n] == s[..n];
    }
  }

  lemma {:induction false} SumSame<T>(s: seq<T>, t: seq<T>, f: T -> int)
    requires |s| == |t| && forall k :: 0 <= k < |s| ==> f(s[k]) == f(t[k])
    ensures Sum(s, f) == Sum(t, f)
  {
    if s != [] {
      SumSame(s[..|s|-1], t[..|t|-1], f);
    }
  }

  lemma {:induction false} SumRemove<T>(s: seq<T>, i: nat, f: T -> int)
    requires i < |s|
    ensures Sum(s[..i] + s[i+1..], f) == Sum(s, f) - f(s[i])
  {
    var n := |s| - 1;
    if i < n {
      SumRemove(s[..n], i, f);
      var rest := s[..i] + s[i+1..];
      assert s[..n][..i] == s[..i] && s[..n][i+1..] == s[i+1..n];
      assert rest == (s[..i] + s[i+1..n]) + [s[n]];
      SumAppend(s[..i] + s[i+1..n], s[n], f);
    } else {
      assert s[..i] + s[i+1..] == s[..n];
    }
  }

  /** Rearranging the summands does not change the sum. */
  lemma {:induction false} SumPermutation<T>(s: seq<T>, t: seq<T>, f: T -> int)
    requires multiset(s) == multiset(t)
    ensures Sum(s, f) == Sum(t, f)
    decreases |s|
  {
    assert |s| == |multiset(s)| == |multiset(t)| == |t|;
    if s != [] {
      var n := |s| - 1;
      assert s == s[..n] + [s[n]];
      assert s[n] in multiset(t);
      var i :| 0 <= i < |t| && t[i] == s[n];
      var rest := t[..i] + t[i+1..];
      assert t == t[..i] + [t[i]] + t[i+1..];
      calc {
        multiset(s[..n]);
        == multiset(s[..n] + [s[n]]) - multiset{s[n]};
        == multiset(t) - multiset{t[i]};
        == { assert multiset(t) == multiset(t[..i]) + multiset{t[i]} + multiset(t[i+1..]); }
        multiset(t[..i]) + multiset(t[i+1..]);
        == multiset(rest);
      }
      SumPermutation(s[..n], rest, f);
      SumRemove(t, i, f);
    }
  }

  lemma {:induction false} SumMonotone<T>(s: seq<T>, f: T -> int, g: T -> int)
    requires forall x :: x in s ==> f(x) <= g(x)
    ensures Sum(s, f) <= Sum(s, g)
  {
    if s != [] {
      SumMonotone(s[..|s|-1], f, g);
    }
  }

  lemma {:induction false} SumNonNegative<T>(s: seq<T>, f: T -> int)
    requires forall x :: x in s ==> f(x) >= 0
    ensures Sum(s, f) >= 0
    ensures forall i :: 0 <= i < |s| ==> f(s[i]) <= Sum(s, f)
  {
    if s != [] {
      SumNonNegative(s[..|s|-1], f);
    }
  }

  lemma {:induction false} SumZero<T>(s: seq<T>, f: T -> int)
    requires forall x :: x in s ==> f(x) == 0
    ensures Sum(s, f) == 0
  {
    if s != [] {
      SumZero(s[..|s|-1], f);
    }
  }

  lemma {:induction false} SumAdds<T>(s: seq<T>, f: T -> int, g: T -> int, h: T -> int)
    requires forall x :: x in s ==> h(x) == f(x) + g(x)
    ensures Sum(s, h) == Sum(s, f) + Sum(s, g)
  {
    if s != [] {
      SumAdds(s[..|s|-1], f, g, h);
    }
  }

  /** Summing an indicator counts the places where it holds. */
  lemma {:induction false} SumCounts<T>(s: seq<T>, f: T -> int, places: set<int>)
    requires forall k :: k in places ==> 0 <= k < |s|
    requires forall k :: 0 <= k < |s| ==> f(s[k]) == if k in places then 1 else 0
    ensures Sum(s, f) == |places|
  {
    if s == [] {
      forall k ensures k !in places {
      }
    } else {
      var n := |s| - 1;
      SumCounts(s[..n], f, places - {n});
    }
  }

  ghost predicate Distinct<T(!new)>(s: seq<T>) {
    forall i, j :: 0 <= i < j < |s| ==> s[i] != s[j]
  }

  /** Duplicate-free lists with the same elements are rearrangements of each other. */
  lemma {:induction false} SameElementsSameMultiset<T(!new)>(s: seq<T>, t: seq<T>)
    requires Distinct(s) && Distinct(t) && forall x :: x in s <==> x in t
    ensures multiset(s) == multiset(t)
  {
    forall x ensures multiset(s)[x] == multiset(t)[x] {
      DistinctCountsOnce(s, x);
      DistinctCountsOnce(t, x);
    }
  }

  lemma {:induction false} DistinctCountsOnce<T(!new)>(s: seq<T>, x: T)
    requires Distinct(s)
    ensures multiset(s)[x] == if x in s then 1 else 0
  {
    if s != [] {
      var n := |s| - 1;
      DistinctCountsOnce(s[..n], x);
      assert s == s[..n] + [s[n]];
      if s[n] == x {
        assert x !in s[..n];
      }
    }
  }

  // ---- sums over the keys of a table, in no particular order ------------------------

  ghost function SumKeys<K>(keys: set<K>, f: K -> int): int {
    if keys == {} then 0
    else
      var k :| k in keys;
      f(k) + SumKeys(keys - {k}, f)
  }

  /** Whichever key is taken out first. */
  lemma {:induction false} SumKeysTake<K>(keys: set<K>, k: K, f: K -> int)
    requires k in keys
    ensures SumKeys(keys, f) == f(k) + SumKeys(keys - {k}, f)
    decreases keys
  {
    var first :| first in keys && SumKeys(keys, f) == f(first) + SumKeys(keys - {first}, f);
    if first != k {
      SumKeysTake(keys - {first}, k, f);
      SumKeysTake(keys - {k}, first, f);
      assert keys - {first} - {k} == keys - {k} - {first};
    }
  }

  lemma SumKeysAdd<K>(keys: set<K>, k: K, f: K -> int)
    requires k !in keys
    ensures SumKeys(keys + {k}, f) == SumKeys(keys, f) + f(k)
  {
    SumKeysTake(keys + {k}, k, f);
    assert keys + {k} - {k} == keys;
  }

  lemma {:induction false} SumKeysNonNegative<K>(keys: set<K>, f: K -> int)
    requires forall k :: k in keys ==> f(k) >= 0
    ensures SumKeys(keys, f) >= 0
    ensures SumKeys(keys, f) == 0 ==> forall k :: k in keys ==> f(k) == 0
    decreases keys
  {
    if keys != {} {
      var k :| k in keys && SumKeys(keys, f) == f(k) + SumKeys(keys - {k}, f);
      SumKeysNonNegative(keys - {k}, f);
    }
  }

  lemma {:induction false} SumKeysZero<K>(keys: set<K>, f: K -> int)
    requires forall k :: k in keys ==> f(k) == 0
    ensures SumKeys(keys, f) == 0
    decreases keys
  {
    if keys != {} {
      var k :| k in keys && SumKeys(keys, f) == f(k) + SumKeys(keys - {k}, f);
      SumKeysZero(keys - {k}, f);
    }
  }
}
