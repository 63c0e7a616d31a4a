/** Options, results and the finite sums that every accumulator loop of the load tester computes. */
module Basics {

  datatype Option<+T> = None | Some(value: T)

  datatype Result<+T, +E> = Ok(value: T) | Err(error: E)

  // ------------------------------------------------------------ sums over sequences

  function Sum(s: seq<nat>): nat {
    if s == [] then 0 else s[0] + Sum(s[1..])
  }

  lemma {:induction false} SumAppend(s: seq<nat>, x: nat)
    ensures Sum(s + [x]) == Sum(s) + x
  {
    if s == [] {
      assert s + [x] == [x];
    } else {
      assert (s + [x])[1..] == s[1..] + [x];
      SumAppend(s[1..], x);
    }
  }

  lemma {:induction false} SumUpdate(s: seq<nat>, i: nat, x: nat)
    requires i < |s|
    ensures Sum(s[i := x]) == Sum(s) - s[i] + x
  {
    if i > 0 {
      assert s[i := x][1..] == s[1..][i - 1 := x];
      SumUpdate(s[1..], i - 1, x);
    } else {
      assert s[i := x][1..] == s[1..];
    }
  }

  lemma {:induction false} SumMonotone(s: seq<nat>, t: seq<nat>)
    requires |s| == |t| && forall i :: 0 <= i < |s| ==> s[i] <= t[i]
    ensures Sum(s) <= Sum(t)
  {
    if s != [] {
      SumMonotone(s[1..], t[1..]);
    }
  }

  lemma {:induction false} SumScaled(s: seq<nat>, t: seq<nat>, c: nat)
    requires |s| == |t| && forall i :: 0 <= i < |s| ==> c * s[i] <= t[i]
    ensures c * Sum(s) <= Sum(t)
  {
    if s != [] {
      SumScaled(s[1..], t[1..], c);
      assert c * Sum(s) == c * s[0] + c * Sum(s[1..]);
    }
  }

  lemma {:induction false} SumBounded(s: seq<nat>, c: nat)
    requires forall i :: 0 <= i < |s| ==> s[i] <= c
    ensures Sum(s) <= |s| * c
  {
    if s != [] {
      SumBounded(s[1..], c);
      assert |s| * c == c + |s[1..]| * c;
    }
  }

  // ------------------------------------------------------------ sums over maps

  ghost function Pick<K>(m: map<K, nat>): (k: K)
    requires m != map[]
    ensures k in m
  {
    var k :| k in m;
    k
  }

  /** The sum of a map's values: what a Go loop over the map adds up, in whatever order it visits the keys. */
  ghost function SumMap<K>(m: map<K, nat>): nat
    decreases |m|
  {
    if m == map[] then 0 else
    var k := Pick(m);
    m[k] + SumMap(m - {k})
  }

  /** Any key may be visited first. */
  lemma {:induction false} SumMapRemove<K>(m: map<K, nat>, k: K)
    requires k in m
    ensures SumMap(m) == m[k] + SumMap(m - {k})
    decreases |m|
  {
    var j := Pick(m);
    if j != k {
      SumMapRemove(m - {j}, k);
      SumMapRemove(m - {k}, j);
      assert m - {j} - {k} == m - {k} - {j};
    }
  }

  lemma SumMapInsert<K>(m: map<K, nat>, k: K, x: nat)
    ensures SumMap(m[k := x]) == (if k in m then SumMap(m) - m[k] else SumMap(m)) + x
    ensures k in m ==> m[k] <= SumMap(m)
  {
    SumMapRemove(m[k := x], k);
    if k in m {
      SumMapRemove(m, k);
      assert m[k := x] - {k} == m - {k};
    } else {
      assert m[k := x] - {k} == m;
    }
  }

  /** Entries that hold zero contribute nothing. */
  lemma {:induction false} SumMapRestrict<K>(m: map<K, nat>, n: map<K, nat>)
    requires forall k :: k in n ==> k in m && m[k] == n[k]
    requires forall k :: k in m && k !in n ==> m[k] == 0
    ensures SumMap(m) == SumMap(n)
    decreases |m|
  {
    if m == map[] {
      assert n == map[];
    } else {
      var k := Pick(m);
      if k in n {
        SumMapRemove(n, k);
        SumMapRestrict(m - {k}, n - {k});
      } else {
        SumMapRestrict(m - {k}, n);
      }
    }
  }

  lemma Distribute(c: int, x: int, y: int)
    ensures c * (x + y) == c * x + c * y
  {
  }

  lemma {:induction false} SumMapScaled<K>(m: map<K, nat>, n: map<K, nat>, c: nat)
    requires m.Keys == n.Keys && forall k :: k in m ==> c * m[k] <= n[k]
    ensures c * SumMap(m) <= SumMap(n)
    decreases |m|
  {
    if m == map[] {
      assert n == map[];
    } else {
      var k := Pick(m);
      var x, rest := m[k], SumMap(m - {k});
      assert c * (x + rest) <= SumMap(n) by {
        SumMapRemove(n, k);
        SumMapScaled(m - {k}, n - {k}, c);
        Distribute(c, x, rest);
      }
    }
  }

  lemma SizeWithout<K>(m: map<K, nat>, k: K)
    requires k in m
    ensures |m| == |m - {k}| + 1
  {
    assert (m - {k}).Keys == m.Keys - {k};
    assert |m| == |m.Keys| && |m - {k}| == |(m - {k}).Keys|;
  }

  lemma {:induction false} SumMapBounded<K>(m: map<K, nat>, c: nat)
    requires forall k :: k in m ==> m[k] <= c
    ensures SumMap(m) <= |m| * c
    decreases |m|
  {
    if m != map[] {
      var k := Pick(m);
      SumMapBounded(m - {k}, c);
      SizeWithout(m, k);
      var n := |m - {k}|;
      assert |m| * c == c + n * c by {
        Distribute(c, n, 1);
      }
    }
  }

  /** An accumulator loop over a map, visiting the keys in any order. */
  method AddUp<K(==)>(m: map<K, nat>) returns (total: nat)
    ensures total == SumMap(m)
  {
    total := 0;
    var left := m.Keys;
    ghost var rest := m;
    while left != {}
      invariant left == rest.Keys && forall k :: k in rest ==> k in m && rest[k] == m[k]
      invariant total + SumMap(rest) == SumMap(m)
      decreases left
    {
      var k :| k in left;
      SumMapRemove(rest, k);
      total := total + m[k];
      rest := rest - {k};
      left := left - {k};
    }
  }

  // ------------------------------------------------------------ cardinality

  lemma {:induction false} SubsetCardinality<T>(a: set<T>, b: set<T>)
    requires a <= b
    ensures |a| <= |b|
    ensures |a| == |b| ==> a == b
    decreases |a|
  {
    if a != {} {
      var x :| x in a;
      SubsetCardinality(a - {x}, b - {x});
      assert a == (a - {x}) + {x} && b == (b - {x}) + {x};
    }
  }

  lemma {:induction false} DistinctSize<T>(s: seq<T>)
    requires forall i, j :: 0 <= i < j < |s| ==> s[i] != s[j]
    ensures |set x | x in s| == |s|
  {
    if s != [] {
      var n := |s| - 1;
      DistinctSize(s[..n]);
      assert (set x | x in s) == (set x | x in s[..n]) + {s[n]};
      assert s[n] !in s[..n];
    }
  }

  ghost function Image<T(!new), U>(s: set<T>, f: T -> U): set<U> {
    set x | x in s :: f(x)
  }

  /** Applying a function does not make a set larger, nor smaller if the function is injective on it. */
  lemma {:induction false} ImageSize<T(!new), U>(s: set<T>, f: T -> U)
    ensures |Image(s, f)| <= |s|
    ensures (forall x, y :: x in s && y in s && f(x) == f(y) ==> x == y) ==> |Image(s, f)| == |s|
    decreases |s|
  {
    if s == {} {
      assert Image(s, f) == {};
    } else {
      var x :| x in s;
      ImageSize(s - {x}, f);
      assert Image(s, f) == Image(s - {x}, f) + {f(x)};
    }
  }
}
