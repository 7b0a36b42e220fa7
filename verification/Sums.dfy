/** Sums over finite maps and sizes of finite sets. */
module Sums {

  ghost function Total<K>(m: map<K, nat>): nat {
    if m == map[] then 0
    else
      var k :| k in m;
      m[k] + Total(m - {k})
  }

  /** The entry of a key, or 0. */
  function Entry<K(==)>(m: map<K, nat>, k: K): nat {
    if k in m then m[k] else 0
  }

  lemma {:induction false} TotalWithout<K>(m: map<K, nat>, k: K)
    requires k in m
    ensures Total(m) == m[k] + Total(m - {k})
    decreases |m|
  {
    var j :| j in m && Total(m) == m[j] + Total(m - {j});
    if j != k {
      TotalWithout(m - {j}, k);
      TotalWithout(m - {k}, j);
      assert m - {j} - {k} == m - {k} - {j};
    }
  }

  /** Changing one entry changes the total by as much. */
  lemma TotalUpdate<K>(m: map<K, nat>, k: K, v: nat)
    ensures Total(m[k := v]) == Total(m) + v - Entry(m, k)
  {
    TotalWithout(m[k := v], k);
    assert m[k := v] - {k} == m - {k};
    if k in m {
      TotalWithout(m, k);
    } else {
      assert m - {k} == m;
    }
  }

  /** Where each entry is at most `n` times its counterpart, so are the totals. */
  lemma {:induction false} TotalBound<K>(a: map<K, nat>, b: map<K, nat>, n: nat)
    requires a.Keys == b.Keys && forall k :: k in a ==> a[k] <= b[k] * n
    ensures Total(a) <= Total(b) * n
    decreases |a|
  {
    if a != map[] {
      var k :| k in a;
      TotalWithout(a, k);
      TotalWithout(b, k);
      TotalBound(a - {k}, b - {k}, n);
      AddBounds(a[k], b[k], Total(a - {k}), Total(b - {k}), n);
    }
  }

  lemma Scale(a: nat, b: nat, n: nat)
    requires a <= b
    ensures a * n <= b * n
  {
  }

  lemma AddBounds(p: nat, q: nat, x: nat, y: nat, n: nat)
    requires p <= q * n && x <= y * n
    ensures p + x <= (q + y) * n
  {
    assert (q + y) * n == q * n + y * n;
  }

  /** Where each entry is the sum of three counterparts, so is the total. */
  lemma {:induction false} TotalSplit<K>(m: map<K, nat>, a: map<K, nat>, b: map<K, nat>, c: map<K, nat>)
    requires m.Keys == a.Keys == b.Keys == c.Keys
    requires forall k :: k in m ==> m[k] == a[k] + b[k] + c[k]
    ensures Total(m) == Total(a) + Total(b) + Total(c)
    decreases |m|
  {
    if m == map[] {
      assert a == map[] && b == map[] && c == map[];
    } else {
      var k :| k in m;
      TotalWithout(m, k);
      TotalWithout(a, k);
      TotalWithout(b, k);
      TotalWithout(c, k);
      TotalSplit(m - {k}, a - {k}, b - {k}, c - {k});
    }
  }

  function ListTotal(xs: seq<nat>): nat {
    if xs == [] then 0 else ListTotal(xs[..|xs| - 1]) + xs[|xs| - 1]
  }

  /** What starts at nothing and grows by at most the listed amounts stays within their total. */
  lemma {:induction false} GrowthBound(sums: seq<nat>, xs: seq<nat>)
    requires |sums| == |xs| + 1 && sums[0] == 0
    requires forall i :: 0 <= i < |xs| ==> sums[i + 1] <= sums[i] + xs[i]
    ensures sums[|xs|] <= ListTotal(xs)
  {
    if xs != [] { GrowthBound(sums[..|xs|], xs[..|xs| - 1]); }
  }

  lemma {:induction false} SubsetSize<T>(a: set<T>, b: set<T>)
    requires a <= b
    ensures |a| <= |b|
  {
    if a != {} {
      var x :| x in a;
      SubsetSize(a - {x}, b - {x});
    }
  }

  function Fibre<K, T(==)>(s: set<K>, f: K -> T, t: T): set<K> {
    set k | k in s && f(k) == t
  }

  /** If every value of `f` is hit at most `n` times, the set is at most `n` times as large as its values. */
  lemma {:induction false} FibreBound<K, T>(s: set<K>, f: K -> T, values: set<T>, n: nat)
    requires forall k :: k in s ==> f(k) in values
    requires forall t :: t in values ==> |Fibre(s, f, t)| <= n
    ensures |s| <= |values| * n
  {
    if values == {} {
      assert s == {};
    } else {
      var t :| t in values;
      var rest := s - Fibre(s, f, t);
      forall u | u in values - {t} ensures |Fibre(rest, f, u)| <= n {
        assert Fibre(rest, f, u) == Fibre(s, f, u);
      }
      FibreBound(rest, f, values - {t}, n);
      assert s == Fibre(s, f, t) + rest;
      assert (|values| - 1) * n + n == |values| * n;
    }
  }

  /** A list has at most as many different elements as positions. */
  lemma {:induction false} ListedBound<T>(s: set<T>, list: seq<T>)
    requires forall x :: x in s ==> x in list
    ensures |s| <= |list|
  {
    if list == [] {
      assert s == {};
    } else {
      var last := list[|list| - 1];
      ListedBound(s - {last}, list[..|list| - 1]);
      assert |s| <= |s - {last}| + 1;
    }
  }
}
