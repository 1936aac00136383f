/**
 * Sequence helpers shared by the report code: real sums, Python's stable
 * `sorted(..., key=...)`, and the "accumulate into a dict keyed by ..." loop
 * that several report builders use.
 */
module Collections {

  /** `sum(xs)` over reals (floating-point rounding is not modelled). */
  function Sum(xs: seq<real>): real {
    if xs == [] then 0.0 else Sum(xs[..|xs| - 1]) + xs[|xs| - 1]
  }

  lemma SumAppend(xs: seq<real>, x: real)
    ensures Sum(xs + [x]) == Sum(xs) + x
  {
    assert (xs + [x])[..|xs|] == xs;
  }

  /** `sum(f(x) for x in xs)`. */
  function SumOf<T>(xs: seq<T>, f: T -> real): real {
    if xs == [] then 0.0 else SumOf(xs[..|xs| - 1], f) + f(xs[|xs| - 1])
  }

  lemma {:induction false} SumOfConcat<T>(xs: seq<T>, ys: seq<T>, f: T -> real)
    ensures SumOf(xs + ys, f) == SumOf(xs, f) + SumOf(ys, f)
    decreases |ys|
  {
    if ys == [] {
      assert xs + ys == xs;
    } else {
      var n := |ys| - 1;
      assert (xs + ys)[..|xs + ys| - 1] == xs + ys[..n];
      SumOfConcat(xs, ys[..n], f);
    }
  }

  /** Taking one term out of a sum. */
  lemma SumOfRemove<T>(ys: seq<T>, j: nat, f: T -> real)
    requires j < |ys|
    ensures SumOf(ys, f) == SumOf(ys[..j] + ys[j + 1..], f) + f(ys[j])
  {
    var a, x, b := ys[..j], ys[j], ys[j + 1..];
    assert ys == a + ([x] + b);
    SumOfConcat(a, [x] + b, f);
    SumOfConcat([x], b, f);
    SumOfConcat(a, b, f);
    SumOfSingle(x, f);
  }

  lemma SumOfSingle<T>(x: T, f: T -> real)
    ensures SumOf([x], f) == f(x)
  {
    assert [x][..0] == [];
  }

  lemma MultisetRemove<T>(xs: seq<T>, ys: seq<T>, j: nat)
    requires xs != [] && j < |ys| && multiset(xs) == multiset(ys) && ys[j] == xs[|xs| - 1]
    ensures multiset(xs[..|xs| - 1]) == multiset(ys[..j] + ys[j + 1..])
  {
    var n, x := |xs| - 1, ys[j];
    assert xs == xs[..n] + [x];
    assert ys == ys[..j] + [x] + ys[j + 1..];
    calc {
      multiset(xs[..n]);
      multiset(xs) - multiset{x};
      multiset(ys) - multiset{x};
      multiset(ys[..j] + ys[j + 1..]);
    }
  }

  /** A sum does not depend on the order of its terms. */
  lemma {:induction false} SumOfPermutation<T>(xs: seq<T>, ys: seq<T>, f: T -> real)
    requires multiset(xs) == multiset(ys)
    ensures SumOf(xs, f) == SumOf(ys, f)
    decreases |xs|
  {
    if xs != [] {
      var n := |xs| - 1;
      assert xs[n] in multiset(ys);
      var j :| 0 <= j < |ys| && ys[j] == xs[n];
      MultisetRemove(xs, ys, j);
      SumOfPermutation(xs[..n], ys[..j] + ys[j + 1..], f);
      SumOfRemove(ys, j, f);
    }
  }

  predicate Distinct<T(==)>(s: seq<T>) {
    forall i, j :: 0 <= i < j < |s| ==> s[i] != s[j]
  }

  // ----- stable insertion sort -------------------------------------------

  ghost predicate SortedBy<T>(t: seq<T>, le: (T, T) -> bool) {
    forall i, j :: 0 <= i < j < |t| ==> le(t[i], t[j])
  }

  /** `le` is a total preorder on the elements of `s`. */
  ghost predicate TotalPreorderOn<T>(s: seq<T>, le: (T, T) -> bool) {
    && (forall x, y :: x in s && y in s ==> le(x, y) || le(y, x))
    && (forall x, y, z :: x in s && y in s && z in s && le(x, y) && le(y, z) ==> le(x, z))
  }

  /** Puts `x` in front of the first element it may precede. */
  function Insert<T>(x: T, t: seq<T>, le: (T, T) -> bool): (r: seq<T>)
    ensures multiset(r) == multiset(t) + multiset{x}
  {
    if t == [] then [x]
    else if le(x, t[0]) then [x] + t
    else assert t == [t[0]] + t[1..]; [t[0]] + Insert(x, t[1..], le)
  }

  /** `sorted(s)` with the order `le`; an element goes before later equal ones. */
  function Sort<T>(s: seq<T>, le: (T, T) -> bool): (r: seq<T>)
    ensures multiset(r) == multiset(s)
  {
    if s == [] then []
    else assert s == [s[0]] + s[1..]; Insert(s[0], Sort(s[1..], le), le)
  }

  lemma {:induction false} InsertSorted<T>(x: T, t: seq<T>, le: (T, T) -> bool)
    requires SortedBy(t, le)
    requires TotalPreorderOn([x] + t, le)
    ensures SortedBy(Insert(x, t, le), le)
  {
    if t != [] && !le(x, t[0]) {
      var u := t[1..];
      assert TotalPreorderOn([x] + u, le) by {
        forall y | y in [x] + u ensures y in [x] + t { }
      }
      InsertSorted(x, u, le);
      var r := Insert(x, u, le);
      assert le(t[0], x) by { assert x in [x] + t && t[0] in [x] + t; }
      forall y | y in r ensures le(t[0], y) {
        assert y in multiset(r);
        if y != x {
          assert y in u;
          assert y in [x] + t && t[0] in [x] + t;
        }
      }
    }
  }

  /** What the sort guarantees: a sorted permutation of its input. */
  lemma {:induction false} SortSorted<T>(s: seq<T>, le: (T, T) -> bool)
    requires TotalPreorderOn(s, le)
    ensures SortedBy(Sort(s, le), le)
    ensures multiset(Sort(s, le)) == multiset(s)
  {
    if s != [] {
      var u := s[1..];
      assert TotalPreorderOn(u, le) by {
        forall y | y in u ensures y in s { }
      }
      SortSorted(u, le);
      var t := Sort(u, le);
      assert TotalPreorderOn([s[0]] + t, le) by {
        forall y | y in [s[0]] + t ensures y in s {
          if y != s[0] { assert y in multiset(t); assert y in u; }
        }
      }
      InsertSorted(s[0], t, le);
    }
  }

  /** `[f(x) for x in s]`. */
  function MapSeq<A, B>(s: seq<A>, f: A -> B): (r: seq<B>)
    ensures |r| == |s| && forall k :: 0 <= k < |s| ==> r[k] == f(s[k])
  {
    seq(|s|, k requires 0 <= k < |s| => f(s[k]))
  }

  /** An element that precedes nothing in `t` lands at its end. */
  lemma {:induction false} InsertLast<T>(x: T, t: seq<T>, le: (T, T) -> bool)
    requires forall k :: 0 <= k < |t| ==> !le(x, t[k])
    ensures Insert(x, t, le) == t + [x]
  {
    if t != [] {
      InsertLast(x, t[1..], le);
      assert [t[0]] + (t[1..] + [x]) == t + [x];
    }
  }

  lemma SortCons<T>(x: T, t: seq<T>, le: (T, T) -> bool)
    ensures Sort([x] + t, le) == Insert(x, Sort(t, le), le)
  {
    assert ([x] + t)[1..] == t;
  }

  lemma MapSeqCons<A, B>(a: A, t: seq<A>, f: A -> B)
    ensures MapSeq([a] + t, f) == [f(a)] + MapSeq(t, f)
  {
  }

  lemma {:induction false} InsertMap<A, B>(x: A, t: seq<A>, f: A -> B, le: (A, A) -> bool, le': (B, B) -> bool)
    requires forall a, b :: le(a, b) == le'(f(a), f(b))
    ensures MapSeq(Insert(x, t, le), f) == Insert(f(x), MapSeq(t, f), le')
  {
    var mt := MapSeq(t, f);
    if t == [] {
      MapSeqCons(x, [], f);
    } else if le(x, t[0]) {
      assert le'(f(x), mt[0]);
      MapSeqCons(x, t, f);
    } else {
      assert !le'(f(x), mt[0]);
      var u := Insert(x, t[1..], le);
      InsertMap(x, t[1..], f, le, le');
      assert t == [t[0]] + t[1..];
      MapSeqCons(t[0], t[1..], f);
      MapSeqCons(t[0], u, f);
      assert Insert(x, t, le) == [t[0]] + u;
      assert Insert(f(x), mt, le') == [mt[0]] + Insert(f(x), mt[1..], le');
    }
  }

  /** Sorting by an order read through `f` commutes with mapping `f`. */
  lemma {:induction false} SortMap<A, B>(s: seq<A>, f: A -> B, le: (A, A) -> bool, le': (B, B) -> bool)
    requires forall a, b :: le(a, b) == le'(f(a), f(b))
    ensures MapSeq(Sort(s, le), f) == Sort(MapSeq(s, f), le')
  {
    if s != [] {
      var x, t := s[0], s[1..];
      SortMap(t, f, le, le');
      InsertMap(x, Sort(t, le), f, le, le');
      assert s == [x] + t;
      MapSeqCons(x, t, f);
      SortCons(f(x), MapSeq(t, f), le');
    }
  }

  /** `[x for x in s if keep(x)]`. */
  function Filter<T(==,!new)>(s: seq<T>, keep: T -> bool): (r: seq<T>)
    ensures |r| <= |s|
    ensures forall x :: x in r <==> x in s && keep(x)
  {
    if s == [] then []
    else
      var n := |s| - 1;
      assert forall x :: x in s <==> x in s[..n] || x == s[n];
      Filter(s[..n], keep) + (if keep(s[n]) then [s[n]] else [])
  }

  /** Filtering keeps the order of what it keeps: it distributes over concatenation. */
  lemma {:induction false} FilterConcat<T(!new)>(a: seq<T>, b: seq<T>, keep: T -> bool)
    ensures Filter(a + b, keep) == Filter(a, keep) + Filter(b, keep)
    decreases |b|
  {
    if b == [] {
      assert a + b == a;
    } else {
      var n := |b| - 1;
      assert (a + b)[..|a + b| - 1] == a + b[..n];
      FilterConcat(a, b[..n], keep);
    }
  }

  /** Filtering keeps every kept element as often as it occurs, and nothing else. */
  lemma {:induction false} FilterCount<T(!new)>(s: seq<T>, keep: T -> bool, x: T)
    ensures multiset(Filter(s, keep))[x] == if keep(x) then multiset(s)[x] else 0
  {
    if s != [] {
      var n := |s| - 1;
      FilterCount(s[..n], keep, x);
      assert s == s[..n] + [s[n]];
    }
  }

  /** No two elements of `s` share a key. */
  predicate DistinctBy<T, K(==)>(s: seq<T>, key: T -> K) {
    forall i, j :: 0 <= i < j < |s| ==> key(s[i]) != key(s[j])
  }

  lemma {:induction false} InsertDistinctBy<T, K>(x: T, t: seq<T>, le: (T, T) -> bool, key: T -> K)
    requires DistinctBy(t, key)
    requires forall k :: 0 <= k < |t| ==> key(t[k]) != key(x)
    ensures DistinctBy(Insert(x, t, le), key)
  {
    if t != [] && !le(x, t[0]) {
      var u := t[1..];
      InsertDistinctBy(x, u, le, key);
      var r := Insert(x, u, le);
      forall k | 0 <= k < |r| ensures key(r[k]) != key(t[0]) {
        assert r[k] in multiset(u) + multiset{x};
        if r[k] != x {
          assert r[k] in u;
          var m :| 0 <= m < |u| && u[m] == r[k];
          assert u[m] == t[m + 1];
        }
      }
      assert Insert(x, t, le) == [t[0]] + r;
    } else if t != [] {
      assert Insert(x, t, le) == [x] + t;
    }
  }

  /** Sorting keeps the keys of a sequence distinct. */
  lemma {:induction false} SortDistinctBy<T, K>(s: seq<T>, le: (T, T) -> bool, key: T -> K)
    requires DistinctBy(s, key)
    ensures DistinctBy(Sort(s, le), key)
  {
    if s != [] {
      var u := s[1..];
      SortDistinctBy(u, le, key);
      var t := Sort(u, le);
      forall k | 0 <= k < |t| ensures key(t[k]) != key(s[0]) {
        assert t[k] in multiset(u);
        var m :| 0 <= m < |u| && u[m] == t[k];
        assert u[m] == s[m + 1];
      }
      InsertDistinctBy(s[0], t, le, key);
    }
  }

  // ----- accumulation by key ----------------------------------------------

  /** The keys of `s` in order of first occurrence (a dict's insertion order). */
  function Dedup<K(==,!new)>(s: seq<K>): (r: seq<K>)
    ensures Distinct(r)
    ensures forall k :: k in r <==> k in s
  {
    if s == [] then []
    else
      var d := Dedup(s[..|s| - 1]);
      assert forall k :: k in s <==> k in s[..|s| - 1] || k == s[|s| - 1];
      if s[|s| - 1] in d then d else d + [s[|s| - 1]]
  }

  /** The sum of the `vals[i]` whose `keys[i]` is `k`. */
  function SumWhere<K(==)>(keys: seq<K>, vals: seq<real>, k: K): real
    requires |keys| == |vals|
  {
    if keys == [] then 0.0
    else
      var n := |keys| - 1;
      SumWhere(keys[..n], vals[..n], k) + (if keys[n] == k then vals[n] else 0.0)
  }

  /** The sum, over the keys in `order`, of each key's total. */
  function SumOfGroups<K(==)>(order: seq<K>, keys: seq<K>, vals: seq<real>): real
    requires |keys| == |vals|
  {
    if order == [] then 0.0
    else SumOfGroups(order[..|order| - 1], keys, vals) + SumWhere(keys, vals, order[|order| - 1])
  }

  /** Extending the prefix by one pair adds that pair's value to its key's total and to no other. */
  lemma PrefixStep<T>(s: seq<T>, i: nat)
    requires i < |s|
    ensures s[..i + 1] == s[..i] + [s[i]]
  {
  }

  lemma SumWherePrefix<K(!new)>(keys: seq<K>, vals: seq<real>, i: nat)
    requires i < |keys| == |vals|
    ensures Dedup(keys[..i + 1]) == if keys[i] in Dedup(keys[..i]) then Dedup(keys[..i]) else Dedup(keys[..i]) + [keys[i]]
    ensures forall k :: SumWhere(keys[..i + 1], vals[..i + 1], k)
                     == SumWhere(keys[..i], vals[..i], k) + (if keys[i] == k then vals[i] else 0.0)
  {
    assert keys[..i + 1][..i] == keys[..i] && vals[..i + 1][..i] == vals[..i];
  }

  lemma SumWhereAbsent<K>(keys: seq<K>, vals: seq<real>, k: K)
    requires |keys| == |vals| && k !in keys
    ensures SumWhere(keys, vals, k) == 0.0
  {
    if keys != [] {
      var n := |keys| - 1;
      assert k !in keys[..n];
      SumWhereAbsent(keys[..n], vals[..n], k);
    }
  }

  lemma {:induction false} SumOfGroupsStep<K>(order: seq<K>, keys: seq<K>, vals: seq<real>, x: K, v: real)
    requires |keys| == |vals| && Distinct(order)
    ensures SumOfGroups(order, keys + [x], vals + [v])
         == SumOfGroups(order, keys, vals) + (if x in order then v else 0.0)
  {
    var keys', vals' := keys + [x], vals + [v];
    assert keys'[..|keys|] == keys && vals'[..|vals|] == vals;
    if order != [] {
      var m := |order| - 1;
      var init := order[..m];
      assert Distinct(init);
      SumOfGroupsStep(init, keys, vals, x, v);
      assert x in order <==> x in init || x == order[m];
      assert x == order[m] ==> x !in init;
    }
  }

  /** Accumulating by key loses no value: the key totals add up to the total. */
  lemma {:induction false} SumOfGroupsIsSum<K(!new)>(keys: seq<K>, vals: seq<real>)
    requires |keys| == |vals|
    ensures SumOfGroups(Dedup(keys), keys, vals) == Sum(vals)
  {
    if keys != [] {
      var n := |keys| - 1;
      var ks, vs := keys[..n], vals[..n];
      assert keys == ks + [keys[n]] && vals == vs + [vals[n]];
      SumOfGroupsIsSum(ks, vs);
      var d := Dedup(ks);
      SumOfGroupsStep(d, ks, vs, keys[n], vals[n]);
      if keys[n] !in d {
        assert Dedup(keys) == d + [keys[n]];
        assert (d + [keys[n]])[..|d|] == d;
        SumWhereAbsent(ks, vs, keys[n]);
      }
    }
  }

  function Fst<K>(p: (K, real)): K { p.0 }

  function Snd<K>(p: (K, real)): real { p.1 }

  /** The pairs `(k, total of k)` for the keys in `order`. */
  function Totals<K(==)>(order: seq<K>, keys: seq<K>, vals: seq<real>): (r: seq<(K, real)>)
    requires |keys| == |vals|
    ensures |r| == |order|
    ensures forall i :: 0 <= i < |order| ==> r[i] == (order[i], SumWhere(keys, vals, order[i]))
  {
    if order == [] then []
    else
      var n := |order| - 1;
      Totals(order[..n], keys, vals) + [(order[n], SumWhere(keys, vals, order[n]))]
  }

  lemma {:induction false} SumOfTotals<K>(order: seq<K>, keys: seq<K>, vals: seq<real>)
    requires |keys| == |vals|
    ensures SumOf(Totals(order, keys, vals), Snd) == SumOfGroups(order, keys, vals)
  {
    if order != [] {
      var n := |order| - 1;
      var t := Totals(order[..n], keys, vals);
      SumOfTotals(order[..n], keys, vals);
      assert (t + [(order[n], SumWhere(keys, vals, order[n]))])[..n] == t;
    }
  }

  /** The per-key totals in first-appearance order, sorted by `le`. */
  function SortedTotals<K(==,!new)>(keys: seq<K>, vals: seq<real>, le: ((K, real), (K, real)) -> bool): seq<(K, real)>
    requires |keys| == |vals|
  {
    Sort(Totals(Dedup(keys), keys, vals), le)
  }

  /** No key has two totals. */
  lemma SortedTotalsDistinct<K(!new)>(keys: seq<K>, vals: seq<real>, le: ((K, real), (K, real)) -> bool)
    requires |keys| == |vals|
    ensures DistinctBy(SortedTotals(keys, vals, le), Fst)
  {
    var order := Dedup(keys);
    var t := Totals(order, keys, vals);
    assert DistinctBy(t, Fst) by {
      forall i, j | 0 <= i < j < |t| ensures Fst(t[i]) != Fst(t[j]) {
        assert t[i].0 == order[i] && t[j].0 == order[j];
      }
    }
    SortDistinctBy(t, le, Fst);
  }

  /** Every entry is a key of the input with that key's total. */
  lemma SortedTotalsAt<K(!new)>(keys: seq<K>, vals: seq<real>, le: ((K, real), (K, real)) -> bool, k: nat)
    requires |keys| == |vals| && k < |SortedTotals(keys, vals, le)|
    ensures SortedTotals(keys, vals, le)[k].0 in keys
    ensures SortedTotals(keys, vals, le)[k].1 == SumWhere(keys, vals, SortedTotals(keys, vals, le)[k].0)
  {
    var order := Dedup(keys);
    var t, g := Totals(order, keys, vals), SortedTotals(keys, vals, le);
    assert g[k] in multiset(t);
    var m :| 0 <= m < |t| && t[m] == g[k];
    assert t[m] == (order[m], SumWhere(keys, vals, order[m]));
    assert order[m] in order;
  }

  /** Every key of the input has an entry. */
  lemma SortedTotalsCover<K(!new)>(keys: seq<K>, vals: seq<real>, le: ((K, real), (K, real)) -> bool, i: nat) returns (k: nat)
    requires |keys| == |vals| && i < |keys|
    ensures k < |SortedTotals(keys, vals, le)| && SortedTotals(keys, vals, le)[k].0 == keys[i]
  {
    var order := Dedup(keys);
    var t, g := Totals(order, keys, vals), SortedTotals(keys, vals, le);
    assert keys[i] in order;
    var m :| 0 <= m < |order| && order[m] == keys[i];
    assert t[m].0 == order[m];
    assert t[m] in multiset(g);
    k :| 0 <= k < |g| && g[k] == t[m];
  }

  /** The totals add up to the sum of all values. */
  lemma SortedTotalsSum<K(!new)>(keys: seq<K>, vals: seq<real>, le: ((K, real), (K, real)) -> bool)
    requires |keys| == |vals|
    ensures SumOf(SortedTotals(keys, vals, le), Snd) == Sum(vals)
  {
    var order := Dedup(keys);
    var t := Totals(order, keys, vals);
    SumOfPermutation(SortedTotals(keys, vals, le), t, Snd);
    SumOfTotals(order, keys, vals);
    SumOfGroupsIsSum(keys, vals);
  }

  /**
   * The loop `for x in xs: if key in d: d[key] += v  else: d[key] = v`,
   * returning the dict and its keys in insertion order.
   */
  method SumByKey<K(==,!new)>(keys: seq<K>, vals: seq<real>) returns (order: seq<K>, totals: map<K, real>)
    requires |keys| == |vals|
    ensures order == Dedup(keys)
    ensures forall k :: k in totals <==> k in keys
    ensures forall k :: k in totals ==> totals[k] == SumWhere(keys, vals, k)
  {
    order, totals := [], map[];
    var i := 0;
    while i < |keys|
      invariant 0 <= i <= |keys|
      invariant order == Dedup(keys[..i])
      invariant forall k :: k in totals <==> k in keys[..i]
      invariant forall k :: k in totals ==> totals[k] == SumWhere(keys[..i], vals[..i], k)
    {
      var k := keys[i];
      assert keys[..i + 1][..i] == keys[..i] && vals[..i + 1][..i] == vals[..i];
      assert forall x :: x in keys[..i + 1] <==> x in keys[..i] || x == k;
      if k in totals {
        totals := totals[k := totals[k] + vals[i]];
      } else {
        order := order + [k];
        totals := totals[k := vals[i]];
        SumWhereAbsent(keys[..i], vals[..i], k);
      }
      i := i + 1;
    }
    assert keys[..i] == keys && vals[..i] == vals;
  }
}
