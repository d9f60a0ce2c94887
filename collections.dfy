/**
 * The table-wide operations the pipeline borrows from pandas, stated on
 * sequences of rows: boolean-mask selection, drop_duplicates keeping the
 * first occurrence, groupby(...).sum() and a stable sort_values.
 */
module Collections {
  import opened Wrappers

  /** Index of the first occurrence of x in s. */
  function IndexOf<T(==)>(s: seq<T>, x: T): (k: Option<nat>)
    ensures k.None? <==> x !in s
    ensures k.Some? ==> k.value < |s| && s[k.value] == x && x !in s[..k.value]
  {
    if |s| == 0 then None
    else if s[0] == x then Some(0)
    else match IndexOf(s[1..], x)
      case None => None
      case Some(k) => assert s[..k + 1] == [s[0]] + s[1..][..k]; Some(k + 1)
  }

  // ---------------------------------------------------------------------
  // Selection (df[mask])

  /** The elements of s that satisfy p, in their original order. */
  function Filter<T(!new)>(s: seq<T>, p: T -> bool): (r: seq<T>)
    ensures |r| <= |s|
    ensures forall x :: x in r <==> x in s && p(x)
  {
    if s == [] then []
    else Filter(s[..|s| - 1], p) + (if p(s[|s| - 1]) then [s[|s| - 1]] else [])
  }

  lemma {:induction false} FilterNone<T(!new)>(s: seq<T>, p: T -> bool)
    requires forall x :: x in s ==> !p(x)
    ensures Filter(s, p) == []
  {
    if s != [] {
      FilterNone(s[..|s| - 1], p);
    }
  }

  lemma {:induction false} FilterAppend<T(!new)>(a: seq<T>, b: seq<T>, p: T -> bool)
    ensures Filter(a + b, p) == Filter(a, p) + Filter(b, p)
    decreases |b|
  {
    if b == [] {
      assert a + b == a;
    } else {
      var init, last := b[..|b| - 1], b[|b| - 1];
      var tail := if p(last) then [last] else [];
      assert (a + b)[..|a + b| - 1] == a + init && (a + b)[|a + b| - 1] == last;
      assert Filter(a + b, p) == Filter(a + init, p) + tail;
      assert Filter(b, p) == Filter(init, p) + tail;
      FilterAppend(a, init, p);
      assert Filter(a, p) + Filter(init, p) + tail == Filter(a, p) + (Filter(init, p) + tail);
    }
  }

  /** Filtering twice by the same predicate changes nothing more. */
  lemma {:induction false} FilterIdempotent<T(!new)>(s: seq<T>, p: T -> bool)
    ensures Filter(Filter(s, p), p) == Filter(s, p)
  {
    if s != [] {
      var init := s[..|s| - 1];
      FilterIdempotent(init, p);
      var tail := if p(s[|s| - 1]) then [s[|s| - 1]] else [];
      FilterAppend(Filter(init, p), tail, p);
    }
  }

  // ---------------------------------------------------------------------
  // Sums

  function Sum(s: seq<real>): real {
    if s == [] then 0.0 else Sum(s[..|s| - 1]) + s[|s| - 1]
  }

  lemma {:induction false} SumAppend(a: seq<real>, b: seq<real>)
    ensures Sum(a + b) == Sum(a) + Sum(b)
    decreases |b|
  {
    if b == [] {
      assert a + b == a;
    } else {
      assert (a + b)[..|a + b| - 1] == a + b[..|b| - 1];
      SumAppend(a, b[..|b| - 1]);
    }
  }

  /** The sum of f over the elements of s. */
  function SumBy<T>(s: seq<T>, f: T -> real): real {
    if s == [] then 0.0 else SumBy(s[..|s| - 1], f) + f(s[|s| - 1])
  }

  lemma {:induction false} SumByAppend<T>(a: seq<T>, b: seq<T>, f: T -> real)
    ensures SumBy(a + b, f) == SumBy(a, f) + SumBy(b, f)
    decreases |b|
  {
    if b == [] {
      assert a + b == a;
    } else {
      assert (a + b)[..|a + b| - 1] == a + b[..|b| - 1];
      SumByAppend(a, b[..|b| - 1], f);
    }
  }

  /** Sequences whose elements contribute the same amounts, position by position, have the same sum. */
  lemma {:induction false} SumByPointwise<A, B>(a: seq<A>, b: seq<B>, f: A -> real, g: B -> real)
    requires |a| == |b|
    requires forall i :: 0 <= i < |a| ==> f(a[i]) == g(b[i])
    ensures SumBy(a, f) == SumBy(b, g)
  {
    if a != [] {
      SumByPointwise(a[..|a| - 1], b[..|b| - 1], f, g);
    }
  }

  /** Reordering the elements leaves the sum unchanged. */
  lemma {:induction false} SumByPermutation<T>(a: seq<T>, b: seq<T>, f: T -> real)
    requires multiset(a) == multiset(b)
    ensures SumBy(a, f) == SumBy(b, f)
    decreases |a|
  {
    if a == [] {
      assert |b| == |multiset(b)| == 0;
    } else {
      var init, x := a[..|a| - 1], a[|a| - 1];
      assert a == init + [x];
      assert x in multiset(b);
      var j :| 0 <= j < |b| && b[j] == x;
      var rest := b[..j] + b[j + 1..];
      PermutationRemoveLast(a, b, j);
      SumByPermutation(init, rest, f);
      SumByRemoveOne(b, j, f);
      SumByAppend(init, [x], f);
      assert SumBy([x], f) == f(x) by {
        assert [x][..0] == [];
      }
    }
  }

  /** Removing the last of a and an equal element of b leaves two permutations of each other. */
  lemma {:induction false} PermutationRemoveLast<T>(a: seq<T>, b: seq<T>, j: nat)
    requires multiset(a) == multiset(b) && |a| > 0 && j < |b| && b[j] == a[|a| - 1]
    ensures multiset(a[..|a| - 1]) == multiset(b[..j] + b[j + 1..])
  {
    var init, x := a[..|a| - 1], a[|a| - 1];
    assert a == init + [x];
    RemoveOneMultiset(b, j);
    assert multiset(a) == multiset(init) + multiset{x};
    assert multiset(b[..j] + b[j + 1..]) == multiset(b) - multiset{x};
    assert multiset(init) == multiset(a) - multiset{x};
  }

  lemma {:induction false} RemoveOneMultiset<T>(b: seq<T>, j: nat)
    requires j < |b|
    ensures multiset(b) == multiset(b[..j] + b[j + 1..]) + multiset{b[j]}
  {
    assert b == b[..j] + [b[j]] + b[j + 1..];
  }

  lemma {:induction false} SumByRemoveOne<T>(b: seq<T>, j: nat, f: T -> real)
    requires j < |b|
    ensures SumBy(b, f) == SumBy(b[..j] + b[j + 1..], f) + f(b[j])
  {
    var p, x, q := b[..j], b[j], b[j + 1..];
    assert b == (p + [x]) + q;
    assert SumBy([x], f) == f(x) by {
      assert [x][..0] == [];
    }
    SumByAppend(p + [x], q, f);
    SumByAppend(p, [x], f);
    SumByAppend(p, q, f);
  }

  /** Dropping elements whose f is zero leaves the sum unchanged. */
  lemma {:induction false} SumByFilter<T(!new)>(s: seq<T>, p: T -> bool, f: T -> real)
    requires forall x :: x in s && !p(x) ==> f(x) == 0.0
    ensures SumBy(Filter(s, p), f) == SumBy(s, f)
  {
    if s != [] {
      var init, last := s[..|s| - 1], s[|s| - 1];
      var tail := if p(last) then [last] else [];
      assert Filter(s, p) == Filter(init, p) + tail;
      assert SumBy(s, f) == SumBy(init, f) + f(last);
      forall x | x in init && !p(x) ensures f(x) == 0.0 {
        assert x in s;
      }
      SumByFilter(init, p, f);
      SumByAppend(Filter(init, p), tail, f);
      if p(last) {
        assert [last][..0] == [];
        assert SumBy(tail, f) == f(last);
      } else {
        assert last in s;
        assert SumBy(tail, f) == 0.0 == f(last);
      }
    }
  }

  // ---------------------------------------------------------------------
  // drop_duplicates(subset=[key]) with keep="first"

  predicate HasKey<T(!new), K(==)>(s: seq<T>, key: T -> K, k: K) {
    exists i :: 0 <= i < |s| && key(s[i]) == k
  }

  predicate UniqueKeys<T(!new), K(==)>(s: seq<T>, key: T -> K) {
    forall i, j :: 0 <= i < j < |s| ==> key(s[i]) != key(s[j])
  }

  /** The first element of s whose key is k. */
  function FirstWithKey<T(!new), K(==)>(s: seq<T>, key: T -> K, k: K): (r: Option<T>)
    ensures r.None? <==> !HasKey(s, key, k)
    ensures r.Some? ==> r.value in s && key(r.value) == k
  {
    if s == [] then None
    else if key(s[0]) == k then Some(s[0])
    else
      var r := FirstWithKey(s[1..], key, k);
      assert HasKey(s, key, k) ==> HasKey(s[1..], key, k) by {
        if HasKey(s, key, k) {
          var i :| 0 <= i < |s| && key(s[i]) == k;
          assert i > 0 && key(s[1..][i - 1]) == k;
        }
      }
      assert HasKey(s[1..], key, k) ==> HasKey(s, key, k) by {
        if HasKey(s[1..], key, k) {
          var i :| 0 <= i < |s[1..]| && key(s[1..][i]) == k;
          assert key(s[i + 1]) == k;
        }
      }
      r
  }

  /** Keeps the first element of every key, in the order of the input. */
  function DedupBy<T(!new), K(==)>(s: seq<T>, key: T -> K): seq<T>
  {
    if s == [] then []
    else
      var d := DedupBy(s[..|s| - 1], key);
      if HasKey(d, key, key(s[|s| - 1])) then d else d + [s[|s| - 1]]
  }

  lemma {:induction false} FirstWithKeyAppend<T(!new), K>(a: seq<T>, b: seq<T>, key: T -> K, k: K)
    ensures FirstWithKey(a + b, key, k)
            == if HasKey(a, key, k) then FirstWithKey(a, key, k) else FirstWithKey(b, key, k)
  {
    if a == [] {
      assert a + b == b;
    } else {
      assert (a + b)[1..] == a[1..] + b;
      FirstWithKeyAppend(a[1..], b, key, k);
    }
  }

  lemma HasKeyAppend<T(!new), K>(a: seq<T>, b: seq<T>, key: T -> K, k: K)
    ensures HasKey(a + b, key, k) <==> HasKey(a, key, k) || HasKey(b, key, k)
  {
    if HasKey(a + b, key, k) {
      var i :| 0 <= i < |a + b| && key((a + b)[i]) == k;
      if i >= |a| {
        assert key(b[i - |a|]) == k;
      }
    }
    if HasKey(a, key, k) {
      var i :| 0 <= i < |a| && key(a[i]) == k;
      assert key((a + b)[i]) == k;
    }
    if HasKey(b, key, k) {
      var i :| 0 <= i < |b| && key(b[i]) == k;
      assert key((a + b)[i + |a|]) == k;
    }
  }

  /**
   * The deduplicated rows have pairwise distinct keys, come from the
   * input, and cover every key of the input.
   */
  lemma {:induction false} DedupByKeys<T(!new), K>(s: seq<T>, key: T -> K)
    ensures UniqueKeys(DedupBy(s, key), key)
    ensures forall x :: x in DedupBy(s, key) ==> x in s
    ensures forall k :: HasKey(DedupBy(s, key), key, k) <==> HasKey(s, key, k)
  {
    if s != [] {
      var init, last := s[..|s| - 1], s[|s| - 1];
      DedupByKeys(init, key);
      var d := DedupBy(init, key);
      assert init + [last] == s;
      forall k ensures HasKey(DedupBy(s, key), key, k) <==> HasKey(s, key, k) {
        HasKeyAppend(init, [last], key, k);
        HasKeyAppend(d, [last], key, k);
        assert HasKey([last], key, k) <==> key(last) == k;
      }
      if !HasKey(d, key, key(last)) {
        forall i, j | 0 <= i < j < |d + [last]| ensures key((d + [last])[i]) != key((d + [last])[j]) {
          if j == |d| {
            assert (d + [last])[i] == d[i];
          }
        }
      }
    }
  }

  /** Every kept row is the first row of the input bearing its key. */
  lemma {:induction false} DedupByKeepsFirst<T(!new), K>(s: seq<T>, key: T -> K)
    ensures forall x :: x in DedupBy(s, key) ==> FirstWithKey(s, key, key(x)) == Some(x)
  {
    if s != [] {
      var init, last := s[..|s| - 1], s[|s| - 1];
      DedupByKeepsFirst(init, key);
      DedupByKeys(init, key);
      assert init + [last] == s;
      forall x | x in DedupBy(s, key) ensures FirstWithKey(s, key, key(x)) == Some(x) {
        FirstWithKeyAppend(init, [last], key, key(x));
        if x in DedupBy(init, key) {
          var i :| 0 <= i < |DedupBy(init, key)| && DedupBy(init, key)[i] == x;
          assert HasKey(DedupBy(init, key), key, key(x));
        } else {
          assert x == last && !HasKey(init, key, key(last));
        }
      }
    }
  }

  /** Rows whose keys are already distinct pass through unchanged. */
  lemma {:induction false} DedupByOfUnique<T(!new), K>(s: seq<T>, key: T -> K)
    requires UniqueKeys(s, key)
    ensures DedupBy(s, key) == s
  {
    if s != [] {
      var init := s[..|s| - 1];
      DedupByOfUnique(init, key);
      forall i | 0 <= i < |init| ensures key(init[i]) != key(s[|s| - 1]) {
        assert init[i] == s[i];
      }
      assert init + [s[|s| - 1]] == s;
    }
  }

  /** Deduplicating a second time changes nothing. */
  lemma DedupByIdempotent<T(!new), K>(s: seq<T>, key: T -> K)
    ensures DedupBy(DedupBy(s, key), key) == DedupBy(s, key)
  {
    DedupByKeys(s, key);
    DedupByOfUnique(DedupBy(s, key), key);
  }

  /** Deduplicating changes nobody's first occurrence. */
  lemma FirstWithKeyOfDedup<T(!new), K>(s: seq<T>, key: T -> K, k: K)
    ensures FirstWithKey(DedupBy(s, key), key, k) == FirstWithKey(s, key, k)
  {
    DedupByKeys(s, key);
    DedupByKeepsFirst(s, key);
  }

  /** When keys are distinct, each element is the first with its own key. */
  lemma FirstWithKeyOfUnique<T(!new), K>(s: seq<T>, key: T -> K, i: nat)
    requires UniqueKeys(s, key) && i < |s|
    ensures FirstWithKey(s, key, key(s[i])) == Some(s[i])
  {
    DedupByOfUnique(s, key);
    DedupByKeepsFirst(s, key);
    assert s[i] in DedupBy(s, key);
  }

  /** Distinct keys mean no element occurs twice. */
  lemma {:induction false} UniqueKeysOccurOnce<T(!new), K>(s: seq<T>, key: T -> K)
    requires UniqueKeys(s, key)
    ensures forall x :: multiset(s)[x] <= 1
  {
    if s != [] {
      var init, last := s[..|s| - 1], s[|s| - 1];
      assert UniqueKeys(init, key);
      UniqueKeysOccurOnce(init, key);
      assert last !in init by {
        forall i | 0 <= i < |init| ensures init[i] != last {
          assert key(s[i]) != key(s[|s| - 1]);
        }
      }
      assert s == init + [last];
    }
  }

  /** A reordering of elements with distinct keys still has distinct keys. */
  lemma UniqueKeysPermutation<T(!new), K>(a: seq<T>, b: seq<T>, key: T -> K)
    requires multiset(a) == multiset(b) && UniqueKeys(a, key)
    ensures UniqueKeys(b, key)
  {
    UniqueKeysOccurOnce(a, key);
    forall i, j | 0 <= i < j < |b| ensures key(b[i]) != key(b[j]) {
      TwoIndicesCountTwice(b, i, j);
      assert b[i] in multiset(a) && b[j] in multiset(a);
      var p :| 0 <= p < |a| && a[p] == b[i];
      var q :| 0 <= q < |a| && a[q] == b[j];
      assert p != q;
      if p < q {
        assert key(a[p]) != key(a[q]);
      } else {
        assert key(a[q]) != key(a[p]);
      }
    }
  }

  /** A reordering has the same keys. */
  lemma HasKeyPermutation<T(!new), K>(a: seq<T>, b: seq<T>, key: T -> K)
    requires multiset(a) == multiset(b)
    ensures forall k :: HasKey(a, key, k) <==> HasKey(b, key, k)
  {
    forall k ensures HasKey(a, key, k) ==> HasKey(b, key, k) {
      HasKeyInPermutation(a, b, key, k);
    }
    forall k ensures HasKey(b, key, k) ==> HasKey(a, key, k) {
      HasKeyInPermutation(b, a, key, k);
    }
  }

  lemma HasKeyInPermutation<T(!new), K>(a: seq<T>, b: seq<T>, key: T -> K, k: K)
    requires multiset(a) == multiset(b)
    ensures HasKey(a, key, k) ==> HasKey(b, key, k)
  {
    if HasKey(a, key, k) {
      var i :| 0 <= i < |a| && key(a[i]) == k;
      assert a[i] in multiset(b);
      var j :| 0 <= j < |b| && b[j] == a[i];
    }
  }

  /** Sequences whose keys agree position by position have the same keys, distinct in both or in neither. */
  lemma KeysPointwise<A(!new), B(!new), K>(a: seq<A>, b: seq<B>, ka: A -> K, kb: B -> K)
    requires |a| == |b|
    requires forall i :: 0 <= i < |a| ==> ka(a[i]) == kb(b[i])
    ensures UniqueKeys(a, ka) <==> UniqueKeys(b, kb)
    ensures forall k :: HasKey(a, ka, k) <==> HasKey(b, kb, k)
  {
    forall k ensures HasKey(a, ka, k) <==> HasKey(b, kb, k) {
      if HasKey(a, ka, k) {
        var i :| 0 <= i < |a| && ka(a[i]) == k;
        assert kb(b[i]) == k;
      }
      if HasKey(b, kb, k) {
        var i :| 0 <= i < |b| && kb(b[i]) == k;
        assert ka(a[i]) == k;
      }
    }
  }

  lemma TwoIndicesCountTwice<T>(s: seq<T>, i: nat, j: nat)
    requires i < j < |s|
    ensures s[i] == s[j] ==> multiset(s)[s[i]] >= 2
  {
    assert s == s[..j] + s[j..];
    assert s[i] in s[..j] && s[j] in s[j..];
    assert multiset(s)[s[i]] == multiset(s[..j])[s[i]] + multiset(s[j..])[s[i]];
  }

  // ---------------------------------------------------------------------
  // groupby(keys).sum(), keeping groups in order of first appearance

  datatype Bucket<K> = Bucket(key: K, values: seq<real>)

  function BucketKey<K>(b: Bucket<K>): K { b.key }

  function PairKey<K>(p: (K, real)): K { p.0 }

  /** The values of the pairs whose key is k, in input order. */
  function Select<K(==)>(s: seq<(K, real)>, k: K): seq<real> {
    if s == [] then []
    else Select(s[..|s| - 1], k) + (if s[|s| - 1].0 == k then [s[|s| - 1].1] else [])
  }

  /** The values collected for key k (none when no bucket has that key). */
  function ValuesOf<K(==,!new)>(bs: seq<Bucket<K>>, k: K): seq<real> {
    match FirstWithKey(bs, BucketKey, k)
    case None => []
    case Some(b) => b.values
  }

  /** Files value v under key k: in k's bucket if there is one, else in a new last bucket. */
  function AddTo<K(==)>(bs: seq<Bucket<K>>, k: K, v: real): (r: seq<Bucket<K>>)
    requires forall b :: b in bs ==> |b.values| > 0
    ensures forall b :: b in r ==> |b.values| > 0
  {
    if bs == [] then [Bucket(k, [v])]
    else if bs[0].key == k then [bs[0].(values := bs[0].values + [v])] + bs[1..]
    else [bs[0]] + AddTo(bs[1..], k, v)
  }

  function Group<K(==)>(s: seq<(K, real)>): (r: seq<Bucket<K>>)
    ensures forall b :: b in r ==> |b.values| > 0
  {
    if s == [] then [] else AddTo(Group(s[..|s| - 1]), s[|s| - 1].0, s[|s| - 1].1)
  }

  function BucketTotals<K>(bs: seq<Bucket<K>>): real {
    if bs == [] then 0.0 else Sum(bs[0].values) + BucketTotals(bs[1..])
  }

  lemma {:induction false} AddToKeys<K(!new)>(bs: seq<Bucket<K>>, k: K, v: real)
    requires forall b :: b in bs ==> |b.values| > 0
    ensures forall k' :: HasKey(AddTo(bs, k, v), BucketKey, k') <==> HasKey(bs, BucketKey, k') || k' == k
  {
    var r := AddTo(bs, k, v);
    if bs == [] {
      assert BucketKey(r[0]) == k;
    } else {
      var tail := bs[1..];
      var head := if bs[0].key == k then bs[0].(values := bs[0].values + [v]) else bs[0];
      var rest := if bs[0].key == k then tail else AddTo(tail, k, v);
      if bs[0].key != k {
        AddToKeys(tail, k, v);
      }
      assert r == [head] + rest;
      assert bs == [bs[0]] + tail;
      forall k' ensures HasKey(r, BucketKey, k') <==> HasKey(bs, BucketKey, k') || k' == k {
        HasKeyAppend([head], rest, BucketKey, k');
        HasKeyAppend([bs[0]], tail, BucketKey, k');
        assert HasKey([head], BucketKey, k') <==> BucketKey(head) == k';
        assert HasKey([bs[0]], BucketKey, k') <==> BucketKey(bs[0]) == k';
      }
    }
  }

  lemma {:induction false} AddToUnique<K(!new)>(bs: seq<Bucket<K>>, k: K, v: real)
    requires forall b :: b in bs ==> |b.values| > 0
    requires UniqueKeys(bs, BucketKey)
    ensures UniqueKeys(AddTo(bs, k, v), BucketKey)
  {
    var r := AddTo(bs, k, v);
    if bs != [] {
      var tail := bs[1..];
      assert UniqueKeys(tail, BucketKey) by {
        forall i, j | 0 <= i < j < |tail| ensures BucketKey(tail[i]) != BucketKey(tail[j]) {
          assert tail[i] == bs[i + 1] && tail[j] == bs[j + 1];
        }
      }
      if bs[0].key == k {
        forall i, j | 0 <= i < j < |r| ensures BucketKey(r[i]) != BucketKey(r[j]) {
          assert r[j] == bs[j];
          assert i > 0 ==> r[i] == bs[i];
        }
      } else {
        var rest := AddTo(tail, k, v);
        AddToUnique(tail, k, v);
        AddToKeys(tail, k, v);
        assert r == [bs[0]] + rest;
        forall i, j | 0 <= i < j < |r| ensures BucketKey(r[i]) != BucketKey(r[j]) {
          if i == 0 {
            assert HasKey(rest, BucketKey, BucketKey(r[j])) by { assert rest[j - 1] == r[j]; }
            if BucketKey(r[j]) != k {
              assert HasKey(tail, BucketKey, BucketKey(r[j]));
              var t :| 0 <= t < |tail| && BucketKey(tail[t]) == BucketKey(r[j]);
              assert tail[t] == bs[t + 1];
            }
          } else {
            assert r[i] == rest[i - 1] && r[j] == rest[j - 1];
          }
        }
      }
    }
  }

  lemma {:induction false} AddToValues<K(!new)>(bs: seq<Bucket<K>>, k: K, v: real, k': K)
    requires forall b :: b in bs ==> |b.values| > 0
    ensures ValuesOf(AddTo(bs, k, v), k') == ValuesOf(bs, k') + (if k' == k then [v] else [])
  {
    var r := AddTo(bs, k, v);
    if bs == [] {
      assert r[1..] == [];
    } else {
      var tail := bs[1..];
      if bs[0].key == k {
        assert r[1..] == tail;
      } else {
        AddToValues(tail, k, v, k');
        assert r[1..] == AddTo(tail, k, v);
      }
    }
  }

  lemma {:induction false} AddToTotal<K>(bs: seq<Bucket<K>>, k: K, v: real)
    requires forall b :: b in bs ==> |b.values| > 0
    ensures BucketTotals(AddTo(bs, k, v)) == BucketTotals(bs) + v
  {
    var r := AddTo(bs, k, v);
    if bs == [] {
      assert Sum([v]) == Sum([]) + v;
      assert r[1..] == [];
    } else if bs[0].key == k {
      SumAppend(bs[0].values, [v]);
      assert Sum([v]) == Sum([]) + v;
      assert r[1..] == bs[1..];
    } else {
      AddToTotal(bs[1..], k, v);
      assert r[1..] == AddTo(bs[1..], k, v);
    }
  }

  /**
   * Grouping gives one bucket per distinct key, each holding exactly the
   * values of that key in input order, and loses no value from the total.
   */
  lemma GroupSpec<K(!new)>(s: seq<(K, real)>)
    ensures UniqueKeys(Group(s), BucketKey)
    ensures forall k :: HasKey(Group(s), BucketKey, k) <==> HasKey(s, PairKey, k)
    ensures forall k :: ValuesOf(Group(s), k) == Select(s, k)
    ensures BucketTotals(Group(s)) == Sum(SecondOf(s))
  {
    GroupUnique(s);
    GroupKeys(s);
    GroupValues(s);
    GroupTotal(s);
  }

  lemma {:induction false} GroupUnique<K(!new)>(s: seq<(K, real)>)
    ensures UniqueKeys(Group(s), BucketKey)
  {
    if s != [] {
      var init, last := s[..|s| - 1], s[|s| - 1];
      GroupUnique(init);
      AddToUnique(Group(init), last.0, last.1);
    }
  }

  lemma {:induction false} GroupKeys<K(!new)>(s: seq<(K, real)>)
    ensures forall k :: HasKey(Group(s), BucketKey, k) <==> HasKey(s, PairKey, k)
  {
    if s != [] {
      var init, last := s[..|s| - 1], s[|s| - 1];
      assert init + [last] == s;
      GroupKeys(init);
      AddToKeys(Group(init), last.0, last.1);
      forall k ensures HasKey(s, PairKey, k) <==> HasKey(init, PairKey, k) || k == last.0 {
        HasKeyAppend(init, [last], PairKey, k);
        assert HasKey([last], PairKey, k) <==> PairKey(last) == k;
      }
    }
  }

  lemma {:induction false} GroupValues<K(!new)>(s: seq<(K, real)>)
    ensures forall k :: ValuesOf(Group(s), k) == Select(s, k)
  {
    if s != [] {
      var init, last := s[..|s| - 1], s[|s| - 1];
      GroupValues(init);
      forall k ensures ValuesOf(Group(s), k) == Select(s, k) {
        AddToValues(Group(init), last.0, last.1, k);
      }
    }
  }

  lemma {:induction false} GroupTotal<K(!new)>(s: seq<(K, real)>)
    ensures BucketTotals(Group(s)) == Sum(SecondOf(s))
  {
    if s != [] {
      var init, last := s[..|s| - 1], s[|s| - 1];
      assert SecondOf(s) == SecondOf(init) + [last.1];
      GroupTotal(init);
      AddToTotal(Group(init), last.0, last.1);
      SumAppend(SecondOf(init), [last.1]);
      assert Sum([last.1]) == Sum([]) + last.1;
    }
  }

  /** The values of a sequence of pairs. */
  function SecondOf<K>(s: seq<(K, real)>): (r: seq<real>)
    ensures |r| == |s|
    ensures forall i :: 0 <= i < |s| ==> r[i] == s[i].1
  {
    seq(|s|, i requires 0 <= i < |s| => s[i].1)
  }

  // ---------------------------------------------------------------------
  // sort_values: insertion sort by a comparison `le`

  ghost predicate Total<T(!new)>(le: (T, T) -> bool) {
    forall a, b :: le(a, b) || le(b, a)
  }

  predicate Sorted<T>(s: seq<T>, le: (T, T) -> bool) {
    forall i :: 0 <= i < |s| - 1 ==> le(s[i], s[i + 1])
  }

  function Insert<T>(x: T, s: seq<T>, le: (T, T) -> bool): (r: seq<T>)
    ensures multiset(r) == multiset(s) + multiset{x}
    ensures |r| == |s| + 1
    ensures r[0] == x || (|s| > 0 && r[0] == s[0])
  {
    if s == [] then [x]
    else if le(x, s[0]) then [x] + s
    else
      assert s == [s[0]] + s[1..];
      [s[0]] + Insert(x, s[1..], le)
  }

  /** The rows of s reordered so that each is `le` its successor. */
  function SortBy<T>(s: seq<T>, le: (T, T) -> bool): (r: seq<T>)
    ensures multiset(r) == multiset(s)
  {
    if s == [] then []
    else
      assert s == [s[0]] + s[1..];
      Insert(s[0], SortBy(s[1..], le), le)
  }

  lemma {:induction false} InsertSorted<T(!new)>(x: T, s: seq<T>, le: (T, T) -> bool)
    requires Total(le) && Sorted(s, le)
    ensures Sorted(Insert(x, s, le), le)
  {
    if s != [] && !le(x, s[0]) {
      var tail := s[1..];
      assert Sorted(tail, le) by {
        forall i | 0 <= i < |tail| - 1 ensures le(tail[i], tail[i + 1]) {
          assert tail[i] == s[i + 1] && tail[i + 1] == s[i + 2];
        }
      }
      InsertSorted(x, tail, le);
      var r := Insert(x, s, le);
      var rest := Insert(x, tail, le);
      assert r == [s[0]] + rest;
      assert le(s[0], rest[0]) by {
        if rest[0] == x {
          assert le(x, s[0]) || le(s[0], x);
        } else {
          assert rest[0] == s[1];
        }
      }
      forall i | 0 <= i < |r| - 1 ensures le(r[i], r[i + 1]) {
        if i > 0 {
          assert r[i] == rest[i - 1] && r[i + 1] == rest[i];
        }
      }
    }
  }

  /** Under a total comparison the sort's output is ordered. */
  lemma {:induction false} SortBySorted<T(!new)>(s: seq<T>, le: (T, T) -> bool)
    requires Total(le)
    ensures Sorted(SortBy(s, le), le)
  {
    if s != [] {
      SortBySorted(s[1..], le);
      InsertSorted(s[0], SortBy(s[1..], le), le);
    }
  }
}
