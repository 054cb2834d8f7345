/** Grouping a sequence by a key, the way a `reduce` into a keyed accumulator object does it:
    keys in first-seen order, and per key the elements with that key in their input order. */
module Grouping {
  import opened Wrappers

  predicate Distinct<K(==)>(ks: seq<K>) {
    forall i, j :: 0 <= i < j < |ks| ==> ks[i] != ks[j]
  }

  /** The distinct keys of the elements of `s` in the order they are first seen. */
  function KeysInOrder<T, K(==)>(s: seq<T>, key: T -> K): (ks: seq<K>)
    ensures Distinct(ks)
    ensures forall i :: 0 <= i < |s| ==> key(s[i]) in ks
    ensures forall k :: k in ks ==> exists i :: 0 <= i < |s| && key(s[i]) == k
  {
    if s == [] then [] else
      var ks := KeysInOrder(s[..|s| - 1], key);
      var k := key(s[|s| - 1]);
      assert forall i :: 0 <= i < |s| - 1 ==> s[..|s| - 1][i] == s[i];
      if k in ks then ks else ks + [k]
  }

  /** The elements of `s` whose key is `k`, in their order in `s`. */
  function Select<T, K(==)>(s: seq<T>, key: T -> K, k: K): (r: seq<T>)
    ensures |r| <= |s|
    ensures forall i :: 0 <= i < |r| ==> key(r[i]) == k
  {
    if s == [] then [] else
      Select(s[..|s| - 1], key, k) + (if key(s[|s| - 1]) == k then [s[|s| - 1]] else [])
  }

  /** A key has elements exactly when it is among the keys seen. */
  lemma {:induction false} SelectNonEmptyIffSeen<T, K>(s: seq<T>, key: T -> K, k: K)
    ensures Select(s, key, k) != [] <==> k in KeysInOrder(s, key)
  {
    if s != [] {
      SelectNonEmptyIffSeen(s[..|s| - 1], key, k);
    }
  }

  /** The weight `w` summed over the elements of `s`. */
  function SumW<T>(s: seq<T>, w: T -> int): int {
    if s == [] then 0 else SumW(s[..|s| - 1], w) + w(s[|s| - 1])
  }

  function Unit<T>(x: T): int { 1 }

  /** Summing weight one counts. */
  lemma {:induction false} SumUnitIsLength<T>(s: seq<T>)
    ensures SumW(s, Unit) == |s|
  {
    if s != [] {
      SumUnitIsLength(s[..|s| - 1]);
    }
  }

  /** Sums over a sequence of weights that are all bounded by `lo` and `hi`. */
  lemma {:induction false} SumWBounds<T>(s: seq<T>, w: T -> int, lo: int, hi: int)
    requires forall i :: 0 <= i < |s| ==> lo <= w(s[i]) <= hi
    ensures |s| * lo <= SumW(s, w) <= |s| * hi
  {
    if s != [] {
      var s' := s[..|s| - 1];
      assert forall i :: 0 <= i < |s'| ==> s'[i] == s[i];
      SumWBounds(s', w, lo, hi);
      assert |s| * lo == |s'| * lo + lo && |s| * hi == |s'| * hi + hi;
    }
  }

  /** Sums of `f` and `g` over the same sequence agree when `f` and `g` agree on its elements. */
  lemma {:induction false} SumWPointwise<K>(ks: seq<K>, f: K -> int, g: K -> int)
    requires forall i :: 0 <= i < |ks| ==> f(ks[i]) == g(ks[i])
    ensures SumW(ks, f) == SumW(ks, g)
  {
    if ks != [] {
      var ks' := ks[..|ks| - 1];
      assert forall i :: 0 <= i < |ks'| ==> ks'[i] == ks[i];
      SumWPointwise(ks', f, g);
    }
  }

  /** Raising `f` by `d` at one element `a` of a sequence without repetitions raises the sum by `d`. */
  lemma {:induction false} SumWBump<K>(ks: seq<K>, f: K -> int, g: K -> int, a: K, d: int)
    requires Distinct(ks) && a in ks
    requires forall i :: 0 <= i < |ks| ==> f(ks[i]) == g(ks[i]) + (if ks[i] == a then d else 0)
    ensures SumW(ks, f) == SumW(ks, g) + d
  {
    var ks' := ks[..|ks| - 1];
    assert forall i :: 0 <= i < |ks'| ==> ks'[i] == ks[i];
    if ks[|ks| - 1] == a {
      assert a !in ks';
      SumWPointwise(ks', f, g);
    } else {
      assert a in ks';
      SumWBump(ks', f, g, a, d);
    }
  }

  /** Grouping conserves weight: summed over distinct keys that cover every element, the
      per-key sums add up to the sum over the whole sequence. */
  lemma {:induction false} PartitionSum<T, K>(s: seq<T>, key: T -> K, w: T -> int, ks: seq<K>)
    requires Distinct(ks)
    requires forall i :: 0 <= i < |s| ==> key(s[i]) in ks
    ensures SumW(ks, k => SumW(Select(s, key, k), w)) == SumW(s, w)
  {
    if s == [] {
      SumWPointwise(ks, k => SumW(Select(s, key, k), w), k => 0);
      SumWZero(ks);
    } else {
      var s' := s[..|s| - 1];
      var x := s[|s| - 1];
      assert forall i :: 0 <= i < |s'| ==> s'[i] == s[i];
      PartitionSum(s', key, w, ks);
      forall i | 0 <= i < |ks|
        ensures SumW(Select(s, key, ks[i]), w)
          == SumW(Select(s', key, ks[i]), w) + (if ks[i] == key(x) then w(x) else 0)
      {
        var sel := Select(s', key, ks[i]);
        if key(x) == ks[i] {
          assert Select(s, key, ks[i]) == sel + [x];
          assert (sel + [x])[..|sel|] == sel;
          assert SumW(sel + [x], w) == SumW(sel, w) + w(x);
        } else {
          assert Select(s, key, ks[i]) == sel + [];
          assert sel + [] == sel;
        }
      }
      SumWBump(ks, k => SumW(Select(s, key, k), w), k => SumW(Select(s', key, k), w), key(x), w(x));
    }
  }

  lemma {:induction false} SumWZero<K>(ks: seq<K>)
    ensures SumW(ks, k => 0) == 0
  {
    if ks != [] {
      SumWZero(ks[..|ks| - 1]);
    }
  }

  /** Grouping conserves the number of elements. */
  lemma {:induction false} PartitionCount<T, K>(s: seq<T>, key: T -> K, ks: seq<K>)
    requires Distinct(ks)
    requires forall i :: 0 <= i < |s| ==> key(s[i]) in ks
    ensures SumW(ks, k => |Select(s, key, k)|) == |s|
  {
    PartitionSum(s, key, Unit, ks);
    SumUnitIsLength(s);
    forall i | 0 <= i < |ks| ensures SumW(Select(s, key, ks[i]), Unit) == |Select(s, key, ks[i])| {
      SumUnitIsLength(Select(s, key, ks[i]));
    }
    SumWPointwise(ks, k => |Select(s, key, k)|, k => SumW(Select(s, key, k), Unit));
  }

  /** A prefix one longer is the prefix extended by the next element. */
  lemma {:induction false} TakeSnoc<T>(s: seq<T>, i: int)
    requires 0 <= i < |s|
    ensures s[..i + 1] == s[..i] + [s[i]]
  {
  }

  /** Appending one element extends the keys seen by its key, if new. */
  lemma {:induction false} KeysInOrderSnoc<T, K>(s: seq<T>, x: T, key: T -> K)
    ensures KeysInOrder(s + [x], key)
      == if key(x) in KeysInOrder(s, key) then KeysInOrder(s, key) else KeysInOrder(s, key) + [key(x)]
  {
    assert (s + [x])[..|s|] == s;
  }

  /** Appending one element extends the selection of its key by it. */
  lemma {:induction false} SelectSnoc<T, K>(s: seq<T>, x: T, key: T -> K, k: K)
    ensures Select(s + [x], key, k) == Select(s, key, k) + (if key(x) == k then [x] else [])
  {
    assert (s + [x])[..|s|] == s;
  }

  /** Selecting by two keys does not depend on the order in which the selections are made. */
  lemma {:induction false} SelectCommutes<T, K1, K2>(s: seq<T>, key1: T -> K1, a: K1, key2: T -> K2, b: K2)
    ensures Select(Select(s, key1, a), key2, b) == Select(Select(s, key2, b), key1, a)
  {
    if s != [] {
      var s' := s[..|s| - 1];
      var x := s[|s| - 1];
      assert s == s' + [x];
      SelectCommutes(s', key1, a, key2, b);
      SelectSnoc(s', x, key1, a);
      SelectSnoc(s', x, key2, b);
      if key1(x) == a {
        SelectSnoc(Select(s', key1, a), x, key2, b);
      } else {
        assert Select(s', key1, a) + [] == Select(s', key1, a);
      }
      if key2(x) == b {
        SelectSnoc(Select(s', key2, b), x, key1, a);
      } else {
        assert Select(s', key2, b) + [] == Select(s', key2, b);
      }
    }
  }

  /** `F` applied to every element of `ks`. */
  function MapSeq<K, V>(ks: seq<K>, F: K -> V): (r: seq<V>)
    ensures |r| == |ks| && forall i :: 0 <= i < |ks| ==> r[i] == F(ks[i])
  {
    if ks == [] then [] else MapSeq(ks[..|ks| - 1], F) + [F(ks[|ks| - 1])]
  }

  /** Summing a weight over mapped elements is summing, over the originals, any weight `h` that
      agrees with the weight of the mapped element. */
  lemma {:induction false} SumWMap<K, V>(ks: seq<K>, F: K -> V, w: V -> int, h: K -> int)
    requires forall i :: 0 <= i < |ks| ==> h(ks[i]) == w(F(ks[i]))
    ensures SumW(MapSeq(ks, F), w) == SumW(ks, h)
  {
    if ks != [] {
      var ks' := ks[..|ks| - 1];
      assert forall i :: 0 <= i < |ks'| ==> ks'[i] == ks[i];
      SumWMap(ks', F, w, h);
      assert MapSeq(ks, F)[..|ks| - 1] == MapSeq(ks', F);
    }
  }

  /** Sums are additive in the weight. */
  lemma {:induction false} SumWAdd<T>(s: seq<T>, f: T -> int, g: T -> int, h: T -> int)
    requires forall i :: 0 <= i < |s| ==> h(s[i]) == f(s[i]) + g(s[i])
    ensures SumW(s, h) == SumW(s, f) + SumW(s, g)
  {
    if s != [] {
      var s' := s[..|s| - 1];
      assert forall i :: 0 <= i < |s'| ==> s'[i] == s[i];
      SumWAdd(s', f, g, h);
    }
  }

  /** The values of `m` in the order of `keys`. */
  function ValuesInOrder<K, V>(keys: seq<K>, m: map<K, V>): (vs: seq<V>)
    requires forall i :: 0 <= i < |keys| ==> keys[i] in m
    ensures |vs| == |keys| && forall i :: 0 <= i < |keys| ==> vs[i] == m[keys[i]]
  {
    if keys == [] then [] else ValuesInOrder(keys[..|keys| - 1], m) + [m[keys[|keys| - 1]]]
  }

  /** Every element selected has each property all elements have. */
  lemma {:induction false} SelectAll<T, K>(s: seq<T>, key: T -> K, k: K, P: T -> bool)
    requires forall i :: 0 <= i < |s| ==> P(s[i])
    ensures forall i :: 0 <= i < |Select(s, key, k)| ==> P(Select(s, key, k)[i])
  {
    if s != [] {
      var s' := s[..|s| - 1];
      assert forall i :: 0 <= i < |s'| ==> s'[i] == s[i];
      SelectAll(s', key, k, P);
    }
  }

  /** Sums are monotone in the weight. */
  lemma {:induction false} SumWLe<T>(s: seq<T>, f: T -> int, g: T -> int)
    requires forall i :: 0 <= i < |s| ==> f(s[i]) <= g(s[i])
    ensures SumW(s, f) <= SumW(s, g)
  {
    if s != [] {
      var s' := s[..|s| - 1];
      assert forall i :: 0 <= i < |s'| ==> s'[i] == s[i];
      SumWLe(s', f, g);
    }
  }

  /** Mapping distinct keys to values that carry their key, and selecting one key, leaves the
      value of that key alone, or nothing when the key is not among them. */
  lemma {:induction false} SelectMapDistinct<K, V>(ks: seq<K>, F: K -> V, key: V -> K, k: K)
    requires Distinct(ks)
    requires forall i :: 0 <= i < |ks| ==> key(F(ks[i])) == ks[i]
    ensures Select(MapSeq(ks, F), key, k) == if k in ks then [F(k)] else []
  {
    if ks != [] {
      var ks' := ks[..|ks| - 1];
      var x := ks[|ks| - 1];
      DistinctSplit(ks);
      forall i | 0 <= i < |ks'| ensures key(F(ks'[i])) == ks'[i] {
        assert ks'[i] == ks[i];
      }
      SelectMapDistinct(ks', F, key, k);
      var ms := MapSeq(ks', F);
      assert MapSeq(ks, F) == ms + [F(x)];
      SelectSnoc(ms, F(x), key, k);
      assert key(F(x)) == x;
      assert k in ks <==> k in ks' || k == x by {
        assert ks == ks' + [x];
      }
    }
  }

  /** Distinct keys: those before the last are distinct, and the last is not among them. */
  lemma {:induction false} DistinctSplit<K>(ks: seq<K>)
    requires ks != [] && Distinct(ks)
    ensures Distinct(ks[..|ks| - 1]) && ks[|ks| - 1] !in ks[..|ks| - 1]
  {
    var ks' := ks[..|ks| - 1];
    assert forall i :: 0 <= i < |ks'| ==> ks'[i] == ks[i];
    forall i | 0 <= i < |ks'| ensures ks'[i] != ks[|ks| - 1] {
      assert ks[i] != ks[|ks| - 1];
    }
  }

  /** Of distinct keys covering every element of `s`, as many are seen in `s` as `s` has
      distinct keys. */
  lemma {:induction false} CountSeen<T, K>(s: seq<T>, key: T -> K, ks: seq<K>)
    requires Distinct(ks)
    requires forall i :: 0 <= i < |s| ==> key(s[i]) in ks
    ensures SumW(ks, k => if k in KeysInOrder(s, key) then 1 else 0) == |KeysInOrder(s, key)|
  {
    if s == [] {
      SumWPointwise(ks, k => if k in KeysInOrder(s, key) then 1 else 0, k => 0);
      SumWZero(ks);
    } else {
      var s' := s[..|s| - 1];
      var x := s[|s| - 1];
      assert s == s' + [x];
      assert forall i :: 0 <= i < |s'| ==> s'[i] == s[i];
      CountSeen(s', key, ks);
      KeysInOrderSnoc(s', x, key);
      if key(x) in KeysInOrder(s', key) {
        SumWPointwise(ks, k => if k in KeysInOrder(s, key) then 1 else 0, k => if k in KeysInOrder(s', key) then 1 else 0);
      } else {
        SumWBump(ks, k => if k in KeysInOrder(s, key) then 1 else 0, k => if k in KeysInOrder(s', key) then 1 else 0, key(x), 1);
      }
    }
  }

  /** Selecting from a concatenation selects from each part. */
  lemma {:induction false} SelectAppend<T, K>(xs: seq<T>, ys: seq<T>, key: T -> K, k: K)
    ensures Select(xs + ys, key, k) == Select(xs, key, k) + Select(ys, key, k)
  {
    if ys == [] {
      assert xs + ys == xs;
    } else {
      var ys' := ys[..|ys| - 1];
      var y := ys[|ys| - 1];
      assert ys == ys' + [y];
      assert xs + ys == (xs + ys') + [y];
      SelectAppend(xs, ys', key, k);
      SelectSnoc(xs + ys', y, key, k);
      SelectSnoc(ys', y, key, k);
      AppendAssoc(Select(xs, key, k), Select(ys', key, k), if key(y) == k then [y] else []);
    }
  }

  /** A sequence has keys exactly when it is not empty. */
  lemma {:induction false} KeysNonEmpty<T, K>(s: seq<T>, key: T -> K)
    ensures KeysInOrder(s, key) != [] <==> s != []
  {
    if s != [] {
      assert key(s[0]) in KeysInOrder(s, key);
    }
  }

  /** The elements selected by one key still have their keys under another among the keys seen. */
  lemma {:induction false} SelectCovered<T, K, J>(s: seq<T>, key1: T -> K, k: K, key2: T -> J)
    ensures forall i :: 0 <= i < |Select(s, key1, k)| ==> key2(Select(s, key1, k)[i]) in KeysInOrder(s, key2)
  {
    var ks := KeysInOrder(s, key2);
    SelectAll(s, key1, k, x => key2(x) in ks);
  }

  /** A sum over a concatenation is the sum of the two sums. */
  lemma {:induction false} SumWConcat<T>(xs: seq<T>, ys: seq<T>, w: T -> int)
    ensures SumW(xs + ys, w) == SumW(xs, w) + SumW(ys, w)
    decreases |ys|
  {
    if ys == [] {
      assert xs + ys == xs;
    } else {
      var ys' := ys[..|ys| - 1];
      assert (xs + ys)[..|xs + ys| - 1] == xs + ys';
      SumWConcat(xs, ys', w);
    }
  }

  /** The last element of `xs` sits somewhere in a permutation `ys` of it, and what is left of
      the two is again a permutation. */
  lemma {:induction false} RemoveLast<T>(xs: seq<T>, ys: seq<T>) returns (k: nat)
    requires xs != [] && multiset(xs) == multiset(ys)
    ensures k < |ys| && ys[k] == xs[|xs| - 1]
    ensures ys == ys[..k] + [ys[k]] + ys[k + 1..]
    ensures multiset(xs[..|xs| - 1]) == multiset(ys[..k] + ys[k + 1..])
  {
    var x := xs[|xs| - 1];
    assert x in multiset(xs) by {
      assert xs == xs[..|xs| - 1] + [x];
    }
    k :| 0 <= k < |ys| && ys[k] == x;
    assert ys == ys[..k] + [x] + ys[k + 1..];
    assert xs == xs[..|xs| - 1] + [x];
    var rest := multiset(ys[..k] + ys[k + 1..]);
    assert multiset(ys) == rest + multiset{x};
    assert multiset(xs) == multiset(xs[..|xs| - 1]) + multiset{x};
    assert multiset(xs[..|xs| - 1]) == multiset(xs) - multiset{x};
    assert rest == multiset(ys) - multiset{x};
  }

  /** A sum does not depend on the order of its terms. */
  lemma {:induction false} SumWPermutation<T>(xs: seq<T>, ys: seq<T>, w: T -> int)
    requires multiset(xs) == multiset(ys)
    ensures SumW(xs, w) == SumW(ys, w)
    decreases |xs|
  {
    if xs == [] {
      assert |ys| == |multiset(ys)| == 0;
    } else {
      var x := xs[|xs| - 1];
      var k := RemoveLast(xs, ys);
      SumWPermutation(xs[..|xs| - 1], ys[..k] + ys[k + 1..], w);
      SumWConcat(ys[..k] + [x], ys[k + 1..], w);
      SumWConcat(ys[..k], [x], w);
      SumWConcat(ys[..k], ys[k + 1..], w);
      SumWConcat(xs[..|xs| - 1], [x], w);
      assert xs == xs[..|xs| - 1] + [x];
      assert SumW([x], w) == w(x) by {
        assert [x][..0] == [];
      }
    }
  }

  lemma {:induction false} MapSeqAppend<K, V>(xs: seq<K>, ys: seq<K>, F: K -> V)
    ensures MapSeq(xs + ys, F) == MapSeq(xs, F) + MapSeq(ys, F)
  {
    var l := MapSeq(xs + ys, F);
    var r := MapSeq(xs, F) + MapSeq(ys, F);
    forall i | 0 <= i < |l|
      ensures l[i] == r[i]
    {
      if i < |xs| {
        assert (xs + ys)[i] == xs[i];
      } else {
        assert (xs + ys)[i] == ys[i - |xs|];
      }
    }
  }

  /** Taking one element out before mapping takes its image out after. */
  lemma {:induction false} MapSeqSplit<K, V>(a: seq<K>, x: K, b: seq<K>, F: K -> V)
    ensures multiset(MapSeq(a + [x] + b, F)) == multiset(MapSeq(a + b, F)) + multiset{F(x)}
  {
    MapSeqAppend(a + [x], b, F);
    MapSeqAppend(a, [x], F);
    MapSeqAppend(a, b, F);
    assert MapSeq([x], F) == [F(x)];
  }

  /** Mapping permuted sequences gives permuted results. */
  lemma {:induction false} MapSeqPermutation<K, V>(xs: seq<K>, ys: seq<K>, F: K -> V)
    requires multiset(xs) == multiset(ys)
    ensures multiset(MapSeq(xs, F)) == multiset(MapSeq(ys, F))
    decreases |xs|
  {
    if xs == [] {
      assert |ys| == |multiset(ys)| == 0;
    } else {
      var x := xs[|xs| - 1];
      var k := RemoveLast(xs, ys);
      var xs', ys' := xs[..|xs| - 1], ys[..k] + ys[k + 1..];
      MapSeqPermutation(xs', ys', F);
      assert xs == xs' + [x];
      MapSeqAppend(xs', [x], F);
      assert MapSeq([x], F) == [F(x)];
      assert multiset(MapSeq(xs, F)) == multiset(MapSeq(xs', F)) + multiset{F(x)};
      MapSeqSplit(ys[..k], x, ys[k + 1..], F);
      assert multiset(MapSeq(ys, F)) == multiset(MapSeq(ys', F)) + multiset{F(x)};
    }
  }

  lemma {:induction false} SumWSnoc<T>(s: seq<T>, x: T, w: T -> int)
    ensures SumW(s + [x], w) == SumW(s, w) + w(x)
  {
    assert (s + [x])[..|s|] == s;
  }
}
