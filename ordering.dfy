/**
 * The post-processing the bootstrap applies to ordered collections:
 * `filter(x => x.isVisible)` and `sort((a, b) => a.order - b.order)`.
 * JavaScript's sort is stable, so the model is a stable insertion sort.
 */
module Ordering {

  /** `xs.filter(keep)`. */
  function Filter<T>(xs: seq<T>, keep: T -> bool): seq<T>
    decreases |xs|
  {
    if xs == [] then [] else (if keep(xs[0]) then [xs[0]] else []) + Filter(xs[1..], keep)
  }

  /** The kept elements are exactly the elements of `xs` that pass, with their multiplicities. */
  lemma {:induction false} FilterContents<T>(xs: seq<T>, keep: T -> bool)
    ensures forall x :: x in Filter(xs, keep) <==> x in xs && keep(x)
    ensures forall x :: keep(x) ==> multiset(Filter(xs, keep))[x] == multiset(xs)[x]
    ensures forall x :: !keep(x) ==> multiset(Filter(xs, keep))[x] == 0
    decreases |xs|
  {
    if xs != [] {
      FilterContents(xs[1..], keep);
      assert xs == [xs[0]] + xs[1..];
      assert multiset(xs) == multiset([xs[0]]) + multiset(xs[1..]);
    }
  }

  predicate SortedBy<T>(xs: seq<T>, key: T -> int) {
    forall i, j :: 0 <= i < j < |xs| ==> key(xs[i]) <= key(xs[j])
  }

  predicate AllAtLeast<T>(xs: seq<T>, key: T -> int, b: int) {
    forall i :: 0 <= i < |xs| ==> b <= key(xs[i])
  }

  /** Insert `x` before the first element with a larger key, after those with an equal one. */
  function InsertByKey<T>(x: T, xs: seq<T>, key: T -> int): seq<T>
    decreases |xs|
  {
    if xs == [] || key(x) < key(xs[0]) then [x] + xs else [xs[0]] + InsertByKey(x, xs[1..], key)
  }

  /** The stable sort: `xs.sort((a, b) => key(a) - key(b))`. */
  function SortByKey<T>(xs: seq<T>, key: T -> int): seq<T>
    decreases |xs|
  {
    if xs == [] then [] else InsertByKey(xs[|xs| - 1], SortByKey(xs[..|xs| - 1], key), key)
  }

  lemma {:induction false} InsertByKeyPermutes<T>(x: T, xs: seq<T>, key: T -> int)
    ensures multiset(InsertByKey(x, xs, key)) == multiset(xs) + multiset{x}
    decreases |xs|
  {
    if xs != [] && key(x) >= key(xs[0]) {
      var rest := InsertByKey(x, xs[1..], key);
      InsertByKeyPermutes(x, xs[1..], key);
      assert InsertByKey(x, xs, key) == [xs[0]] + rest;
      assert xs == [xs[0]] + xs[1..];
      assert multiset(xs) == multiset([xs[0]]) + multiset(xs[1..]);
    }
  }

  lemma {:induction false} InsertByKeyBound<T>(x: T, xs: seq<T>, key: T -> int, b: int)
    requires AllAtLeast(xs, key, b) && b <= key(x)
    ensures AllAtLeast(InsertByKey(x, xs, key), key, b)
    decreases |xs|
  {
    if xs != [] && key(x) >= key(xs[0]) {
      var tail := xs[1..];
      assert AllAtLeast(tail, key, b) by {
        forall i | 0 <= i < |tail| ensures b <= key(tail[i]) { assert tail[i] == xs[i + 1]; }
      }
      InsertByKeyBound(x, tail, key, b);
    }
  }

  lemma {:induction false} InsertByKeySorts<T>(x: T, xs: seq<T>, key: T -> int)
    requires SortedBy(xs, key)
    ensures SortedBy(InsertByKey(x, xs, key), key)
    decreases |xs|
  {
    if xs != [] && key(x) >= key(xs[0]) {
      var tail := xs[1..];
      assert SortedBy(tail, key) by {
        forall i, j | 0 <= i < j < |tail| ensures key(tail[i]) <= key(tail[j]) {
          assert tail[i] == xs[i + 1] && tail[j] == xs[j + 1];
        }
      }
      assert AllAtLeast(tail, key, key(xs[0])) by {
        forall i | 0 <= i < |tail| ensures key(xs[0]) <= key(tail[i]) { assert tail[i] == xs[i + 1]; }
      }
      InsertByKeySorts(x, tail, key);
      InsertByKeyBound(x, tail, key, key(xs[0]));
      var ins := InsertByKey(x, tail, key);
      var r := [xs[0]] + ins;
      forall i, j | 0 <= i < j < |r| ensures key(r[i]) <= key(r[j]) {
        assert r[j] == ins[j - 1];
        if i > 0 {
          assert r[i] == ins[i - 1];
        }
      }
    }
  }

  /** The sorted list is in ascending key order and a permutation of the input. */
  lemma {:induction false} SortByKeySortsAndPermutes<T>(xs: seq<T>, key: T -> int)
    ensures SortedBy(SortByKey(xs, key), key)
    ensures multiset(SortByKey(xs, key)) == multiset(xs)
    decreases |xs|
  {
    if xs != [] {
      var init := xs[..|xs| - 1];
      SortByKeySortsAndPermutes(init, key);
      InsertByKeySorts(xs[|xs| - 1], SortByKey(init, key), key);
      InsertByKeyPermutes(xs[|xs| - 1], SortByKey(init, key), key);
      assert xs == init + [xs[|xs| - 1]];
    }
  }

  /** The elements of `xs` whose key is `k`, in their order in `xs`. */
  function KeyRun<T>(xs: seq<T>, key: T -> int, k: int): seq<T>
    decreases |xs|
  {
    if xs == [] then [] else (if key(xs[0]) == k then [xs[0]] else []) + KeyRun(xs[1..], key, k)
  }

  lemma {:induction false} KeyRunAppend<T>(xs: seq<T>, ys: seq<T>, key: T -> int, k: int)
    ensures KeyRun(xs + ys, key, k) == KeyRun(xs, key, k) + KeyRun(ys, key, k)
    decreases |xs|
  {
    if xs != [] {
      assert (xs + ys)[0] == xs[0] && (xs + ys)[1..] == xs[1..] + ys;
      KeyRunAppend(xs[1..], ys, key, k);
    } else {
      assert xs + ys == ys;
    }
  }

  /** An element inserted into a sorted list lands after every element with the same key. */
  lemma {:induction false} InsertByKeyRun<T>(x: T, xs: seq<T>, key: T -> int, k: int)
    requires SortedBy(xs, key)
    ensures KeyRun(InsertByKey(x, xs, key), key, k) == KeyRun(xs, key, k) + (if key(x) == k then [x] else [])
    decreases |xs|
  {
    if xs == [] {
      assert ([x] + xs)[1..] == xs;
    } else if key(x) < key(xs[0]) {
      assert ([x] + xs)[1..] == xs;
      if key(x) == k {
        KeyRunAbove(xs, key, k);
      }
    } else {
      var tail := xs[1..];
      assert SortedBy(tail, key) by {
        forall i, j | 0 <= i < j < |tail| ensures key(tail[i]) <= key(tail[j]) {
          assert tail[i] == xs[i + 1] && tail[j] == xs[j + 1];
        }
      }
      InsertByKeyRun(x, tail, key, k);
      assert ([xs[0]] + InsertByKey(x, tail, key))[1..] == InsertByKey(x, tail, key);
    }
  }

  /** A sorted list whose first key exceeds `k` holds no element with key `k`. */
  lemma {:induction false} KeyRunAbove<T>(xs: seq<T>, key: T -> int, k: int)
    requires SortedBy(xs, key) && (xs != [] ==> k < key(xs[0]))
    ensures KeyRun(xs, key, k) == []
    decreases |xs|
  {
    if xs != [] {
      var tail := xs[1..];
      assert SortedBy(tail, key) by {
        forall i, j | 0 <= i < j < |tail| ensures key(tail[i]) <= key(tail[j]) {
          assert tail[i] == xs[i + 1] && tail[j] == xs[j + 1];
        }
      }
      if tail != [] {
        assert tail[0] == xs[1];
      }
      KeyRunAbove(tail, key, k);
    }
  }

  /**
   * Stability: for every key, the elements carrying it appear in the sorted
   * list in the same relative order as in the input.
   */
  lemma {:induction false} SortByKeyStable<T>(xs: seq<T>, key: T -> int, k: int)
    ensures KeyRun(SortByKey(xs, key), key, k) == KeyRun(xs, key, k)
    decreases |xs|
  {
    if xs != [] {
      var init := xs[..|xs| - 1];
      var last := xs[|xs| - 1];
      var sorted := SortByKey(init, key);
      assert SortByKey(xs, key) == InsertByKey(last, sorted, key);
      SortByKeyStable(init, key, k);
      SortByKeySortsAndPermutes(init, key);
      InsertByKeyRun(last, sorted, key, k);
      assert xs == init + [last];
      KeyRunAppend(init, [last], key, k);
      assert [last][1..] == [];
      assert KeyRun([last], key, k) == (if key(last) == k then [last] else []);
    }
  }

  /** Stability for every key at once. */
  lemma SortByKeyStableAll<T>(xs: seq<T>, key: T -> int)
    ensures forall k :: KeyRun(SortByKey(xs, key), key, k) == KeyRun(xs, key, k)
  {
    forall k ensures KeyRun(SortByKey(xs, key), key, k) == KeyRun(xs, key, k) {
      SortByKeyStable(xs, key, k);
    }
  }

  /** Filtering a list whose every element passes changes nothing. */
  lemma {:induction false} FilterAll<T>(xs: seq<T>, keep: T -> bool)
    requires forall i :: 0 <= i < |xs| ==> keep(xs[i])
    ensures Filter(xs, keep) == xs
    decreases |xs|
  {
    if xs != [] {
      FilterAll(xs[1..], keep);
      assert [xs[0]] + xs[1..] == xs;
    }
  }

  /** An element with a key no smaller than any in `xs` is inserted last. */
  lemma {:induction false} InsertByKeyAtEnd<T>(x: T, xs: seq<T>, key: T -> int)
    requires forall i :: 0 <= i < |xs| ==> key(xs[i]) <= key(x)
    ensures InsertByKey(x, xs, key) == xs + [x]
    decreases |xs|
  {
    if xs != [] {
      InsertByKeyAtEnd(x, xs[1..], key);
      assert [xs[0]] + (xs[1..] + [x]) == xs + [x];
    }
  }

  /** Sorting a list already in key order leaves it as it is. */
  lemma {:induction false} SortByKeyOfSorted<T>(xs: seq<T>, key: T -> int)
    requires SortedBy(xs, key)
    ensures SortByKey(xs, key) == xs
    decreases |xs|
  {
    if xs != [] {
      var init := xs[..|xs| - 1];
      assert SortedBy(init, key);
      SortByKeyOfSorted(init, key);
      InsertByKeyAtEnd(xs[|xs| - 1], init, key);
      assert init + [xs[|xs| - 1]] == xs;
    }
  }
}
