/**
 * The Python list idioms the financial code is built from: comprehensions that
 * filter, `xs[:n]` slices, `sum` and `len` over a selection, and
 * `sorted(..., reverse=True)`, which is stable.
 */
module Lists {

  /** `[x for x in xs if p(x)]` */
  function Filter<T>(xs: seq<T>, p: T -> bool): (r: seq<T>)
    ensures |r| <= |xs|
    ensures forall i :: 0 <= i < |r| ==> p(r[i])
    decreases |xs|
  {
    if xs == [] then [] else (if p(xs[0]) then [xs[0]] else []) + Filter(xs[1..], p)
  }

  /** An element is kept exactly when it is in the input and passes the test. */
  lemma {:induction false} FilterMembers<T>(xs: seq<T>, p: T -> bool)
    ensures forall x :: x in Filter(xs, p) <==> x in xs && p(x)
    decreases |xs|
  {
    if xs != [] {
      FilterMembers(xs[1..], p);
      assert xs == [xs[0]] + xs[1..];
    }
  }

  /** `a` is `b` with some elements deleted, the rest in their order. */
  ghost predicate IsSubsequence<T>(a: seq<T>, b: seq<T>)
    decreases |b|
  {
    a == [] || (b != [] && ((a[0] == b[0] && IsSubsequence(a[1..], b[1..])) || IsSubsequence(a, b[1..])))
  }

  /** Every list is a sublist of itself. */
  lemma {:induction false} SubsequenceReflexive<T>(xs: seq<T>)
    ensures IsSubsequence(xs, xs)
    decreases |xs|
  {
    if xs != [] {
      SubsequenceReflexive(xs[1..]);
    }
  }

  /** A sublist of a sublist is a sublist. */
  lemma {:induction false} SubsequenceTransitive<T>(a: seq<T>, b: seq<T>, c: seq<T>)
    requires IsSubsequence(a, b) && IsSubsequence(b, c)
    ensures IsSubsequence(a, c)
    decreases |c|
  {
    if a != [] {
      if IsSubsequence(b, c[1..]) {
        SubsequenceTransitive(a, b, c[1..]);
      } else if a[0] == b[0] && IsSubsequence(a[1..], b[1..]) {
        SubsequenceTransitive(a[1..], b[1..], c[1..]);
      } else {
        SubsequenceTransitive(a, b[1..], c[1..]);
      }
    }
  }

  /** A filter keeps an order-preserving sublist of its input. */
  lemma {:induction false} FilterIsSubsequence<T>(xs: seq<T>, p: T -> bool)
    ensures IsSubsequence(Filter(xs, p), xs)
    decreases |xs|
  {
    if xs != [] {
      FilterIsSubsequence(xs[1..], p);
      var r := Filter(xs, p);
      if p(xs[0]) {
        assert r[0] == xs[0] && r[1..] == Filter(xs[1..], p);
      } else {
        assert r == Filter(xs[1..], p);
      }
    }
  }

  /** Filtering a concatenation filters each part. */
  lemma {:induction false} FilterAppend<T>(a: seq<T>, b: seq<T>, p: T -> bool)
    ensures Filter(a + b, p) == Filter(a, p) + Filter(b, p)
    decreases |a|
  {
    if a == [] {
      assert a + b == b;
    } else {
      assert (a + b)[0] == a[0];
      assert (a + b)[1..] == a[1..] + b;
      FilterAppend(a[1..], b, p);
    }
  }

  /** A filter that every element passes keeps the list; one that none passes empties it. */
  lemma FilterAllOrNone<T>(xs: seq<T>, p: T -> bool)
    ensures (forall i :: 0 <= i < |xs| ==> p(xs[i])) ==> Filter(xs, p) == xs
    ensures (forall i :: 0 <= i < |xs| ==> !p(xs[i])) ==> Filter(xs, p) == []
    decreases |xs|
  {
    if xs != [] {
      FilterAllOrNone(xs[1..], p);
      assert forall i :: 1 <= i < |xs| ==> xs[1..][i - 1] == xs[i];
    }
  }

  /** `sum(f(x) for x in xs)` */
  function Sum<T>(xs: seq<T>, f: T -> int): int
    decreases |xs|
  {
    if xs == [] then 0 else f(xs[0]) + Sum(xs[1..], f)
  }

  lemma {:induction false} SumAppend<T>(a: seq<T>, b: seq<T>, f: T -> int)
    ensures Sum(a + b, f) == Sum(a, f) + Sum(b, f)
    decreases |a|
  {
    if a == [] {
      assert a + b == b;
    } else {
      assert (a + b)[1..] == a[1..] + b;
      SumAppend(a[1..], b, f);
    }
  }

  /** Terms between `lo` and `hi` give a sum between `lo` and `hi` times their number. */
  lemma {:induction false} SumBounds<T>(xs: seq<T>, f: T -> int, lo: int, hi: int)
    requires forall i :: 0 <= i < |xs| ==> lo <= f(xs[i]) <= hi
    ensures lo * |xs| <= Sum(xs, f) <= hi * |xs|
    decreases |xs|
  {
    if xs != [] {
      assert forall i :: 1 <= i < |xs| ==> xs[1..][i - 1] == xs[i];
      SumBounds(xs[1..], f, lo, hi);
      assert lo * |xs| == lo + lo * |xs[1..]| && hi * |xs| == hi + hi * |xs[1..]|;
    }
  }

  /** `len([x for x in xs if p(x)])` */
  function Count<T>(xs: seq<T>, p: T -> bool): nat {
    |Filter(xs, p)|
  }

  /**
   * Three tests of which no element passes two split the list: their counts add
   * up to at most its length, and to exactly its length when every element
   * passes one of them.
   */
  lemma {:induction false} CountPartition<T>(xs: seq<T>, p: T -> bool, q: T -> bool, r: T -> bool)
    requires forall i :: 0 <= i < |xs| ==> !(p(xs[i]) && q(xs[i])) && !(p(xs[i]) && r(xs[i])) && !(q(xs[i]) && r(xs[i]))
    ensures Count(xs, p) + Count(xs, q) + Count(xs, r) <= |xs|
    ensures (forall i :: 0 <= i < |xs| ==> p(xs[i]) || q(xs[i]) || r(xs[i])) ==>
      Count(xs, p) + Count(xs, q) + Count(xs, r) == |xs|
    decreases |xs|
  {
    if xs != [] {
      assert forall i :: 1 <= i < |xs| ==> xs[1..][i - 1] == xs[i];
      CountPartition(xs[1..], p, q, r);
    }
  }

  /** `[x] if present else []` */
  function Optional<T>(present: bool, x: T): seq<T> {
    if present then [x] else []
  }

  function Min(a: int, b: int): int { if a <= b then a else b }

  function Max(a: int, b: int): int { if a >= b then a else b }

  /**
   * `xs[:n]`: the first `n` elements, all of them when there are fewer; a
   * negative `n` counts from the end.
   */
  function Take<T>(xs: seq<T>, n: int): (r: seq<T>)
    ensures |r| <= |xs| && r == xs[..|r|]
    ensures 0 <= n ==> |r| == Min(n, |xs|)
    ensures n < 0 ==> |r| == Max(0, |xs| + n)
  {
    if n >= 0 then xs[..Min(n, |xs|)] else xs[..Max(0, |xs| + n)]
  }

  lemma {:induction false} SumPointwise<T>(xs: seq<T>, g: T -> int, f: T -> int, h: T -> int)
    requires forall i :: 0 <= i < |xs| ==> g(xs[i]) == f(xs[i]) + h(xs[i])
    ensures Sum(xs, g) == Sum(xs, f) + Sum(xs, h)
    decreases |xs|
  {
    if xs != [] {
      assert forall i :: 1 <= i < |xs| ==> xs[1..][i - 1] == xs[i];
      SumPointwise(xs[1..], g, f, h);
    }
  }

  lemma {:induction false} SumCongruent<T>(xs: seq<T>, g: T -> int, f: T -> int)
    requires forall i :: 0 <= i < |xs| ==> g(xs[i]) == f(xs[i])
    ensures Sum(xs, g) == Sum(xs, f)
    decreases |xs|
  {
    if xs != [] {
      assert forall i :: 1 <= i < |xs| ==> xs[1..][i - 1] == xs[i];
      SumCongruent(xs[1..], g, f);
    }
  }

  predicate Distinct<T(==)>(xs: seq<T>) {
    forall i, j :: 0 <= i < j < |xs| ==> xs[i] != xs[j]
  }

  /** Over a list without repeats, the indicator of `v` sums to one when `v` is listed and to zero otherwise. */
  lemma {:induction false} IndicatorSum<T>(xs: seq<T>, v: T)
    requires forall i, j :: 0 <= i < j < |xs| ==> xs[i] != xs[j]
    ensures Sum(xs, k => if k == v then 1 else 0) == if v in xs then 1 else 0
    decreases |xs|
  {
    if xs != [] {
      assert forall i, j :: 0 <= i < j < |xs[1..]| ==> xs[1..][i] == xs[i + 1] && xs[1..][j] == xs[j + 1];
      IndicatorSum(xs[1..], v);
      assert xs == [xs[0]] + xs[1..];
      if xs[0] == v {
        assert v !in xs[1..] by {
          forall i | 0 <= i < |xs[1..]| ensures xs[1..][i] != v { assert xs[1..][i] == xs[i + 1]; }
        }
      }
    }
  }

  /** `[key(x) for x in xs]` */
  function KeyList<T, K>(xs: seq<T>, key: T -> K): (r: seq<K>)
    ensures |r| == |xs| && forall i :: 0 <= i < |xs| ==> r[i] == key(xs[i])
  {
    seq(|xs|, i requires 0 <= i < |xs| => key(xs[i]))
  }

  /**
   * The distinct keys of `xs` in order of first appearance: the key order of a
   * dictionary that a loop over `xs` fills.
   */
  function KeysInOrder<T, K(==)>(xs: seq<T>, key: T -> K): seq<K>
    decreases |xs|
  {
    if xs == [] then []
    else
      var ks := KeysInOrder(xs[..|xs| - 1], key);
      if key(xs[|xs| - 1]) in ks then ks else ks + [key(xs[|xs| - 1])]
  }

  /** The ordered keys are exactly the keys that occur, each once. */
  lemma {:induction false} KeysInOrderProperties<T, K>(xs: seq<T>, key: T -> K)
    ensures forall k :: k in KeysInOrder(xs, key) <==> k in KeyList(xs, key)
    ensures Distinct(KeysInOrder(xs, key))
    decreases |xs|
  {
    if xs != [] {
      var init := xs[..|xs| - 1];
      KeysInOrderProperties(init, key);
      assert KeyList(xs, key) == KeyList(init, key) + [key(xs[|xs| - 1])];
    }
  }

  /** Keys that never repeat are listed as they come. */
  lemma {:induction false} KeysInOrderDistinct<T, K>(xs: seq<T>, key: T -> K)
    requires Distinct(KeyList(xs, key))
    ensures KeysInOrder(xs, key) == KeyList(xs, key)
    decreases |xs|
  {
    if xs != [] {
      var init := xs[..|xs| - 1];
      assert KeyList(xs, key) == KeyList(init, key) + [key(xs[|xs| - 1])];
      assert Distinct(KeyList(init, key));
      KeysInOrderDistinct(init, key);
      assert key(xs[|xs| - 1]) !in KeyList(init, key);
    }
  }

  /** The test "has key `k`". */
  function HasKey<T, K(==)>(key: T -> K, k: K): T -> bool {
    y => key(y) == k
  }

  /** The elements of `xs` whose key is `k`, in order: `[x for x in xs if key(x) == k]`. */
  function WithKey<T, K(==)>(xs: seq<T>, key: T -> K, k: K): seq<T> {
    Filter(xs, HasKey(key, k))
  }

  /** How many elements of `xs` have key `k`. */
  function KeyCount<T, K(==)>(xs: seq<T>, key: T -> K, k: K): nat {
    |WithKey(xs, key, k)|
  }

  lemma KeyCountAppend<T, K>(xs: seq<T>, x: T, key: T -> K, k: K)
    ensures KeyCount(xs + [x], key, k) == KeyCount(xs, key, k) + (if key(x) == k then 1 else 0)
  {
    WithKeyAppend(xs, [x], key, k);
    assert WithKey([x], key, k) == (if key(x) == k then [x] else []);
  }

  lemma KeyCountAbsent<T, K>(xs: seq<T>, key: T -> K, k: K)
    requires k !in KeyList(xs, key)
    ensures KeyCount(xs, key, k) == 0
  {
    assert forall i :: 0 <= i < |xs| ==> KeyList(xs, key)[i] == key(xs[i]);
    WithKeyNone(xs, key, k);
  }

  /** Adding one element adds one to the group sizes summed over the existing keys, when its key is among them. */
  lemma KeyCountsStep<T, K>(init: seq<T>, x: T, key: T -> K)
    requires Distinct(KeysInOrder(init, key))
    ensures var ks := KeysInOrder(init, key);
      Sum(ks, k => KeyCount(init + [x], key, k))
        == Sum(ks, k => KeyCount(init, key, k)) + (if key(x) in ks then 1 else 0)
  {
    var ks := KeysInOrder(init, key);
    var v := key(x);
    var f := k => KeyCount(init, key, k);
    var g := k => KeyCount(init + [x], key, k);
    var ind := k => if k == v then 1 else 0;
    forall i | 0 <= i < |ks| ensures g(ks[i]) == f(ks[i]) + ind(ks[i]) {
      KeyCountAppend(init, x, key, ks[i]);
    }
    SumPointwise(ks, g, f, ind);
    IndicatorSum(ks, v);
  }

  lemma KeyCountListed<T, K>(xs: seq<T>, key: T -> K, k: K)
    requires k in KeyList(xs, key)
    ensures KeyCount(xs, key, k) >= 1
  {
    var i :| 0 <= i < |xs| && KeyList(xs, key)[i] == k;
    FilterMembers(xs, HasKey(key, k));
    assert xs[i] in WithKey(xs, key, k);
  }

  lemma KeyCountUnlisted<T, K>(xs: seq<T>, key: T -> K, k: K)
    requires k !in KeysInOrder(xs, key)
    ensures KeyCount(xs, key, k) == 0
  {
    KeysInOrderProperties(xs, key);
    KeyCountAbsent(xs, key, k);
  }

  /** Grouping by key loses and duplicates nothing: the group sizes add up to the length. */
  lemma {:induction false} KeyCountsSum<T, K>(xs: seq<T>, key: T -> K)
    ensures Sum(KeysInOrder(xs, key), k => KeyCount(xs, key, k)) == |xs|
    decreases |xs|
  {
    if xs != [] {
      var init, x := xs[..|xs| - 1], xs[|xs| - 1];
      assert xs == init + [x];
      var ks := KeysInOrder(init, key);
      var v := key(x);
      KeyCountsSum(init, key);
      KeysInOrderProperties(init, key);
      KeyCountsStep(init, x, key);
      if v !in ks {
        var g := k => KeyCount(xs, key, k);
        SumAppend(ks, [v], g);
        KeyCountAppend(init, x, key, v);
        KeyCountUnlisted(init, key, v);
      }
    }
  }

  // ---------------------------------------------------------------------------
  // Stable descending sort

  /** Keys never increase along `xs`. */
  predicate Descending<T>(xs: seq<T>, key: T -> int) {
    forall i, j :: 0 <= i < j < |xs| ==> key(xs[i]) >= key(xs[j])
  }

  /** Puts `x` into the descending `sorted` after every element whose key is at least its own. */
  function InsertDesc<T>(x: T, sorted: seq<T>, key: T -> int): seq<T>
    decreases |sorted|
  {
    if sorted == [] then [x]
    else if key(sorted[0]) >= key(x) then [sorted[0]] + InsertDesc(x, sorted[1..], key)
    else [x] + sorted
  }

  /** `sorted(xs, key=key, reverse=True)`, element by element from the left. */
  function SortDesc<T>(xs: seq<T>, key: T -> int): seq<T>
    decreases |xs|
  {
    if xs == [] then [] else InsertDesc(xs[|xs| - 1], SortDesc(xs[..|xs| - 1], key), key)
  }

  /** How many leading elements of `sorted` `InsertDesc` steps over before placing `x`. */
  function InsertPos<T>(x: T, sorted: seq<T>, key: T -> int): (j: nat)
    ensures j <= |sorted|
    decreases |sorted|
  {
    if sorted == [] || key(sorted[0]) < key(x) then 0 else 1 + InsertPos(x, sorted[1..], key)
  }

  /** `x` lands at `InsertPos`, after elements of key at least `key(x)`. */
  lemma {:induction false} InsertDescAt<T>(x: T, sorted: seq<T>, key: T -> int)
    ensures var j := InsertPos(x, sorted, key);
      && InsertDesc(x, sorted, key) == sorted[..j] + [x] + sorted[j..]
      && (forall i :: 0 <= i < j ==> key(sorted[i]) >= key(x))
      && (j < |sorted| ==> key(sorted[j]) < key(x))
    decreases |sorted|
  {
    if sorted != [] && key(sorted[0]) >= key(x) {
      InsertDescAt(x, sorted[1..], key);
      var j := InsertPos(x, sorted[1..], key);
      assert sorted[..j + 1] == [sorted[0]] + sorted[1..][..j];
      assert sorted[j + 1..] == sorted[1..][j..];
      forall i | 0 <= i < j + 1 ensures key(sorted[i]) >= key(x) {
        if i > 0 { assert sorted[i] == sorted[1..][i - 1]; }
      }
    }
  }

  /** In a descending list every element from the insertion point on has a smaller key than `x`. */
  lemma {:induction false} InsertPosBelow<T>(x: T, sorted: seq<T>, key: T -> int)
    requires Descending(sorted, key)
    ensures forall i :: InsertPos(x, sorted, key) <= i < |sorted| ==> key(sorted[i]) < key(x)
  {
    InsertDescAt(x, sorted, key);
  }

  /** Placing `x` between the elements of keys at least its own and those of smaller keys keeps the order. */
  lemma DescendingSplice<T>(x: T, s: seq<T>, j: nat, key: T -> int)
    requires j <= |s| && Descending(s, key)
    requires forall i :: 0 <= i < j ==> key(s[i]) >= key(x)
    requires forall i :: j <= i < |s| ==> key(s[i]) < key(x)
    ensures Descending(s[..j] + [x] + s[j..], key)
  {
    var r := s[..j] + [x] + s[j..];
    assert forall i :: 0 <= i < j ==> r[i] == s[i];
    assert r[j] == x;
    assert forall i :: j < i < |r| ==> r[i] == s[i - 1];
  }

  lemma MultisetSplice<T>(x: T, s: seq<T>, j: nat)
    requires j <= |s|
    ensures multiset(s[..j] + [x] + s[j..]) == multiset(s) + multiset{x}
  {
    assert s == s[..j] + s[j..];
  }

  /** Inserting keeps the list descending and adds exactly `x`. */
  lemma InsertDescProperties<T>(x: T, sorted: seq<T>, key: T -> int)
    requires Descending(sorted, key)
    ensures Descending(InsertDesc(x, sorted, key), key)
    ensures multiset(InsertDesc(x, sorted, key)) == multiset(sorted) + multiset{x}
  {
    InsertDescAt(x, sorted, key);
    InsertPosBelow(x, sorted, key);
    var j := InsertPos(x, sorted, key);
    DescendingSplice(x, sorted, j, key);
    MultisetSplice(x, sorted, j);
  }

  lemma WithKeyAppend<T, K>(a: seq<T>, b: seq<T>, key: T -> K, k: K)
    ensures WithKey(a + b, key, k) == WithKey(a, key, k) + WithKey(b, key, k)
  {
    FilterAppend(a, b, HasKey(key, k));
  }

  lemma WithKeyNone<T, K>(xs: seq<T>, key: T -> K, k: K)
    requires forall i :: 0 <= i < |xs| ==> key(xs[i]) != k
    ensures WithKey(xs, key, k) == []
  {
    FilterAllOrNone(xs, HasKey(key, k));
  }

  /** Filtering by key splits over `front + [x] + back`. */
  lemma WithKeySplice<T, K>(front: seq<T>, x: T, back: seq<T>, key: T -> K, k: K)
    ensures WithKey(front + [x] + back, key, k)
      == WithKey(front, key, k) + (if key(x) == k then [x] else []) + WithKey(back, key, k)
  {
    WithKeyAppend(front + [x], back, key, k);
    WithKeyAppend(front, [x], key, k);
    assert WithKey([x], key, k) == (if key(x) == k then [x] else []) + WithKey([x][1..], key, k);
  }

  /** Inserting `x` puts it between a front and a back whose first key is below its own. */
  lemma {:induction false} InsertDescSplit<T>(x: T, sorted: seq<T>, key: T -> int) returns (front: seq<T>, back: seq<T>)
    ensures sorted == front + back && back == sorted[|front|..]
    ensures InsertDesc(x, sorted, key) == front + [x] + back
    ensures back != [] ==> key(back[0]) < key(x)
  {
    InsertDescAt(x, sorted, key);
    var j := InsertPos(x, sorted, key);
    front, back := sorted[..j], sorted[j..];
    assert sorted == front + back;
  }

  /** In a descending list, every key from a position on is below a bound the key at that position is below. */
  lemma {:induction false} SuffixBelow<T>(s: seq<T>, j: nat, key: T -> int, v: int)
    requires Descending(s, key) && j < |s| && key(s[j]) < v
    ensures forall i :: 0 <= i < |s[j..]| ==> key(s[j..][i]) < v
  {
    forall i | 0 <= i < |s[j..]| ensures key(s[j..][i]) < v {
      assert s[j..][i] == s[j + i];
    }
  }

  /** The elements of key `k` keep their relative order when `x` is inserted. */
  lemma {:induction false} InsertDescStable<T>(x: T, sorted: seq<T>, key: T -> int, k: int)
    requires Descending(sorted, key)
    ensures WithKey(InsertDesc(x, sorted, key), key, k) == WithKey(sorted, key, k) + (if key(x) == k then [x] else [])
  {
    var front, back := InsertDescSplit(x, sorted, key);
    WithKeySplice(front, x, back, key, k);
    WithKeyAppend(front, back, key, k);
    if key(x) == k {
      if back != [] {
        SuffixBelow(sorted, |front|, key, key(x));
      }
      WithKeyNone(back, key, k);
    }
  }

  /**
   * `SortDesc` is `sorted(..., reverse=True)`: a permutation of its input in
   * descending key order, in which the elements of any one key keep their input
   * order (stability).
   */
  lemma {:induction false} SortDescCorrect<T>(xs: seq<T>, key: T -> int)
    ensures Descending(SortDesc(xs, key), key)
    ensures multiset(SortDesc(xs, key)) == multiset(xs)
    ensures forall k :: WithKey(SortDesc(xs, key), key, k) == WithKey(xs, key, k)
    decreases |xs|
  {
    if xs != [] {
      var init, x := xs[..|xs| - 1], xs[|xs| - 1];
      assert xs == init + [x];
      SortDescCorrect(init, key);
      InsertDescProperties(x, SortDesc(init, key), key);
      forall k ensures WithKey(SortDesc(xs, key), key, k) == WithKey(xs, key, k) {
        InsertDescStable(x, SortDesc(init, key), key, k);
        WithKeyAppend(init, [x], key, k);
      }
    }
  }

  /** The first element of the sorted list has the largest key of all. */
  lemma SortDescHead<T>(xs: seq<T>, key: T -> int)
    requires xs != []
    ensures SortDesc(xs, key) != []
    ensures forall y :: y in xs ==> key(SortDesc(xs, key)[0]) >= key(y)
  {
    var sorted := SortDesc(xs, key);
    SortDescCorrect(xs, key);
    assert |sorted| == |multiset(sorted)| == |xs|;
    forall y | y in xs ensures key(sorted[0]) >= key(y) {
      assert y in multiset(sorted);
      var j :| 0 <= j < |sorted| && sorted[j] == y;
    }
  }
}
