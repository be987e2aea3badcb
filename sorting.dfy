/** `Array.prototype.sort` with a comparator. Since ES2019 the sort is stable:
    elements the comparator ranks equal keep their input order. It is modelled
    as an insertion sort over the "sorts strictly before" relation `lt` the
    comparator induces (`cmp(a, b) < 0`). */
module Sorting {
  import opened Text

  /** What a consistent comparator gives: `lt` is asymmetric and its
      incomparability is transitive. */
  ghost predicate StrictWeakOrder<T(!new)>(lt: (T, T) -> bool) {
    && (forall a, b :: lt(a, b) ==> !lt(b, a))
    && (forall a, b, c :: lt(a, c) ==> lt(a, b) || lt(b, c))
  }

  /** No element sorts strictly before an element ahead of it. */
  ghost predicate Sorted<T>(s: seq<T>, lt: (T, T) -> bool) {
    forall i, j :: 0 <= i < j < |s| ==> !lt(s[j], s[i])
  }

  /** Puts `x`, which came before every element of `s` in the input, ahead of
      the first element it does not sort strictly after. */
  function Insert<T>(x: T, s: seq<T>, lt: (T, T) -> bool): (r: seq<T>)
    ensures multiset(r) == multiset{x} + multiset(s)
    ensures |r| == |s| + 1
  {
    if |s| == 0 then [x]
    else if lt(s[0], x) then
      assert s == [s[0]] + s[1..];
      [s[0]] + Insert(x, s[1..], lt)
    else [x] + s
  }

  /** `s.sort(cmp)`: a permutation of the input. */
  function SortBy<T>(s: seq<T>, lt: (T, T) -> bool): (r: seq<T>)
    ensures multiset(r) == multiset(s)
    ensures |r| == |s|
  {
    if |s| == 0 then []
    else
      assert s == [s[0]] + s[1..];
      Insert(s[0], SortBy(s[1..], lt), lt)
  }

  lemma {:induction false} InsertSorted<T(!new)>(x: T, s: seq<T>, lt: (T, T) -> bool)
    requires StrictWeakOrder(lt)
    requires Sorted(s, lt)
    ensures Sorted(Insert(x, s, lt), lt)
  {
    if |s| > 0 && lt(s[0], x) {
      InsertSorted(x, s[1..], lt);
      var r := Insert(x, s, lt);
      var t := Insert(x, s[1..], lt);
      assert r == [s[0]] + t;
      forall j | 0 < j < |r|
        ensures !lt(r[j], s[0])
      {
        assert r[j] in multiset(t);
        assert r[j] == x || r[j] in s[1..];
      }
    } else if |s| > 0 {
      var r := [x] + s;
      forall j | 0 < j < |r|
        ensures !lt(r[j], x)
      {
        assert r[j] == s[j - 1];
      }
    }
  }

  /** The result is ordered by the comparator. */
  lemma {:induction false} SortBySorted<T(!new)>(s: seq<T>, lt: (T, T) -> bool)
    requires StrictWeakOrder(lt)
    ensures Sorted(SortBy(s, lt), lt)
  {
    if |s| > 0 {
      SortBySorted(s[1..], lt);
      InsertSorted(s[0], SortBy(s[1..], lt), lt);
    }
  }

  /** An input already in order is left as it is. */
  lemma {:induction false} SortByOfSorted<T>(s: seq<T>, lt: (T, T) -> bool)
    requires Sorted(s, lt)
    ensures SortBy(s, lt) == s
  {
    if |s| > 0 {
      assert Sorted(s[1..], lt);
      SortByOfSorted(s[1..], lt);
      if |s| > 1 {
        assert !lt(s[1], s[0]);
      }
    }
  }

  /** The string order is a strict weak order (indeed a strict total one). */
  lemma StrLessWeakOrder()
    ensures StrictWeakOrder(StrLess)
  {
    forall a, b | StrLess(a, b)
      ensures !StrLess(b, a)
    {
      StrLessAsymmetric(a, b);
    }
    forall a, b, c | StrLess(a, c)
      ensures StrLess(a, b) || StrLess(b, c)
    {
      StrLessTotal(a, b);
      StrLessTotal(b, c);
      if StrLess(b, a) && StrLess(c, b) {
        StrLessTransitive(c, b, a);
        StrLessAsymmetric(a, c);
      }
    }
  }

  /** Comparing by a key inherits the key order's properties. */
  lemma ByKeyWeakOrder<T(!new), K(!new)>(lt: (T, T) -> bool, key: T -> K, ltK: (K, K) -> bool)
    requires StrictWeakOrder(ltK)
    requires forall a, b :: lt(a, b) == ltK(key(a), key(b))
    ensures StrictWeakOrder(lt)
  {
    forall a, b, c | lt(a, c)
      ensures lt(a, b) || lt(b, c)
    {
      assert ltK(key(a), key(c));
    }
  }
}
