/** Tag counting as src/app/tags/page.tsx:14-23 and src/app/page.tsx:138-144
    do it: a `Map` from tag to count, filled by walking every entry's tags in
    order, then its entries ranked by count (highest first) and, among equal
    counts, by tag. A `Map` iterates its keys in first-insertion order; the
    model keeps that order as the sequence `keys` beside the map `counts`. */
module TagCounts {
  import opened Text
  import opened Seqs
  import opened Sorting

  datatype TagCount = TagCount(tag: string, count: nat)

  /** The sum of the counts recorded for `keys`. */
  function SumOver(keys: seq<string>, counts: map<string, nat>): nat
    decreases |keys|
  {
    if |keys| == 0 then 0
    else
      var t := keys[|keys| - 1];
      SumOver(keys[..|keys| - 1], counts) + (if t in counts then counts[t] else 0)
  }

  /** Each tag of `seen` mapped to its number of occurrences. */
  ghost function CountsOf(seen: seq<string>): map<string, nat> {
    map t | t in multiset(seen) :: multiset(seen)[t]
  }

  /** One more occurrence of `tag` adds one to its count, starting from 0. */
  lemma CountsOfSnoc(seen: seq<string>, tag: string)
    ensures CountsOf(seen + [tag]) ==
      CountsOf(seen)[tag := (if tag in CountsOf(seen) then CountsOf(seen)[tag] else 0) + 1]
  {
    var m, m' := multiset(seen), multiset(seen + [tag]);
    assert m' == m + multiset{tag};
    var lhs := CountsOf(seen + [tag]);
    var rhs := CountsOf(seen)[tag := (if tag in CountsOf(seen) then CountsOf(seen)[tag] else 0) + 1];
    assert lhs.Keys == rhs.Keys;
    forall t | t in lhs ensures lhs[t] == rhs[t] {
    }
  }

  /** `keys` and `counts` are the `Map` built from the tags `seen` so far:
      one key per distinct tag in first-seen order, each counting that tag's
      occurrences, the counts adding up to the number of tags seen. */
  ghost predicate Tally(seen: seq<string>, keys: seq<string>, counts: map<string, nat>) {
    && keys == Distinct(seen)
    && counts == CountsOf(seen)
    && SumOver(keys, counts) == |seen|
  }

  lemma {:induction false} SumOverOther(keys: seq<string>, counts: map<string, nat>, t: string, v: nat)
    requires t !in keys
    ensures SumOver(keys, counts[t := v]) == SumOver(keys, counts)
    decreases |keys|
  {
    if |keys| > 0 {
      assert keys[|keys| - 1] in keys;
      assert forall x :: x in keys[..|keys| - 1] ==> x in keys;
      SumOverOther(keys[..|keys| - 1], counts, t, v);
    }
  }

  lemma {:induction false} SumOverBump(keys: seq<string>, counts: map<string, nat>, t: string)
    requires NoDuplicates(keys) && t in keys && t in counts
    ensures SumOver(keys, counts[t := counts[t] + 1]) == SumOver(keys, counts) + 1
    decreases |keys|
  {
    var init := keys[..|keys| - 1];
    var last := keys[|keys| - 1];
    assert forall x :: x in init ==> x in keys;
    if last == t {
      assert t !in init by {
        forall i | 0 <= i < |init| ensures init[i] != t {
          assert keys[i] != keys[|keys| - 1];
        }
      }
      SumOverOther(init, counts, t, counts[t] + 1);
    } else {
      assert t in init by {
        var k :| 0 <= k < |keys| && keys[k] == t;
        assert init[k] == t;
      }
      assert NoDuplicates(init) by {
        forall i, j | 0 <= i < j < |init| ensures init[i] != init[j] {
          assert init[i] == keys[i] && init[j] == keys[j];
        }
      }
      SumOverBump(init, counts, t);
    }
  }

  /** One `counts.set(tag, (counts.get(tag) ?? 0) + 1)`, as the pair of the
      new key order and the new map. */
  function Bumped(keys: seq<string>, counts: map<string, nat>, tag: string): (seq<string>, map<string, nat>) {
    var current := if tag in counts then counts[tag] else 0;
    (if tag in counts then keys else keys + [tag], counts[tag := current + 1])
  }

  /** Counting a tag seen before keeps the tally. */
  lemma TallySeen(seen: seq<string>, keys: seq<string>, counts: map<string, nat>, tag: string)
    requires Tally(seen, keys, counts) && tag in counts
    ensures Tally(seen + [tag], keys, counts[tag := counts[tag] + 1])
  {
    assert tag in seen;
    DistinctSnoc(seen, tag);
    CountsOfSnoc(seen, tag);
    SumOverBump(keys, counts, tag);
  }

  /** Counting a new tag keeps the tally. */
  lemma TallyNew(seen: seq<string>, keys: seq<string>, counts: map<string, nat>, tag: string)
    requires Tally(seen, keys, counts) && tag !in counts
    ensures Tally(seen + [tag], keys + [tag], counts[tag := 1])
  {
    assert tag !in seen;
    DistinctSnoc(seen, tag);
    CountsOfSnoc(seen, tag);
    assert (keys + [tag])[..|keys|] == keys;
    SumOverOther(keys, counts, tag, 1);
  }

  lemma TallyStep(seen: seq<string>, keys: seq<string>, counts: map<string, nat>, tag: string)
    requires Tally(seen, keys, counts)
    ensures Tally(seen + [tag], Bumped(keys, counts, tag).0, Bumped(keys, counts, tag).1)
  {
    if tag in counts {
      TallySeen(seen, keys, counts, tag);
    } else {
      TallyNew(seen, keys, counts, tag);
    }
  }

  /** The `Map` after counting `tags` into `keys` and `counts`, one tag at
      a time. */
  function CountedInto(keys: seq<string>, counts: map<string, nat>, tags: seq<string>): (seq<string>, map<string, nat>)
    decreases |tags|
  {
    if |tags| == 0 then (keys, counts)
    else
      var before := CountedInto(keys, counts, tags[..|tags| - 1]);
      Bumped(before.0, before.1, tags[|tags| - 1])
  }

  /** Counting a run of tags keeps the tally. */
  lemma {:induction false} CountedIntoTally(seen: seq<string>, keys: seq<string>, counts: map<string, nat>, tags: seq<string>)
    requires Tally(seen, keys, counts)
    ensures Tally(seen + tags, CountedInto(keys, counts, tags).0, CountedInto(keys, counts, tags).1)
    decreases |tags|
  {
    if |tags| == 0 {
      assert seen + tags == seen;
    } else {
      var init := tags[..|tags| - 1];
      var before := CountedInto(keys, counts, init);
      CountedIntoTally(seen, keys, counts, init);
      TallyStep(seen + init, before.0, before.1, tags[|tags| - 1]);
      assert seen + init + [tags[|tags| - 1]] == seen + tags;
    }
  }

  /** The inner loop: count each tag of one entry. */
  method CountInto(keys: seq<string>, counts: map<string, nat>, tags: seq<string>)
    returns (keys': seq<string>, counts': map<string, nat>)
    ensures (keys', counts') == CountedInto(keys, counts, tags)
  {
    keys', counts' := keys, counts;
    var j := 0;
    while j < |tags|
      invariant 0 <= j <= |tags|
      invariant (keys', counts') == CountedInto(keys, counts, tags[..j])
    {
      var tag := tags[j];
      var current := if tag in counts' then counts'[tag] else 0;
      if tag !in counts' {
        keys' := keys' + [tag];
      }
      counts' := counts'[tag := current + 1];
      assert tags[..j + 1][..j] == tags[..j];
      j := j + 1;
    }
    PrefixAll(tags);
  }

  /** Counting the tags of every entry, entry by entry. */
  method CountTags(lists: seq<seq<string>>) returns (keys: seq<string>, counts: map<string, nat>)
    ensures keys == Distinct(Flatten(lists))
    ensures forall t :: t in counts <==> t in Flatten(lists)
    ensures forall t :: t in counts ==> counts[t] == multiset(Flatten(lists))[t]
    ensures SumOver(keys, counts) == |Flatten(lists)|
  {
    keys, counts := [], map[];
    var i := 0;
    assert lists[..0] == [];
    while i < |lists|
      invariant 0 <= i <= |lists|
      invariant Tally(Flatten(lists[..i]), keys, counts)
    {
      CountedIntoTally(Flatten(lists[..i]), keys, counts, lists[i]);
      keys, counts := CountInto(keys, counts, lists[i]);
      assert Flatten(lists[..i + 1]) == Flatten(lists[..i]) + lists[i] by {
        SliceSnoc(lists, i);
        FlattenAppend(lists[..i], [lists[i]]);
        assert [lists[i]][1..] == [];
      }
      i := i + 1;
    }
    PrefixAll(lists);
  }

  /** `b.count - a.count || a.tag.localeCompare(b.tag)` is negative: `a` has
      the higher count, or the same count and the earlier tag. */
  predicate CountsFirst(a: TagCount, b: TagCount) {
    a.count > b.count || (a.count == b.count && StrLess(a.tag, b.tag))
  }

  lemma CountsFirstWeakOrder()
    ensures StrictWeakOrder(CountsFirst)
  {
    forall a, b | CountsFirst(a, b) ensures !CountsFirst(b, a) {
      if a.count == b.count {
        StrLessAsymmetric(a.tag, b.tag);
      }
    }
    forall a, b, c | CountsFirst(a, c) ensures CountsFirst(a, b) || CountsFirst(b, c) {
      if a.count == b.count && b.count == c.count {
        StrLessTotal(a.tag, b.tag);
        StrLessTotal(b.tag, c.tag);
        if StrLess(b.tag, a.tag) && StrLess(c.tag, b.tag) {
          StrLessTransitive(c.tag, b.tag, a.tag);
          StrLessAsymmetric(a.tag, c.tag);
        }
      }
    }
  }

  /** The `Map`'s entries for the tags `all`, in insertion order. */
  function Entries(all: seq<string>): (r: seq<TagCount>)
    ensures |r| == |Distinct(all)|
    ensures forall i :: 0 <= i < |r| ==> r[i] == TagCount(Distinct(all)[i], multiset(all)[Distinct(all)[i]])
  {
    var keys := Distinct(all);
    seq(|keys|, i requires 0 <= i < |keys| => TagCount(keys[i], multiset(all)[keys[i]]))
  }

  /** The entries ranked: `Array.from(counts.entries()).sort(...)`. */
  function Ranked(all: seq<string>): seq<TagCount> {
    SortBy(Entries(all), CountsFirst)
  }

  function TagsOf(r: seq<TagCount>): (tags: seq<string>)
    ensures |tags| == |r|
    ensures forall i :: 0 <= i < |r| ==> tags[i] == r[i].tag
  {
    seq(|r|, i requires 0 <= i < |r| => r[i].tag)
  }

  function Total(r: seq<TagCount>): nat {
    if |r| == 0 then 0 else r[0].count + Total(r[1..])
  }

  lemma {:induction false} NoDuplicatesCounts<T>(s: seq<T>, x: T)
    requires NoDuplicates(s)
    ensures multiset(s)[x] <= 1
    decreases |s|
  {
    if |s| > 0 {
      var init := s[..|s| - 1];
      assert s == init + [s[|s| - 1]];
      assert NoDuplicates(init) by {
        forall i, j | 0 <= i < j < |init| ensures init[i] != init[j] {
          assert init[i] == s[i] && init[j] == s[j];
        }
      }
      NoDuplicatesCounts(init, x);
      if s[|s| - 1] == x {
        assert x !in init by {
          forall i | 0 <= i < |init| ensures init[i] != x {
            assert s[i] != s[|s| - 1];
          }
        }
      }
    }
  }

  lemma CountsNoDuplicates<T>(s: seq<T>)
    requires forall x :: multiset(s)[x] <= 1
    ensures NoDuplicates(s)
  {
    forall i, j | 0 <= i < j < |s| ensures s[i] != s[j] {
      assert s == s[..i] + [s[i]] + s[i + 1..j] + [s[j]] + s[j + 1..];
      assert multiset(s)[s[j]] >= multiset([s[i]])[s[j]] + 1;
    }
  }

  /** Every ranked entry is a tag that occurs, with its number of
      occurrences. */
  lemma RankedEntries(all: seq<string>)
    ensures forall e :: e in Ranked(all) <==> e.tag in all && e.count == multiset(all)[e.tag]
  {
    var es := Entries(all);
    var r := Ranked(all);
    forall e: TagCount ensures e in r <==> e in es {
      assert e in r <==> e in multiset(r);
      assert e in es <==> e in multiset(es);
    }
    forall e: TagCount | e.tag in all && e.count == multiset(all)[e.tag] ensures e in es {
      var k :| 0 <= k < |Distinct(all)| && Distinct(all)[k] == e.tag;
      assert es[k] == e;
    }
  }

  /** The ranking lists every tag exactly once. */
  lemma RankedDistinct(all: seq<string>)
    ensures NoDuplicates(TagsOf(Ranked(all)))
    ensures forall t :: t in TagsOf(Ranked(all)) <==> t in all
  {
    var es := Entries(all);
    var r := Ranked(all);
    RankedEntries(all);
    assert NoDuplicates(es) by {
      forall i, j | 0 <= i < j < |es| ensures es[i] != es[j] {
        assert es[i].tag == Distinct(all)[i] && es[j].tag == Distinct(all)[j];
      }
    }
    forall e: TagCount ensures multiset(r)[e] <= 1 {
      NoDuplicatesCounts(es, e);
    }
    CountsNoDuplicates(r);
    var tags := TagsOf(r);
    forall i, j | 0 <= i < j < |tags| ensures tags[i] != tags[j] {
      assert r[i] in r && r[j] in r;
      assert r[i] != r[j];
    }
    forall t | t in all ensures t in tags {
      var e := TagCount(t, multiset(all)[t]);
      assert e in r;
      var k :| 0 <= k < |r| && r[k] == e;
      assert tags[k] == t;
    }
  }

  /** Highest count first; equal counts in tag order. */
  lemma RankedSorted(all: seq<string>)
    ensures Sorted(Ranked(all), CountsFirst)
  {
    CountsFirstWeakOrder();
    SortBySorted(Entries(all), CountsFirst);
  }

  lemma {:induction false} TotalInsert(x: TagCount, s: seq<TagCount>)
    ensures Total(Insert(x, s, CountsFirst)) == x.count + Total(s)
    decreases |s|
  {
    if |s| > 0 && CountsFirst(s[0], x) {
      TotalInsert(x, s[1..]);
      assert Insert(x, s, CountsFirst)[1..] == Insert(x, s[1..], CountsFirst);
    }
  }

  lemma {:induction false} TotalSort(s: seq<TagCount>)
    ensures Total(SortBy(s, CountsFirst)) == Total(s)
    decreases |s|
  {
    if |s| > 0 {
      TotalSort(s[1..]);
      TotalInsert(s[0], SortBy(s[1..], CountsFirst));
    }
  }

  lemma {:induction false} TotalSnoc(s: seq<TagCount>, x: TagCount)
    ensures Total(s + [x]) == Total(s) + x.count
    decreases |s|
  {
    if |s| > 0 {
      TotalSnoc(s[1..], x);
      assert (s + [x])[1..] == s[1..] + [x];
    }
  }

  /** The entries total what the counting loop totals. */
  lemma {:induction false} TotalEntries(keys: seq<string>, counts: map<string, nat>, all: seq<string>)
    requires forall t :: t in keys ==> t in counts && counts[t] == multiset(all)[t]
    ensures Total(seq(|keys|, i requires 0 <= i < |keys| => TagCount(keys[i], multiset(all)[keys[i]])))
      == SumOver(keys, counts)
    decreases |keys|
  {
    if |keys| > 0 {
      var init := keys[..|keys| - 1];
      var last := keys[|keys| - 1];
      assert forall x :: x in init ==> x in keys;
      TotalEntries(init, counts, all);
      var e := seq(|keys|, i requires 0 <= i < |keys| => TagCount(keys[i], multiset(all)[keys[i]]));
      var e' := seq(|init|, i requires 0 <= i < |init| => TagCount(init[i], multiset(all)[init[i]]));
      assert e == e' + [TagCount(last, multiset(all)[last])];
      TotalSnoc(e', TagCount(last, multiset(all)[last]));
    }
  }

  /** The counts add up to the number of tag occurrences. */
  lemma RankedTotal(lists: seq<seq<string>>, keys: seq<string>, counts: map<string, nat>)
    requires keys == Distinct(Flatten(lists))
    requires forall t :: t in counts ==> counts[t] == multiset(Flatten(lists))[t]
    requires forall t :: t in counts <==> t in Flatten(lists)
    requires SumOver(keys, counts) == |Flatten(lists)|
    ensures Total(Ranked(Flatten(lists))) == |Flatten(lists)|
  {
    var all := Flatten(lists);
    TotalSort(Entries(all));
    TotalEntries(keys, counts, all);
    assert Entries(all) == seq(|keys|, i requires 0 <= i < |keys| => TagCount(keys[i], multiset(all)[keys[i]]));
  }
}
