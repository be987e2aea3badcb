/** `relatedByTags` of src/lib/content/related.ts: the other entries that share
    tags with the current one, ranked by how many of their tags it has. */
module Related {
  import opened Wrappers
  import opened Text
  import opened Seqs
  import opened Sorting

  const DefaultLimit := 3

  /** How many of a candidate's tags (counting repeats) are in the current
      entry's tag set. */
  function Overlap(own: seq<string>, tags: seq<string>): (n: nat)
    ensures n <= |own|
    ensures n > 0 <==> exists t :: t in own && t in tags
  {
    if |own| == 0 then 0
    else (if own[0] in tags then 1 else 0) + Overlap(own[1..], tags)
  }

  /** Each occurrence of a shared tag counts once. */
  lemma {:induction false} OverlapAppend(a: seq<string>, b: seq<string>, tags: seq<string>)
    ensures Overlap(a + b, tags) == Overlap(a, tags) + Overlap(b, tags)
  {
    if |a| == 0 {
      assert a + b == b;
    } else {
      assert (a + b)[0] == a[0] && (a + b)[1..] == a[1..] + b;
      OverlapAppend(a[1..], b, tags);
    }
  }

  /** A candidate all of whose tags are shared scores its full tag count,
      repeats included. */
  lemma {:induction false} OverlapAllShared(own: seq<string>, tags: seq<string>)
    requires forall t :: t in own ==> t in tags
    ensures Overlap(own, tags) == |own|
  {
    if |own| > 0 {
      OverlapAllShared(own[1..], tags);
    }
  }

  /** Only membership in the current entry's tags matters: repeating a tag
      there, or reordering them, changes nothing. */
  lemma {:induction false} OverlapBySet(own: seq<string>, tags: seq<string>, tags': seq<string>)
    requires forall t :: t in tags <==> t in tags'
    ensures Overlap(own, tags) == Overlap(own, tags')
  {
    if |own| > 0 {
      OverlapBySet(own[1..], tags, tags');
    }
  }

  /** An entry that passed both filters, with its score. */
  datatype Scored<T> = Scored(item: T, slug: string, overlap: nat)

  /** The filter on the slug, the scoring `map` and the filter on a positive
      overlap, fused into one pass; `tagsOf` gives `None` for an entry without
      a `tags` field. */
  function Candidates<T>(items: seq<T>, slugOf: T -> string, tagsOf: T -> Option<seq<string>>,
                         currentSlug: string, tags: seq<string>): (r: seq<Scored<T>>)
    ensures forall s :: s in r ==>
      && s.item in items && s.slug == slugOf(s.item) && s.slug != currentSlug
      && s.overlap == Overlap(tagsOf(s.item).GetOr([]), tags) && s.overlap > 0
    ensures forall x :: x in items && slugOf(x) != currentSlug && Overlap(tagsOf(x).GetOr([]), tags) > 0 ==>
      Scored(x, slugOf(x), Overlap(tagsOf(x).GetOr([]), tags)) in r
  {
    if |items| == 0 then []
    else
      var x := items[0];
      var o := Overlap(tagsOf(x).GetOr([]), tags);
      var rest := Candidates(items[1..], slugOf, tagsOf, currentSlug, tags);
      assert forall y :: y in items ==> y == x || y in items[1..];
      if slugOf(x) != currentSlug && o > 0 then [Scored(x, slugOf(x), o)] + rest else rest
  }

  /** The comparator `b.overlap - a.overlap || a.slug.localeCompare(b.slug)`:
      higher overlap first, then slugs ascending. */
  predicate RanksBefore<T>(a: Scored<T>, b: Scored<T>) {
    a.overlap > b.overlap || (a.overlap == b.overlap && StrLess(a.slug, b.slug))
  }

  lemma RanksBeforeWeakOrder<T(!new)>()
    ensures StrictWeakOrder(RanksBefore<T>)
  {
    forall a: Scored<T>, b: Scored<T> | RanksBefore(a, b)
      ensures !RanksBefore(b, a)
    {
      if a.overlap == b.overlap { StrLessAsymmetric(a.slug, b.slug); }
    }
    forall a: Scored<T>, b: Scored<T>, c: Scored<T> | RanksBefore(a, c)
      ensures RanksBefore(a, b) || RanksBefore(b, c)
    {
      if !RanksBefore(a, b) && !RanksBefore(b, c) {
        assert a.overlap == b.overlap == c.overlap;
        StrLessTotal(a.slug, b.slug);
        StrLessTotal(b.slug, c.slug);
        if b.slug != a.slug && c.slug != b.slug {
          StrLessTransitive(c.slug, b.slug, a.slug);
        }
        StrLessAsymmetric(a.slug, c.slug);
      }
    }
  }

  /** Every candidate, ranked. */
  function Ranked<T>(items: seq<T>, slugOf: T -> string, tagsOf: T -> Option<seq<string>>,
                     currentSlug: string, tags: seq<string>): seq<Scored<T>>
  {
    SortBy(Candidates(items, slugOf, tagsOf, currentSlug, tags), RanksBefore)
  }

  function ItemsOf<T>(ss: seq<Scored<T>>): (r: seq<T>)
    ensures |r| == |ss|
    ensures forall i :: 0 <= i < |ss| ==> r[i] == ss[i].item
  {
    seq(|ss|, i requires 0 <= i < |ss| => ss[i].item)
  }

  /** `relatedByTags(items, currentSlug, tags, limit)`. */
  function RelatedByTags<T>(items: seq<T>, slugOf: T -> string, tagsOf: T -> Option<seq<string>>,
                            currentSlug: string, tags: seq<string>, limit: int): (r: seq<T>)
    ensures limit >= 0 ==> |r| <= limit
    ensures forall x :: x in r ==>
      x in items && slugOf(x) != currentSlug && Overlap(tagsOf(x).GetOr([]), tags) > 0
  {
    var ranked := Ranked(items, slugOf, tagsOf, currentSlug, tags);
    var top := Take(ranked, limit);
    var c := Candidates(items, slugOf, tagsOf, currentSlug, tags);
    var r := ItemsOf(top);
    assert forall i :: 0 <= i < |top| ==> top[i] == ranked[i] && ranked[i] in multiset(ranked);
    assert forall i :: 0 <= i < |top| ==> top[i] in multiset(c);
    r
  }

  /** The result is ordered: by overlap descending, then slug ascending. */
  lemma RelatedRanked<T(!new)>(items: seq<T>, slugOf: T -> string, tagsOf: T -> Option<seq<string>>,
                               currentSlug: string, tags: seq<string>, limit: int)
    ensures var r := RelatedByTags(items, slugOf, tagsOf, currentSlug, tags, limit);
      forall i, j :: 0 <= i < j < |r| ==>
        var oi := Overlap(tagsOf(r[i]).GetOr([]), tags);
        var oj := Overlap(tagsOf(r[j]).GetOr([]), tags);
        oi > oj || (oi == oj && !StrLess(slugOf(r[j]), slugOf(r[i])))
  {
    var ranked := Ranked(items, slugOf, tagsOf, currentSlug, tags);
    RanksBeforeWeakOrder<T>();
    SortBySorted(Candidates(items, slugOf, tagsOf, currentSlug, tags), RanksBefore);
    var top := Take(ranked, limit);
    forall i | 0 <= i < |top|
      ensures top[i] in Candidates(items, slugOf, tagsOf, currentSlug, tags)
    {
      assert top[i] == ranked[i];
      assert ranked[i] in multiset(ranked);
    }
  }

  /** The result is the head of the full ranking: every qualifying entry left
      out ranks no higher than any entry returned. */
  lemma RelatedIsPrefix<T(!new)>(items: seq<T>, slugOf: T -> string, tagsOf: T -> Option<seq<string>>,
                                 currentSlug: string, tags: seq<string>, limit: int)
    ensures var ranked := Ranked(items, slugOf, tagsOf, currentSlug, tags);
      var r := RelatedByTags(items, slugOf, tagsOf, currentSlug, tags, limit);
      && |r| <= |ranked| && r == ItemsOf(ranked[..|r|])
      && forall i, j :: 0 <= i < |r| <= j < |ranked| ==> !RanksBefore(ranked[j], ranked[i])
  {
    RanksBeforeWeakOrder<T>();
    SortBySorted(Candidates(items, slugOf, tagsOf, currentSlug, tags), RanksBefore);
  }

  /** Every qualifying entry is ranked: the ranking holds exactly the other
      entries that share a tag. */
  lemma RankedMembers<T>(items: seq<T>, slugOf: T -> string, tagsOf: T -> Option<seq<string>>,
                         currentSlug: string, tags: seq<string>, x: T)
    requires x in items && slugOf(x) != currentSlug && Overlap(tagsOf(x).GetOr([]), tags) > 0
    ensures Scored(x, slugOf(x), Overlap(tagsOf(x).GetOr([]), tags))
            in Ranked(items, slugOf, tagsOf, currentSlug, tags)
  {
    var c := Candidates(items, slugOf, tagsOf, currentSlug, tags);
    assert Scored(x, slugOf(x), Overlap(tagsOf(x).GetOr([]), tags)) in multiset(c);
  }
}
