/** src/lib/content/facets.ts: the filter vocabularies offered on the listing
    pages. */
module Facets {
  import opened Text
  import opened Seqs
  import opened Sorting
  import opened Schemas
  import opened Collections

  /** `uniqueSorted`: drop repeated values, trim each, drop the empty ones and
      sort what is left. Repeats are dropped before trimming. */
  function UniqueSorted(values: seq<string>): (r: seq<string>)
    ensures forall x :: x in r ==> IsTrimmed(x) && x != ""
    ensures forall x :: x in r <==> x != "" && x in TrimmedValues(values)
  {
    var kept := Filter(TrimAll(Distinct(values)), NonEmpty);
    KeptValues(values);
    SortKeeps(kept);
    SortBy(kept, StrLess)
  }

  /** The values, each trimmed. */
  ghost function TrimmedValues(values: seq<string>): (r: set<string>)
    ensures forall x :: x in r <==> exists v :: v in values && x == Trim(v)
  {
    set v | v in values :: Trim(v)
  }

  lemma KeptValues(values: seq<string>)
    ensures var kept := Filter(TrimAll(Distinct(values)), NonEmpty);
      && (forall x :: x in kept ==> IsTrimmed(x) && x != "")
      && (forall x :: x in kept <==> x != "" && x in TrimmedValues(values))
  {
    var d := Distinct(values);
    var t := TrimAll(d);
    forall x | x in t ensures exists v :: v in values && x == Trim(v) {
      var v :| v in d && x == Trim(v);
      assert v in values;
    }
    forall x, v | v in values && x == Trim(v) ensures x in t {
      assert v in d;
    }
  }

  lemma SortKeeps(s: seq<string>)
    ensures forall x :: x in SortBy(s, StrLess) <==> x in s
  {
    var r := SortBy(s, StrLess);
    forall x ensures x in r <==> x in s {
      assert x in r <==> x in multiset(r);
      assert x in s <==> x in multiset(s);
    }
  }

  /** The vocabulary is in ascending order. */
  lemma UniqueSortedSorted(values: seq<string>)
    ensures Sorted(UniqueSorted(values), StrLess)
  {
    StrLessWeakOrder();
    SortBySorted(Filter(TrimAll(Distinct(values)), NonEmpty), StrLess);
  }

  /** Values that differ only in surrounding white space survive the
      deduplication, since it happens before trimming, and come out equal. */
  lemma DedupBeforeTrim()
    ensures UniqueSorted(["a", " a"]) == ["a", "a"]
  {
    DistinctTrimmedPair();
    KeptSortedPair();
  }

  lemma DistinctTrimmedPair()
    ensures TrimAll(Distinct(["a", " a"])) == ["a", "a"]
  {
    DistinctPair();
    TrimmedPair();
  }

  lemma DistinctPair()
    ensures Distinct(["a", " a"]) == ["a", " a"]
  {
    var values := ["a", " a"];
    assert values[..1] == ["a"] && ["a"][..0] == [];
    assert Distinct(["a"]) == ["a"];
    assert " a" != "a" by {
      assert " a"[0] != "a"[0];
    }
  }

  lemma TrimmedPair()
    ensures TrimAll(["a", " a"]) == ["a", "a"]
  {
    TrimAllPair("a", " a");
    TrimLetter();
    TrimSpaceLetter();
  }

  lemma TrimAllPair(x: string, y: string)
    ensures TrimAll([x, y]) == [Trim(x), Trim(y)]
  {
    assert [x, y][1..] == [y] && [y][1..] == [];
  }

  lemma TrimLetter()
    ensures Trim("a") == "a"
  {
    TrimOfTrimmed("a");
  }

  lemma TrimSpaceLetter()
    ensures Trim(" a") == "a"
  {
    assert " a"[1..] == "a";
    assert TrimStart(" a") == TrimStart("a");
    TrimLetter();
  }

  lemma KeptSortedPair()
    ensures SortBy(Filter(["a", "a"], NonEmpty), StrLess) == ["a", "a"]
  {
    var aa := ["a", "a"];
    assert aa[1..] == ["a"] && ["a"][1..] == [];
    assert Filter(aa, NonEmpty) == aa;
    StrLessIrreflexive("a");
    assert SortBy(["a"], StrLess) == ["a"];
    assert SortBy(aa, StrLess) == Insert("a", ["a"], StrLess);
  }

  /** `xs.flatMap(f)`. */
  function FlatMap<T(!new)>(xs: seq<T>, f: T -> seq<string>): (r: seq<string>)
    ensures forall v :: v in r <==> exists x :: x in xs && v in f(x)
  {
    if |xs| == 0 then []
    else
      assert forall y :: y in xs <==> y == xs[0] || y in xs[1..] by {
        assert xs == [xs[0]] + xs[1..];
      }
      f(xs[0]) + FlatMap(xs[1..], f)
  }

  function MapTo<T(!new)>(xs: seq<T>, f: T -> string): (r: seq<string>)
    ensures |r| == |xs|
    ensures forall i :: 0 <= i < |xs| ==> r[i] == f(xs[i])
  {
    seq(|xs|, i requires 0 <= i < |xs| => f(xs[i]))
  }

  datatype FirmFacets = FirmFacets(locations: seq<string>, services: seq<string>, industries: seq<string>)

  datatype CompanyFacets = CompanyFacets(seattlePresence: seq<string>, teamFocus: seq<string>, industries: seq<string>)

  datatype GuideFacets = GuideFacets(tags: seq<string>)

  /** `getFirmFacets`: each vocabulary is `uniqueSorted` of that list field
      across all firms. */
  function GetFirmFacets(firms: seq<Firm>): (r: FirmFacets)
    ensures forall x :: x in r.locations <==>
      x != "" && exists f, v :: f in firms && v in f.frontmatter.locations && x == Trim(v)
    ensures forall x :: x in r.services <==>
      x != "" && exists f, v :: f in firms && v in f.frontmatter.services && x == Trim(v)
    ensures forall x :: x in r.industries <==>
      x != "" && exists f, v :: f in firms && v in f.frontmatter.industries && x == Trim(v)
  {
    FirmFacets(
      UniqueSorted(FlatMap(firms, (f: Firm) => f.frontmatter.locations)),
      UniqueSorted(FlatMap(firms, (f: Firm) => f.frontmatter.services)),
      UniqueSorted(FlatMap(firms, (f: Firm) => f.frontmatter.industries)))
  }

  /** `getCompanyFacets`: the presence vocabulary takes the one value each
      company has; focus and industries flatten the lists. */
  function GetCompanyFacets(companies: seq<Company>): (r: CompanyFacets)
    ensures forall x :: x in r.seattlePresence <==>
      x != "" && exists c :: c in companies && x == Trim(c.frontmatter.seattlePresence)
    ensures forall x :: x in r.teamFocus <==>
      x != "" && exists c, v :: c in companies && v in c.frontmatter.teamFocus && x == Trim(v)
    ensures forall x :: x in r.industries <==>
      x != "" && exists c, v :: c in companies && v in c.frontmatter.industries && x == Trim(v)
  {
    var presence := MapTo(companies, (c: Company) => c.frontmatter.seattlePresence);
    assert forall v :: v in presence <==> exists c :: c in companies && v == c.frontmatter.seattlePresence by {
      forall v | v in presence ensures exists c :: c in companies && v == c.frontmatter.seattlePresence {
        var i :| 0 <= i < |presence| && presence[i] == v;
        assert companies[i] in companies;
      }
      forall c | c in companies ensures c.frontmatter.seattlePresence in presence {
        var i :| 0 <= i < |companies| && companies[i] == c;
        assert presence[i] == c.frontmatter.seattlePresence;
      }
    }
    CompanyFacets(
      UniqueSorted(presence),
      UniqueSorted(FlatMap(companies, (c: Company) => c.frontmatter.teamFocus)),
      UniqueSorted(FlatMap(companies, (c: Company) => c.frontmatter.industries)))
  }

  /** `getGuideFacets`. */
  function GetGuideFacets(guides: seq<Guide>): (r: GuideFacets)
    ensures forall x :: x in r.tags <==>
      x != "" && exists g, v :: g in guides && v in g.frontmatter.fields.tags && x == Trim(v)
  {
    GuideFacets(UniqueSorted(FlatMap(guides, (g: Guide) => g.frontmatter.fields.tags)))
  }

  /** Every vocabulary is sorted. */
  lemma FacetsSorted(firms: seq<Firm>, companies: seq<Company>, guides: seq<Guide>)
    ensures var f := GetFirmFacets(firms);
      Sorted(f.locations, StrLess) && Sorted(f.services, StrLess) && Sorted(f.industries, StrLess)
    ensures var c := GetCompanyFacets(companies);
      Sorted(c.seattlePresence, StrLess) && Sorted(c.teamFocus, StrLess) && Sorted(c.industries, StrLess)
    ensures Sorted(GetGuideFacets(guides).tags, StrLess)
  {
    UniqueSortedSorted(FlatMap(firms, (f: Firm) => f.frontmatter.locations));
    UniqueSortedSorted(FlatMap(firms, (f: Firm) => f.frontmatter.services));
    UniqueSortedSorted(FlatMap(firms, (f: Firm) => f.frontmatter.industries));
    UniqueSortedSorted(MapTo(companies, (c: Company) => c.frontmatter.seattlePresence));
    UniqueSortedSorted(FlatMap(companies, (c: Company) => c.frontmatter.teamFocus));
    UniqueSortedSorted(FlatMap(companies, (c: Company) => c.frontmatter.industries));
    UniqueSortedSorted(FlatMap(guides, (g: Guide) => g.frontmatter.fields.tags));
  }
}
