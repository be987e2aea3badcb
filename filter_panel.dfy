/** src/components/filters/FilterPanel.tsx: switching one facet value on or off
    in the query parameters, editing the search query, and whether any
    filter is active. */
module FilterPanel {
  import opened Wrappers
  import opened Text
  import opened Seqs
  import opened UrlParams

  function DropValue(values: seq<string>, value: string): (r: seq<string>)
    ensures forall v :: v in r <==> v in values && v != value
  {
    Filter(values, (v: string) => v != value)
  }

  /** The pairs after toggling `value` of `key`. A present value is removed
      everywhere: the key's pairs are deleted and its other values appended
      again, in order, at the end. An absent value is appended once. */
  function Toggled(pairs: seq<Pair>, key: string, value: string): seq<Pair> {
    var values := ValuesOf(pairs, key);
    if value in values then Without(pairs, key) + PairsFor(key, DropValue(values, value))
    else pairs + [(key, value)]
  }

  /** `toggleParamValue`: works on a fresh copy and leaves `searchParams`
      itself alone. */
  method ToggleParamValue(searchParams: SearchParams, key: string, value: string) returns (next: SearchParams)
    ensures fresh(next)
    ensures next.pairs == Toggled(searchParams.pairs, key, value)
  {
    next := new SearchParams.Copy(searchParams);
    var existing := next.GetAll(key);
    if value in existing {
      var kept := DropValue(next.GetAll(key), value);
      next.Delete(key);
      AppendEach(next, key, kept);
    } else {
      next.Append(key, value);
    }
  }

  /** A present value disappears from the key; its other values keep their
      relative order. */
  lemma ToggleRemoves(pairs: seq<Pair>, key: string, value: string)
    requires value in ValuesOf(pairs, key)
    ensures ValuesOf(Toggled(pairs, key, value), key) == DropValue(ValuesOf(pairs, key), value)
    ensures value !in ValuesOf(Toggled(pairs, key, value), key)
  {
    var kept := DropValue(ValuesOf(pairs, key), value);
    ValuesOfAppend(Without(pairs, key), PairsFor(key, kept), key);
    ValuesOfPairsFor(key, kept, key);
  }

  /** An absent value is appended exactly once, at the end. */
  lemma ToggleAdds(pairs: seq<Pair>, key: string, value: string)
    requires value !in ValuesOf(pairs, key)
    ensures ValuesOf(Toggled(pairs, key, value), key) == ValuesOf(pairs, key) + [value]
  {
    ValuesOfAppend(pairs, [(key, value)], key);
    assert ValuesOf([(key, value)], key) == [value];
  }

  /** The pairs of every other key keep their content and relative order. */
  lemma ToggleKeepsOtherKeys(pairs: seq<Pair>, key: string, value: string)
    ensures Without(Toggled(pairs, key, value), key) == Without(pairs, key)
  {
    var values := ValuesOf(pairs, key);
    if value in values {
      var kept := DropValue(values, value);
      WithoutAppend(Without(pairs, key), PairsFor(key, kept), key);
      WithoutIdempotent(pairs, key);
      ValuesOfPairsFor(key, kept, key);
    } else {
      WithoutAppend(pairs, [(key, value)], key);
      assert Without([(key, value)], key) == [];
    }
  }

  lemma {:induction false} DropAbsent(values: seq<string>, value: string)
    requires value !in values
    ensures DropValue(values, value) == values
  {
    FilterAll(values, (v: string) => v != value);
  }

  /** Toggling an absent value twice restores the key's values. */
  lemma ToggleTwice(pairs: seq<Pair>, key: string, value: string)
    requires value !in ValuesOf(pairs, key)
    ensures ValuesOf(Toggled(Toggled(pairs, key, value), key, value), key) == ValuesOf(pairs, key)
  {
    var once := Toggled(pairs, key, value);
    ToggleAdds(pairs, key, value);
    ToggleRemoves(once, key, value);
    var values := ValuesOf(pairs, key);
    FilterAppend(values, [value], (v: string) => v != value);
    DropAbsent(values, value);
    assert Filter([value], (v: string) => v != value) == [];
  }

  /** The pairs after the search box changes to `value`: a blank value
      removes `q`, any other value replaces it. */
  function QueryPairs(pairs: seq<Pair>, value: string): seq<Pair> {
    if |Trim(value)| == 0 then Without(pairs, "q") else WithSet(pairs, "q", value)
  }

  /** The search box's change handler: works on a fresh copy and leaves
      `searchParams` itself alone. */
  method QueryChanged(searchParams: SearchParams, value: string) returns (next: SearchParams)
    ensures fresh(next)
    ensures next.pairs == QueryPairs(searchParams.pairs, value)
  {
    next := new SearchParams.Copy(searchParams);
    if |Trim(value)| == 0 {
      next.Delete("q");
    } else {
      next.Set("q", value);
    }
  }

  /** After the change `q` is absent for a blank value and is exactly the
      typed value otherwise, and every other key keeps its values. */
  lemma QueryChangedFacts(pairs: seq<Pair>, value: string, other: string)
    requires other != "q"
    ensures ValuesOf(QueryPairs(pairs, value), "q") == if AllSpace(value) then [] else [value]
    ensures ValuesOf(QueryPairs(pairs, value), other) == ValuesOf(pairs, other)
  {
    if |Trim(value)| == 0 {
      ValuesOfWithout(pairs, "q", other);
    } else {
      ValuesOfWithSet(pairs, "q", value, other);
    }
  }

  /** `hasAnyFilter`: a non-blank query, or a value for one of the facet keys. */
  predicate HasAnyFilter(pairs: seq<Pair>, facetKeys: seq<string>) {
    || |Trim(FirstOf(pairs, "q").GetOr(""))| > 0
    || exists k :: k in facetKeys && |ValuesOf(pairs, k)| > 0
  }

  /** No filter is active exactly when the query is blank and every facet key
      is absent. */
  lemma NoFilterIff(pairs: seq<Pair>, facetKeys: seq<string>)
    ensures !HasAnyFilter(pairs, facetKeys) <==>
      && AllSpace(FirstOf(pairs, "q").GetOr(""))
      && forall k, v :: k in facetKeys ==> (k, v) !in pairs
  {
    if forall k, v :: k in facetKeys ==> (k, v) !in pairs {
      forall k | k in facetKeys ensures |ValuesOf(pairs, k)| == 0 {
        if |ValuesOf(pairs, k)| > 0 {
          assert ValuesOf(pairs, k)[0] in ValuesOf(pairs, k);
        }
      }
    }
  }
}
