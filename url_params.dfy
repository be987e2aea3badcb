/** Query-string parameters: the `URLSearchParams` list of name/value pairs the
    pages read and build, and the helpers `getAll` and `getOne` of
    src/lib/url/searchParams.ts. Serialisation and percent-encoding of the
    list are not modelled. */
module UrlParams {
  import opened Wrappers
  import opened Text
  import opened Seqs

  type Pair = (string, string)

  /** `params.getAll(key)`: the values of `key`, in list order. */
  function ValuesOf(pairs: seq<Pair>, key: string): (r: seq<string>)
    ensures |r| <= |pairs|
    ensures forall v :: v in r <==> (key, v) in pairs
  {
    if |pairs| == 0 then []
    else
      assert forall p :: p in pairs <==> p == pairs[0] || p in pairs[1..] by {
        assert pairs == [pairs[0]] + pairs[1..];
      }
      (if pairs[0].0 == key then [pairs[0].1] else []) + ValuesOf(pairs[1..], key)
  }

  lemma {:induction false} ValuesOfAppend(a: seq<Pair>, b: seq<Pair>, key: string)
    ensures ValuesOf(a + b, key) == ValuesOf(a, key) + ValuesOf(b, key)
  {
    if |a| == 0 {
      assert a + b == b;
    } else {
      assert (a + b)[0] == a[0] && (a + b)[1..] == a[1..] + b;
      ValuesOfAppend(a[1..], b, key);
    }
  }

  /** `params.get(key)`: the first value of `key`, if any. */
  function FirstOf(pairs: seq<Pair>, key: string): (r: Option<string>)
    ensures r.Some? <==> ValuesOf(pairs, key) != []
    ensures r.Some? ==> r.value == ValuesOf(pairs, key)[0]
  {
    if |pairs| == 0 then None
    else if pairs[0].0 == key then Some(pairs[0].1)
    else FirstOf(pairs[1..], key)
  }

  /** The list after `params.delete(key)`: every pair of another key, in order. */
  function Without(pairs: seq<Pair>, key: string): (r: seq<Pair>)
    ensures |r| <= |pairs|
    ensures forall p :: p in r <==> p in pairs && p.0 != key
    ensures ValuesOf(r, key) == []
  {
    if |pairs| == 0 then []
    else
      assert forall p :: p in pairs <==> p == pairs[0] || p in pairs[1..] by {
        assert pairs == [pairs[0]] + pairs[1..];
      }
      var head := if pairs[0].0 == key then [] else [pairs[0]];
      var rest := Without(pairs[1..], key);
      ValuesOfAppend(head, rest, key);
      head + rest
  }

  lemma {:induction false} WithoutAppend(a: seq<Pair>, b: seq<Pair>, key: string)
    ensures Without(a + b, key) == Without(a, key) + Without(b, key)
  {
    if |a| == 0 {
      assert a + b == b;
    } else {
      assert (a + b)[0] == a[0] && (a + b)[1..] == a[1..] + b;
      WithoutAppend(a[1..], b, key);
    }
  }

  /** Deleting a key leaves the values of every other key as they were. */
  lemma {:induction false} ValuesOfWithout(pairs: seq<Pair>, key: string, other: string)
    requires other != key
    ensures ValuesOf(Without(pairs, key), other) == ValuesOf(pairs, other)
  {
    if |pairs| > 0 {
      ValuesOfWithout(pairs[1..], key, other);
      var head := if pairs[0].0 == key then [] else [pairs[0]];
      ValuesOfAppend(head, Without(pairs[1..], key), other);
    }
  }

  /** The list after `params.set(key, value)`: the first pair of `key` takes
      the value and the later ones go; with no such pair, one is appended. */
  function WithSet(pairs: seq<Pair>, key: string, value: string): (r: seq<Pair>)
    ensures ValuesOf(r, key) == [value]
    ensures Without(r, key) == Without(pairs, key)
  {
    if |pairs| == 0 then [(key, value)]
    else if pairs[0].0 == key then
      var rest := Without(pairs[1..], key);
      ValuesOfAppend([(key, value)], rest, key);
      WithoutAppend([(key, value)], rest, key);
      WithoutAppend([pairs[0]], pairs[1..], key);
      assert pairs == [pairs[0]] + pairs[1..];
      WithoutIdempotent(pairs[1..], key);
      [(key, value)] + rest
    else
      var rest := WithSet(pairs[1..], key, value);
      ValuesOfAppend([pairs[0]], rest, key);
      WithoutAppend([pairs[0]], rest, key);
      WithoutAppend([pairs[0]], pairs[1..], key);
      assert pairs == [pairs[0]] + pairs[1..];
      [pairs[0]] + rest
  }

  lemma {:induction false} WithoutIdempotent(pairs: seq<Pair>, key: string)
    ensures Without(Without(pairs, key), key) == Without(pairs, key)
  {
    if |pairs| > 0 {
      WithoutIdempotent(pairs[1..], key);
      var head := if pairs[0].0 == key then [] else [pairs[0]];
      WithoutAppend(head, Without(pairs[1..], key), key);
    }
  }

  /** `set` changes only its own key's values. */
  lemma ValuesOfWithSet(pairs: seq<Pair>, key: string, value: string, other: string)
    requires other != key
    ensures ValuesOf(WithSet(pairs, key, value), other) == ValuesOf(pairs, other)
  {
    ValuesOfWithout(WithSet(pairs, key, value), key, other);
    ValuesOfWithout(pairs, key, other);
  }

  /** The pairs `(key, v)` for each `v` of `values`, in order. */
  function PairsFor(key: string, values: seq<string>): (r: seq<Pair>)
    ensures |r| == |values|
    ensures forall i :: 0 <= i < |values| ==> r[i] == (key, values[i])
  {
    seq(|values|, i requires 0 <= i < |values| => (key, values[i]))
  }

  lemma PairsForSnoc(key: string, values: seq<string>, v: string)
    ensures PairsFor(key, values + [v]) == PairsFor(key, values) + [(key, v)]
  {
    var a := PairsFor(key, values + [v]);
    var b := PairsFor(key, values) + [(key, v)];
    assert |a| == |b|;
    forall i | 0 <= i < |a| ensures a[i] == b[i] {
      if i < |values| { assert (values + [v])[i] == values[i]; }
    }
  }

  lemma {:induction false} ValuesOfPairsFor(key: string, values: seq<string>, other: string)
    ensures ValuesOf(PairsFor(key, values), other) == if other == key then values else []
    ensures Without(PairsFor(key, values), key) == []
  {
    if |values| > 0 {
      var r := PairsFor(key, values);
      assert r[1..] == PairsFor(key, values[1..]);
      ValuesOfPairsFor(key, values[1..], other);
      assert values == [values[0]] + values[1..];
    }
  }

  /** A `URLSearchParams` object: its list of pairs, changed in place by
      `append`, `delete` and `set`. */
  class SearchParams {
    var pairs: seq<Pair>

    /** `new URLSearchParams()`. */
    constructor Empty()
      ensures pairs == []
    {
      pairs := [];
    }

    /** `new URLSearchParams(other)`: an independent copy. */
    constructor Copy(other: SearchParams)
      ensures pairs == other.pairs
    {
      pairs := other.pairs;
    }

    function GetAll(key: string): (r: seq<string>)
      reads this
      ensures forall v :: v in r <==> (key, v) in pairs
    {
      ValuesOf(pairs, key)
    }

    method Append(key: string, value: string)
      modifies this
      ensures pairs == old(pairs) + [(key, value)]
    {
      pairs := pairs + [(key, value)];
    }

    method Delete(key: string)
      modifies this
      ensures pairs == Without(old(pairs), key)
    {
      pairs := Without(pairs, key);
    }

    method Set(key: string, value: string)
      modifies this
      ensures pairs == WithSet(old(pairs), key, value)
    {
      pairs := WithSet(pairs, key, value);
    }
  }

  /** Appends `(key, v)` for each `v` of `values`, in order: the loops
      `for (const v of kept) next.append(key, v)` of `toggleParamValue` and
      `value.forEach((v) => params.append(key, v))` of the listing pages. */
  method AppendEach(next: SearchParams, key: string, values: seq<string>)
    modifies next
    ensures next.pairs == old(next.pairs) + PairsFor(key, values)
  {
    ghost var start := next.pairs;
    var i := 0;
    assert values[..0] == [];
    while i < |values|
      invariant 0 <= i <= |values|
      invariant next.pairs == start + PairsFor(key, values[..i])
    {
      ghost var done := PairsFor(key, values[..i]);
      next.Append(key, values[i]);
      assert next.pairs == start + (done + [(key, values[i])]);
      SliceSnoc(values, i);
      PairsForSnoc(key, values[..i], values[i]);
      i := i + 1;
    }
    PrefixAll(values);
  }

  // ---------------------------------------------------------------------
  // src/lib/url/searchParams.ts

  /** Every value split on commas, in order. */
  function CommaPieces(values: seq<string>): (r: seq<string>)
    ensures forall p :: p in r ==> ',' !in p
  {
    if |values| == 0 then [] else Split(values[0], ',') + CommaPieces(values[1..])
  }

  lemma {:induction false} CommaPiecesAppend(a: seq<string>, b: seq<string>)
    ensures CommaPieces(a + b) == CommaPieces(a) + CommaPieces(b)
  {
    if |a| == 0 {
      assert a + b == b;
    } else {
      assert (a + b)[0] == a[0] && (a + b)[1..] == a[1..] + b;
      CommaPiecesAppend(a[1..], b);
    }
  }

  /** `getAll(params, key)`: the values of `key` split on commas, trimmed,
      with the empty pieces dropped. */
  function GetAllList(pairs: seq<Pair>, key: string): (r: seq<string>)
    ensures forall x :: x in r ==> x != "" && IsTrimmed(x) && ',' !in x
    ensures ValuesOf(pairs, key) == [] ==> r == []
  {
    var pieces := CommaPieces(ValuesOf(pairs, key));
    TrimKeepsNoComma(pieces);
    Filter(TrimAll(pieces), NonEmpty)
  }

  lemma TrimKeepsNoComma(pieces: seq<string>)
    requires forall p :: p in pieces ==> ',' !in p
    ensures forall x :: x in TrimAll(pieces) ==> ',' !in x
  {
    forall x | x in TrimAll(pieces) ensures ',' !in x {
      var p :| p in pieces && x == Trim(p);
      TrimChars(p);
    }
  }

  /** Pieces come value by value: a later pair's pieces follow an earlier
      one's. */
  lemma GetAllAppend(pairs: seq<Pair>, key: string, value: string)
    ensures GetAllList(pairs + [(key, value)], key)
         == GetAllList(pairs, key) + Filter(TrimAll(Split(value, ',')), NonEmpty)
  {
    ValuesOfAppend(pairs, [(key, value)], key);
    var vs := ValuesOf(pairs, key);
    assert ValuesOf([(key, value)], key) == [value];
    CommaPiecesAppend(vs, [value]);
    assert CommaPieces([value]) == Split(value, ',');
    TrimAllAppend(CommaPieces(vs), Split(value, ','));
    FilterAppend(TrimAll(CommaPieces(vs)), TrimAll(Split(value, ',')), NonEmpty);
  }

  lemma {:induction false} TrimAllAppend(a: seq<string>, b: seq<string>)
    ensures TrimAll(a + b) == TrimAll(a) + TrimAll(b)
  {
    if |a| == 0 {
      assert a + b == b;
    } else {
      assert (a + b)[0] == a[0] && (a + b)[1..] == a[1..] + b;
      TrimAllAppend(a[1..], b);
    }
  }

  predicate Clean(v: string) {
    v != "" && IsTrimmed(v) && ',' !in v
  }

  lemma {:induction false} CleanPieces(vs: seq<string>)
    requires forall i :: 0 <= i < |vs| ==> Clean(vs[i])
    ensures Filter(TrimAll(CommaPieces(vs)), NonEmpty) == vs
  {
    if |vs| > 0 {
      var v := vs[0];
      assert Clean(v);
      assert forall i :: 0 <= i < |vs| - 1 ==> vs[1..][i] == vs[i + 1];
      CleanPieces(vs[1..]);
      var rest := CommaPieces(vs[1..]);
      assert CommaPieces(vs) == [v] + rest by {
        SplitNoSeparator(v, ',');
      }
      assert TrimAll([v] + rest) == [v] + TrimAll(rest) by {
        assert ([v] + rest)[1..] == rest;
        TrimOfTrimmed(v);
      }
      FilterCons(v, TrimAll(rest), NonEmpty);
      HeadTail(vs);
    }
  }

  /** When every value of `key` is non-empty, trimmed and free of commas,
      `getAll` gives back exactly those values. */
  lemma GetAllOfCleanValues(pairs: seq<Pair>, key: string)
    requires forall v :: v in ValuesOf(pairs, key) ==> Clean(v)
    ensures GetAllList(pairs, key) == ValuesOf(pairs, key)
  {
    var vs := ValuesOf(pairs, key);
    assert forall i :: 0 <= i < |vs| ==> vs[i] in vs;
    CleanPieces(vs);
  }

  /** `getOne(params, key)`: the first value trimmed, or `undefined` when the
      key is absent or its first value is blank. */
  function GetOne(pairs: seq<Pair>, key: string): (r: Option<string>)
    ensures r.None? <==> FirstOf(pairs, key).None? || AllSpace(FirstOf(pairs, key).value)
    ensures r.Some? ==> r.value == Trim(FirstOf(pairs, key).value) && r.value != "" && IsTrimmed(r.value)
  {
    match FirstOf(pairs, key)
    case None => None
    case Some(value) =>
      if value == "" then None
      else
        var trimmed := Trim(value);
        if |trimmed| > 0 then Some(trimmed) else None
  }
}
