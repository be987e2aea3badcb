/** The `groups` of src/components/command/CommandPaletteClient.tsx: the
    palette items bucketed by their `group` in a `Map`, whose entries come out
    in first-seen order of the group names, each bucket keeping item order. */
module CommandPalette {
  import opened Wrappers
  import opened Seqs

  datatype PaletteItem = PaletteItem(href: string, title: string, description: Option<string>,
                                     keywords: Option<seq<string>>, group: string)

  function GroupNames(items: seq<PaletteItem>): (r: seq<string>)
    ensures |r| == |items|
    ensures forall i :: 0 <= i < |items| ==> r[i] == items[i].group
  {
    seq(|items|, i requires 0 <= i < |items| => items[i].group)
  }

  function InGroup(g: string): PaletteItem -> bool {
    (item: PaletteItem) => item.group == g
  }

  /** The groups as the page lists them: each distinct group name in order
      of first appearance, with the items of that group in input order. */
  function Grouped(items: seq<PaletteItem>): (r: seq<(string, seq<PaletteItem>)>)
    ensures |r| == |Distinct(GroupNames(items))|
    ensures forall i :: 0 <= i < |r| ==>
      r[i] == (Distinct(GroupNames(items))[i], Filter(items, InGroup(Distinct(GroupNames(items))[i])))
  {
    var names := Distinct(GroupNames(items));
    seq(|names|, i requires 0 <= i < |names| => (names[i], Filter(items, InGroup(names[i]))))
  }

  /** `names` and `buckets` are the `Map` after the items `seen`. */
  ghost predicate Bucketed(seen: seq<PaletteItem>, names: seq<string>, buckets: map<string, seq<PaletteItem>>) {
    && names == Distinct(GroupNames(seen))
    && (forall g :: g in buckets <==> g in names)
    && (forall g :: g in buckets ==> buckets[g] == Filter(seen, InGroup(g)))
  }

  /** `list = map.get(group) ?? []; list.push(item); map.set(group, list)`. */
  function Pushed(names: seq<string>, buckets: map<string, seq<PaletteItem>>, item: PaletteItem)
    : (seq<string>, map<string, seq<PaletteItem>>)
  {
    var list := (if item.group in buckets then buckets[item.group] else []) + [item];
    (if item.group in buckets then names else names + [item.group], buckets[item.group := list])
  }

  lemma FilterNone(seen: seq<PaletteItem>, g: string)
    requires g !in GroupNames(seen)
    ensures Filter(seen, InGroup(g)) == []
  {
    forall y | y in seen ensures y.group in GroupNames(seen) {
      var k :| 0 <= k < |seen| && seen[k] == y;
      assert GroupNames(seen)[k] == y.group;
    }
  }

  lemma FilterSnocIn(seen: seq<PaletteItem>, item: PaletteItem)
    ensures Filter(seen + [item], InGroup(item.group)) == Filter(seen, InGroup(item.group)) + [item]
  {
    FilterSnoc(seen, item, InGroup(item.group));
  }

  lemma FilterSnocOut(seen: seq<PaletteItem>, item: PaletteItem, g: string)
    requires g != item.group
    ensures Filter(seen + [item], InGroup(g)) == Filter(seen, InGroup(g))
  {
    FilterSnoc(seen, item, InGroup(g));
  }

  lemma BucketOf(seen: seq<PaletteItem>, buckets: map<string, seq<PaletteItem>>, item: PaletteItem, g: string)
    requires g in buckets ==> buckets[g] == Filter(seen, InGroup(g))
    requires g == item.group && g !in buckets ==> g !in GroupNames(seen)
    ensures var list := (if item.group in buckets then buckets[item.group] else []) + [item];
      g in buckets[item.group := list] ==> buckets[item.group := list][g] == Filter(seen + [item], InGroup(g))
  {
    if g == item.group {
      FilterSnocIn(seen, item);
      if g !in buckets {
        FilterNone(seen, g);
      }
    } else {
      FilterSnocOut(seen, item, g);
    }
  }

  lemma BucketedStep(seen: seq<PaletteItem>, names: seq<string>, buckets: map<string, seq<PaletteItem>>, item: PaletteItem)
    requires Bucketed(seen, names, buckets)
    ensures Bucketed(seen + [item], Pushed(names, buckets, item).0, Pushed(names, buckets, item).1)
  {
    var seen' := seen + [item];
    var names' := Pushed(names, buckets, item).0;
    var buckets' := Pushed(names, buckets, item).1;
    assert names' == Distinct(GroupNames(seen')) by {
      assert GroupNames(seen') == GroupNames(seen) + [item.group];
      DistinctSnoc(GroupNames(seen), item.group);
    }
    assert forall g :: g in buckets' <==> g in names';
    assert forall g :: g in buckets' ==> buckets'[g] == Filter(seen', InGroup(g)) by {
      forall g | g in buckets' ensures buckets'[g] == Filter(seen', InGroup(g)) {
        BucketOf(seen, buckets, item, g);
      }
    }
  }

  /** The `useMemo` body: one pass over the items. */
  method Groups(items: seq<PaletteItem>) returns (groups: seq<(string, seq<PaletteItem>)>)
    ensures groups == Grouped(items)
  {
    var names: seq<string> := [];
    var buckets: map<string, seq<PaletteItem>> := map[];
    ghost var seen: seq<PaletteItem> := [];
    var i := 0;
    while i < |items|
      invariant 0 <= i <= |items|
      invariant seen == items[..i]
      invariant Bucketed(seen, names, buckets)
    {
      var item := items[i];
      BucketedStep(seen, names, buckets, item);
      ghost var namesBefore, bucketsBefore := names, buckets;
      var list := if item.group in buckets then buckets[item.group] else [];
      list := list + [item];
      if item.group !in buckets {
        names := names + [item.group];
      }
      buckets := buckets[item.group := list];
      assert names == Pushed(namesBefore, bucketsBefore, item).0;
      assert buckets == Pushed(namesBefore, bucketsBefore, item).1;
      seen := seen + [item];
      SliceSnoc(items, i);
      i := i + 1;
    }
    PrefixAll(items);
    groups := seq(|names|, k requires 0 <= k < |names| => (names[k], buckets[names[k]]));
  }

  /** The number of items over the buckets for `names`. */
  function SizeOver(names: seq<string>, items: seq<PaletteItem>): nat
    decreases |names|
  {
    if |names| == 0 then 0
    else SizeOver(names[..|names| - 1], items) + |Filter(items, InGroup(names[|names| - 1]))|
  }

  lemma {:induction false} SizeOverSnoc(names: seq<string>, items: seq<PaletteItem>, x: PaletteItem)
    requires NoDuplicates(names)
    ensures SizeOver(names, items + [x]) == SizeOver(names, items) + (if x.group in names then 1 else 0)
    decreases |names|
  {
    if |names| > 0 {
      var init := names[..|names| - 1];
      var last := names[|names| - 1];
      assert NoDuplicates(init) by {
        forall i, j | 0 <= i < j < |init| ensures init[i] != init[j] {
          assert init[i] == names[i] && init[j] == names[j];
        }
      }
      SizeOverSnoc(init, items, x);
      FilterAppend(items, [x], InGroup(last));
      assert [x][1..] == [];
      assert x.group in names <==> x.group in init || x.group == last;
      assert last !in init by {
        forall i | 0 <= i < |init| ensures init[i] != last {
          assert names[i] != names[|names| - 1];
        }
      }
    }
  }

  lemma GroupNamesSnoc(init: seq<PaletteItem>, x: PaletteItem)
    ensures GroupNames(init + [x]) == GroupNames(init) + [x.group]
  {
  }

  /** A first item of a new group opens a bucket holding just that item. */
  lemma SizeOverNewGroup(d: seq<string>, init: seq<PaletteItem>, x: PaletteItem)
    requires x.group !in GroupNames(init)
    ensures SizeOver(d + [x.group], init + [x]) == SizeOver(d, init + [x]) + 1
  {
    SliceSnoc(d + [x.group], |d|);
    assert (d + [x.group])[..|d|] == d;
    FilterNone(init, x.group);
    FilterAppend(init, [x], InGroup(x.group));
    assert [x][1..] == [];
  }

  /** Every item lands in exactly one group: the bucket sizes add up to the
      number of items. */
  lemma {:induction false} GroupedSizes(items: seq<PaletteItem>)
    ensures SizeOver(Distinct(GroupNames(items)), items) == |items|
    decreases |items|
  {
    if |items| > 0 {
      var init := items[..|items| - 1];
      var x := items[|items| - 1];
      assert items == init + [x];
      GroupedSizes(init);
      GroupNamesSnoc(init, x);
      DistinctSnoc(GroupNames(init), x.group);
      var d := Distinct(GroupNames(init));
      SizeOverSnoc(d, init, x);
      if x.group !in d {
        SizeOverNewGroup(d, init, x);
      }
    }
  }

  /** No group is empty, and group names are distinct. */
  lemma GroupsNonEmpty(items: seq<PaletteItem>)
    ensures forall i :: 0 <= i < |Grouped(items)| ==> |Grouped(items)[i].1| > 0
    ensures NoDuplicates(Distinct(GroupNames(items)))
  {
    var names := Distinct(GroupNames(items));
    forall i | 0 <= i < |names| ensures |Filter(items, InGroup(names[i]))| > 0 {
      assert names[i] in GroupNames(items);
      var k :| 0 <= k < |items| && GroupNames(items)[k] == names[i];
      assert items[k] in Filter(items, InGroup(names[i]));
    }
  }
}
