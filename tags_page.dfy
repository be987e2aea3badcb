/** The tag index of src/app/tags/page.tsx: every tag of the non-draft guides
    and playbooks with its number of occurrences, most used first. */
module TagsPage {
  import opened Seqs
  import opened Sorting
  import opened Collections
  import opened TagCounts

  /** The tag lists of `[...guides, ...playbooks]`, in that order. */
  function TagLists(guides: seq<Guide>, playbooks: seq<Playbook>): (r: seq<seq<string>>)
    ensures |r| == |guides| + |playbooks|
    ensures forall i :: 0 <= i < |guides| ==> r[i] == guides[i].frontmatter.fields.tags
    ensures forall i :: 0 <= i < |playbooks| ==> r[|guides| + i] == playbooks[i].frontmatter.fields.tags
  {
    seq(|guides|, i requires 0 <= i < |guides| => guides[i].frontmatter.fields.tags)
    + seq(|playbooks|, i requires 0 <= i < |playbooks| => playbooks[i].frontmatter.fields.tags)
  }

  /** A tag occurs iff some guide or some playbook carries it. */
  lemma TagListsMembers(guides: seq<Guide>, playbooks: seq<Playbook>, t: string)
    ensures t in Flatten(TagLists(guides, playbooks)) <==>
      (exists g :: g in guides && t in g.frontmatter.fields.tags)
      || (exists p :: p in playbooks && t in p.frontmatter.fields.tags)
  {
    var lists := TagLists(guides, playbooks);
    if t in Flatten(lists) {
      var k :| 0 <= k < |lists| && t in lists[k];
      if k < |guides| {
        assert guides[k] in guides;
      } else {
        assert playbooks[k - |guides|] in playbooks;
      }
    }
    if exists g :: g in guides && t in g.frontmatter.fields.tags {
      var g :| g in guides && t in g.frontmatter.fields.tags;
      var k :| 0 <= k < |guides| && guides[k] == g;
      assert t in lists[k];
    }
    if exists p :: p in playbooks && t in p.frontmatter.fields.tags {
      var p :| p in playbooks && t in p.frontmatter.fields.tags;
      var k :| 0 <= k < |playbooks| && playbooks[k] == p;
      assert t in lists[|guides| + k];
    }
  }

  /** `tags` of the page: count, then rank the map's entries. */
  method TagsIndex(guides: seq<Guide>, playbooks: seq<Playbook>) returns (tags: seq<TagCount>)
    ensures tags == Ranked(Flatten(TagLists(guides, playbooks)))
    ensures Total(tags) == |Flatten(TagLists(guides, playbooks))|
  {
    var lists := TagLists(guides, playbooks);
    var keys, counts := CountTags(lists);
    var entries := seq(|keys|, i requires 0 <= i < |keys| => TagCount(keys[i], counts[keys[i]]));
    assert entries == Entries(Flatten(lists));
    tags := SortBy(entries, CountsFirst);
    RankedTotal(lists, keys, counts);
  }

  /** What the index shows: each tag once, each with its number of
      occurrences across the guides and playbooks, in ranking order. */
  lemma TagsIndexFacts(guides: seq<Guide>, playbooks: seq<Playbook>)
    ensures var all := Flatten(TagLists(guides, playbooks));
      && NoDuplicates(TagsOf(Ranked(all)))
      && (forall e :: e in Ranked(all) <==> e.tag in all && e.count == multiset(all)[e.tag])
      && Sorted(Ranked(all), CountsFirst)
  {
    var all := Flatten(TagLists(guides, playbooks));
    RankedDistinct(all);
    RankedEntries(all);
    RankedSorted(all);
  }
}
