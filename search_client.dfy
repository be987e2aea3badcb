/** The `results` of src/app/search/SearchClient.tsx: a blank query shows the
    first 24 items; otherwise the first 50 items whose lower-cased title,
    description, kind and tags, space-joined, contain the lower-cased
    query. */
module SearchClient {
  import opened Text
  import opened Seqs

  datatype SearchKind = Agency | Team | GuideKind | PlaybookKind | EventKind | GroupKind

  function KindName(k: SearchKind): string {
    match k
    case Agency => "agency"
    case Team => "team"
    case GuideKind => "guide"
    case PlaybookKind => "playbook"
    case EventKind => "event"
    case GroupKind => "group"
  }

  datatype SearchItem = SearchItem(href: string, title: string, description: string,
                                   tags: seq<string>, kind: SearchKind)

  const BlankLimit := 24
  const MatchLimit := 50

  function Haystack(item: SearchItem): string {
    Lower(Join([item.title, item.description, KindName(item.kind)] + item.tags, " "))
  }

  predicate Hit(item: SearchItem, query: string) {
    Contains(Haystack(item), query)
  }

  function Matching(items: seq<SearchItem>, query: string): (r: seq<SearchItem>)
    ensures IsSubseq(r, items)
    ensures forall x :: x in r <==> x in items && Hit(x, query)
  {
    FilterIsSubseq(items, (item: SearchItem) => Hit(item, query));
    Filter(items, (item: SearchItem) => Hit(item, query))
  }

  /** `results` for the text `q` typed in the box. */
  function Results(items: seq<SearchItem>, q: string): (r: seq<SearchItem>)
    ensures IsSubseq(r, items)
    ensures Lower(Trim(q)) == "" ==>
      |r| == (if |items| < BlankLimit then |items| else BlankLimit) && r == items[..|r|]
    ensures Lower(Trim(q)) != "" ==> |r| <= MatchLimit
    ensures Lower(Trim(q)) != "" ==> forall x :: x in r ==> x in items && Contains(Haystack(x), Lower(Trim(q)))
    ensures Lower(Trim(q)) != "" ==>
      var m := Matching(items, Lower(Trim(q)));
      |r| == (if |m| < MatchLimit then |m| else MatchLimit) && r == m[..|r|]
  {
    var query := Lower(Trim(q));
    if query == "" then
      PrefixIsSubseq(items, |Take(items, BlankLimit)|);
      Take(items, BlankLimit)
    else
      var m := Matching(items, query);
      var r := Take(m, MatchLimit);
      PrefixIsSubseq(m, |r|);
      SubseqTransitive(r, m, items);
      assert forall x :: x in r ==> x in m;
      r
  }
}
