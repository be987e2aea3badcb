/** The data the home page src/app/page.tsx computes: one featured pick per
    collection, the "Recently updated" list and the popular tags. */
module HomePage {
  import opened Wrappers
  import opened Text
  import opened Seqs
  import opened Sorting
  import opened Schemas
  import opened Loaders
  import opened Collections
  import opened Summary
  import opened TagCounts
  import TagsPage

  /** `FeaturedCardData`. */
  datatype Card = Card(href: string, title: string, summary: string, tags: seq<string>)

  /** `xs.find(p)`: the first element satisfying `p`. */
  function FindFirst<T>(xs: seq<T>, p: T -> bool): (r: Option<T>)
    ensures r.None? <==> forall i :: 0 <= i < |xs| ==> !p(xs[i])
    ensures r.Some? ==> exists i :: (0 <= i < |xs| && xs[i] == r.value && p(xs[i])
      && forall k :: 0 <= k < i ==> !p(xs[k]))
  {
    if |xs| == 0 then None
    else if p(xs[0]) then Some(xs[0])
    else
      var r := FindFirst(xs[1..], p);
      assert r.Some? ==> exists i :: (0 <= i < |xs[1..]| && xs[1..][i] == r.value && p(xs[1..][i])
        && forall k :: 0 <= k < i ==> !p(xs[1..][k]));
      r
  }

  /** `xs[0]`, undefined on an empty list. */
  function First<T>(xs: seq<T>): Option<T> {
    if |xs| == 0 then None else Some(xs[0])
  }

  /** `xs.find(p) ?? xs[0]`. */
  function FindOrFirst<T>(xs: seq<T>, p: T -> bool): Option<T> {
    match FindFirst(xs, p)
    case Some(x) => Some(x)
    case None => First(xs)
  }

  /** A pick is absent only for an empty list; otherwise it is the first
      element satisfying `p`, or the first element when none does. */
  lemma FindOrFirstPick<T>(xs: seq<T>, p: T -> bool)
    ensures FindOrFirst(xs, p).None? <==> |xs| == 0
    ensures FindOrFirst(xs, p).Some? ==> FindOrFirst(xs, p).value in xs
    ensures (exists i :: 0 <= i < |xs| && p(xs[i])) ==>
      exists i :: (0 <= i < |xs| && FindOrFirst(xs, p) == Some(xs[i]) && p(xs[i])
        && forall k :: 0 <= k < i ==> !p(xs[k]))
    ensures (forall i :: 0 <= i < |xs| ==> !p(xs[i])) && |xs| > 0 ==> FindOrFirst(xs, p) == Some(xs[0])
  {
  }

  /** A pick is absent only for an empty list. */
  lemma PickPresence<T>(xs: seq<T>, p: T -> bool)
    ensures FindOrFirst(xs, p).None? <==> |xs| == 0
  {
    FindOrFirstPick(xs, p);
  }

  /** `featured` is truthy. */
  predicate FirmFeatured(f: Firm) {
    f.frontmatter.featured == Some(true)
  }

  predicate CompanyFeatured(c: Company) {
    c.frontmatter.featured == Some(true)
  }

  /** Guides, playbooks and events have no `featured` field, so the search for
      a featured one never succeeds. */
  function NeverFeatured<T>(x: T): bool {
    false
  }

  /** The first featured firm, else the first firm. */
  function FeaturedFirm(firms: seq<Firm>): (r: Option<Firm>)
    ensures r.None? <==> |firms| == 0
    ensures r.Some? ==> r.value in firms
    ensures (exists i :: 0 <= i < |firms| && FirmFeatured(firms[i])) ==>
      exists i :: (0 <= i < |firms| && r == Some(firms[i]) && FirmFeatured(firms[i])
        && forall k :: 0 <= k < i ==> !FirmFeatured(firms[k]))
    ensures (forall i :: 0 <= i < |firms| ==> !FirmFeatured(firms[i])) && |firms| > 0 ==> r == Some(firms[0])
  {
    FindOrFirstPick(firms, FirmFeatured);
    FindOrFirst(firms, FirmFeatured)
  }

  /** The first featured company, else the first company. */
  function FeaturedCompany(companies: seq<Company>): (r: Option<Company>)
    ensures r.None? <==> |companies| == 0
    ensures r.Some? ==> r.value in companies
    ensures (exists i :: 0 <= i < |companies| && CompanyFeatured(companies[i])) ==>
      exists i :: (0 <= i < |companies| && r == Some(companies[i]) && CompanyFeatured(companies[i])
        && forall k :: 0 <= k < i ==> !CompanyFeatured(companies[k]))
    ensures (forall i :: 0 <= i < |companies| ==> !CompanyFeatured(companies[i])) && |companies| > 0 ==> r == Some(companies[0])
  {
    FindOrFirstPick(companies, CompanyFeatured);
    FindOrFirst(companies, CompanyFeatured)
  }

  /** The first guide, absent only when there is none. */
  function FeaturedGuide(guides: seq<Guide>): (r: Option<Guide>)
    ensures r.None? <==> |guides| == 0
    ensures r.Some? ==> r.value == guides[0]
  {
    FindOrFirstPick(guides, NeverFeatured);
    FindOrFirst(guides, NeverFeatured)
  }

  /** The first playbook, absent only when there is none. */
  function FeaturedPlaybook(playbooks: seq<Playbook>): (r: Option<Playbook>)
    ensures r.None? <==> |playbooks| == 0
    ensures r.Some? ==> r.value == playbooks[0]
  {
    FindOrFirstPick(playbooks, NeverFeatured);
    FindOrFirst(playbooks, NeverFeatured)
  }

  /** `events.find(featured) ?? events.find(upcoming) ?? events[0]`. */
  function FeaturedEvent(events: seq<Event>): (r: Option<Event>)
    ensures r.None? <==> |events| == 0
    ensures r.Some? ==> r.value in events
    ensures (exists i :: 0 <= i < |events| && IsUpcoming(events[i])) ==>
      exists i :: (0 <= i < |events| && r == Some(events[i]) && IsUpcoming(events[i])
        && forall k :: 0 <= k < i ==> !IsUpcoming(events[k]))
    ensures (forall i :: 0 <= i < |events| ==> !IsUpcoming(events[i])) && |events| > 0 ==> r == Some(events[0])
  {
    FindOrFirstPick(events, IsUpcoming);
    match FindFirst(events, NeverFeatured)
    case Some(e) => Some(e)
    case None => FindOrFirst(events, IsUpcoming)
  }

  /** The guide and playbook picks are simply the first entries, and the
      event pick is the first upcoming event, else the first event. */
  lemma FeaturedPicks(guides: seq<Guide>, playbooks: seq<Playbook>, events: seq<Event>)
    ensures FeaturedGuide(guides) == First(guides)
    ensures FeaturedPlaybook(playbooks) == First(playbooks)
    ensures FeaturedEvent(events) == FindOrFirst(events, IsUpcoming)
  {
  }

  const SummaryLength := 160

  /** `extractSummaryFromMdxBody(body)` with its default length. */
  function BodySummary(body: string): string {
    Summarize(Collect(ParaKinds(Split(body, '\n')), [], SummaryLength), SummaryLength)
  }

  function FirmCard(f: Firm): Card {
    Card("/agencies/" + f.slug, f.frontmatter.name, BodySummary(f.body), f.frontmatter.services)
  }

  function CompanyCard(c: Company): Card {
    Card("/teams/" + c.slug, c.frontmatter.name, BodySummary(c.body), c.frontmatter.teamFocus)
  }

  function GuideCard(g: Guide): Card {
    var fm := g.frontmatter.fields;
    Card("/learn/guides/" + g.slug, fm.title, fm.description, fm.tags)
  }

  function PlaybookCard(p: Playbook): Card {
    var fm := p.frontmatter.fields;
    Card("/learn/playbooks/" + p.slug, fm.title, fm.description, fm.tags)
  }

  function EventCard(e: Event): Card {
    Card("/community/events/" + e.slug, e.frontmatter.title, e.frontmatter.description, e.frontmatter.tags)
  }

  const GroupsCard := Card("/community/groups", "Groups & meetups",
    "Find ongoing communities for critique, research practice, accessibility, and design leadership.",
    ["community", "meetups"])

  function Present<T>(pick: Option<T>, card: T -> Card): (r: seq<Card>)
    ensures |r| == (if pick.Some? then 1 else 0)
  {
    match pick
    case None => []
    case Some(x) => [card(x)]
  }

  /** Five optional picks presented as cards, then the groups card. */
  lemma CardsShape<A, B, C, D, E>(a: Option<A>, b: Option<B>, c: Option<C>, d: Option<D>, e: Option<E>,
                                  ca: A -> Card, cb: B -> Card, cc: C -> Card, cd: D -> Card, ce: E -> Card)
    ensures var r := Present(a, ca) + Present(b, cb) + Present(c, cc) + Present(d, cd) + Present(e, ce) + [GroupsCard];
      && |r| == 1 + (if a.Some? then 1 else 0) + (if b.Some? then 1 else 0) + (if c.Some? then 1 else 0)
         + (if d.Some? then 1 else 0) + (if e.Some? then 1 else 0)
      && r[|r| - 1] == GroupsCard
      && (a.Some? ==> r[0] == ca(a.value))
  {
  }

  /** Five present picks give exactly their five cards, in order. */
  lemma CardsAllPresent<A, B, C, D, E>(a: Option<A>, b: Option<B>, c: Option<C>, d: Option<D>, e: Option<E>,
                                       ca: A -> Card, cb: B -> Card, cc: C -> Card, cd: D -> Card, ce: E -> Card)
    requires a.Some? && b.Some? && c.Some? && d.Some? && e.Some?
    ensures Present(a, ca) + Present(b, cb) + Present(c, cc) + Present(d, cd) + Present(e, ce) + [GroupsCard]
         == [ca(a.value), cb(b.value), cc(c.value), cd(d.value), ce(e.value), GroupsCard]
  {
  }

  /** The `featured` list: the present picks in collection order, then the
      groups card; `.filter(Boolean)` drops the missing ones. */
  function Featured(firms: seq<Firm>, companies: seq<Company>, guides: seq<Guide>,
                    playbooks: seq<Playbook>, events: seq<Event>): (r: seq<Card>)
    ensures 1 <= |r| <= 6
    ensures r[|r| - 1] == GroupsCard
    ensures |r| == 1 + (if |firms| > 0 then 1 else 0) + (if |companies| > 0 then 1 else 0)
      + (if |guides| > 0 then 1 else 0) + (if |playbooks| > 0 then 1 else 0) + (if |events| > 0 then 1 else 0)
    ensures |firms| > 0 ==> r[0] == FirmCard(FeaturedFirm(firms).value)
    ensures r == Present(FeaturedFirm(firms), FirmCard) + Present(FeaturedCompany(companies), CompanyCard)
      + Present(FeaturedGuide(guides), GuideCard) + Present(FeaturedPlaybook(playbooks), PlaybookCard)
      + Present(FeaturedEvent(events), EventCard) + [GroupsCard]
  {
    var firm, company, guide, playbook, event :=
      FeaturedFirm(firms), FeaturedCompany(companies), FeaturedGuide(guides),
      FeaturedPlaybook(playbooks), FeaturedEvent(events);
    CardsShape(firm, company, guide, playbook, event, FirmCard, CompanyCard, GuideCard, PlaybookCard, EventCard);
    Present(firm, FirmCard) + Present(company, CompanyCard) + Present(guide, GuideCard)
      + Present(playbook, PlaybookCard) + Present(event, EventCard) + [GroupsCard]
  }

  /** With every collection non-empty, the cards are the firm, company,
      guide, playbook and event picks in that order, then the groups card. */
  lemma FeaturedOrder(firms: seq<Firm>, companies: seq<Company>, guides: seq<Guide>,
                      playbooks: seq<Playbook>, events: seq<Event>)
    requires |firms| > 0 && |companies| > 0 && |guides| > 0 && |playbooks| > 0 && |events| > 0
    ensures Featured(firms, companies, guides, playbooks, events)
         == [FirmCard(FeaturedFirm(firms).value), CompanyCard(FeaturedCompany(companies).value),
             GuideCard(guides[0]), PlaybookCard(playbooks[0]), EventCard(FeaturedEvent(events).value),
             GroupsCard]
  {
    var firm, company, guide, playbook, event :=
      FeaturedFirm(firms), FeaturedCompany(companies), FeaturedGuide(guides),
      FeaturedPlaybook(playbooks), FeaturedEvent(events);
    CardsAllPresent(firm, company, guide, playbook, event,
                    FirmCard, CompanyCard, GuideCard, PlaybookCard, EventCard);
  }

  // ---------------------------------------------------------------------
  // Recently updated

  /** An element of `[...guides, ...playbooks]`. */
  datatype LearnItem = GuideItem(guide: Guide) | PlaybookItem(playbook: Playbook)

  function LearnItems(guides: seq<Guide>, playbooks: seq<Playbook>): (r: seq<LearnItem>)
    ensures |r| == |guides| + |playbooks|
    ensures forall i :: 0 <= i < |guides| ==> r[i] == GuideItem(guides[i])
    ensures forall i :: 0 <= i < |playbooks| ==> r[|guides| + i] == PlaybookItem(playbooks[i])
  {
    seq(|guides|, i requires 0 <= i < |guides| => GuideItem(guides[i]))
    + seq(|playbooks|, i requires 0 <= i < |playbooks| => PlaybookItem(playbooks[i]))
  }

  function ItemKind(item: LearnItem): Kind {
    match item
    case GuideItem(g) => g.kind
    case PlaybookItem(p) => p.kind
  }

  function ItemSlug(item: LearnItem): string {
    match item
    case GuideItem(g) => g.slug
    case PlaybookItem(p) => p.slug
  }

  /** `updatedAt` when it is present and non-empty, else `publishedAt`.
      Playbooks have no `updatedAt`. */
  function SortDate(item: LearnItem): string {
    match item
    case GuideItem(g) =>
      var fm := g.frontmatter.fields;
      if fm.updatedAt.Some? && fm.updatedAt.value != "" then fm.updatedAt.value else fm.publishedAt
    case PlaybookItem(p) => p.frontmatter.fields.publishedAt
  }

  /** `Date.parse(b.sortDate) - Date.parse(a.sortDate)` is negative. */
  function NewerFirst(parse: string -> int): (LearnItem, LearnItem) -> bool {
    (a: LearnItem, b: LearnItem) => parse(SortDate(a)) > parse(SortDate(b))
  }

  const LatestLimit := 6

  /** The items behind `latest`: sorted newest first, the first six kept. */
  function LatestItems(guides: seq<Guide>, playbooks: seq<Playbook>, parse: string -> int): (r: seq<LearnItem>)
    ensures |r| <= LatestLimit
    ensures |r| == if |guides| + |playbooks| < LatestLimit then |guides| + |playbooks| else LatestLimit
  {
    Take(SortBy(LearnItems(guides, playbooks), NewerFirst(parse)), LatestLimit)
  }

  /** The latest items come newest first, and none of the items left out is
      newer than any item shown. */
  lemma LatestNewestFirst(guides: seq<Guide>, playbooks: seq<Playbook>, parse: string -> int)
    ensures var r := LatestItems(guides, playbooks, parse);
      forall i, j :: 0 <= i < j < |r| ==> parse(SortDate(r[i])) >= parse(SortDate(r[j]))
    ensures var sorted := SortBy(LearnItems(guides, playbooks), NewerFirst(parse));
      var r := LatestItems(guides, playbooks, parse);
      && multiset(sorted) == multiset(LearnItems(guides, playbooks))
      && r == sorted[..|r|]
      && forall i, k :: 0 <= i < |r| <= k < |sorted| ==> parse(SortDate(sorted[k])) <= parse(SortDate(r[i]))
  {
    var lt := NewerFirst(parse);
    assert StrictWeakOrder(lt);
    SortBySorted(LearnItems(guides, playbooks), lt);
  }

  function ItemCard(item: LearnItem): Card {
    var href := if ItemKind(item) == Guides then "/learn/guides/" + ItemSlug(item) else "/learn/playbooks/" + ItemSlug(item);
    match item
    case GuideItem(g) => Card(href, g.frontmatter.fields.title, g.frontmatter.fields.description, g.frontmatter.fields.tags)
    case PlaybookItem(p) => Card(href, p.frontmatter.fields.title, p.frontmatter.fields.description, p.frontmatter.fields.tags)
  }

  /** `latest`. */
  function Latest(guides: seq<Guide>, playbooks: seq<Playbook>, parse: string -> int): (r: seq<Card>)
    ensures |r| == |LatestItems(guides, playbooks, parse)|
    ensures forall i :: 0 <= i < |r| ==> r[i] == ItemCard(LatestItems(guides, playbooks, parse)[i])
  {
    var items := LatestItems(guides, playbooks, parse);
    seq(|items|, i requires 0 <= i < |items| => ItemCard(items[i]))
  }

  /** A card links under /learn/guides/ exactly when its item is a guide, and
      under /learn/playbooks/ otherwise, followed by the slug. */
  lemma LatestHrefs(guides: seq<Guide>, playbooks: seq<Playbook>, parse: string -> int)
    ensures var items := LatestItems(guides, playbooks, parse);
      var r := Latest(guides, playbooks, parse);
      forall i :: 0 <= i < |r| ==>
        && (StartsWith(r[i].href, "/learn/guides/") <==> ItemKind(items[i]) == Guides)
        && (ItemKind(items[i]) != Guides ==> StartsWith(r[i].href, "/learn/playbooks/"))
        && EndsWith(r[i].href, ItemSlug(items[i]))
  {
    var items := LatestItems(guides, playbooks, parse);
    forall i | 0 <= i < |items| ensures
      var h := ItemCard(items[i]).href;
      && (StartsWith(h, "/learn/guides/") <==> ItemKind(items[i]) == Guides)
      && (ItemKind(items[i]) != Guides ==> StartsWith(h, "/learn/playbooks/"))
      && EndsWith(h, ItemSlug(items[i]))
    {
      CardHref(items[i]);
    }
  }

  /** One card's link: the collection's path, then the slug. */
  lemma CardHref(item: LearnItem)
    ensures var h := ItemCard(item).href;
      && (StartsWith(h, "/learn/guides/") <==> ItemKind(item) == Guides)
      && (ItemKind(item) != Guides ==> StartsWith(h, "/learn/playbooks/"))
      && EndsWith(h, ItemSlug(item))
  {
    var slug := ItemSlug(item);
    var g := "/learn/guides/";
    var p := "/learn/playbooks/";
    if ItemKind(item) == Guides {
      assert ItemCard(item).href == g + slug;
      StartsWithPrefix(g, slug);
      EndsWithSuffix(g, slug);
    } else {
      assert ItemCard(item).href == p + slug;
      StartsWithPrefix(p, slug);
      EndsWithSuffix(p, slug);
      assert (p + slug)[..|g|][8] != g[8];
    }
  }

  // ---------------------------------------------------------------------
  // Popular tags

  const PopularLimit := 8

  /** `popularTags`: count the guides' tags, then the playbooks', rank the
      entries and keep the first eight tags. */
  method PopularTags(guides: seq<Guide>, playbooks: seq<Playbook>) returns (popular: seq<string>)
    ensures var ranked := Ranked(Flatten(TagsPage.TagLists(guides, playbooks)));
      popular == TagsOf(Take(ranked, PopularLimit))
  {
    var lists := TagsPage.TagLists(guides, playbooks);
    var keys, counts := CountTags(lists);
    var entries := seq(|keys|, i requires 0 <= i < |keys| => TagCount(keys[i], counts[keys[i]]));
    assert entries == Entries(Flatten(lists));
    popular := TagsOf(Take(SortBy(entries, CountsFirst), PopularLimit));
  }

  /** At most eight distinct tags, each carried by some guide or playbook,
      the most used first, and none left out more used than one shown. */
  lemma PopularTagsFacts(guides: seq<Guide>, playbooks: seq<Playbook>)
    ensures var all := Flatten(TagsPage.TagLists(guides, playbooks));
      var ranked := Ranked(all);
      var popular := TagsOf(Take(ranked, PopularLimit));
      && |popular| <= PopularLimit
      && NoDuplicates(popular)
      && (forall t :: t in popular ==> t in all)
      && (forall i, k :: 0 <= i < |popular| <= k < |ranked| ==> !CountsFirst(ranked[k], ranked[i]))
  {
    var all := Flatten(TagsPage.TagLists(guides, playbooks));
    var ranked := Ranked(all);
    var top := Take(ranked, PopularLimit);
    var popular := TagsOf(top);
    RankedDistinct(all);
    RankedSorted(all);
    var tags := TagsOf(ranked);
    forall i, j | 0 <= i < j < |popular| ensures popular[i] != popular[j] {
      assert popular[i] == tags[i] && popular[j] == tags[j];
    }
    forall t | t in popular ensures t in all {
      var i :| 0 <= i < |popular| && popular[i] == t;
      assert tags[i] == t;
    }
  }
}
