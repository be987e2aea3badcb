/** The Atom document of src/app/learn/guides/atom.xml/route.ts: one
    `<entry>` per guide `getAllGuides({ includeDrafts: false })` returns, in
    that order, and a feed-level `<updated>` taken from the first of them.
    `new Date(s).toISOString()` is the parameter `toIso`; the clock's
    `new Date().toISOString()` is the parameter `nowIso`. */
module AtomFeed {
  import opened Wrappers
  import opened Text
  import opened Seqs
  import opened ContentFs
  import opened Loaders
  import opened Collections
  import opened XmlText
  import opened SiteConfig

  /** The character data of one `<entry>`'s elements, as written; `link` is
      the `href` of its `<link/>`. */
  datatype AtomEntry = AtomEntry(id: string, title: string, link: string, updated: string, published: string, summary: string)

  /** `guide.frontmatter.updatedAt ?? guide.frontmatter.publishedAt` */
  function ModifiedAt(g: Guide): (r: string)
    ensures g.frontmatter.fields.updatedAt.Some? ==> r == g.frontmatter.fields.updatedAt.value
    ensures g.frontmatter.fields.updatedAt.None? ==> r == g.frontmatter.fields.publishedAt
  {
    g.frontmatter.fields.updatedAt.GetOr(g.frontmatter.fields.publishedAt)
  }

  /** The entry for one guide: id and link are both the guide's page,
      `updated` is the last modification (publication when never updated),
      and title and summary are escaped so that a reader gets them back
      exactly. */
  function EntryOf(g: Guide, siteUrl: string, toIso: string -> string): (r: AtomEntry)
    ensures r.id == GuideUrl(siteUrl, g.slug) && r.link == r.id
    ensures r.published == toIso(g.frontmatter.fields.publishedAt)
    ensures r.updated == toIso(ModifiedAt(g))
    ensures g.frontmatter.fields.updatedAt.None? ==> r.updated == r.published
    ensures UnescapeXml(r.title) == g.frontmatter.fields.title
    ensures UnescapeXml(r.summary) == g.frontmatter.fields.description
    ensures NoMarkup(r.title) && NoMarkup(r.summary)
  {
    var f := g.frontmatter.fields;
    EscapeXmlRoundTrip(f.title);
    EscapeXmlRoundTrip(f.description);
    EscapeXmlWellFormed(f.title);
    EscapeXmlWellFormed(f.description);
    var url := GuideUrl(siteUrl, g.slug);
    AtomEntry(url, EscapeXml(f.title), url, toIso(ModifiedAt(g)), toIso(f.publishedAt), EscapeXml(f.description))
  }

  /** The `[...].join("")` of one entry. */
  function RenderEntry(e: AtomEntry): string {
    Join(["<entry>",
          "<id>" + e.id + "</id>",
          "<title>" + e.title + "</title>",
          "<link href=\"" + e.link + "\"/>",
          "<updated>" + e.updated + "</updated>",
          "<published>" + e.published + "</published>",
          "<summary>" + e.summary + "</summary>",
          "</entry>"], "")
  }

  /** The rendered entries, one per guide, in order. */
  function EntryTexts(guides: seq<Guide>, siteUrl: string, toIso: string -> string): (r: seq<string>)
    ensures |r| == |guides|
    ensures forall i :: 0 <= i < |guides| ==> r[i] == RenderEntry(EntryOf(guides[i], siteUrl, toIso))
  {
    seq(|guides|, i requires 0 <= i < |guides| => RenderEntry(EntryOf(guides[i], siteUrl, toIso)))
  }

  /** The feed's `updated`: the first guide's modification time, or now
      when there is no guide. */
  function FeedUpdated(guides: seq<Guide>, toIso: string -> string, nowIso: string): (r: string)
    ensures |guides| > 0 ==> r == toIso(ModifiedAt(guides[0]))
    ensures |guides| == 0 ==> r == nowIso
  {
    if |guides| > 0 then toIso(ModifiedAt(guides[0])) else nowIso
  }

  /** The response body before the joined entries. */
  function DocumentHead(siteUrl: string, updated: string): string {
    "<?xml version=\"1.0\" encoding=\"UTF-8\"?>\n<feed xmlns=\"http://www.w3.org/2005/Atom\">\n"
    + "  <title>Seattle UX Guides</title>\n"
    + "  <id>" + siteUrl + "/learn/guides</id>\n"
    + "  <link href=\"" + siteUrl + "/learn/guides/atom.xml\" rel=\"self\"/>\n"
    + "  <link href=\"" + siteUrl + "/learn/guides\"/>\n"
    + "  <updated>" + updated + "</updated>\n"
    + "  "
  }

  const DocumentTail: string := "\n</feed>"

  function Document(siteUrl: string, updated: string, entries: string): string {
    DocumentHead(siteUrl, updated) + entries + DocumentTail
  }

  /** The response body: the feed head with its `updated` time, every
      guide's entry, and the closing tag. */
  function Feed(guides: seq<Guide>, siteUrl: string, toIso: string -> string, nowIso: string): (r: string)
    ensures StartsWith(r, DocumentHead(siteUrl, FeedUpdated(guides, toIso, nowIso))) && EndsWith(r, DocumentTail)
    ensures forall i :: 0 <= i < |guides| ==> Contains(r, RenderEntry(EntryOf(guides[i], siteUrl, toIso)))
    ensures r == DocumentHead(siteUrl, FeedUpdated(guides, toIso, nowIso)) + Join(EntryTexts(guides, siteUrl, toIso), "") + DocumentTail
  {
    var updated := FeedUpdated(guides, toIso, nowIso);
    var texts := EntryTexts(guides, siteUrl, toIso);
    var r := Document(siteUrl, updated, Join(texts, ""));
    Framed(DocumentHead(siteUrl, updated), Join(texts, ""), DocumentTail);
    DocumentHasEveryEntry(guides, siteUrl, toIso, updated);
    r
  }

  /** One more guide puts its entry after all the earlier ones: the joined
      entries are the guides' entries, one each, in loader order. */
  lemma EntriesSnoc(guides: seq<Guide>, g: Guide, siteUrl: string, toIso: string -> string)
    ensures Join(EntryTexts(guides + [g], siteUrl, toIso), "")
         == Join(EntryTexts(guides, siteUrl, toIso), "") + RenderEntry(EntryOf(g, siteUrl, toIso))
  {
    var texts := EntryTexts(guides, siteUrl, toIso);
    var x := RenderEntry(EntryOf(g, siteUrl, toIso));
    var longer := guides + [g];
    assert forall i :: 0 <= i < |guides| ==> longer[i] == guides[i];
    SnocOf(EntryTexts(longer, siteUrl, toIso), texts, x);
    JoinPlainSnoc(texts, x);
  }

  /** Every joined part is in the document. */
  lemma DocumentHasEveryPart(siteUrl: string, updated: string, texts: seq<string>, i: nat)
    requires i < |texts|
    ensures Contains(Document(siteUrl, updated, Join(texts, "")), texts[i])
  {
    JoinContains(texts, "", i);
    ContainsMiddle(DocumentHead(siteUrl, updated), Join(texts, ""), DocumentTail, texts[i]);
  }

  lemma DocumentHasEveryEntry(guides: seq<Guide>, siteUrl: string, toIso: string -> string, updated: string)
    ensures var texts := EntryTexts(guides, siteUrl, toIso);
      forall i :: 0 <= i < |guides| ==>
        Contains(Document(siteUrl, updated, Join(texts, "")), RenderEntry(EntryOf(guides[i], siteUrl, toIso)))
  {
    var texts := EntryTexts(guides, siteUrl, toIso);
    forall i | 0 <= i < |guides|
      ensures Contains(Document(siteUrl, updated, Join(texts, "")), RenderEntry(EntryOf(guides[i], siteUrl, toIso)))
    {
      DocumentHasEveryPart(siteUrl, updated, texts, i);
    }
  }

  /** Every guide's entry is in the document. */
  lemma FeedHasEveryEntry(guides: seq<Guide>, siteUrl: string, toIso: string -> string, nowIso: string, i: nat)
    requires i < |guides|
    ensures Contains(Feed(guides, siteUrl, toIso, nowIso), RenderEntry(EntryOf(guides[i], siteUrl, toIso)))
  {
    DocumentHasEveryPart(siteUrl, FeedUpdated(guides, toIso, nowIso), EntryTexts(guides, siteUrl, toIso), i);
  }

  /** When the feed's guides are the non-draft guides of `loaded`,
      reordered, every non-draft guide has its entry in the document. */
  lemma FeedOfKeptGuides(guides: seq<Guide>, loaded: seq<Guide>, siteUrl: string, toIso: string -> string, nowIso: string)
    requires multiset(guides) == multiset(GuideDrafts(loaded, Some(false)))
    ensures forall g :: g in loaded && GuideKept(g) ==>
      Contains(Feed(guides, siteUrl, toIso, nowIso), RenderEntry(EntryOf(g, siteUrl, toIso)))
  {
    var kept := GuideDrafts(loaded, Some(false));
    forall g | g in loaded && GuideKept(g)
      ensures Contains(Feed(guides, siteUrl, toIso, nowIso), RenderEntry(EntryOf(g, siteUrl, toIso)))
    {
      assert g in multiset(kept);
      var i :| 0 <= i < |guides| && guides[i] == g;
      FeedHasEveryEntry(guides, siteUrl, toIso, nowIso, i);
    }
  }

  /** Every loaded guide that is not a draft has its entry in the document
      when `getAllGuides({ includeDrafts: false })` returns `guides`. */
  lemma AtomHasEveryKeptGuide(d: Directory, env: Env, guides: seq<Guide>, siteUrl: string, toIso: string -> string, nowIso: string)
    requires GetAllGuides(d, env, Some(false)) == Success(guides)
    ensures var loaded := LoadAll(ListMdxSlugs(d), GuideLoader(d, env));
      && loaded.Success?
      && forall g :: g in loaded.value && GuideKept(g) ==>
           Contains(Feed(guides, siteUrl, toIso, nowIso), RenderEntry(EntryOf(g, siteUrl, toIso)))
  {
    var loaded := LoadAll(ListMdxSlugs(d), GuideLoader(d, env));
    FeedOfKeptGuides(guides, loaded.value, siteUrl, toIso, nowIso);
  }

  /** Of a newest-first reordering of the non-draft guides of `loaded`,
      the first was published no earlier than any of them, and the
      reordering is empty only when no guide is kept. */
  lemma FirstOfKeptIsNewest(guides: seq<Guide>, loaded: seq<Guide>, parse: string -> int)
    requires multiset(guides) == multiset(GuideDrafts(loaded, Some(false)))
    requires forall i, j :: 0 <= i < j < |guides| ==>
      parse(guides[i].frontmatter.fields.publishedAt) >= parse(guides[j].frontmatter.fields.publishedAt)
    ensures |guides| == 0 <==> forall g :: g in loaded ==> !GuideKept(g)
    ensures |guides| > 0 ==>
      && guides[0] in loaded && GuideKept(guides[0])
      && forall g :: g in loaded && GuideKept(g) ==>
           parse(guides[0].frontmatter.fields.publishedAt) >= parse(g.frontmatter.fields.publishedAt)
  {
    var kept := GuideDrafts(loaded, Some(false));
    if |guides| == 0 {
      forall g | g in loaded ensures !GuideKept(g) {
        assert GuideKept(g) ==> g in multiset(kept);
      }
    } else {
      assert guides[0] in multiset(kept);
      forall g | g in loaded && GuideKept(g)
        ensures parse(guides[0].frontmatter.fields.publishedAt) >= parse(g.frontmatter.fields.publishedAt)
      {
        assert g in multiset(kept);
        var i :| 0 <= i < |guides| && guides[i] == g;
        if i > 0 {
          assert parse(guides[0].frontmatter.fields.publishedAt) >= parse(guides[i].frontmatter.fields.publishedAt);
        }
      }
    }
  }

  /** The feed's `updated` is the modification time of the most recently
      PUBLISHED non-draft guide, which need not be the most recently
      modified one; it is the clock only when no loaded guide is kept. */
  lemma AtomUpdatedFromNewestPublished(d: Directory, env: Env, guides: seq<Guide>, toIso: string -> string, nowIso: string)
    requires GetAllGuides(d, env, Some(false)) == Success(guides)
    ensures var loaded := LoadAll(ListMdxSlugs(d), GuideLoader(d, env));
      && loaded.Success?
      && (|guides| == 0 <==> forall g :: g in loaded.value ==> !GuideKept(g))
      && (|guides| == 0 ==> FeedUpdated(guides, toIso, nowIso) == nowIso)
      && (|guides| > 0 ==>
            && guides[0] in loaded.value && GuideKept(guides[0])
            && FeedUpdated(guides, toIso, nowIso) == toIso(ModifiedAt(guides[0]))
            && forall g :: g in loaded.value && GuideKept(g) ==>
                 env.parseDate(guides[0].frontmatter.fields.publishedAt) >= env.parseDate(g.frontmatter.fields.publishedAt))
  {
    var loaded := LoadAll(ListMdxSlugs(d), GuideLoader(d, env));
    FirstOfKeptIsNewest(guides, loaded.value, env.parseDate);
  }
}
