/** The RSS 2.0 document of src/app/learn/guides/rss.xml/route.ts: one
    `<item>` per guide `getAllGuides({ includeDrafts: false })` returns, in
    that order. `toUTCString` of the publication date is the parameter
    `toUtcString`. */
module RssFeed {
  import opened Wrappers
  import opened Text
  import opened Seqs
  import opened ContentFs
  import opened Loaders
  import opened Collections
  import opened XmlText
  import opened SiteConfig

  /** The character data of one `<item>`'s elements, as written. */
  datatype RssItem = RssItem(title: string, link: string, guid: string, description: string, pubDate: string)

  /** The item for one guide: link and guid are both the guide's page, and
      title and description are escaped so that a reader gets them back
      exactly. */
  function ItemOf(g: Guide, siteUrl: string, toUtcString: string -> string): (r: RssItem)
    ensures r.link == GuideUrl(siteUrl, g.slug) && r.guid == r.link
    ensures UnescapeXml(r.title) == g.frontmatter.fields.title
    ensures UnescapeXml(r.description) == g.frontmatter.fields.description
    ensures NoMarkup(r.title) && NoMarkup(r.description)
    ensures r.pubDate == toUtcString(g.frontmatter.fields.publishedAt)
  {
    var f := g.frontmatter.fields;
    EscapeXmlRoundTrip(f.title);
    EscapeXmlRoundTrip(f.description);
    EscapeXmlWellFormed(f.title);
    EscapeXmlWellFormed(f.description);
    var url := GuideUrl(siteUrl, g.slug);
    RssItem(EscapeXml(f.title), url, url, EscapeXml(f.description), toUtcString(f.publishedAt))
  }

  /** The `[...].join("")` of one item. */
  function RenderItem(it: RssItem): string {
    Join(["<item>",
          "<title>" + it.title + "</title>",
          "<link>" + it.link + "</link>",
          "<guid>" + it.guid + "</guid>",
          "<description>" + it.description + "</description>",
          "<pubDate>" + it.pubDate + "</pubDate>",
          "</item>"], "")
  }

  /** The rendered items, one per guide, in order. */
  function ItemTexts(guides: seq<Guide>, siteUrl: string, toUtcString: string -> string): (r: seq<string>)
    ensures |r| == |guides|
    ensures forall i :: 0 <= i < |guides| ==> r[i] == RenderItem(ItemOf(guides[i], siteUrl, toUtcString))
  {
    seq(|guides|, i requires 0 <= i < |guides| => RenderItem(ItemOf(guides[i], siteUrl, toUtcString)))
  }

  /** The response body before the joined items. */
  function DocumentHead(siteUrl: string): string {
    "<?xml version=\"1.0\" encoding=\"UTF-8\"?>\n<rss version=\"2.0\">\n  <channel>\n"
    + "    <title>Seattle UX Guides</title>\n"
    + "    <link>" + siteUrl + "/learn/guides</link>\n"
    + "    <description>UX best practices and guides for the Seattle UX community.</description>\n"
    + "    <language>en</language>\n"
    + "    "
  }

  const DocumentTail: string := "\n  </channel>\n</rss>"

  /** The response body around the joined items. */
  function Document(siteUrl: string, items: string): string {
    DocumentHead(siteUrl) + items + DocumentTail
  }

  /** The response body: the channel head, every guide's item, and the
      closing tags. */
  function Feed(guides: seq<Guide>, siteUrl: string, toUtcString: string -> string): (r: string)
    ensures StartsWith(r, DocumentHead(siteUrl)) && EndsWith(r, DocumentTail)
    ensures forall i :: 0 <= i < |guides| ==> Contains(r, RenderItem(ItemOf(guides[i], siteUrl, toUtcString)))
    ensures r == DocumentHead(siteUrl) + Join(ItemTexts(guides, siteUrl, toUtcString), "") + DocumentTail
  {
    var texts := ItemTexts(guides, siteUrl, toUtcString);
    var r := Document(siteUrl, Join(texts, ""));
    Framed(DocumentHead(siteUrl), Join(texts, ""), DocumentTail);
    DocumentHasEveryItem(guides, siteUrl, toUtcString);
    r
  }

  /** One more guide puts its item after all the earlier ones: the joined
      items are the guides' items, one each, in loader order. */
  lemma ItemsSnoc(guides: seq<Guide>, g: Guide, siteUrl: string, toUtcString: string -> string)
    ensures Join(ItemTexts(guides + [g], siteUrl, toUtcString), "")
         == Join(ItemTexts(guides, siteUrl, toUtcString), "") + RenderItem(ItemOf(g, siteUrl, toUtcString))
  {
    var texts := ItemTexts(guides, siteUrl, toUtcString);
    var x := RenderItem(ItemOf(g, siteUrl, toUtcString));
    var longer := guides + [g];
    assert forall i :: 0 <= i < |guides| ==> longer[i] == guides[i];
    SnocOf(ItemTexts(longer, siteUrl, toUtcString), texts, x);
    JoinPlainSnoc(texts, x);
  }

  /** Every joined part is in the document. */
  lemma DocumentHasEveryPart(siteUrl: string, texts: seq<string>, i: nat)
    requires i < |texts|
    ensures Contains(Document(siteUrl, Join(texts, "")), texts[i])
  {
    JoinContains(texts, "", i);
    ContainsMiddle(DocumentHead(siteUrl), Join(texts, ""), DocumentTail, texts[i]);
  }

  lemma DocumentHasEveryItem(guides: seq<Guide>, siteUrl: string, toUtcString: string -> string)
    ensures var texts := ItemTexts(guides, siteUrl, toUtcString);
      forall i :: 0 <= i < |guides| ==>
        Contains(Document(siteUrl, Join(texts, "")), RenderItem(ItemOf(guides[i], siteUrl, toUtcString)))
  {
    var texts := ItemTexts(guides, siteUrl, toUtcString);
    forall i | 0 <= i < |guides|
      ensures Contains(Document(siteUrl, Join(texts, "")), RenderItem(ItemOf(guides[i], siteUrl, toUtcString)))
    {
      DocumentHasEveryPart(siteUrl, texts, i);
    }
  }

  /** Every guide's item is in the document. */
  lemma FeedHasEveryItem(guides: seq<Guide>, siteUrl: string, toUtcString: string -> string, i: nat)
    requires i < |guides|
    ensures Contains(Feed(guides, siteUrl, toUtcString), RenderItem(ItemOf(guides[i], siteUrl, toUtcString)))
  {
    DocumentHasEveryPart(siteUrl, ItemTexts(guides, siteUrl, toUtcString), i);
  }

  /** When the feed's guides are the non-draft guides of `loaded`,
      reordered, every non-draft guide has its item in the document and no
      other guide is among them. */
  lemma FeedOfKeptGuides(guides: seq<Guide>, loaded: seq<Guide>, siteUrl: string, toUtcString: string -> string)
    requires multiset(guides) == multiset(GuideDrafts(loaded, Some(false)))
    ensures forall g :: g in loaded && GuideKept(g) ==>
      Contains(Feed(guides, siteUrl, toUtcString), RenderItem(ItemOf(g, siteUrl, toUtcString)))
    ensures forall g :: g in guides ==> g in loaded && GuideKept(g)
  {
    var kept := GuideDrafts(loaded, Some(false));
    forall g | g in loaded && GuideKept(g)
      ensures Contains(Feed(guides, siteUrl, toUtcString), RenderItem(ItemOf(g, siteUrl, toUtcString)))
    {
      assert g in multiset(kept);
      var i :| 0 <= i < |guides| && guides[i] == g;
      FeedHasEveryItem(guides, siteUrl, toUtcString, i);
    }
    forall g | g in guides ensures g in loaded && GuideKept(g) {
      assert g in multiset(kept);
    }
  }

  /** The RSS feed keeps every loaded guide that is not a draft: when
      `getAllGuides({ includeDrafts: false })` returns `guides`, each such
      guide's item is in the document. */
  lemma RssHasEveryKeptGuide(d: Directory, env: Env, guides: seq<Guide>, siteUrl: string, toUtcString: string -> string)
    requires GetAllGuides(d, env, Some(false)) == Success(guides)
    ensures var loaded := LoadAll(ListMdxSlugs(d), GuideLoader(d, env));
      && loaded.Success?
      && forall g :: g in loaded.value && GuideKept(g) ==>
           Contains(Feed(guides, siteUrl, toUtcString), RenderItem(ItemOf(g, siteUrl, toUtcString)))
  {
    var loaded := LoadAll(ListMdxSlugs(d), GuideLoader(d, env));
    FeedOfKeptGuides(guides, loaded.value, siteUrl, toUtcString);
  }

  /** The RSS feed leaves drafts out: every guide the document is built
      from loaded and is not a draft. */
  lemma RssLeavesDraftsOut(d: Directory, env: Env)
    ensures var loaded := LoadAll(ListMdxSlugs(d), GuideLoader(d, env));
      var guides := GetAllGuides(d, env, Some(false));
      guides.Success? ==> forall g :: g in guides.value ==> g in loaded.value && GuideKept(g)
  {
    var loaded := LoadAll(ListMdxSlugs(d), GuideLoader(d, env));
    var guides := GetAllGuides(d, env, Some(false));
    if guides.Success? {
      forall g | g in guides.value ensures g in loaded.value && GuideKept(g) {
        assert g in multiset(GuideDrafts(loaded.value, Some(false)));
      }
    }
  }
}
