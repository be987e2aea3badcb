/** The filtering of the listing pages src/app/agencies/page.tsx,
    src/app/teams/page.tsx, src/app/learn/guides/page.tsx and
    src/app/learn/playbooks/page.tsx: the route's search parameters become a
    parameter list, then each entry must contain the lower-cased query and
    match every facet group. Within a group any selected value will do (OR);
    the groups combine with AND. */
module ListingPages {
  import opened Wrappers
  import opened Text
  import opened Seqs
  import opened Schemas
  import opened Collections
  import opened UrlParams
  import opened FilterPanel
  import Facets

  // ---------------------------------------------------------------------
  // toURLSearchParams (the same function on all four pages)

  /** A value of the route's search-parameter record. */
  datatype RecordValue = Undefined | One(text: string) | Many(items: seq<string>)

  /** The effect of one record entry: undefined is skipped, a list is
      appended element by element, a single string is `set`. */
  function EntryStep(pairs: seq<Pair>, key: string, value: RecordValue): seq<Pair> {
    match value
    case Undefined => pairs
    case Many(items) => pairs + PairsFor(key, items)
    case One(text) => WithSet(pairs, key, text)
  }

  /** The parameter list built from the entries, in `Object.entries` order. */
  function FromRecord(input: seq<(string, RecordValue)>): seq<Pair>
    decreases |input|
  {
    if |input| == 0 then []
    else
      var last := input[|input| - 1];
      EntryStep(FromRecord(input[..|input| - 1]), last.0, last.1)
  }

  /** `toURLSearchParams(input)`. */
  method ToUrlSearchParams(input: seq<(string, RecordValue)>) returns (params: SearchParams)
    ensures fresh(params)
    ensures params.pairs == FromRecord(input)
  {
    params := new SearchParams.Empty();
    var i := 0;
    while i < |input|
      invariant 0 <= i <= |input|
      invariant params.pairs == FromRecord(input[..i])
    {
      var (key, value) := input[i];
      assert input[..i + 1][..i] == input[..i];
      match value {
        case Undefined =>
        case Many(items) =>
          AppendEach(params, key, items);
        case One(text) =>
          params.Set(key, text);
      }
      i := i + 1;
    }
    PrefixAll(input);
  }

  /** Object keys are distinct. */
  predicate DistinctKeys(input: seq<(string, RecordValue)>) {
    forall i, j :: 0 <= i < j < |input| ==> input[i].0 != input[j].0
  }

  /** What the record says about `key`: nothing, one value, or a list. */
  function RecordValues(input: seq<(string, RecordValue)>, key: string): seq<string>
    decreases |input|
  {
    if |input| == 0 then []
    else if input[|input| - 1].0 == key then
      match input[|input| - 1].1
      case Undefined => []
      case One(text) => [text]
      case Many(items) => items
    else RecordValues(input[..|input| - 1], key)
  }

  lemma {:induction false} RecordValuesAbsent(input: seq<(string, RecordValue)>, key: string)
    requires forall i :: 0 <= i < |input| ==> input[i].0 != key
    ensures RecordValues(input, key) == []
    decreases |input|
  {
    if |input| > 0 {
      RecordValuesAbsent(input[..|input| - 1], key);
    }
  }

  /** Reading a key back from the built list gives exactly what the record
      held for it: its list, its single string, or nothing. */
  lemma {:induction false} FromRecordValues(input: seq<(string, RecordValue)>, key: string)
    requires DistinctKeys(input)
    ensures ValuesOf(FromRecord(input), key) == RecordValues(input, key)
    decreases |input|
  {
    if |input| > 0 {
      var init := input[..|input| - 1];
      var last := input[|input| - 1];
      var acc := FromRecord(init);
      FromRecordValues(init, key);
      if last.0 == key {
        RecordValuesAbsent(init, key);
        match last.1 {
          case Undefined =>
          case Many(items) =>
            ValuesOfAppend(acc, PairsFor(key, items), key);
            ValuesOfPairsFor(key, items, key);
          case One(text) =>
        }
      } else {
        match last.1 {
          case Undefined =>
          case Many(items) =>
            ValuesOfAppend(acc, PairsFor(last.0, items), key);
            ValuesOfPairsFor(last.0, items, key);
          case One(text) =>
            ValuesOfWithSet(acc, last.0, text, key);
        }
      }
    }
  }

  // ---------------------------------------------------------------------
  // Shared pieces of the filters

  /** `(params.get("q") ?? "").trim().toLowerCase()` */
  function Query(pairs: seq<Pair>): string {
    Lower(Trim(FirstOf(pairs, "q").GetOr("")))
  }

  /** `if (q && !haystack.includes(q)) return false` */
  predicate QueryHits(haystack: string, q: string) {
    q == "" || Contains(haystack, q)
  }

  /** `selected.length === 0 || selected.some((v) => list.includes(v))` */
  predicate AnySelected(selected: seq<string>, list: seq<string>) {
    |selected| == 0 || exists v :: v in selected && v in list
  }

  function LowerAll(s: seq<string>): (r: seq<string>)
    ensures |r| == |s|
    ensures forall i :: 0 <= i < |s| ==> r[i] == Lower(s[i])
  {
    seq(|s|, i requires 0 <= i < |s| => Lower(s[i]))
  }

  /** The query is lower case, like every haystack. */
  lemma QueryIsLower(pairs: seq<Pair>)
    ensures Lower(Query(pairs)) == Query(pairs)
  {
    LowerIdempotent(Trim(FirstOf(pairs, "q").GetOr("")));
  }

  /** Lower-casing the joined parts equals joining the lower-cased parts. */
  lemma {:induction false} LowerJoin(parts: seq<string>)
    ensures Lower(Join(parts, " ")) == Join(LowerAll(parts), " ")
  {
    if |parts| > 1 {
      LowerJoin(parts[1..]);
      assert LowerAll(parts)[1..] == LowerAll(parts[1..]);
      LowerAppend(parts[0] + " ", Join(parts[1..], " "));
      LowerAppend(parts[0], " ");
    }
  }

  /** With a blank query and nothing selected, a filter keeps everything. */
  lemma BlankQuery(pairs: seq<Pair>)
    requires |Trim(FirstOf(pairs, "q").GetOr(""))| == 0
    ensures Query(pairs) == ""
  {
  }

  /** Text that contains the query in any one part contains it in the joined
      haystack. */
  lemma {:induction false} HitInPart(parts: seq<string>, k: nat, q: string)
    requires k < |parts| && Contains(parts[k], q)
    ensures Contains(Join(parts, " "), q)
  {
    JoinContains(parts, " ", k);
    ContainsTransitive(Join(parts, " "), parts[k], q);
  }

  lemma ContainsTransitive(a: string, b: string, q: string)
    requires Contains(a, b) && Contains(b, q)
    ensures Contains(a, q)
  {
    var i :| 0 <= i <= |a| && OccursAt(a, b, i);
    var j :| 0 <= j <= |b| && OccursAt(b, q, j);
    SliceOfSlice(a, i, i + |b|, j, j + |q|);
    assert OccursAt(a, q, i + j);
  }

  // ---------------------------------------------------------------------
  // Agencies

  const FirmFacetKeys := ["location", "service", "industry"]

  function FirmText(f: Firm): seq<string> {
    [f.frontmatter.name] + f.frontmatter.locations + f.frontmatter.services + f.frontmatter.industries
  }

  /** The lower-cased name, locations, services and industries, space-joined. */
  function FirmHaystack(f: Firm): (r: string)
    ensures r == Lower(Join(FirmText(f), " "))
  {
    var fm := f.frontmatter;
    LowerJoin(FirmText(f));
    assert LowerAll(FirmText(f)) == [Lower(fm.name)] + LowerAll(fm.locations) + LowerAll(fm.services) + LowerAll(fm.industries);
    Join([Lower(fm.name)] + LowerAll(fm.locations) + LowerAll(fm.services) + LowerAll(fm.industries), " ")
  }

  predicate FirmMatches(f: Firm, pairs: seq<Pair>) {
    && QueryHits(FirmHaystack(f), Query(pairs))
    && AnySelected(ValuesOf(pairs, "location"), f.frontmatter.locations)
    && AnySelected(ValuesOf(pairs, "service"), f.frontmatter.services)
    && AnySelected(ValuesOf(pairs, "industry"), f.frontmatter.industries)
  }

  /** The agencies page's `results`. */
  function FirmResults(firms: seq<Firm>, pairs: seq<Pair>): (r: seq<Firm>)
    ensures IsSubseq(r, firms)
    ensures forall f :: f in r <==> f in firms && FirmMatches(f, pairs)
  {
    FilterIsSubseq(firms, (f: Firm) => FirmMatches(f, pairs));
    Filter(firms, (f: Firm) => FirmMatches(f, pairs))
  }

  /** With no filter active every firm is listed, in loaded order. */
  lemma FirmResultsUnfiltered(firms: seq<Firm>, pairs: seq<Pair>)
    requires !HasAnyFilter(pairs, FirmFacetKeys)
    ensures FirmResults(firms, pairs) == firms
  {
    assert "location" in FirmFacetKeys && "service" in FirmFacetKeys && "industry" in FirmFacetKeys;
    FilterAll(firms, (f: Firm) => FirmMatches(f, pairs));
  }

  /** A firm whose name contains the query, in any letter case, passes the
      text test. */
  lemma FirmNameHit(f: Firm, pairs: seq<Pair>)
    requires Contains(Lower(f.frontmatter.name), Query(pairs))
    ensures QueryHits(FirmHaystack(f), Query(pairs))
  {
    var fm := f.frontmatter;
    var parts := [Lower(fm.name)] + LowerAll(fm.locations) + LowerAll(fm.services) + LowerAll(fm.industries);
    assert parts[0] == Lower(fm.name);
    HitInPart(parts, 0, Query(pairs));
  }

  // ---------------------------------------------------------------------
  // Teams

  const CompanyFacetKeys := ["presence", "focus", "industry"]

  /** The lower-cased name, presence, industries and team focus. */
  function CompanyHaystack(c: Company): string {
    var fm := c.frontmatter;
    Join([Lower(fm.name), Lower(fm.seattlePresence)] + LowerAll(fm.industries) + LowerAll(fm.teamFocus), " ")
  }

  /** The presence group compares the company's single presence value. */
  predicate CompanyMatches(c: Company, pairs: seq<Pair>) {
    && QueryHits(CompanyHaystack(c), Query(pairs))
    && AnySelected(ValuesOf(pairs, "presence"), [c.frontmatter.seattlePresence])
    && AnySelected(ValuesOf(pairs, "focus"), c.frontmatter.teamFocus)
    && AnySelected(ValuesOf(pairs, "industry"), c.frontmatter.industries)
  }

  /** The teams page's `results`. */
  function CompanyResults(companies: seq<Company>, pairs: seq<Pair>): (r: seq<Company>)
    ensures IsSubseq(r, companies)
    ensures forall c :: c in r <==> c in companies && CompanyMatches(c, pairs)
  {
    FilterIsSubseq(companies, (c: Company) => CompanyMatches(c, pairs));
    Filter(companies, (c: Company) => CompanyMatches(c, pairs))
  }

  /** A company passes the presence group iff nothing is selected there or its
      presence is one of the selected values. */
  lemma PresenceIsExact(c: Company, pairs: seq<Pair>)
    ensures AnySelected(ValuesOf(pairs, "presence"), [c.frontmatter.seattlePresence])
        <==> ValuesOf(pairs, "presence") == [] || c.frontmatter.seattlePresence in ValuesOf(pairs, "presence")
  {
  }

  lemma CompanyResultsUnfiltered(companies: seq<Company>, pairs: seq<Pair>)
    requires !HasAnyFilter(pairs, CompanyFacetKeys)
    ensures CompanyResults(companies, pairs) == companies
  {
    assert "presence" in CompanyFacetKeys && "focus" in CompanyFacetKeys && "industry" in CompanyFacetKeys;
    FilterAll(companies, (c: Company) => CompanyMatches(c, pairs));
  }

  /** The presence value is searched too. */
  lemma CompanyPresenceHit(c: Company, pairs: seq<Pair>)
    requires Contains(Lower(c.frontmatter.seattlePresence), Query(pairs))
    ensures QueryHits(CompanyHaystack(c), Query(pairs))
  {
    var fm := c.frontmatter;
    var parts := [Lower(fm.name), Lower(fm.seattlePresence)] + LowerAll(fm.industries) + LowerAll(fm.teamFocus);
    assert parts[1] == Lower(fm.seattlePresence);
    HitInPart(parts, 1, Query(pairs));
  }

  // ---------------------------------------------------------------------
  // Guides and playbooks

  const TagFacetKeys := ["tag"]

  /** The lower-cased title, description and tags. */
  function DocHaystack(title: string, description: string, tags: seq<string>): string {
    Join([Lower(title), Lower(description)] + LowerAll(tags), " ")
  }

  predicate GuideMatches(g: Guide, pairs: seq<Pair>) {
    var fm := g.frontmatter.fields;
    QueryHits(DocHaystack(fm.title, fm.description, fm.tags), Query(pairs))
    && AnySelected(ValuesOf(pairs, "tag"), fm.tags)
  }

  /** The guides page's `results`, over the guides loaded without drafts. */
  function GuideResults(guides: seq<Guide>, pairs: seq<Pair>): (r: seq<Guide>)
    ensures IsSubseq(r, guides)
    ensures forall g :: g in r <==> g in guides && GuideMatches(g, pairs)
  {
    FilterIsSubseq(guides, (g: Guide) => GuideMatches(g, pairs));
    Filter(guides, (g: Guide) => GuideMatches(g, pairs))
  }

  /** Only non-draft guides are listed. */
  lemma GuideResultsNoDrafts(d: ContentFs.Directory, env: Loaders.Env, pairs: seq<Pair>)
    requires GetAllGuides(d, env, Some(false)).Success?
    ensures forall g :: g in GuideResults(GetAllGuides(d, env, Some(false)).value, pairs) ==> GuideKept(g)
  {
  }

  lemma GuideResultsUnfiltered(guides: seq<Guide>, pairs: seq<Pair>)
    requires !HasAnyFilter(pairs, TagFacetKeys)
    ensures GuideResults(guides, pairs) == guides
  {
    assert "tag" in TagFacetKeys;
    FilterAll(guides, (g: Guide) => GuideMatches(g, pairs));
  }

  predicate PlaybookMatches(p: Playbook, pairs: seq<Pair>) {
    var fm := p.frontmatter.fields;
    QueryHits(DocHaystack(fm.title, fm.description, fm.tags), Query(pairs))
    && AnySelected(ValuesOf(pairs, "tag"), fm.tags)
  }

  /** The playbooks page's `results`. */
  function PlaybookResults(playbooks: seq<Playbook>, pairs: seq<Pair>): (r: seq<Playbook>)
    ensures IsSubseq(r, playbooks)
    ensures forall p :: p in r <==> p in playbooks && PlaybookMatches(p, pairs)
  {
    FilterIsSubseq(playbooks, (p: Playbook) => PlaybookMatches(p, pairs));
    Filter(playbooks, (p: Playbook) => PlaybookMatches(p, pairs))
  }

  lemma PlaybookResultsUnfiltered(playbooks: seq<Playbook>, pairs: seq<Pair>)
    requires !HasAnyFilter(pairs, TagFacetKeys)
    ensures PlaybookResults(playbooks, pairs) == playbooks
  {
    assert "tag" in TagFacetKeys;
    FilterAll(playbooks, (p: Playbook) => PlaybookMatches(p, pairs));
  }

  /** The playbooks page's tag vocabulary: `uniqueSorted` of every listed
      playbook's tags. */
  function PlaybookTags(playbooks: seq<Playbook>): (r: seq<string>)
    ensures forall x :: x in r <==>
      x != "" && exists p, v :: p in playbooks && v in p.frontmatter.fields.tags && x == Trim(v)
  {
    Facets.UniqueSorted(Facets.FlatMap(playbooks, (p: Playbook) => p.frontmatter.fields.tags))
  }

  /** A tag of a listed guide matches that guide, whatever the query's case
      of the tag. */
  lemma GuideTagHit(g: Guide, pairs: seq<Pair>, k: nat)
    requires k < |g.frontmatter.fields.tags|
    requires Contains(Lower(g.frontmatter.fields.tags[k]), Query(pairs))
    ensures QueryHits(DocHaystack(g.frontmatter.fields.title, g.frontmatter.fields.description, g.frontmatter.fields.tags), Query(pairs))
  {
    var fm := g.frontmatter.fields;
    var parts := [Lower(fm.title), Lower(fm.description)] + LowerAll(fm.tags);
    assert parts[k + 2] == Lower(fm.tags[k]);
    HitInPart(parts, k + 2, Query(pairs));
  }
}
