/** The `getAll*` functions of src/lib/content/loaders.ts: list the directory,
    load every entry, then filter drafts and sort each collection in its own
    order. Playbooks, events and groups first refuse repeated slugs. */
module Collections {
  import opened Wrappers
  import opened Text
  import opened Seqs
  import opened Sorting
  import opened Schemas
  import opened ContentFs
  import opened Loaders

  type Firm = Entry<FirmFrontmatter>
  type Company = Entry<CompanyFrontmatter>
  type Guide = Entry<WithReadingTime<GuideFrontmatter>>
  type Playbook = Entry<WithReadingTime<PlaybookFrontmatter>>
  type Event = Entry<EventFrontmatter>
  type Group = Entry<GroupFrontmatter>

  /** `status === "upcoming"`. */
  predicate IsUpcoming(e: Event) {
    e.frontmatter.status == Upcoming
  }

  // ---------------------------------------------------------------------
  // Featured first, then by name

  /** `featured ? 1 : 0` compared descending, then `localeCompare` on names. */
  predicate FeaturedNameBefore(a: (bool, string), b: (bool, string)) {
    (a.0 && !b.0) || (a.0 == b.0 && StrLess(a.1, b.1))
  }

  lemma FeaturedNameWeakOrder()
    ensures StrictWeakOrder(FeaturedNameBefore)
  {
    StrLessWeakOrder();
  }

  /** Every featured entry precedes every other, and within each group the
      names ascend. */
  predicate FeaturedFirstByName<T>(s: seq<T>, key: T -> (bool, string)) {
    forall i, j :: 0 <= i < j < |s| ==>
      (key(s[j]).0 ==> key(s[i]).0) && (key(s[i]).0 == key(s[j]).0 ==> !StrLess(key(s[j]).1, key(s[i]).1))
  }

  function FirmKey(e: Firm): (bool, string) {
    (e.frontmatter.featured == Some(true), e.frontmatter.name)
  }

  predicate FirmBefore(a: Firm, b: Firm) {
    FeaturedNameBefore(FirmKey(a), FirmKey(b))
  }

  function CompanyKey(e: Company): (bool, string) {
    (e.frontmatter.featured == Some(true), e.frontmatter.name)
  }

  predicate CompanyBefore(a: Company, b: Company) {
    FeaturedNameBefore(CompanyKey(a), CompanyKey(b))
  }

  function FirmLoader(d: Directory, env: Env): string -> Result<Firm, LoadError> {
    slug => GetFirmBySlug(d, slug, env)
  }

  function CompanyLoader(d: Directory, env: Env): string -> Result<Company, LoadError> {
    slug => GetCompanyBySlug(d, slug, env)
  }

  function GuideLoader(d: Directory, env: Env): string -> Result<Guide, LoadError> {
    slug => GetGuideBySlug(d, slug, env)
  }

  function PlaybookLoader(d: Directory, env: Env): string -> Result<Playbook, LoadError> {
    slug => GetPlaybookBySlug(d, slug, env)
  }

  function EventLoader(d: Directory, env: Env): string -> Result<Event, LoadError> {
    slug => GetEventBySlug(d, slug, env)
  }

  function GroupLoader(d: Directory, env: Env): string -> Result<Group, LoadError> {
    slug => GetGroupBySlug(d, slug, env)
  }

  /** `getAllFirms`: every listed firm, featured first, then by name. */
  function GetAllFirms(d: Directory, env: Env): (r: Result<seq<Firm>, LoadError>)
    ensures var loaded := LoadAll(ListMdxSlugs(d), FirmLoader(d, env));
      && (r.Success? <==> loaded.Success?)
      && (r.Failure? ==> r.error == loaded.error)
      && (r.Success? ==> multiset(r.value) == multiset(loaded.value) && FeaturedFirstByName(r.value, FirmKey))
  {
    var loaded := LoadAll(ListMdxSlugs(d), FirmLoader(d, env));
    if loaded.Failure? then Failure(loaded.error)
    else
      var sorted := SortBy(loaded.value, FirmBefore);
      FeaturedNameWeakOrder();
      ByKeyWeakOrder(FirmBefore, FirmKey, FeaturedNameBefore);
      SortBySorted(loaded.value, FirmBefore);
      Success(sorted)
  }

  /** `getAllCompanies`: every listed company, featured first, then by name. */
  function GetAllCompanies(d: Directory, env: Env): (r: Result<seq<Company>, LoadError>)
    ensures var loaded := LoadAll(ListMdxSlugs(d), CompanyLoader(d, env));
      && (r.Success? <==> loaded.Success?)
      && (r.Failure? ==> r.error == loaded.error)
      && (r.Success? ==> multiset(r.value) == multiset(loaded.value) && FeaturedFirstByName(r.value, CompanyKey))
  {
    var loaded := LoadAll(ListMdxSlugs(d), CompanyLoader(d, env));
    if loaded.Failure? then Failure(loaded.error)
    else
      var sorted := SortBy(loaded.value, CompanyBefore);
      FeaturedNameWeakOrder();
      ByKeyWeakOrder(CompanyBefore, CompanyKey, FeaturedNameBefore);
      SortBySorted(loaded.value, CompanyBefore);
      Success(sorted)
  }

  // ---------------------------------------------------------------------
  // Guides and playbooks: drafts out, newest first

  predicate GuideKept(e: Guide) {
    e.frontmatter.fields.draft != Some(true)
  }

  predicate PlaybookKept(e: Playbook) {
    e.frontmatter.fields.draft != Some(true)
  }

  /** `includeDrafts ? entries : entries.filter(e => !e.frontmatter.draft)` */
  function GuideDrafts(es: seq<Guide>, includeDrafts: Option<bool>): (r: seq<Guide>)
    ensures includeDrafts.GetOr(false) ==> r == es
    ensures !includeDrafts.GetOr(false) ==> forall e :: e in r <==> e in es && GuideKept(e)
    ensures !includeDrafts.GetOr(false) ==> r == Filter(es, GuideKept)
    ensures IsSubseq(r, es)
  {
    if includeDrafts.GetOr(false) then
      PrefixIsSubseq(es, |es|);
      assert es[..|es|] == es;
      es
    else
      FilterIsSubseq(es, GuideKept);
      Filter(es, GuideKept)
  }

  function PlaybookDrafts(es: seq<Playbook>, includeDrafts: Option<bool>): (r: seq<Playbook>)
    ensures includeDrafts.GetOr(false) ==> r == es
    ensures !includeDrafts.GetOr(false) ==> forall e :: e in r <==> e in es && PlaybookKept(e)
    ensures !includeDrafts.GetOr(false) ==> r == Filter(es, PlaybookKept)
    ensures IsSubseq(r, es)
  {
    if includeDrafts.GetOr(false) then
      PrefixIsSubseq(es, |es|);
      assert es[..|es|] == es;
      es
    else
      FilterIsSubseq(es, PlaybookKept);
      Filter(es, PlaybookKept)
  }

  /** `Date.parse(b.publishedAt) - Date.parse(a.publishedAt)` below zero. */
  function GuideNewestFirst(parse: string -> int): (r: (Guide, Guide) -> bool)
    ensures StrictWeakOrder(r)
    ensures forall a, b :: !r(a, b) && !r(b, a) <==>
      parse(a.frontmatter.fields.publishedAt) == parse(b.frontmatter.fields.publishedAt)
  {
    (a: Guide, b: Guide) => parse(a.frontmatter.fields.publishedAt) > parse(b.frontmatter.fields.publishedAt)
  }

  function PlaybookNewestFirst(parse: string -> int): (r: (Playbook, Playbook) -> bool)
    ensures StrictWeakOrder(r)
    ensures forall a, b :: !r(a, b) && !r(b, a) <==>
      parse(a.frontmatter.fields.publishedAt) == parse(b.frontmatter.fields.publishedAt)
  {
    (a: Playbook, b: Playbook) => parse(a.frontmatter.fields.publishedAt) > parse(b.frontmatter.fields.publishedAt)
  }

  /** The loaded guides without drafts (unless asked for), newest first. */
  function GuidesListed(es: seq<Guide>, includeDrafts: Option<bool>, parse: string -> int): (r: seq<Guide>)
    ensures multiset(r) == multiset(GuideDrafts(es, includeDrafts))
    ensures !includeDrafts.GetOr(false) ==> forall e :: e in r ==> GuideKept(e)
    ensures forall i, j :: 0 <= i < j < |r| ==>
      parse(r[i].frontmatter.fields.publishedAt) >= parse(r[j].frontmatter.fields.publishedAt)
  {
    var kept := GuideDrafts(es, includeDrafts);
    var lt := GuideNewestFirst(parse);
    var sorted := SortBy(kept, lt);
    SortBySorted(kept, lt);
    assert forall e :: e in sorted ==> e in multiset(kept);
    sorted
  }

  /** `getAllGuides`: the listed guides without drafts (unless asked for),
      newest `publishedAt` first. */
  function GetAllGuides(d: Directory, env: Env, includeDrafts: Option<bool>): (r: Result<seq<Guide>, LoadError>)
    ensures var loaded := LoadAll(ListMdxSlugs(d), GuideLoader(d, env));
      && (r.Success? <==> loaded.Success?)
      && (r.Failure? ==> r.error == loaded.error)
      && (r.Success? ==> multiset(r.value) == multiset(GuideDrafts(loaded.value, includeDrafts)))
      && (r.Success? && !includeDrafts.GetOr(false) ==> forall e :: e in r.value ==> GuideKept(e))
      && (r.Success? ==> forall i, j :: 0 <= i < j < |r.value| ==>
            env.parseDate(r.value[i].frontmatter.fields.publishedAt) >= env.parseDate(r.value[j].frontmatter.fields.publishedAt))
  {
    var loaded := LoadAll(ListMdxSlugs(d), GuideLoader(d, env));
    if loaded.Failure? then Failure(loaded.error)
    else
      Success(GuidesListed(loaded.value, includeDrafts, env.parseDate))
  }

  /** The loaded playbooks without drafts (unless asked for), newest first. */
  function PlaybooksListed(es: seq<Playbook>, includeDrafts: Option<bool>, parse: string -> int): (r: seq<Playbook>)
    ensures multiset(r) == multiset(PlaybookDrafts(es, includeDrafts))
    ensures !includeDrafts.GetOr(false) ==> forall e :: e in r ==> PlaybookKept(e)
    ensures forall i, j :: 0 <= i < j < |r| ==>
      parse(r[i].frontmatter.fields.publishedAt) >= parse(r[j].frontmatter.fields.publishedAt)
  {
    var kept := PlaybookDrafts(es, includeDrafts);
    var lt := PlaybookNewestFirst(parse);
    var sorted := SortBy(kept, lt);
    SortBySorted(kept, lt);
    assert forall e :: e in sorted ==> e in multiset(kept);
    sorted
  }

  /** `getAllPlaybooks`: refuses repeated slugs, then as for guides. */
  function GetAllPlaybooks(d: Directory, env: Env, includeDrafts: Option<bool>): (r: Result<seq<Playbook>, LoadError>)
    ensures var slugs := ListMdxSlugs(d);
      var loaded := LoadAll(slugs, PlaybookLoader(d, env));
      && (DuplicateSlugsError(Playbooks, slugs).Some? ==>
            r == Failure(Duplicates(DuplicateSlugsError(Playbooks, slugs).value)))
      && (DuplicateSlugsError(Playbooks, slugs).None? ==>
            (r.Success? <==> loaded.Success?) && (r.Failure? ==> r.error == loaded.error))
      && (r.Success? ==> multiset(r.value) == multiset(PlaybookDrafts(loaded.value, includeDrafts)))
      && (r.Success? && !includeDrafts.GetOr(false) ==> forall e :: e in r.value ==> PlaybookKept(e))
      && (r.Success? ==> forall i, j :: 0 <= i < j < |r.value| ==>
            env.parseDate(r.value[i].frontmatter.fields.publishedAt) >= env.parseDate(r.value[j].frontmatter.fields.publishedAt))
  {
    var slugs := ListMdxSlugs(d);
    var dup := DuplicateSlugsError(Playbooks, slugs);
    if dup.Some? then Failure(Duplicates(dup.value))
    else
      var loaded := LoadAll(slugs, PlaybookLoader(d, env));
      if loaded.Failure? then Failure(loaded.error)
      else
        Success(PlaybooksListed(loaded.value, includeDrafts, env.parseDate))
  }

  // ---------------------------------------------------------------------
  // Events by start, groups by name

  /** `Date.parse(a.startAt) - Date.parse(b.startAt)` below zero. */
  function EventSoonestFirst(parse: string -> int): (r: (Event, Event) -> bool)
    ensures StrictWeakOrder(r)
    ensures forall a, b :: !r(a, b) && !r(b, a) <==> parse(a.frontmatter.startAt) == parse(b.frontmatter.startAt)
  {
    (a: Event, b: Event) => parse(a.frontmatter.startAt) < parse(b.frontmatter.startAt)
  }

  /** `getAllEvents`: refuses repeated slugs; earliest `startAt` first. */
  function GetAllEvents(d: Directory, env: Env): (r: Result<seq<Event>, LoadError>)
    ensures var slugs := ListMdxSlugs(d);
      var loaded := LoadAll(slugs, EventLoader(d, env));
      && (DuplicateSlugsError(Events, slugs).Some? ==>
            r == Failure(Duplicates(DuplicateSlugsError(Events, slugs).value)))
      && (DuplicateSlugsError(Events, slugs).None? ==>
            (r.Success? <==> loaded.Success?) && (r.Failure? ==> r.error == loaded.error))
      && (r.Success? ==> multiset(r.value) == multiset(loaded.value))
      && (r.Success? ==> forall i, j :: 0 <= i < j < |r.value| ==>
            env.parseDate(r.value[i].frontmatter.startAt) <= env.parseDate(r.value[j].frontmatter.startAt))
  {
    var slugs := ListMdxSlugs(d);
    var dup := DuplicateSlugsError(Events, slugs);
    if dup.Some? then Failure(Duplicates(dup.value))
    else
      var loaded := LoadAll(slugs, EventLoader(d, env));
      if loaded.Failure? then Failure(loaded.error)
      else
        var lt := EventSoonestFirst(env.parseDate);
        SortBySorted(loaded.value, lt);
        Success(SortBy(loaded.value, lt))
  }

  predicate GroupBefore(a: Group, b: Group) {
    StrLess(a.frontmatter.name, b.frontmatter.name)
  }

  function GroupName(g: Group): string {
    g.frontmatter.name
  }

  /** `getAllGroups`: refuses repeated slugs; names ascending. */
  function GetAllGroups(d: Directory, env: Env): (r: Result<seq<Group>, LoadError>)
    ensures var slugs := ListMdxSlugs(d);
      var loaded := LoadAll(slugs, GroupLoader(d, env));
      && (DuplicateSlugsError(Groups, slugs).Some? ==>
            r == Failure(Duplicates(DuplicateSlugsError(Groups, slugs).value)))
      && (DuplicateSlugsError(Groups, slugs).None? ==>
            (r.Success? <==> loaded.Success?) && (r.Failure? ==> r.error == loaded.error))
      && (r.Success? ==> multiset(r.value) == multiset(loaded.value))
      && (r.Success? ==> forall i, j :: 0 <= i < j < |r.value| ==>
            !StrLess(r.value[j].frontmatter.name, r.value[i].frontmatter.name))
  {
    var slugs := ListMdxSlugs(d);
    var dup := DuplicateSlugsError(Groups, slugs);
    if dup.Some? then Failure(Duplicates(dup.value))
    else
      var loaded := LoadAll(slugs, GroupLoader(d, env));
      if loaded.Failure? then Failure(loaded.error)
      else
        StrLessWeakOrder();
        ByKeyWeakOrder(GroupBefore, GroupName, StrLess);
        SortBySorted(loaded.value, GroupBefore);
        Success(SortBy(loaded.value, GroupBefore))
  }

  // ---------------------------------------------------------------------
  // Record shape

  /** Entries loaded from a listing carry the loader's tag and a listed slug. */
  lemma {:induction false} LoadedTagged<F>(slugs: seq<string>, load: string -> Result<Entry<F>, LoadError>, kind: Kind)
    requires forall s :: load(s).Success? ==> load(s).value.kind == kind && load(s).value.slug == s
    requires LoadAll(slugs, load).Success?
    ensures forall e :: e in LoadAll(slugs, load).value ==> e.kind == kind && e.slug in slugs
  {
    var es := LoadAll(slugs, load).value;
    forall e | e in es
      ensures e.kind == kind && e.slug in slugs
    {
      var i :| 0 <= i < |es| && es[i] == e;
      assert load(slugs[i]).Success?;
    }
  }

  lemma FirmsTagged(d: Directory, env: Env)
    requires GetAllFirms(d, env).Success?
    ensures forall e :: e in GetAllFirms(d, env).value ==> e.kind == Firms && e.slug in ListMdxSlugs(d)
  {
    var r := GetAllFirms(d, env).value;
    var loaded := LoadAll(ListMdxSlugs(d), FirmLoader(d, env));
    LoadedTagged(ListMdxSlugs(d), FirmLoader(d, env), Firms);
    forall e | e in r
      ensures e.kind == Firms && e.slug in ListMdxSlugs(d)
    {
      assert e in multiset(r);
    }
  }

  lemma CompaniesTagged(d: Directory, env: Env)
    requires GetAllCompanies(d, env).Success?
    ensures forall e :: e in GetAllCompanies(d, env).value ==> e.kind == Companies && e.slug in ListMdxSlugs(d)
  {
    var r := GetAllCompanies(d, env).value;
    var loaded := LoadAll(ListMdxSlugs(d), CompanyLoader(d, env));
    LoadedTagged(ListMdxSlugs(d), CompanyLoader(d, env), Companies);
    forall e | e in r
      ensures e.kind == Companies && e.slug in ListMdxSlugs(d)
    {
      assert e in multiset(r);
    }
  }

  lemma GuidesTagged(d: Directory, env: Env, includeDrafts: Option<bool>)
    requires GetAllGuides(d, env, includeDrafts).Success?
    ensures forall e :: e in GetAllGuides(d, env, includeDrafts).value ==> e.kind == Guides && e.slug in ListMdxSlugs(d)
  {
    var r := GetAllGuides(d, env, includeDrafts).value;
    var loaded := LoadAll(ListMdxSlugs(d), GuideLoader(d, env));
    LoadedTagged(ListMdxSlugs(d), GuideLoader(d, env), Guides);
    forall e | e in r
      ensures e.kind == Guides && e.slug in ListMdxSlugs(d)
    {
      assert e in multiset(r);
    }
  }

  lemma PlaybooksTagged(d: Directory, env: Env, includeDrafts: Option<bool>)
    requires GetAllPlaybooks(d, env, includeDrafts).Success?
    ensures forall e :: e in GetAllPlaybooks(d, env, includeDrafts).value ==> e.kind == Playbooks && e.slug in ListMdxSlugs(d)
  {
    var r := GetAllPlaybooks(d, env, includeDrafts).value;
    var loaded := LoadAll(ListMdxSlugs(d), PlaybookLoader(d, env));
    LoadedTagged(ListMdxSlugs(d), PlaybookLoader(d, env), Playbooks);
    forall e | e in r
      ensures e.kind == Playbooks && e.slug in ListMdxSlugs(d)
    {
      assert e in multiset(r);
    }
  }

  lemma EventsTagged(d: Directory, env: Env)
    requires GetAllEvents(d, env).Success?
    ensures forall e :: e in GetAllEvents(d, env).value ==> e.kind == Events && e.slug in ListMdxSlugs(d)
  {
    var r := GetAllEvents(d, env).value;
    var loaded := LoadAll(ListMdxSlugs(d), EventLoader(d, env));
    LoadedTagged(ListMdxSlugs(d), EventLoader(d, env), Events);
    forall e | e in r
      ensures e.kind == Events && e.slug in ListMdxSlugs(d)
    {
      assert e in multiset(r);
    }
  }

  lemma GroupsTagged(d: Directory, env: Env)
    requires GetAllGroups(d, env).Success?
    ensures forall e :: e in GetAllGroups(d, env).value ==> e.kind == Groups && e.slug in ListMdxSlugs(d)
  {
    var r := GetAllGroups(d, env).value;
    var loaded := LoadAll(ListMdxSlugs(d), GroupLoader(d, env));
    LoadedTagged(ListMdxSlugs(d), GroupLoader(d, env), Groups);
    forall e | e in r
      ensures e.kind == Groups && e.slug in ListMdxSlugs(d)
    {
      assert e in multiset(r);
    }
  }
}
