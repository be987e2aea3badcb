/** src/lib/content/loaders.ts: the six collections of the site. Each loader
    lists a content directory, reads and validates every entry, and puts the
    collection in its fixed order; guides and playbooks also drop drafts and
    carry a reading time, and playbooks, events and groups refuse a listing
    with a repeated slug.

    The loaders are asynchronous and fan out with `Promise.all`; here they
    run in listing order, and the first failing entry is the error. */
module Loaders {
  import opened Wrappers
  import opened Text
  import opened Seqs
  import opened Sorting
  import opened Schemas
  import opened ContentFs

  datatype Kind = Firms | Companies | Guides | Playbooks | Events | Groups

  /** The `ContentKind` string: also the directory under `content/`. */
  function KindName(k: Kind): string {
    match k
    case Firms => "firms"
    case Companies => "companies"
    case Guides => "guides"
    case Playbooks => "playbooks"
    case Events => "events"
    case Groups => "groups"
  }

  /** `ContentEntry`: a validated record with its collection, slug and body. */
  datatype Entry<F> = Entry(kind: Kind, slug: string, frontmatter: F, body: string)

  /** Guide and playbook front matter extended with the reading time. */
  datatype WithReadingTime<F> = WithReadingTime(fields: F, readingTimeMinutes: int)

  /** What the loaders cannot do: read a listed file, validate it, or accept a
      listing with repeated slugs. Each carries the text the source throws. */
  datatype LoadError = Unreadable(file: string) | Invalid(message: string) | Duplicates(message: string)

  /** The library functions the loaders call: the schema refinements,
      `Date.parse` on validated dates (in milliseconds), and the minutes the
      reading-time estimator reports for a body. */
  datatype Env = Env(checks: Checks, parseDate: string -> int, minutes: string -> real)

  // ---------------------------------------------------------------------
  // parseFrontmatter's error text

  function SegmentText(s: PathSeg): string {
    match s
    case Key(k) => k
    case Index(i) => NatToString(i)
  }

  /** `issue.path.join(".")` */
  function PathText(path: seq<PathSeg>): string {
    Join(seq(|path|, i requires 0 <= i < |path| => SegmentText(path[i])), ".")
  }

  /** One issue as the error lists it: its dotted path, "(root)" when that
      path text is empty, then the message. */
  function IssueText(i: Issue): (r: string)
    ensures i.path == [] ==> r == "(root): " + i.message
    ensures |i.path| == 1 && i.path[0].Key? && i.path[0].name != "" ==> r == i.path[0].name + ": " + i.message
    ensures EndsWith(r, ": " + i.message)
  {
    var p := PathText(i.path);
    var r := (if p == "" then "(root)" else p) + ": " + i.message;
    assert r[|r| - |": " + i.message|..] == ": " + i.message;
    r
  }

  /** The file an entry's error names, relative to the repository. */
  function Context(kind: Kind, slug: string): string {
    "content/" + KindName(kind) + "/" + slug + Extension
  }

  /** The text of each issue, in the order zod reports them. */
  function IssueTexts(issues: seq<Issue>): (r: seq<string>)
    ensures |r| == |issues|
    ensures forall k :: 0 <= k < |issues| ==> r[k] == IssueText(issues[k])
  {
    seq(|issues|, k requires 0 <= k < |issues| => IssueText(issues[k]))
  }

  /** The message thrown for front matter that fails its schema: it names the
      file and then every issue, in order, separated by "; ". */
  function FrontmatterError(context: string, issues: seq<Issue>): (r: string)
    ensures r == "Invalid frontmatter in " + context + ": " + Join(IssueTexts(issues), "; ")
    ensures StartsWith(r, "Invalid frontmatter in " + context + ": ")
    ensures forall k :: 0 <= k < |issues| ==> Contains(r, IssueText(issues[k]))
  {
    var texts := IssueTexts(issues);
    var prefix := "Invalid frontmatter in " + context + ": ";
    var r := prefix + Join(texts, "; ");
    assert r[..|prefix|] == prefix;
    forall k | 0 <= k < |issues|
      ensures Contains(r, IssueText(issues[k]))
    {
      JoinContains(texts, "; ", k);
      ContainsConcat(prefix, Join(texts, "; "), texts[k]);
    }
    r
  }

  // ---------------------------------------------------------------------
  // One entry

  /** `get*BySlug` without the extras: read `slug.mdx`, validate its front
      matter, and tag the record with the collection and the slug. */
  function LoadEntry<F>(d: Directory, kind: Kind, slug: string, validate: Value -> Result<F, seq<Issue>>)
    : (r: Result<Entry<F>, LoadError>)
    ensures r.Success? <==> ReadMdxFile(d, slug).Some? && validate(ReadMdxFile(d, slug).value.data).Success?
    ensures r.Success? ==>
      (&& r.value.kind == kind && r.value.slug == slug
       && r.value.body == ReadMdxFile(d, slug).value.content
       && r.value.frontmatter == validate(ReadMdxFile(d, slug).value.data).value)
    ensures ReadMdxFile(d, slug).None? ==> r == Failure(Unreadable(slug + Extension))
    ensures ReadMdxFile(d, slug).Some? && r.Failure? ==>
      r.error == Invalid(FrontmatterError(Context(kind, slug), validate(ReadMdxFile(d, slug).value.data).error))
  {
    var source := ReadMdxFile(d, slug);
    if source.None? then Failure(Unreadable(slug + Extension))
    else
      var parsed := validate(source.value.data);
      if parsed.Failure? then Failure(Invalid(FrontmatterError(Context(kind, slug), parsed.error)))
      else Success(Entry(kind, slug, parsed.value, source.value.content))
  }

  /** `Math.round`: the nearest integer, halves rounded up. */
  function Round(x: real): (r: int)
    ensures x - 0.5 < r as real <= x + 0.5
  {
    (x + 0.5).Floor
  }

  /** `Math.max(1, Math.round(minutes))` */
  function ReadingTimeMinutes(minutes: real): (r: int)
    ensures r >= 1
    ensures minutes >= 0.5 ==> r == Round(minutes)
    ensures minutes < 0.5 ==> r == 1
  {
    if Round(minutes) < 1 then 1 else Round(minutes)
  }

  function FirmValidator(c: Checks): Value -> Result<FirmFrontmatter, seq<Issue>> {
    v => ValidateFirm(v, c)
  }

  function CompanyValidator(c: Checks): Value -> Result<CompanyFrontmatter, seq<Issue>> {
    v => ValidateCompany(v, c)
  }

  function GuideValidator(c: Checks): Value -> Result<GuideFrontmatter, seq<Issue>> {
    v => ValidateGuide(v, c)
  }

  function PlaybookValidator(c: Checks): Value -> Result<PlaybookFrontmatter, seq<Issue>> {
    v => ValidatePlaybook(v, c)
  }

  function EventValidator(c: Checks): Value -> Result<EventFrontmatter, seq<Issue>> {
    v => ValidateEvent(v, c)
  }

  function GroupValidator(c: Checks): Value -> Result<GroupFrontmatter, seq<Issue>> {
    v => ValidateGroup(v, c)
  }

  /** A loaded record plus the reading time of its body. */
  function WithTime<F>(e: Result<Entry<F>, LoadError>, env: Env): (r: Result<Entry<WithReadingTime<F>>, LoadError>)
    ensures r.Success? <==> e.Success?
    ensures r.Success? ==>
      (&& r.value.kind == e.value.kind && r.value.slug == e.value.slug
       && r.value.body == e.value.body && r.value.frontmatter.fields == e.value.frontmatter
       && r.value.frontmatter.readingTimeMinutes == ReadingTimeMinutes(env.minutes(e.value.body))
       && r.value.frontmatter.readingTimeMinutes >= 1)
    ensures r.Failure? ==> r.error == e.error
  {
    if e.Failure? then Failure(e.error)
    else
      var x := e.value;
      Success(Entry(x.kind, x.slug, WithReadingTime(x.frontmatter, ReadingTimeMinutes(env.minutes(x.body))), x.body))
  }

  /** `getFirmBySlug`: the firm `slug` names, tagged `firms`, when its
      file exists and its front matter passes the firm schema; otherwise the
      reason it failed. */
  function GetFirmBySlug(d: Directory, slug: string, env: Env): (r: Result<Entry<FirmFrontmatter>, LoadError>)
    ensures r.Success? <==> ReadMdxFile(d, slug).Some? && ValidateFirm(ReadMdxFile(d, slug).value.data, env.checks).Success?
    ensures r.Success? ==>
      (&& r.value.kind == Firms && r.value.slug == slug && r.value.body == ReadMdxFile(d, slug).value.content
       && r.value.frontmatter == ValidateFirm(ReadMdxFile(d, slug).value.data, env.checks).value)
    ensures ReadMdxFile(d, slug).None? ==> r == Failure(Unreadable(slug + Extension))
  {
    LoadEntry(d, Firms, slug, FirmValidator(env.checks))
  }

  /** `getCompanyBySlug`: the company `slug` names, tagged `companies`, when its
      file exists and its front matter passes the company schema; otherwise the
      reason it failed. */
  function GetCompanyBySlug(d: Directory, slug: string, env: Env): (r: Result<Entry<CompanyFrontmatter>, LoadError>)
    ensures r.Success? <==> ReadMdxFile(d, slug).Some? && ValidateCompany(ReadMdxFile(d, slug).value.data, env.checks).Success?
    ensures r.Success? ==>
      (&& r.value.kind == Companies && r.value.slug == slug && r.value.body == ReadMdxFile(d, slug).value.content
       && r.value.frontmatter == ValidateCompany(ReadMdxFile(d, slug).value.data, env.checks).value)
    ensures ReadMdxFile(d, slug).None? ==> r == Failure(Unreadable(slug + Extension))
  {
    LoadEntry(d, Companies, slug, CompanyValidator(env.checks))
  }

  /** `getGuideBySlug`: the guide `slug` names, tagged `guides`, when its
      file exists and its front matter passes the guide schema, with the
      reading time of its body; otherwise the reason it failed. */
  function GetGuideBySlug(d: Directory, slug: string, env: Env)
    : (r: Result<Entry<WithReadingTime<GuideFrontmatter>>, LoadError>)
    ensures r.Success? <==> ReadMdxFile(d, slug).Some? && ValidateGuide(ReadMdxFile(d, slug).value.data, env.checks).Success?
    ensures r.Success? ==>
      (&& r.value.kind == Guides && r.value.slug == slug && r.value.body == ReadMdxFile(d, slug).value.content
       && r.value.frontmatter.fields == ValidateGuide(ReadMdxFile(d, slug).value.data, env.checks).value
       && r.value.frontmatter.readingTimeMinutes == ReadingTimeMinutes(env.minutes(r.value.body)))
    ensures ReadMdxFile(d, slug).None? ==> r == Failure(Unreadable(slug + Extension))
  {
    WithTime(LoadEntry(d, Guides, slug, GuideValidator(env.checks)), env)
  }

  /** `getPlaybookBySlug`: the playbook `slug` names, tagged `playbooks`, when its
      file exists and its front matter passes the playbook schema, with the
      reading time of its body; otherwise the reason it failed. */
  function GetPlaybookBySlug(d: Directory, slug: string, env: Env)
    : (r: Result<Entry<WithReadingTime<PlaybookFrontmatter>>, LoadError>)
    ensures r.Success? <==> ReadMdxFile(d, slug).Some? && ValidatePlaybook(ReadMdxFile(d, slug).value.data, env.checks).Success?
    ensures r.Success? ==>
      (&& r.value.kind == Playbooks && r.value.slug == slug && r.value.body == ReadMdxFile(d, slug).value.content
       && r.value.frontmatter.fields == ValidatePlaybook(ReadMdxFile(d, slug).value.data, env.checks).value
       && r.value.frontmatter.readingTimeMinutes == ReadingTimeMinutes(env.minutes(r.value.body)))
    ensures ReadMdxFile(d, slug).None? ==> r == Failure(Unreadable(slug + Extension))
  {
    WithTime(LoadEntry(d, Playbooks, slug, PlaybookValidator(env.checks)), env)
  }

  /** `getEventBySlug`: the event `slug` names, tagged `events`, when its
      file exists and its front matter passes the event schema; otherwise the
      reason it failed. */
  function GetEventBySlug(d: Directory, slug: string, env: Env): (r: Result<Entry<EventFrontmatter>, LoadError>)
    ensures r.Success? <==> ReadMdxFile(d, slug).Some? && ValidateEvent(ReadMdxFile(d, slug).value.data, env.checks).Success?
    ensures r.Success? ==>
      (&& r.value.kind == Events && r.value.slug == slug && r.value.body == ReadMdxFile(d, slug).value.content
       && r.value.frontmatter == ValidateEvent(ReadMdxFile(d, slug).value.data, env.checks).value)
    ensures ReadMdxFile(d, slug).None? ==> r == Failure(Unreadable(slug + Extension))
  {
    LoadEntry(d, Events, slug, EventValidator(env.checks))
  }

  /** `getGroupBySlug`: the group `slug` names, tagged `groups`, when its
      file exists and its front matter passes the group schema; otherwise the
      reason it failed. */
  function GetGroupBySlug(d: Directory, slug: string, env: Env): (r: Result<Entry<GroupFrontmatter>, LoadError>)
    ensures r.Success? <==> ReadMdxFile(d, slug).Some? && ValidateGroup(ReadMdxFile(d, slug).value.data, env.checks).Success?
    ensures r.Success? ==>
      (&& r.value.kind == Groups && r.value.slug == slug && r.value.body == ReadMdxFile(d, slug).value.content
       && r.value.frontmatter == ValidateGroup(ReadMdxFile(d, slug).value.data, env.checks).value)
    ensures ReadMdxFile(d, slug).None? ==> r == Failure(Unreadable(slug + Extension))
  {
    LoadEntry(d, Groups, slug, GroupValidator(env.checks))
  }

  // ---------------------------------------------------------------------
  // A whole listing

  /** Loads every slug in order; the first failure is the result. */
  function LoadAll<E>(slugs: seq<string>, load: string -> Result<E, LoadError>): (r: Result<seq<E>, LoadError>)
    ensures r.Success? <==> forall i :: 0 <= i < |slugs| ==> load(slugs[i]).Success?
    ensures r.Success? ==> |r.value| == |slugs| && forall i :: 0 <= i < |slugs| ==> r.value[i] == load(slugs[i]).value
    ensures r.Failure? ==>
      exists i :: (0 <= i < |slugs| && load(slugs[i]) == Failure(r.error)
        && forall j :: 0 <= j < i ==> load(slugs[j]).Success?)
  {
    if |slugs| == 0 then Success([])
    else
      var first := load(slugs[0]);
      if first.Failure? then Failure(first.error)
      else
        var rest := LoadAll(slugs[1..], load);
        if rest.Failure? then
          var i :| 0 <= i < |slugs[1..]| && load(slugs[1..][i]) == Failure(rest.error)
            && forall j :: 0 <= j < i ==> load(slugs[1..][j]).Success?;
          assert load(slugs[i + 1]) == Failure(rest.error);
          Failure(rest.error)
        else
          Success([first.value] + rest.value)
  }

  // ---------------------------------------------------------------------
  // Duplicate slugs

  /** The slugs of `s` that repeat an earlier one, each time it happens. */
  function Repeats(s: seq<string>): seq<string> {
    if |s| == 0 then []
    else Repeats(s[..|s| - 1]) + (if s[|s| - 1] in s[..|s| - 1] then [s[|s| - 1]] else [])
  }

  /** The duplicated slugs, once each, in order of first repetition: what the
      `duplicates` set of `assertUniqueSlugs` holds at the end. */
  function Dups(s: seq<string>): (r: seq<string>)
    ensures NoDuplicates(r)
  {
    Distinct(Repeats(s))
  }

  /** A slug is reported iff it occurs at least twice. */
  lemma {:induction false} RepeatsMembers(s: seq<string>, x: string)
    ensures x in Repeats(s) <==> multiset(s)[x] >= 2
  {
    if |s| > 0 {
      var p := s[..|s| - 1];
      var y := s[|s| - 1];
      assert s == p + [y];
      RepeatsMembers(p, x);
      assert x in p <==> multiset(p)[x] >= 1;
    }
  }

  lemma DupsMembers(s: seq<string>, x: string)
    ensures x in Dups(s) <==> multiset(s)[x] >= 2
  {
    RepeatsMembers(s, x);
  }

  /** Nothing is reported iff no slug repeats. */
  lemma DupsEmpty(s: seq<string>)
    ensures Dups(s) == [] <==> NoDuplicates(s)
  {
    if Dups(s) == [] {
      forall i, j | 0 <= i < j < |s|
        ensures s[i] != s[j]
      {
        if s[i] == s[j] {
          TwiceAtIndices(s, i, j);
          DupsMembers(s, s[i]);
        }
      }
    } else {
      var x := Dups(s)[0];
      DupsMembers(s, x);
      MultisetTwice(s, x);
    }
  }

  /** One more slug adds itself to the report exactly when it is its second
      occurrence. */
  lemma DupsSnoc(p: seq<string>, y: string)
    ensures Dups(p + [y]) == if y in p && y !in Dups(p) then Dups(p) + [y] else Dups(p)
  {
    assert (p + [y])[..|p|] == p;
    if y in p {
      assert Repeats(p + [y]) == Repeats(p) + [y];
      DistinctSnoc(Repeats(p), y);
    } else {
      assert Repeats(p + [y]) == Repeats(p) + [];
      assert Repeats(p) + [] == Repeats(p);
    }
  }

  /** The report lists the duplicated slugs in the order of their second
      occurrences: some prefix of the listing already holds `Dups(s)[i]`
      twice but `Dups(s)[j]` at most once. */
  lemma {:induction false} DupsInOrder(s: seq<string>, i: nat, j: nat)
    requires i < j < |Dups(s)|
    ensures exists n :: 0 <= n <= |s| && multiset(s[..n])[Dups(s)[i]] >= 2 && multiset(s[..n])[Dups(s)[j]] <= 1
  {
    var p := s[..|s| - 1];
    var y := s[|s| - 1];
    assert s == p + [y];
    DupsSnoc(p, y);
    if j < |Dups(p)| {
      DupsInOrder(p, i, j);
      var n :| 0 <= n <= |p| && multiset(p[..n])[Dups(p)[i]] >= 2 && multiset(p[..n])[Dups(p)[j]] <= 1;
      assert s[..n] == p[..n];
    } else {
      assert Dups(s) == Dups(p) + [y];
      DupsMembers(p, Dups(p)[i]);
      DupsMembers(p, y);
      assert s[..|p|] == p;
    }
  }

  /** The error `assertUniqueSlugs` throws for a listing, if any. */
  function DuplicateSlugsError(kind: Kind, slugs: seq<string>): (r: Option<string>)
    ensures r.None? <==> NoDuplicates(slugs)
    ensures r.Some? ==> StartsWith(r.value, "Duplicate slugs detected for " + KindName(kind) + ": ")
    ensures forall x :: multiset(slugs)[x] >= 2 ==> r.Some? && Contains(r.value, x)
    ensures r.Some? ==> r.value == "Duplicate slugs detected for " + KindName(kind) + ": " + Join(Dups(slugs), ", ")
  {
    var d := Dups(slugs);
    DupsEmpty(slugs);
    var prefix := "Duplicate slugs detected for " + KindName(kind) + ": ";
    var message := prefix + Join(d, ", ");
    assert message[..|prefix|] == prefix;
    forall x | multiset(slugs)[x] >= 2
      ensures |d| > 0 && Contains(message, x)
    {
      DupsMembers(slugs, x);
      var k :| 0 <= k < |d| && d[k] == x;
      JoinContains(d, ", ", k);
      ContainsConcat(prefix, Join(d, ", "), x);
    }
    if |d| > 0 then Some(message) else None
  }

  /** `assertUniqueSlugs`: one pass with a `seen` set and an insertion-ordered
      `duplicates` set. */
  method AssertUniqueSlugs(kind: Kind, slugs: seq<string>) returns (err: Option<string>)
    ensures err == DuplicateSlugsError(kind, slugs)
    ensures err.None? <==> NoDuplicates(slugs)
  {
    var seen: set<string> := {};
    var duplicates: seq<string> := [];
    for i := 0 to |slugs|
      invariant seen == set j | 0 <= j < i :: slugs[j]
      invariant duplicates == Distinct(Repeats(slugs[..i]))
    {
      var slug := slugs[i];
      assert slugs[..i + 1][..i] == slugs[..i];
      assert slug in seen <==> slug in slugs[..i];
      ghost var r := Repeats(slugs[..i]);
      if slug in seen {
        assert Repeats(slugs[..i + 1]) == r + [slug];
        assert (r + [slug])[..|r|] == r;
        if slug !in duplicates {
          duplicates := duplicates + [slug];
        }
      } else {
        assert Repeats(slugs[..i + 1]) == r;
      }
      seen := seen + {slug};
    }
    assert slugs[..|slugs|] == slugs;
    DupsEmpty(slugs);
    if |duplicates| > 0 {
      err := Some("Duplicate slugs detected for " + KindName(kind) + ": " + Join(duplicates, ", "));
    } else {
      err := None;
    }
  }

  /** A listing comes from one directory, whose names are distinct, so the
      duplicate check never fires on what `listMdxSlugs` returns. */
  lemma ListedSlugsDistinct(d: Directory)
    requires forall i, j :: 0 <= i < j < |d.entries| ==> d.entries[i].name != d.entries[j].name
    ensures DuplicateSlugsError(Playbooks, ListMdxSlugs(d)) == None
  {
    var q := Filter(d.entries, IsMdxFile);
    FilterIsSubseq(d.entries, IsMdxFile);
    SubseqDistinct(q, d.entries);
    SlugsDistinct(q);
    SameMultisetNoDuplicates(ListMdxSlugs(d), Slugs(q));
    DupsEmpty(ListMdxSlugs(d));
  }

  lemma SlugsDistinct(q: seq<DirEntry>)
    requires forall e :: e in q ==> IsMdxFile(e)
    requires forall i, j :: 0 <= i < j < |q| ==> q[i].name != q[j].name
    ensures NoDuplicates(Slugs(q))
  {
    var names := Slugs(q);
    forall i, j | 0 <= i < j < |names|
      ensures names[i] != names[j]
    {
      assert q[i] in q && q[j] in q;
      assert names[i] + Extension == q[i].name && names[j] + Extension == q[j].name;
    }
  }

  lemma SameMultisetNoDuplicates(a: seq<string>, b: seq<string>)
    requires multiset(a) == multiset(b) && NoDuplicates(b)
    ensures NoDuplicates(a)
  {
    forall i, j | 0 <= i < j < |a|
      ensures a[i] != a[j]
    {
      if a[i] == a[j] {
        assert a == a[..i] + [a[i]] + a[i + 1..j] + [a[j]] + a[j + 1..];
        assert multiset(b)[a[i]] >= 2;
        MultisetTwice(b, a[i]);
      }
    }
  }

  lemma {:induction false} SubseqDistinct(a: seq<DirEntry>, b: seq<DirEntry>)
    requires IsSubseq(a, b)
    requires forall i, j :: 0 <= i < j < |b| ==> b[i].name != b[j].name
    ensures forall i, j :: 0 <= i < j < |a| ==> a[i].name != a[j].name
    decreases |b|
  {
    if |a| > 0 {
      if a[0] == b[0] && IsSubseq(a[1..], b[1..]) {
        SubseqDistinct(a[1..], b[1..]);
        SubseqMembers(a[1..], b[1..]);
        forall j | 0 < j < |a|
          ensures a[0].name != a[j].name
        {
          assert a[1..][j - 1] in b[1..];
          var k :| 0 <= k < |b[1..]| && b[1..][k] == a[j];
          assert b[k + 1] == a[j];
        }
        forall i, j | 0 < i < j < |a|
          ensures a[i].name != a[j].name
        {
          assert a[i] == a[1..][i - 1] && a[j] == a[1..][j - 1];
        }
      } else {
        SubseqDistinct(a, b[1..]);
      }
    }
  }

  lemma {:induction false} SubseqMembers<T>(a: seq<T>, b: seq<T>)
    requires IsSubseq(a, b)
    ensures forall x :: x in a ==> x in b
    decreases |b|
  {
    if |a| > 0 {
      if a[0] == b[0] && IsSubseq(a[1..], b[1..]) {
        SubseqMembers(a[1..], b[1..]);
        assert forall x :: x in a ==> x == a[0] || x in a[1..];
      } else {
        SubseqMembers(a, b[1..]);
      }
    }
  }

}
