/** The six front-matter schemas of src/lib/content/schemas.ts, written out as
    validators. Each validator reads the parsed YAML of one record, checks
    every field of the schema in declaration order, reports every problem it
    finds (not only the first), fills the documented defaults, drops keys the
    schema does not name, and returns the typed front matter.

    Whether a string is a date (`Date.parse` is not NaN) or a URL (the URL
    constructor accepts it) is library behaviour; both come in as the
    predicates of `Checks`. */
module Schemas {
  import opened Wrappers
  import opened Text

  /** Parsed YAML front matter: the `data` half of gray-matter's result. */
  datatype Value =
    | Null
    | Bool(b: bool)
    | Num(n: real)
    | Str(s: string)
    | Arr(items: seq<Value>)
    | Obj(fields: map<string, Value>)

  /** One step of an issue path: an object key or a list index. */
  datatype PathSeg = Key(name: string) | Index(i: nat)

  /** A schema violation: where it is and what the library says about it. */
  datatype Issue = Issue(path: seq<PathSeg>, message: string)

  /** The two refinements the schemas use, left abstract. */
  datatype Checks = Checks(isDate: string -> bool, isUrl: string -> bool)

  datatype TeamSize = SizeText(text: string) | SizeCount(count: int)

  datatype EventStatus = Upcoming | Past | Cancelled

  datatype FirmFrontmatter = FirmFrontmatter(
    name: string, website: string,
    locations: seq<string>, services: seq<string>, industries: seq<string>,
    teamSize: Option<TeamSize>, founded: Option<int>, featured: Option<bool>,
    lastVerified: string)

  datatype CompanyFrontmatter = CompanyFrontmatter(
    name: string, website: string, hq: Option<string>, seattlePresence: string,
    industries: seq<string>, teamFocus: seq<string>,
    hiringPage: Option<string>, designSystem: Option<string>,
    featured: Option<bool>, lastVerified: string)

  datatype GuideFrontmatter = GuideFrontmatter(
    title: string, description: string, publishedAt: string,
    updatedAt: Option<string>, tags: seq<string>, draft: Option<bool>)

  datatype PlaybookFrontmatter = PlaybookFrontmatter(
    title: string, description: string, publishedAt: string,
    tags: seq<string>, artifactLinks: Option<seq<string>>, draft: Option<bool>)

  datatype EventFrontmatter = EventFrontmatter(
    title: string, description: string, startAt: string, endAt: Option<string>,
    venue: Option<string>, address: Option<string>, host: Option<string>,
    ticketUrl: Option<string>, tags: seq<string>, status: EventStatus)

  datatype GroupFrontmatter = GroupFrontmatter(
    name: string, description: string, website: Option<string>,
    location: Option<string>, meetingCadence: Option<string>,
    tags: seq<string>, lastVerified: string)

  // ---------------------------------------------------------------------
  // Messages

  function TypeName(v: Value): string {
    match v
    case Null => "null"
    case Bool(_) => "boolean"
    case Num(_) => "number"
    case Str(_) => "string"
    case Arr(_) => "array"
    case Obj(_) => "object"
  }

  /** The library's wording for a value of the wrong type; a missing field
      reads "Required". */
  function TypeMessage(expected: string, got: Option<Value>): string {
    if got.None? then "Required" else "Expected " + expected + ", received " + TypeName(got.value)
  }

  const EmptyStringMessage := "String must contain at least 1 character(s)"
  const UrlMessage := "Invalid url"
  const DateMessage := "Invalid date string"
  const IntegerMessage := "Expected integer, received float"
  const UnionMessage := "Invalid input"
  const StatusOptions := "'upcoming' | 'past' | 'cancelled'"

  predicate IsInt(n: real) {
    n.Floor as real == n
  }

  /** The issues of a failed field, none for an accepted one. */
  function IssuesOf<T>(r: Result<T, seq<Issue>>): seq<Issue> {
    if r.Failure? then r.error else []
  }

  /** A failed field reports at least one issue, each under the field's key. */
  predicate Reported<T>(r: Result<T, seq<Issue>>, key: string) {
    r.Failure? ==> r.error != [] && forall i :: i in r.error ==> |i.path| >= 1 && i.path[0] == Key(key)
  }

  function Get(f: map<string, Value>, key: string): Option<Value> {
    if key in f then Some(f[key]) else None
  }

  function Fail<T>(key: string, message: string): (r: Result<T, seq<Issue>>)
    ensures Reported(r, key) && r.Failure?
  {
    Failure([Issue([Key(key)], message)])
  }

  // ---------------------------------------------------------------------
  // Field rules: what each kind of field accepts

  /** `z.string().min(1)` */
  predicate NonEmptyStringOk(v: Option<Value>) {
    v.Some? && v.value.Str? && |v.value.s| >= 1
  }

  /** `z.string()` refined by a predicate (`UrlString`, `DateString`). */
  predicate RefinedStringOk(v: Option<Value>, ok: string -> bool) {
    v.Some? && v.value.Str? && ok(v.value.s)
  }

  /** A list element: a string satisfying `ok`. */
  predicate ElementOk(v: Value, ok: string -> bool) {
    v.Str? && ok(v.s)
  }

  /** `z.array(...)`, possibly with `.default([])` or `.optional()`. */
  predicate ListOk(v: Option<Value>, ok: string -> bool) {
    v.None? || (v.value.Arr? && forall x :: x in v.value.items ==> ElementOk(x, ok))
  }

  /** `z.number().int().min(1800).max(2100)` */
  predicate FoundedOk(v: Value) {
    v.Num? && IsInt(v.n) && 1800.0 <= v.n <= 2100.0
  }

  /** `z.union([z.string().min(1), z.number().int().positive()])` */
  predicate TeamSizeOk(v: Value) {
    (v.Str? && |v.s| >= 1) || (v.Num? && IsInt(v.n) && v.n > 0.0)
  }

  /** `z.enum(["upcoming", "past", "cancelled"])` */
  predicate StatusOk(v: Value) {
    v.Str? && v.s in {"upcoming", "past", "cancelled"}
  }

  // ---------------------------------------------------------------------
  // Field validators

  /** A required `z.string().min(1)` field. */
  function RequiredText(f: map<string, Value>, key: string): (r: Result<string, seq<Issue>>)
    ensures Reported(r, key)
    ensures r.Success? <==> NonEmptyStringOk(Get(f, key))
    ensures r.Success? ==> r.value == f[key].s
  {
    var v := Get(f, key);
    if v.Some? && v.value.Str? then
      if |v.value.s| >= 1 then Success(v.value.s) else Fail(key, EmptyStringMessage)
    else Fail(key, TypeMessage("string", v))
  }

  /** An optional `z.string().min(1)` field. */
  function OptionalText(f: map<string, Value>, key: string): (r: Result<Option<string>, seq<Issue>>)
    ensures Reported(r, key)
    ensures r.Success? <==> key !in f || NonEmptyStringOk(Get(f, key))
    ensures r.Success? ==> r.value == if key in f then Some(f[key].s) else None
  {
    if key !in f then Success(None)
    else
      var t := RequiredText(f, key);
      if t.Success? then Success(Some(t.value)) else Failure(t.error)
  }

  /** A required string field with a refinement that reports `message`. */
  function RequiredRefined(f: map<string, Value>, key: string, ok: string -> bool, message: string)
    : (r: Result<string, seq<Issue>>)
    ensures Reported(r, key)
    ensures r.Success? <==> RefinedStringOk(Get(f, key), ok)
    ensures r.Success? ==> r.value == f[key].s
  {
    var v := Get(f, key);
    if v.Some? && v.value.Str? then
      if ok(v.value.s) then Success(v.value.s) else Fail(key, message)
    else Fail(key, TypeMessage("string", v))
  }

  /** An optional refined string field. */
  function OptionalRefined(f: map<string, Value>, key: string, ok: string -> bool, message: string)
    : (r: Result<Option<string>, seq<Issue>>)
    ensures Reported(r, key)
    ensures r.Success? <==> key !in f || RefinedStringOk(Get(f, key), ok)
    ensures r.Success? ==> r.value == if key in f then Some(f[key].s) else None
  {
    if key !in f then Success(None)
    else
      var t := RequiredRefined(f, key, ok, message);
      if t.Success? then Success(Some(t.value)) else Failure(t.error)
  }

  /** The issue, if any, of one list element at `index`. */
  function ElementIssues(v: Value, key: string, index: nat, ok: string -> bool, message: string)
    : (r: seq<Issue>)
    ensures r == [] <==> ElementOk(v, ok)
    ensures forall i :: i in r ==> i.path == [Key(key), Index(index)]
  {
    if v.Str? then (if ok(v.s) then [] else [Issue([Key(key), Index(index)], message)])
    else [Issue([Key(key), Index(index)], TypeMessage("string", Some(v)))]
  }

  /** The issues of the elements `items`, the first of which sits at `index`. */
  function ItemsIssues(items: seq<Value>, key: string, index: nat, ok: string -> bool, message: string)
    : (r: seq<Issue>)
    ensures r == [] <==> forall x :: x in items ==> ElementOk(x, ok)
    ensures forall i :: i in r ==> |i.path| == 2 && i.path[0] == Key(key)
    decreases |items|
  {
    if |items| == 0 then []
    else
      var rest := ItemsIssues(items[1..], key, index + 1, ok, message);
      assert forall x :: x in items ==> x == items[0] || x in items[1..];
      ElementIssues(items[0], key, index, ok, message) + rest
  }

  function Strings(items: seq<Value>): (r: seq<string>)
    requires forall x :: x in items ==> x.Str?
    ensures |r| == |items| && forall i :: 0 <= i < |items| ==> r[i] == items[i].s
  {
    seq(|items|, i requires 0 <= i < |items| => items[i].s)
  }

  /** A list field: absent is `None`, present must be a list whose elements are
      strings satisfying `ok`. */
  function OptionalList(f: map<string, Value>, key: string, ok: string -> bool, message: string)
    : (r: Result<Option<seq<string>>, seq<Issue>>)
    ensures Reported(r, key)
    ensures r.Success? <==> ListOk(Get(f, key), ok)
    ensures r.Success? && r.value.Some? ==> AllSatisfy(r.value.value, ok)
    ensures r.Success? && key !in f ==> r.value == None
    ensures r.Success? && key in f ==>
      (r.value.Some? && |r.value.value| == |f[key].items| &&
       forall i :: 0 <= i < |f[key].items| ==> f[key].items[i].Str? && r.value.value[i] == f[key].items[i].s)
  {
    if key !in f then Success(None)
    else
      var v := f[key];
      if v.Arr? then
        var issues := ItemsIssues(v.items, key, 0, ok, message);
        if issues == [] then
          var xs := Strings(v.items);
          assert forall i :: 0 <= i < |xs| ==> v.items[i] in v.items && ok(xs[i]);
          Success(Some(xs))
        else Failure(issues)
      else Fail(key, TypeMessage("array", Some(v)))
  }

  /** `z.array(z.string().min(1)).default([])`: an absent list reads as empty. */
  function TextList(f: map<string, Value>, key: string): (r: Result<seq<string>, seq<Issue>>)
    ensures Reported(r, key)
    ensures r.Success? <==> ListOk(Get(f, key), NonEmpty)
    ensures r.Success? ==> AllSatisfy(r.value, NonEmpty)
    ensures r.Success? && key !in f ==> r.value == []
    ensures r.Success? && key in f ==>
      (|r.value| == |f[key].items| &&
       forall i :: 0 <= i < |f[key].items| ==> f[key].items[i].Str? && r.value[i] == f[key].items[i].s)
  {
    var l := OptionalList(f, key, NonEmpty, EmptyStringMessage);
    if l.Failure? then Failure(l.error) else Success(l.value.GetOr([]))
  }

  /** `z.boolean().optional()` */
  function OptionalFlag(f: map<string, Value>, key: string): (r: Result<Option<bool>, seq<Issue>>)
    ensures Reported(r, key)
    ensures r.Success? <==> key !in f || f[key].Bool?
    ensures r.Success? ==> r.value == if key in f then Some(f[key].b) else None
  {
    if key !in f then Success(None)
    else if f[key].Bool? then Success(Some(f[key].b))
    else Fail(key, TypeMessage("boolean", Some(f[key])))
  }

  /** `z.number().int().min(1800).max(2100).optional()`; every failed check
      of a number is reported. */
  function OptionalFounded(f: map<string, Value>, key: string): (r: Result<Option<int>, seq<Issue>>)
    ensures Reported(r, key)
    ensures r.Success? <==> key !in f || FoundedOk(f[key])
    ensures r.Success? ==> r.value == if key in f then Some(f[key].n.Floor) else None
  {
    if key !in f then Success(None)
    else
      var v := f[key];
      if !v.Num? then Fail(key, TypeMessage("number", Some(v)))
      else
        var issues :=
          (if IsInt(v.n) then [] else [Issue([Key(key)], IntegerMessage)])
          + (if v.n >= 1800.0 then [] else [Issue([Key(key)], "Number must be greater than or equal to 1800")])
          + (if v.n <= 2100.0 then [] else [Issue([Key(key)], "Number must be less than or equal to 2100")]);
        if issues == [] then Success(Some(v.n.Floor)) else Failure(issues)
  }

  /** The union `string.min(1) | number.int().positive()`, optional. A branch
      whose type matches but whose checks fail reports its own issues; when
      neither type matches, the union reports "Invalid input". */
  function OptionalTeamSize(f: map<string, Value>, key: string): (r: Result<Option<TeamSize>, seq<Issue>>)
    ensures Reported(r, key)
    ensures r.Success? <==> key !in f || TeamSizeOk(f[key])
    ensures r.Success? && key in f ==>
      (r.value.Some? && r.value.value == if f[key].Str? then SizeText(f[key].s) else SizeCount(f[key].n.Floor))
    ensures r.Success? && key !in f ==> r.value == None
  {
    if key !in f then Success(None)
    else
      var v := f[key];
      if v.Str? then
        if |v.s| >= 1 then Success(Some(SizeText(v.s))) else Fail(key, EmptyStringMessage)
      else if v.Num? then
        var issues :=
          (if IsInt(v.n) then [] else [Issue([Key(key)], IntegerMessage)])
          + (if v.n > 0.0 then [] else [Issue([Key(key)], "Number must be greater than 0")]);
        if issues == [] then Success(Some(SizeCount(v.n.Floor))) else Failure(issues)
      else Fail(key, UnionMessage)
  }

  /** `z.enum(["upcoming", "past", "cancelled"]).default("upcoming")` */
  function StatusField(f: map<string, Value>, key: string): (r: Result<EventStatus, seq<Issue>>)
    ensures Reported(r, key)
    ensures r.Success? <==> key !in f || StatusOk(f[key])
    ensures r.Success? && key !in f ==> r.value == Upcoming
    ensures r.Success? && key in f ==> StatusName(r.value) == f[key].s
  {
    if key !in f then Success(Upcoming)
    else
      var v := f[key];
      if v == Str("upcoming") then Success(Upcoming)
      else if v == Str("past") then Success(Past)
      else if v == Str("cancelled") then Success(Cancelled)
      else if v.Str? then
        Fail(key, "Invalid enum value. Expected " + StatusOptions + ", received '" + v.s + "'")
      else Fail(key, "Expected " + StatusOptions + ", received " + TypeName(v))
  }

  function StatusName(s: EventStatus): string {
    match s
    case Upcoming => "upcoming"
    case Past => "past"
    case Cancelled => "cancelled"
  }

  /** The issue of front matter that is not an object at all: its path is empty. */
  function NotAnObject(v: Value): seq<Issue> {
    [Issue([], TypeMessage("object", Some(v)))]
  }

  // ---------------------------------------------------------------------
  // What a typed record that passed its schema satisfies

  predicate AllSatisfy(xs: seq<string>, ok: string -> bool) {
    forall x :: x in xs ==> ok(x)
  }

  predicate OptSatisfies(o: Option<string>, ok: string -> bool) {
    o.None? || ok(o.value)
  }

  predicate TeamSizeValid(t: TeamSize) {
    match t
    case SizeText(s) => |s| >= 1
    case SizeCount(n) => n > 0
  }

  predicate FirmValid(fm: FirmFrontmatter, c: Checks) {
    && |fm.name| >= 1 && c.isUrl(fm.website)
    && AllSatisfy(fm.locations, NonEmpty) && AllSatisfy(fm.services, NonEmpty)
    && AllSatisfy(fm.industries, NonEmpty)
    && (fm.teamSize.None? || TeamSizeValid(fm.teamSize.value))
    && (fm.founded.None? || 1800 <= fm.founded.value <= 2100)
    && c.isDate(fm.lastVerified)
  }

  predicate CompanyValid(cm: CompanyFrontmatter, c: Checks) {
    && |cm.name| >= 1 && c.isUrl(cm.website) && OptSatisfies(cm.hq, NonEmpty)
    && |cm.seattlePresence| >= 1
    && AllSatisfy(cm.industries, NonEmpty) && AllSatisfy(cm.teamFocus, NonEmpty)
    && OptSatisfies(cm.hiringPage, c.isUrl) && OptSatisfies(cm.designSystem, c.isUrl)
    && c.isDate(cm.lastVerified)
  }

  predicate GuideValid(g: GuideFrontmatter, c: Checks) {
    && |g.title| >= 1 && |g.description| >= 1 && c.isDate(g.publishedAt)
    && OptSatisfies(g.updatedAt, c.isDate) && AllSatisfy(g.tags, NonEmpty)
  }

  predicate PlaybookValid(pb: PlaybookFrontmatter, c: Checks) {
    && |pb.title| >= 1 && |pb.description| >= 1 && c.isDate(pb.publishedAt)
    && AllSatisfy(pb.tags, NonEmpty)
    && (pb.artifactLinks.None? || AllSatisfy(pb.artifactLinks.value, c.isUrl))
  }

  predicate EventValid(e: EventFrontmatter, c: Checks) {
    && |e.title| >= 1 && |e.description| >= 1 && c.isDate(e.startAt)
    && OptSatisfies(e.endAt, c.isDate) && OptSatisfies(e.venue, NonEmpty)
    && OptSatisfies(e.address, NonEmpty) && OptSatisfies(e.host, NonEmpty)
    && OptSatisfies(e.ticketUrl, c.isUrl) && AllSatisfy(e.tags, NonEmpty)
  }

  predicate GroupValid(g: GroupFrontmatter, c: Checks) {
    && |g.name| >= 1 && |g.description| >= 1 && OptSatisfies(g.website, c.isUrl)
    && OptSatisfies(g.location, NonEmpty) && OptSatisfies(g.meetingCadence, NonEmpty)
    && AllSatisfy(g.tags, NonEmpty) && c.isDate(g.lastVerified)
  }

  // ---------------------------------------------------------------------
  // The six schemas

  /** Field table of `FirmFrontmatterSchema`. */
  predicate FirmFieldsOk(f: map<string, Value>, c: Checks) {
    && NonEmptyStringOk(Get(f, "name"))
    && RefinedStringOk(Get(f, "website"), c.isUrl)
    && ListOk(Get(f, "locations"), NonEmpty)
    && ListOk(Get(f, "services"), NonEmpty)
    && ListOk(Get(f, "industries"), NonEmpty)
    && ("teamSize" !in f || TeamSizeOk(f["teamSize"]))
    && ("founded" !in f || FoundedOk(f["founded"]))
    && ("featured" !in f || f["featured"].Bool?)
    && RefinedStringOk(Get(f, "lastVerified"), c.isDate)
  }

  function ValidateFirm(v: Value, c: Checks): (r: Result<FirmFrontmatter, seq<Issue>>)
    ensures r.Success? <==> v.Obj? && FirmFieldsOk(v.fields, c)
    ensures r.Failure? ==> r.error != []
    ensures r.Success? ==> FirmValid(r.value, c)
  {
    if !v.Obj? then Failure(NotAnObject(v))
    else
      var f := v.fields;
      var name := RequiredText(f, "name");
      var website := RequiredRefined(f, "website", c.isUrl, UrlMessage);
      var locations := TextList(f, "locations");
      var services := TextList(f, "services");
      var industries := TextList(f, "industries");
      var teamSize := OptionalTeamSize(f, "teamSize");
      var founded := OptionalFounded(f, "founded");
      var featured := OptionalFlag(f, "featured");
      var lastVerified := RequiredRefined(f, "lastVerified", c.isDate, DateMessage);
      var issues := IssuesOf(name) + IssuesOf(website) + IssuesOf(locations) + IssuesOf(services)
        + IssuesOf(industries) + IssuesOf(teamSize) + IssuesOf(founded) + IssuesOf(featured)
        + IssuesOf(lastVerified);
      if issues != [] then Failure(issues)
      else
        Success(FirmFrontmatter(name.value, website.value, locations.value, services.value,
          industries.value, teamSize.value, founded.value, featured.value, lastVerified.value))
  }

  /** Field table of `CompanyFrontmatterSchema`. */
  predicate CompanyFieldsOk(f: map<string, Value>, c: Checks) {
    && NonEmptyStringOk(Get(f, "name"))
    && RefinedStringOk(Get(f, "website"), c.isUrl)
    && ("hq" !in f || NonEmptyStringOk(Get(f, "hq")))
    && NonEmptyStringOk(Get(f, "seattlePresence"))
    && ListOk(Get(f, "industries"), NonEmpty)
    && ListOk(Get(f, "teamFocus"), NonEmpty)
    && ("hiringPage" !in f || RefinedStringOk(Get(f, "hiringPage"), c.isUrl))
    && ("designSystem" !in f || RefinedStringOk(Get(f, "designSystem"), c.isUrl))
    && ("featured" !in f || f["featured"].Bool?)
    && RefinedStringOk(Get(f, "lastVerified"), c.isDate)
  }

  function ValidateCompany(v: Value, c: Checks): (r: Result<CompanyFrontmatter, seq<Issue>>)
    ensures r.Success? <==> v.Obj? && CompanyFieldsOk(v.fields, c)
    ensures r.Failure? ==> r.error != []
    ensures r.Success? ==> CompanyValid(r.value, c)
  {
    if !v.Obj? then Failure(NotAnObject(v))
    else
      var f := v.fields;
      var name := RequiredText(f, "name");
      var website := RequiredRefined(f, "website", c.isUrl, UrlMessage);
      var hq := OptionalText(f, "hq");
      var presence := RequiredText(f, "seattlePresence");
      var industries := TextList(f, "industries");
      var teamFocus := TextList(f, "teamFocus");
      var hiringPage := OptionalRefined(f, "hiringPage", c.isUrl, UrlMessage);
      var designSystem := OptionalRefined(f, "designSystem", c.isUrl, UrlMessage);
      var featured := OptionalFlag(f, "featured");
      var lastVerified := RequiredRefined(f, "lastVerified", c.isDate, DateMessage);
      var issues := IssuesOf(name) + IssuesOf(website) + IssuesOf(hq) + IssuesOf(presence)
        + IssuesOf(industries) + IssuesOf(teamFocus) + IssuesOf(hiringPage)
        + IssuesOf(designSystem) + IssuesOf(featured) + IssuesOf(lastVerified);
      if issues != [] then Failure(issues)
      else
        Success(CompanyFrontmatter(name.value, website.value, hq.value, presence.value,
          industries.value, teamFocus.value, hiringPage.value, designSystem.value,
          featured.value, lastVerified.value))
  }

  /** Field table of `GuideFrontmatterSchema`. */
  predicate GuideFieldsOk(f: map<string, Value>, c: Checks) {
    && NonEmptyStringOk(Get(f, "title"))
    && NonEmptyStringOk(Get(f, "description"))
    && RefinedStringOk(Get(f, "publishedAt"), c.isDate)
    && ("updatedAt" !in f || RefinedStringOk(Get(f, "updatedAt"), c.isDate))
    && ListOk(Get(f, "tags"), NonEmpty)
    && ("draft" !in f || f["draft"].Bool?)
  }

  function ValidateGuide(v: Value, c: Checks): (r: Result<GuideFrontmatter, seq<Issue>>)
    ensures r.Success? <==> v.Obj? && GuideFieldsOk(v.fields, c)
    ensures r.Failure? ==> r.error != []
    ensures r.Success? ==> GuideValid(r.value, c)
  {
    if !v.Obj? then Failure(NotAnObject(v))
    else
      var f := v.fields;
      var title := RequiredText(f, "title");
      var description := RequiredText(f, "description");
      var publishedAt := RequiredRefined(f, "publishedAt", c.isDate, DateMessage);
      var updatedAt := OptionalRefined(f, "updatedAt", c.isDate, DateMessage);
      var tags := TextList(f, "tags");
      var draft := OptionalFlag(f, "draft");
      var issues := IssuesOf(title) + IssuesOf(description) + IssuesOf(publishedAt)
        + IssuesOf(updatedAt) + IssuesOf(tags) + IssuesOf(draft);
      if issues != [] then Failure(issues)
      else
        Success(GuideFrontmatter(title.value, description.value, publishedAt.value,
          updatedAt.value, tags.value, draft.value))
  }

  /** Field table of `PlaybookFrontmatterSchema`. */
  predicate PlaybookFieldsOk(f: map<string, Value>, c: Checks) {
    && NonEmptyStringOk(Get(f, "title"))
    && NonEmptyStringOk(Get(f, "description"))
    && RefinedStringOk(Get(f, "publishedAt"), c.isDate)
    && ListOk(Get(f, "tags"), NonEmpty)
    && ListOk(Get(f, "artifactLinks"), c.isUrl)
    && ("draft" !in f || f["draft"].Bool?)
  }

  function ValidatePlaybook(v: Value, c: Checks): (r: Result<PlaybookFrontmatter, seq<Issue>>)
    ensures r.Success? <==> v.Obj? && PlaybookFieldsOk(v.fields, c)
    ensures r.Failure? ==> r.error != []
    ensures r.Success? ==> PlaybookValid(r.value, c)
    ensures r.Success? ==> (r.value.artifactLinks.None? <==> "artifactLinks" !in v.fields)
  {
    if !v.Obj? then Failure(NotAnObject(v))
    else
      var f := v.fields;
      var title := RequiredText(f, "title");
      var description := RequiredText(f, "description");
      var publishedAt := RequiredRefined(f, "publishedAt", c.isDate, DateMessage);
      var tags := TextList(f, "tags");
      var links := OptionalList(f, "artifactLinks", c.isUrl, UrlMessage);
      var draft := OptionalFlag(f, "draft");
      var issues := IssuesOf(title) + IssuesOf(description) + IssuesOf(publishedAt)
        + IssuesOf(tags) + IssuesOf(links) + IssuesOf(draft);
      if issues != [] then Failure(issues)
      else
        Success(PlaybookFrontmatter(title.value, description.value, publishedAt.value,
          tags.value, links.value, draft.value))
  }

  /** Field table of `EventFrontmatterSchema`. */
  predicate EventFieldsOk(f: map<string, Value>, c: Checks) {
    && NonEmptyStringOk(Get(f, "title"))
    && NonEmptyStringOk(Get(f, "description"))
    && RefinedStringOk(Get(f, "startAt"), c.isDate)
    && ("endAt" !in f || RefinedStringOk(Get(f, "endAt"), c.isDate))
    && ("venue" !in f || NonEmptyStringOk(Get(f, "venue")))
    && ("address" !in f || NonEmptyStringOk(Get(f, "address")))
    && ("host" !in f || NonEmptyStringOk(Get(f, "host")))
    && ("ticketUrl" !in f || RefinedStringOk(Get(f, "ticketUrl"), c.isUrl))
    && ListOk(Get(f, "tags"), NonEmpty)
    && ("status" !in f || StatusOk(f["status"]))
  }

  function ValidateEvent(v: Value, c: Checks): (r: Result<EventFrontmatter, seq<Issue>>)
    ensures r.Success? <==> v.Obj? && EventFieldsOk(v.fields, c)
    ensures r.Failure? ==> r.error != []
    ensures r.Success? ==> EventValid(r.value, c)
    ensures r.Success? && "status" !in v.fields ==> r.value.status == Upcoming
  {
    if !v.Obj? then Failure(NotAnObject(v))
    else
      var f := v.fields;
      var title := RequiredText(f, "title");
      var description := RequiredText(f, "description");
      var startAt := RequiredRefined(f, "startAt", c.isDate, DateMessage);
      var endAt := OptionalRefined(f, "endAt", c.isDate, DateMessage);
      var venue := OptionalText(f, "venue");
      var address := OptionalText(f, "address");
      var host := OptionalText(f, "host");
      var ticketUrl := OptionalRefined(f, "ticketUrl", c.isUrl, UrlMessage);
      var tags := TextList(f, "tags");
      var status := StatusField(f, "status");
      var issues := IssuesOf(title) + IssuesOf(description) + IssuesOf(startAt)
        + IssuesOf(endAt) + IssuesOf(venue) + IssuesOf(address) + IssuesOf(host)
        + IssuesOf(ticketUrl) + IssuesOf(tags) + IssuesOf(status);
      if issues != [] then Failure(issues)
      else
        Success(EventFrontmatter(title.value, description.value, startAt.value, endAt.value,
          venue.value, address.value, host.value, ticketUrl.value, tags.value, status.value))
  }

  /** Field table of `GroupFrontmatterSchema`. */
  predicate GroupFieldsOk(f: map<string, Value>, c: Checks) {
    && NonEmptyStringOk(Get(f, "name"))
    && NonEmptyStringOk(Get(f, "description"))
    && ("website" !in f || RefinedStringOk(Get(f, "website"), c.isUrl))
    && ("location" !in f || NonEmptyStringOk(Get(f, "location")))
    && ("meetingCadence" !in f || NonEmptyStringOk(Get(f, "meetingCadence")))
    && ListOk(Get(f, "tags"), NonEmpty)
    && RefinedStringOk(Get(f, "lastVerified"), c.isDate)
  }

  function ValidateGroup(v: Value, c: Checks): (r: Result<GroupFrontmatter, seq<Issue>>)
    ensures r.Success? <==> v.Obj? && GroupFieldsOk(v.fields, c)
    ensures r.Failure? ==> r.error != []
    ensures r.Success? ==> GroupValid(r.value, c)
  {
    if !v.Obj? then Failure(NotAnObject(v))
    else
      var f := v.fields;
      var name := RequiredText(f, "name");
      var description := RequiredText(f, "description");
      var website := OptionalRefined(f, "website", c.isUrl, UrlMessage);
      var location := OptionalText(f, "location");
      var cadence := OptionalText(f, "meetingCadence");
      var tags := TextList(f, "tags");
      var lastVerified := RequiredRefined(f, "lastVerified", c.isDate, DateMessage);
      var issues := IssuesOf(name) + IssuesOf(description) + IssuesOf(website)
        + IssuesOf(location) + IssuesOf(cadence) + IssuesOf(tags) + IssuesOf(lastVerified);
      if issues != [] then Failure(issues)
      else
        Success(GroupFrontmatter(name.value, description.value, website.value, location.value,
          cadence.value, tags.value, lastVerified.value))
  }
}
