/** Typed front matter written back as YAML values, and the round trips that
    tie the schemas of src/lib/content/schemas.ts to their output: a record
    that satisfies its schema's rules validates to itself, so validating the
    output of a validation changes nothing, and keys a schema does not name
    never affect its result. */
module FrontmatterCodec {
  import opened Wrappers
  import opened Schemas
  import opened Text

  function Put(m: map<string, Value>, key: string, v: Option<Value>): map<string, Value> {
    if v.Some? then m[key := v.value] else m
  }

  /** A key other than the one put keeps its entry, or its absence. */
  lemma PutKeeps(m: map<string, Value>, key: string, v: Option<Value>, k: string)
    requires k != key
    ensures (k in Put(m, key, v) <==> k in m) && (k in m ==> Put(m, key, v)[k] == m[k])
  {
  }

  /** The key put is present exactly when it was already or a value is put. */
  lemma PutSets(m: map<string, Value>, key: string, v: Option<Value>)
    ensures key in Put(m, key, v) <==> key in m || v.Some?
    ensures v.Some? ==> Put(m, key, v)[key] == v.value
  {
  }

  function StrList(xs: seq<string>): (r: seq<Value>)
    ensures |r| == |xs| && forall i :: 0 <= i < |xs| ==> r[i] == Str(xs[i])
  {
    seq(|xs|, i requires 0 <= i < |xs| => Str(xs[i]))
  }

  function OptStr(o: Option<string>): Option<Value> {
    if o.Some? then Some(Str(o.value)) else None
  }

  function OptFlag(o: Option<bool>): Option<Value> {
    if o.Some? then Some(Bool(o.value)) else None
  }

  function EncodeTeamSize(t: TeamSize): Value {
    match t
    case SizeText(s) => Str(s)
    case SizeCount(n) => Num(n as real)
  }

  function EncodeFirm(fm: FirmFrontmatter): Value {
    var m := map[
      "name" := Str(fm.name), "website" := Str(fm.website),
      "locations" := Arr(StrList(fm.locations)), "services" := Arr(StrList(fm.services)),
      "industries" := Arr(StrList(fm.industries)), "lastVerified" := Str(fm.lastVerified)];
    var m := Put(m, "teamSize", if fm.teamSize.Some? then Some(EncodeTeamSize(fm.teamSize.value)) else None);
    var m := Put(m, "founded", if fm.founded.Some? then Some(Num(fm.founded.value as real)) else None);
    Obj(Put(m, "featured", OptFlag(fm.featured)))
  }

  function EncodeCompany(cm: CompanyFrontmatter): Value {
    var m := map[
      "name" := Str(cm.name), "website" := Str(cm.website),
      "seattlePresence" := Str(cm.seattlePresence),
      "industries" := Arr(StrList(cm.industries)), "teamFocus" := Arr(StrList(cm.teamFocus)),
      "lastVerified" := Str(cm.lastVerified)];
    var m := Put(m, "hq", OptStr(cm.hq));
    var m := Put(m, "hiringPage", OptStr(cm.hiringPage));
    var m := Put(m, "designSystem", OptStr(cm.designSystem));
    Obj(Put(m, "featured", OptFlag(cm.featured)))
  }

  function EncodeGuide(g: GuideFrontmatter): Value {
    var m := map[
      "title" := Str(g.title), "description" := Str(g.description),
      "publishedAt" := Str(g.publishedAt), "tags" := Arr(StrList(g.tags))];
    var m := Put(m, "updatedAt", OptStr(g.updatedAt));
    Obj(Put(m, "draft", OptFlag(g.draft)))
  }

  function EncodePlaybook(pb: PlaybookFrontmatter): Value {
    var m := map[
      "title" := Str(pb.title), "description" := Str(pb.description),
      "publishedAt" := Str(pb.publishedAt), "tags" := Arr(StrList(pb.tags))];
    var m := Put(m, "artifactLinks",
      if pb.artifactLinks.Some? then Some(Arr(StrList(pb.artifactLinks.value))) else None);
    Obj(Put(m, "draft", OptFlag(pb.draft)))
  }

  function EncodeEvent(e: EventFrontmatter): Value {
    var m := map[
      "title" := Str(e.title), "description" := Str(e.description),
      "startAt" := Str(e.startAt), "tags" := Arr(StrList(e.tags)),
      "status" := Str(StatusName(e.status))];
    var m := Put(m, "endAt", OptStr(e.endAt));
    var m := Put(m, "venue", OptStr(e.venue));
    var m := Put(m, "address", OptStr(e.address));
    var m := Put(m, "host", OptStr(e.host));
    Obj(Put(m, "ticketUrl", OptStr(e.ticketUrl)))
  }

  function EncodeGroup(g: GroupFrontmatter): Value {
    var m := map[
      "name" := Str(g.name), "description" := Str(g.description),
      "tags" := Arr(StrList(g.tags)), "lastVerified" := Str(g.lastVerified)];
    var m := Put(m, "website", OptStr(g.website));
    var m := Put(m, "location", OptStr(g.location));
    Obj(Put(m, "meetingCadence", OptStr(g.meetingCadence)))
  }

  // ---------------------------------------------------------------------
  // Field round trips

  lemma {:induction false} ListRoundTrip(f: map<string, Value>, key: string, xs: seq<string>,
                                         ok: string -> bool, message: string)
    requires key in f && f[key] == Arr(StrList(xs)) && AllSatisfy(xs, ok)
    ensures OptionalList(f, key, ok, message) == Success(Some(xs))
  {
    var items := StrList(xs);
    forall x | x in items
      ensures ElementOk(x, ok)
    {
      var i :| 0 <= i < |items| && items[i] == x;
      assert xs[i] in xs;
    }
    var r := OptionalList(f, key, ok, message);
    assert r.Success?;
    assert r.value.value == xs;
  }

  lemma {:induction false} TextListRoundTrip(f: map<string, Value>, key: string, xs: seq<string>)
    requires key in f && f[key] == Arr(StrList(xs)) && AllSatisfy(xs, NonEmpty)
    ensures TextList(f, key) == Success(xs)
  {
    ListRoundTrip(f, key, xs, NonEmpty, EmptyStringMessage);
  }

  lemma TeamSizeRoundTrip(f: map<string, Value>, key: string, t: Option<TeamSize>)
    requires t.None? ==> key !in f
    requires t.Some? ==> key in f && f[key] == EncodeTeamSize(t.value) && TeamSizeValid(t.value)
    ensures OptionalTeamSize(f, key) == Success(t)
  {
    if t.Some? && t.value.SizeCount? {
      assert IsInt(t.value.count as real);
    }
  }

  lemma FoundedRoundTrip(f: map<string, Value>, key: string, y: Option<int>)
    requires y.None? ==> key !in f
    requires y.Some? ==> key in f && f[key] == Num(y.value as real) && 1800 <= y.value <= 2100
    ensures OptionalFounded(f, key) == Success(y)
  {
    if y.Some? {
      assert IsInt(y.value as real);
    }
  }

  // ---------------------------------------------------------------------
  // Schema round trips: a valid record validates to itself

  /** A record whose every field validates to the record's own value. */
  lemma FirmFromFields(f: map<string, Value>, c: Checks, fm: FirmFrontmatter)
    requires RequiredText(f, "name") == Success(fm.name)
    requires RequiredRefined(f, "website", c.isUrl, UrlMessage) == Success(fm.website)
    requires TextList(f, "locations") == Success(fm.locations)
    requires TextList(f, "services") == Success(fm.services)
    requires TextList(f, "industries") == Success(fm.industries)
    requires OptionalTeamSize(f, "teamSize") == Success(fm.teamSize)
    requires OptionalFounded(f, "founded") == Success(fm.founded)
    requires OptionalFlag(f, "featured") == Success(fm.featured)
    requires RequiredRefined(f, "lastVerified", c.isDate, DateMessage) == Success(fm.lastVerified)
    ensures ValidateFirm(Obj(f), c) == Success(fm)
  {
  }

  lemma FirmRoundTrip(fm: FirmFrontmatter, c: Checks)
    requires FirmValid(fm, c)
    ensures ValidateFirm(EncodeFirm(fm), c) == Success(fm)
  {
    var f := EncodeFirm(fm).fields;
    FirmTextFields(fm, c);
    FirmListFields(fm);
    FirmOptionalFields(fm);
    FirmFromFields(f, c, fm);
  }

  lemma FirmTextFields(fm: FirmFrontmatter, c: Checks)
    requires FirmValid(fm, c)
    ensures var f := EncodeFirm(fm).fields;
      && RequiredText(f, "name") == Success(fm.name)
      && RequiredRefined(f, "website", c.isUrl, UrlMessage) == Success(fm.website)
      && RequiredRefined(f, "lastVerified", c.isDate, DateMessage) == Success(fm.lastVerified)
  {
    var f := EncodeFirm(fm).fields;
    assert f["name"] == Str(fm.name);
    assert f["website"] == Str(fm.website);
    assert f["lastVerified"] == Str(fm.lastVerified);
  }

  lemma FirmListFields(fm: FirmFrontmatter)
    requires AllSatisfy(fm.locations, NonEmpty) && AllSatisfy(fm.services, NonEmpty)
    requires AllSatisfy(fm.industries, NonEmpty)
    ensures var f := EncodeFirm(fm).fields;
      && TextList(f, "locations") == Success(fm.locations)
      && TextList(f, "services") == Success(fm.services)
      && TextList(f, "industries") == Success(fm.industries)
  {
    var f := EncodeFirm(fm).fields;
    assert f["locations"] == Arr(StrList(fm.locations));
    assert f["services"] == Arr(StrList(fm.services));
    assert f["industries"] == Arr(StrList(fm.industries));
    TextListRoundTrip(f, "locations", fm.locations);
    TextListRoundTrip(f, "services", fm.services);
    TextListRoundTrip(f, "industries", fm.industries);
  }

  lemma FirmOptionalFields(fm: FirmFrontmatter)
    requires fm.teamSize.None? || TeamSizeValid(fm.teamSize.value)
    requires fm.founded.None? || 1800 <= fm.founded.value <= 2100
    ensures var f := EncodeFirm(fm).fields;
      && OptionalTeamSize(f, "teamSize") == Success(fm.teamSize)
      && OptionalFounded(f, "founded") == Success(fm.founded)
      && OptionalFlag(f, "featured") == Success(fm.featured)
  {
    var f := EncodeFirm(fm).fields;
    assert "teamSize" in f <==> fm.teamSize.Some?;
    assert fm.teamSize.Some? ==> f["teamSize"] == EncodeTeamSize(fm.teamSize.value);
    assert "founded" in f <==> fm.founded.Some?;
    assert fm.founded.Some? ==> f["founded"] == Num(fm.founded.value as real);
    assert "featured" in f <==> fm.featured.Some?;
    assert fm.featured.Some? ==> f["featured"] == Bool(fm.featured.value);
    TeamSizeRoundTrip(f, "teamSize", fm.teamSize);
    FoundedRoundTrip(f, "founded", fm.founded);
  }

  lemma CompanyFromFields(f: map<string, Value>, c: Checks, cm: CompanyFrontmatter)
    requires RequiredText(f, "name") == Success(cm.name)
    requires RequiredRefined(f, "website", c.isUrl, UrlMessage) == Success(cm.website)
    requires OptionalText(f, "hq") == Success(cm.hq)
    requires RequiredText(f, "seattlePresence") == Success(cm.seattlePresence)
    requires TextList(f, "industries") == Success(cm.industries)
    requires TextList(f, "teamFocus") == Success(cm.teamFocus)
    requires OptionalRefined(f, "hiringPage", c.isUrl, UrlMessage) == Success(cm.hiringPage)
    requires OptionalRefined(f, "designSystem", c.isUrl, UrlMessage) == Success(cm.designSystem)
    requires OptionalFlag(f, "featured") == Success(cm.featured)
    requires RequiredRefined(f, "lastVerified", c.isDate, DateMessage) == Success(cm.lastVerified)
    ensures ValidateCompany(Obj(f), c) == Success(cm)
  {
  }

  lemma CompanyRoundTrip(cm: CompanyFrontmatter, c: Checks)
    requires CompanyValid(cm, c)
    ensures ValidateCompany(EncodeCompany(cm), c) == Success(cm)
  {
    CompanyRequiredFields(cm, c);
    CompanyListFields(cm);
    CompanyOptionalFields(cm, c);
    CompanyFromFields(EncodeCompany(cm).fields, c, cm);
  }

  lemma CompanyRequiredFields(cm: CompanyFrontmatter, c: Checks)
    requires CompanyValid(cm, c)
    ensures var f := EncodeCompany(cm).fields;
      && RequiredText(f, "name") == Success(cm.name)
      && RequiredRefined(f, "website", c.isUrl, UrlMessage) == Success(cm.website)
      && RequiredText(f, "seattlePresence") == Success(cm.seattlePresence)
      && RequiredRefined(f, "lastVerified", c.isDate, DateMessage) == Success(cm.lastVerified)
  {
    var m0 := map[
      "name" := Str(cm.name), "website" := Str(cm.website),
      "seattlePresence" := Str(cm.seattlePresence),
      "industries" := Arr(StrList(cm.industries)), "teamFocus" := Arr(StrList(cm.teamFocus)),
      "lastVerified" := Str(cm.lastVerified)];
    var m1 := Put(m0, "hq", OptStr(cm.hq));
    var m2 := Put(m1, "hiringPage", OptStr(cm.hiringPage));
    var m3 := Put(m2, "designSystem", OptStr(cm.designSystem));
    var f := Put(m3, "featured", OptFlag(cm.featured));
    assert EncodeCompany(cm).fields == f;
    forall k | k in {"name", "website", "seattlePresence", "lastVerified"}
      ensures k in f && f[k] == m0[k]
    {
      PutKeeps(m0, "hq", OptStr(cm.hq), k);
      PutKeeps(m1, "hiringPage", OptStr(cm.hiringPage), k);
      PutKeeps(m2, "designSystem", OptStr(cm.designSystem), k);
      PutKeeps(m3, "featured", OptFlag(cm.featured), k);
    }
  }

  lemma CompanyListFields(cm: CompanyFrontmatter)
    requires AllSatisfy(cm.industries, NonEmpty) && AllSatisfy(cm.teamFocus, NonEmpty)
    ensures var f := EncodeCompany(cm).fields;
      && TextList(f, "industries") == Success(cm.industries)
      && TextList(f, "teamFocus") == Success(cm.teamFocus)
  {
    var f := EncodeCompany(cm).fields;
    assert f["industries"] == Arr(StrList(cm.industries));
    assert f["teamFocus"] == Arr(StrList(cm.teamFocus));
    TextListRoundTrip(f, "industries", cm.industries);
    TextListRoundTrip(f, "teamFocus", cm.teamFocus);
  }

  lemma CompanyOptionalFields(cm: CompanyFrontmatter, c: Checks)
    requires CompanyValid(cm, c)
    ensures var f := EncodeCompany(cm).fields;
      && OptionalText(f, "hq") == Success(cm.hq)
      && OptionalRefined(f, "hiringPage", c.isUrl, UrlMessage) == Success(cm.hiringPage)
      && OptionalRefined(f, "designSystem", c.isUrl, UrlMessage) == Success(cm.designSystem)
      && OptionalFlag(f, "featured") == Success(cm.featured)
  {
    var f := EncodeCompany(cm).fields;
    assert "hq" in f <==> cm.hq.Some?;
    assert cm.hq.Some? ==> f["hq"] == Str(cm.hq.value);
    assert "hiringPage" in f <==> cm.hiringPage.Some?;
    assert cm.hiringPage.Some? ==> f["hiringPage"] == Str(cm.hiringPage.value);
    assert "designSystem" in f <==> cm.designSystem.Some?;
    assert cm.designSystem.Some? ==> f["designSystem"] == Str(cm.designSystem.value);
    assert "featured" in f <==> cm.featured.Some?;
    assert cm.featured.Some? ==> f["featured"] == Bool(cm.featured.value);
  }

  lemma GuideFromFields(f: map<string, Value>, c: Checks, g: GuideFrontmatter)
    requires RequiredText(f, "title") == Success(g.title)
    requires RequiredText(f, "description") == Success(g.description)
    requires RequiredRefined(f, "publishedAt", c.isDate, DateMessage) == Success(g.publishedAt)
    requires OptionalRefined(f, "updatedAt", c.isDate, DateMessage) == Success(g.updatedAt)
    requires TextList(f, "tags") == Success(g.tags)
    requires OptionalFlag(f, "draft") == Success(g.draft)
    ensures ValidateGuide(Obj(f), c) == Success(g)
  {
  }

  lemma GuideRoundTrip(g: GuideFrontmatter, c: Checks)
    requires GuideValid(g, c)
    ensures ValidateGuide(EncodeGuide(g), c) == Success(g)
  {
    var f := EncodeGuide(g).fields;
    GuideRequiredFields(g, c);
    GuideOptionalFields(g, c);
    GuideFromFields(f, c, g);
  }

  lemma GuideRequiredFields(g: GuideFrontmatter, c: Checks)
    requires GuideValid(g, c)
    ensures var f := EncodeGuide(g).fields;
      && RequiredText(f, "title") == Success(g.title)
      && RequiredText(f, "description") == Success(g.description)
      && RequiredRefined(f, "publishedAt", c.isDate, DateMessage) == Success(g.publishedAt)
      && TextList(f, "tags") == Success(g.tags)
  {
    var f := EncodeGuide(g).fields;
    assert f["title"] == Str(g.title);
    assert f["description"] == Str(g.description);
    assert f["publishedAt"] == Str(g.publishedAt);
    assert f["tags"] == Arr(StrList(g.tags));
    TextListRoundTrip(f, "tags", g.tags);
  }

  lemma GuideOptionalFields(g: GuideFrontmatter, c: Checks)
    requires GuideValid(g, c)
    ensures var f := EncodeGuide(g).fields;
      && OptionalRefined(f, "updatedAt", c.isDate, DateMessage) == Success(g.updatedAt)
      && OptionalFlag(f, "draft") == Success(g.draft)
  {
    var f := EncodeGuide(g).fields;
    assert "updatedAt" in f <==> g.updatedAt.Some?;
    assert g.updatedAt.Some? ==> f["updatedAt"] == Str(g.updatedAt.value);
    assert "draft" in f <==> g.draft.Some?;
    assert g.draft.Some? ==> f["draft"] == Bool(g.draft.value);
  }

  lemma PlaybookFromFields(f: map<string, Value>, c: Checks, pb: PlaybookFrontmatter)
    requires RequiredText(f, "title") == Success(pb.title)
    requires RequiredText(f, "description") == Success(pb.description)
    requires RequiredRefined(f, "publishedAt", c.isDate, DateMessage) == Success(pb.publishedAt)
    requires TextList(f, "tags") == Success(pb.tags)
    requires OptionalList(f, "artifactLinks", c.isUrl, UrlMessage) == Success(pb.artifactLinks)
    requires OptionalFlag(f, "draft") == Success(pb.draft)
    ensures ValidatePlaybook(Obj(f), c) == Success(pb)
  {
  }

  lemma PlaybookRoundTrip(pb: PlaybookFrontmatter, c: Checks)
    requires PlaybookValid(pb, c)
    ensures ValidatePlaybook(EncodePlaybook(pb), c) == Success(pb)
  {
    var f := EncodePlaybook(pb).fields;
    PlaybookRequiredFields(pb, c);
    PlaybookOptionalFields(pb, c);
    PlaybookFromFields(f, c, pb);
  }

  lemma PlaybookRequiredFields(pb: PlaybookFrontmatter, c: Checks)
    requires PlaybookValid(pb, c)
    ensures var f := EncodePlaybook(pb).fields;
      && RequiredText(f, "title") == Success(pb.title)
      && RequiredText(f, "description") == Success(pb.description)
      && RequiredRefined(f, "publishedAt", c.isDate, DateMessage) == Success(pb.publishedAt)
      && TextList(f, "tags") == Success(pb.tags)
  {
    var f := EncodePlaybook(pb).fields;
    assert f["title"] == Str(pb.title);
    assert f["description"] == Str(pb.description);
    assert f["publishedAt"] == Str(pb.publishedAt);
    assert f["tags"] == Arr(StrList(pb.tags));
    TextListRoundTrip(f, "tags", pb.tags);
  }

  lemma PlaybookOptionalFields(pb: PlaybookFrontmatter, c: Checks)
    requires PlaybookValid(pb, c)
    ensures var f := EncodePlaybook(pb).fields;
      && OptionalList(f, "artifactLinks", c.isUrl, UrlMessage) == Success(pb.artifactLinks)
      && OptionalFlag(f, "draft") == Success(pb.draft)
  {
    var f := EncodePlaybook(pb).fields;
    assert "artifactLinks" in f <==> pb.artifactLinks.Some?;
    assert "draft" in f <==> pb.draft.Some?;
    assert pb.draft.Some? ==> f["draft"] == Bool(pb.draft.value);
    if pb.artifactLinks.Some? {
      assert f["artifactLinks"] == Arr(StrList(pb.artifactLinks.value));
      ListRoundTrip(f, "artifactLinks", pb.artifactLinks.value, c.isUrl, UrlMessage);
    }
  }

  lemma EventFromFields(f: map<string, Value>, c: Checks, e: EventFrontmatter)
    requires RequiredText(f, "title") == Success(e.title)
    requires RequiredText(f, "description") == Success(e.description)
    requires RequiredRefined(f, "startAt", c.isDate, DateMessage) == Success(e.startAt)
    requires OptionalRefined(f, "endAt", c.isDate, DateMessage) == Success(e.endAt)
    requires OptionalText(f, "venue") == Success(e.venue)
    requires OptionalText(f, "address") == Success(e.address)
    requires OptionalText(f, "host") == Success(e.host)
    requires OptionalRefined(f, "ticketUrl", c.isUrl, UrlMessage) == Success(e.ticketUrl)
    requires TextList(f, "tags") == Success(e.tags)
    requires StatusField(f, "status") == Success(e.status)
    ensures ValidateEvent(Obj(f), c) == Success(e)
  {
  }

  lemma EventRoundTrip(e: EventFrontmatter, c: Checks)
    requires EventValid(e, c)
    ensures ValidateEvent(EncodeEvent(e), c) == Success(e)
  {
    EventRequiredFields(e, c);
    EventTagsAndStatus(e);
    EventOptionalFields(e, c);
    EventFromFields(EncodeEvent(e).fields, c, e);
  }

  lemma EventRequiredFields(e: EventFrontmatter, c: Checks)
    requires EventValid(e, c)
    ensures var f := EncodeEvent(e).fields;
      && RequiredText(f, "title") == Success(e.title)
      && RequiredText(f, "description") == Success(e.description)
      && RequiredRefined(f, "startAt", c.isDate, DateMessage) == Success(e.startAt)
  {
    var m0 := EventBase(e);
    var f := EventPuts(e, m0);
    EventFieldsSplit(e);
    forall k | k in {"title", "description", "startAt"}
      ensures k in f && f[k] == m0[k]
    {
      EventPutsKeep(e, m0, k);
    }
  }

  /** The entries every event has. */
  function EventBase(e: EventFrontmatter): map<string, Value> {
    map[
      "title" := Str(e.title), "description" := Str(e.description),
      "startAt" := Str(e.startAt), "tags" := Arr(StrList(e.tags)),
      "status" := Str(StatusName(e.status))]
  }

  /** The optional entries put over `m`. */
  function EventPuts(e: EventFrontmatter, m: map<string, Value>): map<string, Value> {
    var m := Put(m, "endAt", OptStr(e.endAt));
    var m := Put(m, "venue", OptStr(e.venue));
    var m := Put(m, "address", OptStr(e.address));
    var m := Put(m, "host", OptStr(e.host));
    Put(m, "ticketUrl", OptStr(e.ticketUrl))
  }

  lemma EventFieldsSplit(e: EventFrontmatter)
    ensures EncodeEvent(e).fields == EventPuts(e, EventBase(e))
  {
  }

  /** Keys no optional entry uses keep their entry in `m`. */
  lemma EventPutsKeep(e: EventFrontmatter, m: map<string, Value>, k: string)
    requires k !in {"endAt", "venue", "address", "host", "ticketUrl"}
    ensures (k in EventPuts(e, m) <==> k in m) && (k in m ==> EventPuts(e, m)[k] == m[k])
  {
    var m1 := Put(m, "endAt", OptStr(e.endAt));
    var m2 := Put(m1, "venue", OptStr(e.venue));
    var m3 := Put(m2, "address", OptStr(e.address));
    var m4 := Put(m3, "host", OptStr(e.host));
    PutKeeps(m, "endAt", OptStr(e.endAt), k);
    PutKeeps(m1, "venue", OptStr(e.venue), k);
    PutKeeps(m2, "address", OptStr(e.address), k);
    PutKeeps(m3, "host", OptStr(e.host), k);
    PutKeeps(m4, "ticketUrl", OptStr(e.ticketUrl), k);
  }

  lemma EventTagsAndStatus(e: EventFrontmatter)
    requires AllSatisfy(e.tags, NonEmpty)
    ensures var f := EncodeEvent(e).fields;
      && TextList(f, "tags") == Success(e.tags)
      && StatusField(f, "status") == Success(e.status)
  {
    var m0 := EventBase(e);
    var f := EventPuts(e, m0);
    EventFieldsSplit(e);
    EventPutsKeep(e, m0, "tags");
    EventPutsKeep(e, m0, "status");
    TextListRoundTrip(f, "tags", e.tags);
  }

  /** Each optional entry is present exactly when the event has that field. */
  lemma EventPutsOptional(e: EventFrontmatter, m: map<string, Value>)
    requires "endAt" !in m && "venue" !in m && "address" !in m && "host" !in m && "ticketUrl" !in m
    ensures var f := EventPuts(e, m);
      && ("endAt" in f <==> e.endAt.Some?) && (e.endAt.Some? ==> f["endAt"] == Str(e.endAt.value))
      && ("venue" in f <==> e.venue.Some?) && (e.venue.Some? ==> f["venue"] == Str(e.venue.value))
      && ("address" in f <==> e.address.Some?) && (e.address.Some? ==> f["address"] == Str(e.address.value))
      && ("host" in f <==> e.host.Some?) && (e.host.Some? ==> f["host"] == Str(e.host.value))
      && ("ticketUrl" in f <==> e.ticketUrl.Some?) && (e.ticketUrl.Some? ==> f["ticketUrl"] == Str(e.ticketUrl.value))
  {
    var m1 := Put(m, "endAt", OptStr(e.endAt));
    var m2 := Put(m1, "venue", OptStr(e.venue));
    var m3 := Put(m2, "address", OptStr(e.address));
    var m4 := Put(m3, "host", OptStr(e.host));
    var f := Put(m4, "ticketUrl", OptStr(e.ticketUrl));
    PutSets(m, "endAt", OptStr(e.endAt));
    PutKeeps(m1, "venue", OptStr(e.venue), "endAt");
    PutKeeps(m2, "address", OptStr(e.address), "endAt");
    PutKeeps(m3, "host", OptStr(e.host), "endAt");
    PutKeeps(m4, "ticketUrl", OptStr(e.ticketUrl), "endAt");
    PutSets(m1, "venue", OptStr(e.venue));
    PutKeeps(m2, "address", OptStr(e.address), "venue");
    PutKeeps(m3, "host", OptStr(e.host), "venue");
    PutKeeps(m4, "ticketUrl", OptStr(e.ticketUrl), "venue");
    PutSets(m2, "address", OptStr(e.address));
    PutKeeps(m3, "host", OptStr(e.host), "address");
    PutKeeps(m4, "ticketUrl", OptStr(e.ticketUrl), "address");
    PutSets(m3, "host", OptStr(e.host));
    PutKeeps(m4, "ticketUrl", OptStr(e.ticketUrl), "host");
    PutSets(m4, "ticketUrl", OptStr(e.ticketUrl));
  }

  lemma EventOptionalFields(e: EventFrontmatter, c: Checks)
    requires EventValid(e, c)
    ensures var f := EncodeEvent(e).fields;
      && OptionalRefined(f, "endAt", c.isDate, DateMessage) == Success(e.endAt)
      && OptionalText(f, "venue") == Success(e.venue)
      && OptionalText(f, "address") == Success(e.address)
      && OptionalText(f, "host") == Success(e.host)
      && OptionalRefined(f, "ticketUrl", c.isUrl, UrlMessage) == Success(e.ticketUrl)
  {
    EventFieldsSplit(e);
    EventPutsOptional(e, EventBase(e));
  }

  lemma GroupFromFields(f: map<string, Value>, c: Checks, g: GroupFrontmatter)
    requires RequiredText(f, "name") == Success(g.name)
    requires RequiredText(f, "description") == Success(g.description)
    requires OptionalRefined(f, "website", c.isUrl, UrlMessage) == Success(g.website)
    requires OptionalText(f, "location") == Success(g.location)
    requires OptionalText(f, "meetingCadence") == Success(g.meetingCadence)
    requires TextList(f, "tags") == Success(g.tags)
    requires RequiredRefined(f, "lastVerified", c.isDate, DateMessage) == Success(g.lastVerified)
    ensures ValidateGroup(Obj(f), c) == Success(g)
  {
  }

  lemma GroupRoundTrip(g: GroupFrontmatter, c: Checks)
    requires GroupValid(g, c)
    ensures ValidateGroup(EncodeGroup(g), c) == Success(g)
  {
    var f := EncodeGroup(g).fields;
    GroupRequiredFields(g, c);
    GroupOptionalFields(g, c);
    GroupFromFields(f, c, g);
  }

  lemma GroupRequiredFields(g: GroupFrontmatter, c: Checks)
    requires GroupValid(g, c)
    ensures var f := EncodeGroup(g).fields;
      && RequiredText(f, "name") == Success(g.name)
      && RequiredText(f, "description") == Success(g.description)
      && TextList(f, "tags") == Success(g.tags)
      && RequiredRefined(f, "lastVerified", c.isDate, DateMessage) == Success(g.lastVerified)
  {
    var f := EncodeGroup(g).fields;
    assert f["name"] == Str(g.name);
    assert f["description"] == Str(g.description);
    assert f["tags"] == Arr(StrList(g.tags));
    assert f["lastVerified"] == Str(g.lastVerified);
    TextListRoundTrip(f, "tags", g.tags);
  }

  lemma GroupOptionalFields(g: GroupFrontmatter, c: Checks)
    requires GroupValid(g, c)
    ensures var f := EncodeGroup(g).fields;
      && OptionalRefined(f, "website", c.isUrl, UrlMessage) == Success(g.website)
      && OptionalText(f, "location") == Success(g.location)
      && OptionalText(f, "meetingCadence") == Success(g.meetingCadence)
  {
    var f := EncodeGroup(g).fields;
    assert "website" in f <==> g.website.Some?;
    assert g.website.Some? ==> f["website"] == Str(g.website.value);
    assert "location" in f <==> g.location.Some?;
    assert g.location.Some? ==> f["location"] == Str(g.location.value);
    assert "meetingCadence" in f <==> g.meetingCadence.Some?;
    assert g.meetingCadence.Some? ==> f["meetingCadence"] == Str(g.meetingCadence.value);
  }

  // ---------------------------------------------------------------------
  // Validation is idempotent

  lemma FirmIdempotent(v: Value, c: Checks)
    requires ValidateFirm(v, c).Success?
    ensures ValidateFirm(EncodeFirm(ValidateFirm(v, c).value), c) == ValidateFirm(v, c)
  {
    FirmRoundTrip(ValidateFirm(v, c).value, c);
  }

  lemma CompanyIdempotent(v: Value, c: Checks)
    requires ValidateCompany(v, c).Success?
    ensures ValidateCompany(EncodeCompany(ValidateCompany(v, c).value), c) == ValidateCompany(v, c)
  {
    CompanyRoundTrip(ValidateCompany(v, c).value, c);
  }

  lemma GuideIdempotent(v: Value, c: Checks)
    requires ValidateGuide(v, c).Success?
    ensures ValidateGuide(EncodeGuide(ValidateGuide(v, c).value), c) == ValidateGuide(v, c)
  {
    GuideRoundTrip(ValidateGuide(v, c).value, c);
  }

  lemma PlaybookIdempotent(v: Value, c: Checks)
    requires ValidatePlaybook(v, c).Success?
    ensures ValidatePlaybook(EncodePlaybook(ValidatePlaybook(v, c).value), c) == ValidatePlaybook(v, c)
  {
    PlaybookRoundTrip(ValidatePlaybook(v, c).value, c);
  }

  lemma EventIdempotent(v: Value, c: Checks)
    requires ValidateEvent(v, c).Success?
    ensures ValidateEvent(EncodeEvent(ValidateEvent(v, c).value), c) == ValidateEvent(v, c)
  {
    EventRoundTrip(ValidateEvent(v, c).value, c);
  }

  lemma GroupIdempotent(v: Value, c: Checks)
    requires ValidateGroup(v, c).Success?
    ensures ValidateGroup(EncodeGroup(ValidateGroup(v, c).value), c) == ValidateGroup(v, c)
  {
    GroupRoundTrip(ValidateGroup(v, c).value, c);
  }

  // ---------------------------------------------------------------------
  // Keys a schema does not name are dropped

  const GuideKeys: set<string> := {"title", "description", "publishedAt", "updatedAt", "tags", "draft"}

  /** Each field reader looks only at its own key. */
  lemma ReadersAgree(f: map<string, Value>, g: map<string, Value>, key: string, ok: string -> bool, message: string)
    requires Get(f, key) == Get(g, key)
    ensures RequiredText(f, key) == RequiredText(g, key)
    ensures RequiredRefined(f, key, ok, message) == RequiredRefined(g, key, ok, message)
    ensures OptionalRefined(f, key, ok, message) == OptionalRefined(g, key, ok, message)
    ensures TextList(f, key) == TextList(g, key)
    ensures OptionalFlag(f, key) == OptionalFlag(g, key)
  {
    assert key in f <==> key in g;
  }

  /** A guide's result does not depend on any key outside its schema; in
      particular a `featured` flag in a guide's front matter is discarded. */
  lemma GuideIgnoresUnknownKeys(f: map<string, Value>, k: string, x: Value, c: Checks)
    requires k !in GuideKeys
    ensures ValidateGuide(Obj(f[k := x]), c) == ValidateGuide(Obj(f), c)
  {
    var g := f[k := x];
    ReadersAgree(g, f, "title", c.isDate, DateMessage);
    ReadersAgree(g, f, "description", c.isDate, DateMessage);
    ReadersAgree(g, f, "publishedAt", c.isDate, DateMessage);
    ReadersAgree(g, f, "updatedAt", c.isDate, DateMessage);
    ReadersAgree(g, f, "tags", c.isDate, DateMessage);
    ReadersAgree(g, f, "draft", c.isDate, DateMessage);
  }
}
