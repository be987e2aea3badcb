/** The calendar feed of src/app/community/events.ics/route.ts: the upcoming
    events as iCalendar VEVENTs (RFC 5545), one content line per property,
    the lines joined with CRLF as section 3.1 of RFC 5545 asks. Long lines are
    not folded. `new Date(...)` and its UTC getters are the parameter
    `toUtc`; the clock reading used for DTSTAMP is the parameter `now`. */
module EventsIcs {
  import opened Wrappers
  import opened Text
  import opened Seqs
  import opened Schemas
  import opened Collections

  /** The UTC fields of a `Date`; `month` is `getUTCMonth()`, counted from 0. */
  datatype UtcDateTime = UtcDateTime(year: nat, month: nat, day: nat, hours: nat, minutes: nat, seconds: nat)

  /** `String(n).padStart(2, "0")`. */
  function Pad2(n: nat): (r: string)
    ensures forall i :: 0 <= i < |r| ==> IsDigit(r[i])
    ensures n < 100 ==> |r| == 2 && DigitsValue(r) == n
    ensures n >= 100 ==> r == NatToString(n)
  {
    var s := NatToString(n);
    NatToStringValue(n);
    if |s| < 2 then
      var r := "0" + s;
      assert r[..1] == "0" && r[..1][..0] == [];
      r
    else s
  }

  /** The concatenation `formatIcsDate` returns: the form `YYYYMMDDTHHMMSSZ`
      of section 3.3.5 of RFC 5545 (a UTC DATE-TIME), the year written as
      `String(year)`, grouped into its date and time halves. */
  function Stamp(d: UtcDateTime): string {
    (NatToString(d.year) + Pad2(d.month + 1) + Pad2(d.day)) + "T"
      + (Pad2(d.hours) + Pad2(d.minutes) + Pad2(d.seconds)) + "Z"
  }

  predicate InRange(d: UtcDateTime) {
    1000 <= d.year <= 9999 && d.month < 12 && 1 <= d.day <= 31
    && d.hours < 24 && d.minutes < 60 && d.seconds < 60
  }

  predicate AllDigits(s: string) {
    forall i :: 0 <= i < |s| ==> IsDigit(s[i])
  }

  /** Reading a UTC DATE-TIME back: eight digits of date, `T`, six digits of
      time, `Z`. */
  function ParseIcsDate(s: string): Option<UtcDateTime> {
    if |s| == 16 && s[8] == 'T' && s[15] == 'Z' then
      var date, time := s[..8], s[9..15];
      if AllDigits(date) && AllDigits(time) && AllDigits(date[4..6]) && DigitsValue(date[4..6]) >= 1
         && AllDigits(date[..4]) && AllDigits(date[6..]) && AllDigits(time[..2]) && AllDigits(time[2..4])
         && AllDigits(time[4..])
      then Some(UtcDateTime(DigitsValue(date[..4]), DigitsValue(date[4..6]) - 1, DigitsValue(date[6..]),
                            DigitsValue(time[..2]), DigitsValue(time[2..4]), DigitsValue(time[4..])))
      else None
    else None
  }

  lemma DigitsConcat(a: string, b: string)
    requires AllDigits(a) && AllDigits(b)
    ensures AllDigits(a + b)
  {
  }

  /** Where the halves sit in a formatted date. */
  lemma DateTimeLayout(date: string, time: string)
    requires |date| == 8 && |time| == 6
    ensures var r := date + "T" + time + "Z";
      |r| == 16 && r[8] == 'T' && r[15] == 'Z' && r[..8] == date && r[9..15] == time
  {
    var a := date + "T";
    ThreeSlices(a, time, "Z");
    ThreeSlices(date, "T", []);
    assert a + [] == a;
    PrefixOfPrefix(a + time + "Z", 8, 9);
  }

  lemma StampLayout(d: UtcDateTime)
    requires InRange(d)
    ensures |Stamp(d)| == 16 && Stamp(d)[8] == 'T' && Stamp(d)[15] == 'Z'
    ensures ParseIcsDate(Stamp(d)) == Some(d)
  {
    NatToStringValue(d.year);
    var y, mo, da := NatToString(d.year), Pad2(d.month + 1), Pad2(d.day);
    var h, mi, se := Pad2(d.hours), Pad2(d.minutes), Pad2(d.seconds);
    DigitsConcat(y, mo);
    DigitsConcat(y + mo, da);
    DigitsConcat(h, mi);
    DigitsConcat(h + mi, se);
    ThreeSlices(y, mo, da);
    ThreeSlices(h, mi, se);
    DateTimeLayout(y + mo + da, h + mi + se);
  }

  /** `formatIcsDate`: a date in range is written in sixteen characters,
      `T` at index 8 and `Z` last, that read back as the same date. */
  function FormatIcsDate(d: UtcDateTime): (r: string)
    ensures InRange(d) ==> |r| == 16 && r[8] == 'T' && r[15] == 'Z' && ParseIcsDate(r) == Some(d)
  {
    if InRange(d) then StampLayout(d); Stamp(d) else Stamp(d)
  }

  /** The escape `escapeIcs` gives one character: backslash, newline, comma
      and semicolon become `\\`, `\n`, `\,` and `\;` (TEXT values, section
      3.3.11 of RFC 5545). */
  function IcsChar(c: char): string {
    if c == '\\' then "\\\\"
    else if c == '\n' then "\\n"
    else if c == ',' then "\\,"
    else if c == ';' then "\\;"
    else [c]
  }

  /** The four global replaces of `escapeIcs`, the backslash first, in the
      order the source chains them. */
  function IcsPasses(value: string): string {
    ReplaceAll(ReplaceAll(ReplaceAll(ReplaceAll(value, '\\', "\\\\"), '\n', "\\n"), ',', "\\,"), ';', "\\;")
  }

  lemma IcsPassesAppend(a: string, b: string)
    ensures IcsPasses(a + b) == IcsPasses(a) + IcsPasses(b)
  {
    var a1, b1 := ReplaceAll(a, '\\', "\\\\"), ReplaceAll(b, '\\', "\\\\");
    ReplaceAllAppend(a, b, '\\', "\\\\");
    var a2, b2 := ReplaceAll(a1, '\n', "\\n"), ReplaceAll(b1, '\n', "\\n");
    ReplaceAllAppend(a1, b1, '\n', "\\n");
    var a3, b3 := ReplaceAll(a2, ',', "\\,"), ReplaceAll(b2, ',', "\\,");
    ReplaceAllAppend(a2, b2, ',', "\\,");
    ReplaceAllAppend(a3, b3, ';', "\\;");
  }

  lemma IcsPassesOne(c: char)
    ensures IcsPasses([c]) == IcsChar(c)
  {
    ReplaceAllOne(c, '\\', "\\\\");
    if c == '\\' {
      assert IcsPasses([c]) == "\\\\";
    } else {
      ReplaceAllOne(c, '\n', "\\n");
      if c == '\n' {
        assert IcsPasses([c]) == "\\n";
      } else {
        ReplaceAllOne(c, ',', "\\,");
        if c != ',' {
          ReplaceAllOne(c, ';', "\\;");
        }
      }
    }
  }

  /** The four passes act as one pass escaping each character: no pass
      meets what an earlier one wrote. */
  lemma {:induction false} IcsPassesPerChar(s: string)
    ensures IcsPasses(s) == MapChars(s, IcsChar)
    decreases |s|
  {
    if |s| > 0 {
      assert s == [s[0]] + s[1..];
      IcsPassesAppend([s[0]], s[1..]);
      IcsPassesOne(s[0]);
      IcsPassesPerChar(s[1..]);
    }
  }

  /** `escapeIcs`: each character written as its escape or as itself, which
      is what the four chained replaces amount to. */
  function EscapeIcs(value: string): (r: string)
    ensures r == MapChars(value, IcsChar)
  {
    IcsPassesPerChar(value);
    IcsPasses(value)
  }

  lemma EscapeIcsAppend(a: string, b: string)
    ensures EscapeIcs(a + b) == EscapeIcs(a) + EscapeIcs(b)
  {
    MapCharsAppend(a, b, IcsChar);
  }

  /** What a calendar reader decodes from a TEXT value. */
  function UnescapeIcs(s: string): string
    decreases |s|
  {
    if |s| == 0 then ""
    else if s[0] == '\\' && |s| >= 2 then (if s[1] == 'n' then "\n" else [s[1]]) + UnescapeIcs(s[2..])
    else [s[0]] + UnescapeIcs(s[1..])
  }

  lemma UnescapeIcsChar(c: char, rest: string)
    ensures UnescapeIcs(IcsChar(c) + rest) == [c] + UnescapeIcs(rest)
  {
    var e := IcsChar(c) + rest;
    if c == '\\' || c == '\n' || c == ',' || c == ';' {
      assert e[0] == '\\' && e[2..] == rest;
    } else {
      assert e[1..] == rest;
    }
  }

  lemma {:induction false} UnescapeMapChars(s: string)
    ensures UnescapeIcs(MapChars(s, IcsChar)) == s
    decreases |s|
  {
    if |s| > 0 {
      UnescapeMapChars(s[1..]);
      UnescapeIcsChar(s[0], MapChars(s[1..], IcsChar));
      assert s == [s[0]] + s[1..];
    }
  }

  /** A reader recovers exactly the escaped text. */
  lemma EscapeIcsRoundTrip(s: string)
    ensures UnescapeIcs(EscapeIcs(s)) == s
  {
    UnescapeMapChars(s);
  }

  lemma {:induction false} IcsCharsNoLineFeed(s: string)
    ensures '\n' !in MapChars(s, IcsChar)
    decreases |s|
  {
    if |s| > 0 {
      IcsCharsNoLineFeed(s[1..]);
    }
  }

  /** An escaped value holds no line feed. */
  lemma EscapeIcsNoLineFeed(s: string)
    ensures '\n' !in EscapeIcs(s)
  {
    IcsCharsNoLineFeed(s);
  }

  /** Every comma and semicolon of escaped text directly follows a
      backslash. */
  predicate SeparatorsMarked(r: string) {
    forall i :: 0 <= i < |r| && (r[i] == ',' || r[i] == ';') ==> i > 0 && r[i - 1] == '\\'
  }

  lemma {:induction false} IcsCharsMarked(s: string)
    ensures var r := MapChars(s, IcsChar);
      SeparatorsMarked(r) && (|r| > 0 ==> r[0] != ',' && r[0] != ';')
    decreases |s|
  {
    if |s| > 0 {
      IcsCharsMarked(s[1..]);
      var head, rest := IcsChar(s[0]), MapChars(s[1..], IcsChar);
      var r := head + rest;
      assert |head| > 0 && head[0] != ',' && head[0] != ';';
      forall i | 0 <= i < |r| && (r[i] == ',' || r[i] == ';') ensures i > 0 && r[i - 1] == '\\' {
        if i < |head| {
          assert i == 1 && head[0] == '\\';
        } else {
          assert rest[i - |head|] == r[i];
        }
      }
    }
  }

  lemma EscapeIcsMarked(s: string)
    ensures SeparatorsMarked(EscapeIcs(s))
  {
    IcsCharsMarked(s);
  }

  /** Text without the four special characters is written unchanged. */
  lemma EscapeIcsPlain(s: string)
    requires '\\' !in s && '\n' !in s && ',' !in s && ';' !in s
    ensures EscapeIcs(s) == s
  {
  }

  function EventUrl(siteUrl: string, slug: string): string {
    siteUrl + "/community/events/" + slug
  }

  /** The DESCRIPTION value: the description, a backslash and an `n`, then
      the event's URL. */
  function DescriptionText(e: Event, siteUrl: string): string {
    e.frontmatter.description + "\\n" + EventUrl(siteUrl, e.slug)
  }

  /** The escape doubles the separator's backslash, so a calendar reader
      shows the two characters backslash and `n` between the description
      and the URL, not a line break. */
  lemma DescriptionSeparator(e: Event, siteUrl: string)
    ensures UnescapeIcs(EscapeIcs(DescriptionText(e, siteUrl)))
      == e.frontmatter.description + ['\\', 'n'] + EventUrl(siteUrl, e.slug)
    ensures '\\' in UnescapeIcs(EscapeIcs(DescriptionText(e, siteUrl)))
  {
    EscapeIcsRoundTrip(DescriptionText(e, siteUrl));
    var d := e.frontmatter.description;
    assert (d + ['\\', 'n'] + EventUrl(siteUrl, e.slug))[|d|] == '\\';
  }

  /** A two-character text escapes character by character. */
  lemma EscapeIcsTwo(x: char, y: char)
    ensures EscapeIcs([x, y]) == IcsChar(x) + IcsChar(y)
  {
    assert [x, y][1..] == [y] && [y][1..] == [];
    assert MapChars([y], IcsChar) == IcsChar(y) + MapChars([], IcsChar);
  }

  /** The escape turns the separator into three characters. */
  lemma SeparatorEscaped()
    ensures EscapeIcs("\\n") == "\\\\n"
  {
    EscapeIcsTwo('\\', 'n');
  }

  /** BEGIN, UID, DTSTAMP and DTSTART. */
  function OpeningLines(e: Event, now: UtcDateTime, toUtc: string -> UtcDateTime): seq<string> {
    ["BEGIN:VEVENT",
     "UID:" + EscapeIcs(e.slug + "@seattleux.com"),
     "DTSTAMP:" + FormatIcsDate(now),
     "DTSTART:" + FormatIcsDate(toUtc(e.frontmatter.startAt))]
  }

  /** DTEND, only for an event whose `endAt` is set and non-empty. */
  function EndLines(fm: EventFrontmatter, toUtc: string -> UtcDateTime): seq<string> {
    if Truthy(fm.endAt) then ["DTEND:" + FormatIcsDate(toUtc(fm.endAt.value))] else []
  }

  /** SUMMARY and DESCRIPTION. */
  function TextLines(e: Event, siteUrl: string): seq<string> {
    ["SUMMARY:" + EscapeIcs(e.frontmatter.title),
     "DESCRIPTION:" + EscapeIcs(DescriptionText(e, siteUrl))]
  }

  /** LOCATION, only for an event whose `venue` is set and non-empty. */
  function VenueLines(fm: EventFrontmatter): seq<string> {
    if Truthy(fm.venue) then ["LOCATION:" + EscapeIcs(fm.venue.value)] else []
  }

  /** URL (the ticket link, else the event page) and END. */
  function ClosingLines(e: Event, siteUrl: string): seq<string> {
    ["URL:" + EscapeIcs(e.frontmatter.ticketUrl.GetOr(EventUrl(siteUrl, e.slug))),
     "END:VEVENT"]
  }

  /** The content lines of one VEVENT, in the order `GET` pushes them. */
  function EventLines(e: Event, siteUrl: string, now: UtcDateTime, toUtc: string -> UtcDateTime): seq<string> {
    OpeningLines(e, now, toUtc) + EndLines(e.frontmatter, toUtc) + TextLines(e, siteUrl)
      + VenueLines(e.frontmatter) + ClosingLines(e, siteUrl)
  }

  /** A VEVENT has eight lines, one more with an end time and one more with
      a venue; it opens with BEGIN:VEVENT and closes with END:VEVENT, and
      its URL is the ticket link when there is one, else the event page. */
  lemma EventBlockShape(e: Event, siteUrl: string, now: UtcDateTime, toUtc: string -> UtcDateTime)
    ensures var b := EventLines(e, siteUrl, now, toUtc);
      && |b| == 8 + (if Truthy(e.frontmatter.endAt) then 1 else 0) + (if Truthy(e.frontmatter.venue) then 1 else 0)
      && b[0] == "BEGIN:VEVENT" && b[|b| - 1] == "END:VEVENT"
      && b[|b| - 2] == "URL:" + EscapeIcs(e.frontmatter.ticketUrl.GetOr(EventUrl(siteUrl, e.slug)))
  {
    var o := OpeningLines(e, now, toUtc);
    var c := ClosingLines(e, siteUrl);
    var en := EndLines(e.frontmatter, toUtc);
    var v := VenueLines(e.frontmatter);
    assert |en| == (if Truthy(e.frontmatter.endAt) then 1 else 0);
    assert |v| == (if Truthy(e.frontmatter.venue) then 1 else 0);
    var t := TextLines(e, siteUrl);
    assert o[0] == "BEGIN:VEVENT";
    assert c[0] == "URL:" + EscapeIcs(e.frontmatter.ticketUrl.GetOr(EventUrl(siteUrl, e.slug)));
    assert c[1] == "END:VEVENT";
    assert EventLines(e, siteUrl, now, toUtc) == o + en + t + v + c;
    PartsShape(o, en, t, v, c);
  }

  /** Where the first and the last two lines of five joined parts sit. */
  lemma PartsShape(o: seq<string>, en: seq<string>, t: seq<string>, v: seq<string>, c: seq<string>)
    requires |o| == 4 && |t| == 2 && |c| == 2
    ensures var b := o + en + t + v + c;
      && |b| == 8 + |en| + |v|
      && b[0] == o[0] && b[|b| - 1] == c[1] && b[|b| - 2] == c[0]
  {
    var front := o + en + t + v;
    assert (front + c)[0] == front[0] == o[0];
    assert (front + c)[|front| + 1] == c[1];
    assert (front + c)[|front|] == c[0];
  }

  /** The line after DTSTART is a DTEND exactly when the event has an end
      time. */
  lemma EventBlockEnd(e: Event, siteUrl: string, now: UtcDateTime, toUtc: string -> UtcDateTime)
    ensures var b := EventLines(e, siteUrl, now, toUtc);
      |b| > 4 && (StartsWith(b[4], "DTEND:") <==> Truthy(e.frontmatter.endAt))
  {
    var o := OpeningLines(e, now, toUtc);
    var en := EndLines(e.frontmatter, toUtc);
    var t := TextLines(e, siteUrl);
    var v := VenueLines(e.frontmatter);
    var c := ClosingLines(e, siteUrl);
    assert |o| == 4 && |t| == 2;
    var b := (((o + en) + t) + v) + c;
    assert b[4] == ((o + en) + t)[4];
    if Truthy(e.frontmatter.endAt) {
      assert b[4] == en[0];
      StartsWithPrefix("DTEND:", FormatIcsDate(toUtc(e.frontmatter.endAt.value)));
    } else {
      assert b[4] == t[0];
      var summary := EscapeIcs(e.frontmatter.title);
      assert ("SUMMARY:" + summary)[0] == 'S';
      FirstCharNotStartsWith("SUMMARY:" + summary, "DTEND:");
    }
  }

  /** The line before URL is a LOCATION exactly when the event has a
      venue. */
  lemma EventBlockVenue(e: Event, siteUrl: string, now: UtcDateTime, toUtc: string -> UtcDateTime)
    ensures var b := EventLines(e, siteUrl, now, toUtc);
      |b| > 3 && (StartsWith(b[|b| - 3], "LOCATION:") <==> Truthy(e.frontmatter.venue))
  {
    var t := TextLines(e, siteUrl);
    var front := (OpeningLines(e, now, toUtc) + EndLines(e.frontmatter, toUtc)) + t;
    var v := VenueLines(e.frontmatter);
    var c := ClosingLines(e, siteUrl);
    assert |t| == 2 && |c| == 2 && |front| >= 2;
    var b := (front + v) + c;
    assert b[|b| - 3] == (front + v)[|front + v| - 1];
    if Truthy(e.frontmatter.venue) {
      assert b[|b| - 3] == v[0];
      StartsWithPrefix("LOCATION:", EscapeIcs(e.frontmatter.venue.value));
    } else {
      assert b[|b| - 3] == front[|front| - 1] == t[1];
      var description := EscapeIcs(DescriptionText(e, siteUrl));
      assert ("DESCRIPTION:" + description)[0] == 'D';
      FirstCharNotStartsWith("DESCRIPTION:" + description, "LOCATION:");
    }
  }

  const Header := ["BEGIN:VCALENDAR", "VERSION:2.0", "PRODID:-//Seattle UX//Community Events//EN",
                   "CALSCALE:GREGORIAN", "METHOD:PUBLISH"]

  function Blocks(events: seq<Event>, siteUrl: string, now: UtcDateTime, toUtc: string -> UtcDateTime): seq<string>
    decreases |events|
  {
    if |events| == 0 then []
    else Blocks(events[..|events| - 1], siteUrl, now, toUtc) + EventLines(events[|events| - 1], siteUrl, now, toUtc)
  }

  /** The lines the loop body pushes for one event, appended to `lines`. */
  method PushEvent(lines: seq<string>, event: Event, siteUrl: string, now: UtcDateTime, toUtc: string -> UtcDateTime)
    returns (out: seq<string>)
    ensures out == lines + EventLines(event, siteUrl, now, toUtc)
  {
    var fm := event.frontmatter;
    var uid := event.slug + "@seattleux.com";
    var url := EventUrl(siteUrl, event.slug);
    out := lines;
    out := out + ["BEGIN:VEVENT"];
    out := out + ["UID:" + EscapeIcs(uid)];
    out := out + ["DTSTAMP:" + FormatIcsDate(now)];
    out := out + ["DTSTART:" + FormatIcsDate(toUtc(fm.startAt))];
    PushFour(lines, "BEGIN:VEVENT", "UID:" + EscapeIcs(uid), "DTSTAMP:" + FormatIcsDate(now),
             "DTSTART:" + FormatIcsDate(toUtc(fm.startAt)));
    ghost var afterOpening := out;
    assert afterOpening == lines + OpeningLines(event, now, toUtc);
    if Truthy(fm.endAt) {
      out := out + ["DTEND:" + FormatIcsDate(toUtc(fm.endAt.value))];
    }
    ghost var afterEnd := out;
    assert afterEnd == afterOpening + EndLines(fm, toUtc);
    out := out + ["SUMMARY:" + EscapeIcs(fm.title)];
    out := out + ["DESCRIPTION:" + EscapeIcs(fm.description + "\\n" + url)];
    PushTwo(afterEnd, "SUMMARY:" + EscapeIcs(fm.title), "DESCRIPTION:" + EscapeIcs(fm.description + "\\n" + url));
    ghost var afterText := out;
    assert afterText == afterEnd + TextLines(event, siteUrl);
    if Truthy(fm.venue) {
      out := out + ["LOCATION:" + EscapeIcs(fm.venue.value)];
    }
    ghost var afterVenue := out;
    assert afterVenue == afterText + VenueLines(fm);
    out := out + ["URL:" + EscapeIcs(fm.ticketUrl.GetOr(url))];
    out := out + ["END:VEVENT"];
    PushTwo(afterVenue, "URL:" + EscapeIcs(fm.ticketUrl.GetOr(url)), "END:VEVENT");
    assert out == afterVenue + ClosingLines(event, siteUrl);
    AppendFive(lines, OpeningLines(event, now, toUtc), EndLines(fm, toUtc), TextLines(event, siteUrl),
               VenueLines(fm), ClosingLines(event, siteUrl));
  }

  /** The `lines` array `GET` builds: the header, a VEVENT per upcoming
      event in loaded order, and the closing line. */
  method CalendarLines(events: seq<Event>, siteUrl: string, now: UtcDateTime, toUtc: string -> UtcDateTime)
    returns (lines: seq<string>)
    ensures lines == Header + Blocks(Filter(events, IsUpcoming), siteUrl, now, toUtc) + ["END:VCALENDAR"]
  {
    var upcoming := Filter(events, IsUpcoming);
    lines := Header;
    var i := 0;
    while i < |upcoming|
      invariant 0 <= i <= |upcoming|
      invariant lines == Header + Blocks(upcoming[..i], siteUrl, now, toUtc)
    {
      lines := PushEvent(lines, upcoming[i], siteUrl, now, toUtc);
      PrefixOfPrefix(upcoming, i, i + 1);
      AppendAssoc(Header, Blocks(upcoming[..i], siteUrl, now, toUtc), EventLines(upcoming[i], siteUrl, now, toUtc));
      i := i + 1;
    }
    PrefixAll(upcoming);
    lines := lines + ["END:VCALENDAR"];
  }

  /** The response body: the lines joined with CRLF. When no line holds a
      line feed, breaking the body at its line feeds gives back the lines,
      each but the last still ending in the carriage return of its CRLF. */
  function Calendar(lines: seq<string>): (r: string)
    ensures |lines| > 0 && NoLineFeeds(lines) ==>
      Split(r, '\n') == WithCarriageReturns(lines[..|lines| - 1]) + [lines[|lines| - 1]]
  {
    if |lines| > 0 && NoLineFeeds(lines) then
      SplitCrlfJoin(lines);
      Join(lines, "\r\n")
    else Join(lines, "\r\n")
  }

  lemma DateNoLineFeed(d: UtcDateTime)
    ensures '\n' !in FormatIcsDate(d)
  {
    var y := NatToString(d.year);
    assert forall i :: 0 <= i < |y| ==> y[i] != '\n';
  }

  predicate NoLineFeeds(lines: seq<string>) {
    forall l :: l in lines ==> '\n' !in l
  }

  lemma NoLineFeedsTwo(a: string, b: string)
    requires '\n' !in a && '\n' !in b
    ensures NoLineFeeds([a, b])
  {
  }

  lemma NoLineFeedsFour(a: string, b: string, c: string, d: string)
    requires '\n' !in a && '\n' !in b && '\n' !in c && '\n' !in d
    ensures NoLineFeeds([a, b, c, d])
  {
  }

  lemma NoLineFeedsAppend(a: seq<string>, b: seq<string>)
    requires NoLineFeeds(a) && NoLineFeeds(b)
    ensures NoLineFeeds(a + b)
  {
  }

  lemma PrefixedNoLineFeed(prefix: string, value: string)
    requires '\n' !in prefix && '\n' !in value
    ensures '\n' !in prefix + value
  {
  }

  lemma OpeningShapeNoLineFeed(uid: string, stamp: string, start: string)
    requires '\n' !in uid && '\n' !in stamp && '\n' !in start
    ensures NoLineFeeds(["BEGIN:VEVENT", "UID:" + uid, "DTSTAMP:" + stamp, "DTSTART:" + start])
  {
    PrefixedNoLineFeed("UID:", uid);
    PrefixedNoLineFeed("DTSTAMP:", stamp);
    PrefixedNoLineFeed("DTSTART:", start);
    NoLineFeedsFour("BEGIN:VEVENT", "UID:" + uid, "DTSTAMP:" + stamp, "DTSTART:" + start);
  }

  lemma OpeningNoLineFeed(e: Event, now: UtcDateTime, toUtc: string -> UtcDateTime)
    ensures NoLineFeeds(OpeningLines(e, now, toUtc))
  {
    var uid := e.slug + "@seattleux.com";
    var start := toUtc(e.frontmatter.startAt);
    EscapeIcsNoLineFeed(uid);
    DateNoLineFeed(now);
    DateNoLineFeed(start);
    OpeningShapeNoLineFeed(EscapeIcs(uid), FormatIcsDate(now), FormatIcsDate(start));
  }

  lemma EndNoLineFeed(fm: EventFrontmatter, toUtc: string -> UtcDateTime)
    ensures NoLineFeeds(EndLines(fm, toUtc))
  {
    if Truthy(fm.endAt) {
      var end := toUtc(fm.endAt.value);
      DateNoLineFeed(end);
      PrefixedNoLineFeed("DTEND:", FormatIcsDate(end));
    }
  }

  lemma TextNoLineFeed(e: Event, siteUrl: string)
    ensures NoLineFeeds(TextLines(e, siteUrl))
  {
    var title, description := e.frontmatter.title, DescriptionText(e, siteUrl);
    assert '\n' !in "SUMMARY:" + EscapeIcs(title) by {
      EscapeIcsNoLineFeed(title);
      PrefixedNoLineFeed("SUMMARY:", EscapeIcs(title));
    }
    assert '\n' !in "DESCRIPTION:" + EscapeIcs(description) by {
      EscapeIcsNoLineFeed(description);
      PrefixedNoLineFeed("DESCRIPTION:", EscapeIcs(description));
    }
    NoLineFeedsTwo("SUMMARY:" + EscapeIcs(title), "DESCRIPTION:" + EscapeIcs(description));
  }

  lemma VenueNoLineFeed(fm: EventFrontmatter)
    ensures NoLineFeeds(VenueLines(fm))
  {
    if Truthy(fm.venue) {
      EscapeIcsNoLineFeed(fm.venue.value);
      PrefixedNoLineFeed("LOCATION:", EscapeIcs(fm.venue.value));
    }
  }

  lemma ClosingNoLineFeed(e: Event, siteUrl: string)
    ensures NoLineFeeds(ClosingLines(e, siteUrl))
  {
    var target := e.frontmatter.ticketUrl.GetOr(EventUrl(siteUrl, e.slug));
    assert '\n' !in "URL:" + EscapeIcs(target) by {
      EscapeIcsNoLineFeed(target);
      PrefixedNoLineFeed("URL:", EscapeIcs(target));
    }
    NoLineFeedsTwo("URL:" + EscapeIcs(target), "END:VEVENT");
  }

  /** No line of one VEVENT holds a line feed. */
  lemma EventLinesNoLineFeed(e: Event, siteUrl: string, now: UtcDateTime, toUtc: string -> UtcDateTime)
    ensures NoLineFeeds(EventLines(e, siteUrl, now, toUtc))
  {
    var o, en := OpeningLines(e, now, toUtc), EndLines(e.frontmatter, toUtc);
    var t, v, c := TextLines(e, siteUrl), VenueLines(e.frontmatter), ClosingLines(e, siteUrl);
    OpeningNoLineFeed(e, now, toUtc);
    EndNoLineFeed(e.frontmatter, toUtc);
    TextNoLineFeed(e, siteUrl);
    VenueNoLineFeed(e.frontmatter);
    ClosingNoLineFeed(e, siteUrl);
    NoLineFeedsAppend(o, en);
    NoLineFeedsAppend(o + en, t);
    NoLineFeedsAppend(o + en + t, v);
    NoLineFeedsAppend(o + en + t + v, c);
  }

  /** No content line holds a line feed: every text value is escaped, so
      the CRLF join puts each property on a line of its own. */
  lemma {:induction false} LinesHaveNoLineFeed(events: seq<Event>, siteUrl: string, now: UtcDateTime, toUtc: string -> UtcDateTime)
    ensures NoLineFeeds(Blocks(events, siteUrl, now, toUtc))
    decreases |events|
  {
    if |events| > 0 {
      LinesHaveNoLineFeed(events[..|events| - 1], siteUrl, now, toUtc);
      EventLinesNoLineFeed(events[|events| - 1], siteUrl, now, toUtc);
      NoLineFeedsAppend(Blocks(events[..|events| - 1], siteUrl, now, toUtc), EventLines(events[|events| - 1], siteUrl, now, toUtc));
    }
  }

  lemma HeaderNoLineFeed()
    ensures NoLineFeeds(Header)
  {
    var a, b := "BEGIN:VCALENDAR", "VERSION:2.0";
    var c := "PRODID:-//Seattle UX//Community Events//EN";
    var d, e := "CALSCALE:GREGORIAN", "METHOD:PUBLISH";
    assert '\n' !in a && '\n' !in b;
    assert '\n' !in c;
    assert '\n' !in d && '\n' !in e;
    NoLineFeedsTwo(a, b);
    NoLineFeedsAppend([a, b], [c]);
    NoLineFeedsTwo(d, e);
    NoLineFeedsAppend([a, b] + [c], [d, e]);
    assert Header == [a, b] + [c] + [d, e];
  }

  lemma TrailerNoLineFeed()
    ensures NoLineFeeds(["END:VCALENDAR"])
  {
    assert '\n' !in "END:VCALENDAR";
  }

  /** The lines `GET` builds hold no line feed, so the calendar body has
      exactly one content line per entry of `lines`. */
  lemma CalendarLinesNoLineFeed(events: seq<Event>, siteUrl: string, now: UtcDateTime, toUtc: string -> UtcDateTime)
    ensures NoLineFeeds(Header + Blocks(Filter(events, IsUpcoming), siteUrl, now, toUtc) + ["END:VCALENDAR"])
  {
    var b := Blocks(Filter(events, IsUpcoming), siteUrl, now, toUtc);
    LinesHaveNoLineFeed(Filter(events, IsUpcoming), siteUrl, now, toUtc);
    HeaderNoLineFeed();
    NoLineFeedsAppend(Header, b);
    TrailerNoLineFeed();
    NoLineFeedsAppend(Header + b, ["END:VCALENDAR"]);
  }
}
