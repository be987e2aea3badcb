/** `escapeXml`, which the RSS and Atom routes each define identically: the
    five characters of section 4.6 of XML 1.0 written as their predefined
    entity references, ampersand first. */
module XmlText {
  import opened Text

  /** The entity reference `escapeXml` writes for one character. */
  function XmlChar(c: char): string {
    if c == '&' then "&amp;"
    else if c == '<' then "&lt;"
    else if c == '>' then "&gt;"
    else if c == '"' then "&quot;"
    else if c == '\'' then "&apos;"
    else [c]
  }

  /** The five global replaces of `escapeXml`, in the order the source
      chains them. */
  function Passes(value: string): string {
    ReplaceAll(ReplaceAll(ReplaceAll(ReplaceAll(ReplaceAll(value, '&', "&amp;"), '<', "&lt;"), '>', "&gt;"),
                          '"', "&quot;"), '\'', "&apos;")
  }

  lemma PassesAppend(a: string, b: string)
    ensures Passes(a + b) == Passes(a) + Passes(b)
  {
    var a1, b1 := ReplaceAll(a, '&', "&amp;"), ReplaceAll(b, '&', "&amp;");
    ReplaceAllAppend(a, b, '&', "&amp;");
    var a2, b2 := ReplaceAll(a1, '<', "&lt;"), ReplaceAll(b1, '<', "&lt;");
    ReplaceAllAppend(a1, b1, '<', "&lt;");
    var a3, b3 := ReplaceAll(a2, '>', "&gt;"), ReplaceAll(b2, '>', "&gt;");
    ReplaceAllAppend(a2, b2, '>', "&gt;");
    var a4, b4 := ReplaceAll(a3, '"', "&quot;"), ReplaceAll(b3, '"', "&quot;");
    ReplaceAllAppend(a3, b3, '"', "&quot;");
    ReplaceAllAppend(a4, b4, '\'', "&apos;");
  }

  /** The passes after the first, in order. */
  function AfterAmp(s: string): string {
    ReplaceAll(ReplaceAll(ReplaceAll(ReplaceAll(s, '<', "&lt;"), '>', "&gt;"), '"', "&quot;"), '\'', "&apos;")
  }

  lemma AfterAmpKeeps(e: string)
    requires '<' !in e && '>' !in e && '"' !in e && '\'' !in e
    ensures AfterAmp(e) == e
  {
  }

  lemma EscapeAmpOne()
    ensures Passes("&") == "&amp;"
  {
    ReplaceAllOne('&', '&', "&amp;");
    AfterAmpKeeps("&amp;");
  }

  lemma LastThreeKeep(e: string)
    requires '>' !in e && '"' !in e && '\'' !in e
    ensures ReplaceAll(ReplaceAll(ReplaceAll(e, '>', "&gt;"), '"', "&quot;"), '\'', "&apos;") == e
  {
  }

  lemma EscapeLtOne()
    ensures Passes("<") == "&lt;"
  {
    ReplaceAllOne('<', '&', "&amp;");
    ReplaceAllOne('<', '<', "&lt;");
    LastThreeKeep("&lt;");
  }

  lemma EscapeGtOne()
    ensures Passes(">") == "&gt;"
  {
    ReplaceAllOne('>', '&', "&amp;");
    ReplaceAllOne('>', '<', "&lt;");
    ReplaceAllOne('>', '>', "&gt;");
    var e := "&gt;";
    assert ReplaceAll(e, '"', "&quot;") == e;
    assert ReplaceAll(e, '\'', "&apos;") == e;
  }

  lemma EscapeQuotOne()
    ensures Passes("\"") == "&quot;"
  {
    ReplaceAllOne('"', '&', "&amp;");
    ReplaceAllOne('"', '<', "&lt;");
    ReplaceAllOne('"', '>', "&gt;");
    ReplaceAllOne('"', '"', "&quot;");
    var e := "&quot;";
    assert ReplaceAll(e, '\'', "&apos;") == e;
  }

  lemma EscapeAposOne()
    ensures Passes("'") == "&apos;"
  {
    ReplaceAllOne('\'', '&', "&amp;");
    ReplaceAllOne('\'', '<', "&lt;");
    ReplaceAllOne('\'', '>', "&gt;");
    ReplaceAllOne('\'', '"', "&quot;");
    ReplaceAllOne('\'', '\'', "&apos;");
  }

  lemma PassesOne(c: char)
    ensures Passes([c]) == XmlChar(c)
  {
    if c == '&' { EscapeAmpOne(); }
    else if c == '<' { EscapeLtOne(); }
    else if c == '>' { EscapeGtOne(); }
    else if c == '"' { EscapeQuotOne(); }
    else if c == '\'' { EscapeAposOne(); }
    else {
      assert '&' !in [c] && '<' !in [c] && '>' !in [c] && '"' !in [c] && '\'' !in [c];
    }
  }

  /** The five passes act as one pass escaping each character: `&` goes
      first, so no pass meets an ampersand an earlier one wrote. */
  lemma {:induction false} PassesPerChar(s: string)
    ensures Passes(s) == MapChars(s, XmlChar)
    decreases |s|
  {
    if |s| > 0 {
      assert s == [s[0]] + s[1..];
      PassesAppend([s[0]], s[1..]);
      PassesOne(s[0]);
      PassesPerChar(s[1..]);
    }
  }

  /** `escapeXml`: each character written as its entity reference or as
      itself, which is what the five chained replaces amount to. */
  function EscapeXml(value: string): (r: string)
    ensures r == MapChars(value, XmlChar)
  {
    PassesPerChar(value);
    Passes(value)
  }

  lemma EscapeXmlAppend(a: string, b: string)
    ensures EscapeXml(a + b) == EscapeXml(a) + EscapeXml(b)
  {
    MapCharsAppend(a, b, XmlChar);
  }

  /** What an XML reader decodes from character data: the five predefined
      entity references, read left to right. */
  function UnescapeXml(s: string): string
    decreases |s|
  {
    if |s| == 0 then ""
    else if StartsWith(s, "&amp;") then "&" + UnescapeXml(s[5..])
    else if StartsWith(s, "&lt;") then "<" + UnescapeXml(s[4..])
    else if StartsWith(s, "&gt;") then ">" + UnescapeXml(s[4..])
    else if StartsWith(s, "&quot;") then "\"" + UnescapeXml(s[6..])
    else if StartsWith(s, "&apos;") then "'" + UnescapeXml(s[6..])
    else [s[0]] + UnescapeXml(s[1..])
  }

  /** `s` does not start with `p` because they differ at index `k`. */
  lemma DiffersAt(s: string, p: string, k: nat)
    requires k < |s| && k < |p| && s[k] != p[k]
    ensures !StartsWith(s, p)
  {
    if |p| <= |s| {
      assert s[..|p|][k] == s[k];
    }
  }

  lemma UnescapeAmp(rest: string)
    ensures UnescapeXml("&amp;" + rest) == "&" + UnescapeXml(rest)
  {
    StartsWithPrefix("&amp;", rest);
    assert ("&amp;" + rest)[5..] == rest;
  }

  lemma UnescapeLt(rest: string)
    ensures UnescapeXml("&lt;" + rest) == "<" + UnescapeXml(rest)
  {
    var s := "&lt;" + rest;
    DiffersAt(s, "&amp;", 1);
    StartsWithPrefix("&lt;", rest);
    assert s[4..] == rest;
  }

  lemma UnescapeGt(rest: string)
    ensures UnescapeXml("&gt;" + rest) == ">" + UnescapeXml(rest)
  {
    var s := "&gt;" + rest;
    DiffersAt(s, "&amp;", 1);
    DiffersAt(s, "&lt;", 1);
    StartsWithPrefix("&gt;", rest);
    assert s[4..] == rest;
  }

  lemma UnescapeQuot(rest: string)
    ensures UnescapeXml("&quot;" + rest) == "\"" + UnescapeXml(rest)
  {
    var s := "&quot;" + rest;
    DiffersAt(s, "&amp;", 1);
    DiffersAt(s, "&lt;", 1);
    DiffersAt(s, "&gt;", 1);
    StartsWithPrefix("&quot;", rest);
    assert s[6..] == rest;
  }

  lemma UnescapeApos(rest: string)
    ensures UnescapeXml("&apos;" + rest) == "'" + UnescapeXml(rest)
  {
    var s := "&apos;" + rest;
    DiffersAt(s, "&amp;", 2);
    DiffersAt(s, "&lt;", 1);
    DiffersAt(s, "&gt;", 1);
    DiffersAt(s, "&quot;", 1);
    StartsWithPrefix("&apos;", rest);
    assert s[6..] == rest;
  }

  lemma UnescapePlain(c: char, rest: string)
    requires c != '&'
    ensures UnescapeXml([c] + rest) == [c] + UnescapeXml(rest)
  {
    var s := [c] + rest;
    DiffersAt(s, "&amp;", 0);
    DiffersAt(s, "&lt;", 0);
    DiffersAt(s, "&gt;", 0);
    DiffersAt(s, "&quot;", 0);
    DiffersAt(s, "&apos;", 0);
    assert s[1..] == rest;
  }

  lemma UnescapeXmlChar(c: char, rest: string)
    ensures UnescapeXml(XmlChar(c) + rest) == [c] + UnescapeXml(rest)
  {
    if c == '&' { UnescapeAmp(rest); }
    else if c == '<' { UnescapeLt(rest); }
    else if c == '>' { UnescapeGt(rest); }
    else if c == '"' { UnescapeQuot(rest); }
    else if c == '\'' { UnescapeApos(rest); }
    else { UnescapePlain(c, rest); }
  }

  lemma {:induction false} UnescapeXmlChars(s: string)
    ensures UnescapeXml(MapChars(s, XmlChar)) == s
    decreases |s|
  {
    if |s| > 0 {
      UnescapeXmlChars(s[1..]);
      UnescapeXmlChar(s[0], MapChars(s[1..], XmlChar));
      assert s == [s[0]] + s[1..];
    }
  }

  /** A reader recovers exactly the escaped text. */
  lemma EscapeXmlRoundTrip(s: string)
    ensures UnescapeXml(EscapeXml(s)) == s
  {
    UnescapeXmlChars(s);
  }

  /** No raw markup: escaped text holds none of `<`, `>`, `"` or `'`. */
  predicate NoMarkup(s: string) {
    '<' !in s && '>' !in s && '"' !in s && '\'' !in s
  }

  /** One of the five predefined entity references starts at index `i`. */
  predicate EntityAt(s: string, i: nat)
    requires i <= |s|
  {
    var t := s[i..];
    StartsWith(t, "&amp;") || StartsWith(t, "&lt;") || StartsWith(t, "&gt;")
    || StartsWith(t, "&quot;") || StartsWith(t, "&apos;")
  }

  /** Every ampersand of `s` begins an entity reference. */
  predicate AmpersandsEscaped(s: string) {
    forall i :: 0 <= i < |s| && s[i] == '&' ==> EntityAt(s, i)
  }

  lemma EntityPrefix(e: string, rest: string)
    requires e in ["&amp;", "&lt;", "&gt;", "&quot;", "&apos;"]
    ensures EntityAt(e + rest, 0)
  {
    StartsWithPrefix(e, rest);
    assert (e + rest)[0..] == e + rest;
  }

  lemma {:induction false} XmlCharsWellFormed(s: string)
    ensures NoMarkup(MapChars(s, XmlChar)) && AmpersandsEscaped(MapChars(s, XmlChar))
    decreases |s|
  {
    if |s| > 0 {
      XmlCharsWellFormed(s[1..]);
      var head, rest := XmlChar(s[0]), MapChars(s[1..], XmlChar);
      var r := head + rest;
      assert NoMarkup(head);
      forall i | 0 <= i < |r| && r[i] == '&' ensures EntityAt(r, i) {
        if i < |head| {
          assert head[i] == '&';
          assert i == 0 && head != [s[0]];
          EntityPrefix(head, rest);
        } else {
          assert r[i..] == rest[i - |head|..];
          assert rest[i - |head|] == '&';
        }
      }
    }
  }

  /** Escaped text is character data an XML reader cannot mistake for
      markup: no `<`, `>`, `"` or `'`, and every `&` begins an entity
      reference. */
  lemma EscapeXmlWellFormed(s: string)
    ensures NoMarkup(EscapeXml(s)) && AmpersandsEscaped(EscapeXml(s))
  {
    XmlCharsWellFormed(s);
  }

  /** Text without the five special characters is written unchanged. */
  lemma EscapeXmlPlain(s: string)
    requires '&' !in s && NoMarkup(s)
    ensures EscapeXml(s) == s
  {
  }
}
