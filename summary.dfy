/** src/lib/content/summary.ts: the one-paragraph summary of an entry body.
    The first paragraph of prose (headings, list items and code fences
    skipped) is collected until a blank line or until it is long enough,
    markdown markup is stripped, white space is collapsed, and an over-long
    result is cut and ends with an ellipsis. */
module Summary {
  import opened Wrappers
  import opened Text
  import opened Seqs

  // ---------------------------------------------------------------------
  // Scanning helpers

  /** The first `c` at or after `p`. */
  function FindFrom(t: string, c: char, p: nat): (r: Option<nat>)
    requires p <= |t|
    ensures r.Some? ==> p <= r.value < |t| && t[r.value] == c && c !in t[p..r.value]
    ensures r.None? ==> c !in t[p..]
    decreases |t| - p
  {
    if p == |t| then None
    else if t[p] == c then Some(p)
    else
      var r := FindFrom(t, c, p + 1);
      assert r.Some? ==> t[p..r.value] == [t[p]] + t[p + 1..r.value];
      assert t[p..] == [t[p]] + t[p + 1..];
      r
  }

  lemma {:induction false} FindFromFirst(t: string, c: char, p: nat, q: nat)
    requires p <= q < |t| && t[q] == c && c !in t[p..q]
    ensures FindFrom(t, c, p) == Some(q)
    decreases q - p
  {
    if p < q {
      assert t[p] in t[p..q];
      assert t[p + 1..q] == t[p..q][1..];
      FindFromFirst(t, c, p + 1, q);
    }
  }

  // ---------------------------------------------------------------------
  // Links: /\[([^\]]+)\]\([^)]+\)/g -> "$1"

  /** The link `[text](url)` that starts `t`, if any: the index of its `]`
      and of its closing `)`. Text and url are both non-empty. */
  function LinkAt(t: string): (r: Option<(nat, nat)>)
    ensures r.Some? ==>
      var (j, k) := r.value;
      1 < j && j + 2 < k < |t| && t[0] == '[' && t[j] == ']' && t[j + 1] == '(' && t[k] == ')'
  {
    if |t| == 0 || t[0] != '[' then None
    else
      match FindFrom(t, ']', 1)
      case None => None
      case Some(j) =>
        if j == 1 || j + 1 >= |t| || t[j + 1] != '(' then None
        else
          match FindFrom(t, ')', j + 2)
          case None => None
          case Some(k) => if k == j + 2 then None else Some((j, k))
  }

  /** Each link replaced by its text, scanning left to right. */
  function StripLinks(t: string): (r: string)
    ensures |r| <= |t|
    decreases |t|
  {
    if |t| == 0 then ""
    else
      match LinkAt(t)
      case Some((j, k)) => t[1..j] + StripLinks(t[k + 1..])
      case None => [t[0]] + StripLinks(t[1..])
  }

  /** A link is replaced by its text. */
  lemma LinkReplaced(text: string, url: string, rest: string)
    requires text != "" && ']' !in text && url != "" && ')' !in url
    ensures StripLinks("[" + text + "](" + url + ")" + rest) == text + StripLinks(rest)
  {
    var t := "[" + text + "](" + url + ")" + rest;
    var j := |text| + 1;
    var k := j + 1 + |url| + 1;
    assert t[1..j] == text && t[j] == ']' && t[j + 1] == '(';
    assert t[j + 2..k] == url && t[k] == ')';
    FindFromFirst(t, ']', 1, j);
    FindFromFirst(t, ')', j + 2, k);
    assert t[k + 1..] == rest;
  }

  /** Text without `[` has no link and is left as it is. */
  lemma {:induction false} StripLinksNoBracket(t: string)
    requires '[' !in t
    ensures StripLinks(t) == t
  {
    if |t| > 0 {
      assert t[1..] == t[1..];
      assert '[' !in t[1..];
      StripLinksNoBracket(t[1..]);
    }
  }

  // ---------------------------------------------------------------------
  // Inline code: /`([^`]+)`/g -> "$1"

  /** The code span that starts `t`, if any: the index of its closing tick. */
  function CodeAt(t: string): (r: Option<nat>)
    ensures r.Some? ==> 1 < r.value < |t| && t[0] == '`' && t[r.value] == '`' && '`' !in t[1..r.value]
  {
    if |t| == 0 || t[0] != '`' then None
    else
      match FindFrom(t, '`', 1)
      case None => None
      case Some(j) => if j == 1 then None else Some(j)
  }

  function StripCode(t: string): (r: string)
    ensures |r| <= |t|
    decreases |t|
  {
    if |t| == 0 then ""
    else
      match CodeAt(t)
      case Some(j) => t[1..j] + StripCode(t[j + 1..])
      case None => [t[0]] + StripCode(t[1..])
  }

  /** A code span is replaced by its content. */
  lemma CodeReplaced(code: string, rest: string)
    requires code != "" && '`' !in code
    ensures StripCode("`" + code + "`" + rest) == code + StripCode(rest)
  {
    var t := "`" + code + "`" + rest;
    var j := |code| + 1;
    assert t[1..j] == code && t[j] == '`';
    FindFromFirst(t, '`', 1, j);
    assert t[j + 1..] == rest;
  }

  predicate NotTick(c: char) {
    c != '`'
  }

  /** A code span loses its two ticks and keeps its content. */
  lemma CodeSpanStripped(t: string, j: nat)
    requires CodeAt(t) == Some(j)
    ensures Filter(StripCode(t), NotTick) == t[1..j] + Filter(StripCode(t[j + 1..]), NotTick)
  {
    var inner := t[1..j];
    assert StripCode(t) == inner + StripCode(t[j + 1..]);
    NoTickKept(inner);
    FilterAppend(inner, StripCode(t[j + 1..]), NotTick);
  }

  lemma CodeSpanText(t: string, j: nat)
    requires CodeAt(t) == Some(j)
    ensures Filter(t, NotTick) == t[1..j] + Filter(t[j + 1..], NotTick)
  {
    var inner, rest := t[1..j], t[j + 1..];
    assert t == [t[0]] + inner + [t[j]] + rest;
    FilterDropEnds(t[0], inner, t[j], rest, NotTick);
    NoTickKept(inner);
  }

  lemma NoTickKept(s: string)
    requires '`' !in s
    ensures Filter(s, NotTick) == s
  {
    FilterAll(s, NotTick);
  }

  /** A character that starts no code span is kept. */
  lemma PlainStripped(t: string)
    requires |t| > 0 && CodeAt(t).None?
    ensures Filter(StripCode(t), NotTick)
         == (if NotTick(t[0]) then [t[0]] else []) + Filter(StripCode(t[1..]), NotTick)
  {
    assert StripCode(t) == [t[0]] + StripCode(t[1..]);
    FilterCons(t[0], StripCode(t[1..]), NotTick);
  }

  /** Stripping code spans removes only backquotes: every other character
      stays, in order. */
  lemma {:induction false} StripCodeKeepsText(t: string)
    ensures Filter(StripCode(t), NotTick) == Filter(t, NotTick)
    decreases |t|
  {
    if |t| > 0 {
      match CodeAt(t)
      case Some(j) =>
        CodeSpanStripped(t, j);
        CodeSpanText(t, j);
        StripCodeKeepsText(t[j + 1..]);
      case None =>
        PlainStripped(t);
        StripCodeKeepsText(t[1..]);
    }
  }

  /** Text without a backquote has no code span and is left as it is. */
  lemma {:induction false} StripCodeNoTick(t: string)
    requires '`' !in t
    ensures StripCode(t) == t
  {
    if |t| > 0 {
      assert '`' !in t[1..];
      StripCodeNoTick(t[1..]);
    }
  }

  // ---------------------------------------------------------------------
  // Emphasis markers and white space

  predicate IsMark(c: char) {
    c == '*' || c == '_' || c == '~'
  }

  predicate NoMarks(s: string) {
    forall i :: 0 <= i < |s| ==> !IsMark(s[i])
  }

  predicate NotMark(c: char) {
    !IsMark(c)
  }

  /** `replace(/[*_~]/g, "")` */
  function RemoveMarks(t: string): (r: string)
    ensures r == Filter(t, NotMark)
    ensures NoMarks(r)
    ensures |r| <= |t|
    ensures forall c :: c in r <==> c in t && !IsMark(c)
  {
    if |t| == 0 then ""
    else
      assert t == [t[0]] + t[1..];
      (if IsMark(t[0]) then "" else [t[0]]) + RemoveMarks(t[1..])
  }

  /** White space occurs only as single ordinary spaces. */
  predicate SingleSpaced(s: string) {
    && (forall i :: 0 <= i < |s| && IsSpace(s[i]) ==> s[i] == ' ')
    && (forall i :: 0 <= i < |s| - 1 ==> !(IsSpace(s[i]) && IsSpace(s[i + 1])))
  }

  /** `replace(/\s+/g, " ")` */
  function CollapseSpace(t: string): (r: string)
    ensures SingleSpaced(r)
    ensures forall c :: c in r && c != ' ' ==> c in t
    ensures |r| > 0 ==> |t| > 0 && (IsSpace(r[0]) <==> IsSpace(t[0]))
    ensures |r| == 0 <==> |t| == 0
    ensures |r| <= |t|
    decreases |t|
  {
    if |t| == 0 then ""
    else if IsSpace(t[0]) then
      var u := TrimStart(t);
      assert |u| < |t|;
      assert forall c :: c in u ==> c in t;
      " " + CollapseSpace(u)
    else
      assert forall c :: c in t[1..] ==> c in t;
      [t[0]] + CollapseSpace(t[1..])
  }

  lemma SingleSpacedSlice(s: string, a: nat, b: nat)
    requires SingleSpaced(s) && a <= b <= |s|
    ensures SingleSpaced(s[a..b])
  {
    var r := s[a..b];
    assert forall i :: 0 <= i < |r| ==> r[i] == s[a + i];
  }

  lemma NoMarksSlice(s: string, a: nat, b: nat)
    requires NoMarks(s) && a <= b <= |s|
    ensures NoMarks(s[a..b])
  {
    var r := s[a..b];
    assert forall i :: 0 <= i < |r| ==> r[i] == s[a + i];
  }

  lemma PrefixKeeps(s: string, n: nat)
    requires n <= |s|
    ensures SingleSpaced(s) ==> SingleSpaced(s[..n])
    ensures NoMarks(s) ==> NoMarks(s[..n])
  {
    assert s[..n] == s[0..n];
    if SingleSpaced(s) {
      SingleSpacedSlice(s, 0, n);
    }
    if NoMarks(s) {
      NoMarksSlice(s, 0, n);
    }
  }

  lemma TrimStartKeeps(s: string)
    ensures SingleSpaced(s) ==> SingleSpaced(TrimStart(s))
    ensures NoMarks(s) ==> NoMarks(TrimStart(s))
  {
    var a := |s| - |TrimStart(s)|;
    assert TrimStart(s) == s[a..|s|] by {
      SliceToEnd(s, a);
    }
    if SingleSpaced(s) {
      SingleSpacedSlice(s, a, |s|);
    }
    if NoMarks(s) {
      NoMarksSlice(s, a, |s|);
    }
  }

  lemma TrimEndKeeps(s: string)
    ensures SingleSpaced(s) ==> SingleSpaced(TrimEnd(s))
    ensures NoMarks(s) ==> NoMarks(TrimEnd(s))
  {
    PrefixKeeps(s, |TrimEnd(s)|);
  }

  /** Trimming keeps single spacing and the absence of markers. */
  lemma TrimKeeps(s: string)
    ensures |Trim(s)| <= |s|
    ensures SingleSpaced(s) ==> SingleSpaced(Trim(s))
    ensures NoMarks(s) ==> NoMarks(Trim(s))
  {
    TrimStartKeeps(s);
    TrimEndKeeps(TrimStart(s));
  }

  /** Collapsing white space introduces no markers. */
  lemma CollapseKeepsNoMarks(t: string)
    requires NoMarks(t)
    ensures NoMarks(CollapseSpace(t))
  {
    var c := CollapseSpace(t);
    forall i | 0 <= i < |c|
      ensures !IsMark(c[i])
    {
      assert c[i] in c;
      if c[i] != ' ' {
        var j :| 0 <= j < |t| && t[j] == c[i];
      }
    }
  }

  /** A character that is not white space. */
  predicate Visible(c: char) {
    !IsSpace(c)
  }

  /** A character that survives marker removal and white-space handling. */
  predicate Kept(c: char) {
    !IsSpace(c) && !IsMark(c)
  }

  /** White space around text does not change its visible characters. */
  lemma DropSpaces(a: string, b: string)
    requires forall i :: 0 <= i < |a| ==> IsSpace(a[i])
    ensures Filter(a + b, Visible) == Filter(b, Visible)
    ensures Filter(b + a, Visible) == Filter(b, Visible)
  {
    FilterNone(a, Visible);
    FilterAppend(a, b, Visible);
    FilterAppend(b, a, Visible);
  }

  /** Text free of markers loses nothing to marker removal. */
  lemma RemoveMarksUnmarked(t: string)
    requires NoMarks(t)
    ensures RemoveMarks(t) == t
  {
    forall c | c in t
      ensures NotMark(c)
    {
      var i :| 0 <= i < |t| && t[i] == c;
    }
    FilterAll(t, NotMark);
  }

  /** Single-spaced text is left as it is by collapsing. */
  lemma {:induction false} CollapseSingleSpaced(t: string)
    requires SingleSpaced(t)
    ensures CollapseSpace(t) == t
    decreases |t|
  {
    if |t| > 0 {
      SingleSpacedSlice(t, 1, |t|);
      assert t[1..|t|] == t[1..];
      CollapseSingleSpaced(t[1..]);
      if IsSpace(t[0]) {
        assert |t| > 1 ==> !IsSpace(t[1..][0]);
        assert TrimStart(t[1..]) == t[1..];
        assert t == " " + t[1..];
      } else {
        assert t == [t[0]] + t[1..];
      }
    }
  }

  /** A run of white space becomes one space: the visible characters are
      those after the run. */
  lemma CollapseSpaceRun(t: string)
    requires |t| > 0 && IsSpace(t[0])
    ensures |TrimStart(t)| < |t|
    ensures Filter(CollapseSpace(t), Visible) == Filter(CollapseSpace(TrimStart(t)), Visible)
    ensures Filter(t, Visible) == Filter(TrimStart(t), Visible)
  {
    var u := TrimStart(t);
    assert u == t[|t| - |u|..];
    FilterCons(' ', CollapseSpace(u), Visible);
    TrimStartKeepsVisible(t);
  }

  /** Any other character is kept and the rest is collapsed. */
  lemma CollapseVisible(t: string)
    requires |t| > 0 && !IsSpace(t[0])
    ensures Filter(CollapseSpace(t), Visible) == [t[0]] + Filter(CollapseSpace(t[1..]), Visible)
  {
    assert CollapseSpace(t) == [t[0]] + CollapseSpace(t[1..]);
    FilterCons(t[0], CollapseSpace(t[1..]), Visible);
  }

  /** Collapsing white space keeps every other character, in order. */
  lemma {:induction false} CollapseKeepsVisible(t: string)
    ensures Filter(CollapseSpace(t), Visible) == Filter(t, Visible)
    decreases |t|
  {
    if |t| > 0 {
      if IsSpace(t[0]) {
        CollapseSpaceRun(t);
        CollapseKeepsVisible(TrimStart(t));
      } else {
        CollapseVisible(t);
        CollapseKeepsVisible(t[1..]);
        assert Filter(t, Visible) == [t[0]] + Filter(t[1..], Visible);
      }
    }
  }

  lemma TrimStartKeepsVisible(s: string)
    ensures Filter(TrimStart(s), Visible) == Filter(s, Visible)
  {
    var u := TrimStart(s);
    var spaces := s[..|s| - |u|];
    assert s == spaces + u;
    DropSpaces(spaces, u);
  }

  lemma TrimEndKeepsVisible(s: string)
    ensures Filter(TrimEnd(s), Visible) == Filter(s, Visible)
  {
    var w := TrimEnd(s);
    var spaces := s[|w|..];
    assert s == w + spaces;
    DropSpaces(spaces, w);
  }

  /** Trimming keeps every character that is not white space, in order. */
  lemma TrimKeepsVisible(s: string)
    ensures Filter(Trim(s), Visible) == Filter(s, Visible)
  {
    TrimStartKeepsVisible(s);
    TrimEndKeepsVisible(TrimStart(s));
  }

  /** Dropping markers and then white space drops both at once. */
  lemma {:induction false} FilterMarksThenSpaces(s: string)
    ensures Filter(Filter(s, NotMark), Visible) == Filter(s, Kept)
  {
    if |s| > 0 {
      FilterMarksThenSpaces(s[1..]);
      var m := Filter(s[1..], NotMark);
      FilterAppend(if NotMark(s[0]) then [s[0]] else [], m, Visible);
      if NotMark(s[0]) {
        FilterOne(s[0], Visible);
      }
    }
  }

  /** `stripMarkdown`: the replace chain followed by `trim`. */
  function StripMarkdown(input: string): (r: string)
    ensures |r| <= |input|
    ensures NoMarks(r)
    ensures IsTrimmed(r)
    ensures SingleSpaced(r)
    ensures Filter(r, Visible) == Filter(StripCode(StripLinks(input)), Kept)
  {
    var unlinked := StripCode(StripLinks(input));
    var marked := RemoveMarks(unlinked);
    var collapsed := CollapseSpace(marked);
    CollapseKeepsNoMarks(marked);
    TrimKeeps(collapsed);
    TrimKeepsVisible(collapsed);
    CollapseKeepsVisible(marked);
    FilterMarksThenSpaces(unlinked);
    Trim(collapsed)
  }

  /** Plain text (trimmed, single-spaced, without markers, brackets or
      backquotes) is its own stripped form. */
  lemma StripMarkdownPlain(s: string)
    requires IsTrimmed(s) && SingleSpaced(s) && NoMarks(s) && '[' !in s && '`' !in s
    ensures StripMarkdown(s) == s
  {
    StripLinksNoBracket(s);
    StripCodeNoTick(s);
    RemoveMarksUnmarked(s);
    CollapseSingleSpaced(s);
    TrimOfTrimmed(s);
  }

  const Ellipsis: char := '\U{2026}'

  /** The return statement: the stripped text if short enough, otherwise
      `slice(0, maxLength - 1).trimEnd()` followed by "…". */
  function Shorten(s: string, maxLength: int): (r: string)
    ensures |s| <= maxLength ==> r == s
    ensures |s| > maxLength ==>
      1 <= |r| <= |s| + 1 && r[|r| - 1] == Ellipsis && r[..|r| - 1] == s[..|r| - 1]
    ensures maxLength >= 1 ==> |r| <= maxLength
    ensures NoMarks(s) ==> NoMarks(r)
    ensures IsTrimmed(s) ==> IsTrimmed(r)
    ensures SingleSpaced(s) ==> SingleSpaced(r)
  {
    if |s| <= maxLength then s
    else
      var taken := Take(s, maxLength - 1);
      var cut := TrimEnd(taken);
      assert cut == s[..|cut|];
      var r := cut + [Ellipsis];
      assert r[..|r| - 1] == cut;
      assert cut == s[..|cut|];
      PrefixKeeps(s, |cut|);
      r
  }

  // ---------------------------------------------------------------------
  // Paragraph collection

  /** `/^#{1,6}\s+/` */
  predicate IsHeading(line: string) {
    var k := LeadingHashes(line);
    1 <= k <= 6 && k < |line| && IsSpace(line[k])
  }

  /** `/^[-*+]\s+/` */
  predicate IsListItem(line: string) {
    |line| >= 2 && (line[0] == '-' || line[0] == '*' || line[0] == '+') && IsSpace(line[1])
  }

  /** `/^```/` */
  predicate IsFence(line: string) {
    StartsWith(line, "```")
  }

  predicate Skipped(line: string) {
    IsHeading(line) || IsListItem(line) || IsFence(line)
  }

  /** How the summary loop treats one raw line: blank once trimmed, skipped
      (a heading, a list item or a fence), or prose contributing its
      trimmed text. */
  datatype ParaLine = Blank | Skip | Prose(text: string)

  function ParaKind(raw: string): (k: ParaLine)
    ensures k.Blank? <==> Trim(raw) == ""
    ensures k.Skip? <==> Trim(raw) != "" && Skipped(Trim(raw))
    ensures k.Prose? ==> k.text == Trim(raw) && k.text != "" && IsTrimmed(k.text)
  {
    var line := Trim(raw);
    if line == "" then Blank else if Skipped(line) then Skip else Prose(line)
  }

  function ParaKinds(lines: seq<string>): (ks: seq<ParaLine>)
    ensures |ks| == |lines|
    ensures forall i :: 0 <= i < |lines| ==> ks[i] == ParaKind(lines[i])
  {
    seq(|lines|, i requires 0 <= i < |lines| => ParaKind(lines[i]))
  }

  /** The loop of `extractSummaryFromMdxBody` from the line classified
      `ks[0]` on, having collected `acc` so far: a blank line ends a
      started paragraph, skipped lines are passed over, and a prose line is
      added, ending the paragraph once the joined text reaches `maxLength`. */
  function Collect(ks: seq<ParaLine>, acc: seq<string>, maxLength: int): (r: seq<string>)
    ensures |acc| <= |r| <= |acc| + |ks| && r[..|acc|] == acc
    decreases |ks|
  {
    if |ks| == 0 then acc
    else match ks[0]
      case Blank => if |acc| > 0 then acc else Collect(ks[1..], acc, maxLength)
      case Skip => Collect(ks[1..], acc, maxLength)
      case Prose(line) =>
        if |Join(acc + [line], " ")| >= maxLength then acc + [line]
        else Collect(ks[1..], acc + [line], maxLength)
  }

  /** Every collected line is the text of a prose line. */
  lemma {:induction false} CollectFromProse(ks: seq<ParaLine>, acc: seq<string>, maxLength: int)
    ensures forall l :: l in Collect(ks, acc, maxLength) ==>
      l in acc || exists i :: 0 <= i < |ks| && ks[i] == Prose(l)
    decreases |ks|
  {
    if |ks| > 0 {
      var acc' := if ks[0].Prose? then acc + [ks[0].text] else acc;
      CollectFromProse(ks[1..], acc', maxLength);
      forall l | l in Collect(ks[1..], acc', maxLength) && !(l in acc')
        ensures exists i :: 0 <= i < |ks| && ks[i] == Prose(l)
      {
        var i :| 0 <= i < |ks[1..]| && ks[1..][i] == Prose(l);
        assert ks[i + 1] == ks[1..][i];
      }
    }
  }

  /** A body without prose lines gives no paragraph. */
  lemma {:induction false} CollectNoProse(ks: seq<ParaLine>, maxLength: int)
    requires forall i :: 0 <= i < |ks| ==> !ks[i].Prose?
    ensures Collect(ks, [], maxLength) == []
    decreases |ks|
  {
    if |ks| > 0 {
      assert !ks[0].Prose?;
      CollectNoProse(ks[1..], maxLength);
    }
  }

  /** Once prose has been collected, nothing after the next blank line is
      read. */
  lemma {:induction false} CollectStopsAtBlank(p: seq<ParaLine>, rest: seq<ParaLine>,
                                               acc: seq<string>, maxLength: int)
    requires acc != [] || exists i :: 0 <= i < |p| && p[i].Prose?
    ensures Collect(p + [Blank] + rest, acc, maxLength) == Collect(p + [Blank], acc, maxLength)
    decreases |p|
  {
    var long := p + [Blank] + rest;
    var short := p + [Blank];
    if |p| == 0 {
      assert long[0] == Blank && short[0] == Blank;
    } else {
      assert long[0] == p[0] && short[0] == p[0];
      assert long[1..] == p[1..] + [Blank] + rest && short[1..] == p[1..] + [Blank];
      match p[0]
      case Blank =>
        if acc == [] {
          var i :| 0 <= i < |p| && p[i].Prose?;
          assert p[1..][i - 1].Prose?;
          CollectStopsAtBlank(p[1..], rest, acc, maxLength);
        }
      case Skip =>
        if acc == [] {
          var i :| 0 <= i < |p| && p[i].Prose?;
          assert p[1..][i - 1].Prose?;
        }
        CollectStopsAtBlank(p[1..], rest, acc, maxLength);
      case Prose(line) =>
        if |Join(acc + [line], " ")| < maxLength {
          CollectStopsAtBlank(p[1..], rest, acc + [line], maxLength);
        }
    }
  }

  /** The summary of a collected paragraph. */
  function Summarize(paragraph: seq<string>, maxLength: int): (r: string)
    ensures maxLength >= 1 ==> |r| <= maxLength
    ensures NoMarks(r) && IsTrimmed(r) && SingleSpaced(r)
  {
    Shorten(StripMarkdown(Join(paragraph, " ")), maxLength)
  }

  /** No paragraph gives the empty summary. */
  lemma SummarizeEmpty(maxLength: nat)
    ensures Summarize([], maxLength) == ""
  {
    var stripped := StripMarkdown(Join([], " "));
    assert |stripped| == 0;
    assert Shorten(stripped, maxLength) == stripped;
  }

  /** `extractSummaryFromMdxBody`. */
  method ExtractSummaryFromMdxBody(body: string, maxLength: int) returns (summary: string)
    ensures summary == Summarize(Collect(ParaKinds(Split(body, '\n')), [], maxLength), maxLength)
    ensures maxLength >= 1 ==> |summary| <= maxLength
    ensures NoMarks(summary) && IsTrimmed(summary) && SingleSpaced(summary)
  {
    var lines := Split(body, '\n');
    var paragraphLines: seq<string> := [];
    var i := 0;
    while i < |lines|
      invariant 0 <= i <= |lines|
      invariant Collect(ParaKinds(lines)[i..], paragraphLines, maxLength)
             == Collect(ParaKinds(lines), [], maxLength)
    {
      ghost var ks := ParaKinds(lines)[i..];
      DropHead(ParaKinds(lines), i);
      var line := Trim(lines[i]);
      if line == "" {
        assert ks[0] == Blank;
        if |paragraphLines| > 0 {
          break;
        }
        i := i + 1;
        continue;
      }
      if IsHeading(line) || IsListItem(line) || IsFence(line) {
        assert ks[0] == Skip;
        i := i + 1;
        continue;
      }
      assert ks[0] == Prose(line);
      paragraphLines := paragraphLines + [line];
      if |Join(paragraphLines, " ")| >= maxLength {
        break;
      }
      i := i + 1;
    }
    var stripped := StripMarkdown(Join(paragraphLines, " "));
    if |stripped| <= maxLength {
      summary := stripped;
    } else {
      summary := TrimEnd(Take(stripped, maxLength - 1)) + [Ellipsis];
    }
  }
}
