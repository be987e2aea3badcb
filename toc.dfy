/** src/lib/content/toc.ts: the table of contents of an entry body. Every
    `##` and `###` heading outside fenced code blocks becomes an item, up to a
    limit. `slugify` is a module this model does not include and is a
    parameter. */
module Toc {
  import opened Wrappers
  import opened Text
  import opened Seqs

  datatype TocItem = TocItem(id: string, text: string, depth: nat)

  const DefaultMaxItems := 12

  /** An item as the source builds it: `id` is the slug of the trimmed
      heading text, never empty, and the depth is 2 or 3. */
  predicate ItemOk(it: TocItem, slugify: string -> string) {
    it.id != "" && it.id == slugify(it.text) && IsTrimmed(it.text) && it.text != ""
    && (it.depth == 2 || it.depth == 3)
  }

  predicate IsFence(line: string) {
    StartsWith(line, "```")
  }

  predicate NoLineTerminator(s: string) {
    forall i :: 0 <= i < |s| ==> !IsLineTerminator(s[i])
  }

  /** `/^#{depth}\s+(.+)$/.exec(line)[1]` for a depth of 2 or 3, on a line
      without trailing white space. The hashes must be followed by white
      space, so they are exactly the line's leading `#` characters; the
      greedy `\s+` takes every space after them, so the capture is the rest
      with its leading white space removed, and `.` rejects a capture
      holding a line terminator. */
  function HeadingMatch(line: string, depth: nat): (r: Option<string>)
    ensures r.Some? ==> LeadingHashes(line) == depth
    ensures r.Some? ==> r.value != "" && !IsSpace(r.value[0])
  {
    if LeadingHashes(line) == depth && depth < |line| && IsSpace(line[depth]) then
      var capture := TrimStart(line[depth..]);
      if capture != "" && NoLineTerminator(capture) then Some(capture) else None
    else None
  }

  /** The depth and trimmed text of a heading line: `##` is tried first,
      then `###`. */
  function HeadingOf(line: string): (r: Option<(nat, string)>)
    ensures r.Some? ==> r.value.0 == LeadingHashes(line)
    ensures r.Some? ==> r.value.0 == 2 || r.value.0 == 3
    ensures r.Some? ==> IsTrimmed(r.value.1) && r.value.1 != ""
  {
    match HeadingMatch(line, 2)
    case Some(capture) => Some((2, Trim(capture)))
    case None =>
      match HeadingMatch(line, 3)
      case Some(capture) => Some((3, Trim(capture)))
      case None => None
  }

  /** A line is a heading of depth 2 or 3 exactly when it opens with that
      many `#` and white space and the rest, past its leading white space,
      is non-empty and free of line terminators. Lines opening with one `#`
      or with four or more are no headings. */
  lemma HeadingShape(line: string, depth: nat)
    requires depth == 2 || depth == 3
    ensures (HeadingOf(line).Some? && HeadingOf(line).value.0 == depth) <==>
      (&& LeadingHashes(line) == depth && depth < |line| && IsSpace(line[depth])
       && TrimStart(line[depth..]) != "" && NoLineTerminator(TrimStart(line[depth..])))
    ensures LeadingHashes(line) == 1 || LeadingHashes(line) >= 4 ==> HeadingOf(line).None?
  {
  }

  /** What one heading contributes: nothing when its slug is empty. */
  function ItemFor(depth: nat, text: string, slugify: string -> string): (r: seq<TocItem>)
    requires depth == 2 || depth == 3
    requires IsTrimmed(text) && text != ""
    ensures |r| <= 1
    ensures forall it :: it in r ==> ItemOk(it, slugify)
    ensures r != [] <==> slugify(text) != ""
  {
    var id := slugify(text);
    if id != "" then [TocItem(id, text, depth)] else []
  }

  /** What a line is once its trailing white space is removed. */
  datatype LineKind = Fence | Heading(depth: nat, text: string) | Other

  predicate KindOk(k: LineKind) {
    k.Heading? ==> (k.depth == 2 || k.depth == 3) && IsTrimmed(k.text) && k.text != ""
  }

  function KindOf(rawLine: string): (k: LineKind)
    ensures KindOk(k)
    ensures k.Fence? <==> IsFence(TrimEnd(rawLine))
    ensures k.Heading? <==> !IsFence(TrimEnd(rawLine)) && HeadingOf(TrimEnd(rawLine)).Some?
    ensures k.Heading? ==> (k.depth, k.text) == HeadingOf(TrimEnd(rawLine)).value
  {
    var line := TrimEnd(rawLine);
    if IsFence(line) then Fence
    else
      match HeadingOf(line)
      case Some((depth, text)) => Heading(depth, text)
      case None => Other
  }

  /** The kind of every line. */
  function Kinds(lines: seq<string>): (ks: seq<LineKind>)
    ensures |ks| == |lines|
    ensures AllOk(ks)
  {
    if |lines| == 0 then [] else [KindOf(lines[0])] + Kinds(lines[1..])
  }

  lemma {:induction false} KindsAt(lines: seq<string>, i: nat)
    requires i < |lines|
    ensures Kinds(lines)[i] == KindOf(lines[i])
  {
    if i > 0 {
      KindsAt(lines[1..], i - 1);
    }
  }

  /** The code-block flag after a line of kind `k`. */
  function NextInCode(k: LineKind, inCode: bool): bool {
    if k.Fence? then !inCode else inCode
  }

  /** The items one line yields, given whether it is inside a code block. */
  function LineItems(k: LineKind, inCode: bool, slugify: string -> string): (r: seq<TocItem>)
    requires KindOk(k)
    ensures |r| <= 1
    ensures forall it :: it in r ==> ItemOk(it, slugify)
    ensures !k.Heading? || inCode ==> r == []
  {
    if k.Heading? && !inCode then ItemFor(k.depth, k.text, slugify) else []
  }

  predicate AllOk(ks: seq<LineKind>) {
    forall i :: 0 <= i < |ks| ==> KindOk(ks[i])
  }

  /** Every item of the document, without the limit. */
  function AllItems(ks: seq<LineKind>, inCode: bool, slugify: string -> string): (r: seq<TocItem>)
    requires AllOk(ks)
    ensures forall it :: it in r ==> ItemOk(it, slugify)
    decreases |ks|
  {
    if |ks| == 0 then []
    else LineItems(ks[0], inCode, slugify) + AllItems(ks[1..], NextInCode(ks[0], inCode), slugify)
  }

  /** The loop of `extractTocFromMdx` from the line of kind `ks[0]` on, with
      `items` collected so far and the current code-block flag. */
  function Scan(ks: seq<LineKind>, items: seq<TocItem>, inCode: bool, maxItems: int,
                slugify: string -> string): (r: seq<TocItem>)
    requires AllOk(ks)
    ensures |items| <= |r| && r[..|items|] == items
    ensures forall k :: |items| <= k < |r| ==> ItemOk(r[k], slugify)
    ensures |r| <= (if |items| < maxItems then maxItems else |items| + 1)
    decreases |ks|
  {
    if |ks| == 0 then items
    else
      match ks[0]
      case Fence => Scan(ks[1..], items, !inCode, maxItems, slugify)
      case Other => Scan(ks[1..], items, inCode, maxItems, slugify)
      case Heading(depth, text) =>
        if inCode then Scan(ks[1..], items, inCode, maxItems, slugify)
        else
          var more := items + ItemFor(depth, text, slugify);
          if |more| >= maxItems then more else Scan(ks[1..], more, inCode, maxItems, slugify)
  }

  /** Below the limit, the loop yields the unlimited items cut at the limit. */
  lemma {:induction false} ScanIsTake(ks: seq<LineKind>, items: seq<TocItem>, inCode: bool,
                                      maxItems: int, slugify: string -> string)
    requires AllOk(ks)
    requires |items| < maxItems
    ensures Scan(ks, items, inCode, maxItems, slugify)
         == items + Take(AllItems(ks, inCode, slugify), maxItems - |items|)
    decreases |ks|
  {
    if |ks| > 0 {
      var here := LineItems(ks[0], inCode, slugify);
      var rest := AllItems(ks[1..], NextInCode(ks[0], inCode), slugify);
      if !ks[0].Heading? || inCode {
        assert here + rest == rest;
        ScanIsTake(ks[1..], items, NextInCode(ks[0], inCode), maxItems, slugify);
      } else {
        var more := items + here;
        TakeAppend(here, rest, maxItems - |items|);
        if |more| >= maxItems {
          assert maxItems - |items| - |here| == 0;
          assert Take(rest, 0) == [];
        } else {
          ScanIsTake(ks[1..], more, inCode, maxItems, slugify);
        }
      }
    }
  }

  /** The number of fence lines among `ks`. */
  function FenceCount(ks: seq<LineKind>): nat {
    if |ks| == 0 then 0 else (if ks[0].Fence? then 1 else 0) + FenceCount(ks[1..])
  }

  /** Whether line `i` is inside a code block: an odd number of fences
      precede it (toggled once more when the scan starts inside one). */
  function InCodeAt(ks: seq<LineKind>, i: nat, inCode: bool): bool
    requires i <= |ks|
  {
    inCode != (FenceCount(ks[..i]) % 2 == 1)
  }

  lemma InCodeAtShift(ks: seq<LineKind>, i: nat, inCode: bool)
    requires i < |ks|
    ensures InCodeAt(ks, i + 1, inCode) == InCodeAt(ks[1..], i, NextInCode(ks[0], inCode))
  {
    assert ks[..i + 1][0] == ks[0];
    assert ks[..i + 1][1..] == ks[1..][..i];
  }

  /** What line `i` yields on its own. */
  function LineAt(ks: seq<LineKind>, i: nat, inCode: bool, slugify: string -> string): seq<TocItem>
    requires AllOk(ks) && i < |ks|
  {
    LineItems(ks[i], InCodeAt(ks, i, inCode), slugify)
  }

  function PerLine(ks: seq<LineKind>, inCode: bool, slugify: string -> string): (r: seq<seq<TocItem>>)
    requires AllOk(ks)
    ensures |r| == |ks|
    ensures forall i :: 0 <= i < |ks| ==> r[i] == LineAt(ks, i, inCode, slugify)
  {
    seq(|ks|, i requires 0 <= i < |ks| => LineAt(ks, i, inCode, slugify))
  }

  /** The items are, in document order, what each line yields on its own:
      fence lines and lines inside a code block yield nothing. */
  lemma {:induction false} AllItemsPerLine(ks: seq<LineKind>, inCode: bool, slugify: string -> string)
    requires AllOk(ks)
    ensures AllItems(ks, inCode, slugify) == Flatten(PerLine(ks, inCode, slugify))
    decreases |ks|
  {
    if |ks| > 0 {
      var per := PerLine(ks, inCode, slugify);
      var next := NextInCode(ks[0], inCode);
      AllItemsPerLine(ks[1..], next, slugify);
      var tail := PerLine(ks[1..], next, slugify);
      assert ks[..0] == [];
      assert per[0] == LineItems(ks[0], inCode, slugify);
      forall i | 0 <= i < |ks| - 1
        ensures per[1..][i] == tail[i]
      {
        InCodeAtShift(ks, i, inCode);
      }
      assert per[1..] == tail;
    }
  }

  /** One step of the scan over a line that is not a heading outside code. */
  lemma ScanSkip(ks: seq<LineKind>, i: nat, items: seq<TocItem>, inCode: bool,
                 maxItems: int, slugify: string -> string)
    requires AllOk(ks) && i < |ks|
    requires !ks[i].Heading? || inCode
    ensures Scan(ks[i..], items, inCode, maxItems, slugify)
         == Scan(ks[i + 1..], items, NextInCode(ks[i], inCode), maxItems, slugify)
  {
    assert ks[i..][0] == ks[i] && ks[i..][1..] == ks[i + 1..];
  }

  /** One step of the scan over a heading outside code. */
  lemma ScanHeading(ks: seq<LineKind>, i: nat, items: seq<TocItem>,
                    maxItems: int, slugify: string -> string)
    requires AllOk(ks) && i < |ks| && ks[i].Heading?
    ensures var more := items + ItemFor(ks[i].depth, ks[i].text, slugify);
      Scan(ks[i..], items, false, maxItems, slugify)
      == if |more| >= maxItems then more else Scan(ks[i + 1..], more, false, maxItems, slugify)
  {
    assert ks[i..][0] == ks[i] && ks[i..][1..] == ks[i + 1..];
  }

  /** `extractTocFromMdx`. Each line is classified by `KindOf`, which holds
      the source's `trimEnd`, fence test and the two heading expressions;
      these are pure, so evaluating the heading match also inside a code
      block changes nothing. */
  method ExtractTocFromMdx(body: string, maxItems: int, slugify: string -> string)
    returns (items: seq<TocItem>)
    ensures items == Scan(Kinds(Split(body, '\n')), [], false, maxItems, slugify)
    ensures forall it :: it in items ==> ItemOk(it, slugify)
  {
    var lines := Split(body, '\n');
    ghost var ks := Kinds(lines);
    items := [];
    var inCodeBlock := false;
    var i := 0;
    while i < |lines|
      invariant 0 <= i <= |lines|
      invariant Scan(ks[i..], items, inCodeBlock, maxItems, slugify) == Scan(ks, [], false, maxItems, slugify)
      invariant forall it :: it in items ==> ItemOk(it, slugify)
    {
      var kind := KindOf(lines[i]);
      KindsAt(lines, i);
      if kind.Fence? {
        ScanSkip(ks, i, items, inCodeBlock, maxItems, slugify);
        inCodeBlock := !inCodeBlock;
        i := i + 1;
        continue;
      }
      if inCodeBlock {
        ScanSkip(ks, i, items, inCodeBlock, maxItems, slugify);
        i := i + 1;
        continue;
      }
      if kind.Heading? {
        ScanHeading(ks, i, items, maxItems, slugify);
        ghost var more := items + ItemFor(kind.depth, kind.text, slugify);
        var id := slugify(kind.text);
        if id != "" {
          items := items + [TocItem(id, kind.text, kind.depth)];
        }
        assert items == more;
        if |items| >= maxItems {
          break;
        }
      } else {
        ScanSkip(ks, i, items, inCodeBlock, maxItems, slugify);
      }
      i := i + 1;
    }
  }

  /** With a limit of at least one, the items are the first `maxItems` of
      all the document's items, so never more than `maxItems`. */
  lemma TocLimit(body: string, maxItems: int, slugify: string -> string)
    requires maxItems >= 1
    ensures var ks := Kinds(Split(body, '\n'));
      Scan(ks, [], false, maxItems, slugify) == Take(AllItems(ks, false, slugify), maxItems)
    ensures |Scan(Kinds(Split(body, '\n')), [], false, maxItems, slugify)| <= maxItems
  {
    var ks := Kinds(Split(body, '\n'));
    ScanIsTake(ks, [], false, maxItems, slugify);
    assert [] + Take(AllItems(ks, false, slugify), maxItems) == Take(AllItems(ks, false, slugify), maxItems);
  }

  /** Every item is well formed whatever the limit. */
  lemma {:induction false} ScanItemsOk(ks: seq<LineKind>, items: seq<TocItem>, inCode: bool,
                                       maxItems: int, slugify: string -> string)
    requires AllOk(ks)
    requires forall it :: it in items ==> ItemOk(it, slugify)
    ensures forall it :: it in Scan(ks, items, inCode, maxItems, slugify) ==> ItemOk(it, slugify)
    decreases |ks|
  {
    if |ks| > 0 {
      var more := if ks[0].Heading? && !inCode then items + ItemFor(ks[0].depth, ks[0].text, slugify) else items;
      ScanItemsOk(ks[1..], more, NextInCode(ks[0], inCode), maxItems, slugify);
    }
  }
}
