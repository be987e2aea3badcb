# seattleux.com content pipeline, modelled in Dafny

The site publishes six collections kept as MDX files under `content/`:
agencies (firms), teams (companies), guides, playbooks, community events
and community groups. Each file has a YAML frontmatter block that a schema
validates; the loaders list a directory, read and validate every entry and
put the collection in its fixed order. Around the loaders sit pure helpers
that pages and feeds use: summaries and tables of contents extracted from
MDX bodies, related-content ranking, facet lists, staleness of a listing,
URL query-parameter handling, search and filter panels, tag counts, an
infinite-scrolling grid, the command palette's grouping, the iCalendar
export of events, the RSS and Atom feeds of guides, and links into the
repository.

The Dafny project models those parts, one module per source file or page:

| module | models |
|---|---|
| `Wrappers`, `Seqs`, `Sorting`, `Text` | option/result values, sequence helpers, a stable sort standing for `Array.prototype.sort`, and the string operations the site uses (`trim`, ASCII `toLowerCase`, `split`/`join`, `includes`, `startsWith`/`endsWith`, `replaceAll`, `localeCompare`) |
| `SiteConfig` | the site URL |
| `ContentFs` | `src/lib/content/fs.ts`: listing `.mdx` slugs and reading one file |
| `Schemas` | `src/lib/content/schemas.ts`: the six frontmatter schemas as validators over a parsed YAML value |
| `FrontmatterCodec` | the frontmatter written back as YAML fields, and the round trip through the validators |
| `Loaders` | `src/lib/content/loaders.ts`: one entry, reading time, the all-or-first-error load of a listing, and `assertUniqueSlugs` |
| `Collections` | the six `getAll*` loaders with their order, draft filter and duplicate check |
| `Summary`, `Toc`, `Related`, `Facets`, `Stale` | the remaining files of `src/lib/content/` |
| `UrlParams` | `src/lib/url/searchParams.ts` and a `URLSearchParams` object |
| `FilterPanel`, `ListingPages`, `SearchClient`, `TagCounts`, `TagsPage`, `HomePage`, `InfiniteGrid`, `CommandPalette` | the pure helpers and state of the pages and components |
| `EventsIcs`, `XmlText`, `RssFeed`, `AtomFeed` | the iCalendar, RSS and Atom routes |
| `RepoLinks` | `src/lib/links/repo.ts` |

The file system, the YAML parser, the clock and date parsing are
parameters: a `Directory` value holds the listed entries and the parsed
files, and an `Env` value holds `Date.parse`, the reading-time estimate
and the checks that zod makes on URLs and dates. The
date formatters the feeds use are parameters of the feed functions.

## Model

| member | source | states |
|---|---|---|
| `ContentFs.StripExtension` | src/lib/content/fs.ts:8 | a name ending in `.mdx` loses exactly that suffix; any other name is unchanged |
| `ContentFs.Slugs` | src/lib/content/fs.ts:8 | one slug per entry, in order, each the entry's name without `.mdx` |
| `ContentFs.ListMdxSlugs` | src/lib/content/fs.ts:4-10 | the result is a permutation of the slugs of the entries that are files named `*.mdx` |
| `ContentFs.ListMdxSlugsSorted` | src/lib/content/fs.ts:9 | the listed slugs ascend by `localeCompare` |
| `ContentFs.ListMdxSlugsMembers` | src/lib/content/fs.ts:6-8 | a slug is listed exactly when some file entry is named that slug plus `.mdx` |
| `ContentFs.ReadMdxFile` | src/lib/content/fs.ts:12-15 | reading `slug.mdx` succeeds exactly when the directory holds that file, and yields its contents |
| `ContentFs.ListedSlugsReadable` | src/lib/content/fs.ts:4-15 | in a directory whose listing and files agree, every listed slug can be read |
| `Loaders.IssueText` | src/lib/content/loaders.ts:25 | an issue reads `path: message`, with `(root)` for an empty path |
| `Loaders.IssueTexts` | src/lib/content/loaders.ts:26 | one issue text per issue, in the issues' order |
| `Loaders.FrontmatterError` | src/lib/content/loaders.ts:24-27 | the error is `Invalid frontmatter in <context>: ` followed by the issue texts in order, separated by `; `, so it names every issue |
| `Loaders.LoadEntry` | src/lib/content/loaders.ts:57-67 | an entry loads exactly when its file can be read and its frontmatter validates; it then carries the collection, the slug, the body and the validated frontmatter; otherwise the error is the unreadable file or the `parseFrontmatter` message |
| `Loaders.GetFirmBySlug` | src/lib/content/loaders.ts:57-67 | succeeds exactly when the file reads and its front matter passes the firm schema; the entry is tagged `firms` and holds the slug, the body and the validated front matter; a missing file fails naming `<slug>.mdx` |
| `Loaders.GetCompanyBySlug` | src/lib/content/loaders.ts:82-92 | the same, over the company schema, tagged `companies` |
| `Loaders.GetGuideBySlug` | src/lib/content/loaders.ts:109-126 | the same, over the guide schema, tagged `guides`, with `readingTimeMinutes` the rounded reading time of the body and at least one |
| `Loaders.GetPlaybookBySlug` | src/lib/content/loaders.ts:146-163 | the same, over the playbook schema, tagged `playbooks`, with the reading time |
| `Loaders.GetEventBySlug` | src/lib/content/loaders.ts:174-184 | the same, over the event schema, tagged `events` |
| `Loaders.GetGroupBySlug` | src/lib/content/loaders.ts:193-203 | the same, over the group schema, tagged `groups` |
| `Loaders.Round` | src/lib/content/loaders.ts:118 | `Math.round`: the nearest integer, halves rounding up |
| `Loaders.ReadingTimeMinutes` | src/lib/content/loaders.ts:117-118 | the reading time is at least one minute and is the rounded estimate once that is at least half a minute |
| `Loaders.WithTime` | src/lib/content/loaders.ts:117-125 | a guide or playbook keeps its collection, slug, body and fields and gains a reading time of at least one minute; errors pass through |
| `Loaders.LoadAll` | src/lib/content/loaders.ts:48 | loading a listing succeeds exactly when every slug loads, giving one entry per slug in order; a failure is the error of the first slug that fails |
| `Loaders.Dups` | src/lib/content/loaders.ts:209-214 | the reported duplicates have no repeats |
| `Loaders.DupsMembers` | src/lib/content/loaders.ts:211-214 | a slug is reported exactly when it occurs at least twice |
| `Loaders.DupsEmpty` | src/lib/content/loaders.ts:215 | no duplicates are reported exactly when the slugs are distinct |
| `Loaders.DupsSnoc` | src/lib/content/loaders.ts:211-214 | one more slug joins the report, at the end, exactly when it is that slug's second occurrence |
| `Loaders.DupsInOrder` | src/lib/content/loaders.ts:210-214 | the report lists the duplicated slugs in the order of their second occurrences: for each earlier-listed slug some prefix of the listing holds it twice while holding the later-listed one at most once |
| `Loaders.DuplicateSlugsError` | src/lib/content/loaders.ts:205-220 | no error exactly when the slugs are distinct; the error is exactly `Duplicate slugs detected for <kind>: ` followed by the reported duplicates (once each, in order of second occurrence) joined by `, `, and names every slug that occurs twice or more |
| `Loaders.AssertUniqueSlugs` | src/lib/content/loaders.ts:205-220 | the loop yields the duplicate-slugs error, and no error exactly when the slugs are distinct |
| `Loaders.ListedSlugsDistinct` | src/lib/content/fs.ts:4-10 | a directory whose entry names are distinct never trips the duplicate check (stated for playbooks; the verdict does not depend on the collection) |
| `Collections.FeaturedNameWeakOrder` | src/lib/content/loaders.ts:49-54 | featured-first-then-name is a strict weak order, so the sort is well defined |
| `Collections.GetAllFirms` | src/lib/content/loaders.ts:46-55 | fails exactly when loading the listing fails, with its error; otherwise a permutation of the loaded firms with every featured firm first and names ascending within each group |
| `Collections.GetAllCompanies` | src/lib/content/loaders.ts:69-80 | as for firms, over the companies |
| `Collections.GuideDrafts` | src/lib/content/loaders.ts:97-102 | with `includeDrafts` the entries are kept; otherwise exactly the non-draft entries, in order (the filter of the entries by "not a draft") |
| `Collections.PlaybookDrafts` | src/lib/content/loaders.ts:131-139 | as for guides, over playbooks |
| `Collections.GuideNewestFirst` | src/lib/content/loaders.ts:103-106 | the comparator is a strict weak order, and two guides tie exactly when their `publishedAt` parse to the same instant |
| `Collections.PlaybookNewestFirst` | src/lib/content/loaders.ts:140-143 | the same over playbooks |
| `Collections.GuidesListed` | src/lib/content/loaders.ts:97-106 | a permutation of the kept guides, every one non-draft unless drafts are asked for, newest `publishedAt` first |
| `Collections.PlaybooksListed` | src/lib/content/loaders.ts:136-143 | the same over playbooks |
| `Collections.GetAllGuides` | src/lib/content/loaders.ts:94-107 | fails exactly when loading fails; otherwise a permutation of the kept guides, drafts excluded unless asked for, newest `publishedAt` first |
| `Collections.GetAllPlaybooks` | src/lib/content/loaders.ts:128-144 | a repeated slug is refused before any file is read; otherwise as for guides |
| `Collections.EventSoonestFirst` | src/lib/content/loaders.ts:169-171 | the comparator is a strict weak order, and two events tie exactly when their `startAt` parse to the same instant |
| `Collections.GetAllEvents` | src/lib/content/loaders.ts:165-172 | a repeated slug is refused; otherwise a permutation of the loaded events, earliest `startAt` first |
| `Collections.GetAllGroups` | src/lib/content/loaders.ts:186-191 | a repeated slug is refused; otherwise a permutation of the loaded groups with names ascending |
| `Collections.FirmsTagged` | src/lib/content/loaders.ts:46-67 | every loaded firm is tagged `firms` and has a listed slug |
| `Collections.CompaniesTagged` | src/lib/content/loaders.ts:69-92 | every loaded company is tagged `companies` and has a listed slug |
| `Collections.GuidesTagged` | src/lib/content/loaders.ts:94-126 | every loaded guide is tagged `guides` and has a listed slug |
| `Collections.PlaybooksTagged` | src/lib/content/loaders.ts:128-163 | every loaded playbook is tagged `playbooks` and has a listed slug |
| `Collections.EventsTagged` | src/lib/content/loaders.ts:165-184 | every loaded event is tagged `events` and has a listed slug |
| `Collections.GroupsTagged` | src/lib/content/loaders.ts:186-203 | every loaded group is tagged `groups` and has a listed slug |
| `Schemas.Fail` | src/lib/content/schemas.ts:9-83 | a failed field reports at least one issue, every one under that field's key |
| `Schemas.RequiredText` | src/lib/content/schemas.ts:10 | `z.string().min(1)`: accepted exactly when the field is a non-empty string, which is returned; issues sit under the key |
| `Schemas.OptionalText` | src/lib/content/schemas.ts:26 | `.optional()` on a non-empty string: an absent field is `None`, a present one must be a non-empty string |
| `Schemas.RequiredRefined` | src/lib/content/schemas.ts:3-7 | `DateString` / `UrlString`: accepted exactly when the field is a string passing the check |
| `Schemas.OptionalRefined` | src/lib/content/schemas.ts:30-31 | the optional refined string: absent is `None`, present must pass the check |
| `Schemas.ElementIssues` | src/lib/content/schemas.ts:12 | one array element reports nothing exactly when it is a string passing the check; its issues carry the key and the index |
| `Schemas.ItemsIssues` | src/lib/content/schemas.ts:12 | an array reports nothing exactly when every element passes; every issue is under the key |
| `Schemas.Strings` | src/lib/content/schemas.ts:12 | the validated array's strings, one per element, in order |
| `Schemas.OptionalList` | src/lib/content/schemas.ts:54 | `z.array(UrlString).optional()`: absent is `None`; present must be an array of passing strings, returned element for element |
| `Schemas.TextList` | src/lib/content/schemas.ts:12-14 | `z.array(z.string().min(1)).default([])`: absent is `[]`; present must be an array of non-empty strings, returned element for element |
| `Schemas.OptionalFlag` | src/lib/content/schemas.ts:17 | `z.boolean().optional()`: absent is `None`, present must be a boolean |
| `Schemas.OptionalFounded` | src/lib/content/schemas.ts:16 | accepted exactly when absent or an integer from 1800 to 2100 |
| `Schemas.OptionalTeamSize` | src/lib/content/schemas.ts:15 | accepted exactly when absent, a non-empty string or a positive integer; the value keeps its kind |
| `Schemas.StatusField` | src/lib/content/schemas.ts:70 | accepted exactly when absent or one of `upcoming`, `past`, `cancelled`; absent means `upcoming` |
| `Schemas.ValidateFirm` | src/lib/content/schemas.ts:9-19 | accepted exactly when the value is an object whose fields all pass; a refusal has issues; an accepted record meets every constraint of the schema |
| `Schemas.ValidateCompany` | src/lib/content/schemas.ts:23-34 | as for firms, over the company schema |
| `Schemas.ValidateGuide` | src/lib/content/schemas.ts:38-45 | as for firms, over the guide schema |
| `Schemas.ValidatePlaybook` | src/lib/content/schemas.ts:49-56 | as for firms, over the playbook schema; `artifactLinks` is absent in the record exactly when absent in the file |
| `Schemas.ValidateEvent` | src/lib/content/schemas.ts:60-71 | as for firms, over the event schema; a missing `status` is `upcoming` |
| `Schemas.ValidateGroup` | src/lib/content/schemas.ts:75-83 | as for firms, over the group schema |
| `FrontmatterCodec.ListRoundTrip` | src/lib/content/schemas.ts:54 | an array of strings that pass the check reads back as exactly those strings |
| `FrontmatterCodec.TextListRoundTrip` | src/lib/content/schemas.ts:12 | an array of non-empty strings reads back as exactly those strings |
| `FrontmatterCodec.TeamSizeRoundTrip` | src/lib/content/schemas.ts:15 | a valid team size, written out, reads back as itself; absent stays absent |
| `FrontmatterCodec.FoundedRoundTrip` | src/lib/content/schemas.ts:16 | a founding year from 1800 to 2100, written out, reads back as itself |
| `FrontmatterCodec.FirmFromFields` | src/lib/content/schemas.ts:9-19 | when every field reader of the firm schema yields the record's field, the whole object validates to that record |
| `FrontmatterCodec.FirmRoundTrip` | src/lib/content/schemas.ts:9-19 | a firm record meeting every constraint of its schema, written as frontmatter, validates to itself |
| `FrontmatterCodec.CompanyFromFields` | src/lib/content/schemas.ts:23-34 | when every field reader of the company schema yields the record's field, the whole object validates to that record |
| `FrontmatterCodec.CompanyRoundTrip` | src/lib/content/schemas.ts:23-34 | a company record meeting every constraint of its schema, written as frontmatter, validates to itself |
| `FrontmatterCodec.GuideFromFields` | src/lib/content/schemas.ts:38-45 | when every field reader of the guide schema yields the record's field, the whole object validates to that record |
| `FrontmatterCodec.GuideRoundTrip` | src/lib/content/schemas.ts:38-45 | a guide record meeting every constraint of its schema, written as frontmatter, validates to itself |
| `FrontmatterCodec.PlaybookFromFields` | src/lib/content/schemas.ts:49-56 | when every field reader of the playbook schema yields the record's field, the whole object validates to that record |
| `FrontmatterCodec.PlaybookRoundTrip` | src/lib/content/schemas.ts:49-56 | a playbook record meeting every constraint of its schema, written as frontmatter, validates to itself |
| `FrontmatterCodec.EventFromFields` | src/lib/content/schemas.ts:60-71 | when every field reader of the event schema yields the record's field, the whole object validates to that record |
| `FrontmatterCodec.EventRoundTrip` | src/lib/content/schemas.ts:60-71 | a event record meeting every constraint of its schema, written as frontmatter, validates to itself |
| `FrontmatterCodec.GroupFromFields` | src/lib/content/schemas.ts:75-83 | when every field reader of the group schema yields the record's field, the whole object validates to that record |
| `FrontmatterCodec.GroupRoundTrip` | src/lib/content/schemas.ts:75-83 | a group record meeting every constraint of its schema, written as frontmatter, validates to itself |
| `FrontmatterCodec.FirmIdempotent` | src/lib/content/schemas.ts:9-19 | validating the written-out result of a successful firm validation gives the same result |
| `FrontmatterCodec.CompanyIdempotent` | src/lib/content/schemas.ts:23-34 | validating the written-out result of a successful company validation gives the same result |
| `FrontmatterCodec.GuideIdempotent` | src/lib/content/schemas.ts:38-45 | validating the written-out result of a successful guide validation gives the same result |
| `FrontmatterCodec.PlaybookIdempotent` | src/lib/content/schemas.ts:49-56 | validating the written-out result of a successful playbook validation gives the same result |
| `FrontmatterCodec.EventIdempotent` | src/lib/content/schemas.ts:60-71 | validating the written-out result of a successful event validation gives the same result |
| `FrontmatterCodec.GroupIdempotent` | src/lib/content/schemas.ts:75-83 | validating the written-out result of a successful group validation gives the same result |
| `FrontmatterCodec.ReadersAgree` | src/lib/content/schemas.ts:3-14 | each field reader looks only at its own key: two objects that agree on the key agree on the reading |
| `FrontmatterCodec.GuideIgnoresUnknownKeys` | src/lib/content/schemas.ts:38-45 | `z.object` strips unknown keys: adding a key the guide schema does not name never changes the validation |
| `Summary.FindFrom` | src/lib/content/summary.ts:5 | the first occurrence of a character at or after a position, or none |
| `Summary.LinkAt` | src/lib/content/summary.ts:5 | a link found at the start has the shape `[text](url)` with both parts non-empty |
| `Summary.StripLinks` | src/lib/content/summary.ts:5 | removing link syntax never lengthens the text |
| `Summary.LinkReplaced` | src/lib/content/summary.ts:5 | a link `[text](url)` is replaced by its text and the rest is processed on |
| `Summary.StripLinksNoBracket` | src/lib/content/summary.ts:5 | text without `[` is unchanged |
| `Summary.CodeAt` | src/lib/content/summary.ts:7 | inline code found at the start is a backquoted non-empty run |
| `Summary.StripCode` | src/lib/content/summary.ts:7 | removing backquotes never lengthens the text |
| `Summary.CodeReplaced` | src/lib/content/summary.ts:7 | `` `code` `` is replaced by `code` and the rest is processed on |
| `Summary.CodeSpanStripped` | src/lib/content/summary.ts:7 | a code span at the start gives its content, then the rest is stripped |
| `Summary.CodeSpanText` | src/lib/content/summary.ts:7 | the characters of a text starting with a code span, backquotes aside, are the span's content then the rest's |
| `Summary.PlainStripped` | src/lib/content/summary.ts:7 | a character that opens no code span is kept and the rest is stripped |
| `Summary.StripCodeKeepsText` | src/lib/content/summary.ts:7 | stripping code spans removes only backquotes: every other character stays, in order |
| `Summary.StripCodeNoTick` | src/lib/content/summary.ts:7 | text without a backquote is unchanged |
| `Summary.RemoveMarks` | src/lib/content/summary.ts:9 | the result is the input with every `*`, `_` and `~` removed and every other character kept in order |
| `Summary.RemoveMarksUnmarked` | src/lib/content/summary.ts:9 | text without markers is unchanged |
| `Summary.CollapseSpace` | src/lib/content/summary.ts:11 | no two adjacent whitespace characters remain, no other character appears, and the text is empty exactly when the input is |
| `Summary.DropSpaces` | src/lib/content/summary.ts:11-12 | white space before or after a text does not change its non-space characters |
| `Summary.CollapseSpaceRun` | src/lib/content/summary.ts:11 | a run of white space becomes one space and is followed by the collapse of what comes after it |
| `Summary.CollapseVisible` | src/lib/content/summary.ts:11 | a non-space character is kept ahead of the collapse of the rest |
| `Summary.CollapseKeepsVisible` | src/lib/content/summary.ts:11 | collapsing white space keeps every non-space character, in order |
| `Summary.CollapseSingleSpaced` | src/lib/content/summary.ts:11 | single-spaced text is unchanged |
| `Summary.TrimStartKeepsVisible` | src/lib/content/summary.ts:12 | trimming the start keeps every non-space character, in order |
| `Summary.TrimEndKeepsVisible` | src/lib/content/summary.ts:12 | trimming the end keeps every non-space character, in order |
| `Summary.TrimKeepsVisible` | src/lib/content/summary.ts:12 | `trim` keeps every non-space character, in order |
| `Summary.FilterMarksThenSpaces` | src/lib/content/summary.ts:9-11 | removing markers and then white space removes both at once |
| `Summary.StripMarkdown` | src/lib/content/summary.ts:1-14 | the stripped text is no longer than the input, has no emphasis marks, no leading or trailing whitespace and single spaces, and its non-space characters are exactly those of the link- and code-stripped input other than markers and white space, in order |
| `Summary.StripMarkdownPlain` | src/lib/content/summary.ts:1-14 | trimmed, single-spaced text without markers, `[` or backquotes is its own stripped form |
| `Summary.Shorten` | src/lib/content/summary.ts:37-38 | a short enough summary is returned whole; a longer one becomes a prefix of itself followed by `…`, no longer than `maxLength`, and keeps the stripped text's properties |
| `Summary.ParaKind` | src/lib/content/summary.ts:21-30 | a line is blank exactly when it trims to nothing, skipped exactly when its trimmed text is a heading, list item or fence, and otherwise contributes its trimmed text |
| `Summary.ParaKinds` | src/lib/content/summary.ts:17-21 | one classification per line, in order |
| `Summary.Collect` | src/lib/content/summary.ts:20-34 | the paragraph collected so far is kept as a prefix, and at most one line per remaining line is added |
| `Summary.CollectFromProse` | src/lib/content/summary.ts:20-34 | every collected line is a prose line of the body |
| `Summary.CollectNoProse` | src/lib/content/summary.ts:20-34 | a body with no prose line collects nothing |
| `Summary.CollectStopsAtBlank` | src/lib/content/summary.ts:22-23 | once a paragraph has started, nothing after the next blank line matters |
| `Summary.Summarize` | src/lib/content/summary.ts:36-38 | the summary is at most `maxLength` long, mark-free, trimmed and single-spaced |
| `Summary.SummarizeEmpty` | src/lib/content/summary.ts:36-37 | no paragraph gives the empty summary |
| `Summary.ExtractSummaryFromMdxBody` | src/lib/content/summary.ts:16-39 | the loop computes the collected paragraph's summary, which is at most `maxLength` long, mark-free, trimmed and single-spaced |
| `Toc.HeadingMatch` | src/lib/content/toc.ts:18 | `/^##\s+(.+)$/` matches only a line with exactly that many leading `#`, and captures text that starts with no whitespace |
| `Toc.HeadingOf` | src/lib/content/toc.ts:18-28 | a recognised heading has depth 2 or 3, equal to its leading `#` count, and a trimmed non-empty text |
| `Toc.HeadingShape` | src/lib/content/toc.ts:18-26 | a line is a heading of depth 2 or 3 exactly when it has that many `#`, a whitespace character, and a non-empty remainder on one line; one `#` or four or more never are |
| `Toc.ItemFor` | src/lib/content/toc.ts:20-22 | a heading contributes one item, with its slug as id, exactly when the slug is non-empty |
| `Toc.KindOf` | src/lib/content/toc.ts:11-26 | after `trimEnd`, a line is a fence exactly when it starts with three backquotes, and otherwise a heading exactly when it matches one |
| `Toc.Kinds` | src/lib/content/toc.ts:10-11 | one classification per line |
| `Toc.KindsAt` | src/lib/content/toc.ts:10-11 | the classification of line `i` is that of the `i`-th line |
| `Toc.LineItems` | src/lib/content/toc.ts:16-32 | a line inside a code block or that is not a heading contributes nothing, any other at most one valid item |
| `Toc.Scan` | src/lib/content/toc.ts:10-33 | the items so far are kept as a prefix, every added item is valid, and the scan stops at `maxItems` items, or after one more item when it already had that many |
| `Toc.AllItems` | src/lib/content/toc.ts:10-33 | every item collected without a limit is valid: a non-empty id that is the slug of its trimmed text, at depth 2 or 3 |
| `Toc.ScanIsTake` | src/lib/content/toc.ts:23-31 | the loop with its early exit collects exactly the first `maxItems` items the body contains |
| `Toc.PerLine` | src/lib/content/toc.ts:10-33 | the items of each line, one entry per line |
| `Toc.AllItemsPerLine` | src/lib/content/toc.ts:10-33 | the collected items are the lines' items concatenated in order |
| `Toc.ScanSkip` | src/lib/content/toc.ts:12-16 | a fence or a line in a code block only toggles or keeps the code-block flag |
| `Toc.ScanHeading` | src/lib/content/toc.ts:19-24 | a heading outside code appends its item and stops once `maxItems` are reached |
| `Toc.ExtractTocFromMdx` | src/lib/content/toc.ts:5-36 | the loop computes the scan of the body's lines, and every item is valid |
| `Toc.TocLimit` | src/lib/content/toc.ts:5-36 | the table of contents is the first `maxItems` headings' items, so never more than `maxItems` |
| `Toc.ScanItemsOk` | src/lib/content/toc.ts:10-33 | the scan adds only valid items |
| `Related.Overlap` | src/lib/content/related.ts:11 | the overlap counts the entry's own tags found among the page's tags: at most their number, and positive exactly when one tag is shared |
| `Related.OverlapAppend` | src/lib/content/related.ts:11 | the overlap of concatenated tag lists is the sum of the overlaps |
| `Related.OverlapAllShared` | src/lib/content/related.ts:11 | when every own tag is shared, the overlap is the number of own tags |
| `Related.OverlapBySet` | src/lib/content/related.ts:7-11 | only the set of the page's tags matters, not their order or repeats |
| `Related.Candidates` | src/lib/content/related.ts:8-14 | the candidates are exactly the items other than the current one with a positive overlap, each scored with its slug and overlap |
| `Related.RanksBeforeWeakOrder` | src/lib/content/related.ts:15 | more overlap first, then slug by `localeCompare`, is a strict weak order |
| `Related.ItemsOf` | src/lib/content/related.ts:17 | the items of the scored candidates, in order |
| `Related.RelatedByTags` | src/lib/content/related.ts:1-18 | at most `limit` items, each from the list, not the current one, and sharing a tag |
| `Related.RelatedRanked` | src/lib/content/related.ts:15 | the result is ordered by descending overlap, ties by ascending slug |
| `Related.RelatedIsPrefix` | src/lib/content/related.ts:15-17 | the result is the head of the ranked candidates, and no candidate left out ranks before one kept |
| `Related.RankedMembers` | src/lib/content/related.ts:8-15 | every item other than the current one that shares a tag is ranked |
| `Facets.UniqueSorted` | src/lib/content/facets.ts:3-8 | the values are exactly the non-empty trimmed input values, each trimmed and non-empty |
| `Facets.TrimmedValues` | src/lib/content/facets.ts:5 | the set of the inputs' trimmed values |
| `Facets.KeptValues` | src/lib/content/facets.ts:4-6 | after dedup, trim and the `Boolean` filter, exactly the non-empty trimmed values remain |
| `Facets.SortKeeps` | src/lib/content/facets.ts:7 | sorting keeps exactly the same values |
| `Facets.UniqueSortedSorted` | src/lib/content/facets.ts:7 | the values ascend by `localeCompare` |
| `Facets.DedupBeforeTrim` | src/lib/content/facets.ts:4-5 | the set removes repeats before trimming, so `"a"` and `" a"` give `"a"` twice |
| `Facets.FlatMap` | src/lib/content/facets.ts:12-14 | `flatMap`: a value occurs exactly when some element's list holds it |
| `Facets.MapTo` | src/lib/content/facets.ts:20 | `map`: one value per element, in order |
| `Facets.GetFirmFacets` | src/lib/content/facets.ts:10-16 | each firm facet is exactly the non-empty trimmed values of that field across the firms |
| `Facets.GetCompanyFacets` | src/lib/content/facets.ts:18-26 | each company facet is exactly the non-empty trimmed values of that field across the companies |
| `Facets.GetGuideFacets` | src/lib/content/facets.ts:28-32 | the guide tags facet is exactly the non-empty trimmed tags across the guides |
| `Facets.FacetsSorted` | src/lib/content/facets.ts:10-32 | every facet list ascends by `localeCompare` |
| `Stale.IsStale` | src/lib/content/stale.ts:1-6 | an unparsable date is never stale; a parsed one is stale exactly when it lies before now minus `days` days |
| `Stale.StaleIff` | src/lib/content/stale.ts:1-6 | an unparsable date is never stale; a parsed one is stale exactly when it is more than `days` days before now, and not at exactly `days` days |
| `Stale.StaleEarlier` | src/lib/content/stale.ts:4-5 | a date no later than a stale date is stale |
| `Stale.StaleMonotoneInDays` | src/lib/content/stale.ts:5 | stale under a longer window implies stale under a shorter one |
| `Stale.FutureNotStale` | src/lib/content/stale.ts:4-5 | a date not in the past is never stale for a non-negative window |
| `UrlParams.ValuesOf` | src/lib/url/searchParams.ts:3 | `URLSearchParams.getAll`: exactly the values paired with the key, in order |
| `UrlParams.ValuesOfAppend` | src/components/filters/FilterPanel.tsx:16-18 | the values of a key over appended pairs are the two parts' values concatenated |
| `UrlParams.FirstOf` | src/lib/url/searchParams.ts:10 | `URLSearchParams.get`: the first value of the key, absent exactly when it has none |
| `UrlParams.Without` | src/components/filters/FilterPanel.tsx:15 | `delete`: exactly the pairs of other keys remain, in order |
| `UrlParams.WithoutAppend` | src/components/filters/FilterPanel.tsx:15 | deleting a key distributes over concatenated pairs |
| `UrlParams.ValuesOfWithout` | src/components/filters/FilterPanel.tsx:15 | deleting a key leaves every other key's values unchanged |
| `UrlParams.WithSet` | src/app/agencies/page.tsx:15 | `set`: the key then has exactly the one value, and the other pairs are unchanged |
| `UrlParams.WithoutIdempotent` | src/components/filters/FilterPanel.tsx:15 | deleting a key twice is deleting it once |
| `UrlParams.ValuesOfWithSet` | src/app/agencies/page.tsx:15 | setting a key leaves every other key's values unchanged |
| `UrlParams.PairsFor` | src/components/filters/FilterPanel.tsx:16 | the pairs appended for a list of values, one per value, in order |
| `UrlParams.ValuesOfPairsFor` | src/components/filters/FilterPanel.tsx:16 | those pairs carry exactly the listed values for their key and nothing for any other |
| `UrlParams.SearchParams.Empty` | src/app/agencies/page.tsx:11 | a new parameter list is empty |
| `UrlParams.SearchParams.Copy` | src/components/filters/FilterPanel.tsx:11 | a copy starts with the same pairs |
| `UrlParams.SearchParams.GetAll` | src/lib/url/searchParams.ts:3 | exactly the values paired with the key |
| `UrlParams.SearchParams.Append` | src/components/filters/FilterPanel.tsx:18 | the pair is added at the end |
| `UrlParams.SearchParams.Delete` | src/components/filters/FilterPanel.tsx:15 | the key's pairs are removed, the rest kept in order |
| `UrlParams.SearchParams.Set` | src/components/filters/FilterPanel.tsx:56 | the key's pairs are replaced by one |
| `UrlParams.AppendEach` | src/components/filters/FilterPanel.tsx:16 | the loop appends one pair per value, in order |
| `UrlParams.CommaPieces` | src/lib/url/searchParams.ts:4 | the pieces after splitting on commas hold no comma |
| `UrlParams.CommaPiecesAppend` | src/lib/url/searchParams.ts:4 | `flatMap` over concatenated values is the concatenation of the pieces |
| `UrlParams.GetAllList` | src/lib/url/searchParams.ts:1-7 | every value returned is non-empty, trimmed and comma-free; a missing key gives `[]` |
| `UrlParams.GetAllAppend` | src/lib/url/searchParams.ts:1-7 | one more value for the key adds its trimmed non-empty comma pieces at the end |
| `UrlParams.CleanPieces` | src/lib/url/searchParams.ts:4-6 | values that are already trimmed, non-empty and comma-free pass through unchanged |
| `UrlParams.GetAllOfCleanValues` | src/lib/url/searchParams.ts:1-7 | for such values `getAll` returns exactly the raw values, so what a filter writes it reads back |
| `UrlParams.GetOne` | src/lib/url/searchParams.ts:9-14 | absent exactly when the key is missing or its first value is blank; otherwise that value trimmed |
| `FilterPanel.DropValue` | src/components/filters/FilterPanel.tsx:14 | exactly the values other than the toggled one remain |
| `FilterPanel.ToggleParamValue` | src/components/filters/FilterPanel.tsx:6-21 | returns a fresh copy whose pairs are the toggled pairs, leaving the input alone |
| `FilterPanel.ToggleRemoves` | src/components/filters/FilterPanel.tsx:13-16 | a present value is removed everywhere and the key's other values keep their order |
| `FilterPanel.ToggleAdds` | src/components/filters/FilterPanel.tsx:17-18 | an absent value is appended after the key's existing values |
| `FilterPanel.ToggleKeepsOtherKeys` | src/components/filters/FilterPanel.tsx:6-21 | toggling never changes the pairs of other keys or their order |
| `FilterPanel.DropAbsent` | src/components/filters/FilterPanel.tsx:14 | dropping an absent value changes nothing |
| `FilterPanel.ToggleTwice` | src/components/filters/FilterPanel.tsx:6-21 | toggling an absent value on and off again restores the key's values |
| `FilterPanel.QueryChanged` | src/components/filters/FilterPanel.tsx:53-56 | returns a fresh copy where a blank query removes `q` and any other query replaces it |
| `FilterPanel.QueryChangedFacts` | src/components/filters/FilterPanel.tsx:55-56 | afterwards `q` is absent for a blank query and is exactly the typed text otherwise; other keys keep their values |
| `FilterPanel.NoFilterIff` | src/components/filters/FilterPanel.tsx:40-43 | no filter is active exactly when the query is blank and no facet key has a value |
| `ListingPages.ToUrlSearchParams` | src/app/agencies/page.tsx:8-18 | a fresh parameter list built from the record: an array value appends each of its values, a string value sets the key, an undefined value is skipped |
| `ListingPages.RecordValuesAbsent` | src/app/agencies/page.tsx:12-16 | a key the record does not hold has no values |
| `ListingPages.FromRecordValues` | src/app/agencies/page.tsx:12-16 | with distinct record keys, each key's values are exactly the record's values for it |
| `ListingPages.LowerAll` | src/app/agencies/page.tsx:37-39 | each part lower-cased, in order |
| `ListingPages.QueryIsLower` | src/app/agencies/page.tsx:28 | the query is already lower-case |
| `ListingPages.LowerJoin` | src/app/agencies/page.tsx:35-40 | lower-casing each part then joining is lower-casing the joined text |
| `ListingPages.BlankQuery` | src/app/agencies/page.tsx:28 | a blank or missing `q` gives the empty query |
| `ListingPages.HitInPart` | src/app/agencies/page.tsx:35-42 | a query found in one part is found in the joined haystack |
| `ListingPages.ContainsTransitive` | src/app/agencies/page.tsx:42 | containment is transitive |
| `ListingPages.FirmHaystack` | src/app/agencies/page.tsx:34-40 | the haystack is the lower-cased join of the name, locations, services and industries |
| `ListingPages.FirmResults` | src/app/agencies/page.tsx:33-55 | the results keep the firms' order and are exactly the firms whose haystack holds the query and that match every selected facet |
| `ListingPages.FirmResultsUnfiltered` | src/app/agencies/page.tsx:28-55 | with no query and no facet selected every firm is listed |
| `ListingPages.FirmNameHit` | src/app/agencies/page.tsx:34-42 | a query found in the lower-cased name passes the text test |
| `ListingPages.CompanyResults` | src/app/teams/page.tsx:33-57 | the results keep the companies' order and are exactly the companies whose haystack holds the query and that match every selected facet |
| `ListingPages.PresenceIsExact` | src/app/teams/page.tsx:44-46 | the presence facet matches by equality with the company's one value |
| `ListingPages.CompanyResultsUnfiltered` | src/app/teams/page.tsx:28-57 | with no query and no facet selected every company is listed |
| `ListingPages.CompanyPresenceHit` | src/app/teams/page.tsx:35-42 | a query found in the lower-cased presence passes the text test |
| `ListingPages.GuideResults` | src/app/learn/guides/page.tsx:32-44 | the results keep the guides' order and are exactly the guides whose haystack holds the query and that carry a selected tag, if any |
| `ListingPages.GuideResultsNoDrafts` | src/app/learn/guides/page.tsx:23-44 | the guides page never lists a draft |
| `ListingPages.GuideResultsUnfiltered` | src/app/learn/guides/page.tsx:29-44 | with no query and no tag selected every guide is listed |
| `ListingPages.PlaybookResults` | src/app/learn/playbooks/page.tsx:31-43 | the results keep the playbooks' order and are exactly the playbooks whose haystack holds the query and that carry a selected tag, if any |
| `ListingPages.PlaybookResultsUnfiltered` | src/app/learn/playbooks/page.tsx:28-43 | with no query and no tag selected every playbook is listed |
| `ListingPages.PlaybookTags` | src/app/learn/playbooks/page.tsx:24 | the tag facet is exactly the non-empty trimmed tags across the playbooks |
| `ListingPages.GuideTagHit` | src/app/learn/guides/page.tsx:33-39 | a query found in one lower-cased tag passes the text test |
| `SearchClient.Matching` | src/app/search/SearchClient.tsx:35-45 | keeps the items' order and holds exactly the items whose lower-cased text holds the query |
| `SearchClient.Results` | src/app/search/SearchClient.tsx:32-47 | a blank query shows the first 24 items; any other shows the first 50 matches of the trimmed, lower-cased query, each containing it |
| `CommandPalette.GroupNames` | src/components/command/CommandPaletteClient.tsx:57-58 | the group of each item, in order |
| `CommandPalette.Grouped` | src/components/command/CommandPaletteClient.tsx:55-63 | one group per distinct group name in first-seen order, holding that group's items in input order |
| `CommandPalette.FilterNone` | src/components/command/CommandPaletteClient.tsx:58 | a group not yet seen has no items so far |
| `CommandPalette.FilterSnocIn` | src/components/command/CommandPaletteClient.tsx:59 | an item is pushed at the end of its own group |
| `CommandPalette.FilterSnocOut` | src/components/command/CommandPaletteClient.tsx:57-60 | an item leaves the other groups alone |
| `CommandPalette.BucketOf` | src/components/command/CommandPaletteClient.tsx:58-60 | after one step each bucket holds exactly its group's items seen so far |
| `CommandPalette.BucketedStep` | src/components/command/CommandPaletteClient.tsx:57-61 | one loop step keeps the map equal to the grouping of the items seen |
| `CommandPalette.Groups` | src/components/command/CommandPaletteClient.tsx:55-63 | the loop over the items and `Array.from(map.entries())` give exactly the grouping |
| `CommandPalette.SizeOverSnoc` | src/components/command/CommandPaletteClient.tsx:57-61 | one more item adds one to the total of the groups it belongs to |
| `CommandPalette.GroupNamesSnoc` | src/components/command/CommandPaletteClient.tsx:58 | one more item adds its group name at the end |
| `CommandPalette.SizeOverNewGroup` | src/components/command/CommandPaletteClient.tsx:58-60 | an item of a new group opens a bucket of one |
| `CommandPalette.GroupedSizes` | src/components/command/CommandPaletteClient.tsx:55-63 | the groups hold every item exactly once: their sizes add up to the number of items |
| `CommandPalette.GroupsNonEmpty` | src/components/command/CommandPaletteClient.tsx:55-63 | no group is empty and no group name repeats |
| `TagCounts.CountsOfSnoc` | src/app/tags/page.tsx:17 | one more tag adds one to its count, starting from zero |
| `TagCounts.SumOverOther` | src/app/tags/page.tsx:17 | changing the count of a tag not listed leaves the total alone |
| `TagCounts.SumOverBump` | src/app/tags/page.tsx:17 | bumping a listed tag's count adds one to the total |
| `TagCounts.TallySeen` | src/app/tags/page.tsx:17 | a tag already counted keeps the map's key order and gains one |
| `TagCounts.TallyNew` | src/app/tags/page.tsx:17 | a new tag joins the map's key order at the end with count one |
| `TagCounts.TallyStep` | src/app/tags/page.tsx:16-18 | one step of the counting loop keeps the map equal to the counts of the tags seen, keys in first-seen order |
| `TagCounts.CountedIntoTally` | src/app/tags/page.tsx:16-18 | counting a list of tags into a correct tally gives the tally of all tags seen |
| `TagCounts.CountInto` | src/app/tags/page.tsx:16-18 | the inner loop computes the counts of one list added to the map |
| `TagCounts.CountTags` | src/app/tags/page.tsx:14-19 | the map's keys are the distinct tags in first-seen order, each counted as often as it occurs, the counts adding up to the number of tags |
| `TagCounts.CountsFirstWeakOrder` | src/app/tags/page.tsx:23 | higher count first, then tag by `localeCompare`, is a strict weak order |
| `TagCounts.Entries` | src/app/tags/page.tsx:21-22 | one `{tag, count}` per distinct tag, in first-seen order, with its number of occurrences |
| `TagCounts.TagsOf` | src/app/tags/page.tsx:37-39 | the tags of the entries, in order |
| `TagCounts.RankedEntries` | src/app/tags/page.tsx:21-23 | an entry is listed exactly when its tag occurs and its count is its number of occurrences |
| `TagCounts.RankedDistinct` | src/app/tags/page.tsx:21-23 | each occurring tag is listed exactly once |
| `TagCounts.RankedSorted` | src/app/tags/page.tsx:23 | the entries are ordered by descending count, then by tag |
| `TagCounts.TotalSort` | src/app/tags/page.tsx:23 | sorting keeps the total count |
| `TagCounts.TotalEntries` | src/app/tags/page.tsx:21-22 | the entries' total is the map's total |
| `TagCounts.RankedTotal` | src/app/tags/page.tsx:14-23 | the listed counts add up to the number of tags on all items |
| `TagsPage.TagLists` | src/app/tags/page.tsx:15-16 | the tag lists of the guides followed by those of the playbooks |
| `TagsPage.TagListsMembers` | src/app/tags/page.tsx:15-16 | a tag occurs exactly when some guide or playbook carries it |
| `TagsPage.TagsIndex` | src/app/tags/page.tsx:14-23 | the page's list is the ranked tally of every guide and playbook tag, and its counts add up to the number of tags |
| `TagsPage.TagsIndexFacts` | src/app/tags/page.tsx:14-23 | each occurring tag appears once with its number of occurrences, most used first, ties by name |
| `HomePage.FindFirst` | src/app/page.tsx:50-58 | `Array.prototype.find`: the first element passing the test, absent exactly when none does |
| `HomePage.FindOrFirstPick` | src/app/page.tsx:50-55 | `find(test) ?? xs[0]`: absent only for an empty list; the first passing element when one exists, else the first element |
| `HomePage.FeaturedFirm` | src/app/page.tsx:50 | absent only without firms; the first featured firm when there is one, else the first firm |
| `HomePage.FeaturedCompany` | src/app/page.tsx:51-52 | absent only without companies; the first featured company when there is one, else the first company |
| `HomePage.FeaturedGuide` | src/app/page.tsx:53 | absent only without guides, else the first guide (guides have no `featured` field) |
| `HomePage.FeaturedPlaybook` | src/app/page.tsx:54-55 | absent only without playbooks, else the first playbook |
| `HomePage.FeaturedEvent` | src/app/page.tsx:56-59 | absent only without events; the first upcoming event when there is one, else the first event |
| `HomePage.PickPresence` | src/app/page.tsx:50-59 | a pick is made exactly when the collection is non-empty |
| `HomePage.FeaturedPicks` | src/app/page.tsx:53-59 | guides and playbooks have no `featured` field, so their picks are the first entries; the event pick is the first upcoming event, else the first event |
| `HomePage.Present` | src/app/page.tsx:62-110 | a card exactly when there is a pick |
| `HomePage.Featured` | src/app/page.tsx:62-110 | the cards of the firm, team, guide, playbook and event picks in that order, each present exactly when its collection is non-empty, then always the groups card last |
| `HomePage.CardsShape` | src/app/page.tsx:62-110 | the card list has one card per present pick plus the groups card, which is last |
| `HomePage.CardsAllPresent` | src/app/page.tsx:62-110 | five present picks give their five cards in order, then the groups card |
| `HomePage.FeaturedOrder` | src/app/page.tsx:62-110 | with every collection non-empty the cards are firm, team, guide, playbook, event and groups, each for its pick |
| `HomePage.LearnItems` | src/app/page.tsx:112-115 | the guides followed by the playbooks |
| `HomePage.LatestItems` | src/app/page.tsx:112-124 | at most six items, and exactly six when there are that many |
| `HomePage.LatestNewestFirst` | src/app/page.tsx:116-124 | the latest items run newest first by `updatedAt`, else `publishedAt`; they are the head of a permutation of all guides and playbooks sorted that way, none left out being newer |
| `HomePage.Latest` | src/app/page.tsx:125-136 | one card per latest item, in order |
| `HomePage.CardHref` | src/app/page.tsx:126-129 | a card links under `/learn/guides/` exactly for a guide, otherwise under `/learn/playbooks/`, and ends with the item's slug |
| `HomePage.LatestHrefs` | src/app/page.tsx:125-136 | every latest card links to its own item's page |
| `HomePage.PopularTags` | src/app/page.tsx:138-144 | the popular tags are the first eight of the ranked tally of guide and playbook tags |
| `HomePage.PopularTagsFacts` | src/app/page.tsx:138-144 | at most eight tags, no repeats, each used somewhere, and no tag left out ranks above one shown |
| `InfiniteGrid.Clamp` | src/components/lists/InfiniteGrid.tsx:13-15 | `Math.max(min, Math.min(max, n))`: within the bounds when they are ordered, `n` itself when already inside, `min` below, `max` above |
| `InfiniteGrid.ClampIdempotent` | src/components/lists/InfiniteGrid.tsx:26 | clamping an already clamped count changes nothing |
| `InfiniteGrid.VisibleItems` | src/components/lists/InfiniteGrid.tsx:26-31 | the visible items are the first clamped-count items, all of them once the count reaches the length |
| `InfiniteGrid.Remaining` | src/components/lists/InfiniteGrid.tsx:68 | the remaining number and the visible number add up to the number of items |
| `InfiniteGrid.HasMoreIff` | src/components/lists/InfiniteGrid.tsx:33 | there is more exactly when something remains, and nothing more exactly when every item is visible |
| `InfiniteGrid.LoadMoreProgress` | src/components/lists/InfiniteGrid.tsx:44-64 | with a positive step, loading more while there is more shows strictly more items, never more than all, and a step reaching the end leaves nothing more |
| `InfiniteGrid.AfterLoadsValue` | src/components/lists/InfiniteGrid.tsx:44-64 | `k` loads from a valid count show the count plus `k` steps, clamped to the length |
| `InfiniteGrid.Grid.constructor` | src/components/lists/InfiniteGrid.tsx:17-23 | the step defaults to 12 and the initial count to 12, clamped to the number of items |
| `InfiniteGrid.Grid.LoadMore` | src/components/lists/InfiniteGrid.tsx:44-65 | the count grows by the step, clamped to the length; with a positive step and more to show, strictly more items become visible |
| `InfiniteGrid.Grid.Rerender` | src/components/lists/InfiniteGrid.tsx:21-31 | new items keep the stored count, and what is shown is clamped to the new list |
| `EventsIcs.Pad2` | src/app/community/events.ics/route.ts:7-9 | `padStart(2, "0")`: digits only; below 100 exactly two digits with the number's value, otherwise the number as written |
| `EventsIcs.FormatIcsDate` | src/app/community/events.ics/route.ts:11-22 | for a date in range the stamp has the `yyyymmddThhmmssZ` layout and reads back as the same date (date-time form, section 3.3.5 of RFC 5545) |
| `EventsIcs.StampLayout` | src/app/community/events.ics/route.ts:11-22 | for a date in range the concatenation is 16 characters, `T` at index 8, `Z` last, and reads back as the date |
| `EventsIcs.EscapeIcsAppend` | src/app/community/events.ics/route.ts:24-30 | escaping distributes over concatenation |
| `EventsIcs.IcsPassesOne` | src/app/community/events.ics/route.ts:24-30 | one character escapes to its own escape: `\\`, `\n`, `\,`, `\;` or itself |
| `EventsIcs.IcsPassesPerChar` | src/app/community/events.ics/route.ts:24-30 | the four chained replaces, backslash first, escape each character independently |
| `EventsIcs.EscapeIcs` | src/app/community/events.ics/route.ts:24-30 | the escaped text is the input with each character replaced by its own escape |
| `EventsIcs.UnescapeIcsChar` | src/app/community/events.ics/route.ts:24-30 | unescaping undoes one escaped character |
| `EventsIcs.EscapeIcsRoundTrip` | src/app/community/events.ics/route.ts:24-30 | unescaping an escaped text gives the text back (TEXT values, section 3.3.11 of RFC 5545) |
| `EventsIcs.EscapeIcsNoLineFeed` | src/app/community/events.ics/route.ts:27 | an escaped text holds no line feed |
| `EventsIcs.EscapeIcsMarked` | src/app/community/events.ics/route.ts:26-29 | every comma and semicolon of an escaped text is preceded by a backslash |
| `EventsIcs.EscapeIcsPlain` | src/app/community/events.ics/route.ts:24-30 | a text without backslash, line feed, comma or semicolon is unchanged |
| `EventsIcs.DescriptionSeparator` | src/app/community/events.ics/route.ts:56 | the description reads back as the description, a literal backslash-`n`, and the event URL |
| `EventsIcs.SeparatorEscaped` | src/app/community/events.ics/route.ts:56 | that literal backslash-`n` is itself escaped to `\\n` |
| `EventsIcs.EventBlockShape` | src/app/community/events.ics/route.ts:50-59 | a VEVENT has eight lines, one more with an end time and one more with a venue, opens with `BEGIN:VEVENT`, closes with `END:VEVENT`, and its URL is the ticket link, else the event page |
| `EventsIcs.EventBlockEnd` | src/app/community/events.ics/route.ts:46-54 | the `DTEND` line is present exactly when `endAt` is set and non-empty |
| `EventsIcs.EventBlockVenue` | src/app/community/events.ics/route.ts:57 | the `LOCATION` line is present exactly when `venue` is set and non-empty |
| `EventsIcs.PushEvent` | src/app/community/events.ics/route.ts:45-59 | the pushes for one event append exactly that event's block |
| `EventsIcs.CalendarLines` | src/app/community/events.ics/route.ts:33-62 | the lines are the header, one block per upcoming event in loaded order, and `END:VCALENDAR` |
| `EventsIcs.DateNoLineFeed` | src/app/community/events.ics/route.ts:11-22 | a date stamp holds no line feed |
| `EventsIcs.EventLinesNoLineFeed` | src/app/community/events.ics/route.ts:50-59 | no line of an event block holds a line feed |
| `EventsIcs.LinesHaveNoLineFeed` | src/app/community/events.ics/route.ts:44-64 | no event line holds a line feed, so joining with CRLF keeps one content line per entry |
| `EventsIcs.CalendarLinesNoLineFeed` | src/app/community/events.ics/route.ts:36-62 | no line of the calendar, header and trailer included, holds a line feed |
| `EventsIcs.Calendar` | src/app/community/events.ics/route.ts:64 | joining lines without line feeds with CRLF splits back, at each line feed, into the lines each ended by a carriage return, the last one bare |
| `XmlText.EscapeXmlAppend` | src/app/learn/guides/rss.xml/route.ts:7-14 | escaping distributes over concatenation |
| `XmlText.EscapeAmpOne` | src/app/learn/guides/rss.xml/route.ts:9 | `&` becomes `&amp;` and no later replace touches it |
| `XmlText.EscapeLtOne` | src/app/learn/guides/rss.xml/route.ts:10 | `<` becomes `&lt;` |
| `XmlText.EscapeGtOne` | src/app/learn/guides/rss.xml/route.ts:11 | `>` becomes `&gt;` |
| `XmlText.EscapeQuotOne` | src/app/learn/guides/rss.xml/route.ts:12 | `"` becomes `&quot;` |
| `XmlText.EscapeAposOne` | src/app/learn/guides/rss.xml/route.ts:13 | `'` becomes `&apos;` |
| `XmlText.PassesOne` | src/app/learn/guides/rss.xml/route.ts:7-14 | each character escapes to its own entity reference or itself |
| `XmlText.PassesPerChar` | src/app/learn/guides/rss.xml/route.ts:7-14 | the five chained replaces, ampersand first, escape each character independently |
| `XmlText.EscapeXml` | src/app/learn/guides/rss.xml/route.ts:7-14 | the escaped text is the input with each character replaced by its entity reference or itself |
| `XmlText.UnescapeXmlChar` | src/app/learn/guides/rss.xml/route.ts:7-14 | unescaping undoes one escaped character |
| `XmlText.EscapeXmlRoundTrip` | src/app/learn/guides/rss.xml/route.ts:7-14 | unescaping an escaped text gives the text back (predefined entities, section 4.6 of XML 1.0) |
| `XmlText.EscapeXmlWellFormed` | src/app/learn/guides/rss.xml/route.ts:7-14 | an escaped text holds no `<`, `>` or quote, and every `&` starts an entity reference |
| `XmlText.EscapeXmlPlain` | src/app/learn/guides/rss.xml/route.ts:7-14 | a text with none of the five characters is unchanged |
| `SiteConfig.SiteUrl` | src/app/learn/guides/rss.xml/route.ts:5 | the configured site URL whenever one is set, even an empty one, else `http://localhost:3000` |
| `RssFeed.ItemOf` | src/app/learn/guides/rss.xml/route.ts:20-33 | an item links to and is identified by the guide's page, its title and description read back as the guide's and hold no markup, and its date is the formatted `publishedAt` |
| `RssFeed.ItemTexts` | src/app/learn/guides/rss.xml/route.ts:19-35 | one rendered item per guide, in order |
| `RssFeed.DocumentHasEveryPart` | src/app/learn/guides/rss.xml/route.ts:37-46 | the document contains every item text |
| `RssFeed.DocumentHasEveryItem` | src/app/learn/guides/rss.xml/route.ts:37-46 | the document contains every guide's rendered item |
| `RssFeed.ItemsSnoc` | src/app/learn/guides/rss.xml/route.ts:19-35 | one more guide puts its item after all earlier items, so the joined items are one per guide in loader order |
| `RssFeed.Feed` | src/app/learn/guides/rss.xml/route.ts:16-46 | the feed is exactly the channel head, the items of the guides joined in loader order (one per guide), and the channel tail; it contains every guide's item |
| `RssFeed.FeedHasEveryItem` | src/app/learn/guides/rss.xml/route.ts:16-46 | the feed contains every guide's item |
| `RssFeed.FeedOfKeptGuides` | src/app/learn/guides/rss.xml/route.ts:17-46 | given the non-draft guides, the feed contains an item for each loaded non-draft guide, and every guide fed is a loaded non-draft guide |
| `RssFeed.RssHasEveryKeptGuide` | src/app/learn/guides/rss.xml/route.ts:16-46 | the feed of `getAllGuides({ includeDrafts: false })` has an item for every loaded non-draft guide |
| `RssFeed.RssLeavesDraftsOut` | src/app/learn/guides/rss.xml/route.ts:17 | every guide in the feed was loaded and is not a draft |
| `AtomFeed.ModifiedAt` | src/app/learn/guides/atom.xml/route.ts:30-32 | `updatedAt` when set, else `publishedAt` |
| `AtomFeed.EntryOf` | src/app/learn/guides/atom.xml/route.ts:25-43 | an entry's id and link are the guide's page, `published` and `updated` are the formatted dates with `updated` from `updatedAt` else `publishedAt`, and its title and summary read back as the guide's and hold no markup |
| `AtomFeed.EntryTexts` | src/app/learn/guides/atom.xml/route.ts:24-45 | one rendered entry per guide, in order |
| `AtomFeed.FeedUpdated` | src/app/learn/guides/atom.xml/route.ts:20-22 | the feed's `updated` is the first guide's modification time, or now when there are no guides |
| `AtomFeed.DocumentHasEveryPart` | src/app/learn/guides/atom.xml/route.ts:47-55 | the document contains every entry text |
| `AtomFeed.DocumentHasEveryEntry` | src/app/learn/guides/atom.xml/route.ts:47-55 | the document contains every guide's rendered entry |
| `AtomFeed.EntriesSnoc` | src/app/learn/guides/atom.xml/route.ts:24-45 | one more guide puts its entry after all earlier entries, so the joined entries are one per guide in loader order |
| `AtomFeed.Feed` | src/app/learn/guides/atom.xml/route.ts:17-55 | the feed is exactly the head carrying the feed's `updated`, the entries of the guides joined in loader order (one per guide), and the tail; it contains every guide's entry |
| `AtomFeed.FeedHasEveryEntry` | src/app/learn/guides/atom.xml/route.ts:17-55 | the feed contains every guide's entry |
| `AtomFeed.FeedOfKeptGuides` | src/app/learn/guides/atom.xml/route.ts:18-55 | given the non-draft guides, the feed contains an entry for each loaded non-draft guide |
| `AtomFeed.AtomHasEveryKeptGuide` | src/app/learn/guides/atom.xml/route.ts:17-55 | the feed of `getAllGuides({ includeDrafts: false })` has an entry for every loaded non-draft guide |
| `AtomFeed.FirstOfKeptIsNewest` | src/app/learn/guides/atom.xml/route.ts:20 | with guides newest first, there is no first guide exactly when no loaded guide is kept, and otherwise the first was published no earlier than any kept guide |
| `AtomFeed.AtomUpdatedFromNewestPublished` | src/app/learn/guides/atom.xml/route.ts:18-22 | the feed's `updated` comes from the most recently published non-draft guide |
| `RepoLinks.StripTrailingSlash` | src/lib/links/repo.ts:5 | `replace(/\/$/, "")`: exactly one trailing slash is removed, otherwise the text is unchanged |
| `RepoLinks.StripKeepsOneOfTwo` | src/lib/links/repo.ts:5 | of two trailing slashes one remains |
| `RepoLinks.StripNotIdempotent` | src/lib/links/repo.ts:5 | stripping twice can differ from stripping once |
| `RepoLinks.EditUrl` | src/lib/links/repo.ts:3-7 | no link exactly when the repository URL is unset or empty; otherwise it starts with the base and `/edit/main/` |
| `RepoLinks.EditUrlRecoversPath` | src/lib/links/repo.ts:6 | the content path is what follows the base and `/edit/main/` |
| `RepoLinks.EditUrlInjective` | src/lib/links/repo.ts:3-7 | different content paths get different edit links |
| `RepoLinks.IssuePairs` | src/lib/links/repo.ts:15-17 | the query has the title once, the body once only when it is non-empty, and no other key |
| `RepoLinks.IssueUrl` | src/lib/links/repo.ts:9-19 | no link exactly when the repository URL is unset or empty; otherwise it starts with the base and `/issues/new?` |
| `RepoLinks.NewIssueUrl` | src/lib/links/repo.ts:9-19 | building the query on a fresh `URLSearchParams` gives exactly that link |

## Left out

- File I/O: `fs.readdir` and `fs.readFile` are replaced by a `Directory` value that lists the entries and holds each file's parsed front matter and body.
- YAML parsing by gray-matter: a file's front matter arrives already parsed, as a `Schemas.Value` tree.
- `Schemas.Value` has no date kind: front matter values are assumed to reach the schemas as strings. An unquoted YAML timestamp such as `publishedAt: 2024-01-15`, which the YAML parser turns into a `Date` and every string-typed date field then rejects, is not represented.
- `Promise.all`: files are loaded one after another in listing order, and the first failing file gives the error; which rejection wins under real concurrency is not modelled.
- zod's wording of issue messages: each issue carries its path and a fixed message; only the aggregated "Invalid frontmatter in …" shape is modelled.
- The reading-time library: its estimate in minutes arrives as a parameter, and the model rounds it and applies the floor of one minute.
- `Date.parse`, `new Date`, `Date.now`, `toISOString` and `toUTCString`: parsing is a parameter (an optional millisecond count in the staleness check, a millisecond count for dates the schemas have already accepted in the loaders), and the clock and the formatters are parameters of the functions that use them; NaN arithmetic is not modelled beyond "unparseable".
- WHATWG URL validity and zod's date check: the abstract predicates of `Schemas.Checks`.
- `slugify` from `@/lib/text/slugify` and `getSiteUrl` from `@/lib/seo/site` are not part of this model: both are parameters, and no concrete slug is asserted.
- `URLSearchParams.toString` and its percent-encoding: the serialisation is a parameter; the model keeps the ordered list of key/value pairs.
- `localeCompare`: modelled as code-point order on strings (`StrLess`), a total order; locale-specific collation is not modelled.
- `toLowerCase`: modelled for ASCII letters only.
- `Array.prototype.sort`: modelled as a stable insertion sort by the same comparator.
- JSX rendering, page chrome and response headers (`Content-Type`, caching): presentation only.
- Browser plumbing: the `IntersectionObserver` that triggers loading more, the "/" key handler that focuses the search box, the ⌘K and open-event handling of the command palette, `router.replace`/`push`, and the value strings and separators the palette renders.
- Pages outside the core (sitemap, JSON feed, stale report, events and groups pages, CLI scripts): they only copy fields or filter with functions modelled here.
- Line folding of section 3.1 of RFC 5545: the calendar route does not fold long lines, and neither does the model.
- Years before 1000 in calendar dates: the route does not pad the year to four digits, and the model keeps that; the 16-character form is stated for years 1000 to 9999.
- The calendar DESCRIPTION separator: the route writes a backslash followed by `n`, which escaping then doubles, so the model keeps it as those characters and not as a newline.
- `Summary.Shorten`, `Summary.Collect`, `Summary.Summarize`, `Summary.ExtractSummaryFromMdxBody`: lengths and cuts count Unicode code points, where summary.ts counts UTF-16 code units with `.length` and `slice`; text outside the Basic Multilingual Plane is therefore cut later than the source cuts it, and never split inside a surrogate pair.
- `Summary.Shorten`: states that a cut summary is a prefix of the stripped text followed by `…` and no longer than `maxLength`, not that the prefix is exactly `slice(0, maxLength - 1).trimEnd()`, which the function body computes.
- `Toc.TocLimit`: stated for `maxItems >= 1`; with a smaller limit the loop stops after the first heading item, which the contract of `Toc.Scan` states (at most one more item than it started with).
- `RepoLinks.IssueUrl`: states the presence rule and the `/issues/new?` prefix; the query itself is stated by `RepoLinks.IssuePairs` and `RepoLinks.NewIssueUrl`.
