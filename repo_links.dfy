/** Links into the site's source repository, src/lib/links/repo.ts: the
    "edit this page" URL of a content file and the "new issue" URL with a
    prefilled title and body. The environment variable
    `NEXT_PUBLIC_REPO_URL` is the parameter `repoUrl`; the percent-encoded
    text of a `URLSearchParams` is the parameter `serialize`. */
module RepoLinks {
  import opened Wrappers
  import opened Text
  import opened UrlParams

  /** `repoUrl.replace(/\/$/, "")`: the pattern has no `g` flag and `$`
      matches only at the very end, so at most one slash goes. */
  function StripTrailingSlash(s: string): (r: string)
    ensures |s| > 0 && s[|s| - 1] == '/' ==> r + "/" == s
    ensures !(|s| > 0 && s[|s| - 1] == '/') ==> r == s
  {
    if |s| > 0 && s[|s| - 1] == '/' then s[..|s| - 1] else s
  }

  /** A base ending in two slashes keeps one of them. */
  lemma StripKeepsOneOfTwo(p: string)
    ensures StripTrailingSlash(p + "//") == p + "/"
  {
    assert (p + "//")[..|p| + 1] == p + "/";
  }

  /** Stripping is not idempotent: a second strip removes the slash the
      first one kept. */
  lemma StripNotIdempotent()
    ensures StripTrailingSlash("x//") == "x/"
    ensures StripTrailingSlash(StripTrailingSlash("x//")) == "x"
  {
    StripKeepsOneOfTwo("x");
    assert "x" + "//" == "x//";
    assert "x" + "/" == "x/";
  }

  const EditPrefix: string := "/edit/main/"

  /** `getEditUrlForContentPath(path)` */
  function EditUrl(repoUrl: Option<string>, path: string): (r: Option<string>)
    ensures r.None? <==> !Truthy(repoUrl)
    ensures r.Some? ==> StartsWith(r.value, StripTrailingSlash(repoUrl.value) + EditPrefix)
  {
    if !Truthy(repoUrl) then None
    else
      var base := StripTrailingSlash(repoUrl.value);
      StartsWithPrefix(base + EditPrefix, path);
      Some(base + EditPrefix + path)
  }

  /** The path is what follows the edit prefix: the URL determines it. */
  lemma EditUrlRecoversPath(repoUrl: Option<string>, path: string)
    requires Truthy(repoUrl)
    ensures var base := StripTrailingSlash(repoUrl.value);
      EditUrl(repoUrl, path).value[|base| + |EditPrefix|..] == path
  {
    var base := StripTrailingSlash(repoUrl.value);
    assert (base + EditPrefix + path)[|base + EditPrefix|..] == path;
  }

  /** Two content paths have the same edit URL only when they are the same
      path. */
  lemma EditUrlInjective(repoUrl: Option<string>, p: string, q: string)
    requires Truthy(repoUrl)
    requires EditUrl(repoUrl, p) == EditUrl(repoUrl, q)
    ensures p == q
  {
    EditUrlRecoversPath(repoUrl, p);
    EditUrlRecoversPath(repoUrl, q);
  }

  const IssuePrefix: string := "/issues/new?"

  /** The query's pairs: the title, then the body when it is truthy. */
  function IssuePairs(title: string, body: Option<string>): (r: seq<Pair>)
    ensures ValuesOf(r, "title") == [title]
    ensures ValuesOf(r, "body") == (if Truthy(body) then [body.value] else [])
    ensures forall p :: p in r ==> p.0 == "title" || p.0 == "body"
  {
    if Truthy(body) then
      assert ValuesOf([("title", title), ("body", body.value)], "body") == ValuesOf([("body", body.value)], "body");
      [("title", title), ("body", body.value)]
    else [("title", title)]
  }

  /** The URL `getNewIssueUrl` builds. */
  function IssueUrl(repoUrl: Option<string>, title: string, body: Option<string>, serialize: seq<Pair> -> string)
    : (r: Option<string>)
    ensures r.None? <==> !Truthy(repoUrl)
    ensures r.Some? ==> StartsWith(r.value, StripTrailingSlash(repoUrl.value) + IssuePrefix)
  {
    if !Truthy(repoUrl) then None
    else
      var base := StripTrailingSlash(repoUrl.value);
      StartsWithPrefix(base + IssuePrefix, serialize(IssuePairs(title, body)));
      Some(base + IssuePrefix + serialize(IssuePairs(title, body)))
  }

  /** `getNewIssueUrl({ title, body })`: builds the query on a fresh
      `URLSearchParams` with `set`. */
  method NewIssueUrl(repoUrl: Option<string>, title: string, body: Option<string>, serialize: seq<Pair> -> string)
    returns (url: Option<string>)
    ensures url == IssueUrl(repoUrl, title, body, serialize)
  {
    if !Truthy(repoUrl) {
      return None;
    }
    var base := StripTrailingSlash(repoUrl.value);
    var search := new SearchParams.Empty();
    search.Set("title", title);
    assert search.pairs == [("title", title)];
    if Truthy(body) {
      search.Set("body", body.value);
      assert search.pairs == [("title", title)] + WithSet([], "body", body.value);
    }
    assert search.pairs == IssuePairs(title, body);
    url := Some(base + IssuePrefix + serialize(search.pairs));
  }
}
