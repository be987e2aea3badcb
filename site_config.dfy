/** The site's base URL as the calendar and RSS routes read it from the
    environment. */
module SiteConfig {
  import opened Wrappers

  const DefaultSiteUrl := "http://localhost:3000"

  /** `process.env.NEXT_PUBLIC_SITE_URL ?? "http://localhost:3000"`: the
      configured value whenever one is set, even an empty one. */
  function SiteUrl(configured: Option<string>): (r: string)
    ensures configured.Some? ==> r == configured.value
    ensures configured.None? ==> r == DefaultSiteUrl
  {
    configured.GetOr(DefaultSiteUrl)
  }

  /** The public page of a guide, as both guide feeds link it. */
  function GuideUrl(siteUrl: string, slug: string): string {
    siteUrl + "/learn/guides/" + slug
  }
}
