/**
  The sitemap: one entry per public route under a base URL taken from the
  `SITE_URL` setting when it looks like an http(s) URL, with a fixed fallback.
  The clock reading is a parameter, as milliseconds since the epoch.
 */
module Sitemap {
  import opened Wrappers
  import TopNav

  const FallbackBase := "https://example.com"
  const Weekly := "weekly"

  /** The public routes, in order. */
  const Routes: seq<string> := ["/", "/bio", "/music", "/video", "/booking"]

  datatype Entry = Entry(url: string, lastModified: int, changeFrequency: string, priority: real)

  predicate StartsWith(s: string, prefix: string) {
    |prefix| <= |s| && s[..|prefix|] == prefix
  }

  /** `SITE_URL` when it starts with "http", otherwise the fallback; either way the base
      starts with "http". */
  function Base(siteUrl: Option<string>): (base: string)
    ensures StartsWith(base, "http")
    ensures siteUrl.Some? && StartsWith(siteUrl.value, "http") ==> base == siteUrl.value
    ensures !(siteUrl.Some? && StartsWith(siteUrl.value, "http")) ==> base == FallbackBase
  {
    if siteUrl.Some? && StartsWith(siteUrl.value, "http") then siteUrl.value
    else
      assert FallbackBase[..4] == "http";
      FallbackBase
  }

  /** The route's entry: the base followed by the path, top priority for the home page only. */
  function EntryFor(base: string, now: int, path: string): Entry {
    Entry(base + path, now, Weekly, if path == "/" then 1.0 else 0.7)
  }

  /** `sitemap()`: one entry per route, in route order; each URL is the base followed by the
      route, every entry shares the clock reading and the weekly frequency, and only the home
      page has priority 1. */
  function Sitemap(siteUrl: Option<string>, now: int): (entries: seq<Entry>)
    ensures |entries| == |Routes|
    ensures forall i :: 0 <= i < |entries| ==>
              StartsWith(entries[i].url, Base(siteUrl))
              && entries[i].url[|Base(siteUrl)|..] == Routes[i]
    ensures forall i :: 0 <= i < |entries| ==>
              entries[i].lastModified == now && entries[i].changeFrequency == Weekly
    ensures forall i :: 0 <= i < |entries| ==>
              (entries[i].priority == 1.0 <==> i == 0)
              && (i > 0 ==> entries[i].priority == 0.7)
  {
    var base := Base(siteUrl);
    seq(|Routes|, i requires 0 <= i < |Routes| => EntryFor(base, now, Routes[i]))
  }

  /** The routes are pairwise distinct. */
  lemma DistinctRoutes(i: nat, j: nat)
    requires i < |Routes| && j < |Routes|
    ensures Routes[i] == Routes[j] <==> (i == j)
  {
    if i != j {
      assert |Routes[i]| != |Routes[j]| || Routes[i][1] != Routes[j][1];
    }
  }

  /** No URL appears twice in the sitemap. */
  lemma SitemapUrlsDistinct(siteUrl: Option<string>, now: int, i: nat, j: nat)
    requires i < |Routes| && j < |Routes| && i != j
    ensures Sitemap(siteUrl, now)[i].url != Sitemap(siteUrl, now)[j].url
  {
    DistinctRoutes(i, j);
  }

  /** The sitemap lists exactly the pages the header links to, in the header's order. */
  lemma SitemapCoversNav(siteUrl: Option<string>, now: int)
    ensures |Sitemap(siteUrl, now)| == |TopNav.Nav|
    ensures forall i :: 0 <= i < |TopNav.Nav| ==>
              Sitemap(siteUrl, now)[i].url == Base(siteUrl) + TopNav.Nav[i].href
  {
    var entries, base := Sitemap(siteUrl, now), Base(siteUrl);
    forall i | 0 <= i < |TopNav.Nav|
      ensures entries[i].url == base + TopNav.Nav[i].href
    {
      assert entries[i].url == entries[i].url[..|base|] + entries[i].url[|base|..];
    }
  }
}
