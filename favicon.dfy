/**
 * Shortcut icons. script.js builds the icon-service URL for a shortcut's host;
 * firefox/script.js keeps each downloaded icon in local storage under
 * `favicon_<host>` and answers later lookups from there.
 */
module Favicon {
  import opened Values
  import opened Text
  import opened Shortcuts

  const FaviconPrefix: string := "favicon_"

  /** `favicon_${domain}` */
  function CacheKey(hostname: string): (k: string)
    ensures StartsWith(k, FaviconPrefix)
  {
    FaviconPrefix + hostname
  }

  /** Each host has its own entry. */
  lemma CacheKeyInjective(h1: string, h2: string)
    requires CacheKey(h1) == CacheKey(h2)
    ensures h1 == h2
  {
    assert h1 == CacheKey(h1)[|FaviconPrefix|..];
    assert h2 == CacheKey(h2)[|FaviconPrefix|..];
  }

  const ServicePrefix: string := "https://www.google.com/s2/favicons?domain="

  /** The icon service's address for a host, asking for a 64-pixel icon. */
  function ServiceUrl(hostname: string): (url: string)
    ensures StartsWith(url, ServicePrefix) && |url| == |ServicePrefix| + |hostname| + |"&sz=64"|
    ensures url[|ServicePrefix|..|ServicePrefix| + |hostname|] == hostname
  {
    ServicePrefix + hostname + "&sz=64"
  }

  /** Different hosts ask the service for different URLs. */
  lemma ServiceUrlInjective(h1: string, h2: string)
    requires ServiceUrl(h1) == ServiceUrl(h2)
    ensures h1 == h2
  {
    assert |h1| == |h2|;
  }

  /** `getFaviconUrl` in script.js: the service URL, or null when the URL does not parse. */
  function FaviconUrl(parsed: Option<ParsedUrl>): (r: Option<string>)
    ensures r.None? <==> parsed.None?
    ensures r.Some? ==> r.value == ServiceUrl(parsed.value.hostname)
  {
    if parsed.None? then None else Some(ServiceUrl(parsed.value.hostname))
  }

  /** The string entries of local storage that the icon cache reads and writes. */
  type LocalStrings = map<string, string>

  /** What `getFaviconUrl` resolves to, and local storage afterwards. */
  datatype Lookup = Lookup(icon: Option<string>, local: LocalStrings)

  /** `cached[cacheKey]` is truthy. */
  predicate IsCached(local: LocalStrings, hostname: string) {
    CacheKey(hostname) in local && local[CacheKey(hostname)] != ""
  }

  /**
   * `getFaviconUrl` in firefox/script.js. `fetched` is the icon read as a data
   * URL, None when the fetch threw. A stored icon is returned without a fetch;
   * a fetched one is stored and returned; a failed fetch returns the service
   * URL and stores nothing; a URL that does not parse yields null.
   */
  function CachedFaviconUrl(parsed: Option<ParsedUrl>, local: LocalStrings, fetched: Option<string>): (r: Lookup)
    ensures parsed.None? ==> r == Lookup(None, local)
    ensures parsed.Some? && IsCached(local, parsed.value.hostname) ==>
      r == Lookup(Some(local[CacheKey(parsed.value.hostname)]), local)
    ensures parsed.Some? && !IsCached(local, parsed.value.hostname) && fetched.None? ==>
      r == Lookup(FaviconUrl(parsed), local)
    ensures parsed.Some? && !IsCached(local, parsed.value.hostname) && fetched.Some? ==>
      r.icon == fetched && r.local == local[CacheKey(parsed.value.hostname) := fetched.value]
  {
    if parsed.None? then Lookup(None, local)
    else
      var key := CacheKey(parsed.value.hostname);
      if key in local && local[key] != "" then Lookup(Some(local[key]), local)
      else if fetched.None? then Lookup(Some(ServiceUrl(parsed.value.hostname)), local)
      else Lookup(fetched, local[key := fetched.value])
  }

  /** A lookup only ever writes its own host's entry. */
  lemma LookupTouchesOnlyItsHost(parsed: Option<ParsedUrl>, local: LocalStrings, fetched: Option<string>, key: string)
    requires parsed.Some? && key != CacheKey(parsed.value.hostname)
    ensures var r := CachedFaviconUrl(parsed, local, fetched);
      (key in r.local <==> key in local) && (key in local ==> r.local[key] == local[key])
  {
  }

  /** Once an icon has been fetched, the next lookup of that host is answered from storage. */
  lemma SecondLookupHits(parsed: Option<ParsedUrl>, local: LocalStrings, fetched: Option<string>, refetched: Option<string>)
    requires parsed.Some? && fetched.Some? && fetched.value != ""
    ensures var first := CachedFaviconUrl(parsed, local, fetched);
      CachedFaviconUrl(parsed, first.local, refetched) == first
  {
    var first := CachedFaviconUrl(parsed, local, fetched);
    assert IsCached(first.local, parsed.value.hostname);
  }

  /** With nothing stored and the fetch failing, Firefox shows what the uncached Chrome page shows. */
  lemma FailedFetchMatchesUncached(parsed: Option<ParsedUrl>, local: LocalStrings)
    requires parsed.Some? ==> !IsCached(local, parsed.value.hostname)
    ensures CachedFaviconUrl(parsed, local, None).icon == FaviconUrl(parsed)
  {
  }

  /**
   * The favicon cache cleared as the options page's button intends: every
   * `favicon_` entry removed and every other entry kept.
   */
  function ClearFaviconCache(local: LocalStrings): (r: LocalStrings)
    ensures forall k :: k in r ==> !StartsWith(k, FaviconPrefix)
    ensures forall k :: k in local && !StartsWith(k, FaviconPrefix) ==> k in r && r[k] == local[k]
    ensures r.Keys <= local.Keys
  {
    map k | k in local && !StartsWith(k, FaviconPrefix) :: local[k]
  }

  /** After clearing, every host's icon is fetched afresh. */
  lemma LookupAfterClearFetches(parsed: Option<ParsedUrl>, local: LocalStrings)
    requires parsed.Some?
    ensures !IsCached(ClearFaviconCache(local), parsed.value.hostname)
  {
    assert StartsWith(CacheKey(parsed.value.hostname), FaviconPrefix);
  }
}
