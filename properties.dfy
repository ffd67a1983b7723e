/** What the resolvers guarantee across calls: the cache only grows, a
    repeated call is answered from the cache with no request at all, and the
    sites of a state come back in the order of its URL list. */
module ResolverProperties {
  import opened Results
  import opened Html
  import opened Site
  import opened KeyValueCache
  import opened Scrape
  import opened Resolvers

  /** A successful `build_state_url_dict` repeated is a hit. */
  lemma IndexTwice(entries: map<string, Value>, pages: string -> Page, pages': string -> Page)
    requires IndexStep(entries, pages).result.Ok?
    ensures var s := IndexStep(entries, pages); IndexStep(s.entries, pages') == Step(s.result, s.entries, [])
  {
  }

  /** A successful `get_site_instance` repeated with the same URL is a hit
      that rebuilds an equal record, whatever the page now says. */
  lemma SiteTwice(entries: map<string, Value>, pages: string -> Page, pages': string -> Page, url: string)
    ensures var s := SiteStep(entries, pages, url);
            s.result.Ok? ==> SiteStep(s.entries, pages', url) == Step(s.result, s.entries, [])
  {
    if SiteStep(entries, pages, url).result.Ok? {
      Decodes();
      SecondCallHits(entries, url, DecodeSite, Get(url), ExtractSite(pages(url)),
                     EncodeSite, Get(url), ExtractSite(pages'(url)));
    }
  }

  /** After a successful `get_site_instance`, the URL's entry rebuilds the
      record returned. */
  lemma SiteEntryRebuilds(entries: map<string, Value>, pages: string -> Page, url: string)
    ensures var s := SiteStep(entries, pages, url);
            s.result.Ok? ==> url in s.entries && DecodeSite(s.entries[url]) == s.result
  {
    var s := SiteStep(entries, pages, url);
    if s.result.Ok? && url !in entries {
      SiteFieldsRoundTrip(s.result.value);
    }
  }

  /** A `get_nearby_places` repeated for the same zipcode is a hit. */
  lemma NearbyTwice(entries: map<string, Value>, search: Query -> PlacesResult,
                    search': Query -> PlacesResult, site: NationalSite)
    requires NearbyStep(entries, search, site).result.Ok?
    ensures var s := NearbyStep(entries, search, site);
            NearbyStep(s.entries, search', site) == Step(s.result, s.entries, [])
  {
  }

  /** Resolving a list of site URLs only adds entries, even when it fails
      part-way. */
  lemma {:induction false} SitesAppendOnly(entries: map<string, Value>, pages: string -> Page, urls: seq<string>)
    ensures Extends(entries, SitesStep(entries, pages, urls).entries)
    decreases |urls|
  {
    if urls != [] {
      var first := SiteStep(entries, pages, urls[0]);
      if first.result.Ok? {
        SitesAppendOnly(first.entries, pages, urls[1..]);
      }
    }
  }

  /** When resolving a list of site URLs succeeds, there is one record per
      URL, in the same order, and each URL's cache entry rebuilds exactly the
      record returned at its position. */
  lemma {:induction false} SitesCached(entries: map<string, Value>, pages: string -> Page, urls: seq<string>)
    ensures var s := SitesStep(entries, pages, urls);
            s.result.Ok? ==> (|s.result.value| == |urls| &&
              forall i | 0 <= i < |urls| :: urls[i] in s.entries && DecodeSite(s.entries[urls[i]]) == Ok(s.result.value[i]))
    decreases |urls|
  {
    if urls != [] {
      var first := SiteStep(entries, pages, urls[0]);
      if first.result.Ok? {
        var v := first.result.value;
        SitesCached(first.entries, pages, urls[1..]);
        SitesAppendOnly(first.entries, pages, urls[1..]);
        SiteEntryRebuilds(entries, pages, urls[0]);
        var rest := SitesStep(first.entries, pages, urls[1..]);
        assert SitesStep(entries, pages, urls) == Prepend([v], first.requests, rest);
        if rest.result.Ok? {
          assert [urls[0]] + urls[1..] == urls;
          ConsCached(first.entries, rest.entries, urls[0], v, urls[1..], rest.result.value);
        }
      }
    }
  }

  /** The records of a list stay rebuilt by their entries when one more URL,
      whose own entry survives, is put in front. */
  lemma ConsCached(e0: map<string, Value>, e1: map<string, Value>, url: string, site: NationalSite,
                   urls: seq<string>, sites: seq<NationalSite>)
    requires url in e0 && DecodeSite(e0[url]) == Ok(site) && Extends(e0, e1)
    requires |sites| == |urls|
    requires forall i | 0 <= i < |urls| :: urls[i] in e1 && DecodeSite(e1[urls[i]]) == Ok(sites[i])
    ensures forall i | 0 <= i < |urls| + 1 ::
              ([url] + urls)[i] in e1 && DecodeSite(e1[([url] + urls)[i]]) == Ok(([site] + sites)[i])
  {
    forall i | 0 <= i < |urls| + 1
      ensures ([url] + urls)[i] in e1 && DecodeSite(e1[([url] + urls)[i]]) == Ok(([site] + sites)[i])
    {
      if i > 0 {
        assert ([url] + urls)[i] == urls[i - 1] && ([site] + sites)[i] == sites[i - 1];
      }
    }
  }

  /** When every URL already holds its record, resolving the list asks the
      network for nothing and changes nothing. */
  lemma {:induction false} SitesAllHits(entries: map<string, Value>, pages: string -> Page,
                                        urls: seq<string>, sites: seq<NationalSite>)
    requires |sites| == |urls|
    requires forall i | 0 <= i < |urls| :: urls[i] in entries && DecodeSite(entries[urls[i]]) == Ok(sites[i])
    ensures SitesStep(entries, pages, urls) == Step(Ok(sites), entries, [])
    decreases |urls|
  {
    if urls != [] {
      assert urls[0] in entries && DecodeSite(entries[urls[0]]) == Ok(sites[0]);
      SitesAllHits(entries, pages, urls[1..], sites[1..]);
      assert [sites[0]] + sites[1..] == sites;
    }
  }

  /** `get_sites_for_state` never overwrites or removes an entry, even when
      it fails part-way (the sites resolved before the failure stay cached). */
  lemma RegionAppendOnly(entries: map<string, Value>, pages: string -> Page, stateUrl: string)
    ensures Extends(entries, RegionStep(entries, pages, stateUrl).entries)
  {
    var u := UrlsStep(entries, pages, stateUrl);
    if u.result.Ok? {
      SitesAppendOnly(u.entries, pages, u.result.value);
    }
  }

  /** A successful `get_sites_for_state` returns one record per URL of the
      state's list, in the list's order; the list is cached under the state
      URL and, when it was not cached before, is the one built from the
      state page. */
  lemma RegionFollowsUrlList(entries: map<string, Value>, pages: string -> Page, stateUrl: string)
    ensures var u := UrlsStep(entries, pages, stateUrl);
            var s := RegionStep(entries, pages, stateUrl);
            s.result.Ok? ==>
            && u.result.Ok?
            && (stateUrl !in entries ==> u.result == SiteUrlsOfPage(pages(stateUrl)))
            && stateUrl in s.entries && s.entries[stateUrl] == UrlList(u.result.value)
            && |s.result.value| == |u.result.value|
            && forall i | 0 <= i < |u.result.value| :: u.result.value[i] in s.entries
                 && DecodeSite(s.entries[u.result.value[i]]) == Ok(s.result.value[i])
  {
    var u := UrlsStep(entries, pages, stateUrl);
    if u.result.Err? || RegionStep(entries, pages, stateUrl).result.Err? {
      return;
    }
    var urls := u.result.value;
    SitesCached(u.entries, pages, urls);
    SitesAppendOnly(u.entries, pages, urls);
    var ss := SitesStep(u.entries, pages, urls);
    assert [] + ss.result.value == ss.result.value;
    if stateUrl in entries {
      assert u.entries == entries;
      assert entries[stateUrl] == UrlList(urls);
    }
  }

  /** Resolving a state a second time, once it succeeded, returns the same
      records, leaves the cache as it is and sends no request at all. */
  lemma RegionTwice(entries: map<string, Value>, pages: string -> Page, pages': string -> Page, stateUrl: string)
    ensures var s := RegionStep(entries, pages, stateUrl);
            s.result.Ok? ==> RegionStep(s.entries, pages', stateUrl) == Step(s.result, s.entries, [])
  {
    var s := RegionStep(entries, pages, stateUrl);
    if s.result.Err? {
      return;
    }
    var urls := UrlsStep(entries, pages, stateUrl).result.value;
    RegionFollowsUrlList(entries, pages, stateUrl);
    var u2 := UrlsStep(s.entries, pages', stateUrl);
    assert u2 == Step(Ok(urls), s.entries, []);
    SitesAllHits(s.entries, pages', urls, s.result.value);
    PrependNothing(SitesStep(s.entries, pages', urls));
  }

  /** The resolvers as methods: a state resolved twice in a row is answered
      the second time from the cache, with equal records and no request. */
  method ResolveStateTwice(cache: Cache, web: Web, stateUrl: string)
    returns (first: Result<seq<NationalSite>>, second: Result<seq<NationalSite>>)
    modifies cache, web
    ensures first == RegionStep(old(cache.Open()), web.pages, stateUrl).result
    ensures first.Ok? ==> second == first
    ensures first.Ok? ==> web.requests == old(web.requests) + RegionStep(old(cache.Open()), web.pages, stateUrl).requests
  {
    first := GetSitesForState(cache, web, stateUrl);
    ghost var afterFirst := web.requests;
    second := GetSitesForState(cache, web, stateUrl);
    if first.Ok? {
      RegionTwice(old(cache.Open()), web.pages, web.pages, stateUrl);
      assert web.requests == afterFirst + [];
    }
  }
}
