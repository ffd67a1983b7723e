/** The four cache-backed resolvers. Each method does what its Python
    function does to the cache file and the network, and is specified by a
    function of the cache contents on entry and of what the network answers;
    the lemmas below state what those functions guarantee across calls. */
module Resolvers {
  import opened Results
  import opened Html
  import opened Site
  import opened KeyValueCache
  import opened Scrape

  // ---------------------------------------------------------------------
  // What each resolver does, as a function of the cache contents

  /** `build_state_url_dict`, keyed by the index URL. */
  function IndexStep(entries: map<string, Value>, pages: string -> Page): (s: Step<map<string, string>>)
    ensures IndexUrl in entries ==> s == Step(DecodeStateIndex(entries[IndexUrl]), entries, [])
    ensures IndexUrl !in entries ==>
              s.result == StateIndexOfPage(pages(IndexUrl)) && s.requests == [Get(IndexUrl)]
    ensures IndexUrl !in entries && s.result.Ok? ==> s.entries == entries[IndexUrl := StateIndex(s.result.value)]
    ensures s.result.Err? ==> s.entries == entries
  {
    GetOrFetch(entries, IndexUrl, DecodeStateIndex, Get(IndexUrl),
               StateIndexOfPage(pages(IndexUrl)), EncodeStateIndex)
  }

  /** `get_site_instance`, keyed by the site URL. */
  function SiteStep(entries: map<string, Value>, pages: string -> Page, url: string): (s: Step<NationalSite>)
    ensures url in entries ==> s == Step(DecodeSite(entries[url]), entries, [])
    ensures url !in entries ==> s.result == ExtractSite(pages(url)) && s.requests == [Get(url)]
    ensures url !in entries && s.result.Ok? ==> s.entries == entries[url := SiteRecord(SiteFields(s.result.value))]
    ensures s.result.Err? ==> s.entries == entries
  {
    GetOrFetch(entries, url, DecodeSite, Get(url), ExtractSite(pages(url)), EncodeSite)
  }

  /** The URL-list half of `get_sites_for_state`, keyed by the state URL. */
  function UrlsStep(entries: map<string, Value>, pages: string -> Page, stateUrl: string): (s: Step<seq<string>>)
    ensures stateUrl in entries ==> s == Step(DecodeUrls(entries[stateUrl]), entries, [])
    ensures stateUrl !in entries ==>
              s.result == SiteUrlsOfPage(pages(stateUrl)) && s.requests == [Get(stateUrl)]
    ensures stateUrl !in entries && s.result.Ok? ==> s.entries == entries[stateUrl := UrlList(s.result.value)]
    ensures s.result.Err? ==> s.entries == entries
  {
    GetOrFetch(entries, stateUrl, DecodeUrls, Get(stateUrl), SiteUrlsOfPage(pages(stateUrl)), EncodeUrls)
  }

  /** `get_nearby_places`, keyed by the site's zipcode. */
  function NearbyStep(entries: map<string, Value>, search: Query -> PlacesResult,
                      site: NationalSite): (s: Step<PlacesResult>)
    ensures site.zipcode in entries ==> s == Step(DecodePlaces(entries[site.zipcode]), entries, [])
    ensures site.zipcode !in entries ==>
              && s.result == Ok(search(RadiusQuery(site.zipcode)))
              && s.requests == [Search(RadiusQuery(site.zipcode))]
              && s.entries == entries[site.zipcode := Places(s.result.value)]
  {
    var q := RadiusQuery(site.zipcode);
    GetOrFetch(entries, site.zipcode, DecodePlaces, Search(q), Ok(search(q)), EncodePlaces)
  }

  /** `done` and `reqs` followed by the step `rest`. */
  function Prepend(done: seq<NationalSite>, reqs: seq<Request>, rest: Step<seq<NationalSite>>): (s: Step<seq<NationalSite>>)
    ensures s.entries == rest.entries && s.requests == reqs + rest.requests
    ensures s.result.Ok? <==> rest.result.Ok?
    ensures s.result.Ok? ==> s.result.value == done + rest.result.value
  {
    Step(match rest.result case Ok(v) => Ok(done + v) case Err(e) => Err(e),
         rest.entries, reqs + rest.requests)
  }

  /** `get_site_instance` on each URL in turn, each call seeing the cache the
      previous one left. The first failure aborts the list, and what the
      calls before it saved stays saved. */
  function SitesStep(entries: map<string, Value>, pages: string -> Page, urls: seq<string>): (s: Step<seq<NationalSite>>)
    ensures s.result.Ok? ==> |s.result.value| == |urls|
    ensures |s.requests| <= |urls|
    decreases |urls|
  {
    if urls == [] then Step(Ok([]), entries, [])
    else
      var first := SiteStep(entries, pages, urls[0]);
      match first.result
      case Err(e) => Step(Err(e), first.entries, first.requests)
      case Ok(s) => Prepend([s], first.requests, SitesStep(first.entries, pages, urls[1..]))
  }

  /** The whole of `get_sites_for_state`. */
  function RegionStep(entries: map<string, Value>, pages: string -> Page, stateUrl: string): (s: Step<seq<NationalSite>>)
    ensures var u := UrlsStep(entries, pages, stateUrl);
            s.result.Ok? ==> u.result.Ok? && |s.result.value| == |u.result.value|
    ensures var u := UrlsStep(entries, pages, stateUrl);
            u.result.Ok? ==> |s.requests| <= |u.requests| + |u.result.value|
    ensures var u := UrlsStep(entries, pages, stateUrl);
            u.result.Err? ==> s == Step(Err(u.result.error), u.entries, u.requests)
  {
    var u := UrlsStep(entries, pages, stateUrl);
    match u.result
    case Err(e) => Step(Err(e), u.entries, u.requests)
    case Ok(urls) => Prepend([], u.requests, SitesStep(u.entries, pages, urls))
  }

  // ---------------------------------------------------------------------
  // The resolvers

  /** `build_state_url_dict`. */
  method BuildStateUrlDict(cache: Cache, web: Web) returns (r: Result<map<string, string>>)
    modifies cache, web
    ensures var s := IndexStep(old(cache.Open()), web.pages);
            r == s.result && cache.Open() == s.entries && web.requests == old(web.requests) + s.requests
    ensures cache.Open() == old(cache.Open()) ==> unchanged(cache)
  {
    var entries := cache.Open();
    if IndexUrl in entries {
      r := DecodeStateIndex(entries[IndexUrl]);
    } else {
      var page := web.GetSoup(IndexUrl);
      if page.stateMenu.None? {
        return Err(MissingStateMenu);
      }
      r := BuildStateIndex(page.stateMenu.value);
      if r.Ok? {
        cache.Save(entries[IndexUrl := StateIndex(r.value)]);
      }
    }
  }

  /** `get_site_instance`. */
  method GetSiteInstance(cache: Cache, web: Web, siteUrl: string) returns (r: Result<NationalSite>)
    modifies cache, web
    ensures var s := SiteStep(old(cache.Open()), web.pages, siteUrl);
            r == s.result && cache.Open() == s.entries && web.requests == old(web.requests) + s.requests
    ensures cache.Open() == old(cache.Open()) ==> unchanged(cache)
  {
    var entries := cache.Open();
    if siteUrl in entries {
      r := DecodeSite(entries[siteUrl]);
    } else {
      var page := web.GetSoup(siteUrl);
      r := ExtractSite(page);
      if r.Ok? {
        cache.Save(entries[siteUrl := SiteRecord(SiteFields(r.value))]);
      }
    }
  }

  /** `get_sites_for_state`. */
  method GetSitesForState(cache: Cache, web: Web, stateUrl: string) returns (r: Result<seq<NationalSite>>)
    modifies cache, web
    ensures var s := RegionStep(old(cache.Open()), web.pages, stateUrl);
            r == s.result && cache.Open() == s.entries && web.requests == old(web.requests) + s.requests
    ensures cache.Open() == old(cache.Open()) ==> unchanged(cache)
  {
    ghost var e0 := cache.Open();
    ghost var q0 := web.requests;
    var u := GetSiteUrls(cache, web, stateUrl);
    ghost var us := UrlsStep(e0, web.pages, stateUrl);
    ghost var e1 := cache.Open();
    assert Extends(e0, e1);
    ghost var f1 := cache.file;
    if u.Err? {
      assert RegionStep(e0, web.pages, stateUrl) == Step(Err(u.error), us.entries, us.requests);
      return Err(u.error);
    }
    ghost var q1 := web.requests;
    r := GetSites(cache, web, u.value);
    ghost var ss := SitesStep(us.entries, web.pages, u.value);
    assert RegionStep(e0, web.pages, stateUrl) == Prepend([], us.requests, ss);
    assert r == ss.result;
    if r.Ok? {
      assert [] + r.value == r.value;
    }
    assert web.requests == q1 + ss.requests;
    assert q1 == q0 + us.requests;
    ReqAssoc(q0, us.requests, ss.requests);
    ExtendsBetween(e0, e1, cache.Open());
  }

  /** The first half of `get_sites_for_state`: the cached URL list, or the
      list built from the fetched state page and then cached. */
  method GetSiteUrls(cache: Cache, web: Web, stateUrl: string) returns (r: Result<seq<string>>)
    modifies cache, web
    ensures var s := UrlsStep(old(cache.Open()), web.pages, stateUrl);
            r == s.result && cache.Open() == s.entries && web.requests == old(web.requests) + s.requests
    ensures cache.Open() == old(cache.Open()) ==> unchanged(cache)
  {
    var entries := cache.Open();
    if stateUrl in entries {
      r := DecodeUrls(entries[stateUrl]);
    } else {
      var page := web.GetSoup(stateUrl);
      if page.parkList.None? {
        return Err(MissingSiteList);
      }
      r := BuildSiteUrls(page.parkList.value);
      if r.Ok? {
        cache.Save(entries[stateUrl := UrlList(r.value)]);
      }
    }
  }

  /** The second half of `get_sites_for_state`: one `get_site_instance` per
      URL, appended in order. */
  method GetSites(cache: Cache, web: Web, urls: seq<string>) returns (r: Result<seq<NationalSite>>)
    modifies cache, web
    ensures var s := SitesStep(old(cache.Open()), web.pages, urls);
            r == s.result && cache.Open() == s.entries && web.requests == old(web.requests) + s.requests
    ensures Extends(old(cache.Open()), cache.Open())
    ensures cache.Open() == old(cache.Open()) ==> unchanged(cache)
  {
    ghost var done: seq<Request> := [];
    var sites := [];
    var i := 0;
    PrependNothing(SitesStep(cache.Open(), web.pages, urls));
    assert urls[0..] == urls;
    while i < |urls|
      invariant 0 <= i <= |urls|
      invariant web.requests == old(web.requests) + done
      invariant SitesStep(old(cache.Open()), web.pages, urls)
                == Prepend(sites, done, SitesStep(cache.Open(), web.pages, urls[i..]))
      invariant Extends(old(cache.Open()), cache.Open())
      invariant cache.Open() == old(cache.Open()) ==> unchanged(cache)
    {
      ghost var cur := cache.Open();
      ghost var step := SiteStep(cur, web.pages, urls[i]);
      ghost var rest := SitesStep(step.entries, web.pages, urls[i + 1..]);
      SitesStepUnfold(cur, web.pages, urls, i);
      var s := GetSiteInstance(cache, web, urls[i]);
      assert s == step.result && cache.Open() == step.entries;
      assert Extends(cur, cache.Open());
      ExtendsBetween(old(cache.Open()), cur, cache.Open());
      ReqAssoc(old(web.requests), done, step.requests);
      if s.Err? {
        assert SitesStep(cur, web.pages, urls[i..]) == Step(Err(s.error), step.entries, step.requests);
        done := done + step.requests;
        return Err(s.error);
      }
      assert SitesStep(cur, web.pages, urls[i..]) == Prepend([s.value], step.requests, rest);
      PrependPrepend(sites, [s.value], done, step.requests, rest);
      assert SitesStep(old(cache.Open()), web.pages, urls)
          == Prepend(sites + [s.value], done + step.requests, rest);
      done := done + step.requests;
      sites := sites + [s.value];
      i := i + 1;
      assert rest == SitesStep(cache.Open(), web.pages, urls[i..]);
    }
    assert urls[i..] == [];
    assert sites + [] == sites && done + [] == done;
    r := Ok(sites);
  }

  lemma SitesStepUnfold(entries: map<string, Value>, pages: string -> Page, urls: seq<string>, i: nat)
    requires i < |urls|
    ensures var first := SiteStep(entries, pages, urls[i]);
            SitesStep(entries, pages, urls[i..])
            == match first.result
               case Err(e) => Step(Err(e), first.entries, first.requests)
               case Ok(s) => Prepend([s], first.requests, SitesStep(first.entries, pages, urls[i + 1..]))
  {
  }

  lemma PrependNothing(rest: Step<seq<NationalSite>>)
    ensures Prepend([], [], rest) == rest
  {
    assert [] + rest.requests == rest.requests;
    if rest.result.Ok? {
      assert [] + rest.result.value == rest.result.value;
    }
  }

  lemma ReqAssoc(a: seq<Request>, b: seq<Request>, c: seq<Request>)
    ensures a + (b + c) == (a + b) + c
  {
  }

  lemma PrependPrepend(a: seq<NationalSite>, b: seq<NationalSite>, q: seq<Request>, p: seq<Request>,
                       rest: Step<seq<NationalSite>>)
    ensures Prepend(a, q, Prepend(b, p, rest)) == Prepend(a + b, q + p, rest)
  {
    assert q + (p + rest.requests) == (q + p) + rest.requests;
    if rest.result.Ok? {
      assert a + (b + rest.result.value) == (a + b) + rest.result.value;
    }
  }

  /** `get_nearby_places`. */
  method GetNearbyPlaces(cache: Cache, web: Web, site: NationalSite) returns (r: Result<PlacesResult>)
    modifies cache, web
    ensures var s := NearbyStep(old(cache.Open()), web.search, site);
            r == s.result && cache.Open() == s.entries && web.requests == old(web.requests) + s.requests
    ensures cache.Open() == old(cache.Open()) ==> unchanged(cache)
  {
    var entries := cache.Open();
    var zipcode := site.zipcode;
    if zipcode in entries {
      r := DecodePlaces(entries[zipcode]);
    } else {
      var places := web.RadiusSearch(zipcode);
      cache.Save(entries[zipcode := Places(places)]);
      r := Ok(places);
    }
  }
}
