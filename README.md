# National-site scraper: the cache-backed resolution core

This project models the core of a scraper for the site of the U.S. National Park Service
(`https://www.nps.gov`) and a radius-search API. The program resolves a state name to its
index URL, resolves that URL to the ordered list of site detail URLs, and extracts a
`NationalSite` record from each detail page. Absent fields fall back to `"No <field>"`
sentinels. It then looks up nearby places by zipcode. Every stage reads and writes one shared
cache file, a string-keyed dictionary. A stage fetches only on a miss, writes the result under
its key, and saves the whole file after each write.

The model, module by module:

- `Results`: `Option`, `Result` and the errors the program raises.
- `Text`: `str.strip()` and `str.lower()`, restricted to ASCII.
- `Html`: a parsed page, reduced to the containers and elements the program looks up, each
  optional. It also holds the radius-search response and the `Web` class, which answers GET and
  search requests from two fixed functions and logs every request it is sent.
- `Site`: the `NationalSite` record, `info()`, and extraction with sentinel fallbacks. It also
  holds the dictionary a record is cached as, and how a record is rebuilt from it.
- `KeyValueCache`: the cached `Value` kinds and the generic get-or-fetch discipline
  (`GetOrFetch`). It also holds the `Cache` class, which models the cache file
  (`open_cache` / `save_cache`).
- `Scrape`: the accumulation loops that build the state index and the site-URL list. Each is
  specified by a function over the page's elements.
- `Resolvers`: the four resolvers as methods. Each is tied to a function of the cache contents
  on entry and of the network's answers. That function gives the result, the new cache contents
  and the requests sent.
- `ResolverProperties`: properties that span several calls. The cache only grows. A repeated
  successful call is a hit that sends no request. The sites of a state come back in the order
  of its URL list.
- `Places`: the guard on the nearby-places request, and the empty-field substitution of
  `print_places`.

Two behaviours of the program are easy to misread; the model follows the code:

- A missing `Hero-titleContainer` header is an error, not a record full of sentinels. Line 217
  calls `find` on the missing container outside any `try`, so the program fails there.
  `Site.ExtractSite` states this.
- A record field can be the empty string. A present element whose text is only whitespace
  strips to `""`, and the sentinel applies only to an absent element.
  `Site.BlankDesignationKeepsEmptyCategory` shows this for the category. The `NationalSite`
  docstring also mentions blank categories.

## Model

| member | source | states |
|---|---|---|
| Text.Strip | proj2_nps.py:219 | the result is an infix of the input with only whitespace cut off on either side, and it neither starts nor ends with whitespace; whitespace is the ten ASCII characters Python counts as such, U+001C to U+001F included |
| Text.AllSpaceStrips | proj2_nps.py:224 | text made only of whitespace strips to the empty string |
| Text.Lower | proj2_nps.py:184 | same length as the input; each character is lower-cased if it is an upper-case ASCII letter and kept otherwise |
| Html.RadiusQuery | proj2_nps.py:325-332 | the radius search is sent with the site's zipcode as its origin |
| Html.Web.GetSoup | proj2_nps.py:19-32 | returns the page at the URL and logs exactly one GET of that URL |
| Html.Web.RadiusSearch | proj2_nps.py:324-334 | returns the response to the fixed radius query for the zipcode and logs exactly that one search |
| Site.Info | proj2_nps.py:145-153 | the string is name, " (", category, "): ", address, " ", zipcode, in that order and nothing else |
| Site.Sentinel | proj2_nps.py:221-245 | the fallback for a field is "No " followed by the field's name |
| Site.FieldOr | proj2_nps.py:217-245 | a present element gives its stripped text, which neither starts nor ends with whitespace; an absent one gives the field's sentinel |
| Site.AddressOf | proj2_nps.py:230-235 | with both the locality and the region span, the address is their stripped texts joined by ", "; without either it is "No address" |
| Site.ExtractSite | proj2_nps.py:213-251 | a missing header is MissingHeader; a present header with a missing footer is MissingFooter; otherwise a record. Each field is the stripped text of its own element, or its own sentinel when that element is absent |
| Site.SiteFields | proj2_nps.py:253-257 | the cached dictionary has exactly the five keys category, name, address, zipcode and phone, each holding the record's field |
| Site.SiteFromFields | proj2_nps.py:206-210 | a record is rebuilt exactly when all five keys are present; otherwise the error names the first missing key in the order category, name, address, zipcode, phone; a rebuilt record caches back to the five cached values |
| Site.SiteFieldsRoundTrip | proj2_nps.py:206-257 | the dictionary written on a miss rebuilds an equal record on a hit |
| Site.SiteFieldsInjective | proj2_nps.py:247-257 | two records that cache to the same dictionary are equal |
| Site.AddressSentinelIff | proj2_nps.py:230-235 | the address is "No address" exactly when the locality or the region span is absent |
| Site.MissingPhoneOnlyAffectsPhone | proj2_nps.py:241-245 | dropping the telephone span changes only the phone, which becomes "No phone" |
| Site.MissingNameOnlyAffectsName | proj2_nps.py:217-221 | dropping the title anchor changes only the name, which becomes "No name" |
| Site.BlankDesignationKeepsEmptyCategory | proj2_nps.py:222-226 | a whitespace-only designation gives an empty category, not the sentinel |
| KeyValueCache.DecodeStateIndex | proj2_nps.py:173-175 | a hit yields the cached state index, and only a state-index value does |
| KeyValueCache.DecodeUrls | proj2_nps.py:276-278 | a hit yields the cached URL list, and only a URL-list value does |
| KeyValueCache.DecodeSite | proj2_nps.py:204-210 | a hit on a site record rebuilds the record from its dictionary; any other kind of value is an error |
| KeyValueCache.EncodeSite | proj2_nps.py:253-257 | a miss caches the record as its five-field dictionary |
| KeyValueCache.DecodePlaces | proj2_nps.py:319-321 | a hit yields the cached search response, and only a places value does |
| KeyValueCache.EncodeStateIndex | proj2_nps.py:185 | a built state index is cached as a state-index value holding that map |
| KeyValueCache.EncodeUrls | proj2_nps.py:294 | a built URL list is cached as a URL-list value holding that list |
| KeyValueCache.EncodePlaces | proj2_nps.py:335 | a search response is cached as a places value holding that response |
| KeyValueCache.Decodes | proj2_nps.py:173-337 | each of the four kinds of cached value decodes back to what was stored |
| KeyValueCache.GetOrFetch | proj2_nps.py:172-187 | a hit returns the decoded stored value, sends no request and leaves the cache as it was. A miss sends one request and returns the fetched result. On success the key is added with the encoded value; on failure nothing is stored. No existing entry changes, and the keys grow by that key only |
| KeyValueCache.ExtendsBetween | proj2_nps.py:172-300 | keeping every entry is transitive, and contents that grew and came back to where they were did not change in between |
| KeyValueCache.SecondCallHits | proj2_nps.py:173-186 | when stored values decode to themselves, a repeated successful call with the same key is a hit with the same result, the same cache and no request, whatever the network now answers |
| KeyValueCache.Cache.Open | proj2_nps.py:35-54 | with no file the cache is empty; otherwise it is the saved dictionary |
| KeyValueCache.Cache.Save | proj2_nps.py:57-72 | the file then holds exactly the given dictionary, which the next open returns |
| Scrape.StateIndexOf | proj2_nps.py:182-184 | the only failure of the accumulation over the anchors is MissingHref, and every value starts with the base URL |
| Scrape.StateKeys | proj2_nps.py:184 | every anchor's lower-cased text is a key |
| Scrape.StateIndexOfPage | proj2_nps.py:178-181 | a missing state dropdown list is MissingStateMenu; otherwise the index is built from its anchors |
| Scrape.StateIndexOkIff | proj2_nps.py:182-184 | the index is built exactly when every anchor has an href; otherwise the error is MissingHref |
| Scrape.StateIndexKeys | proj2_nps.py:182-184 | the index's keys are exactly the lower-cased anchor texts |
| Scrape.StateIndexLastWins | proj2_nps.py:182-184 | the key of an anchor with no later anchor of the same lower-cased text maps to the base URL plus that anchor's href, so the later of two equal keys wins |
| Scrape.BuildStateIndex | proj2_nps.py:181-184 | the loop returns exactly the specified state index (or the same error) |
| Scrape.SiteUrl | proj2_nps.py:285-291 | a detail URL is the base URL, then the href, then "index.htm" |
| Scrape.HeadingError | proj2_nps.py:290 | a heading without an anchor fails as MissingAnchor, and one whose anchor lacks an href as MissingHref |
| Scrape.SiteUrlsOf | proj2_nps.py:288-292 | a built list has exactly one URL per heading; the only failures are MissingAnchor and MissingHref |
| Scrape.SiteUrlsOfPage | proj2_nps.py:283 | a missing list_parks list is MissingSiteList; otherwise the URLs are built from its headings |
| Scrape.SiteUrlsInOrder | proj2_nps.py:288-292 | a built list has one URL per heading, in document order, each being the detail URL of that heading's href |
| Scrape.SiteUrlsFirstError | proj2_nps.py:289-291 | the first heading without an anchor fails as MissingAnchor, and the first without an href as MissingHref |
| Scrape.SiteUrlsAllHref | proj2_nps.py:289-292 | headings that all have an anchor with an href always give a list |
| Scrape.BuildSiteUrls | proj2_nps.py:288-292 | the loop returns exactly the specified URL list (or the same error) |
| Resolvers.IndexStep | proj2_nps.py:172-187 | a hit on the index URL decodes the stored index with no request; a miss sends one GET of the index URL, returns the index built from that page and, on success, stores it under the index URL; a failure stores nothing |
| Resolvers.SiteStep | proj2_nps.py:203-259 | a hit on the site URL rebuilds the stored record with no request; a miss sends one GET, returns the record extracted from that page and, on success, stores its five-field dictionary under the URL; a failure stores nothing |
| Resolvers.UrlsStep | proj2_nps.py:275-295 | a hit on the state URL returns the stored list with no request; a miss sends one GET, returns the list built from that page and, on success, stores it under the state URL; a failure stores nothing |
| Resolvers.NearbyStep | proj2_nps.py:317-337 | a hit on the zipcode returns the stored response with no request; a miss sends the one radius search for that zipcode, returns its response and stores it under the zipcode |
| Resolvers.SitesStep | proj2_nps.py:297-300 | a successful run gives one record per URL and sends at most one request per URL |
| Resolvers.RegionStep | proj2_nps.py:275-301 | a failed URL-list lookup ends the call with its error; a success gives one record per URL of the list, after at most the list lookup's request and one request per URL |
| Resolvers.BuildStateUrlDict | proj2_nps.py:156-187 | result, new cache contents and requests sent are those of the get-or-fetch on the index URL; the file is untouched when the contents are |
| Resolvers.GetSiteInstance | proj2_nps.py:190-259 | the same, on the site URL, with extraction as the fetch |
| Resolvers.GetSiteUrls | proj2_nps.py:275-295 | the same, on the state URL, with the site-URL list as the fetch |
| Resolvers.GetSites | proj2_nps.py:297-301 | result, cache and requests are those of resolving each URL in turn, each call seeing the cache the previous left, the first failure aborting; no entry is lost or changed, and the file is untouched when the contents are |
| Resolvers.GetSitesForState | proj2_nps.py:262-301 | result, cache and requests are those of the URL-list lookup followed by resolving every URL in the list; the file is untouched when the contents are |
| Resolvers.GetNearbyPlaces | proj2_nps.py:304-337 | result, cache and requests are those of the get-or-fetch on the site's zipcode with the radius search as the fetch |
| ResolverProperties.IndexTwice | proj2_nps.py:173-175 | a second build of the state index after a successful one is a hit: the same index, no change, no request |
| ResolverProperties.SiteTwice | proj2_nps.py:204-210 | once a call has succeeded, a second call with the same site URL returns an equal record, sends no request and changes nothing |
| ResolverProperties.NearbyTwice | proj2_nps.py:319-321 | a second nearby search for the same zipcode is a hit |
| ResolverProperties.SiteEntryRebuilds | proj2_nps.py:204-257 | after a successful get_site_instance, the URL's entry rebuilds the record returned, whether it was a hit or a miss |
| ResolverProperties.SitesAppendOnly | proj2_nps.py:297-300 | resolving a URL list never changes or removes an existing entry, even when it fails part-way |
| ResolverProperties.SitesCached | proj2_nps.py:297-300 | on success there is one record per URL, in order, and each URL's entry rebuilds the record at its position |
| ResolverProperties.SitesAllHits | proj2_nps.py:297-300 | when every URL already holds its record, resolving the list returns those records with no request and no change |
| ResolverProperties.RegionAppendOnly | proj2_nps.py:275-300 | get_sites_for_state never overwrites or removes an entry, even when it fails part-way |
| ResolverProperties.RegionFollowsUrlList | proj2_nps.py:276-300 | on success the URL list is cached under the state URL, is the one built from the state page when it was not cached, and the sites returned match it in length and order |
| ResolverProperties.RegionTwice | proj2_nps.py:275-300 | resolving a state again after a success returns the same records, changes nothing and sends no request |
| ResolverProperties.ResolveStateTwice | proj2_nps.py:262-301 | two get_sites_for_state calls in a row: the second returns what the first did, and only the first sends requests |
| Places.MayRequestNearby | proj2_nps.py:365-369 | a nearby search is allowed exactly when the choice is between 1 and the number of sites and the chosen site's zipcode is not "No zipcode" |
| Places.ZiplessSiteNeverSearched | proj2_nps.py:369 | a site whose page had no postalCode span is never eligible for a nearby search |
| Places.NearbyForChoice | proj2_nps.py:365-374 | an out-of-range choice or a site with "No zipcode" touches neither cache nor network; any other choice is get_nearby_places on that site |
| Places.PlaceFields | proj2_nps.py:85-90 | the dictionary of a place holds exactly name, category, address and city, taken from the place |
| Places.FillEmpty | proj2_nps.py:92-94 | the same keys; each empty value becomes "No <key>" and every non-empty value is kept |
| Places.PlaceRows | proj2_nps.py:84-94 | one filled-in dictionary per search result, in the response's order |

## Left out

- HTTP and HTML parsing (`requests.get`, BeautifulSoup): a page is a value. It holds the
  containers the program looks up, each present or absent, with their elements' texts and
  `href`s. Network failures and non-JSON responses are not modelled: fetching always yields a
  page or a response.
- JSON persistence: the cache file holds model values rather than JSON text. The JSON round trip
  and the fatal decode error on a corrupt file are not modelled.
- The API key and the `secrets` import are left out: the query holds every other parameter.
- The interactive loop: prompting, `int()` parsing, the state-name lookup and the exit/back
  handling are left out. Only the guard before a nearby search is modelled
  (`Places.NearbyForChoice`).
- All printing: the "Using cache"/"Fetching" messages and the lines `print_places` and the loop
  write. `Places.PlaceRows` returns the filled-in dictionaries that would be printed.
- `Text.Strip` and `Text.Lower` cover ASCII only. Python's `str.strip` also strips non-ASCII
  whitespace such as U+00A0 and U+2028, and `str.lower` also maps non-ASCII letters.
- A cached value of the wrong kind for its resolver is an error (`WrongKind`). In Python,
  `build_state_url_dict` and `get_nearby_places` would return such a value as it is, and
  `get_sites_for_state` would iterate over it. The four key spaces are disjoint, so this does
  not arise in normal use.
- Places.FillEmpty: visits the keys in an unspecified order rather than dictionary insertion
  order. Each step touches only its own key, so the result is the same.
- The rest of a radius-search response: only the fields `print_places` reads are kept.
- Places.PlaceFields: a response is always well formed. The KeyError `print_places` raises when
  the response has no `searchResults`, or a result lacks `name`, `fields`, or one of the
  `group_sic_code_name`, `address` and `city` subkeys, is not modelled. A JSON `null` value is
  not modelled either; the program would keep it, since it is not `""`.
