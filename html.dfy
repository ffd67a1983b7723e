/** The outside world as the scraper sees it: parsed pages reduced to the
    elements the program looks up, the radius-search response reduced to the
    fields it prints, and a `Web` object that answers requests and records
    every request it is sent. */
module Html {
  import opened Results

  /** An `a` element: its text and, if it has one, its `href` attribute. */
  datatype Anchor = Anchor(text: string, href: Option<string>)

  /** An `h3` heading of the park list, with its first `a` element if any. */
  datatype Heading = Heading(anchor: Option<Anchor>)

  /** The `Hero-titleContainer` header: the text of its `Hero-title` anchor
      and of its `Hero-designation` span, each absent when the element is. */
  datatype Header = Header(title: Option<string>, designation: Option<string>)

  /** The `ParkFooter-contact` footer: the text of its `addressLocality`,
      `addressRegion`, `postalCode` and `telephone` spans. */
  datatype Footer = Footer(locality: Option<string>, region: Option<string>,
                           postalCode: Option<string>, telephone: Option<string>)

  /** A parsed page: each container the program looks for, or None when the
      page does not have it. `stateMenu` holds the anchors of the state
      dropdown list, `parkList` the headings of the `list_parks` list, both in
      document order. */
  datatype Page = Page(stateMenu: Option<seq<Anchor>>, parkList: Option<seq<Heading>>,
                       hero: Option<Header>, contact: Option<Footer>)

  /** One entry of a radius-search response, reduced to `name` and to the
      `group_sic_code_name`, `address` and `city` of its `fields`. */
  datatype Place = Place(name: string, category: string, address: string, city: string)

  /** The radius-search response: its `searchResults`, otherwise passed through. */
  datatype PlacesResult = PlacesResult(searchResults: seq<Place>)

  /** The query parameters of a radius search (the credential is left out). */
  datatype Query = Query(origin: string, radius: string, maxMatches: string,
                         ambiguities: string, outFormat: string)

  /** A request sent to the outside world. */
  datatype Request = Get(url: string) | Search(query: Query)

  /** The radius search the program sends for a zipcode: ten matches at most,
      within a radius of 10, ambiguities ignored, JSON output. */
  function RadiusQuery(zipcode: string): (q: Query)
    ensures q.origin == zipcode
  {
    Query(zipcode, "10", "10", "ignore", "json")
  }

  /** The network. `pages` is what fetching and parsing each URL yields,
      `search` the response to each radius search; `requests` is the log of
      every request sent so far, in order. */
  class Web {
    const pages: string -> Page
    const search: Query -> PlacesResult
    var requests: seq<Request>

    constructor (pages: string -> Page, search: Query -> PlacesResult)
      ensures this.pages == pages && this.search == search && requests == []
    {
      this.pages := pages;
      this.search := search;
      requests := [];
    }

    /** `get_soup(url)`: one GET request, answered by the parsed page. */
    method GetSoup(url: string) returns (p: Page)
      modifies this
      ensures p == pages(url)
      ensures requests == old(requests) + [Get(url)]
    {
      p := pages(url);
      requests := requests + [Get(url)];
    }

    /** The radius-search request of `get_nearby_places`, answered by the
        decoded JSON response. */
    method RadiusSearch(zipcode: string) returns (r: PlacesResult)
      modifies this
      ensures r == search(RadiusQuery(zipcode))
      ensures requests == old(requests) + [Search(RadiusQuery(zipcode))]
    {
      r := search(RadiusQuery(zipcode));
      requests := requests + [Search(RadiusQuery(zipcode))];
    }
  }
}
