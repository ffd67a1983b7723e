/** Nearby places: the guard under which the interactive loop asks for them,
    and the empty-field substitution `print_places` applies before printing. */
module Places {
  import opened Results
  import opened Html
  import opened Site
  import opened KeyValueCache
  import opened Resolvers

  // ---------------------------------------------------------------------
  // The guard of the interactive loop

  /** Nearby places are requested for the site numbered `choice` (counting
      from 1) only when that number is in range and the site has a zipcode. */
  predicate MayRequestNearby(sites: seq<NationalSite>, choice: int): (b: bool)
    ensures choice < 1 || choice > |sites| ==> !b
    ensures b ==> sites[choice - 1].zipcode != "No zipcode"
    ensures 1 <= choice <= |sites| && sites[choice - 1].zipcode != "No zipcode" ==> b
  {
    1 <= choice <= |sites| && sites[choice - 1].zipcode != Sentinel("zipcode")
  }

  /** A site whose page has no `postalCode` span is never searched around. */
  lemma ZiplessSiteNeverSearched(p: Page, sites: seq<NationalSite>, choice: int)
    requires ExtractSite(p).Ok? && p.contact.value.postalCode.None?
    requires 1 <= choice <= |sites| && sites[choice - 1] == ExtractSite(p).value
    ensures !MayRequestNearby(sites, choice)
  {
  }

  /** The loop's handling of a numeric choice: an out-of-range number or a
      site without zipcode is refused without touching the cache or the
      network; any other choice is passed to `get_nearby_places`. */
  method NearbyForChoice(cache: Cache, web: Web, sites: seq<NationalSite>, choice: int)
    returns (r: Option<Result<PlacesResult>>)
    modifies cache, web
    ensures !MayRequestNearby(sites, choice) ==> r == None && unchanged(cache) && unchanged(web)
    ensures MayRequestNearby(sites, choice) ==>
              var s := NearbyStep(old(cache.Open()), web.search, sites[choice - 1]);
              r == Some(s.result) && cache.Open() == s.entries && web.requests == old(web.requests) + s.requests
  {
    if choice > |sites| || choice < 1 {
      return None;
    } else if sites[choice - 1].zipcode == "No zipcode" {
      return None;
    }
    var places := GetNearbyPlaces(cache, web, sites[choice - 1]);
    r := Some(places);
  }

  // ---------------------------------------------------------------------
  // `print_places`

  /** The four fields `print_places` shows for one place. */
  const PlaceKeys: set<string> := {"name", "category", "address", "city"}

  /** The dictionary `print_places` builds for a place. */
  function PlaceFields(p: Place): (d: map<string, string>)
    ensures d.Keys == PlaceKeys
    ensures d["name"] == p.name && d["category"] == p.category
    ensures d["address"] == p.address && d["city"] == p.city
  {
    map["name" := p.name, "category" := p.category, "address" := p.address, "city" := p.city]
  }

  /** The substitution loop of `print_places`: every empty value becomes
      "No <key>", every other value is kept, and no key is added or lost. */
  method FillEmpty(fields: map<string, string>) returns (filled: map<string, string>)
    ensures filled.Keys == fields.Keys
    ensures forall k | k in fields && fields[k] == "" :: filled[k] == Sentinel(k)
    ensures forall k | k in fields && fields[k] != "" :: filled[k] == fields[k]
  {
    filled := fields;
    var todo := fields.Keys;
    while todo != {}
      invariant todo <= fields.Keys && filled.Keys == fields.Keys
      invariant forall k | k in todo :: filled[k] == fields[k]
      invariant forall k | k in fields && k !in todo && fields[k] == "" :: filled[k] == Sentinel(k)
      invariant forall k | k in fields && k !in todo && fields[k] != "" :: filled[k] == fields[k]
      decreases todo
    {
      var k :| k in todo;
      if filled[k] == "" {
        filled := filled[k := Sentinel(k)];
      }
      todo := todo - {k};
    }
  }

  /** `print_places` without the printing: the filled-in dictionary of each
      search result, in the response's order. */
  method PlaceRows(result: PlacesResult) returns (rows: seq<map<string, string>>)
    ensures |rows| == |result.searchResults|
    ensures forall i | 0 <= i < |rows| :: rows[i].Keys == PlaceKeys
    ensures forall i, k | 0 <= i < |rows| && k in PlaceKeys ::
              rows[i][k] == if PlaceFields(result.searchResults[i])[k] == "" then Sentinel(k)
                            else PlaceFields(result.searchResults[i])[k]
  {
    rows := [];
    var i := 0;
    while i < |result.searchResults|
      invariant 0 <= i <= |result.searchResults| && |rows| == i
      invariant forall j | 0 <= j < i :: rows[j].Keys == PlaceKeys
      invariant forall j, k | 0 <= j < i && k in PlaceKeys ::
                  rows[j][k] == if PlaceFields(result.searchResults[j])[k] == "" then Sentinel(k)
                                else PlaceFields(result.searchResults[j])[k]
    {
      var row := FillEmpty(PlaceFields(result.searchResults[i]));
      rows := rows + [row];
      i := i + 1;
    }
  }
}
