/** The cache file shared by every resolver, and the get-or-fetch discipline
    they all follow: on a hit, use the stored value and ask the network for
    nothing; on a miss, fetch, store the value under the key and return it. */
module KeyValueCache {
  import opened Results
  import opened Html
  import opened Site

  /** What one cache key holds. The four resolvers store four kinds of value
      under keys drawn from disjoint spaces (the index URL, state URLs, site
      URLs and zipcodes). */
  datatype Value =
    | StateIndex(states: map<string, string>)   // `build_state_url_dict`
    | UrlList(urls: seq<string>)                // `get_sites_for_state`
    | SiteRecord(fields: map<string, string>)   // `get_site_instance`
    | Places(result: PlacesResult)              // `get_nearby_places`

  function DecodeStateIndex(v: Value): (r: Result<map<string, string>>)
    ensures r.Ok? <==> v.StateIndex?
  {
    if v.StateIndex? then Ok(v.states) else Err(WrongKind)
  }

  function DecodeUrls(v: Value): (r: Result<seq<string>>)
    ensures r.Ok? <==> v.UrlList?
  {
    if v.UrlList? then Ok(v.urls) else Err(WrongKind)
  }

  /** A hit in `get_site_instance`: the record rebuilt from the cached dictionary. */
  function DecodeSite(v: Value): (r: Result<NationalSite>)
    ensures v.SiteRecord? ==> r == SiteFromFields(v.fields)
    ensures !v.SiteRecord? ==> r == Err(WrongKind)
  {
    if v.SiteRecord? then SiteFromFields(v.fields) else Err(WrongKind)
  }

  /** A miss in `get_site_instance`: the record is cached as its dictionary. */
  function EncodeSite(s: NationalSite): (v: Value)
    ensures v.SiteRecord? && v.fields == SiteFields(s)
  {
    SiteRecord(SiteFields(s))
  }

  function DecodePlaces(v: Value): (r: Result<PlacesResult>)
    ensures r.Ok? <==> v.Places?
  {
    if v.Places? then Ok(v.result) else Err(WrongKind)
  }

  function EncodeStateIndex(m: map<string, string>): (v: Value)
    ensures v.StateIndex? && v.states == m
  {
    StateIndex(m)
  }

  function EncodeUrls(u: seq<string>): (v: Value)
    ensures v.UrlList? && v.urls == u
  {
    UrlList(u)
  }

  function EncodePlaces(p: PlacesResult): (v: Value)
    ensures v.Places? && v.result == p
  {
    Places(p)
  }

  /** Every kind of value decodes back to what was encoded. */
  lemma Decodes()
    ensures forall m :: DecodeStateIndex(EncodeStateIndex(m)) == Ok(m)
    ensures forall u :: DecodeUrls(EncodeUrls(u)) == Ok(u)
    ensures forall s :: DecodeSite(EncodeSite(s)) == Ok(s)
    ensures forall p :: DecodePlaces(EncodePlaces(p)) == Ok(p)
  {
  }

  /** `m1` keeps every entry of `m0` as it was. */
  ghost predicate Extends(m0: map<string, Value>, m1: map<string, Value>)
  {
    forall k | k in m0 :: k in m1 && m1[k] == m0[k]
  }

  /** Keeping every entry is transitive, and two contents that each keep
      the other's entries are equal; so contents that grew and came back to
      where they started did not change in between. */
  lemma ExtendsBetween(m0: map<string, Value>, m1: map<string, Value>, m2: map<string, Value>)
    requires Extends(m0, m1) && Extends(m1, m2)
    ensures Extends(m0, m2)
    ensures m2 == m0 ==> m1 == m0
  {
    if m2 == m0 {
      assert m1.Keys == m0.Keys;
    }
  }

  /** The outcome of a resolver call: its result, the cache contents after
      it, and the requests it sent, in order. */
  datatype Step<T> = Step(result: Result<T>, entries: map<string, Value>, requests: seq<Request>)

  /** One get-or-fetch on cache contents `entries`. `fetched` is what the
      miss path computes from the network's answer to `request`; it is used
      only when `key` is absent. A failed fetch stores nothing. */
  function GetOrFetch<T>(entries: map<string, Value>, key: string, decode: Value -> Result<T>,
                         request: Request, fetched: Result<T>, encode: T -> Value): (s: Step<T>)
    ensures key in entries ==> s == Step(decode(entries[key]), entries, [])
    ensures key !in entries ==> s.result == fetched && s.requests == [request]
    ensures Extends(entries, s.entries)
    ensures s.entries.Keys == entries.Keys + (if s.result.Ok? then {key} else {})
    ensures key !in entries && s.result.Ok? ==> s.entries[key] == encode(s.result.value)
  {
    if key in entries then Step(decode(entries[key]), entries, [])
    else match fetched
      case Ok(v) => Step(Ok(v), entries[key := encode(v)], [request])
      case Err(e) => Step(Err(e), entries, [request])
  }

  /** When what a resolver stores decodes back to itself, repeating a
      successful call with the same key is a hit: the same result, no change
      to the cache, and no request, whatever the network would answer now. */
  lemma SecondCallHits<T>(entries: map<string, Value>, key: string, decode: Value -> Result<T>,
                          request: Request, fetched: Result<T>, encode: T -> Value,
                          request': Request, fetched': Result<T>)
    requires forall t :: decode(encode(t)) == Ok(t)
    requires GetOrFetch(entries, key, decode, request, fetched, encode).result.Ok?
    ensures var s := GetOrFetch(entries, key, decode, request, fetched, encode);
            GetOrFetch(s.entries, key, decode, request', fetched', encode) == Step(s.result, s.entries, [])
  {
  }

  /** The cache file. `file` is its contents, or None when it does not exist
      yet. Each resolver opens it on entry and saves it whole after a
      mutation, so what is read is always the last complete save. */
  class Cache {
    var file: Option<map<string, Value>>

    constructor (file: Option<map<string, Value>>)
      ensures this.file == file
    {
      this.file := file;
    }

    /** `open_cache`: the saved dictionary, or an empty one when there is no
        file yet. */
    function Open(): (entries: map<string, Value>)
      reads this
      ensures file.None? ==> entries == map[]
      ensures file.Some? ==> entries == file.value
    {
      if file.Some? then file.value else map[]
    }

    /** `save_cache`: replaces the whole file with `entries`. */
    method Save(entries: map<string, Value>)
      modifies this
      ensures file == Some(entries) && Open() == entries
    {
      file := Some(entries);
    }
  }
}
