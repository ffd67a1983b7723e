/** The national-site record, how it is extracted from a detail page with
    sentinel fallbacks, and how it is written to and rebuilt from the cache. */
module Site {
  import opened Results
  import opened Text
  import opened Html

  /** `NationalSite`: five strings, set once by the initializer. */
  datatype NationalSite = NationalSite(category: string, name: string, address: string,
                                       zipcode: string, phone: string)

  /** `info()`: "<name> (<category>): <address> <zipcode>". */
  function Info(s: NationalSite): (r: string)
    ensures |r| == |s.name| + |s.category| + |s.address| + |s.zipcode| + 6
    ensures r[..|s.name|] == s.name
    ensures r[|s.name|..|s.name| + 2] == " ("
    ensures r[|s.name| + 2..|s.name| + 2 + |s.category|] == s.category
    ensures r[|s.name| + 2 + |s.category|..|s.name| + 5 + |s.category|] == "): "
    ensures r[|r| - |s.zipcode|..] == s.zipcode
    ensures r[|r| - |s.zipcode| - 1 - |s.address|..|r| - |s.zipcode| - 1] == s.address
    ensures r[|r| - |s.zipcode| - 1] == ' '
  {
    s.name + " (" + s.category + "): " + s.address + " " + s.zipcode
  }

  /** The sentinel written for a field whose element is absent. */
  function Sentinel(field: string): (r: string)
    ensures |r| == |field| + 3 && r[..3] == "No " && r[3..] == field
  {
    "No " + field
  }

  /** The value of one optional field: the stripped element text when the
      element is present, its sentinel otherwise. */
  function FieldOr(text: Option<string>, field: string): (r: string)
    ensures text.None? ==> r == Sentinel(field)
    ensures text.Some? ==> r == Strip(text.value)
    ensures text.Some? && r != [] ==> !IsSpace(r[0]) && !IsSpace(r[|r| - 1])
  {
    match text
    case Some(t) => Strip(t)
    case None => Sentinel(field)
  }

  /** The address: "<locality>, <region>" when both spans are present. */
  function AddressOf(f: Footer): (r: string)
    ensures f.locality.Some? && f.region.Some? ==>
              r == Strip(f.locality.value) + ", " + Strip(f.region.value)
    ensures f.locality.None? || f.region.None? ==> r == Sentinel("address")
  {
    if f.locality.Some? && f.region.Some? then Strip(f.locality.value) + ", " + Strip(f.region.value)
    else Sentinel("address")
  }

  /** The part of `get_site_instance` that builds a record from a fetched
      page. The header and footer containers are required: looking inside a
      missing one fails before any fallback applies. Inside them, each of the
      five fields falls back on its own sentinel, independently of the others. */
  function ExtractSite(p: Page): (r: Result<NationalSite>)
    ensures p.hero.None? ==> r == Err(MissingHeader)
    ensures p.hero.Some? && p.contact.None? ==> r == Err(MissingFooter)
    ensures r.Ok? <==> p.hero.Some? && p.contact.Some?
    ensures r.Ok? ==> r.value.name == FieldOr(p.hero.value.title, "name")
    ensures r.Ok? ==> r.value.category == FieldOr(p.hero.value.designation, "category")
    ensures r.Ok? ==> r.value.address == AddressOf(p.contact.value)
    ensures r.Ok? ==> r.value.zipcode == FieldOr(p.contact.value.postalCode, "zipcode")
    ensures r.Ok? ==> r.value.phone == FieldOr(p.contact.value.telephone, "phone")
  {
    match p.hero
    case None => Err(MissingHeader)
    case Some(h) =>
      var name := FieldOr(h.title, "name");
      var category := FieldOr(h.designation, "category");
      match p.contact
      case None => Err(MissingFooter)
      case Some(f) =>
        Ok(NationalSite(category, name, AddressOf(f),
                        FieldOr(f.postalCode, "zipcode"), FieldOr(f.telephone, "phone")))
  }

  /** The five keys of a cached site record. */
  const FieldKeys: seq<string> := ["category", "name", "address", "zipcode", "phone"]

  /** The dictionary `get_site_instance` caches for a record. */
  function SiteFields(s: NationalSite): (d: map<string, string>)
    ensures d.Keys == set k | k in FieldKeys
    ensures d["category"] == s.category && d["name"] == s.name && d["address"] == s.address
    ensures d["zipcode"] == s.zipcode && d["phone"] == s.phone
  {
    map["category" := s.category, "name" := s.name, "address" := s.address,
        "zipcode" := s.zipcode, "phone" := s.phone]
  }

  /** Rebuilding a record from a cached dictionary on a hit. The initializer's
      arguments are read in order, so the first absent key is the one reported. */
  function SiteFromFields(d: map<string, string>): (r: Result<NationalSite>)
    ensures r.Ok? <==> forall k | k in FieldKeys :: k in d
    ensures r.Err? ==> r.error.MissingField? && r.error.key in FieldKeys && r.error.key !in d
    ensures r.Err? ==> exists i | 0 <= i < |FieldKeys| ::
              FieldKeys[i] == r.error.key && forall j | 0 <= j < i :: FieldKeys[j] in d
    ensures r.Ok? ==> SiteFields(r.value) == map k | k in FieldKeys :: d[k]
  {
    if "category" !in d then Err(MissingField("category"))
    else if "name" !in d then Err(MissingField("name"))
    else if "address" !in d then Err(MissingField("address"))
    else if "zipcode" !in d then Err(MissingField("zipcode"))
    else if "phone" !in d then Err(MissingField("phone"))
    else Ok(NationalSite(d["category"], d["name"], d["address"], d["zipcode"], d["phone"]))
  }

  /** A record survives the cache: the dictionary written on a miss rebuilds
      an equal record on a later hit. */
  lemma SiteFieldsRoundTrip(s: NationalSite)
    ensures SiteFromFields(SiteFields(s)) == Ok(s)
  {
  }

  /** Two records that cache to the same dictionary are equal. */
  lemma SiteFieldsInjective(s: NationalSite, t: NationalSite)
    requires SiteFields(s) == SiteFields(t)
    ensures s == t
  {
  }

  /** The address is the sentinel exactly when one of its two spans is
      absent: a composed address always holds ", ", the sentinel does not. */
  lemma AddressSentinelIff(f: Footer)
    ensures AddressOf(f) == "No address" <==> f.locality.None? || f.region.None?
  {
    if f.locality.Some? && f.region.Some? {
      var l := Strip(f.locality.value);
      var a := AddressOf(f);
      assert a[|l|] == ',';
    }
  }

  /** A missing field changes that field only: dropping the telephone span
      from a page leaves the other four fields as they were and sets the
      phone to "No phone". */
  lemma MissingPhoneOnlyAffectsPhone(p: Page)
    requires p.hero.Some? && p.contact.Some?
    ensures var q := p.(contact := Some(p.contact.value.(telephone := None)));
            ExtractSite(q) == Ok(ExtractSite(p).value.(phone := "No phone"))
  {
    var f := p.contact.value;
    assert AddressOf(f.(telephone := None)) == AddressOf(f);
    assert Sentinel("phone") == "No phone";
  }

  /** Likewise for the name: a page without a `Hero-title` anchor yields the
      same record with the name "No name". */
  lemma MissingNameOnlyAffectsName(p: Page)
    requires p.hero.Some? && p.contact.Some?
    ensures var q := p.(hero := Some(p.hero.value.(title := None)));
            ExtractSite(q) == Ok(ExtractSite(p).value.(name := "No name"))
  {
    var h := p.hero.value;
    assert Sentinel("name") == "No name";
  }

  /** A designation made only of whitespace yields an empty category, not
      the sentinel: the fallback covers a missing element, not an empty one. */
  lemma BlankDesignationKeepsEmptyCategory(p: Page)
    requires p.hero.Some? && p.contact.Some? && p.hero.value.designation.Some?
    requires var d := p.hero.value.designation.value; forall k | 0 <= k < |d| :: IsSpace(d[k])
    ensures ExtractSite(p).Ok? && ExtractSite(p).value.category == ""
  {
    AllSpaceStrips(p.hero.value.designation.value);
  }
}
