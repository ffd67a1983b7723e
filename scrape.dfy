/** The two accumulation loops that turn a fetched listing page into a
    derived structure: the state index of `build_state_url_dict` and the
    site-URL list of `get_sites_for_state`. Each is specified by a function
    over the page's elements, in document order, and implemented by the
    source's loop. */
module Scrape {
  import opened Results
  import opened Text
  import opened Html

  const BaseUrl: string := "https://www.nps.gov"
  /** The index page every state URL is read from, and its cache key. */
  const IndexUrl: string := BaseUrl + "/index.htm"
  /** The file name appended to a site path to form its detail URL. */
  const SiteIndexFile: string := "index.htm"

  // ---------------------------------------------------------------------
  // State index

  /** The state index built from the dropdown's anchors, one anchor after
      the other: the lower-cased anchor text maps to the base URL followed by
      the anchor's `href`, a later anchor overwriting an earlier one with the
      same key. An anchor without `href` aborts the whole index. */
  function StateIndexOf(anchors: seq<Anchor>): (r: Result<map<string, string>>)
    ensures r.Err? ==> r.error == MissingHref
    ensures r.Ok? ==> forall k | k in r.value ::
              |BaseUrl| <= |r.value[k]| && r.value[k][..|BaseUrl|] == BaseUrl
    decreases |anchors|
  {
    if anchors == [] then Ok(map[])
    else
      var prev := StateIndexOf(anchors[..|anchors| - 1]);
      var a := anchors[|anchors| - 1];
      if prev.Err? then prev
      else if a.href.None? then Err(MissingHref)
      else Ok(prev.value[Lower(a.text) := BaseUrl + a.href.value])
  }

  /** The index page's contribution: the dropdown list must be present. */
  function StateIndexOfPage(p: Page): (r: Result<map<string, string>>)
    ensures p.stateMenu.None? ==> r == Err(MissingStateMenu)
    ensures p.stateMenu.Some? ==> r == StateIndexOf(p.stateMenu.value)
  {
    if p.stateMenu.None? then Err(MissingStateMenu) else StateIndexOf(p.stateMenu.value)
  }

  /** The index is built exactly when every anchor has an `href`; otherwise
      the failure is the missing `href`. */
  lemma {:induction false} StateIndexOkIff(anchors: seq<Anchor>)
    ensures StateIndexOf(anchors).Ok? <==> forall i | 0 <= i < |anchors| :: anchors[i].href.Some?
    ensures StateIndexOf(anchors).Err? ==> StateIndexOf(anchors).error == MissingHref
    decreases |anchors|
  {
    if anchors != [] {
      var init := anchors[..|anchors| - 1];
      StateIndexOkIff(init);
      assert forall i | 0 <= i < |init| :: init[i] == anchors[i];
    }
  }

  /** The lower-cased texts of the anchors. */
  function StateKeys(anchors: seq<Anchor>): (keys: set<string>)
    ensures forall i | 0 <= i < |anchors| :: Lower(anchors[i].text) in keys
  {
    set i | 0 <= i < |anchors| :: Lower(anchors[i].text)
  }

  /** The keys of the index are exactly the lower-cased anchor texts. */
  lemma {:induction false} StateIndexKeys(anchors: seq<Anchor>)
    requires StateIndexOf(anchors).Ok?
    ensures StateIndexOf(anchors).value.Keys == StateKeys(anchors)
    decreases |anchors|
  {
    if anchors != [] {
      var n := |anchors| - 1;
      var init := anchors[..n];
      StateIndexKeys(init);
      assert forall i | 0 <= i < n :: init[i] == anchors[i];
      var key := Lower(anchors[n].text);
      forall x | x in StateKeys(anchors) ensures x in StateKeys(init) + {key} {
        var i :| 0 <= i < |anchors| && Lower(anchors[i].text) == x;
        if i < n { assert Lower(init[i].text) == x; }
      }
      forall x | x in StateKeys(init) ensures x in StateKeys(anchors) {
        var i :| 0 <= i < n && Lower(init[i].text) == x;
        assert Lower(anchors[i].text) == x;
      }
      assert StateKeys(anchors) == StateKeys(init) + {key};
    }
  }

  /** The anchor at `i` has no later anchor with the same lower-cased text. */
  predicate LastWithKey(anchors: seq<Anchor>, i: int)
    requires 0 <= i < |anchors|
  {
    forall j | i < j < |anchors| :: Lower(anchors[j].text) != Lower(anchors[i].text)
  }

  /** Each key maps to the URL of the LAST anchor carrying it: when two
      anchors share a lower-cased text, the later one is kept. */
  lemma {:induction false} StateIndexLastWins(anchors: seq<Anchor>, i: int)
    requires StateIndexOf(anchors).Ok?
    requires 0 <= i < |anchors| && LastWithKey(anchors, i)
    ensures anchors[i].href.Some? && Lower(anchors[i].text) in StateIndexOf(anchors).value
    ensures StateIndexOf(anchors).value[Lower(anchors[i].text)] == BaseUrl + anchors[i].href.value
    decreases |anchors|
  {
    var n := |anchors| - 1;
    var init := anchors[..n];
    assert forall j | 0 <= j < n :: init[j] == anchors[j];
    if i < n {
      assert Lower(anchors[n].text) != Lower(anchors[i].text);
      assert LastWithKey(init, i) by {
        forall j | i < j < n ensures Lower(init[j].text) != Lower(init[i].text) {
          assert Lower(anchors[j].text) != Lower(anchors[i].text);
        }
      }
      StateIndexLastWins(init, i);
    }
  }

  /** The loop at the heart of `build_state_url_dict`. */
  method BuildStateIndex(anchors: seq<Anchor>) returns (r: Result<map<string, string>>)
    ensures r == StateIndexOf(anchors)
  {
    var states := map[];
    var i := 0;
    while i < |anchors|
      invariant 0 <= i <= |anchors|
      invariant StateIndexOf(anchors[..i]) == Ok(states)
    {
      var a := anchors[i];
      assert anchors[..i + 1][..i] == anchors[..i];
      if a.href.None? {
        StateIndexOkIff(anchors);
        assert !anchors[i].href.Some?;
        return Err(MissingHref);
      }
      states := states[Lower(a.text) := BaseUrl + a.href.value];
      i := i + 1;
    }
    assert anchors[..i] == anchors;
    r := Ok(states);
  }

  // ---------------------------------------------------------------------
  // Site-URL list

  /** A site's detail URL from the `href` of its heading's anchor. */
  function SiteUrl(href: string): (u: string)
    ensures |u| == |BaseUrl| + |href| + |SiteIndexFile|
    ensures u[..|BaseUrl|] == BaseUrl && u[|u| - |SiteIndexFile|..] == SiteIndexFile
    ensures u[|BaseUrl|..|u| - |SiteIndexFile|] == href
  {
    BaseUrl + href + SiteIndexFile
  }

  predicate HasHref(h: Heading)
  {
    h.anchor.Some? && h.anchor.value.href.Some?
  }

  /** How a heading without a usable anchor fails. */
  function HeadingError(h: Heading): (e: Error)
    ensures e == MissingAnchor <==> h.anchor.None?
    ensures e != MissingAnchor ==> e == MissingHref
  {
    if h.anchor.None? then MissingAnchor else MissingHref
  }

  /** The site-URL list built from the park list's headings in document
      order; the first heading without a usable anchor aborts the list. */
  function SiteUrlsOf(hs: seq<Heading>): (r: Result<seq<string>>)
    ensures r.Ok? ==> |r.value| == |hs|
    ensures r.Err? ==> r.error == MissingAnchor || r.error == MissingHref
    decreases |hs|
  {
    if hs == [] then Ok([])
    else
      var prev := SiteUrlsOf(hs[..|hs| - 1]);
      var h := hs[|hs| - 1];
      if prev.Err? then prev
      else if !HasHref(h) then Err(HeadingError(h))
      else Ok(prev.value + [SiteUrl(h.anchor.value.href.value)])
  }

  /** The state page's contribution: the `list_parks` list must be present. */
  function SiteUrlsOfPage(p: Page): (r: Result<seq<string>>)
    ensures p.parkList.None? ==> r == Err(MissingSiteList)
    ensures p.parkList.Some? ==> r == SiteUrlsOf(p.parkList.value)
  {
    if p.parkList.None? then Err(MissingSiteList) else SiteUrlsOf(p.parkList.value)
  }

  /** One URL per heading, in document order. */
  lemma {:induction false} SiteUrlsInOrder(hs: seq<Heading>)
    requires SiteUrlsOf(hs).Ok?
    ensures |SiteUrlsOf(hs).value| == |hs|
    ensures forall i | 0 <= i < |hs| :: HasHref(hs[i])
              && SiteUrlsOf(hs).value[i] == SiteUrl(hs[i].anchor.value.href.value)
    decreases |hs|
  {
    if hs != [] {
      var init := hs[..|hs| - 1];
      SiteUrlsInOrder(init);
      assert forall i | 0 <= i < |init| :: init[i] == hs[i];
    }
  }

  /** The list is built exactly when every heading has an anchor with an
      `href`; otherwise it fails as the first heading that has not does. */
  lemma {:induction false} SiteUrlsFirstError(hs: seq<Heading>, i: nat)
    requires i < |hs| && !HasHref(hs[i])
    requires forall j | 0 <= j < i :: HasHref(hs[j])
    ensures SiteUrlsOf(hs) == Err(HeadingError(hs[i]))
    decreases |hs|
  {
    var init := hs[..|hs| - 1];
    assert forall j | 0 <= j < |init| :: init[j] == hs[j];
    if i < |hs| - 1 {
      SiteUrlsFirstError(init, i);
    } else {
      SiteUrlsAllHref(init);
    }
  }

  /** Headings that all have an `href` always give a list. */
  lemma {:induction false} SiteUrlsAllHref(hs: seq<Heading>)
    requires forall j | 0 <= j < |hs| :: HasHref(hs[j])
    ensures SiteUrlsOf(hs).Ok?
    decreases |hs|
  {
    if hs != [] {
      var init := hs[..|hs| - 1];
      assert forall j | 0 <= j < |init| :: init[j] == hs[j];
      SiteUrlsAllHref(init);
    }
  }

  /** The loop at the heart of `get_sites_for_state` that builds the URLs. */
  method BuildSiteUrls(hs: seq<Heading>) returns (r: Result<seq<string>>)
    ensures r == SiteUrlsOf(hs)
  {
    var urls := [];
    var i := 0;
    while i < |hs|
      invariant 0 <= i <= |hs|
      invariant SiteUrlsOf(hs[..i]) == Ok(urls)
      invariant forall j | 0 <= j < i :: HasHref(hs[j])
    {
      var h := hs[i];
      assert hs[..i + 1][..i] == hs[..i];
      if h.anchor.None? {
        SiteUrlsFirstError(hs, i);
        return Err(MissingAnchor);
      }
      var a := h.anchor.value;
      if a.href.None? {
        SiteUrlsFirstError(hs, i);
        return Err(MissingHref);
      }
      urls := urls + [BaseUrl + a.href.value + SiteIndexFile];
      i := i + 1;
    }
    assert hs[..i] == hs;
    r := Ok(urls);
  }
}
