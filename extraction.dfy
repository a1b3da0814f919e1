/**
 * Extraction and normalisation of ads from the Ad Library's GraphQL
 * responses (`containsAdData`, `extractAdsFromResponses` and
 * `normalizeAdData` in src/scraper/MetaAdsScraper.ts).
 *
 * The ads of a response sit under one of two shapes, probed in this order:
 *   data.ad_library_main.search_results.edges
 *   data.page.ad_library_page_search_result_ads.edges
 * Each edge's `node` is the raw ad.
 */
module Extraction {
  import opened Wrappers
  import opened JsonValue
  import opened Ads

  const MainContainer: seq<string> := ["data", "ad_library_main"]
  const PageContainer: seq<string> := ["data", "page", "ad_library_page_search_result_ads"]
  const MainEdges: seq<string> := MainContainer + ["search_results", "edges"]
  const PageEdges: seq<string> := PageContainer + ["edges"]

  /** `containsAdData`: the filter the response listener applies before buffering a payload. */
  predicate ContainsAdData(data: Json) {
    Truthy(Path(Some(data), MainContainer)) || Truthy(Path(Some(data), PageContainer))
  }

  /**
   * The edge list a response yields: the first truthy of the two edge paths,
   * else `[]`.  Iterating anything but an array yields no ad: a string gives
   * characters, which have no `node`, and any other value throws, which the
   * per-response `catch` absorbs.
   */
  function EdgesOf(response: Json): seq<Json> {
    var main := Path(Some(response), MainEdges);
    var page := Path(Some(response), PageEdges);
    var chosen := if Truthy(main) then main else if Truthy(page) then page else Some(Arr([]));
    match chosen
    case Some(Arr(edges)) => edges
    case _ => []
  }

  /** JavaScript `a || b`. */
  function Or(a: Option<Json>, b: Option<Json>): Option<Json> {
    if Truthy(a) then a else b
  }

  /** JavaScript `a ?? d`. */
  function Coalesce(a: Option<Json>, d: Json): Option<Json> {
    if a.None? || a.value.Null? then Some(d) else a
  }

  /**
   * `normalizeAdData`: an object literal of fallbacks followed by the spread
   * `...rawAd`, so every key the raw node has wins over its fallback.
   */
  function Normalize(raw: Object): (ad: AdData)
    ensures ad.WellFormed()
  {
    var page := Lookup(raw, "page");
    var literal := AdData(
      Lookup(raw, ArchiveIdKey),
      Or(Lookup(raw, PageIdKey), Member(page, "id")),
      Or(Lookup(raw, PageNameKey), Member(page, "name")),
      Coalesce(Lookup(raw, IsActiveKey), Num(1)),
      Lookup(raw, StopTimeKey),
      Lookup(raw, SpendKey),
      Lookup(raw, ImpressionsKey),
      map[]);
    Merge(literal, raw)
  }

  /**
   * Every key of the raw node is kept as it is; an absent page id or page
   * name falls back to the nested `page` object, an absent `is_active` to 1,
   * and no other key is invented.
   */
  lemma NormalizeSpec(raw: Object)
    ensures forall k :: k in raw ==> Field(Normalize(raw), k) == Some(raw[k])
    ensures PageIdKey !in raw ==> Normalize(raw).pageId == Member(Lookup(raw, "page"), "id")
    ensures PageNameKey !in raw ==> Normalize(raw).pageName == Member(Lookup(raw, "page"), "name")
    ensures IsActiveKey !in raw ==> Normalize(raw).isActive == Some(Num(1))
    ensures forall k :: (k !in raw && k != PageIdKey && k != PageNameKey && k != IsActiveKey
      ==> Field(Normalize(raw), k) == None)
  {
  }

  /** The ad an edge contributes: its node, when the node and its `ad_archive_id` are truthy. */
  function EdgeAd(edge: Json): Option<AdData> {
    var node := Member(Some(edge), "node");
    if Truthy(node) && Truthy(Member(node, ArchiveIdKey)) then Some(Normalize(node.value.fields))
    else None
  }

  /** What each edge contributes, edge by edge. */
  function Candidates(edges: seq<Json>): (ys: seq<Option<AdData>>)
    ensures |ys| == |edges|
  {
    seq(|edges|, i requires 0 <= i < |edges| => EdgeAd(edges[i]))
  }

  /** The ads a list of candidates holds, in order: a `Some` is kept, a `None` skipped. */
  function Present(ys: seq<Option<AdData>>): (ads: seq<AdData>)
    ensures |ads| <= |ys|
  {
    if ys == [] then []
    else
      var last := ys[|ys| - 1];
      Present(ys[..|ys| - 1]) + (match last case Some(a) => [a] case None => [])
  }

  /** The ads of a list of edges, in order, skipping edges without a usable node. */
  function EdgeAds(edges: seq<Json>): (ads: seq<AdData>)
    ensures |ads| <= |edges|
  {
    Present(Candidates(edges))
  }

  /** The ads of one response. */
  function ResponseAds(response: Json): seq<AdData> {
    EdgeAds(EdgesOf(response))
  }

  /** The ads of the whole buffer, response by response. */
  function ExtractAll(responses: seq<Json>): seq<AdData> {
    if responses == [] then []
    else ExtractAll(responses[..|responses| - 1]) + ResponseAds(responses[|responses| - 1])
  }

  /** The payloads the listener keeps: exactly those for which `containsAdData` holds. */
  function Admitted(payloads: seq<Json>): (kept: seq<Json>)
    ensures forall r :: r in kept ==> r in payloads && ContainsAdData(r)
    ensures forall r :: r in payloads && ContainsAdData(r) ==> r in kept
    ensures |kept| <= |payloads|
  {
    if payloads == [] then []
    else
      var last := payloads[|payloads| - 1];
      Admitted(payloads[..|payloads| - 1]) + (if ContainsAdData(last) then [last] else [])
  }

  // ---------------------------------------------------------------------
  // Properties
  // ---------------------------------------------------------------------

  /** A falsy value has no members: every path below it is undefined. */
  lemma {:induction false} PathBelowFalsy(v: Option<Json>, keys: seq<string>)
    requires !Truthy(v) && keys != []
    ensures Path(v, keys) == None
  {
    PathOfNone(keys[1..]);
  }

  /** A path through a prefix goes through the value at that prefix. */
  lemma {:induction false} PathAppend(v: Option<Json>, a: seq<string>, b: seq<string>)
    ensures Path(v, a + b) == Path(Path(v, a), b)
    decreases |a|
  {
    if a != [] {
      assert (a + b)[0] == a[0] && (a + b)[1..] == a[1..] + b;
      calc {
        Path(v, a + b);
        Path(Member(v, a[0]), a[1..] + b);
        { PathAppend(Member(v, a[0]), a[1..], b); }
        Path(Path(Member(v, a[0]), a[1..]), b);
      }
    } else {
      assert a + b == b;
    }
  }

  /**
   * The listener's filter loses no ad: a response without either container
   * yields no edges.
   */
  lemma {:induction false} RejectedResponseHasNoEdges(response: Json)
    requires !ContainsAdData(response)
    ensures EdgesOf(response) == []
  {
    PathAppend(Some(response), MainContainer, ["search_results", "edges"]);
    PathBelowFalsy(Path(Some(response), MainContainer), ["search_results", "edges"]);
    PathAppend(Some(response), PageContainer, ["edges"]);
    PathBelowFalsy(Path(Some(response), PageContainer), ["edges"]);
  }

  /**
   * Probe order: the `ad_library_main` edges are used whenever they are
   * truthy, even as an empty array, whatever the `page` edges hold; the
   * `page` edges are used only when the first are falsy.
   */
  lemma {:induction false} EdgeProbeOrder(response: Json)
    ensures Path(Some(response), MainEdges) == Some(Arr([])) ==> EdgesOf(response) == []
    ensures Truthy(Path(Some(response), MainEdges)) && Path(Some(response), MainEdges).value.Arr?
      ==> EdgesOf(response) == Path(Some(response), MainEdges).value.items
    ensures !Truthy(Path(Some(response), MainEdges)) && Truthy(Path(Some(response), PageEdges))
      && Path(Some(response), PageEdges).value.Arr?
      ==> EdgesOf(response) == Path(Some(response), PageEdges).value.items
  {
  }

  /** An edge yields an ad exactly when its node is an object with a truthy `ad_archive_id`. */
  lemma {:induction false} EdgeAdCondition(edge: Json)
    ensures EdgeAd(edge).Some? <==> (edge.Obj? && "node" in edge.fields && edge.fields["node"].Obj?
      && Truthy(Lookup(edge.fields["node"].fields, ArchiveIdKey)))
    ensures EdgeAd(edge).Some? ==> EdgeAd(edge).value == Normalize(edge.fields["node"].fields)
  {
  }

  /** A list of candidates holds exactly the ads some candidate carries. */
  lemma {:induction false} PresentMembership(ys: seq<Option<AdData>>, a: AdData)
    ensures a in Present(ys) <==> exists i :: 0 <= i < |ys| && ys[i] == Some(a)
  {
    if ys != [] {
      var n := |ys| - 1;
      var init := ys[..n];
      var tail := match ys[n] case Some(b) => [b] case None => [];
      assert Present(ys) == Present(init) + tail;
      PresentMembership(init, a);
      if a in Present(init) {
        var i :| 0 <= i < |init| && init[i] == Some(a);
        assert ys[i] == init[i];
      } else if a in tail {
        assert ys[n] == Some(a);
      }
      if i :| 0 <= i < |ys| && ys[i] == Some(a) {
        if i < n {
          assert init[i] == ys[i];
        } else {
          assert tail == [a];
        }
      }
    }
  }

  /** Every ad extracted from a list of edges is the normalised node of one of those edges, and conversely. */
  lemma {:induction false} EdgeAdsMembership(edges: seq<Json>, a: AdData)
    ensures a in EdgeAds(edges) <==> exists i :: 0 <= i < |edges| && EdgeAd(edges[i]) == Some(a)
  {
    var ys := Candidates(edges);
    PresentMembership(ys, a);
    if a in Present(ys) {
      var i :| 0 <= i < |ys| && ys[i] == Some(a);
      assert EdgeAd(edges[i]) == Some(a);
    }
    if i :| 0 <= i < |edges| && EdgeAd(edges[i]) == Some(a) {
      assert ys[i] == Some(a);
    }
  }

  /** Every extracted ad has a truthy archive id and holds no key twice. */
  lemma {:induction false} EdgeAdsAreProper(edges: seq<Json>)
    ensures forall a :: a in EdgeAds(edges) ==> Truthy(a.archiveId) && a.WellFormed()
  {
    forall a | a in EdgeAds(edges) ensures Truthy(a.archiveId) && a.WellFormed() {
      EdgeAdsMembership(edges, a);
      var i :| 0 <= i < |edges| && EdgeAd(edges[i]) == Some(a);
      NormalizeSpec(edges[i].fields["node"].fields);
    }
  }

  /** Every ad of the buffer has a truthy archive id and holds no key twice. */
  lemma {:induction false} ExtractAllAreProper(responses: seq<Json>)
    ensures forall a :: a in ExtractAll(responses) ==> Truthy(a.archiveId) && a.WellFormed()
    decreases |responses|
  {
    if responses != [] {
      ExtractAllAreProper(responses[..|responses| - 1]);
      EdgeAdsAreProper(EdgesOf(responses[|responses| - 1]));
    }
  }

  /** Reading one more edge appends that edge's ad, if it has one. */
  lemma {:induction false} EdgeAdsSnoc(edges: seq<Json>, j: nat)
    requires j < |edges|
    ensures EdgeAds(edges[..j + 1]) == EdgeAds(edges[..j]) +
      (match EdgeAd(edges[j]) case Some(a) => [a] case None => [])
  {
    assert Candidates(edges[..j + 1])[..j] == Candidates(edges[..j]);
  }

  /** Reading one more response appends that response's ads. */
  lemma {:induction false} ExtractAllSnoc(responses: seq<Json>, i: nat)
    requires i < |responses|
    ensures ExtractAll(responses[..i + 1]) == ExtractAll(responses[..i]) + ResponseAds(responses[i])
  {
    assert responses[..i + 1][..i] == responses[..i];
  }

  /** Extraction distributes over the buffer: later payloads append their ads. */
  lemma {:induction false} ExtractAllAppend(xs: seq<Json>, ys: seq<Json>)
    ensures ExtractAll(xs + ys) == ExtractAll(xs) + ExtractAll(ys)
    decreases |ys|
  {
    if ys == [] {
      assert xs + ys == xs;
    } else {
      var init := ys[..|ys| - 1];
      assert (xs + ys)[..|xs + ys| - 1] == xs + init;
      ExtractAllAppend(xs, init);
    }
  }

  /** Filtering payloads with `containsAdData` before buffering them changes no extracted ad. */
  lemma {:induction false} AdmittedKeepsAllAds(payloads: seq<Json>)
    ensures ExtractAll(Admitted(payloads)) == ExtractAll(payloads)
    decreases |payloads|
  {
    if payloads != [] {
      var init := payloads[..|payloads| - 1];
      var last := payloads[|payloads| - 1];
      var kept := if ContainsAdData(last) then [last] else [];
      assert Admitted(payloads) == Admitted(init) + kept;
      assert ExtractAll(payloads) == ExtractAll(init) + ResponseAds(last);
      AdmittedKeepsAllAds(init);
      ExtractAllAppend(Admitted(init), kept);
      if ContainsAdData(last) {
        assert kept[..0] == [];
        assert ExtractAll(kept) == ResponseAds(last);
      } else {
        RejectedResponseHasNoEdges(last);
        assert ExtractAll(kept) == [];
      }
    }
  }

  /**
   * A batch holding one well-formed edge and one whose node has no archive
   * id yields exactly one ad, without failing.
   */
  lemma OneGoodOneBadEdge(good: Object, bad: Object)
    requires Truthy(Lookup(good, ArchiveIdKey))
    requires ArchiveIdKey !in bad
    ensures EdgeAds([Obj(map["node" := Obj(good)]), Obj(map["node" := Obj(bad)])]) == [Normalize(good)]
  {
    var edges := [Obj(map["node" := Obj(good)]), Obj(map["node" := Obj(bad)])];
    var g := Normalize(good);
    assert EdgeAd(edges[0]) == Some(g);
    assert EdgeAd(edges[1]) == None;
    var ys := Candidates(edges);
    assert ys[0] == Some(g) && ys[1] == None;
    assert ys[..1] == [Some(g)] && ys[..1][..0] == [];
    assert Present(ys[..1]) == [g];
  }
}
