/**
 * The scraper (`MetaAdsScraper` in src/scraper/MetaAdsScraper.ts) and its
 * pagination loop.
 *
 * The browser is not modelled.  What it contributes is given as oracles:
 * `arrivals[c]` are the payloads the page received before cycle `c` reads
 * the buffer (for cycle 0, those received while navigating and waiting for
 * the first ads), and `scrolls[c]` says whether scrolling after cycle `c`
 * made the page taller.  Past the end of `arrivals` nothing more arrives;
 * past the end of `scrolls` the page no longer grows.
 */
module Scraper {
  import opened Wrappers
  import opened JsonValue
  import opened Ads
  import opened Extraction
  import opened Dedup

  /** `maxNoNewAdsAttempts` */
  const MaxNoNewAdsAttempts: nat := 5

  datatype ScrapeError =
    | LaunchFailed     // the browser could not be started
    | NotInitialized   // 'Scraper not initialized'
    | ScrapingFailed   // 'Scraping failed: ...' (navigation did not complete)

  /** The payloads that arrive before cycle `c`. */
  function Arrival(arrivals: seq<seq<Json>>, c: nat): seq<Json> {
    if c < |arrivals| then arrivals[c] else []
  }

  /** Whether scrolling after cycle `c` made the page taller (`scrollAndWait`). */
  predicate Grew(scrolls: seq<bool>, c: nat) {
    c < |scrolls| && scrolls[c]
  }

  /** How many scrolls in a row, from the one after cycle `c` on, made the page taller. */
  function GrowingScrolls(scrolls: seq<bool>, c: nat): (n: nat)
    requires c <= |scrolls|
    ensures c + n <= |scrolls|
    ensures forall j :: c <= j < c + n ==> scrolls[j]
    ensures c + n == |scrolls| || !scrolls[c + n]
    decreases |scrolls| - c
  {
    if c == |scrolls| || !scrolls[c] then 0 else 1 + GrowingScrolls(scrolls, c + 1)
  }

  /** `s.slice(0, end)`: a negative end counts from the back. */
  function SliceTo(s: seq<AdData>, end: int): (r: seq<AdData>)
    ensures r <= s
    ensures 0 <= end <= |s| ==> |r| == end
    ensures end < 0 ==> |r| == if |s| + end >= 0 then |s| + end else 0
  {
    if end >= |s| then s
    else if end >= 0 then s[..end]
    else if |s| + end >= 0 then s[..|s| + end]
    else []
  }

  /** The variables the loop carries from cycle to cycle. */
  datatype LoopState = LoopState(allAds: seq<AdData>, lastAdCount: nat, noNewAdsCount: nat)

  const Start := LoopState([], 0, 0)

  /** What the loop body decides once it has the cycle's unique ads. */
  datatype Decision =
    | Return(ads: seq<AdData>)  // the cap is reached: return the first `maxAds`
    | Stop                      // five cycles in a row without growth: return `allAds`
    | Scroll(next: LoopState)   // carry on after scrolling

  /**
   * One cycle of the loop up to the scroll.  `maxAds` 0 stands for an
   * absent cap (`undefined` and 0 are both falsy).
   */
  function Step(maxAds: int, s: LoopState, unique: seq<AdData>): Decision {
    if maxAds != 0 && |unique| >= maxAds then Return(SliceTo(unique, maxAds))
    else if |unique| == s.lastAdCount then
      if s.noNewAdsCount + 1 >= MaxNoNewAdsAttempts then Stop
      else Scroll(s.(noNewAdsCount := s.noNewAdsCount + 1))
    else Scroll(LoopState(unique, |unique|, 0))
  }

  /** The loop's result, its response buffer at the end, and the number of cycles it ran. */
  datatype Run = Run(ads: seq<AdData>, buffer: seq<Json>, cycles: nat)

  /** The loop from cycle `c` on, with response buffer `buffer` and loop state `s`. */
  function Cycles(maxAds: int, arrivals: seq<seq<Json>>, scrolls: seq<bool>,
                  buffer: seq<Json>, s: LoopState, c: nat): Run
    requires c <= |scrolls|
    decreases |scrolls| - c
  {
    var buffer' := buffer + Admitted(Arrival(arrivals, c));
    var unique := Deduplicate(s.allAds + ExtractAll(buffer'));
    match Step(maxAds, s, unique)
    case Return(r) => Run(r, buffer', c + 1)
    case Stop => Run(s.allAds, buffer', c + 1)
    case Scroll(next) =>
      if Grew(scrolls, c) then Cycles(maxAds, arrivals, scrolls, buffer', next, c + 1)
      else Run(next.allAds, buffer', c + 1)
  }

  /** What a scrape returns once navigation has succeeded. */
  function Scrape(maxAds: int, arrivals: seq<seq<Json>>, scrolls: seq<bool>): Run {
    Cycles(maxAds, arrivals, scrolls, [], Start, 0)
  }

  /**
   * The body of `extractAdsFromResponses` for one payload: the ads of its
   * edges, skipping every edge whose node or archive id is falsy.
   */
  method AdsOfResponse(response: Json) returns (ads: seq<AdData>)
    ensures ads == ResponseAds(response)
  {
    var edges := EdgesOf(response);
    ads := [];
    for j := 0 to |edges|
      invariant ads == EdgeAds(edges[..j])
    {
      EdgeAdsSnoc(edges, j);
      var node := Member(Some(edges[j]), "node");
      if Truthy(node) && Truthy(Member(node, ArchiveIdKey)) {
        ads := ads + [Normalize(node.value.fields)];
      }
    }
    assert edges[..|edges|] == edges;
  }

  class MetaAdsScraper {
    /** A browser is open. */
    var browser: bool
    /** A page is open. */
    var page: bool
    /** `graphQLResponses`: the payloads buffered by the response listener. */
    var responses: seq<Json>

    ghost predicate Valid()
      reads this
    {
      page ==> browser
    }

    constructor()
      ensures Valid() && !browser && !page && responses == []
    {
      browser, page, responses := false, false, [];
    }

    /** Launches the browser and opens a page; `launchOk` is whether the launch succeeds. */
    method Initialize(launchOk: bool) returns (r: Outcome<ScrapeError>)
      modifies this
      ensures launchOk ==> r == Pass && browser && page
      ensures !launchOk ==> r == Fail(LaunchFailed) && browser == old(browser) && page == old(page)
      ensures responses == old(responses)
      ensures old(Valid()) ==> Valid()
    {
      if !launchOk {
        return Fail(LaunchFailed);
      }
      browser, page := true, true;
      return Pass;
    }

    /** Closes the browser, if one is open. */
    method Close()
      requires Valid()
      modifies this
      ensures Valid() && !browser && !page
      ensures responses == old(responses)
    {
      if browser {
        browser, page := false, false;
      }
    }

    /** `extractAdsFromResponses`: the ads of every buffered payload, in order. */
    method ExtractAdsFromResponses() returns (ads: seq<AdData>)
      ensures ads == ExtractAll(responses)
    {
      var buffer := responses;
      ads := [];
      for i := 0 to |buffer|
        invariant ads == ExtractAll(buffer[..i])
      {
        var found := AdsOfResponse(buffer[i]);
        ads := ads + found;
        ExtractAllSnoc(buffer, i);
      }
      assert buffer[..|buffer|] == buffer;
    }

    /**
     * `scrapeAds(url, maxAds)`: navigates to `url` (`gotoOk` says whether
     * that succeeds) and collects ads until the cap, the stall limit or the
     * end of the page.  The buffer is cleared at the start of every call
     * that has a page.
     */
    method ScrapeAds(url: string, maxAds: int, gotoOk: bool, arrivals: seq<seq<Json>>, scrolls: seq<bool>)
      returns (r: Result<seq<AdData>, ScrapeError>)
      modifies this
      ensures browser == old(browser) && page == old(page)
      ensures !old(page) ==> r == Err(NotInitialized) && responses == old(responses)
      ensures old(page) && !gotoOk ==> r == Err(ScrapingFailed) && responses == []
      ensures old(page) && gotoOk ==>
        r == Ok(Scrape(maxAds, arrivals, scrolls).ads) && responses == Scrape(maxAds, arrivals, scrolls).buffer
    {
      if !page {
        return Err(NotInitialized);
      }
      responses := [];
      var allAds: seq<AdData> := [];
      var lastAdCount: nat := 0;
      var noNewAdsCount: nat := 0;
      if !gotoOk {
        return Err(ScrapingFailed);
      }
      ghost var run := Scrape(maxAds, arrivals, scrolls);
      var c: nat := 0;
      while true
        invariant c <= |scrolls|
        invariant Cycles(maxAds, arrivals, scrolls, responses, LoopState(allAds, lastAdCount, noNewAdsCount), c) == run
        invariant browser == old(browser) && page == old(page)
        decreases |scrolls| - c
      {
        ghost var s := LoopState(allAds, lastAdCount, noNewAdsCount);
        ghost var buffer := responses;
        responses := responses + Admitted(Arrival(arrivals, c));
        var ads := ExtractAdsFromResponses();
        var uniqueAds := DeduplicateAds(allAds + ads);
        OneCycle(maxAds, arrivals, scrolls, buffer, s, c, responses, uniqueAds);
        if maxAds != 0 && |uniqueAds| >= maxAds {
          assert Step(maxAds, s, uniqueAds) == Return(SliceTo(uniqueAds, maxAds));
          assert run == Run(SliceTo(uniqueAds, maxAds), responses, c + 1);
          return Ok(SliceTo(uniqueAds, maxAds));
        }
        if |uniqueAds| == lastAdCount {
          noNewAdsCount := noNewAdsCount + 1;
          if noNewAdsCount >= MaxNoNewAdsAttempts {
            assert Step(maxAds, s, uniqueAds) == Stop;
            assert run == Run(allAds, responses, c + 1);
            return Ok(allAds);
          }
        } else {
          noNewAdsCount := 0;
          lastAdCount := |uniqueAds|;
          allAds := uniqueAds;
        }
        ghost var next := LoopState(allAds, lastAdCount, noNewAdsCount);
        assert Step(maxAds, s, uniqueAds) == Scroll(next);
        var hasMore := Grew(scrolls, c);
        if !hasMore {
          assert run == Run(allAds, responses, c + 1);
          return Ok(allAds);
        }
        assert run == Cycles(maxAds, arrivals, scrolls, responses, next, c + 1);
        c := c + 1;
      }
    }
  }

  /** One cycle of the loop, branch by branch. */
  lemma OneCycle(maxAds: int, arrivals: seq<seq<Json>>, scrolls: seq<bool>, buffer: seq<Json>,
                 s: LoopState, c: nat, buffer': seq<Json>, unique: seq<AdData>)
    requires c <= |scrolls|
    requires buffer' == buffer + Admitted(Arrival(arrivals, c))
    requires unique == Deduplicate(s.allAds + ExtractAll(buffer'))
    ensures var run := Cycles(maxAds, arrivals, scrolls, buffer, s, c);
      && (Step(maxAds, s, unique).Return? ==> run == Run(Step(maxAds, s, unique).ads, buffer', c + 1))
      && (Step(maxAds, s, unique).Stop? ==> run == Run(s.allAds, buffer', c + 1))
      && (Step(maxAds, s, unique).Scroll? && !Grew(scrolls, c) ==>
            run == Run(Step(maxAds, s, unique).next.allAds, buffer', c + 1))
      && (Step(maxAds, s, unique).Scroll? && Grew(scrolls, c) ==>
            run == Cycles(maxAds, arrivals, scrolls, buffer', Step(maxAds, s, unique).next, c + 1))
  {
  }

  // ---------------------------------------------------------------------
  // Properties of the loop
  // ---------------------------------------------------------------------

  /** The loop state is consistent: `allAds` has distinct ids and `lastAdCount` is its length. */
  ghost predicate Consistent(s: LoopState) {
    DistinctIds(s.allAds) && s.lastAdCount == |s.allAds| && s.noNewAdsCount < MaxNoNewAdsAttempts
  }

  /**
   * One cycle: the unique count never falls below `lastAdCount`; the stall
   * counter resets exactly when the count grows and otherwise goes up by
   * one; the loop stops on the fifth cycle in a row without growth; and
   * the cap returns exactly the first `maxAds` unique ads.
   */
  lemma {:induction false} StepProperties(maxAds: int, s: LoopState, found: seq<AdData>)
    requires Consistent(s)
    ensures var unique := Deduplicate(s.allAds + found);
      && |unique| >= s.lastAdCount
      && (maxAds > 0 && |unique| >= maxAds ==>
            Step(maxAds, s, unique) == Return(unique[..maxAds]) && |unique[..maxAds]| == maxAds)
      && (Step(maxAds, s, unique).Stop? <==>
            !(maxAds != 0 && |unique| >= maxAds) && |unique| == s.lastAdCount
            && s.noNewAdsCount + 1 == MaxNoNewAdsAttempts)
      && (Step(maxAds, s, unique).Scroll? ==>
            var next := Step(maxAds, s, unique).next;
            Consistent(next) && next.lastAdCount >= s.lastAdCount
            && (next.noNewAdsCount == 0 <==> |unique| > s.lastAdCount)
            && (next.noNewAdsCount != 0 ==> next.noNewAdsCount == s.noNewAdsCount + 1))
  {
    var unique := Deduplicate(s.allAds + found);
    DeduplicateGrows(s.allAds, found);
    DeduplicateSpec(s.allAds + found);
  }

  /** One cycle returns ads with distinct ids, or carries on from a consistent state. */
  lemma {:induction false} DistinctStep(maxAds: int, s: LoopState, found: seq<AdData>)
    requires Consistent(s)
    ensures var d := Step(maxAds, s, Deduplicate(s.allAds + found));
      && (d.Return? ==> DistinctIds(d.ads))
      && (d.Scroll? ==> Consistent(d.next))
  {
    var unique := Deduplicate(s.allAds + found);
    StepProperties(maxAds, s, found);
    DeduplicateSpec(s.allAds + found);
    var d := Step(maxAds, s, unique);
    if d.Return? {
      DistinctPrefix(unique, |d.ads|);
      assert d.ads == unique[..|d.ads|];
    }
  }

  /** Every run returns ads with distinct archive ids. */
  lemma {:induction false} CyclesDistinct(maxAds: int, arrivals: seq<seq<Json>>, scrolls: seq<bool>,
                                          buffer: seq<Json>, s: LoopState, c: nat)
    requires c <= |scrolls| && Consistent(s)
    ensures DistinctIds(Cycles(maxAds, arrivals, scrolls, buffer, s, c).ads)
    decreases |scrolls| - c
  {
    var buffer' := buffer + Admitted(Arrival(arrivals, c));
    var found := ExtractAll(buffer');
    var unique := Deduplicate(s.allAds + found);
    OneCycle(maxAds, arrivals, scrolls, buffer, s, c, buffer', unique);
    DistinctStep(maxAds, s, found);
    var d := Step(maxAds, s, unique);
    if d.Scroll? && Grew(scrolls, c) {
      CyclesDistinct(maxAds, arrivals, scrolls, buffer', d.next, c + 1);
    }
  }

  /** A positive cap bounds the result. */
  lemma {:induction false} CyclesRespectCap(maxAds: int, arrivals: seq<seq<Json>>, scrolls: seq<bool>,
                                            buffer: seq<Json>, s: LoopState, c: nat)
    requires c <= |scrolls| && Consistent(s)
    requires maxAds > 0 && |s.allAds| < maxAds
    ensures |Cycles(maxAds, arrivals, scrolls, buffer, s, c).ads| <= maxAds
    decreases |scrolls| - c
  {
    var buffer' := buffer + Admitted(Arrival(arrivals, c));
    StepProperties(maxAds, s, ExtractAll(buffer'));
    var unique := Deduplicate(s.allAds + ExtractAll(buffer'));
    match Step(maxAds, s, unique)
    case Return(r) =>
    case Stop =>
    case Scroll(next) =>
      if Grew(scrolls, c) {
        CyclesRespectCap(maxAds, arrivals, scrolls, buffer', next, c + 1);
      }
  }

  /**
   * Each further cycle needs a scroll that made the page taller: the loop
   * ends at the latest in the cycle after the first scroll that did not.
   */
  lemma {:induction false} CyclesBounded(maxAds: int, arrivals: seq<seq<Json>>, scrolls: seq<bool>,
                                         buffer: seq<Json>, s: LoopState, c: nat)
    requires c <= |scrolls|
    ensures c < Cycles(maxAds, arrivals, scrolls, buffer, s, c).cycles <= c + 1 + GrowingScrolls(scrolls, c)
    decreases |scrolls| - c
  {
    var buffer' := buffer + Admitted(Arrival(arrivals, c));
    var unique := Deduplicate(s.allAds + ExtractAll(buffer'));
    match Step(maxAds, s, unique)
    case Return(r) =>
    case Stop =>
    case Scroll(next) =>
      if Grew(scrolls, c) {
        CyclesBounded(maxAds, arrivals, scrolls, buffer', next, c + 1);
      }
  }

  /** Every id of `ys` already occurs in `xs`. */
  ghost predicate Absorbed(xs: seq<AdData>, ys: seq<AdData>) {
    forall k :: HasId(ys, k) ==> HasId(xs, k)
  }

  /** Ads whose ids are all known add no key to the Map. */
  lemma {:induction false} AbsorbedIds(xs: seq<AdData>, ys: seq<AdData>)
    requires Absorbed(xs, ys)
    ensures FirstIds(xs + ys) == FirstIds(xs)
    decreases |ys|
  {
    if ys == [] {
      assert xs + ys == xs;
    } else {
      var init := ys[..|ys| - 1];
      assert (xs + ys)[..|xs + ys| - 1] == xs + init;
      forall k | HasId(init, k) ensures HasId(xs, k) {
        var i :| 0 <= i < |init| && init[i].archiveId == k;
        assert ys[i] == init[i];
      }
      AbsorbedIds(xs, init);
      assert HasId(ys, ys[|ys| - 1].archiveId);
      assert (xs + ys)[|xs + ys| - 1] == ys[|ys| - 1];
    }
  }

  /** Merging ads whose ids are all known adds no entry. */
  lemma {:induction false} AbsorbedAddsNothing(xs: seq<AdData>, ys: seq<AdData>)
    requires DistinctIds(xs) && Absorbed(xs, ys)
    ensures |Deduplicate(xs + ys)| == |xs|
  {
    AbsorbedIds(xs, ys);
    FirstIdsOfDistinct(xs);
  }

  /** When the count does not grow, every id just extracted was already known. */
  lemma {:induction false} NoGrowthMeansAbsorbed(xs: seq<AdData>, ys: seq<AdData>)
    requires DistinctIds(xs)
    requires |Deduplicate(xs + ys)| == |xs|
    ensures Absorbed(xs, ys)
  {
    FirstIdsOfAppend(xs, ys);
    FirstIdsOfDistinct(xs);
    var whole := FirstIds(xs + ys);
    assert whole == FirstIds(xs);
    forall k | HasId(ys, k) ensures HasId(xs, k) {
      var i :| 0 <= i < |ys| && ys[i].archiveId == k;
      assert (xs + ys)[|xs| + i] == ys[i];
      assert k in whole;
    }
  }

  /** The ids of a merged list are those of its two parts. */
  lemma {:induction false} MergedAbsorbs(xs: seq<AdData>, ys: seq<AdData>)
    ensures Absorbed(Deduplicate(xs + ys), ys)
  {
    DeduplicateSpec(xs + ys);
    forall k | HasId(ys, k) ensures HasId(xs + ys, k) {
      var i :| 0 <= i < |ys| && ys[i].archiveId == k;
      assert (xs + ys)[|xs| + i] == ys[i];
    }
  }

  /** Nothing new arrives from cycle `c` on. */
  ghost predicate QuietFrom(arrivals: seq<seq<Json>>, c: nat) {
    forall c' :: c <= c' ==> ExtractAll(Admitted(Arrival(arrivals, c'))) == []
  }

  /** A cycle that finds only known ids and does not return scrolls on with the stall counter one up. */
  lemma {:induction false} StalledStep(maxAds: int, s: LoopState, found: seq<AdData>)
    requires Consistent(s) && Absorbed(s.allAds, found)
    ensures var d := Step(maxAds, s, Deduplicate(s.allAds + found));
      d.Scroll? ==> d.next == s.(noNewAdsCount := s.noNewAdsCount + 1) && Consistent(d.next)
  {
    AbsorbedAddsNothing(s.allAds, found);
  }

  /** Once everything extracted is known and nothing new arrives, the stall counter runs out. */
  lemma {:induction false} StalledRunEnds(maxAds: int, arrivals: seq<seq<Json>>, scrolls: seq<bool>,
                                          buffer: seq<Json>, s: LoopState, c: nat)
    requires c <= |scrolls| && Consistent(s)
    requires QuietFrom(arrivals, c)
    requires Absorbed(s.allAds, ExtractAll(buffer))
    ensures Cycles(maxAds, arrivals, scrolls, buffer, s, c).cycles <= c + MaxNoNewAdsAttempts - s.noNewAdsCount
    decreases |scrolls| - c
  {
    var buffer' := buffer + Admitted(Arrival(arrivals, c));
    ExtractAllAppend(buffer, Admitted(Arrival(arrivals, c)));
    var found := ExtractAll(buffer');
    assert found == ExtractAll(buffer);
    StalledStep(maxAds, s, found);
    var d := Step(maxAds, s, Deduplicate(s.allAds + found));
    if d.Scroll? && Grew(scrolls, c) {
      StalledRunEnds(maxAds, arrivals, scrolls, buffer', d.next, c + 1);
    }
  }

  /**
   * Once the feed stops delivering payloads with ads, the loop ends within
   * six cycles: at most one that takes in what has already arrived, then
   * five without growth.
   */
  lemma {:induction false} QuietFeedEnds(maxAds: int, arrivals: seq<seq<Json>>, scrolls: seq<bool>,
                                         buffer: seq<Json>, s: LoopState, c: nat)
    requires c <= |scrolls| && Consistent(s)
    requires QuietFrom(arrivals, c)
    ensures Cycles(maxAds, arrivals, scrolls, buffer, s, c).cycles <= c + 1 + MaxNoNewAdsAttempts
  {
    var buffer' := buffer + Admitted(Arrival(arrivals, c));
    ExtractAllAppend(buffer, Admitted(Arrival(arrivals, c)));
    var found := ExtractAll(buffer');
    assert found == ExtractAll(buffer);
    var unique := Deduplicate(s.allAds + found);
    StepProperties(maxAds, s, found);
    match Step(maxAds, s, unique)
    case Return(r) =>
    case Stop =>
    case Scroll(next) =>
      if Grew(scrolls, c) {
        if |unique| == s.lastAdCount {
          NoGrowthMeansAbsorbed(s.allAds, found);
          assert next.allAds == s.allAds;
        } else {
          MergedAbsorbs(s.allAds, found);
          assert next.allAds == unique;
        }
        assert forall c' :: c + 1 <= c' ==> ExtractAll(Admitted(Arrival(arrivals, c'))) == [];
        StalledRunEnds(maxAds, arrivals, scrolls, buffer', next, c + 1);
      }
  }

  /**
   * A scrape returns ads with distinct archive ids, never more than a
   * positive cap, and runs one cycle more than the scrolls in a row, from
   * the first on, that made the page taller, or fewer; a feed that never
   * yields an ad ends it within five cycles.
   */
  lemma {:induction false} ScrapeProperties(maxAds: int, arrivals: seq<seq<Json>>, scrolls: seq<bool>)
    ensures DistinctIds(Scrape(maxAds, arrivals, scrolls).ads)
    ensures maxAds > 0 ==> |Scrape(maxAds, arrivals, scrolls).ads| <= maxAds
    ensures 0 < Scrape(maxAds, arrivals, scrolls).cycles <= 1 + GrowingScrolls(scrolls, 0)
    ensures QuietFrom(arrivals, 0) ==> Scrape(maxAds, arrivals, scrolls).cycles <= MaxNoNewAdsAttempts
  {
    CyclesDistinct(maxAds, arrivals, scrolls, [], Start, 0);
    if maxAds > 0 {
      CyclesRespectCap(maxAds, arrivals, scrolls, [], Start, 0);
    }
    CyclesBounded(maxAds, arrivals, scrolls, [], Start, 0);
    if QuietFrom(arrivals, 0) {
      StalledRunEnds(maxAds, arrivals, scrolls, [], Start, 0);
    }
  }
}
