/**
 * The sync manager (`SyncManager` in src/sync/SyncManager.ts).
 *
 * An initial sync scrapes a listing and stores every ad it yields together
 * with the page's metadata; an incremental sync scrapes the page's live
 * listing again and reconciles it with the stored ads: new ads are saved,
 * changed ads are saved again, and stored ads that are gone from the
 * listing while still active are retired.
 *
 * The outcome of each run is a function of the store's contents before the
 * run, the browser session and the time `now`; the methods of
 * `SyncManager` perform the run step by step and reach exactly that outcome.
 */
module Sync {
  import opened Wrappers
  import opened JsonValue
  import opened Ads
  import opened Helpers
  import opened Dedup
  import opened Storage
  import opened Scraper

  /** What a run reports in `errors`, one entry per message. */
  datatype SyncError =
    | ScrapeFailed(scrapeError: ScrapeError)               // `initialize` or `scrapeAds` threw
    | NoAdsFound                                          // 'No ads found. ...'
    | SaveFailed(adId: Option<Json>, cause: StoreError)    // 'Failed to save ad ...'
    | ProcessFailed(adId: Option<Json>, cause: StoreError) // 'Failed to process ad ...'
    | NoMetadata(pageId: string)                          // 'No metadata found for page ...'
    | StoreFailed(cause: StoreError)                      // a store call outside the per-ad `try` threw

  /** What `initialSync` and `incrementalSync` return. */
  datatype SyncResult = SyncResult(success: bool, totalFetched: nat, errors: seq<SyncError>, pageId: Option<Json>)

  /**
   * What the browser does during one run: whether it launches, whether
   * navigation succeeds, and the payloads and scroll outcomes of the
   * pagination loop.
   */
  datatype Session = Session(launchOk: bool, gotoOk: bool, arrivals: seq<seq<Json>>, scrolls: seq<bool>)

  /** The outcome of a run: what it returns and the store's contents afterwards. */
  datatype Synced = Synced(result: SyncResult, disk: Disk)

  /** What `initialize` followed by `scrapeAds(url, max)` yields in `session`. */
  function Scraped(max: int, session: Session): Result<seq<AdData>, ScrapeError> {
    if !session.launchOk then Err(LaunchFailed)
    else if !session.gotoOk then Err(ScrapingFailed)
    else Ok(Scrape(max, session.arrivals, session.scrolls).ads)
  }

  // ---------------------------------------------------------------------
  // Change detection and counters
  // ---------------------------------------------------------------------

  /**
   * `hasChanged`: status and stop time are compared with `!==`, spend and
   * impressions through their JSON text.
   */
  function HasChanged(oldAd: AdData, newAd: AdData): (changed: bool)
    ensures !changed ==> (oldAd.isActive == newAd.isActive && oldAd.stopTime == newAd.stopTime
                          && oldAd.spend == newAd.spend && oldAd.impressions == newAd.impressions)
    ensures Primitive(oldAd.isActive) && Primitive(oldAd.stopTime) ==>
      (changed <==> (oldAd.isActive != newAd.isActive || oldAd.stopTime != newAd.stopTime
                     || oldAd.spend != newAd.spend || oldAd.impressions != newAd.impressions))
    ensures !Primitive(oldAd.isActive) || !Primitive(oldAd.stopTime) ==> changed
  {
    !StrictEq(oldAd.isActive, newAd.isActive) || !StrictEq(oldAd.stopTime, newAd.stopTime)
    || oldAd.spend != newAd.spend || oldAd.impressions != newAd.impressions
  }

  /** `ads.filter(ad => ad.is_active === 1).length` */
  function ActiveCount(ads: seq<AdData>): (n: nat)
    ensures n <= |ads|
    ensures n == |ads| <==> forall i :: 0 <= i < |ads| ==> ads[i].Active()
    ensures n == 0 <==> forall i :: 0 <= i < |ads| ==> !ads[i].Active()
  {
    if ads == [] then 0
    else ActiveCount(ads[..|ads| - 1]) + (if ads[|ads| - 1].Active() then 1 else 0)
  }

  const LastSyncedKey := "last_synced"
  const TotalAdsKey := "total_ads"
  const ActiveAdsKey := "active_ads"
  const InactiveAdsKey := "inactive_ads"

  /** The metadata document `{...base, last_synced, total_ads, active_ads, inactive_ads}`. */
  function WithCounters(base: Object, now: string, total: int, active: int): Object {
    base + map[LastSyncedKey := Str(now), TotalAdsKey := Num(total), ActiveAdsKey := Num(active),
               InactiveAdsKey := Num(total - active)]
  }

  /** The metadata an initial sync writes: page id and name from the first ad, counters over all. */
  function InitialMetadata(ads: seq<AdData>, now: string): Object
    requires ads != []
  {
    var named := Put(Put(map[], PageIdKey, ads[0].pageId), PageNameKey, ads[0].pageName);
    WithCounters(named, now, |ads|, ActiveCount(ads))
  }

  /** The three counters are present and the active and inactive counts add up to the total. */
  predicate CountersAddUp(m: Object) {
    match (Lookup(m, TotalAdsKey), Lookup(m, ActiveAdsKey), Lookup(m, InactiveAdsKey))
    case (Some(Num(total)), Some(Num(active)), Some(Num(inactive))) => active + inactive == total
    case _ => false
  }

  lemma {:induction false} CountersOfWithCounters(base: Object, now: string, total: int, active: int)
    ensures var m := WithCounters(base, now, total, active);
      && CountersAddUp(m)
      && Lookup(m, TotalAdsKey) == Some(Num(total)) && Lookup(m, ActiveAdsKey) == Some(Num(active))
      && Lookup(m, LastSyncedKey) == Some(Str(now))
      && (forall k :: k !in {LastSyncedKey, TotalAdsKey, ActiveAdsKey, InactiveAdsKey} ==>
            Lookup(m, k) == Lookup(base, k))
  {
    var m := WithCounters(base, now, total, active);
    assert Lookup(m, TotalAdsKey) == Some(Num(total));
    assert Lookup(m, ActiveAdsKey) == Some(Num(active));
    assert Lookup(m, InactiveAdsKey) == Some(Num(total - active));
  }

  // ---------------------------------------------------------------------
  // Initial sync
  // ---------------------------------------------------------------------

  /** The store and the collected errors after saving ads one by one. */
  datatype Batch = Batch(disk: Disk, errors: seq<SyncError>)

  /** The saving loop of `initialSync`: a failed save is reported and the loop goes on. */
  function SaveEach(disk: Disk, ads: seq<AdData>): Batch {
    if ads == [] then Batch(disk, [])
    else
      var before := SaveEach(disk, ads[..|ads| - 1]);
      var ad := ads[|ads| - 1];
      match SaveAdTo(before.disk, ad)
      case Ok(d) => Batch(d, before.errors)
      case Err(e) => Batch(before.disk, before.errors + [SaveFailed(ad.archiveId, e)])
  }

  /** The errors a saving loop reports: one per ad whose page id is not a string, in order. */
  function SaveErrors(ads: seq<AdData>): seq<SyncError> {
    if ads == [] then []
    else
      var ad := ads[|ads| - 1];
      SaveErrors(ads[..|ads| - 1]) + (if PageDir(ad.pageId).None? then [SaveFailed(ad.archiveId, PageIdNotString)] else [])
  }

  /** `initialSync(url, max)` in `session`, starting from `disk`; the listing's content comes from `session`. */
  function InitialSpec(disk: Disk, max: int, now: string, session: Session): Synced {
    match Scraped(max, session)
    case Err(e) => Synced(SyncResult(false, 0, [ScrapeFailed(e)], Some(Str(""))), disk)
    case Ok(ads) => InitialFromAds(disk, ads, now)
  }

  /** An initial sync once the scraper has returned `ads`. */
  function InitialFromAds(disk: Disk, ads: seq<AdData>, now: string): Synced {
    if ads == [] then Synced(SyncResult(false, 0, [NoAdsFound], Some(Str(""))), disk)
    else
      var saved := SaveEach(disk, ads);
      match SaveMetadataTo(saved.disk, InitialMetadata(ads, now))
      case Ok(d) => Synced(SyncResult(true, |ads|, saved.errors, ads[0].pageId), d)
      case Err(e) => Synced(SyncResult(false, |ads|, saved.errors + [StoreFailed(e)], ads[0].pageId), saved.disk)
  }

  /** Saving never stops at a failure: the errors are exactly those of the ads without a string page id. */
  lemma {:induction false} SaveEachErrors(disk: Disk, ads: seq<AdData>)
    ensures SaveEach(disk, ads).errors == SaveErrors(ads)
    decreases |ads|
  {
    if ads != [] {
      SaveEachErrors(disk, ads[..|ads| - 1]);
    }
  }

  /**
   * Every ad whose page id is a string is stored under its own file, unless
   * a later ad of the batch is written to the same file.
   */
  lemma {:induction false} SaveEachStores(disk: Disk, ads: seq<AdData>, i: nat, p: string)
    requires i < |ads| && ads[i].pageId == Some(Str(p))
    requires forall j :: i < j < |ads| && ads[j].pageId == Some(Str(p)) ==>
      AdFileName(ads[j].archiveId) != AdFileName(ads[i].archiveId)
    ensures FileAt(SaveEach(disk, ads).disk, p, AdFileName(ads[i].archiveId)) == Some(Parsed(ToObject(ads[i])))
    decreases |ads|
  {
    var init, last := ads[..|ads| - 1], ads[|ads| - 1];
    var before := SaveEach(disk, init);
    var name := AdFileName(ads[i].archiveId);
    if i < |ads| - 1 {
      assert init[i] == ads[i];
      SaveEachStores(disk, init, i, p);
      // the last save writes another file, or none at all
      if SaveAdTo(before.disk, last).Ok? {
        assert (PageDir(last.pageId).value, AdFileName(last.archiveId)) != (p, name);
      }
    }
  }

  /**
   * An initial sync fails with "no ads found" on an empty scrape and leaves
   * the store alone.  Otherwise it reports every ad fetched, takes the page
   * id from the first ad, reports exactly the ads whose save failed and goes
   * on, and succeeds exactly when the metadata can be written, which is
   * when the first ad's page id is a string; the metadata then read back
   * carries the first ad's page id and name, the number of ads, the number
   * of active ones, and an inactive count that makes up the difference.
   */
  lemma {:induction false} InitialOutcome(disk: Disk, ads: seq<AdData>, now: string)
    ensures var out := InitialFromAds(disk, ads, now);
      ads == [] ==> out == Synced(SyncResult(false, 0, [NoAdsFound], Some(Str(""))), disk)
    ensures var out := InitialFromAds(disk, ads, now);
      ads != [] ==>
        && out.result.totalFetched == |ads|
        && out.result.pageId == ads[0].pageId
        && (out.result.success <==> PageDir(ads[0].pageId).Some?)
        && out.result.errors == SaveErrors(ads) + (if out.result.success then [] else [StoreFailed(PageIdNotString)])
    ensures var out := InitialFromAds(disk, ads, now);
      ads != [] && ads[0].pageId.Some? && ads[0].pageId.value.Str? ==>
        var m := ReadMetadata(out.disk, ads[0].pageId.value.s);
        && m.Some? && CountersAddUp(m.value)
        && Lookup(m.value, PageIdKey) == ads[0].pageId
        && Lookup(m.value, PageNameKey) == ads[0].pageName
        && Lookup(m.value, TotalAdsKey) == Some(Num(|ads|))
        && Lookup(m.value, ActiveAdsKey) == Some(Num(ActiveCount(ads)))
        && Lookup(m.value, InactiveAdsKey) == Some(Num(|ads| - ActiveCount(ads)))
        && |ads| - ActiveCount(ads) >= 0
  {
    if ads != [] {
      SaveEachErrors(disk, ads);
      var named := Put(Put(map[], PageIdKey, ads[0].pageId), PageNameKey, ads[0].pageName);
      CountersOfWithCounters(named, now, |ads|, ActiveCount(ads));
      assert Lookup(InitialMetadata(ads, now), PageIdKey) == ads[0].pageId;
    }
  }

  /**
   * Scenario: three active ads of page `p` with distinct ids give a
   * successful initial sync of three ads, no error, and the counters
   * total 3, active 3, inactive 0.
   */
  lemma ThreeActiveAds(disk: Disk, a: AdData, b: AdData, c: AdData, p: string, now: string)
    requires a.pageId == Some(Str(p)) && b.pageId == Some(Str(p)) && c.pageId == Some(Str(p))
    requires a.Active() && b.Active() && c.Active()
    ensures var out := InitialFromAds(disk, [a, b, c], now);
      && out.result == SyncResult(true, 3, [], Some(Str(p)))
      && var m := ReadMetadata(out.disk, p);
      && m.Some?
      && Lookup(m.value, TotalAdsKey) == Some(Num(3))
      && Lookup(m.value, ActiveAdsKey) == Some(Num(3))
      && Lookup(m.value, InactiveAdsKey) == Some(Num(0))
  {
    var ads := [a, b, c];
    assert ActiveCount(ads) == 3;
    assert ads[..2] == [a, b] && ads[..2][..1] == [a] && ads[..2][..1][..0] == [];
    assert SaveErrors([a]) == [] by { assert [a][..0] == []; }
    assert SaveErrors([a, b]) == [] by { assert [a, b][..1] == [a]; }
    assert SaveErrors(ads) == [];
    InitialOutcome(disk, ads, now);
  }

  // ---------------------------------------------------------------------
  // Incremental sync
  // ---------------------------------------------------------------------

  const LibraryUrl := "https://www.facebook.com/ads/library/?"
  const ActiveStatusParam := "active_status=all"
  const AdTypeParam := "&ad_type=all"
  const CountryParam := "&country=ALL"
  const QueryPrefix := LibraryUrl + ActiveStatusParam + AdTypeParam + CountryParam + "&"

  /** The Ad Library URL an incremental sync scrapes: every ad of the page, any status, type and country. */
  function IncrementalUrl(pageId: string): string {
    QueryPrefix + Marker + pageId
  }

  /** The only `v` before the page id parameter is the one of `active`, and an `e` follows it. */
  lemma QueryPrefixHasNoMarker()
    ensures forall j :: 0 <= j < |QueryPrefix| && QueryPrefix[j] == 'v' ==>
      j + 1 < |QueryPrefix| && QueryPrefix[j + 1] == 'e'
  {
    var a := LibraryUrl + "acti";
    var b := "e_status=all" + AdTypeParam + CountryParam + "&";
    assert QueryPrefix == a + "v" + b;
    assert forall j :: 0 <= j < |a| ==> a[j] != 'v';
    assert forall j :: 0 <= j < |b| ==> b[j] != 'v';
    forall j | 0 <= j < |QueryPrefix| && QueryPrefix[j] == 'v'
      ensures j + 1 < |QueryPrefix| && QueryPrefix[j + 1] == 'e'
    {
      if j == |a| {
        assert QueryPrefix[j + 1] == b[0];
      }
    }
  }

  /** The first match in the incremental URL is at the page id parameter. */
  lemma IncrementalUrlFirstMatch(pageId: string)
    requires IsValidPageId(pageId)
    ensures MatchAt(IncrementalUrl(pageId), |QueryPrefix|)
    ensures forall j :: 0 <= j < |QueryPrefix| ==> !MatchAt(IncrementalUrl(pageId), j)
  {
    var url := IncrementalUrl(pageId);
    var i := |QueryPrefix|;
    assert url[i..i + |Marker|] == Marker;
    assert url[i + |Marker|] == pageId[0];
    QueryPrefixHasNoMarker();
    forall j | 0 <= j < i ensures !MatchAt(url, j) {
      assert url[j] == QueryPrefix[j];
      if QueryPrefix[j] == 'v' {
        assert url[j + 1] == QueryPrefix[j + 1];
        assert url[j..j + |Marker|][1] != Marker[1];
      } else {
        assert url[j..j + |Marker|][0] != Marker[0];
      }
    }
  }

  /** The page id can be read back from the incremental URL: the round trip of `extractPageIdFromUrl`. */
  lemma IncrementalUrlRoundTrip(pageId: string)
    requires IsValidPageId(pageId)
    ensures ExtractPageIdFromUrl(IncrementalUrl(pageId)) == Some(pageId)
  {
    var url := IncrementalUrl(pageId);
    var i := |QueryPrefix|;
    IncrementalUrlFirstMatch(pageId);
    ExtractIsLeftmostMaximal(url, i);
    var from := i + |Marker|;
    forall k | from <= k < |url| ensures IsDigit(url[k]) {
      assert url[k] == pageId[k - from];
    }
    var n := DigitRun(url, from);
    assert from + n == |url|;
    assert CapturedAt(url, i) == url[from..from + n] == pageId;
  }

  /**
   * The archive ids of a list of ads as `new Set(ads.map(ad => ad.ad_archive_id))`
   * answers `has` for them. A set compares keys by SameValueZero, and an id
   * that is an array or an object is always a value fresh from `JSON.parse`
   * (of a response or of a file), so `has` never finds it: only primitive ids
   * are members.
   */
  function Ids(ads: seq<AdData>): set<Key> {
    set a | a in ads && Primitive(a.archiveId) :: a.archiveId
  }

  /** The live loop's running state: the store, the two counters and the collected errors. */
  datatype Tally = Tally(disk: Disk, newAds: nat, updatedAds: nat, errors: seq<SyncError>)

  /**
   * One pass of the live loop: a known id is saved again and counted as
   * updated only when its stored record has changed; an unknown id is saved
   * and counted as new; a failed save is reported and the loop goes on.
   */
  function ReconcileAd(p: string, existingIds: set<Key>, t: Tally, ad: AdData): Tally {
    if ad.archiveId in existingIds then
      match ReadAd(t.disk, p, ad.archiveId)
      case None => t
      case Some(stored) =>
        if !HasChanged(stored, ad) then t
        else
          match SaveAdTo(t.disk, ad)
          case Ok(d) => t.(disk := d, updatedAds := t.updatedAds + 1)
          case Err(e) => t.(errors := t.errors + [ProcessFailed(ad.archiveId, e)])
    else
      match SaveAdTo(t.disk, ad)
      case Ok(d) => t.(disk := d, newAds := t.newAds + 1)
      case Err(e) => t.(errors := t.errors + [ProcessFailed(ad.archiveId, e)])
  }

  /** The live loop over `ads`, from `t`. */
  function Reconcile(p: string, existingIds: set<Key>, t: Tally, ads: seq<AdData>): Tally {
    if ads == [] then t
    else ReconcileAd(p, existingIds, Reconcile(p, existingIds, t, ads[..|ads| - 1]), ads[|ads| - 1])
  }

  /** The updates that retire an ad: `{ is_active: 0, ad_delivery_stop_time: now }`. */
  function Retirement(now: string): Object {
    map[IsActiveKey := Num(0), StopTimeKey := Str(now)]
  }

  /**
   * The retiring loop's running state: the store, the count of updated ads
   * (the live loop's updates plus the retired ads) and the failure of an
   * update, which ends the whole sync.
   */
  datatype Retiring = Retiring(disk: Disk, updatedAds: nat, failure: Option<StoreError>)

  /** One pass of the retiring loop: a stored ad missing from the listing and still active is retired. */
  function RetireAd(p: string, liveIds: set<Key>, now: string, r: Retiring, stored: AdData): Retiring {
    if r.failure.Some? then r
    else if stored.archiveId !in liveIds && stored.Active() then
      match UpdateStatusIn(r.disk, p, stored.archiveId, Retirement(now))
      case Ok(d) => Retiring(d, r.updatedAds + 1, None)
      case Err(e) => r.(failure := Some(e))
    else r
  }

  /** The retiring loop over `existing`, from `r`. */
  function Retire(p: string, liveIds: set<Key>, now: string, r: Retiring, existing: seq<AdData>): Retiring {
    if existing == [] then r
    else RetireAd(p, liveIds, now, Retire(p, liveIds, now, r, existing[..|existing| - 1]), existing[|existing| - 1])
  }

  /** The metadata an incremental sync writes: the stored document with fresh counters. */
  function IncrementalMetadata(metadata: Object, existing: seq<AdData>, newAds: nat, ads: seq<AdData>, now: string): Object {
    WithCounters(metadata, now, |existing| + newAds, ActiveCount(ads))
  }

  /** `incrementalSync(pageId)` in `session`, starting from `disk`, its directory listed as `listing`. */
  function IncrementalSpec(disk: Disk, pageId: string, now: string, session: Session, listing: seq<string>): Synced
    requires pageId in disk ==> IsListing(listing, disk[pageId])
  {
    match ReadMetadata(disk, pageId)
    case None => Synced(SyncResult(false, 0, [NoMetadata(pageId)], Some(Str(pageId))), disk)
    case Some(metadata) => IncrementalWithMetadata(disk, pageId, metadata, now, session, listing)
  }

  /** An incremental sync once the page's metadata has been read. */
  function IncrementalWithMetadata(disk: Disk, pageId: string, metadata: Object, now: string, session: Session,
                                   listing: seq<string>): Synced
    requires pageId in disk ==> IsListing(listing, disk[pageId])
  {
    match Scraped(0, session)
    case Err(e) => Synced(SyncResult(false, 0, [ScrapeFailed(e)], Some(Str(pageId))), disk)
    case Ok(ads) => IncrementalFromAds(disk, pageId, metadata, ListAds(disk, pageId, listing), ads, now)
  }

  /** An incremental sync once the metadata, the stored ads and the live ads are known. */
  function IncrementalFromAds(disk: Disk, pageId: string, metadata: Object, existing: seq<AdData>,
                              ads: seq<AdData>, now: string): Synced {
    var live := Reconcile(pageId, Ids(existing), Tally(disk, 0, 0, []), ads);
    var retiring := Retire(pageId, Ids(ads), now, Retiring(live.disk, live.updatedAds, None), existing);
    var ok := SyncResult(true, |ads|, live.errors, Some(Str(pageId)));
    match retiring.failure
    case Some(e) => Synced(ok.(success := false, errors := live.errors + [StoreFailed(e)]), retiring.disk)
    case None =>
      match SaveMetadataTo(retiring.disk, IncrementalMetadata(metadata, existing, live.newAds, ads, now))
      case Ok(d) => Synced(ok, d)
      case Err(e) => Synced(ok.(success := false, errors := live.errors + [StoreFailed(e)]), retiring.disk)
  }

  /** The ads a live loop counts as new: unknown ids whose page id is a string. */
  function NewCount(existingIds: set<Key>, ads: seq<AdData>): (n: nat)
    ensures n <= |ads|
  {
    if ads == [] then 0
    else
      var ad := ads[|ads| - 1];
      NewCount(existingIds, ads[..|ads| - 1])
        + (if ad.archiveId !in existingIds && PageDir(ad.pageId).Some? then 1 else 0)
  }

  /**
   * The live loop counts as new exactly the unknown ads it manages to save,
   * and every ad is counted at most once: as new, as updated or as an error.
   */
  lemma {:induction false} ReconcileCounts(p: string, existingIds: set<Key>, t: Tally, ads: seq<AdData>)
    ensures Reconcile(p, existingIds, t, ads).newAds == t.newAds + NewCount(existingIds, ads)
    ensures var r := Reconcile(p, existingIds, t, ads);
      r.newAds + r.updatedAds + |r.errors| <= t.newAds + t.updatedAds + |t.errors| + |ads|
    ensures t.errors <= Reconcile(p, existingIds, t, ads).errors
    decreases |ads|
  {
    if ads != [] {
      ReconcileCounts(p, existingIds, t, ads[..|ads| - 1]);
    }
  }

  /**
   * Whether one pass of the live loop over `disk` counts `ad` as updated: its
   * id is known, its stored record can be read and has changed, and the save
   * succeeds.
   */
  predicate CountsAsUpdated(p: string, existingIds: set<Key>, disk: Disk, ad: AdData) {
    && ad.archiveId in existingIds
    && ReadAd(disk, p, ad.archiveId).Some?
    && HasChanged(ReadAd(disk, p, ad.archiveId).value, ad)
    && PageDir(ad.pageId).Some?
  }

  /** The ads that a live loop starting from `disk` counts as updated, each judged against `disk`. */
  function ChangedCount(p: string, existingIds: set<Key>, disk: Disk, ads: seq<AdData>): (n: nat)
    ensures n <= |ads|
  {
    if ads == [] then 0
    else
      ChangedCount(p, existingIds, disk, ads[..|ads| - 1])
        + (if CountsAsUpdated(p, existingIds, disk, ads[|ads| - 1]) then 1 else 0)
  }

  /** No live ad of page `p` is saved over the file that a later live ad reads. */
  predicate SeparateFiles(p: string, ads: seq<AdData>) {
    forall i, j :: 0 <= i < j < |ads| && ads[i].pageId == Some(Str(p)) ==>
      AdFileName(ads[i].archiveId) != AdFileName(ads[j].archiveId)
  }

  /** One pass of the live loop counts its ad as updated exactly when `CountsAsUpdated` holds. */
  lemma ReconcileAdCounts(p: string, existingIds: set<Key>, t: Tally, ad: AdData)
    ensures ReconcileAd(p, existingIds, t, ad).updatedAds
      == t.updatedAds + (if CountsAsUpdated(p, existingIds, t.disk, ad) then 1 else 0)
  {
  }

  /** The live loop leaves file `name` of page `p` alone when no ad of page `p` is saved under that name. */
  lemma {:induction false} ReconcileKeepsFile(p: string, existingIds: set<Key>, t: Tally, ads: seq<AdData>, name: string)
    requires forall i :: 0 <= i < |ads| && ads[i].pageId == Some(Str(p)) ==> AdFileName(ads[i].archiveId) != name
    ensures FileAt(Reconcile(p, existingIds, t, ads).disk, p, name) == FileAt(t.disk, p, name)
    decreases |ads|
  {
    if ads != [] {
      var init, ad := ads[..|ads| - 1], ads[|ads| - 1];
      assert forall i :: 0 <= i < |init| ==> init[i] == ads[i];
      ReconcileKeepsFile(p, existingIds, t, init, name);
      var before := Reconcile(p, existingIds, t, init);
      var after := ReconcileAd(p, existingIds, before, ad).disk;
      if after != before.disk {
        assert after == SaveAdTo(before.disk, ad).value;
      }
    }
  }

  /**
   * When no live ad overwrites the file a later one reads, the live loop
   * counts as updated exactly the known ads whose stored record exists,
   * has changed and saves.
   */
  lemma {:induction false} ReconcileUpdatedCount(p: string, existingIds: set<Key>, t: Tally, ads: seq<AdData>)
    requires SeparateFiles(p, ads)
    ensures Reconcile(p, existingIds, t, ads).updatedAds == t.updatedAds + ChangedCount(p, existingIds, t.disk, ads)
    decreases |ads|
  {
    if ads != [] {
      var n := |ads| - 1;
      var init, ad := ads[..n], ads[n];
      assert forall i :: 0 <= i < n ==> init[i] == ads[i];
      ReconcileUpdatedCount(p, existingIds, t, init);
      ReconcileKeepsFile(p, existingIds, t, init, AdFileName(ad.archiveId));
      ReconcileAdCounts(p, existingIds, Reconcile(p, existingIds, t, init), ad);
    }
  }

  /** An ad record the store can hold and compare: its own page, a string id, fields `===` can compare. */
  predicate ProperAd(p: string, ad: AdData) {
    && ad.pageId == Some(Str(p))
    && ad.archiveId.Some? && ad.archiveId.value.Str?
    && ad.WellFormed()
    && Primitive(ad.isActive) && Primitive(ad.stopTime)
  }

  /** Every ad of `ads` is stored for page `p` and the stored record has not changed. */
  ghost predicate Settled(disk: Disk, p: string, ads: seq<AdData>) {
    forall i :: 0 <= i < |ads| ==>
      ReadAd(disk, p, ads[i].archiveId).Some? && !HasChanged(ReadAd(disk, p, ads[i].archiveId).value, ads[i])
  }

  /** The live loop never loses a readable ad file: it only writes parsed documents. */
  lemma {:induction false} ReconcileKeepsReadable(p: string, existingIds: set<Key>, t: Tally, ads: seq<AdData>, id: Key)
    requires ReadAd(t.disk, p, id).Some?
    ensures ReadAd(Reconcile(p, existingIds, t, ads).disk, p, id).Some?
    decreases |ads|
  {
    if ads != [] {
      ReconcileKeepsReadable(p, existingIds, t, ads[..|ads| - 1], id);
      var before := Reconcile(p, existingIds, t, ads[..|ads| - 1]);
      ReconcileAdKeepsFiles(p, existingIds, before, ads[|ads| - 1], AdFileName(id));
    }
  }

  /** One pass of the live loop leaves every parsed file parsed. */
  lemma {:induction false} ReconcileAdKeepsFiles(p: string, existingIds: set<Key>, t: Tally, ad: AdData, name: string)
    requires ReadObject(t.disk, p, name).Some?
    ensures ReadObject(ReconcileAd(p, existingIds, t, ad).disk, p, name).Some?
  {
    var after := ReconcileAd(p, existingIds, t, ad).disk;
    if after != t.disk {
      assert after == SaveAdTo(t.disk, ad).value;
    }
  }

  /**
   * After the live loop, every live ad of the page is stored unchanged, and
   * no error was reported: the ads must belong to page `p`, have string
   * ids, no repeated id, and every known id must be readable.
   */
  lemma {:induction false} ReconcileSettles(p: string, existingIds: set<Key>, t: Tally, ads: seq<AdData>)
    requires forall i :: 0 <= i < |ads| ==> ProperAd(p, ads[i])
    requires DistinctIds(ads)
    requires forall i :: 0 <= i < |ads| && ads[i].archiveId in existingIds ==> ReadAd(t.disk, p, ads[i].archiveId).Some?
    ensures Settled(Reconcile(p, existingIds, t, ads).disk, p, ads)
    ensures Reconcile(p, existingIds, t, ads).errors == t.errors
    decreases |ads|
  {
    if ads != [] {
      var n := |ads| - 1;
      var init, ad := ads[..n], ads[n];
      DistinctPrefix(ads, n);
      assert forall i :: 0 <= i < n ==> init[i] == ads[i];
      ReconcileSettles(p, existingIds, t, init);
      if ad.archiveId in existingIds {
        ReconcileKeepsReadable(p, existingIds, t, init, ad.archiveId);
      }
      ReconcileAdSettles(p, existingIds, Reconcile(p, existingIds, t, init), init, ad);
      assert init + [ad] == ads;
    }
  }

  /** One pass of the live loop keeps the earlier live ads settled and settles its own ad. */
  lemma {:induction false} ReconcileAdSettles(p: string, existingIds: set<Key>, t: Tally, init: seq<AdData>, ad: AdData)
    requires forall i :: 0 <= i < |init| ==> ProperAd(p, init[i])
    requires ProperAd(p, ad)
    requires forall i :: 0 <= i < |init| ==> init[i].archiveId != ad.archiveId
    requires Settled(t.disk, p, init)
    requires ad.archiveId in existingIds ==> ReadAd(t.disk, p, ad.archiveId).Some?
    ensures Settled(ReconcileAd(p, existingIds, t, ad).disk, p, init + [ad])
    ensures ReconcileAd(p, existingIds, t, ad).errors == t.errors
  {
    var t2 := ReconcileAd(p, existingIds, t, ad);
    var ads := init + [ad];
    if t2.disk != t.disk {
      // the ad was saved: it reads back as itself, and every earlier live ad's file is untouched
      assert t2.disk == SaveAdTo(t.disk, ad).value;
      SaveThenGetAd(t.disk, ad, p);
      forall i | 0 <= i < |init|
        ensures ReadAd(t2.disk, p, init[i].archiveId) == ReadAd(t.disk, p, init[i].archiveId)
      {
        AdFileNames(init[i].archiveId.value.s, ad.archiveId.value.s);
      }
    }
    forall i | 0 <= i < |ads|
      ensures ReadAd(t2.disk, p, ads[i].archiveId).Some?
        && !HasChanged(ReadAd(t2.disk, p, ads[i].archiveId).value, ads[i])
    {
      if i < |init| {
        assert ads[i] == init[i];
      }
    }
  }

  /** Once every live ad is stored unchanged, the live loop saves nothing and counts nothing. */
  lemma {:induction false} ReconcileIdempotent(p: string, existingIds: set<Key>, t: Tally, ads: seq<AdData>)
    requires Settled(t.disk, p, ads)
    requires forall i :: 0 <= i < |ads| ==> ads[i].archiveId in existingIds
    ensures Reconcile(p, existingIds, t, ads) == t
    decreases |ads|
  {
    if ads != [] {
      var init := ads[..|ads| - 1];
      assert forall i :: 0 <= i < |init| ==> init[i] == ads[i];
      ReconcileIdempotent(p, existingIds, t, init);
    }
  }

  /**
   * Running the live loop twice over the same listing: the second pass,
   * which knows every live id, saves nothing, counts nothing new or updated
   * and reports nothing.
   */
  lemma SecondPassIsQuiet(disk: Disk, p: string, existingIds: set<Key>, knownIds: set<Key>, ads: seq<AdData>)
    requires forall i :: 0 <= i < |ads| ==> ProperAd(p, ads[i])
    requires DistinctIds(ads)
    requires forall i :: 0 <= i < |ads| && ads[i].archiveId in existingIds ==> ReadAd(disk, p, ads[i].archiveId).Some?
    requires forall i :: 0 <= i < |ads| ==> ads[i].archiveId in knownIds
    ensures var first := Reconcile(p, existingIds, Tally(disk, 0, 0, []), ads);
      Reconcile(p, knownIds, Tally(first.disk, 0, 0, []), ads) == Tally(first.disk, 0, 0, [])
  {
    var first := Reconcile(p, existingIds, Tally(disk, 0, 0, []), ads);
    ReconcileSettles(p, existingIds, Tally(disk, 0, 0, []), ads);
    ReconcileIdempotent(p, knownIds, Tally(first.disk, 0, 0, []), ads);
  }

  /** The stored ads that the retiring loop retires: gone from the listing and still active. */
  function RetireCount(liveIds: set<Key>, existing: seq<AdData>): (n: nat)
    ensures n <= |existing|
  {
    if existing == [] then 0
    else
      var e := existing[|existing| - 1];
      RetireCount(liveIds, existing[..|existing| - 1]) + (if e.archiveId !in liveIds && e.Active() then 1 else 0)
  }

  /** A failed update ends the retiring loop: nothing after it is touched. */
  lemma {:induction false} RetireStopsAtFailure(p: string, liveIds: set<Key>, now: string, r: Retiring, existing: seq<AdData>)
    requires r.failure.Some?
    ensures Retire(p, liveIds, now, r, existing) == r
    decreases |existing|
  {
    if existing != [] {
      RetireStopsAtFailure(p, liveIds, now, r, existing[..|existing| - 1]);
    }
  }

  /**
   * When no update fails, the retiring loop retires exactly the stored ads
   * that are gone from the listing and still active.
   */
  lemma {:induction false} RetireCounts(p: string, liveIds: set<Key>, now: string, r: Retiring, existing: seq<AdData>)
    requires r.failure.None?
    ensures var out := Retire(p, liveIds, now, r, existing);
      out.failure.None? ==> out.updatedAds == r.updatedAds + RetireCount(liveIds, existing)
    decreases |existing|
  {
    if existing != [] {
      var init := existing[..|existing| - 1];
      var before := Retire(p, liveIds, now, r, init);
      if before.failure.None? {
        RetireCounts(p, liveIds, now, r, init);
      } else {
        assert Retire(p, liveIds, now, r, existing) == before;
      }
    }
  }

  /** A retired record: `is_active` 0 and the stop time `now`, every other field kept. */
  lemma {:induction false} RetiredRecord(ad: AdData, now: string)
    ensures var retired := Merge(ad, Retirement(now));
      && retired.isActive == Some(Num(0))
      && retired.stopTime == Some(Str(now))
      && retired.archiveId == ad.archiveId && retired.pageId == ad.pageId
      && (forall k :: k != IsActiveKey && k != StopTimeKey ==> Field(retired, k) == Field(ad, k))
  {
    var retired := Merge(ad, Retirement(now));
    assert Field(retired, IsActiveKey) == Some(Num(0));
    assert Field(retired, StopTimeKey) == Some(Str(now));
    assert Field(retired, PageIdKey) == Field(ad, PageIdKey);
    assert Field(retired, ArchiveIdKey) == Field(ad, ArchiveIdKey);
  }

  /**
   * One pass of the retiring loop on an active ad gone from the listing
   * whose record is stored under its own page and id: the stored record is
   * replaced by its retired form and the ad is counted.
   */
  lemma {:induction false} RetireAdRetires(p: string, liveIds: set<Key>, now: string, r: Retiring, e: AdData)
    requires r.failure.None? && e.archiveId !in liveIds && e.Active()
    requires ReadAd(r.disk, p, e.archiveId).Some?
    requires ReadAd(r.disk, p, e.archiveId).value.pageId == Some(Str(p))
    requires AdFileName(ReadAd(r.disk, p, e.archiveId).value.archiveId) == AdFileName(e.archiveId)
    ensures RetireAd(p, liveIds, now, r, e).failure.None?
    ensures RetireAd(p, liveIds, now, r, e).updatedAds == r.updatedAds + 1
    ensures ReadAd(RetireAd(p, liveIds, now, r, e).disk, p, e.archiveId)
      == Some(Merge(ReadAd(r.disk, p, e.archiveId).value, Retirement(now)))
  {
    var stored := ReadAd(r.disk, p, e.archiveId).value;
    var merged := Merge(stored, Retirement(now));
    RetiredRecord(stored, now);
    SaveThenGetAd(r.disk, merged, p);
  }

  /**
   * A page with no readable metadata document fails the incremental sync
   * with a single error, before any scrape: whatever the browser session
   * would yield, nothing is fetched and the store is left as it was.
   */
  lemma MissingMetadataFailsEarly(disk: Disk, p: string, now: string, session: Session, listing: seq<string>)
    requires p in disk ==> IsListing(listing, disk[p])
    requires ReadMetadata(disk, p).None?
    ensures IncrementalSpec(disk, p, now, session, listing)
      == Synced(SyncResult(false, 0, [NoMetadata(p)], Some(Str(p))), disk)
  {
  }

  /**
   * The outcome of an incremental sync once the metadata, the stored ads
   * and the live ads are known: it reports every live ad fetched and the
   * errors of the live loop; it fails exactly when an update of the
   * retiring loop or the metadata save fails; on success the store is the
   * one the retiring loop left, with the metadata saved, and the page's
   * metadata document is replaced by the stored one with fresh counters
   * (see `CountersOfWithCounters`): a total of the stored ads plus the new
   * ones and the live active count.
   */
  lemma {:induction false} IncrementalOutcome(disk: Disk, p: string, metadata: Object, existing: seq<AdData>,
                                              ads: seq<AdData>, now: string)
    ensures var out := IncrementalFromAds(disk, p, metadata, existing, ads, now);
      var live := Reconcile(p, Ids(existing), Tally(disk, 0, 0, []), ads);
      var retiring := Retire(p, Ids(ads), now, Retiring(live.disk, live.updatedAds, None), existing);
      && out.result.totalFetched == |ads|
      && out.result.pageId == Some(Str(p))
      && (out.result.success <==> retiring.failure.None? && PageDir(Lookup(metadata, PageIdKey)).Some?)
      && out.result.errors == live.errors + (if out.result.success then [] else [StoreFailed(PageIdNotString)])
      && (out.result.success ==>
            out.disk == SaveMetadataTo(retiring.disk, IncrementalMetadata(metadata, existing, live.newAds, ads, now)).value)
      && (out.result.success && Lookup(metadata, PageIdKey) == Some(Str(p)) ==>
            ReadMetadata(out.disk, p) == Some(IncrementalMetadata(metadata, existing, live.newAds, ads, now)))
  {
    var live := Reconcile(p, Ids(existing), Tally(disk, 0, 0, []), ads);
    var retiring := Retire(p, Ids(ads), now, Retiring(live.disk, live.updatedAds, None), existing);
    var m := IncrementalMetadata(metadata, existing, live.newAds, ads, now);
    assert Lookup(m, PageIdKey) == Lookup(metadata, PageIdKey);
    if retiring.failure.Some? {
      assert retiring.failure.value == PageIdNotString;
    }
  }

  /**
   * Scenario: three active ads are stored and the listing still shows two
   * of them, unchanged.  The sync succeeds with two ads fetched and no
   * error, the missing ad is stored as inactive with stop time `now`, the
   * others are stored as they were, and the counters are total 3, active 2,
   * inactive 1.
   */
  lemma OneOfThreeGone(disk: Disk, p: string, metadata: Object, a1: AdData, a2: AdData, a3: AdData, now: string)
    requires ProperAd(p, a1) && ProperAd(p, a2) && ProperAd(p, a3)
    requires a1.Active() && a2.Active() && a3.Active()
    requires a1.archiveId != a2.archiveId && a1.archiveId != a3.archiveId && a2.archiveId != a3.archiveId
    requires a3.archiveId != Some(Str("metadata"))
    requires ReadAd(disk, p, a1.archiveId) == Some(a1) && ReadAd(disk, p, a2.archiveId) == Some(a2)
    requires ReadAd(disk, p, a3.archiveId) == Some(a3)
    requires Lookup(metadata, PageIdKey) == Some(Str(p))
    ensures var out := IncrementalFromAds(disk, p, metadata, [a1, a2, a3], [a1, a2], now);
      && out.result == SyncResult(true, 2, [], Some(Str(p)))
      && ReadAd(out.disk, p, a3.archiveId).Some?
      && ReadAd(out.disk, p, a3.archiveId).value.isActive == Some(Num(0))
      && ReadAd(out.disk, p, a3.archiveId).value.stopTime == Some(Str(now))
      && var m := ReadMetadata(out.disk, p);
      && m.Some?
      && Lookup(m.value, TotalAdsKey) == Some(Num(3))
      && Lookup(m.value, ActiveAdsKey) == Some(Num(2))
      && Lookup(m.value, InactiveAdsKey) == Some(Num(1))
  {
    var existing, ads := [a1, a2, a3], [a1, a2];
    LiveAdsUnchanged(disk, p, a1, a2, a3);
    MissingAdRetired(disk, p, a1, a2, a3, now);
    var r := Retire(p, Ids(ads), now, Retiring(disk, 0, None), existing);
    IncrementalOutcome(disk, p, metadata, existing, ads, now);
    assert ActiveCount(ads) == 2;
    var m := IncrementalMetadata(metadata, existing, 0, ads, now);
    CountersOfWithCounters(metadata, now, 3, 2);
    // the metadata save does not touch the retired ad's file
    SaveMetadataKeepsAds(r.disk, m, p, a3.archiveId.value.s);
    RetiredRecord(a3, now);
  }

  /**
   * The same scenario from the page's directory: it holds the three ad files
   * and the metadata document, listed in that order, and the scrape yields
   * the first two ads.  `getMetadata` and `getAllAds` read back the metadata
   * and the three ads, and the sync then ends as in `OneOfThreeGone`.
   */
  lemma OneOfThreeGoneStored(disk: Disk, p: string, metadata: Object, a1: AdData, a2: AdData, a3: AdData, now: string,
                             session: Session, listing: seq<string>)
    requires ProperAd(p, a1) && ProperAd(p, a2) && ProperAd(p, a3)
    requires a1.Active() && a2.Active() && a3.Active()
    requires a1.archiveId != Some(Str("metadata")) && a2.archiveId != Some(Str("metadata"))
    requires a3.archiveId != Some(Str("metadata"))
    requires p in disk
    requires listing == [AdFileName(a1.archiveId), AdFileName(a2.archiveId), AdFileName(a3.archiveId), MetadataFile]
    requires IsListing(listing, disk[p])
    requires FileAt(disk, p, listing[0]) == Some(Parsed(ToObject(a1)))
    requires FileAt(disk, p, listing[1]) == Some(Parsed(ToObject(a2)))
    requires FileAt(disk, p, listing[2]) == Some(Parsed(ToObject(a3)))
    requires FileAt(disk, p, MetadataFile) == Some(Parsed(metadata))
    requires Lookup(metadata, PageIdKey) == Some(Str(p))
    requires Scraped(0, session) == Ok([a1, a2])
    ensures var out := IncrementalSpec(disk, p, now, session, listing);
      && out.result == SyncResult(true, 2, [], Some(Str(p)))
      && ReadAd(out.disk, p, a3.archiveId).Some?
      && ReadAd(out.disk, p, a3.archiveId).value.isActive == Some(Num(0))
      && ReadAd(out.disk, p, a3.archiveId).value.stopTime == Some(Str(now))
      && var m := ReadMetadata(out.disk, p);
      && m.Some?
      && Lookup(m.value, TotalAdsKey) == Some(Num(3))
      && Lookup(m.value, ActiveAdsKey) == Some(Num(2))
      && Lookup(m.value, InactiveAdsKey) == Some(Num(1))
  {
    StoredThree(disk, p, a1, a2, a3, listing);
    OneOfThreeGone(disk, p, metadata, a1, a2, a3, now);
  }

  /** In the scenario above, `getAllAds` reads back the three ads in listing order, each under its own id. */
  lemma StoredThree(disk: Disk, p: string, a1: AdData, a2: AdData, a3: AdData, listing: seq<string>)
    requires ProperAd(p, a1) && ProperAd(p, a2) && ProperAd(p, a3)
    requires a1.archiveId != Some(Str("metadata")) && a2.archiveId != Some(Str("metadata"))
    requires a3.archiveId != Some(Str("metadata"))
    requires p in disk
    requires listing == [AdFileName(a1.archiveId), AdFileName(a2.archiveId), AdFileName(a3.archiveId), MetadataFile]
    requires IsListing(listing, disk[p])
    requires FileAt(disk, p, listing[0]) == Some(Parsed(ToObject(a1)))
    requires FileAt(disk, p, listing[1]) == Some(Parsed(ToObject(a2)))
    requires FileAt(disk, p, listing[2]) == Some(Parsed(ToObject(a3)))
    ensures ListAds(disk, p, listing) == [a1, a2, a3]
    ensures a1.archiveId != a2.archiveId && a1.archiveId != a3.archiveId && a2.archiveId != a3.archiveId
    ensures ReadAd(disk, p, a1.archiveId) == Some(a1) && ReadAd(disk, p, a2.archiveId) == Some(a2)
    ensures ReadAd(disk, p, a3.archiveId) == Some(a3)
  {
    AdFileNames(a1.archiveId.value.s, a2.archiveId.value.s);
    AdFileNames(a1.archiveId.value.s, a3.archiveId.value.s);
    AdFileNames(a2.archiveId.value.s, a3.archiveId.value.s);
    var f1, f2, f3 := listing[0], listing[1], listing[2];
    IdFileIsAdFile(a1.archiveId);
    IdFileIsAdFile(a2.archiveId);
    IdFileIsAdFile(a3.archiveId);
    AdFilesOfThree(f1, f2, f3);
    ParseThree(disk[p], f1, f2, f3, ToObject(a1), ToObject(a2), ToObject(a3));
    ObjectRoundTrip(a1);
    ObjectRoundTrip(a2);
    ObjectRoundTrip(a3);
  }

  /** Three parsed files are read into their three records, in order. */
  lemma ParseThree(dir: Dir, f1: string, f2: string, f3: string, o1: Object, o2: Object, o3: Object)
    requires f1 in dir && f2 in dir && f3 in dir
    requires dir[f1] == Parsed(o1) && dir[f2] == Parsed(o2) && dir[f3] == Parsed(o3)
    ensures ParseAll(dir, [f1, f2, f3]) == Some([FromObject(o1), FromObject(o2), FromObject(o3)])
  {
    var r1, r2, r3 := FromObject(o1), FromObject(o2), FromObject(o3);
    ParseSnoc(dir, [], f1, o1, []);
    assert [] + [f1] == [f1] && [] + [r1] == [r1];
    ParseSnoc(dir, [f1], f2, o2, [r1]);
    assert [f1] + [f2] == [f1, f2] && [r1] + [r2] == [r1, r2];
    ParseSnoc(dir, [f1, f2], f3, o3, [r1, r2]);
    assert [f1, f2] + [f3] == [f1, f2, f3] && [r1, r2] + [r3] == [r1, r2, r3];
  }

  /** One more parsed file appends its record. */
  lemma ParseSnoc(dir: Dir, files: seq<string>, f: string, o: Object, rs: seq<AdData>)
    requires forall n :: n in files ==> n in dir
    requires f in dir && dir[f] == Parsed(o)
    requires ParseAll(dir, files) == Some(rs)
    ensures ParseAll(dir, files + [f]) == Some(rs + [FromObject(o)])
  {
    assert (files + [f])[..|files|] == files;
  }

  /** A string id other than "metadata" names an ad file. */
  lemma IdFileIsAdFile(id: Key)
    requires id.Some? && id.value.Str? && id != Some(Str("metadata"))
    ensures IsAdFile(AdFileName(id))
  {
    AdFileNames(id.value.s, id.value.s);
  }

  /** Of three ad files and the metadata document, `getAllAds` keeps the three ad files in order. */
  lemma AdFilesOfThree(f1: string, f2: string, f3: string)
    requires IsAdFile(f1) && IsAdFile(f2) && IsAdFile(f3)
    ensures AdFiles([f1, f2, f3, MetadataFile]) == [f1, f2, f3]
  {
    var listing := [f1, f2, f3, MetadataFile];
    assert listing[..3] == [f1, f2, f3] && [f1, f2, f3][..2] == [f1, f2] && [f1, f2][..1] == [f1] && [f1][..0] == [];
    assert AdFiles([f1]) == [f1];
    assert AdFiles([f1, f2]) == [f1, f2];
  }

  /** In the scenario above, the live loop finds both live ads stored unchanged and does nothing. */
  lemma LiveAdsUnchanged(disk: Disk, p: string, a1: AdData, a2: AdData, a3: AdData)
    requires ProperAd(p, a1) && ProperAd(p, a2)
    requires ReadAd(disk, p, a1.archiveId) == Some(a1) && ReadAd(disk, p, a2.archiveId) == Some(a2)
    ensures Reconcile(p, Ids([a1, a2, a3]), Tally(disk, 0, 0, []), [a1, a2]) == Tally(disk, 0, 0, [])
  {
    var ads := [a1, a2];
    assert a1 in [a1, a2, a3] && a2 in [a1, a2, a3];
    assert Settled(disk, p, ads);
    ReconcileIdempotent(p, Ids([a1, a2, a3]), Tally(disk, 0, 0, []), ads);
  }

  /** In the scenario above, the retiring loop skips both live ads and retires the third. */
  lemma MissingAdRetired(disk: Disk, p: string, a1: AdData, a2: AdData, a3: AdData, now: string)
    requires ProperAd(p, a3) && a3.Active()
    requires Primitive(a1.archiveId) && Primitive(a2.archiveId)
    requires a1.archiveId != a3.archiveId && a2.archiveId != a3.archiveId
    requires ReadAd(disk, p, a3.archiveId) == Some(a3)
    ensures var r := Retire(p, Ids([a1, a2]), now, Retiring(disk, 0, None), [a1, a2, a3]);
      && r.failure.None? && r.updatedAds == 1
      && ReadAd(r.disk, p, a3.archiveId) == Some(Merge(a3, Retirement(now)))
  {
    var existing, ads := [a1, a2, a3], [a1, a2];
    var r0 := Retiring(disk, 0, None);
    assert existing[..2] == ads && ads[..1] == [a1] && [a1][..0] == [];
    assert a1 in ads && a2 in ads;
    assert a3.archiveId !in Ids(ads);
    assert Retire(p, Ids(ads), now, r0, [a1]) == r0;
    assert Retire(p, Ids(ads), now, r0, ads) == r0;
    RetireAdRetires(p, Ids(ads), now, r0, a3);
  }

  // ---------------------------------------------------------------------
  // The sync manager
  // ---------------------------------------------------------------------

  /** Some order in which `fs.readdir` may list the names. */
  ghost function ListingOf(names: set<string>): (listing: seq<string>)
    ensures forall n :: n in listing <==> n in names
    ensures forall i, j :: 0 <= i < j < |listing| ==> listing[i] != listing[j]
    decreases names
  {
    if names == {} then []
    else
      var n :| n in names;
      [n] + ListingOf(names - {n})
  }

  class SyncManager {
    const storage: StorageManager
    const scraper: MetaAdsScraper

    ghost predicate Valid()
      reads scraper
    {
      scraper.Valid()
    }

    /** A manager over a base directory that currently holds `contents`, with no browser open. */
    constructor(contents: Disk)
      ensures Valid() && fresh(storage) && fresh(scraper)
      ensures storage.disk == contents && !scraper.browser && !scraper.page
    {
      storage := new StorageManager(contents);
      scraper := new MetaAdsScraper();
    }

    /**
     * `initialSync(url, max)`: scrapes the listing, saves every ad and the
     * page's metadata, and closes the browser on every path.
     */
    method InitialSync(url: string, max: int, now: string, session: Session) returns (result: SyncResult)
      requires Valid()
      modifies storage, scraper
      ensures Valid() && !scraper.browser && !scraper.page
      ensures Synced(result, storage.disk) == InitialSpec(old(storage.disk), max, now, session)
    {
      ghost var disk := storage.disk;
      var errors: seq<SyncError> := [];
      var pageId: Option<Json> := Some(Str(""));
      var totalFetched: nat := 0;
      var launched := scraper.Initialize(session.launchOk);
      if launched.Fail? {
        scraper.Close();
        return SyncResult(false, totalFetched, errors + [ScrapeFailed(launched.error)], pageId);
      }
      var scraped := scraper.ScrapeAds(url, max, session.gotoOk, session.arrivals, session.scrolls);
      if scraped.Err? {
        scraper.Close();
        return SyncResult(false, totalFetched, errors + [ScrapeFailed(scraped.error)], pageId);
      }
      var ads := scraped.value;
      assert Scraped(max, session) == Ok(ads);
      assert InitialSpec(disk, max, now, session) == InitialFromAds(disk, ads, now);
      totalFetched := |ads|;
      if |ads| == 0 {
        scraper.Close();
        return SyncResult(false, totalFetched, errors + [NoAdsFound], pageId);
      }
      pageId := ads[0].pageId;
      var pageName := ads[0].pageName;
      errors := SaveAll(ads);
      ghost var saved := SaveEach(disk, ads);
      var activeAds := ActiveCount(ads);
      var metadata := WithCounters(Put(Put(map[], PageIdKey, pageId), PageNameKey, pageName), now, |ads|, activeAds);
      assert metadata == InitialMetadata(ads, now);
      var r := storage.SaveMetadata(metadata);
      scraper.Close();
      if r.Fail? {
        assert InitialFromAds(disk, ads, now) == Synced(SyncResult(false, |ads|, saved.errors + [StoreFailed(r.error)], pageId), saved.disk);
        return SyncResult(false, totalFetched, errors + [StoreFailed(r.error)], pageId);
      }
      assert InitialFromAds(disk, ads, now) == Synced(SyncResult(true, |ads|, saved.errors, pageId), storage.disk);
      return SyncResult(true, totalFetched, errors, pageId);
    }

    /** The saving loop of `initialSync`: a failed save is reported and the loop goes on. */
    method SaveAll(ads: seq<AdData>) returns (errors: seq<SyncError>)
      modifies storage
      ensures Batch(storage.disk, errors) == SaveEach(old(storage.disk), ads)
    {
      errors := [];
      for i := 0 to |ads|
        invariant Batch(storage.disk, errors) == SaveEach(old(storage.disk), ads[..i])
      {
        assert ads[..i + 1][..i] == ads[..i];
        var r := storage.SaveAd(ads[i]);
        if r.Fail? {
          errors := errors + [SaveFailed(ads[i].archiveId, r.error)];
        }
      }
      assert ads[..|ads|] == ads;
    }

    /**
     * `incrementalSync(pageId)`: reconciles the page's live listing with the
     * stored ads and refreshes the metadata, closing the browser on every
     * path.  `listing` is the order in which the page directory was read.
     */
    method IncrementalSync(pageId: string, now: string, session: Session)
      returns (result: SyncResult, ghost listing: seq<string>)
      requires Valid()
      modifies storage, scraper
      ensures Valid() && !scraper.browser && !scraper.page
      ensures pageId in old(storage.disk) ==> IsListing(listing, old(storage.disk)[pageId])
      ensures Synced(result, storage.disk) == IncrementalSpec(old(storage.disk), pageId, now, session, listing)
    {
      ghost var disk := storage.disk;
      var metadata := storage.GetMetadata(pageId);
      if metadata.None? {
        listing := if pageId in storage.disk then ListingOf(storage.disk[pageId].Keys) else [];
        scraper.Close();
        return SyncResult(false, 0, [NoMetadata(pageId)], Some(Str(pageId))), listing;
      }
      result, listing := FetchAndApply(pageId, metadata.value, now, session);
      scraper.Close();
    }

    /** The part of `incrementalSync` after the metadata check: the scrape and everything after it. */
    method FetchAndApply(pageId: string, metadata: Object, now: string, session: Session)
      returns (result: SyncResult, ghost listing: seq<string>)
      requires Valid()
      modifies storage, scraper
      ensures Valid()
      ensures pageId in old(storage.disk) ==> IsListing(listing, old(storage.disk)[pageId])
      ensures Synced(result, storage.disk)
        == IncrementalWithMetadata(old(storage.disk), pageId, metadata, now, session, listing)
    {
      ghost var disk := storage.disk;
      listing := if pageId in storage.disk then ListingOf(storage.disk[pageId].Keys) else [];
      var url := IncrementalUrl(pageId);
      var launched := scraper.Initialize(session.launchOk);
      if launched.Fail? {
        assert Scraped(0, session) == Err(LaunchFailed);
        return SyncResult(false, 0, [ScrapeFailed(launched.error)], Some(Str(pageId))), listing;
      }
      var scraped := scraper.ScrapeAds(url, 0, session.gotoOk, session.arrivals, session.scrolls);
      if scraped.Err? {
        assert Scraped(0, session) == Err(ScrapingFailed);
        return SyncResult(false, 0, [ScrapeFailed(scraped.error)], Some(Str(pageId))), listing;
      }
      var ads := scraped.value;
      assert Scraped(0, session) == Ok(ads);
      result, listing := ApplyListing(pageId, metadata, ads, now);
    }

    /**
     * The part of `incrementalSync` after the scrape: the live loop, the
     * retiring loop and the metadata refresh, for the live ads `ads`.
     */
    method ApplyListing(pageId: string, metadata: Object, ads: seq<AdData>, now: string)
      returns (result: SyncResult, ghost listing: seq<string>)
      modifies storage
      ensures pageId in old(storage.disk) ==> IsListing(listing, old(storage.disk)[pageId])
      ensures Synced(result, storage.disk)
        == IncrementalFromAds(old(storage.disk), pageId, metadata, ListAds(old(storage.disk), pageId, listing), ads, now)
    {
      ghost var disk := storage.disk;
      var totalFetched: nat := |ads|;
      var existingAds;
      existingAds, listing := storage.GetAllAds(pageId);
      var newAds, updatedAds, errors;
      newAds, updatedAds, errors := ProcessLiveAds(pageId, Ids(existingAds), ads);
      var failure;
      updatedAds, failure := RetireMissingAds(pageId, Ids(ads), existingAds, now, updatedAds);
      ghost var retired := storage.disk;
      ghost var ok := SyncResult(true, |ads|, errors, Some(Str(pageId)));
      if failure.Some? {
        assert IncrementalFromAds(disk, pageId, metadata, existingAds, ads, now)
          == Synced(ok.(success := false, errors := errors + [StoreFailed(failure.value)]), storage.disk);
        return SyncResult(false, totalFetched, errors + [StoreFailed(failure.value)], Some(Str(pageId))), listing;
      }
      var updatedMetadata := IncrementalMetadata(metadata, existingAds, newAds, ads, now);
      var r := storage.SaveMetadata(updatedMetadata);
      if r.Fail? {
        assert IncrementalFromAds(disk, pageId, metadata, existingAds, ads, now)
          == Synced(ok.(success := false, errors := errors + [StoreFailed(r.error)]), retired);
        return SyncResult(false, totalFetched, errors + [StoreFailed(r.error)], Some(Str(pageId))), listing;
      }
      assert IncrementalFromAds(disk, pageId, metadata, existingAds, ads, now) == Synced(ok, storage.disk);
      return SyncResult(true, totalFetched, errors, Some(Str(pageId))), listing;
    }

    /**
     * The live loop of `incrementalSync`: saves the new ads and the changed
     * ones, counting each kind; a failed save is reported and the loop goes on.
     */
    method ProcessLiveAds(pageId: string, existingIds: set<Key>, ads: seq<AdData>)
      returns (newAds: nat, updatedAds: nat, errors: seq<SyncError>)
      modifies storage
      ensures Tally(storage.disk, newAds, updatedAds, errors)
        == Reconcile(pageId, existingIds, Tally(old(storage.disk), 0, 0, []), ads)
    {
      newAds, updatedAds, errors := 0, 0, [];
      for i := 0 to |ads|
        invariant Tally(storage.disk, newAds, updatedAds, errors)
          == Reconcile(pageId, existingIds, Tally(old(storage.disk), 0, 0, []), ads[..i])
      {
        assert ads[..i + 1][..i] == ads[..i];
        newAds, updatedAds, errors := ProcessAd(pageId, existingIds, ads[i], newAds, updatedAds, errors);
      }
      assert ads[..|ads|] == ads;
    }

    /** One pass of the live loop, its `try` included. */
    method ProcessAd(pageId: string, existingIds: set<Key>, ad: AdData, newAds: nat, updatedAds: nat, errors: seq<SyncError>)
      returns (newAds': nat, updatedAds': nat, errors': seq<SyncError>)
      modifies storage
      ensures Tally(storage.disk, newAds', updatedAds', errors')
        == ReconcileAd(pageId, existingIds, Tally(old(storage.disk), newAds, updatedAds, errors), ad)
    {
      newAds', updatedAds', errors' := newAds, updatedAds, errors;
      if ad.archiveId in existingIds {
        var existingAd := storage.GetAd(pageId, ad.archiveId);
        if existingAd.Some? && HasChanged(existingAd.value, ad) {
          var r := storage.SaveAd(ad);
          if r.Pass? {
            updatedAds' := updatedAds' + 1;
          } else {
            errors' := errors' + [ProcessFailed(ad.archiveId, r.error)];
          }
        }
      } else {
        var r := storage.SaveAd(ad);
        if r.Pass? {
          newAds' := newAds' + 1;
        } else {
          errors' := errors' + [ProcessFailed(ad.archiveId, r.error)];
        }
      }
    }

    /**
     * The retiring loop of `incrementalSync`: every stored ad missing from
     * the listing and still active is marked inactive as of `now`; the first
     * failed update stops the loop.
     */
    method RetireMissingAds(pageId: string, liveIds: set<Key>, existing: seq<AdData>, now: string, updatedAds: nat)
      returns (updated: nat, failure: Option<StoreError>)
      modifies storage
      ensures Retiring(storage.disk, updated, failure)
        == Retire(pageId, liveIds, now, Retiring(old(storage.disk), updatedAds, None), existing)
    {
      updated, failure := updatedAds, None;
      var i := 0;
      while i < |existing|
        invariant i <= |existing| && failure == None
        invariant Retiring(storage.disk, updated, None)
          == Retire(pageId, liveIds, now, Retiring(old(storage.disk), updatedAds, None), existing[..i])
      {
        ghost var start := Retiring(old(storage.disk), updatedAds, None);
        ghost var before := Retiring(storage.disk, updated, None);
        assert existing[..i + 1][..i] == existing[..i];
        assert Retire(pageId, liveIds, now, start, existing[..i + 1]) == RetireAd(pageId, liveIds, now, before, existing[i]);
        updated, failure := RetireIfMissing(pageId, liveIds, now, existing[i], updated);
        if failure.Some? {
          RetireEndsAtFailure(pageId, liveIds, now, start, existing, i + 1);
          return;
        }
        i := i + 1;
      }
      assert existing[..i] == existing;
    }

    /** One pass of the retiring loop. */
    method RetireIfMissing(pageId: string, liveIds: set<Key>, now: string, stored: AdData, updatedAds: nat)
      returns (updated: nat, failure: Option<StoreError>)
      modifies storage
      ensures Retiring(storage.disk, updated, failure)
        == RetireAd(pageId, liveIds, now, Retiring(old(storage.disk), updatedAds, None), stored)
    {
      updated, failure := updatedAds, None;
      if stored.archiveId !in liveIds && stored.Active() {
        var r := storage.UpdateAdStatus(pageId, stored.archiveId, Retirement(now));
        if r.Fail? {
          return updated, Some(r.error);
        }
        updated := updated + 1;
      }
    }
  }

  /** Once a prefix of the retiring loop has failed, the whole loop ends as that prefix did. */
  lemma RetireEndsAtFailure(p: string, liveIds: set<Key>, now: string, r: Retiring, existing: seq<AdData>, k: nat)
    requires k <= |existing|
    requires Retire(p, liveIds, now, r, existing[..k]).failure.Some?
    ensures Retire(p, liveIds, now, r, existing) == Retire(p, liveIds, now, r, existing[..k])
  {
    var rest := existing[k..];
    RetireStopsAtFailure(p, liveIds, now, Retire(p, liveIds, now, r, existing[..k]), rest);
    RetireAppend(p, liveIds, now, r, existing[..k], rest);
    assert existing[..k] + rest == existing;
  }

  /** The retiring loop over a concatenation runs over the first part, then the second. */
  lemma {:induction false} RetireAppend(p: string, liveIds: set<Key>, now: string, r: Retiring,
                                        xs: seq<AdData>, ys: seq<AdData>)
    ensures Retire(p, liveIds, now, r, xs + ys) == Retire(p, liveIds, now, Retire(p, liveIds, now, r, xs), ys)
    decreases |ys|
  {
    if ys == [] {
      assert xs + ys == xs;
    } else {
      assert (xs + ys)[..|xs + ys| - 1] == xs + ys[..|ys| - 1];
      RetireAppend(p, liveIds, now, r, xs, ys[..|ys| - 1]);
    }
  }
}
