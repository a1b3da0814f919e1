/**
 * Two incremental syncs of a page in a row, against the same live ads
 * (src/sync/SyncManager.ts:85-173): the first brings the page's store in
 * line with the listing, and the second then finds nothing to do.  It
 * counts no new, updated or retired ad and writes no ad file.
 *
 * This holds for a page directory that holds what the store itself
 * writes: every ad file parses and holds an ad of that page, stored
 * under its own string id (`Tidy`).
 */
module Resync {
  import opened Wrappers
  import opened JsonValue
  import opened Ads
  import opened Dedup
  import opened Storage
  import opened Sync

  /** File `n` of page `p` holds an ad of page `p` whose archive id is a string naming that file. */
  predicate HomeDoc(p: string, n: string, doc: Doc) {
    && doc.Parsed?
    && Lookup(doc.obj, PageIdKey) == Some(Str(p))
    && Lookup(doc.obj, ArchiveIdKey).Some? && Lookup(doc.obj, ArchiveIdKey).value.Str?
    && AdFileName(Lookup(doc.obj, ArchiveIdKey)) == n
  }

  /** Every ad file of page `p` holds an ad of page `p` under its own id. */
  ghost predicate Tidy(disk: Disk, p: string) {
    forall n :: IsAdFile(n) && FileAt(disk, p, n).Some? ==> HomeDoc(p, n, FileAt(disk, p, n).value)
  }

  /** The file holds a parsed record with `is_active === 1`. */
  predicate ActiveDoc(doc: Option<Doc>) {
    doc.Some? && doc.value.Parsed? && Lookup(doc.value.obj, IsActiveKey) == Some(Num(1))
  }

  /** Every active ad file of page `p` holds one of the live ids. */
  ghost predicate Quiet(disk: Disk, p: string, liveIds: set<Key>) {
    forall n :: IsAdFile(n) && ActiveDoc(FileAt(disk, p, n)) ==> Lookup(FileAt(disk, p, n).value.obj, ArchiveIdKey) in liveIds
  }

  /** A stored record whose string id names one of the page's ad files. */
  predicate NamedById(ad: AdData) {
    ad.archiveId.Some? && ad.archiveId.value.Str? && IsAdFile(AdFileName(ad.archiveId))
  }

  /** From `before` to `after`, only ad files of page `p` changed, each to a record of a live id. */
  ghost predicate LiveWrites(before: Disk, after: Disk, p: string, liveIds: set<Key>) {
    forall q, n :: FileAt(after, q, n) == FileAt(before, q, n)
      || (q == p && FileAt(after, q, n).Some? && HomeDoc(p, n, FileAt(after, q, n).value)
          && Lookup(FileAt(after, q, n).value.obj, ArchiveIdKey) in liveIds)
  }

  /** From `before` to `after`, only ad files of page `p` changed, each to an inactive record of an id not live. */
  ghost predicate RetireWrites(before: Disk, after: Disk, p: string, liveIds: set<Key>) {
    forall q, n :: FileAt(after, q, n) == FileAt(before, q, n)
      || (q == p && FileAt(after, q, n).Some? && HomeDoc(p, n, FileAt(after, q, n).value)
          && !ActiveDoc(FileAt(after, q, n))
          && Lookup(FileAt(after, q, n).value.obj, ArchiveIdKey) !in liveIds)
  }

  /** Writing records that sit under their own ids keeps a page tidy. */
  lemma TidyKept(before: Disk, after: Disk, p: string)
    requires Tidy(before, p)
    requires forall n ::
      FileAt(after, p, n) == FileAt(before, p, n) || (FileAt(after, p, n).Some? && HomeDoc(p, n, FileAt(after, p, n).value))
    ensures Tidy(after, p)
  {
  }

  /**
   * On a tidy page, `getAllAds` returns exactly the records of the page's
   * ad files: each one read back from the file its id names, and one for
   * every ad file.
   */
  lemma {:induction false} StoredAds(disk: Disk, p: string, listing: seq<string>)
    requires p in disk ==> IsListing(listing, disk[p])
    requires Tidy(disk, p)
    ensures forall e :: e in ListAds(disk, p, listing) ==>
      && NamedById(e)
      && ReadObject(disk, p, AdFileName(e.archiveId)).Some?
      && FromObject(ReadObject(disk, p, AdFileName(e.archiveId)).value) == e
      && (e.Active() <==> ActiveDoc(FileAt(disk, p, AdFileName(e.archiveId))))
    ensures forall n :: IsAdFile(n) && FileAt(disk, p, n).Some? ==>
      FromObject(FileAt(disk, p, n).value.obj) in ListAds(disk, p, listing)
  {
    ListAdsContents(disk, p, listing);
    var existing := ListAds(disk, p, listing);
    if p in disk {
      var files := AdFiles(listing);
      assert forall n :: n in disk[p] && IsAdFile(n) ==> FileAt(disk, p, n) == Some(disk[p][n]);
      forall e | e in existing
        ensures && NamedById(e)
                && ReadObject(disk, p, AdFileName(e.archiveId)).Some?
                && FromObject(ReadObject(disk, p, AdFileName(e.archiveId)).value) == e
                && (e.Active() <==> ActiveDoc(FileAt(disk, p, AdFileName(e.archiveId))))
      {
        var i :| 0 <= i < |existing| && existing[i] == e;
        var doc := disk[p][files[i]];
        assert HomeDoc(p, files[i], doc);
        assert e.archiveId == Field(e, ArchiveIdKey) == Lookup(doc.obj, ArchiveIdKey);
        assert e.isActive == Field(e, IsActiveKey) == Lookup(doc.obj, IsActiveKey);
      }
      forall n | IsAdFile(n) && FileAt(disk, p, n).Some?
        ensures FromObject(FileAt(disk, p, n).value.obj) in existing
      {
        assert n in files;
        var i :| 0 <= i < |files| && files[i] == n;
        assert existing[i] == FromObject(disk[p][n].obj);
      }
    }
  }

  // ---------------------------------------------------------------------
  // What each loop writes
  // ---------------------------------------------------------------------

  /** One pass of the live loop writes at most the file of its own live ad. */
  lemma ReconcileAdWrites(p: string, existingIds: set<Key>, t: Tally, ad: AdData, liveIds: set<Key>)
    requires ProperAd(p, ad) && ad.archiveId in liveIds
    ensures LiveWrites(t.disk, ReconcileAd(p, existingIds, t, ad).disk, p, liveIds)
    ensures forall q, n :: (q, n) != (p, AdFileName(ad.archiveId)) ==>
      FileAt(ReconcileAd(p, existingIds, t, ad).disk, q, n) == FileAt(t.disk, q, n)
  {
    var after := ReconcileAd(p, existingIds, t, ad).disk;
    if after != t.disk {
      assert after == SaveAdTo(t.disk, ad).value;
      var o := ToObject(ad);
      assert Lookup(o, PageIdKey) == Field(ad, PageIdKey);
      assert Lookup(o, ArchiveIdKey) == Field(ad, ArchiveIdKey);
      assert HomeDoc(p, AdFileName(ad.archiveId), Parsed(o));
    }
  }

  /** The live loop writes only records of live ads, each under its own id. */
  lemma {:induction false} ReconcileWrites(p: string, existingIds: set<Key>, t: Tally, ads: seq<AdData>,
                                           liveIds: set<Key>)
    requires forall i :: 0 <= i < |ads| ==> ProperAd(p, ads[i]) && ads[i].archiveId in liveIds
    ensures LiveWrites(t.disk, Reconcile(p, existingIds, t, ads).disk, p, liveIds)
    decreases |ads|
  {
    if ads != [] {
      var init := ads[..|ads| - 1];
      assert forall i :: 0 <= i < |init| ==> init[i] == ads[i];
      ReconcileWrites(p, existingIds, t, init, liveIds);
      ReconcileAdWrites(p, existingIds, Reconcile(p, existingIds, t, init), ads[|ads| - 1], liveIds);
    }
  }

  /**
   * One pass of the retiring loop over a tidy page does not fail, writes at
   * most an inactive record of its own stored ad, and leaves that ad's file
   * inactive when its id is not live.
   */
  lemma RetireAdWrites(p: string, liveIds: set<Key>, now: string, r: Retiring, e: AdData)
    requires r.failure.None? && Tidy(r.disk, p)
    requires NamedById(e)
    ensures var out := RetireAd(p, liveIds, now, r, e);
      && out.failure.None?
      && RetireWrites(r.disk, out.disk, p, liveIds)
      && (e.archiveId !in liveIds && e.Active() ==> !ActiveDoc(FileAt(out.disk, p, AdFileName(e.archiveId))))
      && forall q, n :: (q, n) != (p, AdFileName(e.archiveId)) ==> FileAt(out.disk, q, n) == FileAt(r.disk, q, n)
  {
    if e.archiveId !in liveIds && e.Active() && ReadAd(r.disk, p, e.archiveId).Some? {
      var n := AdFileName(e.archiveId);
      var doc := FileAt(r.disk, p, n).value;
      assert HomeDoc(p, n, doc);
      var stored := FromObject(doc.obj);
      assert stored.pageId == Field(stored, PageIdKey) == Lookup(doc.obj, PageIdKey);
      assert stored.archiveId == Field(stored, ArchiveIdKey) == Lookup(doc.obj, ArchiveIdKey);
      AdFileNames(stored.archiveId.value.s, e.archiveId.value.s);
      var merged := Merge(stored, Retirement(now));
      RetiredRecord(stored, now);
      var o := ToObject(merged);
      assert Lookup(o, IsActiveKey) == Field(merged, IsActiveKey);
      assert Lookup(o, PageIdKey) == Field(merged, PageIdKey);
      assert Lookup(o, ArchiveIdKey) == Field(merged, ArchiveIdKey);
      assert HomeDoc(p, n, Parsed(o));
    }
  }

  /**
   * The retiring loop over the records of a tidy page does not fail, writes
   * only inactive records of ids that are not live, and leaves every stored
   * ad that is gone and was active inactive.
   */
  lemma {:induction false} RetireWritesFrom(p: string, liveIds: set<Key>, now: string, r: Retiring,
                                            existing: seq<AdData>)
    requires r.failure.None? && Tidy(r.disk, p)
    requires forall i :: 0 <= i < |existing| ==> NamedById(existing[i])
    ensures var out := Retire(p, liveIds, now, r, existing);
      && out.failure.None?
      && RetireWrites(r.disk, out.disk, p, liveIds)
      && forall i :: 0 <= i < |existing| && existing[i].archiveId !in liveIds && existing[i].Active() ==>
           !ActiveDoc(FileAt(out.disk, p, AdFileName(existing[i].archiveId)))
    decreases |existing|
  {
    if existing != [] {
      var k := |existing| - 1;
      var init := existing[..k];
      assert forall i :: 0 <= i < k ==> init[i] == existing[i];
      RetireWritesFrom(p, liveIds, now, r, init);
      var before := Retire(p, liveIds, now, r, init);
      TidyKept(r.disk, before.disk, p);
      RetireAdWrites(p, liveIds, now, before, existing[k]);
      var out := RetireAd(p, liveIds, now, before, existing[k]);
      RetireWritesCompose(r.disk, before.disk, out.disk, p, liveIds);
      forall i | 0 <= i < |existing| && existing[i].archiveId !in liveIds && existing[i].Active()
        ensures !ActiveDoc(FileAt(out.disk, p, AdFileName(existing[i].archiveId)))
      {
        if i < k {
          assert init[i] == existing[i];
        }
      }
    }
  }

  /** Two rounds of retiring writes are retiring writes. */
  lemma RetireWritesCompose(a: Disk, b: Disk, c: Disk, p: string, liveIds: set<Key>)
    requires RetireWrites(a, b, p, liveIds) && RetireWrites(b, c, p, liveIds)
    ensures RetireWrites(a, c, p, liveIds)
  {
    forall q, n ensures FileAt(c, q, n) == FileAt(a, q, n)
      || (q == p && FileAt(c, q, n).Some? && HomeDoc(p, n, FileAt(c, q, n).value)
          && !ActiveDoc(FileAt(c, q, n))
          && Lookup(FileAt(c, q, n).value.obj, ArchiveIdKey) !in liveIds)
    {
      if FileAt(c, q, n) == FileAt(b, q, n) {
        assert FileAt(b, q, n) == FileAt(a, q, n) || q == p;
      }
    }
  }

  /** A retiring loop that finds every stored ad live or inactive changes nothing. */
  lemma {:induction false} RetireNothing(p: string, liveIds: set<Key>, now: string, r: Retiring,
                                         existing: seq<AdData>)
    requires forall i :: 0 <= i < |existing| ==> existing[i].archiveId in liveIds || !existing[i].Active()
    ensures Retire(p, liveIds, now, r, existing) == r
    decreases |existing|
  {
    if existing != [] {
      var init := existing[..|existing| - 1];
      assert forall i :: 0 <= i < |init| ==> init[i] == existing[i];
      RetireNothing(p, liveIds, now, r, init);
    }
  }

  /** Retiring ads that are not live leaves every live ad stored as it was. */
  lemma SettledKept(before: Disk, after: Disk, p: string, ads: seq<AdData>, liveIds: set<Key>)
    requires forall i :: 0 <= i < |ads| ==> ads[i].archiveId.Some? && ads[i].archiveId.value.Str?
    requires forall i :: 0 <= i < |ads| ==> ads[i].archiveId in liveIds
    requires RetireWrites(before, after, p, liveIds)
    requires Settled(before, p, ads)
    ensures Settled(after, p, ads)
  {
    forall i | 0 <= i < |ads|
      ensures ReadAd(after, p, ads[i].archiveId) == ReadAd(before, p, ads[i].archiveId)
    {
      var n := AdFileName(ads[i].archiveId);
      if FileAt(after, p, n) != FileAt(before, p, n) {
        var b := Lookup(FileAt(after, p, n).value.obj, ArchiveIdKey);
        AdFileNames(b.value.s, ads[i].archiveId.value.s);
      }
    }
  }

  /** Rewriting only the metadata documents keeps a tidy, settled and quiet page so. */
  lemma MetadataSaveKeeps(before: Disk, after: Disk, p: string, ads: seq<AdData>, liveIds: set<Key>)
    requires forall i :: 0 <= i < |ads| ==> ads[i].archiveId.Some? && ads[i].archiveId.value.Str?
    requires forall i :: 0 <= i < |ads| ==> ads[i].archiveId != Some(Str("metadata"))
    requires forall q, n :: n != MetadataFile ==> FileAt(after, q, n) == FileAt(before, q, n)
    requires Tidy(before, p) && Settled(before, p, ads) && Quiet(before, p, liveIds)
    ensures Tidy(after, p) && Settled(after, p, ads) && Quiet(after, p, liveIds)
  {
    forall i | 0 <= i < |ads|
      ensures ReadAd(after, p, ads[i].archiveId) == ReadAd(before, p, ads[i].archiveId)
    {
      AdFileNames(ads[i].archiveId.value.s, "metadata");
    }
  }

  // ---------------------------------------------------------------------
  // Two syncs in a row
  // ---------------------------------------------------------------------

  /**
   * The live loop of a sync of a tidy page stores every live ad unchanged,
   * writes only records of live ads, and leaves the page tidy.
   */
  lemma LiveLoopSettles(disk: Disk, p: string, ads: seq<AdData>, listing: seq<string>)
    requires forall i :: 0 <= i < |ads| ==> ProperAd(p, ads[i])
    requires DistinctIds(ads)
    requires p in disk ==> IsListing(listing, disk[p])
    requires Tidy(disk, p)
    ensures var live := Reconcile(p, Ids(ListAds(disk, p, listing)), Tally(disk, 0, 0, []), ads);
      Settled(live.disk, p, ads) && LiveWrites(disk, live.disk, p, Ids(ads)) && Tidy(live.disk, p)
  {
    var existing := ListAds(disk, p, listing);
    StoredAds(disk, p, listing);
    forall i | 0 <= i < |ads| && ads[i].archiveId in Ids(existing)
      ensures ReadAd(disk, p, ads[i].archiveId).Some?
    {
      var e :| e in existing && e.archiveId == ads[i].archiveId;
    }
    forall i | 0 <= i < |ads| ensures ads[i].archiveId in Ids(ads) {
      assert ads[i] in ads;
    }
    var t0 := Tally(disk, 0, 0, []);
    ReconcileSettles(p, Ids(existing), t0, ads);
    ReconcileWrites(p, Ids(existing), t0, ads, Ids(ads));
    TidyKept(disk, Reconcile(p, Ids(existing), t0, ads).disk, p);
  }

  /**
   * After such a live loop, the retiring loop does not fail, keeps every
   * live ad stored unchanged and the page tidy, and leaves no stored ad
   * active that is not live.
   */
  lemma RetireLoopQuiets(disk: Disk, live: Disk, p: string, ads: seq<AdData>, now: string, updatedAds: nat,
                         listing: seq<string>)
    requires forall i :: 0 <= i < |ads| ==> ProperAd(p, ads[i])
    requires p in disk ==> IsListing(listing, disk[p])
    requires Tidy(disk, p) && Tidy(live, p) && Settled(live, p, ads)
    requires LiveWrites(disk, live, p, Ids(ads))
    ensures var retiring := Retire(p, Ids(ads), now, Retiring(live, updatedAds, None), ListAds(disk, p, listing));
      && retiring.failure.None?
      && Tidy(retiring.disk, p) && Settled(retiring.disk, p, ads) && Quiet(retiring.disk, p, Ids(ads))
  {
    var existing := ListAds(disk, p, listing);
    var liveIds := Ids(ads);
    StoredAds(disk, p, listing);
    forall i | 0 <= i < |ads| ensures ads[i].archiveId in liveIds {
      assert ads[i] in ads;
    }
    var r0 := Retiring(live, updatedAds, None);
    RetireWritesFrom(p, liveIds, now, r0, existing);
    var after := Retire(p, liveIds, now, r0, existing).disk;
    TidyKept(live, after, p);
    SettledKept(live, after, p, ads, liveIds);
    forall n | IsAdFile(n) && ActiveDoc(FileAt(after, p, n))
      ensures Lookup(FileAt(after, p, n).value.obj, ArchiveIdKey) in liveIds
    {
      if FileAt(live, p, n) == FileAt(disk, p, n) {
        // an untouched active file was stored before, so it was retired unless live
        var doc := FileAt(disk, p, n).value;
        var e := FromObject(doc.obj);
        var i :| 0 <= i < |existing| && existing[i] == e;
        assert e.archiveId == Field(e, ArchiveIdKey) == Lookup(doc.obj, ArchiveIdKey);
        assert e.isActive == Field(e, IsActiveKey) == Lookup(doc.obj, IsActiveKey);
      }
    }
  }

  /**
   * An incremental sync of a tidy page leaves it tidy, with every live ad
   * stored unchanged and every active stored ad live.
   */
  lemma FirstSyncSettles(disk: Disk, p: string, metadata: Object, ads: seq<AdData>, now: string,
                         listing: seq<string>)
    requires forall i :: 0 <= i < |ads| ==> ProperAd(p, ads[i]) && ads[i].archiveId != Some(Str("metadata"))
    requires DistinctIds(ads)
    requires p in disk ==> IsListing(listing, disk[p])
    requires Tidy(disk, p)
    ensures var first := IncrementalFromAds(disk, p, metadata, ListAds(disk, p, listing), ads, now);
      Tidy(first.disk, p) && Settled(first.disk, p, ads) && Quiet(first.disk, p, Ids(ads))
  {
    var existing := ListAds(disk, p, listing);
    var live := Reconcile(p, Ids(existing), Tally(disk, 0, 0, []), ads);
    LiveLoopSettles(disk, p, ads, listing);
    RetireLoopQuiets(disk, live.disk, p, ads, now, live.updatedAds, listing);
    var after := Retire(p, Ids(ads), now, Retiring(live.disk, live.updatedAds, None), existing).disk;
    // the metadata save touches no ad file
    var m := IncrementalMetadata(metadata, existing, live.newAds, ads, now);
    var first := IncrementalFromAds(disk, p, metadata, existing, ads, now);
    if SaveMetadataTo(after, m).Ok? {
      assert first.disk == SaveMetadataTo(after, m).value;
    }
    MetadataSaveKeeps(after, first.disk, p, ads, Ids(ads));
  }

  /**
   * On a tidy page where every live ad is stored unchanged and every active
   * stored ad is live, the live loop saves and counts nothing and the
   * retiring loop retires nothing.
   */
  lemma SettledSyncIsQuiet(disk: Disk, p: string, ads: seq<AdData>, now: string, listing: seq<string>)
    requires forall i :: 0 <= i < |ads| ==> ProperAd(p, ads[i]) && ads[i].archiveId != Some(Str("metadata"))
    requires p in disk ==> IsListing(listing, disk[p])
    requires Tidy(disk, p) && Settled(disk, p, ads) && Quiet(disk, p, Ids(ads))
    ensures var existing := ListAds(disk, p, listing);
      && Reconcile(p, Ids(existing), Tally(disk, 0, 0, []), ads) == Tally(disk, 0, 0, [])
      && Retire(p, Ids(ads), now, Retiring(disk, 0, None), existing) == Retiring(disk, 0, None)
  {
    var existing := ListAds(disk, p, listing);
    StoredAds(disk, p, listing);
    // every live id is stored, so the live loop knows it
    forall i | 0 <= i < |ads| ensures ads[i].archiveId in Ids(existing) {
      var id := ads[i].archiveId;
      var n := AdFileName(id);
      AdFileNames(id.value.s, "metadata");
      assert ReadAd(disk, p, id).Some?;
      var doc := FileAt(disk, p, n).value;
      var e := FromObject(doc.obj);
      assert e in existing;
      assert e.archiveId == Field(e, ArchiveIdKey) == Lookup(doc.obj, ArchiveIdKey);
      AdFileNames(e.archiveId.value.s, id.value.s);
    }
    ReconcileIdempotent(p, Ids(existing), Tally(disk, 0, 0, []), ads);
    // every active stored ad is live, so none is retired
    forall i | 0 <= i < |existing| ensures existing[i].archiveId in Ids(ads) || !existing[i].Active() {
      var e := existing[i];
      assert e in existing;
      var obj := ReadObject(disk, p, AdFileName(e.archiveId)).value;
      assert e.archiveId == Field(FromObject(obj), ArchiveIdKey) == Lookup(obj, ArchiveIdKey);
    }
    RetireNothing(p, Ids(ads), now, Retiring(disk, 0, None), existing);
  }

  /**
   * Two incremental syncs of a tidy page in a row, the scrape yielding the
   * same live ads (string ids, none repeated, none "metadata"): the second
   * sync's live loop counts no new and no updated ad and reports no error,
   * its retiring loop retires nothing and does not fail, it fails at most on
   * the metadata save, and it leaves every file but the metadata documents
   * as the first sync left it.
   */
  lemma SecondSyncIsQuiet(disk: Disk, p: string, metadata: Object, metadata': Object, ads: seq<AdData>,
                          now: string, now': string, listing: seq<string>, listing': seq<string>)
    requires forall i :: 0 <= i < |ads| ==> ProperAd(p, ads[i]) && ads[i].archiveId != Some(Str("metadata"))
    requires DistinctIds(ads)
    requires p in disk ==> IsListing(listing, disk[p])
    requires Tidy(disk, p)
    requires var first := IncrementalFromAds(disk, p, metadata, ListAds(disk, p, listing), ads, now);
      p in first.disk ==> IsListing(listing', first.disk[p])
    ensures var first := IncrementalFromAds(disk, p, metadata, ListAds(disk, p, listing), ads, now);
      var existing := ListAds(first.disk, p, listing');
      var live := Reconcile(p, Ids(existing), Tally(first.disk, 0, 0, []), ads);
      var retiring := Retire(p, Ids(ads), now', Retiring(live.disk, live.updatedAds, None), existing);
      var second := IncrementalFromAds(first.disk, p, metadata', existing, ads, now');
      && live == Tally(first.disk, 0, 0, [])
      && retiring == Retiring(first.disk, 0, None)
      && second.result.errors == (if second.result.success then [] else [StoreFailed(PageIdNotString)])
      && forall q, n :: n != MetadataFile ==> FileAt(second.disk, q, n) == FileAt(first.disk, q, n)
  {
    var first := IncrementalFromAds(disk, p, metadata, ListAds(disk, p, listing), ads, now);
    FirstSyncSettles(disk, p, metadata, ads, now, listing);
    SettledSyncIsQuiet(first.disk, p, ads, now', listing');
    var existing := ListAds(first.disk, p, listing');
    IncrementalOutcome(first.disk, p, metadata', existing, ads, now');
  }
}
