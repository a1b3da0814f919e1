/**
 * The file-based ad store (src/storage/StorageManager.ts).
 *
 * The base directory holds one directory per page id; a page directory holds
 * one `<archive id>.json` file per ad and one `metadata.json` document.  The
 * file system is a map from page directory to a map from file name to the
 * document the file holds.  A document is either a JSON object (everything
 * this store writes is one) or text that `JSON.parse` rejects.
 */
module Storage {
  import opened Wrappers
  import opened JsonValue
  import opened Ads

  datatype Doc = Parsed(obj: Object) | Unparseable

  type Dir = map<string, Doc>

  type Disk = map<string, Dir>

  /** `path.join` throws a TypeError when the page id is not a string. */
  datatype StoreError = PageIdNotString

  const MetadataFile := "metadata.json"
  const JsonSuffix := ".json"

  /** The file name `${adId}.json` of an ad. */
  function AdFileName(adId: Option<Json>): string {
    Text(adId) + JsonSuffix
  }

  predicate EndsWithJson(name: string) {
    |name| >= |JsonSuffix| && name[|name| - |JsonSuffix|..] == JsonSuffix
  }

  /** The files `getAllAds` reads: `.json` files other than the metadata document. */
  predicate IsAdFile(name: string) {
    EndsWithJson(name) && name != MetadataFile
  }

  /** The directory a record is written to: its page id, when that is a string. */
  function PageDir(pageId: Option<Json>): (dir: Option<string>)
    ensures dir.Some? <==> pageId.Some? && pageId.value.Str?
    ensures dir.Some? ==> pageId == Some(Str(dir.value))
  {
    match pageId
    case Some(Str(p)) => Some(p)
    case _ => None
  }

  /** The document held by file `name` of page `p`, if that file exists. */
  function FileAt(disk: Disk, p: string, name: string): Option<Doc> {
    if p in disk && name in disk[p] then Some(disk[p][name]) else None
  }

  /** `fs.mkdir(dir, { recursive: true })`: creates the page directory if missing. */
  function WithPageDir(disk: Disk, p: string): (d: Disk)
    ensures p in d
    ensures forall q, n :: FileAt(d, q, n) == FileAt(disk, q, n)
  {
    if p in disk then disk else disk[p := map[]]
  }

  /** `fs.writeFile`: replaces the whole content of one file. */
  function WithFile(disk: Disk, p: string, name: string, doc: Doc): (d: Disk)
    ensures FileAt(d, p, name) == Some(doc)
    ensures forall q, n :: (q, n) != (p, name) ==> FileAt(d, q, n) == FileAt(disk, q, n)
  {
    var dir := if p in disk then disk[p] else map[];
    disk[p := dir[name := doc]]
  }

  /** The contents of the file, when it exists and parses. */
  function ReadObject(disk: Disk, p: string, name: string): (r: Option<Object>)
    ensures r.Some? <==> FileAt(disk, p, name).Some? && FileAt(disk, p, name).value.Parsed?
    ensures r.Some? ==> r.value == FileAt(disk, p, name).value.obj
  {
    match FileAt(disk, p, name)
    case Some(Parsed(o)) => Some(o)
    case _ => None
  }

  /** The disk after `saveAd(ad)`, or the error it throws. */
  function SaveAdTo(disk: Disk, ad: AdData): (r: Result<Disk, StoreError>)
    ensures r.Err? <==> PageDir(ad.pageId).None?
  {
    match PageDir(ad.pageId)
    case None => Err(PageIdNotString)
    case Some(p) => Ok(WithFile(disk, p, AdFileName(ad.archiveId), Parsed(ToObject(ad))))
  }

  /** `getAd(pageId, adId)`: null when the file is missing or does not parse. */
  function ReadAd(disk: Disk, pageId: string, adId: Option<Json>): Option<AdData> {
    match ReadObject(disk, pageId, AdFileName(adId))
    case None => None
    case Some(o) => Some(FromObject(o))
  }

  /** The disk after `saveMetadata(metadata)`, or the error it throws. */
  function SaveMetadataTo(disk: Disk, metadata: Object): (r: Result<Disk, StoreError>)
    ensures r.Err? <==> PageDir(Lookup(metadata, PageIdKey)).None?
  {
    match PageDir(Lookup(metadata, PageIdKey))
    case None => Err(PageIdNotString)
    case Some(p) => Ok(WithFile(disk, p, MetadataFile, Parsed(metadata)))
  }

  /** `getMetadata(pageId)`: null when the document is missing or does not parse. */
  function ReadMetadata(disk: Disk, pageId: string): Option<Object> {
    ReadObject(disk, pageId, MetadataFile)
  }

  /** The disk after `updateAdStatus(pageId, adId, updates)`, or the error it throws. */
  function UpdateStatusIn(disk: Disk, pageId: string, adId: Option<Json>, updates: Object)
    : Result<Disk, StoreError>
  {
    match ReadAd(disk, pageId, adId)
    case None => Ok(disk)
    case Some(ad) => SaveAdTo(disk, Merge(ad, updates))
  }

  /** The names of `names` that are ad files, in the same order (`files.filter(...)`). */
  function AdFiles(names: seq<string>): (r: seq<string>)
    ensures forall n :: n in r <==> n in names && IsAdFile(n)
    ensures |r| <= |names|
  {
    if names == [] then []
    else
      var last := names[|names| - 1];
      AdFiles(names[..|names| - 1]) + (if IsAdFile(last) then [last] else [])
  }

  /** Parses the given files in order; None as soon as one of them does not parse. */
  function ParseAll(dir: Dir, files: seq<string>): (r: Option<seq<AdData>>)
    requires forall n :: n in files ==> n in dir
    ensures r.None? <==> exists i :: 0 <= i < |files| && dir[files[i]].Unparseable?
    ensures r.Some? ==> |r.value| == |files|
    ensures r.Some? ==> forall i :: 0 <= i < |files| ==> r.value[i] == FromObject(dir[files[i]].obj)
  {
    if files == [] then Some([])
    else
      var last := files[|files| - 1];
      match ParseAll(dir, files[..|files| - 1])
      case None => None
      case Some(ads) =>
        match dir[last]
        case Unparseable => None
        case Parsed(o) => Some(ads + [FromObject(o)])
  }

  /** `listing` lists every entry of `dir` exactly once, as `fs.readdir` does. */
  ghost predicate IsListing(listing: seq<string>, dir: Dir) {
    && (forall n :: n in listing <==> n in dir)
    && (forall i, j :: 0 <= i < j < |listing| ==> listing[i] != listing[j])
  }

  /** What `getAllAds(pageId)` returns when the directory is listed in the order `listing`. */
  function ListAds(disk: Disk, pageId: string, listing: seq<string>): seq<AdData>
    requires pageId in disk ==> IsListing(listing, disk[pageId])
  {
    if pageId !in disk then []
    else
      match ParseAll(disk[pageId], AdFiles(listing))
      case None => []
      case Some(ads) => ads
  }

  /**
   * `fs.readdir`: every entry of the directory exactly once, in an order the
   * file system chooses.
   */
  method ReadDir(dir: Dir) returns (listing: seq<string>)
    ensures IsListing(listing, dir)
  {
    listing := [];
    var rest := dir.Keys;
    while rest != {}
      invariant forall n :: n in dir <==> n in listing || n in rest
      invariant forall n :: n in listing ==> n !in rest
      invariant forall i, j :: 0 <= i < j < |listing| ==> listing[i] != listing[j]
      decreases rest
    {
      var n :| n in rest;
      listing := listing + [n];
      rest := rest - {n};
    }
  }

  class StorageManager {
    /** The base directory's contents. */
    var disk: Disk

    /** A store over a base directory that currently holds `contents`. */
    constructor(contents: Disk)
      ensures disk == contents
    {
      disk := contents;
    }

    method EnsurePageDir(pageId: string)
      modifies this
      ensures disk == WithPageDir(old(disk), pageId)
    {
      disk := WithPageDir(disk, pageId);
    }

    /** Writes the ad to `<page_id>/<ad_archive_id>.json`, replacing any earlier file. */
    method SaveAd(ad: AdData) returns (r: Outcome<StoreError>)
      modifies this
      ensures r.Pass? <==> SaveAdTo(old(disk), ad).Ok?
      ensures r.Pass? ==> disk == SaveAdTo(old(disk), ad).value
      ensures r.Fail? ==> SaveAdTo(old(disk), ad) == Err(r.error) && disk == old(disk)
    {
      match PageDir(ad.pageId)
      case None =>
        return Fail(PageIdNotString);
      case Some(p) =>
        EnsurePageDir(p);
        disk := WithFile(disk, p, AdFileName(ad.archiveId), Parsed(ToObject(ad)));
        return Pass;
    }

    method GetAd(pageId: string, adId: Option<Json>) returns (r: Option<AdData>)
      ensures r == ReadAd(disk, pageId, adId)
      ensures r.None? <==> ReadObject(disk, pageId, AdFileName(adId)).None?
    {
      var file := FileAt(disk, pageId, AdFileName(adId));
      if file.Some? && file.value.Parsed? {
        return Some(FromObject(file.value.obj));
      }
      return None;
    }

    /**
     * Reads every ad file of the page in directory order.  A missing
     * directory, or any ad file that does not parse, gives `[]`.
     */
    method GetAllAds(pageId: string) returns (ads: seq<AdData>, ghost listing: seq<string>)
      ensures pageId in disk ==> IsListing(listing, disk[pageId])
      ensures ads == ListAds(disk, pageId, listing)
    {
      if pageId !in disk {
        return [], [];
      }
      var dir := disk[pageId];
      var files := ReadDir(dir);
      listing := files;
      var adFiles := AdFiles(files);
      assert forall n :: n in adFiles ==> n in dir;
      ads := [];
      var i := 0;
      while i < |adFiles|
        invariant i <= |adFiles|
        invariant forall n :: n in adFiles ==> n in dir
        invariant ParseAll(dir, adFiles[..i]) == Some(ads)
      {
        match dir[adFiles[i]]
        case Unparseable =>
          assert adFiles[..i + 1][..i] == adFiles[..i];
          ParseAllFailsOnExtension(dir, adFiles[..i + 1], adFiles);
          return [], listing;
        case Parsed(o) =>
          ParseAllStep(dir, adFiles, i);
          ads := ads + [FromObject(o)];
          i := i + 1;
      }
      assert adFiles[..i] == adFiles;
    }

    /** Writes the page's `metadata.json`, replacing the whole document. */
    method SaveMetadata(metadata: Object) returns (r: Outcome<StoreError>)
      modifies this
      ensures r.Pass? <==> SaveMetadataTo(old(disk), metadata).Ok?
      ensures r.Pass? ==> disk == SaveMetadataTo(old(disk), metadata).value
      ensures r.Fail? ==> SaveMetadataTo(old(disk), metadata) == Err(r.error) && disk == old(disk)
    {
      match PageDir(Lookup(metadata, PageIdKey))
      case None =>
        return Fail(PageIdNotString);
      case Some(p) =>
        EnsurePageDir(p);
        disk := WithFile(disk, p, MetadataFile, Parsed(metadata));
        return Pass;
    }

    method GetMetadata(pageId: string) returns (r: Option<Object>)
      ensures r == ReadMetadata(disk, pageId)
      ensures r.None? <==> (FileAt(disk, pageId, MetadataFile).None?
        || FileAt(disk, pageId, MetadataFile).value.Unparseable?)
    {
      var file := FileAt(disk, pageId, MetadataFile);
      if file.Some? && file.value.Parsed? {
        return Some(file.value.obj);
      }
      return None;
    }

    /** Read-modify-write: `{...ad, ...updates}` saved back; nothing happens for a missing ad. */
    method UpdateAdStatus(pageId: string, adId: Option<Json>, updates: Object)
      returns (r: Outcome<StoreError>)
      modifies this
      ensures r.Pass? <==> UpdateStatusIn(old(disk), pageId, adId, updates).Ok?
      ensures r.Pass? ==> disk == UpdateStatusIn(old(disk), pageId, adId, updates).value
      ensures r.Fail? ==> UpdateStatusIn(old(disk), pageId, adId, updates) == Err(r.error) && disk == old(disk)
    {
      var ad := GetAd(pageId, adId);
      if ad.Some? {
        r := SaveAd(Merge(ad.value, updates));
      } else {
        r := Pass;
      }
    }
  }

  /** A file that does not parse spoils every longer list of files. */
  lemma {:induction false} ParseAllFailsOnExtension(dir: Dir, prefix: seq<string>, files: seq<string>)
    requires forall n :: n in files ==> n in dir
    requires prefix <= files
    requires ParseAll(dir, prefix) == None
    ensures ParseAll(dir, files) == None
  {
    var i :| 0 <= i < |prefix| && dir[prefix[i]].Unparseable?;
    assert files[i] == prefix[i];
  }

  /** Parsing one more file that parses appends its record. */
  lemma {:induction false} ParseAllStep(dir: Dir, files: seq<string>, i: nat)
    requires forall n :: n in files ==> n in dir
    requires i < |files| && dir[files[i]].Parsed?
    requires ParseAll(dir, files[..i]).Some?
    ensures ParseAll(dir, files[..i + 1]) == Some(ParseAll(dir, files[..i]).value + [FromObject(dir[files[i]].obj)])
  {
    assert files[..i + 1][..i] == files[..i];
  }

  // ---------------------------------------------------------------------
  // Properties of the store
  // ---------------------------------------------------------------------

  /** `saveAd(ad)` then `getAd(ad.page_id, ad.ad_archive_id)` gives back the ad, extra keys included. */
  lemma {:induction false} SaveThenGetAd(disk: Disk, ad: AdData, p: string)
    requires ad.WellFormed()
    requires ad.pageId == Some(Str(p))
    ensures SaveAdTo(disk, ad).Ok?
    ensures ReadAd(SaveAdTo(disk, ad).value, p, ad.archiveId) == Some(ad)
  {
    ObjectRoundTrip(ad);
  }

  /** `saveAd` replaces the one file of the ad and leaves every other file as it was. */
  lemma {:induction false} SaveAdTouchesOneFile(disk: Disk, ad: AdData, p: string, q: string, name: string)
    requires ad.pageId == Some(Str(p))
    requires (q, name) != (p, AdFileName(ad.archiveId))
    ensures SaveAdTo(disk, ad).Ok?
    ensures FileAt(SaveAdTo(disk, ad).value, q, name) == FileAt(disk, q, name)
  {
  }

  /** `saveMetadata` then `getMetadata` gives back the document; a second save replaces it whole. */
  lemma {:induction false} SaveThenGetMetadata(disk: Disk, m1: Object, m2: Object, p: string)
    requires Lookup(m1, PageIdKey) == Some(Str(p)) && Lookup(m2, PageIdKey) == Some(Str(p))
    ensures SaveMetadataTo(disk, m1).Ok?
    ensures ReadMetadata(SaveMetadataTo(disk, m1).value, p) == Some(m1)
    ensures SaveMetadataTo(SaveMetadataTo(disk, m1).value, m2).Ok?
    ensures ReadMetadata(SaveMetadataTo(SaveMetadataTo(disk, m1).value, m2).value, p) == Some(m2)
  {
  }

  /**
   * Archive ids that are strings name distinct files, and the only one that
   * names the metadata document is "metadata".
   */
  lemma {:induction false} AdFileNames(a: string, b: string)
    ensures AdFileName(Some(Str(a))) == AdFileName(Some(Str(b))) ==> a == b
    ensures AdFileName(Some(Str(a))) == MetadataFile <==> a == "metadata"
    ensures IsAdFile(AdFileName(Some(Str(a)))) <==> a != "metadata"
  {
    var fa, fb := AdFileName(Some(Str(a))), AdFileName(Some(Str(b)));
    if fa == fb {
      assert a == fa[..|fa| - |JsonSuffix|] == fb[..|fb| - |JsonSuffix|] == b;
    }
    if fa == MetadataFile {
      assert a == fa[..|fa| - |JsonSuffix|] == "metadata";
    }
    assert fa[|fa| - |JsonSuffix|..] == JsonSuffix;
  }

  /**
   * The key collision: an ad whose archive id is "metadata" is written over
   * the page's metadata document, and `getMetadata` then returns the ad.
   */
  lemma {:induction false} MetadataIdCollision(disk: Disk, ad: AdData, p: string)
    requires ad.pageId == Some(Str(p)) && ad.archiveId == Some(Str("metadata"))
    ensures SaveAdTo(disk, ad).Ok?
    ensures ReadMetadata(SaveAdTo(disk, ad).value, p) == Some(ToObject(ad))
  {
    AdFileNames("metadata", "metadata");
  }

  /** `saveMetadata` leaves every ad file of the page alone, except that of an ad whose id is "metadata". */
  lemma {:induction false} SaveMetadataKeepsAds(disk: Disk, metadata: Object, p: string, id: string)
    requires Lookup(metadata, PageIdKey) == Some(Str(p))
    requires id != "metadata"
    ensures SaveMetadataTo(disk, metadata).Ok?
    ensures ReadAd(SaveMetadataTo(disk, metadata).value, p, Some(Str(id))) == ReadAd(disk, p, Some(Str(id)))
  {
    AdFileNames(id, "metadata");
    var name := AdFileName(Some(Str(id)));
    assert FileAt(SaveMetadataTo(disk, metadata).value, p, name) == FileAt(disk, p, name);
  }

  /**
   * `updateAdStatus` overrides exactly the keys in `updates`: reading the ad
   * back gives the merged record.  The ad must live in its own page's
   * directory under its own id, and the updates must leave both ids alone.
   */
  lemma {:induction false} UpdateMergesIntoStoredAd(disk: Disk, p: string, adId: Option<Json>, updates: Object)
    requires ReadAd(disk, p, adId).Some?
    requires ReadAd(disk, p, adId).value.pageId == Some(Str(p))
    requires AdFileName(ReadAd(disk, p, adId).value.archiveId) == AdFileName(adId)
    requires PageIdKey !in updates && ArchiveIdKey !in updates
    ensures UpdateStatusIn(disk, p, adId, updates).Ok?
    ensures var merged := ReadAd(UpdateStatusIn(disk, p, adId, updates).value, p, adId);
      && merged.Some?
      && (forall k :: k in updates ==> Field(merged.value, k) == Some(updates[k]))
      && (forall k :: k !in updates ==> Field(merged.value, k) == Field(ReadAd(disk, p, adId).value, k))
  {
    var ad := ReadAd(disk, p, adId).value;
    var m := Merge(ad, updates);
    assert m.pageId == Field(m, PageIdKey) == Field(ad, PageIdKey);
    assert m.archiveId == Field(m, ArchiveIdKey) == Field(ad, ArchiveIdKey);
    SaveThenGetAd(disk, m, p);
  }

  /** `updateAdStatus` on an ad that is not there changes nothing. */
  lemma {:induction false} UpdateOfMissingAdIsNoOp(disk: Disk, p: string, adId: Option<Json>, updates: Object)
    requires ReadAd(disk, p, adId).None?
    ensures UpdateStatusIn(disk, p, adId, updates) == Ok(disk)
  {
  }

  /**
   * `getAllAds` returns, for a page whose ad files all parse, one record per
   * ad file of the page (the metadata document excluded) in directory order;
   * for an unknown page, or one with an ad file that does not parse, `[]`.
   */
  lemma {:induction false} ListAdsContents(disk: Disk, p: string, listing: seq<string>)
    requires p in disk ==> IsListing(listing, disk[p])
    ensures p !in disk ==> ListAds(disk, p, listing) == []
    ensures p in disk && (exists n :: n in disk[p] && IsAdFile(n) && disk[p][n].Unparseable?)
      ==> ListAds(disk, p, listing) == []
    ensures p in disk && (forall n :: n in disk[p] && IsAdFile(n) ==> disk[p][n].Parsed?)
      ==> var files := AdFiles(listing);
          |ListAds(disk, p, listing)| == |files|
          && forall i :: 0 <= i < |files| ==>
               IsAdFile(files[i]) && files[i] in disk[p]
               && ListAds(disk, p, listing)[i] == FromObject(disk[p][files[i]].obj)
  {
    if p in disk {
      var files := AdFiles(listing);
      if n :| n in disk[p] && IsAdFile(n) && disk[p][n].Unparseable? {
        assert n in files;
        var i :| 0 <= i < |files| && files[i] == n;
      }
    }
  }

  /** A saved ad is among the records `getAllAds` returns for its page, unless its id is "metadata". */
  lemma {:induction false} SavedAdIsListed(disk: Disk, ad: AdData, p: string, listing: seq<string>)
    requires ad.WellFormed()
    requires ad.pageId == Some(Str(p)) && ad.archiveId.Some? && ad.archiveId.value.Str?
    requires ad.archiveId != Some(Str("metadata"))
    requires SaveAdTo(disk, ad).Ok?
    requires IsListing(listing, SaveAdTo(disk, ad).value[p])
    requires forall n :: (n in SaveAdTo(disk, ad).value[p] && IsAdFile(n)
      ==> SaveAdTo(disk, ad).value[p][n].Parsed?)
    ensures ad in ListAds(SaveAdTo(disk, ad).value, p, listing)
  {
    var d := SaveAdTo(disk, ad).value;
    var name := AdFileName(ad.archiveId);
    AdFileNames(ad.archiveId.value.s, "metadata");
    ListAdsContents(d, p, listing);
    var files := AdFiles(listing);
    assert name in files;
    var i :| 0 <= i < |files| && files[i] == name;
    ObjectRoundTrip(ad);
    assert ListAds(d, p, listing)[i] == ad;
  }
}
