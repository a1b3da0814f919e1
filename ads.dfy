/**
 * The ad record (`AdData` in src/types/index.ts).
 *
 * The record is open: besides its declared fields it carries every other
 * key the upstream payload had (the index signature `[key: string]: any`).
 * The fields the core reads are fixed fields; all other keys, including
 * the declared but uninspected ones (creation time, creative texts,
 * snapshot url, currency, ...), live in the extension map `ext`.
 * An undefined field is `None`.
 */
module Ads {
  import opened Wrappers
  import opened JsonValue

  const ArchiveIdKey := "ad_archive_id"
  const PageIdKey := "page_id"
  const PageNameKey := "page_name"
  const IsActiveKey := "is_active"
  const StopTimeKey := "ad_delivery_stop_time"
  const SpendKey := "spend"
  const ImpressionsKey := "impressions"

  const FixedKeys: set<string> :=
    {ArchiveIdKey, PageIdKey, PageNameKey, IsActiveKey, StopTimeKey, SpendKey, ImpressionsKey}

  datatype AdData = AdData(
    archiveId: Option<Json>,
    pageId: Option<Json>,
    pageName: Option<Json>,
    isActive: Option<Json>,
    stopTime: Option<Json>,
    spend: Option<Json>,
    impressions: Option<Json>,
    ext: Object)
  {
    /** No key is held twice: the extension map never shadows a fixed field. */
    predicate WellFormed() {
      forall k :: k in ext ==> k !in FixedKeys
    }

    /** `ad.is_active === 1` */
    predicate Active() {
      isActive == Some(Num(1))
    }
  }

  /** The value `ad[key]` of the record seen as a JavaScript object. */
  function Field(ad: AdData, key: string): Option<Json> {
    if key == ArchiveIdKey then ad.archiveId
    else if key == PageIdKey then ad.pageId
    else if key == PageNameKey then ad.pageName
    else if key == IsActiveKey then ad.isActive
    else if key == StopTimeKey then ad.stopTime
    else if key == SpendKey then ad.spend
    else if key == ImpressionsKey then ad.impressions
    else Lookup(ad.ext, key)
  }

  /** Sets `o[key]`, or removes the key when the value is undefined. */
  function Put(o: Object, key: string, v: Option<Json>): (r: Object)
    ensures Lookup(r, key) == v
    ensures forall k :: k != key ==> Lookup(r, k) == Lookup(o, k)
  {
    match v
    case Some(x) => o[key := x]
    case None => o - {key}
  }

  /**
   * The object `JSON.stringify` writes for the record: every defined field,
   * undefined ones omitted.
   */
  function ToObject(ad: AdData): (o: Object)
    ensures forall k :: Lookup(o, k) == Field(ad, k)
  {
    map k | k in ad.ext.Keys + FixedKeys && Field(ad, k).Some? :: Field(ad, k).value
  }

  /** The record `JSON.parse` yields for a stored object. */
  function FromObject(o: Object): (ad: AdData)
    ensures ad.WellFormed()
    ensures forall k :: Field(ad, k) == Lookup(o, k)
  {
    AdData(
      Lookup(o, ArchiveIdKey), Lookup(o, PageIdKey), Lookup(o, PageNameKey),
      Lookup(o, IsActiveKey), Lookup(o, StopTimeKey), Lookup(o, SpendKey),
      Lookup(o, ImpressionsKey), o - FixedKeys)
  }

  /** Two well-formed records with the same keys and values are equal. */
  lemma {:induction false} FieldExtensionality(a: AdData, b: AdData)
    requires a.WellFormed() && b.WellFormed()
    requires forall k :: Field(a, k) == Field(b, k)
    ensures a == b
  {
    assert a.archiveId == Field(a, ArchiveIdKey) == Field(b, ArchiveIdKey) == b.archiveId;
    assert a.pageId == Field(a, PageIdKey) == Field(b, PageIdKey) == b.pageId;
    assert a.pageName == Field(a, PageNameKey) == Field(b, PageNameKey) == b.pageName;
    assert a.isActive == Field(a, IsActiveKey) == Field(b, IsActiveKey) == b.isActive;
    assert a.stopTime == Field(a, StopTimeKey) == Field(b, StopTimeKey) == b.stopTime;
    assert a.spend == Field(a, SpendKey) == Field(b, SpendKey) == b.spend;
    assert a.impressions == Field(a, ImpressionsKey) == Field(b, ImpressionsKey) == b.impressions;
    forall k ensures Lookup(a.ext, k) == Lookup(b.ext, k) {
      if k !in FixedKeys {
        assert Field(a, k) == Lookup(a.ext, k) && Field(b, k) == Lookup(b.ext, k);
      }
    }
    ObjectExtensionality(a.ext, b.ext);
  }

  /**
   * Writing a well-formed record as an object and reading it back yields
   * the record, extension keys included.
   */
  lemma {:induction false} ObjectRoundTrip(ad: AdData)
    requires ad.WellFormed()
    ensures FromObject(ToObject(ad)) == ad
  {
    FieldExtensionality(FromObject(ToObject(ad)), ad);
  }

  /** Reading an object as a record and writing it again reproduces the object. */
  lemma {:induction false} RecordRoundTrip(o: Object)
    ensures ToObject(FromObject(o)) == o
  {
    ObjectExtensionality(ToObject(FromObject(o)), o);
  }

  /** The spread `{...ad, ...updates}`: every key of `updates` wins. */
  function Merge(ad: AdData, updates: Object): (r: AdData)
    ensures r.WellFormed()
    ensures forall k :: k in updates ==> Field(r, k) == Some(updates[k])
    ensures forall k :: k !in updates ==> Field(r, k) == Field(ad, k)
  {
    FromObject(ToObject(ad) + updates)
  }
}
