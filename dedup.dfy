/**
 * `deduplicateAds` (src/scraper/MetaAdsScraper.ts): a `Map` keyed by
 * `ad_archive_id` and filled in order.  A `Map` keeps each key where it was
 * first inserted and `set` replaces the value, so the result has one ad per
 * archive id, in the order of each id's first occurrence, holding the id's
 * last occurrence.  The key is the archive id alone, not the pair with the
 * page id.
 */
module Dedup {
  import opened Wrappers
  import opened JsonValue
  import opened Ads

  type Key = Option<Json>

  /** No two ads share an archive id. */
  ghost predicate DistinctIds(ads: seq<AdData>) {
    forall i, j :: 0 <= i < j < |ads| ==> ads[i].archiveId != ads[j].archiveId
  }

  /** Some ad carries archive id `k`. */
  ghost predicate HasId(ads: seq<AdData>, k: Key) {
    exists i :: 0 <= i < |ads| && ads[i].archiveId == k
  }

  /** The distinct archive ids in the order of their first occurrence: the Map's key order. */
  function FirstIds(ads: seq<AdData>): (ids: seq<Key>)
    ensures forall k :: k in ids <==> HasId(ads, k)
    ensures forall p, q :: 0 <= p < q < |ids| ==> ids[p] != ids[q]
    ensures |ids| <= |ads|
  {
    if ads == [] then []
    else
      var init := ads[..|ads| - 1];
      var k := ads[|ads| - 1].archiveId;
      var ids := FirstIds(init);
      assert forall j :: HasId(init, j) ==> HasId(ads, j) by {
        forall j | HasId(init, j) ensures HasId(ads, j) {
          var i :| 0 <= i < |init| && init[i].archiveId == j;
          assert ads[i] == init[i];
        }
      }
      assert forall j :: HasId(ads, j) && j != k ==> HasId(init, j) by {
        forall j | HasId(ads, j) && j != k ensures HasId(init, j) {
          var i :| 0 <= i < |ads| && ads[i].archiveId == j;
          assert init[i] == ads[i];
        }
      }
      assert HasId(ads, k) by {
        assert ads[|ads| - 1].archiveId == k;
      }
      if k in ids then ids else ids + [k]
  }

  /** The index of the last ad with archive id `k`. */
  function LastIndex(ads: seq<AdData>, k: Key): (r: nat)
    requires HasId(ads, k)
    ensures r < |ads| && ads[r].archiveId == k
    ensures forall j :: r < j < |ads| ==> ads[j].archiveId != k
  {
    var n := |ads| - 1;
    if ads[n].archiveId == k then n
    else
      assert HasId(ads[..n], k) by {
        var i :| 0 <= i < |ads| && ads[i].archiveId == k;
        assert i < n && ads[..n][i] == ads[i];
      }
      LastIndex(ads[..n], k)
  }

  /** The index of the first ad with archive id `k`. */
  function FirstIndex(ads: seq<AdData>, k: Key): (r: nat)
    requires HasId(ads, k)
    ensures r < |ads| && ads[r].archiveId == k
    ensures forall j :: 0 <= j < r ==> ads[j].archiveId != k
  {
    if ads[0].archiveId == k then 0
    else
      assert HasId(ads[1..], k) by {
        var i :| 0 <= i < |ads| && ads[i].archiveId == k;
        assert i > 0 && ads[1..][i - 1] == ads[i];
      }
      1 + FirstIndex(ads[1..], k)
  }

  /** The last ad with archive id `k`. */
  function LastWith(ads: seq<AdData>, k: Key): AdData
    requires HasId(ads, k)
  {
    ads[LastIndex(ads, k)]
  }

  /** What `deduplicateAds(ads)` returns. */
  function Deduplicate(ads: seq<AdData>): seq<AdData> {
    var ids := FirstIds(ads);
    seq(|ids|, p requires 0 <= p < |ids| => LastWith(ads, ids[p]))
  }

  /**
   * After reading `ads[..i]`, the Map holds one entry per id read, its keys
   * in order of first occurrence and each value the last ad with its key.
   */
  ghost predicate Tracks(ads: seq<AdData>, i: nat, order: seq<Key>, seen: map<Key, AdData>)
    requires i <= |ads|
  {
    && order == FirstIds(ads[..i])
    && (forall k :: k in seen <==> k in order)
    && (forall k :: k in seen ==> HasId(ads[..i], k) && seen[k] == LastWith(ads[..i], k))
  }

  /** `deduplicateAds`: fills a Map in a loop, then lists its values in key order. */
  method DeduplicateAds(ads: seq<AdData>) returns (unique: seq<AdData>)
    ensures unique == Deduplicate(ads)
  {
    var order: seq<Key> := [];
    var seen: map<Key, AdData> := map[];
    for i := 0 to |ads|
      invariant Tracks(ads, i, order, seen)
    {
      var ad := ads[i];
      ghost var before := order;
      if ad.archiveId !in seen {
        order := order + [ad.archiveId];
      }
      TracksStep(ads, i, before, seen);
      seen := seen[ad.archiveId := ad];
    }
    assert ads[..|ads|] == ads;
    unique := seq(|order|, p requires 0 <= p < |order| => seen[order[p]]);
  }

  /** Reading `ads[i]` into the Map keeps `Tracks`. */
  lemma {:induction false} TracksStep(ads: seq<AdData>, i: nat, order: seq<Key>, seen: map<Key, AdData>)
    requires i < |ads| && Tracks(ads, i, order, seen)
    ensures var k := ads[i].archiveId;
      Tracks(ads, i + 1, if k in seen then order else order + [k], seen[k := ads[i]])
  {
    var ad := ads[i];
    FirstIdsSnoc(ads, i);
    assert ads[..i + 1][..i] == ads[..i];
    assert ads[..i + 1][i] == ad;
    var seen' := seen[ad.archiveId := ad];
    forall k | k in seen' ensures HasId(ads[..i + 1], k) && seen'[k] == LastWith(ads[..i + 1], k) {
      if k != ad.archiveId {
        var j :| 0 <= j < i && ads[..i][j].archiveId == k;
        assert ads[..i + 1][j] == ads[..i][j];
      }
    }
  }

  /** Reading one more ad appends its id to the key order, unless the id is already there. */
  lemma {:induction false} FirstIdsSnoc(ads: seq<AdData>, i: nat)
    requires i < |ads|
    ensures FirstIds(ads[..i + 1]) ==
      if ads[i].archiveId in FirstIds(ads[..i]) then FirstIds(ads[..i]) else FirstIds(ads[..i]) + [ads[i].archiveId]
  {
    assert ads[..i + 1][..i] == ads[..i];
  }

  // ---------------------------------------------------------------------
  // Properties
  // ---------------------------------------------------------------------

  /**
   * One entry per archive id, never more entries than ads, every id of the
   * input present, in the order of first occurrence, and each entry is the
   * last ad carrying its id.
   */
  lemma {:induction false} DeduplicateSpec(ads: seq<AdData>)
    ensures |Deduplicate(ads)| <= |ads|
    ensures DistinctIds(Deduplicate(ads))
    ensures forall k :: HasId(Deduplicate(ads), k) <==> HasId(ads, k)
    ensures forall p, q :: 0 <= p < q < |Deduplicate(ads)| ==>
      FirstIndex(ads, Deduplicate(ads)[p].archiveId) < FirstIndex(ads, Deduplicate(ads)[q].archiveId)
    ensures forall p :: 0 <= p < |Deduplicate(ads)| ==>
      var j := LastIndex(ads, Deduplicate(ads)[p].archiveId);
      Deduplicate(ads)[p] == ads[j] && forall j' :: j < j' < |ads| ==> ads[j'].archiveId != ads[j].archiveId
  {
    var d := Deduplicate(ads);
    var ids := FirstIds(ads);
    assert forall p :: 0 <= p < |d| ==> d[p].archiveId == ids[p];
    forall k ensures HasId(d, k) <==> HasId(ads, k) {
      if HasId(ads, k) {
        var p :| 0 <= p < |ids| && ids[p] == k;
        assert d[p].archiveId == k;
      }
    }
    FirstIdsOrdered(ads);
  }

  /** The Map's key order is the order of first occurrence. */
  lemma {:induction false} FirstIdsOrdered(ads: seq<AdData>)
    ensures forall p, q :: 0 <= p < q < |FirstIds(ads)| ==>
      FirstIndex(ads, FirstIds(ads)[p]) < FirstIndex(ads, FirstIds(ads)[q])
  {
    if ads != [] {
      var n := |ads| - 1;
      var init := ads[..n];
      FirstIdsOrdered(init);
      var ids := FirstIds(ads);
      var prev := FirstIds(init);
      forall k | k in prev ensures FirstIndex(ads, k) == FirstIndex(init, k) {
        FirstIndexOfPrefix(init, ads, k);
      }
      forall p, q | 0 <= p < q < |ids| ensures FirstIndex(ads, ids[p]) < FirstIndex(ads, ids[q]) {
        if q == |prev| {
          // ids[q] is the new id, which first occurs at n
          assert ids[q] == ads[n].archiveId && !HasId(init, ids[q]);
          assert FirstIndex(ads, ids[q]) == n;
          assert ids[p] == prev[p];
          assert FirstIndex(init, prev[p]) < n;
        } else {
          assert ids[p] == prev[p] && ids[q] == prev[q];
        }
      }
    }
  }

  /** The first occurrence of an id is not moved by appending ads. */
  lemma {:induction false} FirstIndexOfPrefix(init: seq<AdData>, ads: seq<AdData>, k: Key)
    requires init <= ads && HasId(init, k)
    ensures HasId(ads, k) && FirstIndex(ads, k) == FirstIndex(init, k)
  {
    var f := FirstIndex(init, k);
    assert ads[f] == init[f];
  }

  /** Appending ads keeps the keys already in the Map, in place. */
  lemma {:induction false} FirstIdsOfAppend(xs: seq<AdData>, ys: seq<AdData>)
    ensures FirstIds(xs) <= FirstIds(xs + ys)
    decreases |ys|
  {
    if ys == [] {
      assert xs + ys == xs;
    } else {
      var init := ys[..|ys| - 1];
      assert (xs + ys)[..|xs + ys| - 1] == xs + init;
      FirstIdsOfAppend(xs, init);
    }
  }

  /** Ads with distinct ids are all kept, in their order. */
  lemma {:induction false} FirstIdsOfDistinct(ads: seq<AdData>)
    requires DistinctIds(ads)
    ensures |FirstIds(ads)| == |ads|
  {
    if ads != [] {
      var n := |ads| - 1;
      var init := ads[..n];
      assert DistinctIds(init) by {
        forall i, j | 0 <= i < j < |init| ensures init[i].archiveId != init[j].archiveId {
          assert init[i] == ads[i] && init[j] == ads[j];
        }
      }
      FirstIdsOfDistinct(init);
    }
  }

  /**
   * Merging new ads into an already deduplicated list never shrinks it:
   * the count of unique ads is monotone.
   */
  lemma {:induction false} DeduplicateGrows(known: seq<AdData>, more: seq<AdData>)
    requires DistinctIds(known)
    ensures |Deduplicate(known + more)| >= |known|
  {
    FirstIdsOfAppend(known, more);
    FirstIdsOfDistinct(known);
  }

  /** A prefix of a list without repeated ids has none either. */
  lemma {:induction false} DistinctPrefix(ads: seq<AdData>, n: nat)
    requires DistinctIds(ads) && n <= |ads|
    ensures DistinctIds(ads[..n])
  {
    forall i, j | 0 <= i < j < n ensures ads[..n][i].archiveId != ads[..n][j].archiveId {
      assert ads[..n][i] == ads[i] && ads[..n][j] == ads[j];
    }
  }
}
