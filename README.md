# ads_scraper — a verified model of the scrape, store and sync core

The system mirrors the Meta Ad Library listing of one Facebook page into a
per-page directory of JSON files and keeps track of which ads are still running.
It has four parts:

- **The scraper** (`MetaAdsScraper`):
  - It drives a headless browser and keeps every GraphQL payload that carries ad data.
  - It pulls ad records out of two known response shapes and normalises them.
  - It deduplicates them by `ad_archive_id`: the first occurrence fixes the order and the last occurrence fixes the value.
  - It scrolls until a scroll no longer makes the page taller, five rounds in a row add no new ad, or an optional `maxAds` cap is reached.
- **The store** (`StorageManager`):
  - One directory per `page_id` holds one `<ad_archive_id>.json` per ad and a `metadata.json`.
  - Saving an ad overwrites its file.
  - A status update merges fields into the stored record.
  - Listing a page reads every `.json` file except the metadata file, and returns nothing if any one of them is unreadable.
- **The sync manager** (`SyncManager`):
  - An *initial sync* stores everything a scrape yields and writes the page's counters.
  - An *incremental sync* scrapes the page again:
    - it saves new ads;
    - it saves again the ads whose status, stop time, spend or impressions changed;
    - it retires stored active ads that disappeared, setting `is_active: 0` and a stop time;
    - it rewrites the counters.
  - A failure to save one ad is recorded and the run goes on.
- **Two string helpers**: `isValidPageId` (a non-empty string of ASCII digits) and `extractPageIdFromUrl` (the digits after the first `view_all_page_id=` that is followed by a digit).

How the model is built:

- JSON values are a datatype.
  - Absence (`undefined`) is `None` or a missing key.
  - An ad record (`AdData`) is seven named optional fields plus an extension map, so keys the code never inspects survive every copy.
- The file system is a map from directory to file name to document.
  - A document is either a parsed object or an unparseable file.
- The browser is replaced by oracles, which are plain parameters:
  - whether it launches;
  - whether navigation succeeds;
  - the payloads that arrive before each round of the pagination loop;
  - whether each scroll grew the page.
- The current time is a parameter `now`.
- `scrapeAds`, `extractAdsFromResponses`, the store's operations and both syncs are methods on classes (`MetaAdsScraper`, `StorageManager`, `SyncManager`) that hold the state they work on. `scrapeAds` and the store's writes update fields (the response buffer, the file map); `extractAdsFromResponses` and the store's reads only read them.
- `deduplicateAds` uses no field of the scraper, so it is a method outside the class, with the `Map` it fills as a local variable.
- Each of these methods is proved to reach exactly the outcome of a specification function:
  - `ScrapeAds` reaches `Scrape`, `ExtractAdsFromResponses` reaches `ExtractAll` and `DeduplicateAds` reaches `Deduplicate`;
  - `SaveAd` reaches `SaveAdTo`, `GetAd` reaches `ReadAd`, `GetAllAds` reaches `ListAds`, `SaveMetadata` reaches `SaveMetadataTo`, `GetMetadata` reaches `ReadMetadata`, `UpdateAdStatus` reaches `UpdateStatusIn` and `EnsurePageDir` reaches `WithPageDir`;
  - `InitialSync` reaches `InitialSpec` and `IncrementalSync` reaches `IncrementalSpec`.
- The properties the code promises are proved as lemmas about those functions.

Files:

- `json.dfy`: JSON values and JavaScript truthiness.
- `ads.dfy`: ad records.
- `helpers.dfy`: page-id helpers.
- `extraction.dfy`: response shapes, normalisation and extraction.
- `dedup.dfy`: deduplication.
- `scraper.dfy`: the pagination loop and the scraper class.
- `storage.dfy`: the store.
- `sync.dfy`: the sync manager.
- `resync.dfy`: two incremental syncs of a page in a row.
- `wrappers.dfy`: `Option`, `Result` and `Outcome`.

## Model

| member | source | states |
|---|---|---|
| JsonValue.Member | src/scraper/MetaAdsScraper.ts:148-151 | optional chaining `v?.key` yields a value exactly when `v` is an object holding `key`, and then that key's value |
| JsonValue.PathOfNone | src/scraper/MetaAdsScraper.ts:148-151 | a chain of `?.` accesses starting from `undefined` stays `undefined` |
| JsonValue.Truthy | src/scraper/MetaAdsScraper.ts:55-63 | JavaScript truthiness: `undefined`, `null`, `false`, `0` and `""` are falsy, and every array and object is truthy, even an empty one |
| JsonValue.StrictEq | src/sync/SyncManager.ts:175-182 | `===` between values parsed separately: primitives and `undefined` compare by value, and arrays and objects never compare equal |
| JsonValue.Text | src/storage/StorageManager.ts:20-22 | the template-literal text `${adId}` of an archive id, from which its file name is built |
| JsonValue.NatText | src/storage/StorageManager.ts:20-22 | a number's text in a file name is a non-empty run of decimal digits |
| Ads.ToObject | src/storage/StorageManager.ts:29-34 | the object written for an ad has exactly the ad's keys with the ad's values, extension keys included |
| Ads.FromObject | src/storage/StorageManager.ts:36-44 | the record read back from any object is well formed and has exactly that object's keys and values |
| Ads.ObjectRoundTrip | src/storage/StorageManager.ts:29-44 | writing a well-formed ad and reading it back gives the same ad |
| Ads.RecordRoundTrip | src/storage/StorageManager.ts:29-44 | reading an object as an ad and writing it again gives the same object |
| Ads.FieldExtensionality | src/types/index.ts:2-25 | two well-formed records that agree on every key are equal |
| Ads.Put | src/scraper/MetaAdsScraper.ts:168-185 | setting a key in an object literal changes that key alone (or drops it when the value is `undefined`) |
| Ads.Merge | src/storage/StorageManager.ts:82 | `{...ad, ...updates}` takes every key of `updates` from `updates` and every other key from `ad`, and is well formed |
| Helpers.AllDigits | src/utils/helpers.ts:5-7 | true exactly when every character is an ASCII digit |
| Helpers.IsValidPageId | src/utils/helpers.ts:5-7 | true exactly when the id is non-empty and all ASCII digits |
| Helpers.DigitRun | src/utils/helpers.ts:10 | `\d+` from a position takes digits only and stops at the end or at the first non-digit |
| Helpers.FirstMatch | src/utils/helpers.ts:10 | finds the leftmost `view_all_page_id=` followed by a digit at or after a position, or reports that none exists |
| Helpers.ExtractPageIdFromUrl | src/utils/helpers.ts:9-12 | null exactly when no `view_all_page_id=` is followed by a digit; any result is a valid page id |
| Helpers.ExtractIsLeftmostMaximal | src/utils/helpers.ts:10-11 | the result is the whole digit run after the leftmost matching marker |
| Extraction.Or | src/scraper/MetaAdsScraper.ts:170-171 | JavaScript logical or: the first operand when it is truthy, else the second |
| Extraction.Coalesce | src/scraper/MetaAdsScraper.ts:172 | JavaScript `a ?? d`: the default only when the first operand is `undefined` or `null` |
| Extraction.ContainsAdData | src/scraper/MetaAdsScraper.ts:55-63 | a payload is kept exactly when `data.ad_library_main` or `data.page.ad_library_page_search_result_ads` is truthy |
| Extraction.EdgesOf | src/scraper/MetaAdsScraper.ts:148-151 | a response's edges are the first truthy value of the two `edges` paths, else `[]`; a value that is not an array yields no edge |
| Extraction.EdgeAd | src/scraper/MetaAdsScraper.ts:153-157 | an edge yields the normalised record of its `node` exactly when the node and its `ad_archive_id` are truthy |
| Extraction.ResponseAds | src/scraper/MetaAdsScraper.ts:147-158 | the ads of one response: one normalised record per good edge of its edge list, in order |
| Extraction.ExtractAll | src/scraper/MetaAdsScraper.ts:143-165 | the ads of the buffered responses, response by response and edge by edge, in order |
| Extraction.RejectedResponseHasNoEdges | src/scraper/MetaAdsScraper.ts:55-63 | a response that `containsAdData` rejects yields no edges, so the listener's filter loses no ads |
| Extraction.EdgeProbeOrder | src/scraper/MetaAdsScraper.ts:148-151 | the main-listing edges win whenever they are truthy, even `[]`; the page-listing edges are used only otherwise |
| Extraction.PathBelowFalsy | src/scraper/MetaAdsScraper.ts:148-150 | any `?.` chain below a falsy value is `undefined` |
| Extraction.PathAppend | src/scraper/MetaAdsScraper.ts:148-150 | a `?.` chain can be followed in two parts |
| Extraction.Normalize | src/scraper/MetaAdsScraper.ts:167-186 | the normalised record is well formed |
| Extraction.NormalizeSpec | src/scraper/MetaAdsScraper.ts:167-186 | every raw key is copied verbatim; `page_id` and `page_name` fall back to `page.id` and `page.name` only when absent; `is_active` defaults to 1; no other key is invented |
| Extraction.EdgeAdCondition | src/scraper/MetaAdsScraper.ts:153-157 | an edge yields a record exactly when its `node` is an object with a truthy `ad_archive_id`, and the record is that node normalised |
| Extraction.Candidates | src/scraper/MetaAdsScraper.ts:153-157 | one candidate per edge |
| Extraction.Present | src/scraper/MetaAdsScraper.ts:153-157 | dropping absent candidates never adds entries |
| Extraction.PresentMembership | src/scraper/MetaAdsScraper.ts:153-157 | a record is kept exactly when some candidate is that record |
| Extraction.EdgeAds | src/scraper/MetaAdsScraper.ts:153-157 | never more records than edges |
| Extraction.EdgeAdsMembership | src/scraper/MetaAdsScraper.ts:153-157 | a record is extracted exactly when some edge yields it; bad edges are skipped, not fatal |
| Extraction.EdgeAdsAreProper | src/scraper/MetaAdsScraper.ts:153-157 | every record from a list of edges has a truthy archive id and is well formed |
| Extraction.ExtractAllAreProper | src/scraper/MetaAdsScraper.ts:143-165 | every extracted record has a truthy archive id and is well formed |
| Extraction.EdgeAdsSnoc | src/scraper/MetaAdsScraper.ts:153-157 | edges are processed in order, one push per good edge |
| Extraction.ExtractAllSnoc | src/scraper/MetaAdsScraper.ts:146-162 | responses are processed in order, their records appended |
| Extraction.ExtractAllAppend | src/scraper/MetaAdsScraper.ts:146-162 | extraction distributes over concatenation of the response buffer |
| Extraction.Admitted | src/scraper/MetaAdsScraper.ts:35-50 | the listener keeps exactly the payloads that contain ad data, and never more payloads than arrived |
| Extraction.AdmittedKeepsAllAds | src/scraper/MetaAdsScraper.ts:35-63 | filtering the payloads by `containsAdData` changes no extraction result |
| Extraction.OneGoodOneBadEdge | src/scraper/MetaAdsScraper.ts:153-157 | an edge without an archive id is dropped and the good edge next to it is kept |
| Dedup.FirstIds | src/scraper/MetaAdsScraper.ts:188-194 | the Map's keys in insertion order: each id that occurs once, no repeats, at most as many as the input |
| Dedup.LastIndex | src/scraper/MetaAdsScraper.ts:190-192 | the position of the last record with an id |
| Dedup.FirstIndex | src/scraper/MetaAdsScraper.ts:190-192 | the position of the first record with an id |
| Dedup.Deduplicate | src/scraper/MetaAdsScraper.ts:188-194 | one record per archive id, in order of each id's first occurrence, each being the last record with that id |
| Dedup.DeduplicateAds | src/scraper/MetaAdsScraper.ts:188-194 | the Map-filling loop returns exactly `Deduplicate(ads)` |
| Dedup.TracksStep | src/scraper/MetaAdsScraper.ts:190-192 | one `seen.set` keeps the key order and the last-value map in step with the scanned prefix |
| Dedup.FirstIdsSnoc | src/scraper/MetaAdsScraper.ts:190-192 | a new id is appended to the key order; a known id leaves it unchanged |
| Dedup.DeduplicateSpec | src/scraper/MetaAdsScraper.ts:188-194 | the output is no longer than the input, has one record per id and the same ids, orders ids by first occurrence, and each value is the last record with that id |
| Dedup.FirstIdsOrdered | src/scraper/MetaAdsScraper.ts:188-194 | key order agrees with first-occurrence order |
| Dedup.FirstIndexOfPrefix | src/scraper/MetaAdsScraper.ts:190-192 | appending records does not move an id's first occurrence |
| Dedup.FirstIdsOfAppend | src/scraper/MetaAdsScraper.ts:84-84 | merging more records only extends the key order |
| Dedup.FirstIdsOfDistinct | src/scraper/MetaAdsScraper.ts:188-194 | input without repeated ids keeps its length |
| Dedup.DeduplicateGrows | src/scraper/MetaAdsScraper.ts:84 | merging new records into an already unique list never shrinks it |
| Dedup.DistinctPrefix | src/scraper/MetaAdsScraper.ts:89 | a prefix of a unique list is unique |
| Scraper.SliceTo | src/scraper/MetaAdsScraper.ts:89 | `slice(0, end)` is a prefix; its length is `end` when `0 <= end <= length`, and counts from the back when `end` is negative |
| Scraper.AdsOfResponse | src/scraper/MetaAdsScraper.ts:147-158 | the loop over one response's edges returns exactly that response's records |
| Scraper.MetaAdsScraper.constructor | src/scraper/MetaAdsScraper.ts:4-7 | no browser, no page, an empty buffer |
| Scraper.MetaAdsScraper.Initialize | src/scraper/MetaAdsScraper.ts:9-53 | a successful launch opens browser and page; a failed launch throws and changes nothing; the buffer is untouched |
| Scraper.MetaAdsScraper.Close | src/scraper/MetaAdsScraper.ts:200-206 | afterwards neither browser nor page is open |
| Scraper.MetaAdsScraper.ExtractAdsFromResponses | src/scraper/MetaAdsScraper.ts:143-165 | the loop returns exactly `ExtractAll` of the buffered responses |
| Scraper.MetaAdsScraper.ScrapeAds | src/scraper/MetaAdsScraper.ts:65-118 | with no page it throws "not initialized" and touches nothing; a failed navigation throws with an emptied buffer; otherwise the loop returns exactly `Scrape`'s ads and leaves its buffer |
| Scraper.Step | src/scraper/MetaAdsScraper.ts:88-103 | one round's decision: return the first `maxAds` unique ads once there are that many, stop on the fifth round in a row without growth, and otherwise carry on, resetting the counter when the count grew |
| Scraper.GrowingScrolls | src/scraper/MetaAdsScraper.ts:105-109 | how many scrolls in a row, from a given round on, made the page taller: all of them are growth, and the next one, if any, is not |
| Scraper.Cycles | src/scraper/MetaAdsScraper.ts:82-112 | the loop from a given round: extract, deduplicate, decide, then scroll and go on only while the page grows |
| Scraper.Scrape | src/scraper/MetaAdsScraper.ts:65-118 | a scrape after navigation: the loop from an empty buffer and empty state |
| Scraper.OneCycle | src/scraper/MetaAdsScraper.ts:82-112 | one round of the loop: cap reached returns the prefix; a fifth stall returns what was collected; no height growth returns the new state's ads; otherwise the loop goes on |
| Scraper.StepProperties | src/scraper/MetaAdsScraper.ts:84-103 | the unique count never falls below the last count; the cap returns exactly `maxAds` records; the loop stops exactly at the fifth consecutive stall; the stall counter resets exactly when the count grows |
| Scraper.DistinctStep | src/scraper/MetaAdsScraper.ts:84-103 | one round keeps the collected ads unique |
| Scraper.CyclesDistinct | src/scraper/MetaAdsScraper.ts:82-114 | the loop returns ads with distinct archive ids |
| Scraper.CyclesRespectCap | src/scraper/MetaAdsScraper.ts:88-90 | with a positive cap the loop never returns more than `maxAds` ads |
| Scraper.CyclesBounded | src/scraper/MetaAdsScraper.ts:82-112 | the loop from round `c` runs at least one round and ends at the latest in the round after the first scroll that did not make the page taller |
| Scraper.AbsorbedIds | src/scraper/MetaAdsScraper.ts:84-84 | merging records whose ids are all known leaves the key order unchanged |
| Scraper.AbsorbedAddsNothing | src/scraper/MetaAdsScraper.ts:84-92 | merging only known ids leaves the unique count unchanged |
| Scraper.NoGrowthMeansAbsorbed | src/scraper/MetaAdsScraper.ts:84-92 | a stalled round means every freshly extracted id was already known |
| Scraper.MergedAbsorbs | src/scraper/MetaAdsScraper.ts:84-103 | after a merge, every id just seen is known |
| Scraper.StalledStep | src/scraper/MetaAdsScraper.ts:92-97 | a round with nothing new only advances the stall counter |
| Scraper.StalledRunEnds | src/scraper/MetaAdsScraper.ts:92-97 | once nothing new arrives, the loop ends within the stall rounds left |
| Scraper.QuietFeedEnds | src/scraper/MetaAdsScraper.ts:82-112 | if no more ad payloads arrive, the loop ends within one plus five rounds |
| Scraper.ScrapeProperties | src/scraper/MetaAdsScraper.ts:65-118 | a scrape returns unique ids, at most `maxAds` ads under a positive cap, runs at least one round and at most one more than the scrolls in a row, from the first on, that made the page taller, and at most five rounds if no ad payload ever arrives |
| Storage.WithPageDir | src/storage/StorageManager.ts:24-27 | `mkdir -p` creates the directory and changes no file |
| Storage.WithFile | src/storage/StorageManager.ts:29-34 | a write replaces one file and no other |
| Storage.ReadObject | src/storage/StorageManager.ts:36-44 | a read yields an object exactly when the file exists and parses |
| Storage.PageDir | src/storage/StorageManager.ts:12-14 | the page directory exists exactly when the page id is a string, and is that string; any other page id makes `path.join` throw |
| Storage.IsAdFile | src/storage/StorageManager.ts:50 | `getAllAds` reads the `.json` files other than `metadata.json` |
| Storage.AdFileName | src/storage/StorageManager.ts:20-22 | an ad's file name `${ad_archive_id}.json` |
| Storage.SaveAdTo | src/storage/StorageManager.ts:29-34 | saving fails exactly when the ad's `page_id` is not a string |
| Storage.ReadAd | src/storage/StorageManager.ts:36-44 | `getAd`: the parsed record of the ad's file, or nothing when the file is missing or does not parse |
| Storage.SaveMetadataTo | src/storage/StorageManager.ts:63-67 | saving metadata fails exactly when its `page_id` is not a string |
| Storage.ReadMetadata | src/storage/StorageManager.ts:69-77 | `getMetadata`: the parsed metadata document, or nothing when it is missing or does not parse |
| Storage.UpdateStatusIn | src/storage/StorageManager.ts:79-85 | `updateAdStatus`: a stored ad is saved again with the updates merged over it, and a missing ad leaves the store as it was |
| Storage.AdFiles | src/storage/StorageManager.ts:50 | the listed names that end in `.json` and are not `metadata.json`, and no others |
| Storage.ParseAll | src/storage/StorageManager.ts:53-57 | fails exactly when some ad file is unparseable; otherwise one record per file, in listing order |
| Storage.ListAds | src/storage/StorageManager.ts:46-61 | `getAllAds`: the records of the page's `.json` files other than `metadata.json`, in directory order, or `[]` when the page is unknown or a file does not parse |
| Storage.ReadDir | src/storage/StorageManager.ts:49 | `readdir` lists each file of the directory once |
| Storage.StorageManager.constructor | src/storage/StorageManager.ts:8-10 | the store starts from the given contents |
| Storage.StorageManager.EnsurePageDir | src/storage/StorageManager.ts:24-27 | creates the page directory |
| Storage.StorageManager.SaveAd | src/storage/StorageManager.ts:29-34 | writes the ad's file, or throws for a non-string `page_id` and leaves the store unchanged |
| Storage.StorageManager.GetAd | src/storage/StorageManager.ts:36-44 | returns the stored record, or null exactly when the file is missing or unparseable |
| Storage.StorageManager.GetAllAds | src/storage/StorageManager.ts:46-61 | returns exactly `ListAds` for the directory's listing |
| Storage.StorageManager.SaveMetadata | src/storage/StorageManager.ts:63-67 | writes `metadata.json`, or throws for a non-string `page_id` and leaves the store unchanged |
| Storage.StorageManager.GetMetadata | src/storage/StorageManager.ts:69-77 | returns the stored metadata, or null exactly when it is missing or unparseable |
| Storage.StorageManager.UpdateAdStatus | src/storage/StorageManager.ts:79-85 | performs exactly the read-merge-save of `UpdateStatusIn` |
| Storage.ParseAllFailsOnExtension | src/storage/StorageManager.ts:53-60 | once one file fails to parse, the whole listing fails |
| Storage.ParseAllStep | src/storage/StorageManager.ts:53-56 | each parsed file appends its record |
| Storage.SaveThenGetAd | src/storage/StorageManager.ts:29-44 | `getAd` after `saveAd` returns the saved ad, extra fields included |
| Storage.SaveAdTouchesOneFile | src/storage/StorageManager.ts:20-34 | `saveAd` changes the ad's own file and no other file |
| Storage.SaveThenGetMetadata | src/storage/StorageManager.ts:63-77 | `getMetadata` after `saveMetadata` returns the document; a second save replaces it fully |
| Storage.AdFileNames | src/storage/StorageManager.ts:16-22 | distinct string ids get distinct files; the id `"metadata"` alone lands on `metadata.json` and is then not listed as an ad |
| Storage.MetadataIdCollision | src/storage/StorageManager.ts:16-22 | saving an ad with id `"metadata"` overwrites the page's metadata with that ad |
| Storage.SaveMetadataKeepsAds | src/storage/StorageManager.ts:63-67 | saving metadata leaves every ad readable as before |
| Storage.UpdateMergesIntoStoredAd | src/storage/StorageManager.ts:79-85 | updating a stored ad overrides exactly the keys in `updates` and keeps every other field |
| Storage.UpdateOfMissingAdIsNoOp | src/storage/StorageManager.ts:80-81 | updating an absent ad changes nothing |
| Storage.ListAdsContents | src/storage/StorageManager.ts:46-61 | an unknown page or any unparseable ad file gives `[]`; otherwise one record per ad file, never `metadata.json` |
| Storage.SavedAdIsListed | src/storage/StorageManager.ts:29-61 | a saved ad appears in `getAllAds` of its page |
| Sync.HasChanged | src/sync/SyncManager.ts:175-182 | an ad changed exactly when status, stop time, spend or impressions differ (an object-valued status or stop time always counts as changed) |
| Sync.ActiveCount | src/sync/SyncManager.ts:45-46 | counts the ads with `is_active === 1`: at most all of them, all exactly when every ad is active, none exactly when no ad is |
| Sync.WithCounters | src/sync/SyncManager.ts:140-146 | the metadata `{...base, last_synced, total_ads, active_ads, inactive_ads}` with inactive = total - active |
| Sync.InitialMetadata | src/sync/SyncManager.ts:34-55 | the initial metadata: page id and name of the first ad, counters over all ads |
| Sync.CountersOfWithCounters | src/sync/SyncManager.ts:140-146 | the counters written satisfy `active + inactive == total`; every other metadata field is carried over |
| Sync.SaveEach | src/sync/SyncManager.ts:37-43 | the initial saving loop: each ad saved in turn, a failed save reported and the loop going on |
| Sync.SaveEachErrors | src/sync/SyncManager.ts:37-43 | the save loop records one error per ad whose `page_id` is not a string, in order, and carries on |
| Sync.SaveEachStores | src/sync/SyncManager.ts:37-43 | after the save loop each ad's file holds that ad, unless a later ad of the same page overwrote it |
| Sync.InitialSpec | src/sync/SyncManager.ts:14-83 | `initialSync`: a scrape failure is the only error, else the run goes on with the scraped ads |
| Sync.InitialFromAds | src/sync/SyncManager.ts:30-68 | with no ad the run fails with `No ads found`, else every ad is saved and then the metadata |
| Sync.InitialOutcome | src/sync/SyncManager.ts:14-83 | an empty scrape fails with "No ads found" and writes nothing; otherwise it reports all fetched ads, takes `pageId` from the first ad, and succeeds exactly when the metadata can be saved; per-ad save errors do not fail it; the metadata holds the first ad's page id and name, `total = ads.length`, `active = #is_active==1`, `inactive = total - active >= 0` |
| Sync.ThreeActiveAds | src/sync/SyncManager.ts:14-83 | three active ads of one page: a clean success with counters 3/3/0 |
| Sync.IncrementalUrl | src/sync/SyncManager.ts:97 | the Ad Library URL of every ad of one page (all statuses, types and countries), the page id as its last parameter |
| Sync.QueryPrefixHasNoMarker | src/sync/SyncManager.ts:97 | the fixed part of the incremental URL contains no `view_all_page_id=` |
| Sync.IncrementalUrlFirstMatch | src/sync/SyncManager.ts:97 | in the incremental URL the first marker followed by a digit is the one before the page id |
| Sync.IncrementalUrlRoundTrip | src/sync/SyncManager.ts:97 | extracting the page id from the incremental URL built for a valid page id returns that id |
| Sync.IncrementalSpec | src/sync/SyncManager.ts:85-173 | `incrementalSync`: a page without readable metadata fails first, else the run goes on with the metadata |
| Sync.IncrementalWithMetadata | src/sync/SyncManager.ts:97-105 | a scrape failure is the only error, else the run goes on with the scraped ads and the stored ones |
| Sync.IncrementalFromAds | src/sync/SyncManager.ts:105-158 | the live loop, then the retiring loop, then the metadata save; a failed update or metadata save fails the run |
| Sync.Ids | src/sync/SyncManager.ts:106 | the set of archive ids, as `Set.has` finds them: a string, number, boolean or null id by value; an array or object id never, since each comes fresh from `JSON.parse` |
| Sync.ReconcileAd | src/sync/SyncManager.ts:112-125 | one live ad: a known id is saved again and counted as updated only when its stored record changed; an unknown id is saved and counted as new; a failed save is reported |
| Sync.Reconcile | src/sync/SyncManager.ts:111-126 | the live loop over the scraped ads in order |
| Sync.NewCount | src/sync/SyncManager.ts:119-122 | the new-ad count never exceeds the live ads |
| Sync.ChangedCount | src/sync/SyncManager.ts:113-118 | the known ads whose stored record exists, has changed and can be saved, never more than the live ads |
| Sync.ReconcileAdCounts | src/sync/SyncManager.ts:113-118 | one pass of the live loop counts its ad as updated exactly when its id is known, its stored record is readable and has changed, and the save succeeds |
| Sync.ReconcileKeepsFile | src/sync/SyncManager.ts:111-126 | the live loop leaves alone every file of page p that none of its ads of page p is saved under |
| Sync.ReconcileUpdatedCount | src/sync/SyncManager.ts:111-126 | when no live ad overwrites the file a later one reads, the live loop's updated count is exactly `ChangedCount` over the starting store |
| Sync.ReconcileCounts | src/sync/SyncManager.ts:108-126 | the live loop counts as new exactly the unknown ids it could save; it does at most one count or error per ad; errors only accumulate |
| Sync.ReconcileKeepsReadable | src/sync/SyncManager.ts:111-126 | the live loop never makes a readable ad unreadable |
| Sync.ReconcileAdKeepsFiles | src/sync/SyncManager.ts:111-126 | one live ad's processing keeps every readable file readable |
| Sync.ReconcileSettles | src/sync/SyncManager.ts:111-126 | for live ads of the page with distinct ids, string ids and primitive status fields, whose known ids are readable: afterwards each one is stored and `hasChanged` reports nothing against it, and no errors are added |
| Sync.ReconcileAdSettles | src/sync/SyncManager.ts:111-126 | one live ad's processing settles it without unsettling the ads before it |
| Sync.ReconcileIdempotent | src/sync/SyncManager.ts:111-126 | live ads that are all known and unchanged cause no write, count or error |
| Sync.SecondPassIsQuiet | src/sync/SyncManager.ts:111-126 | the live loop alone, run twice over the same ads: once every live id is known, the second pass writes nothing and counts `newAds = updatedAds = 0` (the whole sync run twice is `Resync.SecondSyncIsQuiet`) |
| Sync.Retirement | src/sync/SyncManager.ts:131-134 | the update that retires an ad: `is_active: 0` and `ad_delivery_stop_time` set to now |
| Sync.RetireAd | src/sync/SyncManager.ts:130-136 | one stored ad: when gone from the live ids and active it is updated to `is_active: 0` with a stop time and counted; a failed update ends the loop |
| Sync.Retire | src/sync/SyncManager.ts:129-137 | the retiring loop over the stored ads in order |
| Sync.RetireCount | src/sync/SyncManager.ts:128-137 | no more retirements than stored ads |
| Sync.RetireStopsAtFailure | src/sync/SyncManager.ts:128-137 | a failure in the retire loop is fatal: nothing after it runs |
| Sync.RetireCounts | src/sync/SyncManager.ts:128-137 | without failure, the retire loop counts one update per stored active ad missing from the live ids |
| Sync.RetiredRecord | src/sync/SyncManager.ts:131-134 | a retired record has `is_active: 0` and stop time `now`, and every other field as before |
| Sync.RetireAdRetires | src/sync/SyncManager.ts:129-136 | a stored active ad missing from the feed is rewritten retired and counted |
| Sync.RetireEndsAtFailure | src/sync/SyncManager.ts:128-137 | once a prefix of the retiring loop has failed, the whole loop ends as that prefix did |
| Sync.RetireAppend | src/sync/SyncManager.ts:129-137 | the retire loop runs over the stored ads in order |
| Sync.MissingMetadataFailsEarly | src/sync/SyncManager.ts:92-95 | a page without readable metadata fails with the single error `NoMetadata`, whatever the browser would do, fetching nothing and leaving the store as it was |
| Sync.IncrementalMetadata | src/sync/SyncManager.ts:140-146 | `updatedMetadata`: the old metadata with `last_synced` now, `total_ads` the stored ads plus the new ones, `active_ads` the live active ones and `inactive_ads` their difference |
| Sync.IncrementalOutcome | src/sync/SyncManager.ts:85-173 | reports all live ads and the page id; succeeds exactly when retiring and the metadata save succeed; per-ad errors do not fail it; on success the store is the retiring loop's store with the metadata saved, and the metadata written is the old one with `total = existing + new`, `active = live active`, `inactive = total - active` |
| Sync.OneOfThreeGoneStored | src/sync/SyncManager.ts:85-173 | the same scenario from the page directory: `getMetadata` and `getAllAds` read back the metadata and three ad files, and the sync ends as in `OneOfThreeGone` |
| Sync.StoredThree | src/storage/StorageManager.ts:46-61 | a directory holding three ad files and `metadata.json`, listed in that order, lists exactly the three ads, each readable under its own id |
| Sync.AdFilesOfThree | src/storage/StorageManager.ts:50 | of three ad files and `metadata.json`, the filter keeps the three ad files in order |
| Sync.ParseThree | src/storage/StorageManager.ts:53-56 | three parsed files are read into their three records, in order |
| Sync.IdFileIsAdFile | src/storage/StorageManager.ts:50 | a string id other than `"metadata"` names a file that `getAllAds` reads |
| Sync.OneOfThreeGone | src/sync/SyncManager.ts:85-173 | three stored active ads, two still live: clean success, the third retired with stop time `now`, counters 3/2/1 |
| Sync.LiveAdsUnchanged | src/sync/SyncManager.ts:111-126 | unchanged known live ads cause no write and no count |
| Sync.MissingAdRetired | src/sync/SyncManager.ts:128-137 | the one stored active ad missing from the feed is retired and counted once |
| Sync.ListingOf | src/storage/StorageManager.ts:49 | a directory listing holds every name once |
| Sync.SyncManager.constructor | src/sync/SyncManager.ts:9-12 | a sync manager over a store with the given contents and an idle scraper |
| Sync.SyncManager.InitialSync | src/sync/SyncManager.ts:14-83 | reaches exactly `InitialSpec`'s result and store; the browser is closed on every path |
| Sync.SyncManager.SaveAll | src/sync/SyncManager.ts:37-43 | the per-ad save loop reaches exactly `SaveEach` |
| Sync.SyncManager.IncrementalSync | src/sync/SyncManager.ts:85-173 | reaches exactly `IncrementalSpec`'s result and store (missing metadata fails before the browser starts); the browser is closed on every path |
| Sync.SyncManager.FetchAndApply | src/sync/SyncManager.ts:97-148 | from the URL on, reaches exactly `IncrementalWithMetadata` |
| Sync.SyncManager.ApplyListing | src/sync/SyncManager.ts:105-148 | once the live ads are known, reaches exactly `IncrementalFromAds` over the stored ads |
| Sync.SyncManager.ProcessLiveAds | src/sync/SyncManager.ts:108-126 | the live loop reaches exactly `Reconcile` |
| Sync.SyncManager.ProcessAd | src/sync/SyncManager.ts:112-125 | one live ad's iteration reaches exactly `ReconcileAd` |
| Sync.SyncManager.RetireMissingAds | src/sync/SyncManager.ts:128-137 | the retire loop reaches exactly `Retire` |
| Sync.SyncManager.RetireIfMissing | src/sync/SyncManager.ts:130-136 | one stored ad's iteration reaches exactly `RetireAd` |
| Resync.TidyKept | src/storage/StorageManager.ts:29-34 | writing records that sit under their own ids keeps a page tidy |
| Resync.StoredAds | src/storage/StorageManager.ts:46-61 | on a tidy page, `getAllAds` returns one record per ad file, each read back from the file its own id names, and an active record exactly for an active file |
| Resync.ReconcileAdWrites | src/sync/SyncManager.ts:112-125 | one live ad's pass changes no file but that ad's own, and writes there a record of the page under a live id |
| Resync.ReconcileWrites | src/sync/SyncManager.ts:111-126 | the live loop writes only records of live ads, each under its own id |
| Resync.RetireAdWrites | src/sync/SyncManager.ts:130-136 | on a tidy page one retiring pass does not fail, changes no file but its own stored ad's, writes there only an inactive record of a gone id, and leaves that ad inactive when it is gone |
| Resync.RetireWritesFrom | src/sync/SyncManager.ts:129-137 | on a tidy page the retiring loop does not fail, writes only inactive records of ids that are gone, and leaves every gone active ad inactive |
| Resync.RetireWritesCompose | src/sync/SyncManager.ts:129-137 | retiring writes compose |
| Resync.RetireNothing | src/sync/SyncManager.ts:129-137 | when every stored ad is live or inactive, the retiring loop changes nothing |
| Resync.SettledKept | src/sync/SyncManager.ts:128-137 | retiring gone ads leaves every live ad stored as it was |
| Resync.MetadataSaveKeeps | src/sync/SyncManager.ts:148 | rewriting only `metadata.json` keeps page p `Tidy`, `Settled` and `Quiet` |
| Resync.LiveLoopSettles | src/sync/SyncManager.ts:105-126 | the live loop of a sync of a tidy page stores every live ad unchanged, writes only live records, and keeps the page tidy |
| Resync.RetireLoopQuiets | src/sync/SyncManager.ts:128-137 | after it, the retiring loop does not fail and leaves no active stored ad that is not live |
| Resync.FirstSyncSettles | src/sync/SyncManager.ts:85-173 | an incremental sync of a tidy page leaves it tidy, every live ad stored unchanged and every active stored ad live |
| Resync.SettledSyncIsQuiet | src/sync/SyncManager.ts:105-137 | on such a page the live loop saves and counts nothing and the retiring loop retires nothing |
| Resync.SecondSyncIsQuiet | src/sync/SyncManager.ts:85-173 | two incremental syncs in a row over the same live ads: the second counts no new, updated or retired ad, reports no per-ad error, and leaves every file but the metadata documents as the first left it |

## Left out

- Puppeteer: launch options, viewport, user agent, request interception and the asynchronous `response` listener. The payloads the listener keeps are an input sequence per loop round, filtered by `containsAdData`.
- `waitForAds` polling, the DOM height measurement in `scrollAndWait`, and every `delay`. Whether a scroll grew the page is a boolean oracle per round; a round past the end of that sequence counts as no growth.
- Exceptions thrown inside `goto`, `waitForAds` or `scrollAndWait` are modelled as the single navigation oracle `gotoOk`. A failure part-way through the loop, after some rounds have run, is not modelled.
- The `url` argument of `scrapeAds` only matters to the browser, so the model ignores it.
- `new Date().toISOString()` and `formatTimestamp`: the time is one parameter `now`, shared by all the time stamps of a run.
- Error messages: errors are datatype constructors, not strings, and `error.message` formatting is not modelled.
- All `console` logging. `newAds` and `updatedAds` of an incremental sync are only logged by the source. The model computes them and proves them exact, but does not return them:
  - `newAds` by `Sync.ReconcileCounts`;
  - the live loop's share of `updatedAds` by `Sync.ReconcileAdCounts` for each pass, and by `Sync.ReconcileUpdatedCount` for the whole loop;
  - the retiring loop's share by `Sync.RetireCounts`.
- Sync.ReconcileUpdatedCount judges every live ad against the store as the loop found it, so it needs that no live ad of the page is saved over the file a later live ad reads (`SeparateFiles`). Two live ads with the same file, such as a repeated id or the ids `1` and `"1"`, make a later pass read the record an earlier pass wrote; `Sync.ReconcileAdCounts` still gives each pass's count exactly.
- Real `fs` and `path`:
  - Directories form a map.
  - Write failures other than a non-string `page_id` are not modelled.
  - `path.join` normalisation (`..`, separators inside ids) is not modelled; a path is its directory and file name.
  - The base directory is fixed.
- JSON files that parse to a non-object are left out. Key order in objects is left out: objects are maps.
- Numbers are integers. Floating-point values, `NaN` and number-to-text beyond integers are left out.
- Sync.HasChanged compares `spend` and `impressions` as JSON values by structure, which is what comparing their `JSON.stringify` text does when key order is ignored. It does not restrict them to pairs of strings.
- `Sync.SyncManager.SaveAll`, `FetchAndApply`, `ApplyListing`, `ProcessLiveAds`, `ProcessAd`, `RetireMissingAds` and `RetireIfMissing` are parts of `initialSync` and `incrementalSync` split out as separate methods. They are not separate operations of the source.
- Sync.IncrementalOutcome keeps the source's arithmetic as written. `inactive_ads` is `existing + newAds - activeAds`, and it can be negative when a live active ad is counted as active but could not be saved as new. The model does not assert non-negativity there.
- Dedup.Deduplicate compares archive ids by structure. The source's `Map` compares an array or object id by reference, so two structurally equal ids from different payloads stay apart there, and the model merges them. The sync's id sets (`Sync.Ids`) do follow the reference semantics: an array or object id is never found.
- Resync.SecondSyncIsQuiet holds for a tidy page: every ad file parses and holds an ad of that page under its own string id, as the store itself writes them. It does not cover hand-edited files, numeric ids, or a live ad whose id is "metadata", whose record lands in `metadata.json` and is overwritten by the metadata save. It also needs two more conditions on every live ad, and without either one the source is not idempotent either:
  - the ad belongs to page p: a live ad of another page is saved in that page's directory, is never among page p's stored ids, and is counted new on every run;
  - `is_active` and the stop time are primitives: an object-valued `is_active` is always "changed" under `!==`, so the ad is saved and counted updated on every run.
- `src/index.ts` (command line, environment variables, `process.exit`), `examples/` and the test mocks are not part of this model.
