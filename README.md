# seoul-permit-map: address resolution and caching pipeline

This project models the core of `main.py`. That file collects residential
land-permit records for Seoul's districts, resolves each record's address to
a place name and coordinates through a keyword-search geocoding service, and
memoises every resolution in an address cache. The model has four modules:

- `Common` (common.dfy): `Option`, Python's substring test `Contains`, and
  string truthiness `Truthy`.
- `Selection` (selection.dfy): the tiered choice among search candidates. It
  picks apartments (`아파트`) first, then residential facilities (`주거시설`),
  then real estate (`부동산`), and otherwise takes the first candidate. The
  choice is proved equal to an independent reference definition, "the first
  document of the best tier present" (`Rank`, `IsBest`).
- `Geocode` (geocode.dfy): how one search response is handled (`Interpret`:
  a clean result or an exception) and the lookup rule against the cache
  (`Resolve`).
- `Pipeline` (pipeline.dfy): the district loop of `main`. The pure
  specification is `Step` for one record and `Process` for a sequence of
  records. Lemmas about `Process` give the run-level properties. The class
  `Collector` holds the address cache, the two counters and the output list.
  Its methods `GetLatLon`, `VisitRecord`, `VisitListing` and `Run` are
  proved against `Resolve`, `Step` and `Process`.

External services are inputs:

- The geocoding service is a function from query string to `Response`.
- The listing service is a function from district code to `Listing`.
- The cache file's content at start-up is an `Option` of a map.

A ghost field `Queries` records the search queries sent. It lets the model
state that a cache hit sends no request, and that `api_call_count` equals the
number of requests sent.

The model follows the code as written; in particular:

- A lookup that raises (non-JSON body, transport failure marker, missing
  `documents`, `category_name`, `x` or `y`) returns `(None, None, None)` and
  does NOT commit a negative entry (main.py:71-74). The address is therefore
  searched again when it recurs. Only an empty `documents` list commits the
  negative entry.
- A district whose listing body is non-empty but not JSON (such as the
  transport's `"ERROR:..."` marker) is not skipped: `json.loads` at
  main.py:108 is outside any `try`, so the run aborts. An empty body is
  skipped.

## Model

| member | source | states |
|---|---|---|
| Selection.Filter | main.py:51-55 | the tier filter keeps only documents whose category contains the keyword, and keeps every such document |
| Selection.Candidates | main.py:51-58 | the chosen tier is non-empty exactly when the response is, and holds exactly the documents of the best tier present |
| Selection.Choose | main.py:50-61 | a candidate is chosen exactly when the list is non-empty, and it is one of the service's documents |
| Selection.FilterStartsAtFirstMatch | main.py:51-61 | a tier is not re-ranked: its head is the first document, in service order, whose category contains the keyword |
| Selection.FilterEmptyWhenNoneMentions | main.py:51-57 | a tier is empty exactly when no document's category contains its keyword, so the next tier is tried |
| Selection.ChooseFollowsTiers | main.py:50-61 | the choice is the first apartment; if there is none, the first residential facility; if there is none, the first real-estate document; otherwise the first document |
| Selection.ChooseIsFirstOfBestRank | main.py:50-61 | for every non-empty response, the choice is the first document of the best tier present |
| Selection.ChooseIsBest | main.py:50-61 | whichever index is the first of the best tier is the one chosen |
| Geocode.Interpret | main.py:44-74 | unparsable body or missing `documents` fails; an empty list gives `(None, None, None)`; otherwise it succeeds exactly when every category is a string and the chosen document has `x` and `y`, and it yields that document's `(place_name or None, y, x)` |
| Geocode.Resolve | main.py:35-74 | a hit returns the cached triple, sends no query and leaves the cache unchanged; a miss sends one query; on success the returned triple is `Interpret`'s (so `(None, None, None)` for an empty list, else the chosen document's `(place_name, y, x)`) and only `address` is added, mapped to it; on failure it returns `(None, None, None)` and the cache is unchanged; existing entries are never overwritten |
| Geocode.RepeatedLookup | main.py:37-38 | after a committed lookup, looking the address up again returns the same triple without a query; after a failed one, the address is searched again |
| Pipeline.Step | main.py:111-122 | a non-qualifying record changes nothing; a qualifying one bumps exactly one counter (the hit counter iff the address was cached before resolution), leaves the cache `Resolve` gives, sends the address's query exactly on a miss, and appends exactly when the resolved place name, lat and lng are all truthy the record `{address, place_name, lat, lng, HNDL_YMD, SGG_CD}` built from it and that place |
| Pipeline.Process | main.py:110-122 | processing records only appends to the output, at most one record per input record, and never decreases either counter |
| Pipeline.Gather | main.py:104-110 | the records the run visits are exactly those of the districts' listings |
| Pipeline.GatherAppend | main.py:104-110 | districts are visited in order: gathering two stretches of districts is the first's records followed by the second's |
| Pipeline.ProcessAppend | main.py:104-110 | processing districts one after another equals processing their records concatenated in district order |
| Pipeline.OnlyQualifyingRecordsMatter | main.py:111-113 | the run gives the same state when all records failing `USE_PURP`, `JOB_GBN_NM` or `JIMOK` are dropped |
| Pipeline.CountersCoverQualifying | main.py:115-118 | hits plus misses grows by exactly the number of qualifying records |
| Pipeline.MissesAreQueries | main.py:115-120 | the miss counter grows by exactly the number of search requests sent |
| Pipeline.CacheOnlyGrows | main.py:37-38 | over a run no cache entry is removed or changed |
| Pipeline.OutputsComeFromQualifying | main.py:120-122 | output is only appended to, and every new output record is built from a qualifying record and the usable place that the final cache holds for its address |
| Pipeline.CachedRepeatsAreEmitted | main.py:115-122 | n copies of a qualifying record whose address is cached with a usable place give n output records and n hits, with no query and no cache change (no de-duplication) |
| Pipeline.SingleRecordRun | main.py:104-122 | one qualifying record whose only candidate is a real-estate document `A` at (127.0, 37.5) yields exactly one output record, after one miss and the query `서울시 종로구 1-1` |
| Pipeline.Collector.constructor | main.py:78-102 | the cache starts as the loaded map, or empty when loading fails; the counters start at 0 and the output list is empty |
| Pipeline.Collector.GetLatLon | main.py:35-74 | the new cache, the returned triple and the queries sent are those of `Resolve`; counters and output are unchanged |
| Pipeline.Collector.VisitRecord | main.py:111-122 | the new state is `Step` of the old state |
| Pipeline.Collector.VisitListing | main.py:110-122 | the new state is `Process` of the old state over the listing's records |
| Pipeline.Collector.Run | main.py:104-122 | the new state is `Process` of the old state over all districts' records, in district order and then listing order |

## Left out

- `fetch_post` (main.py:17-31), the aiohttp transport, is not modelled. Its outcome is part of the `Response` and `Listing` inputs. A transport failure's `"ERROR:..."` body is `Unparsable`.
- The geocoding service is a fixed function of the query. The model therefore assumes the same query gets the same answer throughout a run.
- JSON parsing and serialisation, and reading and writing the cache and dataset files (main.py:79-88, 126-138), are library I/O. The model keeps only "the cache starts as the loaded map, or empty". It does not prove a save/load round trip.
- JSON values of unexpected types are not modelled, for example a numeric `x`/`y`, or a non-string `place_name` whose truthiness would differ. In the source, a `documents` value of `null` behaves like an empty list, and the model's `Documents([])` stands for both.
- A non-empty district listing body that is not JSON aborts the run at main.py:108. This is not modelled: `Listing` holds only parsed bodies, and an empty body is `None`. A record missing a key that the guards or the output (main.py:111-122) read raises and aborts the run; this is not modelled either, and `Record` always has all six fields.
- The 60-day date window and the timestamp (main.py:94-97, 127) depend on the clock. They are left out.
- asyncio set-up, the platform check (main.py:141-144) and console output are left out.
- The 25-entry district table (main.py:90) is static data. `Run` takes the district codes as a sequence, and only their order matters.
- The geocoding request's URL and authorisation header (main.py:41-42) are not modelled. Only the query text is recorded.
