# Radio Thermostat client: the cached read path

This project models the read path of `TStat.py`, a Python client for Radio
Thermostat wifi thermostats, and proves properties of it in Dafny 4.11.

A read of a logical key (`fmode`, `temp`, `today_heat_runtime`, ...) goes
through these steps:

1. The key is looked up in the API table. An unknown key answers `None`.
2. The key's getters, each an endpoint location and a `/`-separated path, are
   scanned for a cached response younger than the cache expiry.
3. The youngest valid response wins. On equal ages the earlier getter wins.
4. If there is none, the first getter's location is fetched. The payload is
   stored under that location, stamped with the current instant.
5. The payload is descended one level per path segment. A missing level raises.
6. The value is remapped through the entry's optional value map, unless `raw`
   is asked for. A value the map does not know is returned unchanged.

Modules:

- `Wrappers`: `Option`.
- `Json`: the decoded payload, `Split`/`Join` of paths, the descent
  (`Lookup`, and the loop `Descend`).
- `Cache`: `CacheEntry`, validity (`Eligible`) and the freshest-getter
  selection (`Freshest`).
- `TStat`: the API entries, the read as a function of the state (`Resolve`),
  the class `TStat` whose methods change the cache in place, and the lemmas.

The outside world is made explicit:

- Clock: each read takes an integer instant `now`. The source reads the clock
  several times in one read; the model treats them as one instant. One
  consequence: at TStat.py:122 the two `age()` calls read the clock one after
  the other, so when two getters share a location the later one can look a
  little younger and win; in the model their ages are equal and the earlier
  getter keeps the win. Each read
  requires that no cached entry is stamped after `now`. This is
  `Cache.Stamped`, the class's `Valid`: a clock that does not run backwards.
- Transport: the GET plus `json.loads` is a parameter `fetch: string -> Json`.
  It maps a location to the decoded payload. Each read also returns `fetched`,
  the location it fetched, so the number of fetches can be stated.
- API table: a `map<string, ApiEntry>` given to the constructor.
- `cacheExpiry` is an `int` number of ticks. Python's `timedelta` accepts
  negative seconds, and an expiry of zero or less makes every read a fetch.

The code returns `None` for an unknown key (TStat.py:105), and so does the
model (`NotInApi`). A cache hit descends the winner's payload once, along the
winner's path. That is what the file's header comment (TStat.py:40-43) describes. The
code as written does something else on a hit; see "## Findings".

## Model

| member | source | states |
|---|---|---|
| `Json.Split` | TStat.py:149 | `path.split("/")` yields at least one segment, and no segment contains `/` |
| `Json.JoinSplit` | TStat.py:149 | joining the segments with `/` gives back the path |
| `Json.SplitJoin` | TStat.py:149 | splitting `/`-joined slash-free segments gives back exactly those segments |
| `Json.SplitNoSlash` | TStat.py:149 | a path without `/` (such as `fmode`) is one segment: one level of descent |
| `Json.Lookup` | TStat.py:147-150 | descending an empty path yields the payload itself; a failed descent names a segment of the path |
| `Json.LookupAppend` | TStat.py:147-150 | descending along `a + b` is descending along `a` and then along `b`, and an error along `a` stops the descent |
| `Json.LookupSucceedsIff` | TStat.py:147-150 | a descent succeeds if and only if every level is an object holding the next segment, so a missing segment at any level is an error |
| `Json.Descend` | TStat.py:149-150 | the loop that rebinds `response` one segment at a time computes exactly `Lookup` of the payload and the segments |
| `Json.NestedPathScenario` | TStat.py:147-150 | `today/heat_runtime` reaches 42 in `{"today": {"heat_runtime": 42}}` and raises a missing-key error on `{"today": {}}` |
| `Cache.Eligible` | TStat.py:116-119 | a getter's cached response may be reused exactly when its location is cached and its age is strictly below the expiry |
| `Cache.ExpiryBoundary` | TStat.py:119 | an entry whose age equals the expiry is expired; one a tick younger is valid |
| `Cache.CacheEntry.Age` | TStat.py:61-62 | an entry's age is non-negative exactly when it was stamped no later than `now` |
| `Cache.Freshest` | TStat.py:112-129 | no winner exactly when no getter has a cached response younger than the expiry (age equal to the expiry counts as expired). Otherwise the winner is eligible, strictly younger than every earlier eligible getter, and no older than every later one |
| `Cache.FreshestUnique` | TStat.py:112-129 | that characterisation determines the winner uniquely |
| `Cache.TwoGettersOrdering` | TStat.py:119-127 | of two valid responses the younger wins, whatever the getters' order; on a tie the first getter wins |
| `Cache.NothingEligibleWithoutExpiry` | TStat.py:80-81 | with an expiry of zero or less no cached response is eligible |
| `Cache.JustFetchedWins` | TStat.py:119-127 | a first getter fetched at the latest stamp, read within the expiry, is the winner |
| `TStat.Remap` | TStat.py:154-165 | the result is the raw value or the value map's entry for it |
| `TStat.Extract` | TStat.py:147-165 | the answer is a value exactly when the descent along the split path succeeds; otherwise the read raises a path error |
| `TStat.Resolve` | TStat.py:95-165 | one read: the answer is `None` exactly for a key not in the table; without a fetch the cache is unchanged; a fetch is only ever of the first getter's location, and then only that slot changes, to the fetched payload stamped `now` |
| `TStat.ResolveAsWritten` | TStat.py:132-150 | the read as the code is written: identical to `Resolve` on a miss or an unknown key; on a hit it fetches nothing and leaves the cache unchanged, but indexes the payload with the whole path and descends along the last getter's path |
| `TStat.RawBypassesValueMap` | TStat.py:154-156 | with `raw` the extracted value is returned unchanged |
| `TStat.UnmappedReadsAsRaw` | TStat.py:158-165 | a value missing from the value map reads the same with `raw` false as with `raw` true |
| `TStat.MappedReadsAsDisplay` | TStat.py:158-162 | a value present in the value map reads as its mapped display value when `raw` is false |
| `TStat.UnknownKey` | TStat.py:101-105 | an unknown key answers `None`, fetches nothing and leaves the cache unchanged |
| `TStat.HitServesFromCache` | TStat.py:40-43 | on a hit with winner `k` nothing is fetched, the cache is unchanged, and the answer is extracted from `k`'s cached payload along `k`'s path |
| `TStat.MissFetchesFirstGetter` | TStat.py:136-145 | with no eligible getter exactly one fetch is made, for the first getter's location. That slot now holds the fetched payload stamped `now`, every other entry is unchanged, and the answer is extracted from the fetched payload |
| `TStat.NoExpiryAlwaysFetches` | TStat.py:80-81 | after `setCacheExpiry(0)` every read of a key with getters is a live fetch of its first getter |
| `TStat.SharedLocationOneFetch` | TStat.py:40-43 | after a read fetched a location, a read of another key that has a getter at that location, within the expiry, fetches nothing and leaves the cache unchanged. If that is the second key's only getter, its answer comes from the payload already fetched |
| `TStat.RepeatedReadWithinExpiry` | TStat.py:40-43 | reading a key again within the expiry of the fetch that answered it fetches nothing and gives the same answer |
| `TStat.ResolveKeepsStamped` | TStat.py:145 | a read keeps every entry filed under its own location and stamped no later than `now` |
| `TStat.FanModeScenario` | TStat.py:40-43 | fan mode: the first read fetches `/tstat` and shows `"auto"`; a `tmode` read a tick later answers 2 from the cache |
| `TStat.AsWrittenRepeatedReadRaises` | TStat.py:132-150 | as written, the second read of `fmode` within the expiry raises, where the first one answered `"auto"` |
| `TStat.TStat.constructor` | TStat.py:65-68 | a new client has the given address, expiry (5 by default) and API table, and an empty cache |
| `TStat.TStat.SetCacheExpiry` | TStat.py:80-81 | the expiry becomes the new value; it applies to entries already cached |
| `TStat.TStat.FindNewest` | TStat.py:112-129 | the scan loop over the getters returns exactly `Freshest` of the current cache |
| `TStat.TStat.Get` | TStat.py:95-165 | a read (with `raw` false by default, as for every accessor) returns the answer and the fetched location, and leaves the cache as `Resolve` of the old cache says; entries stay stamped no later than `now` |
| `TStat.TStat.GetCurrentTemp` | TStat.py:167-169 | a read of `temp`, passing `raw` on |
| `TStat.TStat.GetTstatMode` | TStat.py:171-173 | a read of `tmode`, passing `raw` on |
| `TStat.TStat.GetFanMode` | TStat.py:175-177 | a read of `fmode`, passing `raw` on |
| `TStat.TStat.GetOverride` | TStat.py:179-181 | a read of `override`, passing `raw` on |
| `TStat.TStat.GetHoldState` | TStat.py:183-185 | a read of `hold`, passing `raw` on |
| `TStat.TStat.GetHeatPoint` | TStat.py:187-189 | a read of `t_heat`, passing `raw` on |
| `TStat.TStat.GetCoolPoint` | TStat.py:191-193 | a read of `t_cool`, passing `raw` on |
| `TStat.TStat.GetSetPoints` | TStat.py:195-197 | a read of `t_heat` and then of `t_cool` on the resulting cache, both with `raw` false whatever the caller passed; when the `t_heat` read raises, that exception is the result and the `t_cool` read never happens |
| `TStat.TStat.GetModel` | TStat.py:199-201 | a read of `model`, passing `raw` on |
| `TStat.TStat.GetTState` | TStat.py:203-205 | a read of `tstate`, passing `raw` on |
| `TStat.TStat.GetFanState` | TStat.py:207-209 | a read of `fstate`, passing `raw` on |
| `TStat.TStat.GetHeatUsageToday` | TStat.py:216-218 | a read of `today_heat_runtime` with `raw` false whatever the caller passed |
| `TStat.TStat.GetHeatUsageYesterday` | TStat.py:220-222 | a read of `yesterday_heat_runtime` with `raw` false whatever the caller passed |
| `TStat.TStat.GetCoolUsageToday` | TStat.py:224-226 | a read of `today_cool_runtime` with `raw` false whatever the caller passed |
| `TStat.TStat.GetCoolUsageYesterday` | TStat.py:228-230 | a read of `yesterday_cool_runtime` with `raw` false whatever the caller passed |

## Left out

- HTTP transport (`_getConn`, `_post`, `setCloudMode`): network I/O. The GET
  of a read is the `fetch` parameter. `_post` also uses `urllib`, which the
  file never imports.
- Transport failures (refused connection, bad status, a body that is not
  JSON): `fetch` is total and returns a decoded payload. In the source a
  failing GET or `json.loads` (TStat.py:141-143) raises before the store at
  TStat.py:145, so that read raises and leaves the cache unchanged; the model
  has no such case.
- `json.loads`: payloads are already decoded `Json` values.
- Logging (`logging.basicConfig`, `l.debug`): no effect on behaviour.
- The constructor's model detection (`API()`, `getAPI(self.getModel())`): the
  `API` module is not part of this model. The table is passed to the
  constructor instead.
- Wall-clock `datetime` and `timedelta`: integer ticks and an explicit `now`
  stand for them. Fractional-second expiries are not modelled.
- `getTime`, `isOK`, `getErrStatus`, `getEventLog`: empty stubs in the source.
- Python's equality of `True` and `1` as dictionary keys: JSON numbers are one
  `Num(real)` kind, so `1` and `1.0` match the same value-map key, but
  booleans never match numbers.
- An unhashable value (object or list) looked up in the value map raises
  `TypeError` in Python, and the read then returns the raw value. The model
  reaches the same result because no value-map key of a Python dict can be
  such a value.
- Concurrency: the source has none.

## Findings

| source | as written | input that shows it | evidently intended | confidence | as-written member | corrected member |
|---|---|---|---|---|---|---|
| TStat.py:135, TStat.py:149-150 | On a cache hit `self.cache[newest[0]].data[newest[1]]` indexes the payload with the whole path string. The result is then descended again along `getter[1]`, where `getter` is the last getter of the scan loop, not the winner. | Table `fmode -> [("/tstat", "fmode")]` and device `/tstat = {"fmode": 1, "tmode": 2}`, expiry 5. The read at tick 0 fetches and answers `"auto"`. The read at tick 1 is a hit that indexes `1["fmode"]` and raises (`AsWrittenRepeatedReadRaises`). | Descend the winner's cached payload once, along the winner's path, as the header comment at TStat.py:40-43 describes. A repeated read within the expiry then gives the same answer from the cache. | high; not executed | `TStat.ResolveAsWritten` | `TStat.RepeatedReadWithinExpiry` |
