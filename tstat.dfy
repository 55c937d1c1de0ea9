/**
 * The read path of the Radio Thermostat client: a logical key is looked up in
 * the API table, answered from the freshest valid cached response among its
 * getters or else from one live fetch of its first getter, descended along
 * the getter's path and optionally remapped (TStat.py:95-165), plus the
 * one-line accessors built on it (TStat.py:167-230).
 */
module TStat {
  import opened Wrappers
  import opened Json
  import opened Cache

  /** What the API table says about one logical key. */
  datatype ApiEntry = ApiEntry(getters: seq<Getter>, valueMap: Option<map<Json, Json>>)

  type Api = map<string, ApiEntry>

  /** Why a read raised instead of returning. */
  datatype Failure =
    | PathNotFound(cause: PathError)  // the descent into the payload failed
    | NoGetters                        // `entry.getters[0]` on an empty list

  /** What `_get` hands back: a value, `None` for a key not in the table, or an exception. */
  datatype Answer = Value(value: Json) | NotInApi | Raised(failure: Failure)

  /** The outcome of one read: the answer, the location fetched (if any) and the new cache. */
  datatype Resolution = Resolution(answer: Answer, fetched: Option<string>, cache: Store)

  /** Best-effort remapping of a raw value to its display value. */
  function Remap(raw: bool, valueMap: Option<map<Json, Json>>, v: Json): (r: Json)
    ensures r == v || (valueMap.Some? && v in valueMap.value && r == valueMap.value[v])
  {
    if raw || valueMap.None? then v
    else if v in valueMap.value then valueMap.value[v]
    else v
  }

  /** Descend a payload along a getter's path, then remap. */
  function Extract(payload: Json, path: string, valueMap: Option<map<Json, Json>>, raw: bool): (a: Answer)
    ensures a.Value? <==> Lookup(payload, Split(path)).Ok?
    ensures !a.Value? ==> a.Raised? && a.failure.PathNotFound?
  {
    match Lookup(payload, Split(path))
    case Ok(v) => Value(Remap(raw, valueMap, v))
    case Err(e) => Raised(PathNotFound(e))
  }

  /**
   * One read of `key` at instant `now`, as the header comment of TStat.py
   * (lines 40-43) describes it. On a cache hit the winning getter's payload is
   * descended once along the winning getter's path; the source does otherwise
   * there (see ResolveAsWritten), and this model deliberately follows the
   * documented behaviour.
   */
  function Resolve(api: Api, cache: Store, expiry: int, now: int,
                   fetch: string -> Json, key: string, raw: bool): (res: Resolution)
    ensures res.answer == NotInApi <==> key !in api
    ensures res.fetched.None? ==> res.cache == cache
    ensures res.fetched.Some? ==>
              && key in api && api[key].getters != []
              && res.fetched.value == api[key].getters[0].location
              && res.cache == cache[res.fetched.value :=
                                      CacheEntry(res.fetched.value, fetch(res.fetched.value), now)]
  {
    if key !in api then Resolution(NotInApi, None, cache)
    else
      var entry := api[key];
      match Freshest(cache, expiry, now, entry.getters)
      case Some(k) =>
        var g := entry.getters[k];
        Resolution(Extract(cache[g.location].data, g.path, entry.valueMap, raw), None, cache)
      case None =>
        if entry.getters == [] then Resolution(Raised(NoGetters), None, cache)
        else
          var g := entry.getters[0];
          var payload := fetch(g.location);
          Resolution(Extract(payload, g.path, entry.valueMap, raw), Some(g.location),
                     cache[g.location := CacheEntry(g.location, payload, now)])
  }

  /** A read keeps every entry filed under its location and stamped no later than `now`. */
  lemma ResolveKeepsStamped(api: Api, cache: Store, expiry: int, now: int,
                            fetch: string -> Json, key: string, raw: bool)
    requires Stamped(cache, now)
    ensures Stamped(Resolve(api, cache, expiry, now, fetch, key, raw).cache, now)
  {
  }

  /** An unknown key answers `None` and neither fetches nor touches the cache. */
  lemma UnknownKey(api: Api, cache: Store, expiry: int, now: int,
                   fetch: string -> Json, key: string, raw: bool)
    requires key !in api
    ensures Resolve(api, cache, expiry, now, fetch, key, raw) == Resolution(NotInApi, None, cache)
  {
  }

  /** A cache hit fetches nothing, leaves the cache as it was and reads the winner's payload. */
  lemma HitServesFromCache(api: Api, cache: Store, expiry: int, now: int,
                           fetch: string -> Json, key: string, raw: bool, k: nat)
    requires key in api && IsFreshest(cache, expiry, now, api[key].getters, k)
    ensures var res := Resolve(api, cache, expiry, now, fetch, key, raw);
            var g := api[key].getters[k];
            && res.fetched == None
            && res.cache == cache
            && res.answer == Extract(cache[g.location].data, g.path, api[key].valueMap, raw)
  {
    FreshestUnique(cache, expiry, now, api[key].getters, k);
  }

  /**
   * When no getter has a valid response, exactly one fetch is made, for the
   * first getter's location; only that slot of the cache changes, and it now
   * holds the fetched payload stamped `now`.
   */
  lemma MissFetchesFirstGetter(api: Api, cache: Store, expiry: int, now: int,
                               fetch: string -> Json, key: string, raw: bool)
    requires key in api && api[key].getters != []
    requires forall i :: 0 <= i < |api[key].getters| ==> !Eligible(cache, expiry, now, api[key].getters[i])
    ensures var res := Resolve(api, cache, expiry, now, fetch, key, raw);
            var g := api[key].getters[0];
            && res.fetched == Some(g.location)
            && res.cache.Keys == cache.Keys + {g.location}
            && res.cache[g.location] == CacheEntry(g.location, fetch(g.location), now)
            && (forall l :: l in cache && l != g.location ==> res.cache[l] == cache[l])
            && res.answer == Extract(fetch(g.location), g.path, api[key].valueMap, raw)
  {
  }

  /** With an expiry of zero or less every read of a key with getters is a live fetch. */
  lemma NoExpiryAlwaysFetches(api: Api, cache: Store, expiry: int, now: int,
                              fetch: string -> Json, key: string, raw: bool)
    requires Stamped(cache, now) && expiry <= 0
    requires key in api && api[key].getters != []
    ensures Resolve(api, cache, expiry, now, fetch, key, raw).fetched
            == Some(api[key].getters[0].location)
  {
    NothingEligibleWithoutExpiry(cache, expiry, now, api[key].getters);
  }

  /**
   * Two keys served by one location: once the first read has fetched it, a
   * read of the second key within the expiry fetches nothing; when that
   * location is the second key's only getter, the answer comes from the
   * payload the first read fetched, descended along the second key's path.
   */
  lemma SharedLocationOneFetch(api: Api, cache: Store, expiry: int, now1: int, now2: int,
                               fetch1: string -> Json, fetch2: string -> Json,
                               a: string, b: string, rawA: bool, rawB: bool, j: nat)
    requires Stamped(cache, now1)
    requires now1 <= now2 < now1 + expiry
    requires Resolve(api, cache, expiry, now1, fetch1, a, rawA).fetched.Some?
    requires b in api && j < |api[b].getters|
    requires api[b].getters[j].location == Resolve(api, cache, expiry, now1, fetch1, a, rawA).fetched.value
    ensures var first := Resolve(api, cache, expiry, now1, fetch1, a, rawA);
            var second := Resolve(api, first.cache, expiry, now2, fetch2, b, rawB);
            && second.fetched == None
            && second.cache == first.cache
            && (|api[b].getters| == 1 ==>
                  second.answer == Extract(fetch1(first.fetched.value), api[b].getters[0].path,
                                           api[b].valueMap, rawB))
  {
    var first := Resolve(api, cache, expiry, now1, fetch1, a, rawA);
    var l := first.fetched.value;
    assert first.cache[l].time == now1;
    assert Eligible(first.cache, expiry, now2, api[b].getters[j]);
  }

  /**
   * Reading a key again within the expiry of the fetch that answered it is a
   * cache hit with the same answer: the cache is transparent.
   */
  lemma RepeatedReadWithinExpiry(api: Api, cache: Store, expiry: int, now1: int, now2: int,
                                 fetch1: string -> Json, fetch2: string -> Json,
                                 key: string, raw: bool)
    requires Stamped(cache, now1)
    requires now1 <= now2 < now1 + expiry
    requires Resolve(api, cache, expiry, now1, fetch1, key, raw).fetched.Some?
    ensures var first := Resolve(api, cache, expiry, now1, fetch1, key, raw);
            Resolve(api, first.cache, expiry, now2, fetch2, key, raw)
              == Resolution(first.answer, None, first.cache)
  {
    var first := Resolve(api, cache, expiry, now1, fetch1, key, raw);
    ResolveKeepsStamped(api, cache, expiry, now1, fetch1, key, raw);
    JustFetchedWins(first.cache, expiry, now1, now2, api[key].getters);
  }

  /** `raw=True` never consults the value map. */
  lemma RawBypassesValueMap(valueMap: Option<map<Json, Json>>, v: Json)
    ensures Remap(true, valueMap, v) == v
  {
  }

  /** A value the map does not know reads the same with and without `raw`. */
  lemma UnmappedReadsAsRaw(api: Api, cache: Store, expiry: int, now: int,
                           fetch: string -> Json, key: string)
    requires Resolve(api, cache, expiry, now, fetch, key, true).answer.Value?
    requires key in api && api[key].valueMap.Some?
    requires Resolve(api, cache, expiry, now, fetch, key, true).answer.value !in api[key].valueMap.value
    ensures Resolve(api, cache, expiry, now, fetch, key, false)
            == Resolve(api, cache, expiry, now, fetch, key, true)
  {
  }

  /** A value the map knows reads as its display value unless `raw` is asked for. */
  lemma MappedReadsAsDisplay(api: Api, cache: Store, expiry: int, now: int,
                             fetch: string -> Json, key: string)
    requires Resolve(api, cache, expiry, now, fetch, key, true).answer.Value?
    requires key in api && api[key].valueMap.Some?
    requires Resolve(api, cache, expiry, now, fetch, key, true).answer.value in api[key].valueMap.value
    ensures var v := Resolve(api, cache, expiry, now, fetch, key, true).answer.value;
            Resolve(api, cache, expiry, now, fetch, key, false).answer
              == Value(api[key].valueMap.value[v])
  {
  }

  /**
   * The thermostat client. `api` is the table of logical keys, `cache` the
   * response cache keyed by location, `cacheExpiry` its lifetime in ticks.
   */
  class TStat {
    const address: string
    var cacheExpiry: int
    var cache: Store
    var api: Api

    /** No cached response is from the future, and each is filed under its location. */
    predicate Valid(now: int)
      reads this
    {
      Stamped(cache, now)
    }

    /** A client with an explicitly supplied API table and an empty cache. */
    constructor (address: string, cacheExpiry: int := 5, api: Api)
      ensures this.address == address && this.cacheExpiry == cacheExpiry && this.api == api
      ensures cache == map[]
      ensures forall now :: Valid(now)
    {
      this.address := address;
      this.cacheExpiry := cacheExpiry;
      this.cache := map[];
      this.api := api;
    }

    /** Changes the lifetime of every cached response, those already stored included. */
    method SetCacheExpiry(newExpiry: int)
      modifies this`cacheExpiry
      ensures cacheExpiry == newExpiry
    {
      cacheExpiry := newExpiry;
    }

    /** The scan of TStat.py:112-129 over a key's getters, keeping the freshest valid one. */
    method FindNewest(getters: seq<Getter>, now: int) returns (newest: Option<nat>)
      ensures newest == Freshest(cache, cacheExpiry, now, getters)
    {
      newest := None;
      var i := 0;
      while i < |getters|
        invariant 0 <= i <= |getters|
        invariant newest == Freshest(cache, cacheExpiry, now, getters[..i])
      {
        assert getters[..i + 1][..i] == getters[..i];
        var location := getters[i].location;
        if location in cache {
          var entry := cache[location];
          if entry.Age(now) < cacheExpiry {
            match newest
            case None =>
              newest := Some(i);
            case Some(k) =>
              if entry.Age(now) < cache[getters[k].location].Age(now) {
                newest := Some(i);
              }
          }
        }
        i := i + 1;
      }
      assert getters[..i] == getters;
    }

    /** `_get`: one read of `key` at instant `now`, fetching through `fetch` on a miss. */
    method Get(key: string, raw: bool := false, now: int, fetch: string -> Json)
      returns (r: Answer, fetched: Option<string>)
      requires Valid(now)
      modifies this`cache
      ensures Valid(now)
      ensures Resolution(r, fetched, cache) == Resolve(api, old(cache), cacheExpiry, now, fetch, key, raw)
    {
      ResolveKeepsStamped(api, cache, cacheExpiry, now, fetch, key, raw);
      if key !in api {
        return NotInApi, None;
      }
      var entry := api[key];
      var newest := FindNewest(entry.getters, now);
      var getter: Getter;
      var response: Json;
      fetched := None;
      if newest.Some? {
        // The source indexes the cached payload with the whole path string and
        // then descends again along the scan's last getter; here the winner's
        // payload is descended once along the winner's path (see Resolve).
        getter := entry.getters[newest.value];
        response := cache[getter.location].data;
      } else {
        if |entry.getters| == 0 {
          return Raised(NoGetters), None;
        }
        getter := entry.getters[0];
        response := fetch(getter.location);
        cache := cache[getter.location := CacheEntry(getter.location, response, now)];
        fetched := Some(getter.location);
      }
      var walked := Descend(response, Split(getter.path));
      match walked
      case Err(e) =>
        r := Raised(PathNotFound(e));
      case Ok(v) =>
        r := Value(Remap(raw, entry.valueMap, v));
    }

    method GetCurrentTemp(raw: bool := false, now: int, fetch: string -> Json)
      returns (r: Answer, fetched: Option<string>)
      requires Valid(now)
      modifies this`cache
      ensures Valid(now)
      ensures Resolution(r, fetched, cache) == Resolve(api, old(cache), cacheExpiry, now, fetch, "temp", raw)
    {
      r, fetched := Get("temp", raw, now, fetch);
    }

    method GetTstatMode(raw: bool := false, now: int, fetch: string -> Json)
      returns (r: Answer, fetched: Option<string>)
      requires Valid(now)
      modifies this`cache
      ensures Valid(now)
      ensures Resolution(r, fetched, cache) == Resolve(api, old(cache), cacheExpiry, now, fetch, "tmode", raw)
    {
      r, fetched := Get("tmode", raw, now, fetch);
    }

    method GetFanMode(raw: bool := false, now: int, fetch: string -> Json)
      returns (r: Answer, fetched: Option<string>)
      requires Valid(now)
      modifies this`cache
      ensures Valid(now)
      ensures Resolution(r, fetched, cache) == Resolve(api, old(cache), cacheExpiry, now, fetch, "fmode", raw)
    {
      r, fetched := Get("fmode", raw, now, fetch);
    }

    method GetOverride(raw: bool := false, now: int, fetch: string -> Json)
      returns (r: Answer, fetched: Option<string>)
      requires Valid(now)
      modifies this`cache
      ensures Valid(now)
      ensures Resolution(r, fetched, cache) == Resolve(api, old(cache), cacheExpiry, now, fetch, "override", raw)
    {
      r, fetched := Get("override", raw, now, fetch);
    }

    method GetHoldState(raw: bool := false, now: int, fetch: string -> Json)
      returns (r: Answer, fetched: Option<string>)
      requires Valid(now)
      modifies this`cache
      ensures Valid(now)
      ensures Resolution(r, fetched, cache) == Resolve(api, old(cache), cacheExpiry, now, fetch, "hold", raw)
    {
      r, fetched := Get("hold", raw, now, fetch);
    }

    method GetHeatPoint(raw: bool := false, now: int, fetch: string -> Json)
      returns (r: Answer, fetched: Option<string>)
      requires Valid(now)
      modifies this`cache
      ensures Valid(now)
      ensures Resolution(r, fetched, cache) == Resolve(api, old(cache), cacheExpiry, now, fetch, "t_heat", raw)
    {
      r, fetched := Get("t_heat", raw, now, fetch);
    }

    method GetCoolPoint(raw: bool := false, now: int, fetch: string -> Json)
      returns (r: Answer, fetched: Option<string>)
      requires Valid(now)
      modifies this`cache
      ensures Valid(now)
      ensures Resolution(r, fetched, cache) == Resolve(api, old(cache), cacheExpiry, now, fetch, "t_cool", raw)
    {
      r, fetched := Get("t_cool", raw, now, fetch);
    }

    /**
     * Both set points; like the source, `raw` is accepted and ignored. An
     * exception from the `t_heat` read propagates before `t_cool` is read, so
     * both answers are then that exception and only the first read's cache
     * write has happened.
     */
    method GetSetPoints(raw: bool := false, now: int, fetch: string -> Json)
      returns (heat: Answer, cool: Answer)
      requires Valid(now)
      modifies this`cache
      ensures Valid(now)
      ensures var first := Resolve(api, old(cache), cacheExpiry, now, fetch, "t_heat", false);
              first.answer.Raised? ==> heat == first.answer && cool == first.answer && cache == first.cache
      ensures var first := Resolve(api, old(cache), cacheExpiry, now, fetch, "t_heat", false);
              var second := Resolve(api, first.cache, cacheExpiry, now, fetch, "t_cool", false);
              !first.answer.Raised? ==>
                heat == first.answer && cool == second.answer && cache == second.cache
    {
      var fetched;
      heat, fetched := GetHeatPoint(false, now, fetch);
      if heat.Raised? {
        cool := heat;
        return;
      }
      cool, fetched := GetCoolPoint(false, now, fetch);
    }

    method GetModel(raw: bool := false, now: int, fetch: string -> Json)
      returns (r: Answer, fetched: Option<string>)
      requires Valid(now)
      modifies this`cache
      ensures Valid(now)
      ensures Resolution(r, fetched, cache) == Resolve(api, old(cache), cacheExpiry, now, fetch, "model", raw)
    {
      r, fetched := Get("model", raw, now, fetch);
    }

    method GetTState(raw: bool := false, now: int, fetch: string -> Json)
      returns (r: Answer, fetched: Option<string>)
      requires Valid(now)
      modifies this`cache
      ensures Valid(now)
      ensures Resolution(r, fetched, cache) == Resolve(api, old(cache), cacheExpiry, now, fetch, "tstate", raw)
    {
      r, fetched := Get("tstate", raw, now, fetch);
    }

    method GetFanState(raw: bool := false, now: int, fetch: string -> Json)
      returns (r: Answer, fetched: Option<string>)
      requires Valid(now)
      modifies this`cache
      ensures Valid(now)
      ensures Resolution(r, fetched, cache) == Resolve(api, old(cache), cacheExpiry, now, fetch, "fstate", raw)
    {
      r, fetched := Get("fstate", raw, now, fetch);
    }

    /** Like the source, the usage accessors accept `raw` and never pass it on. */
    method GetHeatUsageToday(raw: bool := false, now: int, fetch: string -> Json)
      returns (r: Answer, fetched: Option<string>)
      requires Valid(now)
      modifies this`cache
      ensures Valid(now)
      ensures Resolution(r, fetched, cache)
              == Resolve(api, old(cache), cacheExpiry, now, fetch, "today_heat_runtime", false)
    {
      r, fetched := Get("today_heat_runtime", false, now, fetch);
    }

    method GetHeatUsageYesterday(raw: bool := false, now: int, fetch: string -> Json)
      returns (r: Answer, fetched: Option<string>)
      requires Valid(now)
      modifies this`cache
      ensures Valid(now)
      ensures Resolution(r, fetched, cache)
              == Resolve(api, old(cache), cacheExpiry, now, fetch, "yesterday_heat_runtime", false)
    {
      r, fetched := Get("yesterday_heat_runtime", false, now, fetch);
    }

    method GetCoolUsageToday(raw: bool := false, now: int, fetch: string -> Json)
      returns (r: Answer, fetched: Option<string>)
      requires Valid(now)
      modifies this`cache
      ensures Valid(now)
      ensures Resolution(r, fetched, cache)
              == Resolve(api, old(cache), cacheExpiry, now, fetch, "today_cool_runtime", false)
    {
      r, fetched := Get("today_cool_runtime", false, now, fetch);
    }

    method GetCoolUsageYesterday(raw: bool := false, now: int, fetch: string -> Json)
      returns (r: Answer, fetched: Option<string>)
      requires Valid(now)
      modifies this`cache
      ensures Valid(now)
      ensures Resolution(r, fetched, cache)
              == Resolve(api, old(cache), cacheExpiry, now, fetch, "yesterday_cool_runtime", false)
    {
      r, fetched := Get("yesterday_cool_runtime", false, now, fetch);
    }
  }

  /**
   * The read as TStat.py:132-150 is written: on a hit the winner's payload is
   * indexed with its whole path string as one key (line 135), and the result
   * is then descended along the path of the LAST getter of the scan, the
   * loop variable left over from line 113 (lines 149-150). Misses are as in
   * Resolve.
   */
  function ResolveAsWritten(api: Api, cache: Store, expiry: int, now: int,
                            fetch: string -> Json, key: string, raw: bool): (res: Resolution)
    ensures key !in api || Freshest(cache, expiry, now, api[key].getters).None? ==>
              res == Resolve(api, cache, expiry, now, fetch, key, raw)
    ensures key in api && Freshest(cache, expiry, now, api[key].getters).Some? ==>
              res.fetched == None && res.cache == cache
  {
    if key !in api then Resolution(NotInApi, None, cache)
    else
      var entry := api[key];
      match Freshest(cache, expiry, now, entry.getters)
      case Some(k) =>
        var newest := entry.getters[k];
        var last := entry.getters[|entry.getters| - 1];
        var answer :=
          match Lookup(cache[newest.location].data, [newest.path])
          case Ok(v) => Extract(v, last.path, entry.valueMap, raw)
          case Err(e) => Raised(PathNotFound(e));
        Resolution(answer, None, cache)
      case None => Resolve(api, cache, expiry, now, fetch, key, raw)
  }

  /** The fan-mode table entry: `fmode` at `/tstat`, 0 shown as "off" and 1 as "auto". */
  function FanModeApi(): Api
  {
    map["fmode" := ApiEntry([Getter("/tstat", "fmode")],
                            Some(map[Num(0.0) := Str("off"), Num(1.0) := Str("auto")])),
        "tmode" := ApiEntry([Getter("/tstat", "tmode")], None)]
  }

  /** A device whose `/tstat` reports fan mode 1 and thermostat mode 2. */
  function TstatDevice(location: string): Json
  {
    if location == "/tstat" then Obj(map["fmode" := Num(1.0), "tmode" := Num(2.0)]) else Null
  }

  /**
   * The fan-mode scenario: the first read fetches `/tstat` and shows "auto";
   * a read of `tmode` one tick later, within an expiry of 5, is answered
   * from the cache with 2 and fetches nothing.
   */
  lemma FanModeScenario()
    ensures var first := Resolve(FanModeApi(), map[], 5, 0, TstatDevice, "fmode", false);
            var second := Resolve(FanModeApi(), first.cache, 5, 1, TstatDevice, "tmode", false);
            && first.answer == Value(Str("auto")) && first.fetched == Some("/tstat")
            && second.answer == Value(Num(2.0)) && second.fetched == None
  {
    SplitNoSlash("fmode");
    SplitNoSlash("tmode");
    var first := Resolve(FanModeApi(), map[], 5, 0, TstatDevice, "fmode", false);
    assert first.cache == map["/tstat" := CacheEntry("/tstat", TstatDevice("/tstat"), 0)];
    SharedLocationOneFetch(FanModeApi(), map[], 5, 0, 1, TstatDevice, TstatDevice,
                           "fmode", "tmode", false, false, 0);
  }

  /**
   * As written, the same scenario breaks on the second read of `fmode`: the
   * cached `/tstat` payload is indexed with "fmode", giving the number 1, and
   * then 1 is indexed with "fmode" again, which raises.
   */
  lemma AsWrittenRepeatedReadRaises()
    ensures var first := ResolveAsWritten(FanModeApi(), map[], 5, 0, TstatDevice, "fmode", false);
            var second := ResolveAsWritten(FanModeApi(), first.cache, 5, 1, TstatDevice, "fmode", false);
            && first.answer == Value(Str("auto"))
            && second.answer == Raised(PathNotFound(NotAnObject("fmode")))
  {
    SplitNoSlash("fmode");
    var first := ResolveAsWritten(FanModeApi(), map[], 5, 0, TstatDevice, "fmode", false);
    assert first.cache == map["/tstat" := CacheEntry("/tstat", TstatDevice("/tstat"), 0)];
    JustFetchedWins(first.cache, 5, 0, 1, FanModeApi()["fmode"].getters);
  }
}
