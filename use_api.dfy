/**
 * The fetch-through dispatcher of src/hooks/useApi.ts.
 *
 * `fetchFromProxy` (lines 137-195) answers from a session-storage cache when
 * the cached value is truthy. Otherwise it runs one of the eight providers of
 * src/hooks/Anime.ts, classifies the `{ data, error }` envelope, stores and
 * returns `data`, or throws a message normalised by `handleError`.
 * `fetchList` (lines 255-343) routes the five list kinds to a provider with a
 * cache key built from the list kind and the paging.
 *
 * `Dispatch` describes one `fetchFromProxy` call on values; the method
 * `FetchFromProxy` carries it out on a `SessionStorageCache` object and is
 * proved to agree with it. The clock is two parameters: `now` is read by the
 * cache lookup, `doneAt` stamps the entry stored after the provider answered.
 */
module UseApi {
  import opened Wrappers
  import opened JsValues
  import opened JsCollections
  import opened Cache
  import opened CacheProperties
  import opened Anime

  // ---------------------------------------------------------------------
  // Pure helpers
  // ---------------------------------------------------------------------

  predicate EndsWithSlash(url: string)
  {
    |url| > 0 && url[|url| - 1] == '/'
  }

  /** `ensureUrlEndsWithSlash` (lines 15-17). */
  function EnsureUrlEndsWithSlash(url: string): (r: string)
    ensures EndsWithSlash(r)
    ensures EndsWithSlash(url) ==> r == url
    ensures !EndsWithSlash(url) ==> r == url + "/"
  {
    if EndsWithSlash(url) then url else url + "/"
  }

  /** Applying `ensureUrlEndsWithSlash` twice is applying it once. */
  lemma EnsureUrlEndsWithSlashIdempotent(url: string)
    ensures EnsureUrlEndsWithSlash(EnsureUrlEndsWithSlash(url)) == EnsureUrlEndsWithSlash(url)
  {
  }

  const CorsMarker := "Access-Control-Allow-Origin"

  /**
   * The message `handleError` (lines 24-35) throws for an error whose
   * `message` is `message` (the empty string standing for a missing one).
   */
  function HandleError(message: string): (r: string)
    ensures Includes(message, CorsMarker) ==> r == "A CORS error occurred"
    ensures message != "" && !Includes(message, CorsMarker) ==> r == "An error occurred: " + message
    ensures message == "" ==> r == "An error occurred"
  {
    if message != "" && Includes(message, CorsMarker) then "A CORS error occurred"
    else if message != "" then "An error occurred: " + message
    else "An error occurred"
  }

  /** `generateCacheKey` (lines 39-41): the arguments joined, in order, by '-'. */
  function GenerateCacheKey(args: seq<string>): (r: string)
    ensures |args| == 0 ==> r == ""
    ensures |args| == 1 ==> r == args[0]
    ensures |args| >= 2 ==> r == args[0] + "-" + GenerateCacheKey(args[1..])
  {
    Join(args, "-")
  }

  /** One more argument appends '-' and that argument. */
  lemma GenerateCacheKeySnoc(args: seq<string>, last: string)
    requires |args| > 0
    ensures GenerateCacheKey(args + [last]) == GenerateCacheKey(args) + "-" + last
  {
    JoinSnoc(args, last, "-");
  }

  /** Different argument lists can share a key, since '-' may occur inside an argument. */
  lemma GenerateCacheKeyCollides()
    ensures GenerateCacheKey(["a-b"]) == GenerateCacheKey(["a", "b"])
  {
    assert GenerateCacheKey(["a", "b"]) == "a" + "-" + GenerateCacheKey(["b"]);
  }

  // ---------------------------------------------------------------------
  // fetchFromProxy
  // ---------------------------------------------------------------------

  const ProviderNames := ["AdvancedSearch", "animedata", "animeinfo", "animetrending",
                          "animeepisodes", "animeservers", "animewatch", "animerecentepisodes"]

  /**
   * The `switch` of lines 151-176 on values: the provider named by
   * `functionName`, or no call and an undefined response for any other name.
   */
  function Provide(functionName: string, params: map<string, Value>, lib: Library, parse: JsonParser): (inv: Invocation)
    ensures WellShaped(inv.result)
    ensures |inv.calls| <= 1
    ensures functionName !in ProviderNames ==> inv == Invocation(Resolved(NoResponse), [])
    ensures functionName == "AdvancedSearch" ==> inv == AdvancedSearch(params, lib, parse)
    ensures functionName == "animedata" ==> inv == AnimeData(params, lib)
    ensures functionName == "animeinfo" ==> inv == AnimeInfo(params, lib)
    ensures functionName == "animetrending" ==> inv == TrendingEnvelope(params, lib)
    ensures functionName == "animeepisodes" ==> inv == AnimeEpisodes(params, lib)
    ensures functionName == "animeservers" ==> inv == AnimeServers(params, lib)
    ensures functionName == "animewatch" ==> inv == AnimeWatch(params, lib)
    ensures functionName == "animerecentepisodes" ==> inv == RecentEpisodesEnvelope(params, lib)
  {
    if functionName == "AdvancedSearch" then AdvancedSearch(params, lib, parse)
    else if functionName == "animedata" then AnimeData(params, lib)
    else if functionName == "animeinfo" then AnimeInfo(params, lib)
    else if functionName == "animetrending" then TrendingEnvelope(params, lib)
    else if functionName == "animeepisodes" then AnimeEpisodes(params, lib)
    else if functionName == "animeservers" then AnimeServers(params, lib)
    else if functionName == "animewatch" then AnimeWatch(params, lib)
    else if functionName == "animerecentepisodes" then RecentEpisodesEnvelope(params, lib)
    else Invocation(Resolved(NoResponse), [])
  }

  /** The caller's parameters after the provider ran: two providers write paging defaults into them. */
  function ParamsAfter(functionName: string, params: map<string, Value>): (r: map<string, Value>)
    ensures functionName != "animetrending" && functionName != "animerecentepisodes" ==> r == params
    ensures functionName == "animetrending" || functionName == "animerecentepisodes" ==> r == PagingDefaults(params)
  {
    if functionName == "animetrending" || functionName == "animerecentepisodes" then PagingDefaults(params)
    else params
  }

  const UnknownServerError := "Server error: Unknown server error"

  /**
   * Lines 181-186. A rejected provider leaves `response` undefined (the
   * catch at 177 only logs). Failure carries the message of the thrown Error.
   */
  function Classify(res: ProviderResult): (r: Result<Value, string>)
    ensures r.Success? <==> res.Resolved? && res.response.Envelope?
                            && Truthy(res.response.data) && !Truthy(res.response.error)
    ensures r.Success? ==> r.value == res.response.data
    ensures res.Rejected? || res.response.NoResponse? || !Truthy(res.response.data) ==>
      r == Failure(UnknownServerError)
    ensures res.Resolved? && res.response.Envelope? && Truthy(res.response.data) && Truthy(res.response.error) ==>
      r == Failure(ToStr(res.response.error))
  {
    if res.Rejected? || res.response.NoResponse? || !Truthy(res.response.data) then Failure(UnknownServerError)
    else if Truthy(res.response.error) then Failure(ToStr(res.response.error))
    else Success(res.response.data)
  }

  /** How a call ends: it returns a value, throws an Error with a message, or the cache slot could not be parsed. */
  datatype Outcome = Returned(value: Value) | Thrown(message: string) | SlotUnreadable

  /** One `fetchFromProxy` call: its outcome, the new cache state, the caller's parameters, the library calls, and whether the slot was written. */
  datatype DispatchStep = DispatchStep(outcome: Outcome, state: CacheState, params: map<string, Value>,
                                       calls: seq<LibCall>, stored: bool)

  /** `fetchFromProxy` (lines 137-195) on values. */
  function Dispatch(st: CacheState, maxSize: int, maxAge: int, functionName: string, params: map<string, Value>,
                    cacheKey: string, now: int, doneAt: int, lib: Library, parse: JsonParser): (step: DispatchStep)
    ensures !step.outcome.SlotUnreadable?
    ensures step.outcome.Returned? ==> Truthy(step.outcome.value)
    // `keys` and `cache` keep listing the same keys
    ensures Synced(st) ==> Synced(step.state)
    // a truthy cached value is returned with no provider call and no storage write
    ensures var access := Lookup(st, cacheKey, now, maxAge);
      Truthy(access.value) ==> step == DispatchStep(Returned(access.value), access.state, params, [], false)
    // otherwise the provider runs once; its data is stored and returned exactly when
    // it is truthy and `error` is falsy, and every other case throws and leaves the
    // cache as the lookup left it
    ensures var access := Lookup(st, cacheKey, now, maxAge);
      var inv := Provide(functionName, params, lib, parse);
      var res := inv.result;
      !Truthy(access.value) ==>
        step.calls == inv.calls && step.params == ParamsAfter(functionName, params)
        && (step.outcome.Returned? <==> res.Resolved? && res.response.Envelope?
                                        && Truthy(res.response.data) && !Truthy(res.response.error))
        && (step.outcome.Returned? ==>
              step.outcome.value == res.response.data && step.stored
              && step.state == Store(access.state, cacheKey, res.response.data, doneAt, maxSize))
        && (!step.outcome.Returned? ==> step.outcome.Thrown? && !step.stored && step.state == access.state)
  {
    var access := Lookup(st, cacheKey, now, maxAge);
    assert Synced(st) ==> Synced(access.state) by {
      if Synced(st) { LookupKeepsSynced(st, cacheKey, now, maxAge); }
    }
    if Truthy(access.value) then
      DispatchStep(Returned(access.value), access.state, params, [], false)
    else
      var inv := Provide(functionName, params, lib, parse);
      var after := ParamsAfter(functionName, params);
      match Classify(inv.result)
      case Success(data) =>
        assert Synced(access.state) ==> Synced(Store(access.state, cacheKey, data, doneAt, maxSize)) by {
          if Synced(access.state) { StoreKeepsSynced(access.state, cacheKey, data, doneAt, maxSize); }
        }
        DispatchStep(Returned(data), Store(access.state, cacheKey, data, doneAt, maxSize), after, inv.calls, true)
      case Failure(msg) =>
        DispatchStep(Thrown(HandleError(msg)), access.state, after, inv.calls, false)
  }

  /** The `switch` of lines 151-176, run on the caller's parameter object. */
  method RunProvider(functionName: string, parameters: JsObject, lib: Library, parse: JsonParser)
    returns (inv: Invocation)
    modifies parameters
    ensures inv == Provide(functionName, old(parameters.fields), lib, parse)
    ensures parameters.fields == ParamsAfter(functionName, old(parameters.fields))
  {
    if functionName == "AdvancedSearch" {
      inv := AdvancedSearch(parameters.fields, lib, parse);
    } else if functionName == "animedata" {
      inv := AnimeData(parameters.fields, lib);
    } else if functionName == "animeinfo" {
      inv := AnimeInfo(parameters.fields, lib);
    } else if functionName == "animetrending" {
      inv := Trending(parameters, lib);
    } else if functionName == "animeepisodes" {
      inv := AnimeEpisodes(parameters.fields, lib);
    } else if functionName == "animeservers" {
      inv := AnimeServers(parameters.fields, lib);
    } else if functionName == "animewatch" {
      inv := AnimeWatch(parameters.fields, lib);
    } else if functionName == "animerecentepisodes" {
      inv := AnimeRecentEpisodes(parameters, lib);
    } else {
      inv := Invocation(Resolved(NoResponse), []);
    }
  }

  /** `fetchFromProxy` on a cache object and a caller-owned parameter object. */
  method FetchFromProxy(functionName: string, parameters: JsObject, cache: SessionStorageCache, cacheKey: string,
                        now: int, doneAt: int, lib: Library, parse: JsonParser)
    returns (r: Outcome, calls: seq<LibCall>)
    requires cache.Valid()
    modifies parameters, cache, cache.storage
    ensures cache.Valid()
    ensures var step := Dispatch(old(cache.State()), cache.maxSize, cache.maxAge, functionName,
                                 old(parameters.fields), cacheKey, now, doneAt, lib, parse);
      r == step.outcome && calls == step.calls && cache.State() == step.state && parameters.fields == step.params
      && cache.storage.slots == if step.stored then old(cache.storage.slots)[cache.storageKey := SnapshotOf(step.state)]
                                else old(cache.storage.slots)
  {
    var cached := cache.Get(cacheKey, now);
    if Truthy(cached) {
      return Returned(cached), [];
    }
    var inv := RunProvider(functionName, parameters, lib, parse);
    calls := inv.calls;
    var classified := Classify(inv.result);
    if classified.Failure? {
      return Thrown(HandleError(classified.error)), calls;
    }
    cache.Set(cacheKey, classified.value, doneAt);
    r := Returned(classified.value);
  }

  // ---------------------------------------------------------------------
  // Properties of fetchFromProxy
  // ---------------------------------------------------------------------

  /** A message without the letter 'A' cannot mention the CORS header, so it is only prefixed. */
  lemma HandleErrorWithoutA(message: string)
    requires message != "" && 'A' !in message
    ensures HandleError(message) == "An error occurred: " + message
  {
    IncludesNeedsFirstChar(message, CorsMarker);
  }

  /** The message thrown for an unusable response. */
  lemma UnknownServerErrorMessage()
    ensures HandleError(UnknownServerError) == "An error occurred: " + UnknownServerError
  {
    HandleErrorWithoutA(UnknownServerError);
  }

  /**
   * Since no provider builds an envelope with both `data` and `error`, every
   * failure of `fetchFromProxy` throws the same message: provider error
   * messages such as 'Anime ID is required' never reach the caller.
   */
  lemma DispatchThrowsUnknownServerError(st: CacheState, maxSize: int, maxAge: int, functionName: string,
                                         params: map<string, Value>, cacheKey: string, now: int, doneAt: int,
                                         lib: Library, parse: JsonParser)
    ensures var step := Dispatch(st, maxSize, maxAge, functionName, params, cacheKey, now, doneAt, lib, parse);
      step.outcome.Thrown? ==> step.outcome.message == "An error occurred: " + UnknownServerError
  {
    UnknownServerErrorMessage();
  }

  /** An error envelope is classified as an unknown server error, whatever its message. */
  lemma ErrorEnvelopeLosesMessage(msg: string)
    ensures Classify(Resolved(ErrorEnvelope(msg))) == Failure(UnknownServerError)
  {
  }

  /**
   * An envelope with both truthy `data` and a non-empty string `error` throws
   * "An error occurred: " and the error text, or the CORS message.
   */
  lemma BothPresentSurfacesError(data: Value, msg: string)
    requires Truthy(data) && msg != ""
    ensures Classify(Resolved(Envelope(data, Str(msg)))) == Failure(msg)
    ensures !Includes(msg, CorsMarker) ==> HandleError(msg) == "An error occurred: " + msg
    ensures Includes(msg, CorsMarker) ==> HandleError(msg) == "A CORS error occurred"
  {
  }

  /** A name outside the eight providers never calls the library and always throws. */
  lemma DispatchUnknownFunction(st: CacheState, maxSize: int, maxAge: int, functionName: string,
                                params: map<string, Value>, cacheKey: string, now: int, doneAt: int,
                                lib: Library, parse: JsonParser)
    requires functionName !in ProviderNames
    requires !Truthy(Lookup(st, cacheKey, now, maxAge).value)
    ensures var step := Dispatch(st, maxSize, maxAge, functionName, params, cacheKey, now, doneAt, lib, parse);
      step.calls == [] && !step.stored
      && step.outcome == Thrown("An error occurred: " + UnknownServerError)
  {
    UnknownServerErrorMessage();
  }

  /**
   * Through `fetchFromProxy`, `AnimeData` without an id throws the generic
   * message: its 'Anime ID is required' envelope has no `data`.
   */
  lemma MissingIdThrowsUnknownServerError(st: CacheState, maxSize: int, maxAge: int, params: map<string, Value>,
                                          cacheKey: string, now: int, doneAt: int, lib: Library, parse: JsonParser)
    requires !Truthy(Prop(params, "id"))
    requires !Truthy(Lookup(st, cacheKey, now, maxAge).value)
    ensures var step := Dispatch(st, maxSize, maxAge, "animedata", params, cacheKey, now, doneAt, lib, parse);
      step.calls == [] && !step.stored
      && step.outcome == Thrown("An error occurred: " + UnknownServerError)
  {
    UnknownServerErrorMessage();
  }

  /** A falsy value in the cache counts as a miss: the provider is asked again. */
  lemma FalsyCachedValueRefetches(st: CacheState, maxSize: int, maxAge: int, functionName: string,
                                  params: map<string, Value>, cacheKey: string, now: int, doneAt: int,
                                  lib: Library, parse: JsonParser)
    requires Synced(st) && cacheKey in st.cache.items && !IsExpired(st.cache.items[cacheKey], now, maxAge)
    requires !Truthy(st.cache.items[cacheKey].value)
    ensures Dispatch(st, maxSize, maxAge, functionName, params, cacheKey, now, doneAt, lib, parse).calls
         == Provide(functionName, params, lib, parse).calls
  {
    LookupHit(st, cacheKey, now, maxAge);
  }

  /** With a non-empty key and no "" key cached, `fetchFromProxy` keeps the cache within `max(maxSize, 1)` entries. */
  lemma DispatchBounded(st: CacheState, maxSize: int, maxAge: int, functionName: string,
                        params: map<string, Value>, cacheKey: string, now: int, doneAt: int,
                        lib: Library, parse: JsonParser)
    requires Synced(st) && Size(st.cache) <= Bound(maxSize) && "" !in st.keys && cacheKey != ""
    ensures var step := Dispatch(st, maxSize, maxAge, functionName, params, cacheKey, now, doneAt, lib, parse);
      Size(step.state.cache) <= Bound(maxSize) && "" !in step.state.keys
  {
    var access := Lookup(st, cacheKey, now, maxAge);
    LookupKeepsSynced(st, cacheKey, now, maxAge);
    LookupBounded(st, cacheKey, now, maxAge);
    if !Truthy(access.value) {
      var inv := Provide(functionName, params, lib, parse);
      if Classify(inv.result).Success? {
        StoreBounded(access.state, cacheKey, Classify(inv.result).value, doneAt, maxSize);
      }
    }
  }

  /**
   * A call that stored a value is answered from the cache by the next call
   * with the same key within `maxAge` of the store: same value, no library call.
   */
  lemma DispatchThenHit(st: CacheState, maxSize: int, maxAge: int, functionName: string,
                        params: map<string, Value>, cacheKey: string, now: int, doneAt: int,
                        lib: Library, parse: JsonParser,
                        functionName2: string, params2: map<string, Value>, later: int, doneAt2: int,
                        lib2: Library, parse2: JsonParser)
    requires Dispatch(st, maxSize, maxAge, functionName, params, cacheKey, now, doneAt, lib, parse).stored
    requires later - doneAt <= maxAge
    ensures var first := Dispatch(st, maxSize, maxAge, functionName, params, cacheKey, now, doneAt, lib, parse);
      var second := Dispatch(first.state, maxSize, maxAge, functionName2, params2, cacheKey, later, doneAt2, lib2, parse2);
      second.outcome == first.outcome && second.calls == [] && !second.stored
  {
    var first := Dispatch(st, maxSize, maxAge, functionName, params, cacheKey, now, doneAt, lib, parse);
    var access := Lookup(st, cacheKey, now, maxAge);
    var data := first.outcome.value;
    assert first.state == Store(access.state, cacheKey, data, doneAt, maxSize);
    StoreThenLookup(access.state, cacheKey, data, doneAt, later, maxSize, maxAge);
  }

  /**
   * The stored value survives a reload: a new cache instance seeded from the
   * slot written by the first call answers the same key within `maxAge`.
   */
  lemma DispatchHitAfterReload(st: CacheState, maxSize: int, maxAge: int, functionName: string,
                               params: map<string, Value>, cacheKey: string, now: int, doneAt: int,
                               lib: Library, parse: JsonParser,
                               functionName2: string, params2: map<string, Value>, later: int, doneAt2: int,
                               lib2: Library, parse2: JsonParser)
    requires Synced(st)
    requires Dispatch(st, maxSize, maxAge, functionName, params, cacheKey, now, doneAt, lib, parse).stored
    requires later - doneAt <= maxAge
    ensures var first := Dispatch(st, maxSize, maxAge, functionName, params, cacheKey, now, doneAt, lib, parse);
      Load(SnapshotOf(first.state)).Some?
      && var second := Dispatch(Load(SnapshotOf(first.state)).value, maxSize, maxAge, functionName2, params2,
                                cacheKey, later, doneAt2, lib2, parse2);
         second.outcome == first.outcome && second.calls == [] && !second.stored
  {
    var first := Dispatch(st, maxSize, maxAge, functionName, params, cacheKey, now, doneAt, lib, parse);
    DispatchThenHit(st, maxSize, maxAge, functionName, params, cacheKey, now, doneAt, lib, parse,
                    functionName2, params2, later, doneAt2, lib2, parse2);
    ReloadAnswersAlike(first.state, cacheKey, later, maxAge);
  }

  // ---------------------------------------------------------------------
  // fetchList
  // ---------------------------------------------------------------------

  /** Lines 102-103. */
  const CacheSize := 20
  const CacheMaxAge := 24 * 60 * 60 * 1000

  const ListTypes := ["TopRated", "Trending", "Popular", "TopAiring", "Upcoming"]

  /** The key of lines 262-266: `${type}Anime`, page and perPage joined by '-'. */
  function ListKey(listType: string, page: int, perPage: int): (k: string)
    ensures k == listType + "Anime-" + IntToDecimal(page) + "-" + IntToDecimal(perPage)
  {
    var args := [listType + "Anime", IntToDecimal(page), IntToDecimal(perPage)];
    assert GenerateCacheKey(args) == args[0] + "-" + GenerateCacheKey(args[1..]);
    assert GenerateCacheKey(args[1..]) == args[1] + "-" + GenerateCacheKey(args[2..]);
    GenerateCacheKey(args)
  }

  /** What `fetchList` passes to `fetchFromProxy`: the slot name, the key, the provider and its parameters. */
  datatype ListRequest = ListRequest(slotName: string, cacheKey: string, functionName: string,
                                     params: map<string, Value>)

  const ScoreDesc := Arr([Str("[\"SCORE_DESC\"]")])
  const PopularityDesc := Arr([Str("[\"POPULARITY_DESC\"]")])

  /**
   * The `AdvancedSearch` parameters of the four search-backed kinds (lines
   * 270-335): paging as numbers, type ANIME, a sort, and for TopAiring and
   * Upcoming a status, the current season and the year as text.
   */
  function SearchParams(listType: string, page: int, perPage: int, currentSeason: string, year: int)
    : (p: map<string, Value>)
    ensures Prop(p, "page") == Num(page) && Prop(p, "perPage") == Num(perPage)
    ensures Prop(p, "type") == Str("ANIME")
    ensures Prop(p, "sort") == if listType == "TopRated" then ScoreDesc else PopularityDesc
    ensures listType == "TopAiring" || listType == "Upcoming" ==>
      Prop(p, "season") == Str(currentSeason) && Prop(p, "year") == Str(IntToDecimal(year))
      && Prop(p, "status") == Str(if listType == "TopAiring" then "RELEASING" else "NOT_YET_RELEASED")
    ensures listType != "TopAiring" && listType != "Upcoming" ==>
      "season" !in p && "year" !in p && "status" !in p
    // no other property, so `query`, `genres` and the rest keep their defaults
    ensures p.Keys == {"page", "perPage", "type", "sort"}
                      + if listType == "TopAiring" || listType == "Upcoming" then {"season", "year", "status"} else {}
  {
    var base := map["page" := Num(page), "perPage" := Num(perPage), "type" := Str("ANIME"),
                    "sort" := if listType == "TopRated" then ScoreDesc else PopularityDesc];
    if listType == "TopAiring" || listType == "Upcoming" then
      base["status" := Str(if listType == "TopAiring" then "RELEASING" else "NOT_YET_RELEASED")]
          ["season" := Str(currentSeason)]["year" := Str(IntToDecimal(year))]
    else
      base
  }

  /**
   * The routing of `fetchList` (lines 258-335) for a kind, paging, and the
   * values of `getCurrentSeason()` and `year`; None for a kind outside the
   * five, for which `fetchList` resolves to undefined. The final `else`
   * (lines 336-341) cannot be reached.
   */
  function ListPlan(listType: string, page: int, perPage: int, currentSeason: string, year: int): (r: Option<ListRequest>)
    ensures r.Some? <==> listType in ListTypes
    ensures r.Some? ==> r.value.slotName == listType && r.value.cacheKey == ListKey(listType, page, perPage)
    ensures r.Some? && listType == "Trending" ==>
      r.value.functionName == "animetrending" && r.value.params == map["page" := Num(page), "perPage" := Num(perPage)]
    ensures r.Some? && listType != "Trending" ==>
      r.value.functionName == "AdvancedSearch"
      && r.value.params == SearchParams(listType, page, perPage, currentSeason, year)
  {
    if listType !in ListTypes then None
    else if listType == "Trending" then
      Some(ListRequest(listType, ListKey(listType, page, perPage), "animetrending",
                       map["page" := Num(page), "perPage" := Num(perPage)]))
    else
      Some(ListRequest(listType, ListKey(listType, page, perPage), "AdvancedSearch",
                       SearchParams(listType, page, perPage, currentSeason, year)))
  }

  /** Two strings of digits followed by '-' split the same way only if they are equal. */
  lemma SplitAtDash(a: string, b: string, c: string, d: string)
    requires forall i :: 0 <= i < |a| ==> IsDigit(a[i])
    requires forall i :: 0 <= i < |c| ==> IsDigit(c[i])
    requires a + "-" + b == c + "-" + d
    ensures a == c && b == d
  {
    var s := a + "-" + b;
    assert s[|a|] == '-' && s == c + "-" + d && s[|c|] == '-';
    assert forall i :: 0 <= i < |c| ==> s[i] == c[i] && s[i] != '-';
    assert forall i :: 0 <= i < |a| ==> s[i] == a[i] && s[i] != '-';
    // the first '-' of `s` is at both |a| and |c|
    assert |a| >= |c|;
    assert |c| >= |a|;
    assert a == s[..|a|];
    assert c == s[..|c|];
    assert b == s[|a| + 1..];
    assert d == s[|c| + 1..];
  }

  /** The five kinds differ in their first, second or fourth character. */
  lemma ListTypeFromPrefix(t1: string, t2: string)
    requires t1 in ListTypes && t2 in ListTypes
    requires t1[0] == t2[0] && t1[1] == t2[1] && t1[3] == t2[3]
    ensures t1 == t2
  {
  }

  /**
   * For non-negative paging, different list requests never share a cache
   * key, so distinct pages of the same list are cached apart.
   */
  lemma ListKeysDistinct(t1: string, p1: nat, pp1: nat, t2: string, p2: nat, pp2: nat)
    requires t1 in ListTypes && t2 in ListTypes
    requires ListKey(t1, p1, pp1) == ListKey(t2, p2, pp2)
    ensures t1 == t2 && p1 == p2 && pp1 == pp2
  {
    var k := ListKey(t1, p1, pp1);
    assert k[0] == t1[0] && k[1] == t1[1] && k[3] == t1[3];
    assert k[0] == t2[0] && k[1] == t2[1] && k[3] == t2[3];
    ListTypeFromPrefix(t1, t2);
    var n := |t1 + "Anime-"|;
    assert k[n..] == NatToDecimal(p1) + "-" + NatToDecimal(pp1);
    assert k[n..] == NatToDecimal(p2) + "-" + NatToDecimal(pp2);
    SplitAtDash(NatToDecimal(p1), NatToDecimal(pp1), NatToDecimal(p2), NatToDecimal(pp2));
    NatToDecimalInjective(p1, p2);
    NatToDecimalInjective(pp1, pp2);
  }

  /** `createCache` (lines 107-113). */
  method CreateCache(slotName: string, storage: SessionStorage) returns (r: Option<SessionStorageCache>)
    ensures r.None? <==> ReadSlot(storage.slots, slotName).Malformed?
    ensures r.Some? ==> fresh(r.value) && r.value.Valid()
    ensures r.Some? ==> Load(ReadSlot(storage.slots, slotName)) == Some(r.value.State())
    ensures r.Some? ==> r.value.maxSize == CacheSize && r.value.maxAge == CacheMaxAge
    ensures r.Some? ==> r.value.storageKey == slotName && r.value.storage == storage
  {
    r := SessionStorageCache.Create(CacheSize, CacheMaxAge, slotName, storage);
  }

  /**
   * Lines 267-335 for a planned request: open the kind's cache, whose parse
   * failure propagates, and dispatch with a fresh parameter object.
   */
  method FetchPlanned(plan: ListRequest, storage: SessionStorage, now: int, doneAt: int,
                      lib: Library, parse: JsonParser)
    returns (r: Outcome, calls: seq<LibCall>)
    modifies storage
    ensures Load(ReadSlot(old(storage.slots), plan.slotName)).None? ==>
      r == SlotUnreadable && calls == [] && storage.slots == old(storage.slots)
    ensures var loaded := Load(ReadSlot(old(storage.slots), plan.slotName));
      loaded.Some? ==>
        var step := Dispatch(loaded.value, CacheSize, CacheMaxAge, plan.functionName, plan.params,
                             plan.cacheKey, now, doneAt, lib, parse);
        r == step.outcome && calls == step.calls
        && storage.slots == if step.stored then old(storage.slots)[plan.slotName := SnapshotOf(step.state)]
                            else old(storage.slots)
  {
    var cache := CreateCache(plan.slotName, storage);
    if cache.None? {
      return SlotUnreadable, [];
    }
    var params := new JsObject(plan.params);
    r, calls := FetchFromProxy(plan.functionName, params, cache.value, plan.cacheKey, now, doneAt, lib, parse);
  }

  /** `fetchList` (lines 255-343): an unlisted kind resolves to undefined without touching any cache. */
  method FetchList(listType: string, page: int, perPage: int, currentSeason: string, year: int,
                   storage: SessionStorage, now: int, doneAt: int, lib: Library, parse: JsonParser)
    returns (r: Outcome, calls: seq<LibCall>)
    modifies storage
    ensures var plan := ListPlan(listType, page, perPage, currentSeason, year);
      plan.None? ==> r == Returned(Undefined) && calls == [] && storage.slots == old(storage.slots)
    ensures var plan := ListPlan(listType, page, perPage, currentSeason, year);
      var loaded := Load(ReadSlot(old(storage.slots), listType));
      plan.Some? && loaded.None? ==> r == SlotUnreadable && calls == [] && storage.slots == old(storage.slots)
    ensures var plan := ListPlan(listType, page, perPage, currentSeason, year);
      var loaded := Load(ReadSlot(old(storage.slots), listType));
      plan.Some? && loaded.Some? ==>
        var step := Dispatch(loaded.value, CacheSize, CacheMaxAge, plan.value.functionName, plan.value.params,
                             plan.value.cacheKey, now, doneAt, lib, parse);
        r == step.outcome && calls == step.calls
        && storage.slots == if step.stored then old(storage.slots)[listType := SnapshotOf(step.state)]
                            else old(storage.slots)
  {
    var plan := ListPlan(listType, page, perPage, currentSeason, year);
    if plan.None? {
      return Returned(Undefined), [];
    }
    r, calls := FetchPlanned(plan.value, storage, now, doneAt, lib, parse);
  }

  /**
   * A list cache stays within its 20 entries across a `fetchList` call,
   * provided it started within them with no "" key.
   */
  lemma ListDispatchBounded(st: CacheState, listType: string, page: int, perPage: int, currentSeason: string,
                            year: int, now: int, doneAt: int, lib: Library, parse: JsonParser)
    requires Synced(st) && Size(st.cache) <= CacheSize && "" !in st.keys
    requires ListPlan(listType, page, perPage, currentSeason, year).Some?
    ensures var plan := ListPlan(listType, page, perPage, currentSeason, year).value;
      var step := Dispatch(st, CacheSize, CacheMaxAge, plan.functionName, plan.params, plan.cacheKey,
                           now, doneAt, lib, parse);
      Size(step.state.cache) <= CacheSize && "" !in step.state.keys
  {
    var plan := ListPlan(listType, page, perPage, currentSeason, year).value;
    DispatchBounded(st, CacheSize, CacheMaxAge, plan.functionName, plan.params, plan.cacheKey,
                    now, doneAt, lib, parse);
  }
}
