/**
 * The provider layer of src/hooks/Anime.ts: eight async functions that check
 * and default their arguments, call the scraping library once, and resolve
 * to `{ data }` or `{ error }` (or to undefined, or reject).
 *
 * The library is not modelled: `lib` is an arbitrary function from the call
 * a provider makes (with its arguments) to what that call produces, so every
 * property below holds whatever the library does. `JSON.parse`, used by
 * `advancedSearch`, is likewise an arbitrary `parse`. Each provider reports
 * the library calls it made, so that "no call was made" can be stated.
 */
module Anime {
  import opened Wrappers
  import opened JsValues

  /** The library calls the providers make, with the arguments they pass. */
  datatype LibCall =
    | AnilistAdvancedSearch(query: Value, mediaType: Value, page: Value, perPage: Value,
                            format: Value, sort: Value, genres: Value, id: Value,
                            year: Value, status: Value, season: Value)
    | FetchAnilistInfoById(id: Value)
    | FetchAnimeInfo(id: Value, dub: Value, fetchFiller: Value)
    | FetchTrendingAnime(page: Value, perPage: Value)
    | FetchEpisodesListById(id: Value, dub: Value, fetchFiller: Value)
    | FetchEpisodeServers(id: Value)
    | FetchEpisodeSources(episodeId: Value)
    | FetchRecentEpisodes(provider: Value, page: Value, perPage: Value)

  /** An awaited library call either resolves to a value or throws. */
  datatype LibOutcome = Resolves(value: Value) | Throws

  type Library = LibCall -> LibOutcome

  /** `JSON.parse` applied to a string. */
  datatype Parsed = ParsedAs(value: Value) | SyntaxError

  type JsonParser = string -> Parsed

  /** What a provider's promise resolves to: undefined, or an object whose missing fields read as undefined. */
  datatype Response = NoResponse | Envelope(data: Value, error: Value)

  /** `{ data: v }`. */
  function DataEnvelope(v: Value): Response
  {
    Envelope(v, Undefined)
  }

  /** `{ error: msg }`. */
  function ErrorEnvelope(msg: string): Response
  {
    Envelope(Undefined, Str(msg))
  }

  /** A provider's promise resolves, or rejects because an uncaught library call threw. */
  datatype ProviderResult = Resolved(response: Response) | Rejected

  /** A provider's result together with the library calls it made. */
  datatype Invocation = Invocation(result: ProviderResult, calls: seq<LibCall>)

  /** Every envelope a provider builds is `{ data }` or `{ error: <string> }`, never both. */
  predicate WellShaped(res: ProviderResult)
  {
    match res
    case Rejected => true
    case Resolved(NoResponse) => true
    case Resolved(Envelope(d, e)) => e.Undefined? || (d.Undefined? && e.Str?)
  }

  /** The `params` object that `Trending` and `AnimeRecentEpisodes` assign into. */
  class JsObject {
    var fields: map<string, Value>

    constructor (fields: map<string, Value>)
      ensures this.fields == fields
    {
      this.fields := fields;
    }
  }

  const AnimeIdRequired := "Anime ID is required"
  const EpisodeIdRequired := "Episode ID is required"
  const AnimeNotFound := "Anime not found"
  const ContactDeveloper := "Something went wrong. Contact developer for help."
  const Seasons: seq<Value> := [Str("WINTER"), Str("SPRING"), Str("SUMMER"), Str("FALL")]

  /** An awaited library call outside any try: a throw rejects the provider's promise. */
  function Settle(call: LibCall, lib: Library): (inv: Invocation)
    ensures inv.calls == [call] && WellShaped(inv.result)
    ensures lib(call).Resolves? ==> inv.result == Resolved(DataEnvelope(lib(call).value))
    ensures lib(call).Throws? ==> inv.result == Rejected
  {
    match lib(call)
    case Resolves(v) => Invocation(Resolved(DataEnvelope(v)), [call])
    case Throws => Invocation(Rejected, [call])
  }

  /** The shared guard of lines 83-85, 94-96 and 140-142. */
  function RequireId(params: map<string, Value>, call: LibCall, lib: Library): (inv: Invocation)
    ensures WellShaped(inv.result)
    ensures inv.calls == [] <==> !Truthy(Prop(params, "id"))
    ensures inv.result == Resolved(ErrorEnvelope(AnimeIdRequired)) <==> !Truthy(Prop(params, "id"))
    ensures Truthy(Prop(params, "id")) ==> inv == Settle(call, lib)
  {
    if !Truthy(Prop(params, "id")) then Invocation(Resolved(ErrorEnvelope(AnimeIdRequired)), [])
    else Settle(call, lib)
  }

  /** `AnimeData` (lines 82-90). */
  function AnimeData(params: map<string, Value>, lib: Library): (inv: Invocation)
    ensures WellShaped(inv.result)
    ensures inv.calls == [] <==> !Truthy(Prop(params, "id"))
    ensures inv.result == Resolved(ErrorEnvelope(AnimeIdRequired)) <==> !Truthy(Prop(params, "id"))
    ensures Truthy(Prop(params, "id")) ==>
      inv.calls == [FetchAnilistInfoById(Prop(params, "id"))]
      && (inv.result.Rejected? <==> lib(inv.calls[0]).Throws?)
      && (lib(inv.calls[0]).Resolves? ==> inv.result == Resolved(DataEnvelope(lib(inv.calls[0]).value)))
  {
    RequireId(params, FetchAnilistInfoById(Prop(params, "id")), lib)
  }

  /** `AnimeInfo` (lines 93-99). */
  function AnimeInfo(params: map<string, Value>, lib: Library): (inv: Invocation)
    ensures WellShaped(inv.result)
    ensures inv.calls == [] <==> !Truthy(Prop(params, "id"))
    ensures inv.result == Resolved(ErrorEnvelope(AnimeIdRequired)) <==> !Truthy(Prop(params, "id"))
    ensures Truthy(Prop(params, "id")) ==>
      inv.calls == [FetchAnimeInfo(Prop(params, "id"), Bool(false), Bool(false))]
      && (inv.result.Rejected? <==> lib(inv.calls[0]).Throws?)
      && (lib(inv.calls[0]).Resolves? ==> inv.result == Resolved(DataEnvelope(lib(inv.calls[0]).value)))
  {
    RequireId(params, FetchAnimeInfo(Prop(params, "id"), Bool(false), Bool(false)), lib)
  }

  /** `AnimeServers` (lines 139-147). */
  function AnimeServers(params: map<string, Value>, lib: Library): (inv: Invocation)
    ensures WellShaped(inv.result)
    ensures inv.calls == [] <==> !Truthy(Prop(params, "id"))
    ensures inv.result == Resolved(ErrorEnvelope(AnimeIdRequired)) <==> !Truthy(Prop(params, "id"))
    ensures Truthy(Prop(params, "id")) ==>
      inv.calls == [FetchEpisodeServers(Prop(params, "id"))]
      && (inv.result.Rejected? <==> lib(inv.calls[0]).Throws?)
      && (lib(inv.calls[0]).Resolves? ==> inv.result == Resolved(DataEnvelope(lib(inv.calls[0]).value)))
  {
    RequireId(params, FetchEpisodeServers(Prop(params, "id")), lib)
  }

  /**
   * `AnimeEpisodes` (lines 118-136): the whole body is inside a try, so it
   * never rejects; a throwing library call gives `{ error: 'Anime not found' }`.
   */
  function AnimeEpisodes(params: map<string, Value>, lib: Library): (inv: Invocation)
    ensures WellShaped(inv.result) && !inv.result.Rejected?
    ensures inv.calls == [] <==> !Truthy(Prop(params, "id"))
    ensures !Truthy(Prop(params, "id")) ==> inv.result == Resolved(ErrorEnvelope(AnimeIdRequired))
    ensures Truthy(Prop(params, "id")) ==>
      |inv.calls| == 1 && inv.calls[0].FetchEpisodesListById?
      && inv.calls[0].id == Prop(params, "id") && inv.calls[0].fetchFiller == Bool(false)
      && (Truthy(Prop(params, "dub")) ==> inv.calls[0].dub == Prop(params, "dub"))
      && (!Truthy(Prop(params, "dub")) ==> inv.calls[0].dub == Bool(false))
      && (inv.result == Resolved(ErrorEnvelope(AnimeNotFound)) <==> lib(inv.calls[0]).Throws?)
      && (lib(inv.calls[0]).Resolves? ==> inv.result == Resolved(DataEnvelope(lib(inv.calls[0]).value)))
  {
    if !Truthy(Prop(params, "id")) then Invocation(Resolved(ErrorEnvelope(AnimeIdRequired)), [])
    else
      var dub := if Truthy(Prop(params, "dub")) then Prop(params, "dub") else Bool(false);
      var call := FetchEpisodesListById(Prop(params, "id"), dub, Bool(false));
      match lib(call)
      case Resolves(v) => Invocation(Resolved(DataEnvelope(v)), [call])
      case Throws => Invocation(Resolved(ErrorEnvelope(AnimeNotFound)), [call])
  }

  /** `AnimeWatch` (lines 150-169): only the library call is inside the try. */
  function AnimeWatch(params: map<string, Value>, lib: Library): (inv: Invocation)
    ensures WellShaped(inv.result) && !inv.result.Rejected?
    ensures inv.calls == [] <==> !Truthy(Prop(params, "episodeId"))
    ensures !Truthy(Prop(params, "episodeId")) ==> inv.result == Resolved(ErrorEnvelope(EpisodeIdRequired))
    ensures Truthy(Prop(params, "episodeId")) ==>
      inv.calls == [FetchEpisodeSources(Prop(params, "episodeId"))]
      && (inv.result == Resolved(ErrorEnvelope(ContactDeveloper)) <==> lib(inv.calls[0]).Throws?)
      && (lib(inv.calls[0]).Resolves? ==> inv.result == Resolved(DataEnvelope(lib(inv.calls[0]).value)))
  {
    if !Truthy(Prop(params, "episodeId")) then Invocation(Resolved(ErrorEnvelope(EpisodeIdRequired)), [])
    else
      var call := FetchEpisodeSources(Prop(params, "episodeId"));
      match lib(call)
      case Resolves(v) => Invocation(Resolved(DataEnvelope(v)), [call])
      case Throws => Invocation(Resolved(ErrorEnvelope(ContactDeveloper)), [call])
  }

  /**
   * The assignments of lines 103-108 and 176-181: a falsy `page` becomes 1
   * and a falsy `perPage` becomes 16; nothing else changes.
   */
  function PagingDefaults(params: map<string, Value>): (r: map<string, Value>)
    ensures Truthy(Prop(r, "page")) && Truthy(Prop(r, "perPage"))
    ensures Truthy(Prop(params, "page")) ==> Prop(r, "page") == Prop(params, "page")
    ensures !Truthy(Prop(params, "page")) ==> Prop(r, "page") == Num(1)
    ensures Truthy(Prop(params, "perPage")) ==> Prop(r, "perPage") == Prop(params, "perPage")
    ensures !Truthy(Prop(params, "perPage")) ==> Prop(r, "perPage") == Num(16)
    ensures r.Keys == params.Keys + {"page", "perPage"}
    ensures forall k :: k != "page" && k != "perPage" ==> Prop(r, k) == Prop(params, k)
  {
    var withPage := if Truthy(Prop(params, "page")) then params else params["page" := Num(1)];
    if Truthy(Prop(withPage, "perPage")) then withPage else withPage["perPage" := Num(16)]
  }

  /** What `Trending` (lines 102-115) resolves to, given the caller's `params`. */
  function TrendingEnvelope(params: map<string, Value>, lib: Library): (inv: Invocation)
    ensures WellShaped(inv.result)
    ensures inv.calls == [FetchTrendingAnime(Prop(PagingDefaults(params), "page"),
                                             Prop(PagingDefaults(params), "perPage"))]
    ensures inv == Settle(inv.calls[0], lib)
  {
    var p := PagingDefaults(params);
    Settle(FetchTrendingAnime(Prop(p, "page"), Prop(p, "perPage")), lib)
  }

  /** `Trending` (lines 102-115), which writes its defaults into the caller's object. */
  method Trending(params: JsObject, lib: Library) returns (inv: Invocation)
    modifies params
    ensures params.fields == PagingDefaults(old(params.fields))
    ensures inv == TrendingEnvelope(old(params.fields), lib)
  {
    if !Truthy(Prop(params.fields, "page")) {
      params.fields := params.fields["page" := Num(1)];
    }
    if !Truthy(Prop(params.fields, "perPage")) {
      params.fields := params.fields["perPage" := Num(16)];
    }
    inv := Settle(FetchTrendingAnime(Prop(params.fields, "page"), Prop(params.fields, "perPage")), lib);
  }

  /** What `AnimeRecentEpisodes` (lines 172-189) resolves to, given the caller's `params`. */
  function RecentEpisodesEnvelope(params: map<string, Value>, lib: Library): (inv: Invocation)
    ensures WellShaped(inv.result)
    ensures inv.calls == [FetchRecentEpisodes(Str("gogoanime"), Prop(PagingDefaults(params), "page"),
                                              Prop(PagingDefaults(params), "perPage"))]
    ensures inv == Settle(inv.calls[0], lib)
  {
    var p := PagingDefaults(params);
    Settle(FetchRecentEpisodes(Str("gogoanime"), Prop(p, "page"), Prop(p, "perPage")), lib)
  }

  /** `AnimeRecentEpisodes` (lines 172-189), which writes its defaults into the caller's object. */
  method AnimeRecentEpisodes(params: JsObject, lib: Library) returns (inv: Invocation)
    modifies params
    ensures params.fields == PagingDefaults(old(params.fields))
    ensures inv == RecentEpisodesEnvelope(old(params.fields), lib)
  {
    if !Truthy(Prop(params.fields, "page")) {
      params.fields := params.fields["page" := Num(1)];
    }
    if !Truthy(Prop(params.fields, "perPage")) {
      params.fields := params.fields["perPage" := Num(16)];
    }
    inv := Settle(FetchRecentEpisodes(Str("gogoanime"), Prop(params.fields, "page"), Prop(params.fields, "perPage")), lib);
  }

  /** The season check of line 53: one of four upper-case strings, compared exactly. */
  predicate IsSeason(v: Value)
    ensures IsSeason(v) <==> v == Str("WINTER") || v == Str("SPRING") || v == Str("SUMMER") || v == Str("FALL")
    ensures IsSeason(v) ==> Truthy(v)
  {
    v in Seasons
  }

  /** `"<season> is not a valid season"` (line 55). */
  function SeasonError(season: Value): (msg: string)
    ensures |msg| == |ToStr(season)| + |" is not a valid season"|
    ensures msg[..|ToStr(season)|] == ToStr(season)
    ensures msg[|ToStr(season)|..] == " is not a valid season"
  {
    ToStr(season) + " is not a valid season"
  }

  /**
   * Lines 36-45. None where the body throws: `JSON.parse` fails, or what it
   * returns has no `forEach`. The per-genre check returns from the `forEach`
   * callback only, so it never affects the outcome.
   */
  function ParseGenres(genres: Value, parse: JsonParser): (r: Option<Value>)
    ensures !Truthy(genres) ==> r == Some(genres)
    ensures Truthy(genres) ==>
      (r.None? <==> parse(ToStr(genres)).SyntaxError? || !parse(ToStr(genres)).value.Arr?)
    ensures Truthy(genres) && r.Some? ==> r.value == parse(ToStr(genres)).value && r.value.Arr?
  {
    if !Truthy(genres) then Some(genres)
    else match parse(ToStr(genres))
      case SyntaxError => None
      case ParsedAs(g) => if g.Arr? then Some(g) else None
  }

  /** Lines 48-50. None where `JSON.parse` throws. */
  function ParseSort(sort: Value, parse: JsonParser): (r: Option<Value>)
    ensures !Truthy(sort) ==> r == Some(sort)
    ensures Truthy(sort) ==> (r.None? <==> parse(ToStr(sort)).SyntaxError?)
    ensures Truthy(sort) && r.Some? ==> r.value == parse(ToStr(sort)).value
  {
    if !Truthy(sort) then Some(sort)
    else match parse(ToStr(sort))
      case SyntaxError => None
      case ParsedAs(s) => Some(s)
  }

  /**
   * `advancedSearch` (lines 7-79). Everything, the library call included,
   * runs inside a try whose catch only logs, so every exception resolves the
   * promise to undefined. The destructuring defaults (query '', page 1,
   * perPage 16) apply to undefined properties only.
   */
  function AdvancedSearch(params: map<string, Value>, lib: Library, parse: JsonParser): (inv: Invocation)
    ensures WellShaped(inv.result) && !inv.result.Rejected?
    ensures |inv.calls| <= 1
    // the only error envelope is the season one, and it comes without a library call
    ensures inv.result.Resolved? && inv.result.response.Envelope? && !inv.result.response.error.Undefined? ==>
      inv.calls == [] && inv.result.response.error == Str(SeasonError(Prop(params, "season")))
    // an unknown season is reported whenever parsing got that far
    ensures ParseGenres(Prop(params, "genres"), parse).Some? && ParseSort(Prop(params, "sort"), parse).Some?
            && Truthy(Prop(params, "season")) && !IsSeason(Prop(params, "season")) ==>
      inv == Invocation(Resolved(ErrorEnvelope(SeasonError(Prop(params, "season")))), [])
    // a failed parse ends the search with undefined and no library call
    ensures ParseGenres(Prop(params, "genres"), parse).None? || ParseSort(Prop(params, "sort"), parse).None? ==>
      inv == Invocation(Resolved(NoResponse), [])
    // the library is searched with the defaults filled in and a valid or absent season
    ensures |inv.calls| == 1 ==>
      var c := inv.calls[0];
      c.AnilistAdvancedSearch?
      && c.query == OrDefault(Prop(params, "query"), Str(""))
      && c.page == OrDefault(Prop(params, "page"), Num(1))
      && c.perPage == OrDefault(Prop(params, "perPage"), Num(16))
      && c.season == Prop(params, "season") && (Truthy(c.season) ==> IsSeason(c.season))
      && (inv.result == Resolved(NoResponse) <==> lib(c).Throws?)
    // a request whose genres and sort parse and whose season is valid or absent is searched,
    // with the parsed sort and genres, and resolves to the library's data
    ensures var genres := ParseGenres(Prop(params, "genres"), parse);
      var sort := ParseSort(Prop(params, "sort"), parse);
      genres.Some? && sort.Some? && (!Truthy(Prop(params, "season")) || IsSeason(Prop(params, "season"))) ==>
        |inv.calls| == 1 && inv.calls[0].AnilistAdvancedSearch?
        && inv.calls[0].sort == sort.value && inv.calls[0].genres == genres.value
        && inv.calls[0].mediaType == Prop(params, "type") && inv.calls[0].format == Prop(params, "format")
        && inv.calls[0].id == Prop(params, "id") && inv.calls[0].year == Prop(params, "year")
        && inv.calls[0].status == Prop(params, "status")
        && (lib(inv.calls[0]).Resolves? ==> inv.result == Resolved(DataEnvelope(lib(inv.calls[0]).value)))
  {
    var query := OrDefault(Prop(params, "query"), Str(""));
    var page := OrDefault(Prop(params, "page"), Num(1));
    var perPage := OrDefault(Prop(params, "perPage"), Num(16));
    var season := Prop(params, "season");
    var genres := ParseGenres(Prop(params, "genres"), parse);
    if genres.None? then Invocation(Resolved(NoResponse), [])
    else
      var sort := ParseSort(Prop(params, "sort"), parse);
      if sort.None? then Invocation(Resolved(NoResponse), [])
      else if Truthy(season) && !IsSeason(season) then
        Invocation(Resolved(ErrorEnvelope(SeasonError(season))), [])
      else
        var call := AnilistAdvancedSearch(query, Prop(params, "type"), page, perPage, Prop(params, "format"),
                                          sort.value, genres.value, Prop(params, "id"), Prop(params, "year"),
                                          Prop(params, "status"), season);
        match lib(call)
        case Resolves(data) => Invocation(Resolved(DataEnvelope(data)), [call])
        case Throws => Invocation(Resolved(NoResponse), [call])
  }
}
