/**
 * The "find and enqueue track" effect: validates its options, resolves the query to a
 * track (a direct track link, or a filtered search), pushes it to the queue, looks up its
 * position and reports the outcome to the host. The calls into code outside this model
 * (link parsing, fetching a track by id, the queue service, the track summary) are
 * parameters: their outcomes are given, and the effect's use of them is what is proved.
 */
module FindAndEnqueueEffect {
  import opened Wrappers
  import opened SearchTypes
  import SpotifyService

  /** The effect's settings as the host passes them (`maximumLength` in whole minutes). */
  datatype EffectParams = EffectParams(
    query: string,
    queuedBy: string,
    playlistId: string,
    maximumLength: int,
    filterExplicit: bool,
    allowDuplicates: bool)

  const QueryRequiredMessage := "Search Query is required!"
  const TrackNotFoundMessage := "Track not found"

  /** The settings editor's check: the only requirement is a non-empty query. */
  method OptionsValidator(effect: EffectParams) returns (errors: seq<string>)
    ensures effect.query == "" ==> errors == [QueryRequiredMessage]
    ensures effect.query != "" ==> errors == []
  {
    errors := [];
    if effect.query == "" {
      errors := errors + [QueryRequiredMessage];
    }
  }

  /** The calls the effect makes into code outside this model, in the order they are made. */
  datatype ExternalCall =
    | GetIdFromTrackUrl(query: string)
    | GetTrack(id: string)
    | Search(request: SpotifyService.SearchRequest)
    | Push(uri: string, allowDuplicates: bool)
    | FindIndex(uri: string)

  /**
   * The outcomes of those calls: the link id parsed from the query ("" when the query is
   * not a track link), the track fetched for a link id, the search fetch's error, the
   * push's outcome and the queue position found.
   */
  datatype Collaborators = Collaborators(
    linkId: Result<string>,
    linkedTrack: Result<Track>,
    searchError: Option<Error>,
    push: Outcome,
    queueIndex: Result<int>)

  /** One entry of the summarised rejection log. */
  datatype FilteredSummary<S> = FilteredSummary(reasons: seq<FilteredReason>, summary: S)

  /** The effect's outputs; `error` and `spotifyResponse` are absent on the paths that do not set them. */
  datatype Outputs<S> = Outputs(
    trackWasEnqueued: bool,
    error: Option<string>,
    spotifyResponse: Option<Track>,
    spotifyTrack: Option<S>,
    rawFilteredTracks: seq<FilteredEntry<Track>>,
    filteredTracks: seq<FilteredSummary<S>>)

  datatype EffectResult<S> = EffectResult(success: bool, outputs: Outputs<S>)

  /** The search options the effect passes: only `filterExplicit` and `maximumLength`. */
  function TrackSearchOptions(effect: EffectParams): (options: SearchOptions)
    ensures options.limit == None && options.offset == None
    ensures options.filterExplicit == Some(effect.filterExplicit)
    ensures options.maximumLength == Some(effect.maximumLength)
  {
    SearchOptions(None, None, Some(effect.filterExplicit), Some(effect.maximumLength))
  }

  /** The catch block's result: every failure is reported the same way, and the rejection log is dropped. */
  function FailureResult<S>(e: Error): (r: EffectResult<S>)
    ensures IsFailure(r)
    ensures r.outputs.error == Some(e.message)
  {
    EffectResult(false, Outputs(false, Some(e.message), None, None, [], []))
  }

  /** What an effect result looks like when the effect failed. */
  predicate IsFailure<S>(r: EffectResult<S>)
  {
    && !r.success && !r.outputs.trackWasEnqueued
    && r.outputs.error != None && r.outputs.spotifyResponse == None && r.outputs.spotifyTrack == None
    && r.outputs.rawFilteredTracks == [] && r.outputs.filteredTracks == []
  }

  /**
   * The summaries of the rejection log. Each entry is summarised from its `track` field,
   * which entries do not have (they carry the track as `entry`), so every call of the
   * summary gets `undefined`; when that call throws, the whole map throws.
   */
  function FilteredSummaries<S>(filtered: seq<FilteredEntry<Track>>, summarize: Option<Track> -> Result<S>)
    : (r: Result<seq<FilteredSummary<S>>>)
    ensures r.Failure? <==> filtered != [] && summarize(None).Failure?
    ensures r.Failure? ==> r.error == summarize(None).error
    ensures r.Success? ==> |r.value| == |filtered|
    ensures r.Success? ==>
              forall i :: 0 <= i < |r.value| ==>
                r.value[i].reasons == filtered[i].reasons && summarize(None) == Success(r.value[i].summary)
  {
    if filtered == [] then Success([])
    else
      match summarize(None)
      case Failure(e) => Failure(e)
      case Success(summary) =>
        Success(seq(|filtered|, i requires 0 <= i < |filtered| => FilteredSummary(filtered[i].reasons, summary)))
  }

  /** Whether the search path can run to completion: the source's filter loop only ends when a track passes. */
  predicate SearchTerminates(effect: EffectParams, env: Collaborators, searchData: SpotifyService.ApiSearchResponse?)
    reads searchData
  {
    env.linkId == Success("") && env.searchError == None && searchData != null ==>
      SpotifyService.SomePasses(searchData.tracks, SpotifyService.CriteriaOf(TrackSearchOptions(effect)))
  }

  /**
   * The response the query resolves to: a link id is fetched directly and has an empty
   * log; without one, the query is searched for tracks and filtered. `searchData` is the
   * search response body (null when there is none).
   */
  function Resolve(effect: EffectParams, env: Collaborators, searchData: SpotifyService.ApiSearchResponse?)
    : (r: Result<SearchResponse<Track>>)
    reads searchData
    requires SearchTerminates(effect, env, searchData)
    ensures r.Success? <==>
              && env.linkId.Success?
              && (if env.linkId.value != "" then env.linkedTrack.Success?
                  else env.searchError == None && searchData != null)
    ensures r.Success? ==> r.value.found.Some?
    ensures env.linkId.Failure? ==> r == Failure(env.linkId.error)
    ensures env.linkId.Success? && env.linkId.value != "" ==>
              && (env.linkedTrack.Failure? ==> r == Failure(env.linkedTrack.error))
              && (env.linkedTrack.Success? ==> r == Success(SearchResponse(Some(env.linkedTrack.value), [])))
    ensures env.linkId == Success("") ==>
              && (env.searchError != None ==> r == Failure(env.searchError.value))
              && (env.searchError == None && searchData == null ==> r == Failure(Error(SpotifyService.NoDataMessage)))
              && (r.Success? ==>
                    r.value == SpotifyService.FilterFirst(searchData.tracks,
                                                          SpotifyService.CriteriaOf(TrackSearchOptions(effect))))
  {
    if env.linkId.Failure? then Failure(env.linkId.error)
    else if env.linkId.value != "" then
      if env.linkedTrack.Failure? then Failure(env.linkedTrack.error)
      else Success(SearchResponse(Some(env.linkedTrack.value), []))
    else if env.searchError != None then Failure(env.searchError.value)
    else if searchData == null then Failure(Error(SpotifyService.NoDataMessage))
    else Success(SpotifyService.FilterFirst(searchData.tracks, SpotifyService.CriteriaOf(TrackSearchOptions(effect))))
  }

  /** Whether both summaries of an enqueued track and its log can be made. */
  predicate Summarisable<S>(response: SearchResponse<Track>, index: int, summarize: Option<Track> -> Result<S>)
  {
    && response.found.Some?
    && summarize(Some(response.found.value.(queuePosition := Some(index)))).Success?
    && FilteredSummaries(response.filtered, summarize).Success?
  }

  /**
   * The effect run. `searchData` is the search response body the search path would
   * receive (null when it has none); `summarize` is the track summary mapping, which may
   * throw. The effect never throws: every error becomes a failure result.
   */
  method OnTriggerEvent<S>(effect: EffectParams, env: Collaborators, searchData: SpotifyService.ApiSearchResponse?,
                           summarize: Option<Track> -> Result<S>)
    returns (result: EffectResult<S>, calls: seq<ExternalCall>)
    requires SearchTerminates(effect, env, searchData)
    modifies if searchData != null then {searchData} else {}
    // the outcome is reported consistently, and a failure always has the same shape
    ensures result.success == result.outputs.trackWasEnqueued
    ensures !result.success ==> IsFailure(result)
    ensures |calls| >= 1 && calls[0] == GetIdFromTrackUrl(effect.query)
    // a direct link is fetched, never searched or filtered
    ensures env.linkId.Success? && env.linkId.value != "" ==>
              && |calls| >= 2 && calls[1] == GetTrack(env.linkId.value)
              && (searchData != null ==> unchanged(searchData))
    // otherwise the query is searched for tracks, with only the two filter options
    ensures env.linkId == Success("") ==>
              |calls| >= 2 && calls[1] == Search(SpotifyService.SearchParams(effect.query, TrackSearch,
                                                                                TrackSearchOptions(effect)))
    // the search consumes the response's track list up to and including the found track, and nothing else
    ensures env.linkId == Success("") && searchData != null ==>
              if env.searchError != None then unchanged(searchData)
              else
                var filtered := SpotifyService.FilterFirst(old(searchData.tracks),
                                                           SpotifyService.CriteriaOf(TrackSearchOptions(effect)));
                && searchData.tracks == old(searchData.tracks)[|filtered.filtered| + 1..]
                && searchData.artists == old(searchData.artists) && searchData.albums == old(searchData.albums)
                && searchData.playlists == old(searchData.playlists)
    // success needs every step to succeed, the two summaries included
    ensures var response := old(Resolve(effect, env, searchData));
            result.success <==>
              && response.Success? && env.push == Pass && env.queueIndex.Success?
              && Summarisable(response.value, env.queueIndex.value, summarize)
    // once the push went through, a failure still reports the track as not enqueued
    ensures var response := old(Resolve(effect, env, searchData));
            response.Success? && env.push == Pass && !result.success ==>
              |calls| == 4 && calls[2].Push? && calls[3].FindIndex?
    // each step's outcome, in order, and the error reported when it fails
    ensures var response := old(Resolve(effect, env, searchData));
            && (response.Failure? ==>
                  && result == FailureResult(response.error)
                  && |calls| == (if env.linkId.Failure? then 1 else 2))
            && (response.Success? ==>
                  var track := response.value.found.value;
                  && |calls| >= 3 && calls[2] == Push(track.uri, effect.allowDuplicates)
                  && (env.push.Fail? ==> |calls| == 3 && result == FailureResult(env.push.error))
                  && (env.push == Pass ==> |calls| == 4 && calls[3] == FindIndex(track.uri))
                  && (env.push == Pass && env.queueIndex.Failure? ==> result == FailureResult(env.queueIndex.error))
                  && (env.push == Pass && env.queueIndex.Success? ==>
                        var enqueued := track.(queuePosition := Some(env.queueIndex.value));
                        var summary := summarize(Some(enqueued));
                        var summaries := FilteredSummaries(response.value.filtered, summarize);
                        if summary.Failure? then result == FailureResult(summary.error)
                        else if summaries.Failure? then result == FailureResult(summaries.error)
                        else result == EffectResult(true, Outputs(true, None, Some(enqueued), Some(summary.value),
                                                                  response.value.filtered, summaries.value))))
  {
    ghost var resolved := Resolve(effect, env, searchData);
    calls := [GetIdFromTrackUrl(effect.query)];
    if env.linkId.Failure? {
      result := FailureResult(env.linkId.error);
      return;
    }
    var linkId := env.linkId.value;

    var response: SearchResponse<Track>;
    if linkId != "" {
      calls := calls + [GetTrack(linkId)];
      if env.linkedTrack.Failure? {
        result := FailureResult(env.linkedTrack.error);
        return;
      }
      response := SearchResponse(Some(env.linkedTrack.value), []);
    } else {
      var request, searched := SpotifyService.SearchAsync(effect.query, TrackSearch, TrackSearchOptions(effect),
                                                          env.searchError, searchData);
      calls := calls + [Search(request)];
      if searched.Failure? {
        result := FailureResult(searched.error);
        return;
      }
      match searched.value
      case TrackResult(r) =>
        response := r;
    }
    assert resolved == Success(response);

    if response.found == None {
      result := FailureResult(Error(TrackNotFoundMessage));
      return;
    }
    var track := response.found.value;

    calls := calls + [Push(track.uri, effect.allowDuplicates)];
    if env.push.Fail? {
      result := FailureResult(env.push.error);
      return;
    }

    calls := calls + [FindIndex(track.uri)];
    if env.queueIndex.Failure? {
      result := FailureResult(env.queueIndex.error);
      return;
    }
    track := track.(queuePosition := Some(env.queueIndex.value));

    var summary := summarize(Some(track));
    if summary.Failure? {
      result := FailureResult(summary.error);
      return;
    }
    var summaries := FilteredSummaries(response.filtered, summarize);
    if summaries.Failure? {
      result := FailureResult(summaries.error);
      return;
    }
    result := EffectResult(true, Outputs(
      true,
      None,
      Some(track),
      Some(summary.value),
      response.filtered,
      summaries.value));
  }
}
