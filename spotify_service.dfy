/** The search service: track filtering, first-item selection, search dispatch and the URI helpers. */
module SpotifyService {
  import opened Wrappers
  import opened SearchTypes

  // ---------------------------------------------------------------------------
  // The search API's response object
  // ---------------------------------------------------------------------------

  /** The parsed body of one search call; its item lists are JavaScript arrays that the filter consumes. */
  class ApiSearchResponse {
    var tracks: seq<Track>
    var artists: seq<Artist>
    var albums: seq<Album>
    var playlists: seq<Playlist>

    constructor (tracks: seq<Track>, artists: seq<Artist>, albums: seq<Album>, playlists: seq<Playlist>)
      ensures this.tracks == tracks && this.artists == artists
      ensures this.albums == albums && this.playlists == playlists
    {
      this.tracks := tracks;
      this.artists := artists;
      this.albums := albums;
      this.playlists := playlists;
    }

    /** `tracks.items.shift()`: removes and returns the first track, or returns nothing from an empty list. */
    method ShiftTrack() returns (entry: Option<Track>)
      modifies this`tracks
      ensures old(tracks) == [] ==> entry == None && tracks == []
      ensures old(tracks) != [] ==> entry == Some(old(tracks)[0]) && tracks == old(tracks)[1..]
    {
      if tracks == [] {
        entry := None;
      } else {
        entry := Some(tracks[0]);
        tracks := tracks[1..];
      }
    }
  }

  // ---------------------------------------------------------------------------
  // Filter criteria and rejection reasons
  // ---------------------------------------------------------------------------

  /** The length limit in milliseconds: a truthy (non-zero) number of minutes times 60 000, otherwise 0. */
  function MaxLengthMs(maximumLength: Option<int>): (ms: int)
    ensures maximumLength == None ==> ms == 0
    ensures maximumLength.Some? ==> ms == maximumLength.value * 60 * 1000
    ensures ms > 0 <==> maximumLength.Some? && maximumLength.value > 0
  {
    match maximumLength
    case Some(minutes) => if minutes != 0 then minutes * 60 * 1000 else 0
    case None => 0
  }

  /** What the filter loop tests: whether explicit tracks are excluded, and the length limit. */
  datatype Criteria = Criteria(filterExplicit: bool, maxLengthMs: int)

  /** The criteria that a set of search options amounts to (`filterExplicit` counts only when it is `true`). */
  function CriteriaOf(options: SearchOptions): (c: Criteria)
    ensures c.filterExplicit <==> options.filterExplicit == Some(true)
    ensures c.maxLengthMs == MaxLengthMs(options.maximumLength)
    ensures c.maxLengthMs > 0 <==> options.maximumLength.Some? && options.maximumLength.value > 0
  {
    Criteria(options.filterExplicit == Some(true), MaxLengthMs(options.maximumLength))
  }

  /** The reasons one candidate is rejected for; explicit content is reported before length. */
  function Reasons(c: Criteria, t: Track): (rs: seq<FilteredReason>)
    ensures ExplicitReason in rs <==> c.filterExplicit && t.explicit
    ensures LengthReason in rs <==> c.maxLengthMs > 0 && t.durationMs < c.maxLengthMs
  {
    (if c.filterExplicit && t.explicit then [ExplicitReason] else [])
    + (if c.maxLengthMs > 0 && t.durationMs < c.maxLengthMs then [LengthReason] else [])
  }

  /** At most one reason of each kind, and "explicit" always precedes "length". */
  lemma ReasonsOrdered(c: Criteria, t: Track)
    ensures var rs := Reasons(c, t);
            rs == [] || rs == [ExplicitReason] || rs == [LengthReason] || rs == [ExplicitReason, LengthReason]
  {
  }

  /** A candidate is accepted when it is neither an excluded explicit track nor shorter than the limit. */
  predicate Passes(c: Criteria, t: Track)
  {
    !(c.filterExplicit && t.explicit) && !(c.maxLengthMs > 0 && t.durationMs < c.maxLengthMs)
  }

  /** Acceptance is exactly an empty reason list. */
  lemma PassesIffNoReasons(c: Criteria, t: Track)
    ensures Passes(c, t) <==> Reasons(c, t) == []
  {
  }

  /** Some candidate in the list is accepted: exactly when the filter loop of the source terminates. */
  predicate SomePasses(items: seq<Track>, c: Criteria)
  {
    exists i :: 0 <= i < |items| && Passes(c, items[i])
  }

  /** The position of the first accepted candidate. */
  function FirstPassing(items: seq<Track>, c: Criteria): (k: nat)
    requires SomePasses(items, c)
    ensures k < |items| && Passes(c, items[k])
    ensures forall j :: 0 <= j < k ==> !Passes(c, items[j])
  {
    if Passes(c, items[0]) then 0
    else
      assert SomePasses(items[1..], c) by {
        var i :| 0 <= i < |items| && Passes(c, items[i]);
        assert items[1..][i - 1] == items[i];
      }
      1 + FirstPassing(items[1..], c)
  }

  /** The log entries for the first `n` candidates, each with its own reasons. */
  function Rejections(items: seq<Track>, n: nat, c: Criteria): (r: seq<FilteredEntry<Track>>)
    requires n <= |items|
    ensures |r| == n
    ensures forall j :: 0 <= j < n ==> r[j] == FilteredEntry(Reasons(c, items[j]), items[j])
  {
    seq(n, j requires 0 <= j < n => FilteredEntry(Reasons(c, items[j]), items[j]))
  }

  /** Rejecting one more candidate appends its entry to the log. */
  lemma RejectionsSnoc(items: seq<Track>, n: nat, c: Criteria)
    requires n < |items|
    ensures Rejections(items, n + 1, c) == Rejections(items, n, c) + [FilteredEntry(Reasons(c, items[n]), items[n])]
  {
    var a := Rejections(items, n + 1, c);
    var b := Rejections(items, n, c) + [FilteredEntry(Reasons(c, items[n]), items[n])];
    assert |a| == |b|;
    forall j | 0 <= j < |a| ensures a[j] == b[j] {
    }
  }

  /**
   * What the track filter computes: the first accepted candidate, and every candidate
   * before it, in order, with its (non-empty) reasons.
   */
  function FilterFirst(items: seq<Track>, c: Criteria): (r: SearchResponse<Track>)
    requires SomePasses(items, c)
    ensures r.found.Some? && Passes(c, r.found.value)
    ensures |r.filtered| < |items| && r.found.value == items[|r.filtered|]
    ensures forall j :: 0 <= j < |r.filtered| ==>
              r.filtered[j].entry == items[j] && r.filtered[j].reasons == Reasons(c, items[j])
              && r.filtered[j].reasons != []
  {
    var k := FirstPassing(items, c);
    SearchResponse(Some(items[k]), Rejections(items, k, c))
  }

  // ---------------------------------------------------------------------------
  // getFirstTrack
  // ---------------------------------------------------------------------------

  /** One shift at position `i`, no later than the first accepted candidate `k`: what moves and what is logged. */
  lemma ShiftAt(items: seq<Track>, c: Criteria, k: nat, i: nat)
    requires SomePasses(items, c) && k == FirstPassing(items, c) && i <= k
    ensures i < |items| && items[i..] != [] && items[i..][0] == items[i] && items[i..][1..] == items[i + 1..]
    ensures Passes(c, items[i]) ==> i == k
    ensures !Passes(c, items[i]) ==> i + 1 <= k
    ensures Rejections(items, i + 1, c) == Rejections(items, i, c) + [FilteredEntry(Reasons(c, items[i]), items[i])]
  {
    RejectionsSnoc(items, i, c);
  }

  /**
   * The filter loop: shifts candidates off the front of the response's track list until
   * one has no rejection reason. The source loops forever when none passes, so callers
   * must supply a list in which some candidate passes (see NeverFound below).
   */
  method GetFirstTrack(search: ApiSearchResponse, options: SearchOptions) returns (r: SearchResponse<Track>)
    requires SomePasses(search.tracks, CriteriaOf(options))
    modifies search`tracks
    ensures r == FilterFirst(old(search.tracks), CriteriaOf(options))
    ensures search.tracks == old(search.tracks)[|r.filtered| + 1..]
  {
    ghost var items := search.tracks;
    ghost var k := FirstPassing(items, CriteriaOf(options));
    ghost var consumed := 0;
    var foundTrack: Option<Track> := None;
    var filteredTracks: seq<FilteredEntry<Track>> := [];
    var maxLengthMs := MaxLengthMs(options.maximumLength);
    var criteria := Criteria(options.filterExplicit == Some(true), maxLengthMs);
    assert criteria == CriteriaOf(options);

    while foundTrack == None
      invariant 0 <= consumed <= |items| && search.tracks == items[consumed..]
      invariant foundTrack == None ==> consumed <= k && filteredTracks == Rejections(items, consumed, criteria)
      invariant foundTrack != None ==>
                  consumed == k + 1 && foundTrack == Some(items[k]) && filteredTracks == Rejections(items, k, criteria)
      decreases |search.tracks|
    {
      ShiftAt(items, criteria, k, consumed);
      var entry := search.ShiftTrack();
      if entry == None {
        assert false;
        continue;
      }
      var t := entry.value;
      PassesIffNoReasons(criteria, t);
      consumed := consumed + 1;

      var reasons := Reasons(criteria, t);
      if |reasons| > 0 {
        filteredTracks := filteredTracks + [FilteredEntry(reasons, t)];
        continue;
      }

      foundTrack := Some(t);
    }

    r := SearchResponse(foundTrack, filteredTracks);
    assert r == FilterFirst(items, criteria);
  }

  // ---------------------------------------------------------------------------
  // The loop as a step function: when it stops, and when it never does
  // ---------------------------------------------------------------------------

  /** The variables of the filter loop: the remaining list, the found track and the rejection log. */
  datatype LoopState = LoopState(items: seq<Track>, found: Option<Track>, filtered: seq<FilteredEntry<Track>>)

  /** One pass of the loop body; on an empty list `shift()` gives `undefined` and the body `continue`s. */
  function Step(s: LoopState, c: Criteria): (s': LoopState)
    ensures s.items == [] ==> s' == s
    ensures s.items != [] ==> s'.items == s.items[1..]
    ensures s.items != [] && Passes(c, s.items[0]) ==> s'.found == Some(s.items[0]) && s'.filtered == s.filtered
    ensures s.items != [] && !Passes(c, s.items[0]) ==>
              s'.found == s.found && s'.filtered == s.filtered + [FilteredEntry(Reasons(c, s.items[0]), s.items[0])]
  {
    if s.items == [] then s
    else
      var entry := s.items[0];
      var reasons := Reasons(c, entry);
      if reasons != [] then LoopState(s.items[1..], s.found, s.filtered + [FilteredEntry(reasons, entry)])
      else LoopState(s.items[1..], Some(entry), s.filtered)
  }

  /** The state after at most `n` passes, stopping once a track is found. */
  function Run(s: LoopState, c: Criteria, n: nat): (r: LoopState)
    ensures s.found != None ==> r == s
    ensures |r.items| <= |s.items| && |s.filtered| <= |r.filtered|
    decreases n
  {
    if n == 0 || s.found != None then s else Run(Step(s, c), c, n - 1)
  }

  /** Passes only ever remove tracks from the front of the list and append to the log. */
  lemma {:induction false} RunShape(s: LoopState, c: Criteria, n: nat)
    ensures var r := Run(s, c, n);
            && r.items == s.items[|s.items| - |r.items|..]
            && r.filtered[..|s.filtered|] == s.filtered
    decreases n
  {
    if n > 0 && s.found == None {
      var s' := Step(s, c);
      RunShape(s', c, n - 1);
      if s.items != [] {
        var r := Run(s, c, n);
        assert r == Run(s', c, n - 1);
        assert s'.items[|s'.items| - |r.items|..] == s.items[|s.items| - |r.items|..];
        assert r.filtered[..|s'.filtered|][..|s.filtered|] == s'.filtered[..|s.filtered|];
      }
    }
  }

  /** The loop never stops on a list in which no candidate passes (in particular on an empty one). */
  lemma {:induction false} NeverFound(s: LoopState, c: Criteria, n: nat)
    requires s.found == None && !SomePasses(s.items, c)
    ensures Run(s, c, n).found == None
    decreases n
  {
    if n > 0 {
      var s' := Step(s, c);
      if s.items != [] {
        PassesIffNoReasons(c, s.items[0]);
        assert s'.items == s.items[1..];
        assert !SomePasses(s'.items, c) by {
          forall i | 0 <= i < |s'.items| ensures !Passes(c, s'.items[i]) {
            assert s'.items[i] == s.items[i + 1];
          }
        }
      }
      NeverFound(s', c, n - 1);
    }
  }

  /** Whether `s` is the loop's state after passing over the first `i` candidates of `items`, all rejected. */
  predicate ScannedTo(s: LoopState, items: seq<Track>, filtered: seq<FilteredEntry<Track>>, i: nat, c: Criteria)
    requires i <= |items|
  {
    s.found == None && s.items == items[i..] && s.filtered == filtered + Rejections(items, i, c)
  }

  /** One pass over candidate `i`: it is found when it passes, and logged when it does not. */
  lemma StepAt(s: LoopState, items: seq<Track>, filtered: seq<FilteredEntry<Track>>, i: nat, c: Criteria)
    requires i < |items| && ScannedTo(s, items, filtered, i, c)
    ensures !Passes(c, items[i]) ==> ScannedTo(Step(s, c), items, filtered, i + 1, c)
    ensures Passes(c, items[i]) ==>
              Step(s, c) == LoopState(items[i + 1..], Some(items[i]), filtered + Rejections(items, i, c))
  {
    assert s.items[0] == items[i] && s.items[1..] == items[i + 1..];
    RejectionsSnoc(items, i, c);
    var e := FilteredEntry(Reasons(c, items[i]), items[i]);
    assert (filtered + Rejections(items, i, c)) + [e] == filtered + (Rejections(items, i, c) + [e]);
  }

  /** From candidate `i` on, the loop stops at the first accepted candidate `k`, one pass per candidate. */
  lemma {:induction false} RunFrom(s: LoopState, items: seq<Track>, filtered: seq<FilteredEntry<Track>>, c: Criteria,
                                   i: nat, k: nat, n: nat)
    requires i <= k < |items| && Passes(c, items[k]) && ScannedTo(s, items, filtered, i, c)
    requires forall j :: i <= j < k ==> !Passes(c, items[j])
    requires n == k - i + 1
    ensures Run(s, c, n) == LoopState(items[k + 1..], Some(items[k]), filtered + Rejections(items, k, c))
    decreases k - i
  {
    StepAt(s, items, filtered, i, c);
    assert Run(s, c, n) == Run(Step(s, c), c, n - 1);
    if i < k {
      RunFrom(Step(s, c), items, filtered, c, i + 1, k, n - 1);
    }
  }

  /** When some candidate passes, the loop stops after one pass per candidate up to the first accepted one, with FilterFirst's result. */
  lemma RunFinds(s: LoopState, c: Criteria)
    requires s.found == None && SomePasses(s.items, c)
    ensures var k := FirstPassing(s.items, c);
            Run(s, c, k + 1) == LoopState(s.items[k + 1..], Some(s.items[k]), s.filtered + Rejections(s.items, k, c))
  {
    var k := FirstPassing(s.items, c);
    assert ScannedTo(s, s.items, s.filtered, 0, c) by {
      assert s.items[0..] == s.items;
      assert s.filtered + Rejections(s.items, 0, c) == s.filtered;
    }
    RunFrom(s, s.items, s.filtered, c, 0, k, k + 1);
  }

  /** The loop started on a response's track list stops at some point exactly when some candidate passes. */
  lemma LoopStopsIff(items: seq<Track>, c: Criteria)
    ensures (exists n: nat :: Run(LoopState(items, None, []), c, n).found != None) <==> SomePasses(items, c)
  {
    var s := LoopState(items, None, []);
    if SomePasses(items, c) {
      RunFinds(s, c);
      var k := FirstPassing(items, c);
      assert Run(s, c, k + 1).found != None;
    } else {
      forall n: nat ensures Run(s, c, n).found == None {
        NeverFound(s, c, n);
      }
    }
  }

  // ---------------------------------------------------------------------------
  // Properties of the filter
  // ---------------------------------------------------------------------------

  /** Without a positive length limit no candidate is ever rejected for its length. */
  lemma NoLengthReasonWithoutLimit(options: SearchOptions, t: Track)
    requires options.maximumLength == None || options.maximumLength.value <= 0
    ensures LengthReason !in Reasons(CriteriaOf(options), t)
  {
  }

  /** In terms of the options: a candidate is rejected for length exactly when it is shorter than the limit in minutes. */
  lemma LengthReasonIff(options: SearchOptions, t: Track)
    ensures LengthReason in Reasons(CriteriaOf(options), t) <==>
              options.maximumLength.Some? && options.maximumLength.value > 0
              && t.durationMs < options.maximumLength.value * 60000
  {
  }

  /** In terms of the options: a candidate is rejected as explicit exactly when `filterExplicit` is `true` and it is explicit. */
  lemma ExplicitReasonIff(options: SearchOptions, t: Track)
    ensures ExplicitReason in Reasons(CriteriaOf(options), t) <==> options.filterExplicit == Some(true) && t.explicit
  {
  }

  /** With neither filter set, the first candidate is returned and nothing is logged. */
  lemma NoFiltersPassThrough(items: seq<Track>, options: SearchOptions)
    requires items != []
    requires options.filterExplicit != Some(true)
    requires options.maximumLength == None || options.maximumLength.value <= 0
    ensures SomePasses(items, CriteriaOf(options))
    ensures FilterFirst(items, CriteriaOf(options)) == SearchResponse(Some(items[0]), [])
  {
    var c := CriteriaOf(options);
    assert Passes(c, items[0]);
    assert FirstPassing(items, c) == 0;
  }

  /** The returned track is never an excluded explicit track and is never shorter than the limit. */
  lemma FoundTrackMeetsFilters(items: seq<Track>, options: SearchOptions)
    requires SomePasses(items, CriteriaOf(options))
    ensures var t := FilterFirst(items, CriteriaOf(options)).found.value;
            && (options.filterExplicit == Some(true) ==> !t.explicit)
            && (options.maximumLength.Some? && options.maximumLength.value > 0 ==>
                  t.durationMs >= options.maximumLength.value * 60000)
  {
  }

  /** A three-minute limit rejects a two-minute track for its length and takes the next, longer one. */
  lemma ThreeMinuteLimitExample(short: Track, long: Track)
    requires short.durationMs == 120000 && long.durationMs == 200000
    ensures var options := SearchOptions(None, None, None, Some(3));
            && SomePasses([short, long], CriteriaOf(options))
            && FilterFirst([short, long], CriteriaOf(options))
               == SearchResponse(Some(long), [FilteredEntry([LengthReason], short)])
  {
    var items := [short, long];
    var c := CriteriaOf(SearchOptions(None, None, None, Some(3)));
    assert c.maxLengthMs == 180000;
    assert !Passes(c, short) && Passes(c, long);
    assert items[1] == long;
    assert SomePasses(items, c);
    assert FirstPassing(items, c) == 1 by {
      assert items[1..] == [long];
    }
    assert Reasons(c, short) == [LengthReason];
    assert Rejections(items, 1, c) == [FilteredEntry([LengthReason], short)];
  }

  // ---------------------------------------------------------------------------
  // getFirstArtist, getFirstAlbum, getFirstPlaylist
  // ---------------------------------------------------------------------------

  /** `items[0]`: the first item, or `undefined` for an empty list. */
  function First<T>(items: seq<T>): (r: Option<T>)
    ensures r != None <==> |items| > 0
    ensures r != None ==> r.value == items[0]
  {
    if |items| > 0 then Some(items[0]) else None
  }

  function GetFirstArtist(search: ApiSearchResponse): (r: SearchResponse<Artist>)
    reads search
    ensures r.filtered == []
    ensures search.artists != [] ==> r.found == Some(search.artists[0])
    ensures search.artists == [] ==> r.found == None
  {
    SearchResponse(First(search.artists), [])
  }

  function GetFirstAlbum(search: ApiSearchResponse): (r: SearchResponse<Album>)
    reads search
    ensures r.filtered == []
    ensures search.albums != [] ==> r.found == Some(search.albums[0])
    ensures search.albums == [] ==> r.found == None
  {
    SearchResponse(First(search.albums), [])
  }

  function GetFirstPlaylist(search: ApiSearchResponse): (r: SearchResponse<Playlist>)
    reads search
    ensures r.filtered == []
    ensures search.playlists != [] ==> r.found == Some(search.playlists[0])
    ensures search.playlists == [] ==> r.found == None
  {
    SearchResponse(First(search.playlists), [])
  }

  // ---------------------------------------------------------------------------
  // searchAsync
  // ---------------------------------------------------------------------------

  const DefaultLimit := 50
  const DefaultOffset := 0

  /** The query parameters of the search request (the query text before URI encoding). */
  datatype SearchRequest = SearchRequest(q: string, searchType: SearchType, limit: int, offset: int)

  /** `limit` and `offset` fall back to 50 and 0 only when absent; an explicit 0 is kept. */
  function SearchParams(query: string, searchType: SearchType, options: SearchOptions): (p: SearchRequest)
    ensures p.q == query && p.searchType == searchType
    ensures options.limit == None ==> p.limit == DefaultLimit
    ensures options.limit != None ==> p.limit == options.limit.value
    ensures options.offset == None ==> p.offset == DefaultOffset
    ensures options.offset != None ==> p.offset == options.offset.value
  {
    var limit := match options.limit case Some(l) => l case None => DefaultLimit;
    var offset := match options.offset case Some(o) => o case None => DefaultOffset;
    SearchRequest(query, searchType, limit, offset)
  }

  const NoDataMessage := "Could not retrieve Spotify track"
  const InvalidTypeMessage := "Invalid search type"

  /**
   * One search: builds the request, takes the fetch's outcome (`fetchError` when the call
   * throws, `data` null when the response has no body) and dispatches on the search type.
   * Errors are logged and rethrown unchanged, so they reach the caller as they are.
   */
  method SearchAsync(query: string, searchType: SearchType, options: SearchOptions,
                     fetchError: Option<Error>, data: ApiSearchResponse?)
    returns (request: SearchRequest, r: Result<SearchResult>)
    requires searchType == TrackSearch && fetchError == None && data != null ==>
               SomePasses(data.tracks, CriteriaOf(options))
    modifies if data != null then {data} else {}
    ensures request == SearchParams(query, searchType, options)
    ensures fetchError != None ==> r == Failure(fetchError.value)
    ensures fetchError == None && data == null ==> r == Failure(Error(NoDataMessage))
    ensures data != null && !(fetchError == None && searchType == TrackSearch) ==> unchanged(data)
    ensures fetchError == None && data != null ==>
              match searchType
              case TrackSearch =>
                var found := FilterFirst(old(data.tracks), CriteriaOf(options));
                && r == Success(TrackResult(found))
                && data.tracks == old(data.tracks)[|found.filtered| + 1..]
                && data.artists == old(data.artists) && data.albums == old(data.albums)
                && data.playlists == old(data.playlists)
              case ArtistSearch => r == Success(ArtistResult(GetFirstArtist(data)))
              case AlbumSearch => r == Success(AlbumResult(GetFirstAlbum(data)))
              case PlaylistSearch => r == Success(PlaylistResult(GetFirstPlaylist(data)))
              case _ => r == Failure(Error(InvalidTypeMessage))
  {
    request := SearchParams(query, searchType, options);
    if fetchError != None {
      r := Failure(fetchError.value);
      return;
    }
    if data == null {
      r := Failure(Error(NoDataMessage));
      return;
    }
    match searchType
    case TrackSearch =>
      var found := GetFirstTrack(data, options);
      r := Success(TrackResult(found));
    case ArtistSearch =>
      r := Success(ArtistResult(GetFirstArtist(data)));
    case AlbumSearch =>
      r := Success(AlbumResult(GetFirstAlbum(data)));
    case PlaylistSearch =>
      r := Success(PlaylistResult(GetFirstPlaylist(data)));
    case _ =>
      r := Failure(Error(InvalidTypeMessage));
  }

  // ---------------------------------------------------------------------------
  // getIdFromUri and getUriFromId
  // ---------------------------------------------------------------------------

  /** `parts.join(":")`. */
  function Join(parts: seq<string>): string
    requires |parts| >= 1
  {
    if |parts| == 1 then parts[0] else parts[0] + ":" + Join(parts[1..])
  }

  /** `s.split(":")`: the colon-free pieces between colons; an empty string gives `[""]`. */
  function Split(s: string): (parts: seq<string>)
    ensures |parts| >= 1
    ensures forall i :: 0 <= i < |parts| ==> ':' !in parts[i]
    ensures Join(parts) == s
  {
    if s == [] then [""]
    else if s[0] == ':' then
      var rest := Split(s[1..]);
      assert Join([""] + rest) == ":" + Join(rest);
      [""] + rest
    else
      var rest := Split(s[1..]);
      var parts := [[s[0]] + rest[0]] + rest[1..];
      assert |rest| == 1 ==> Join(parts) == [s[0]] + Join(rest);
      assert |rest| > 1 ==> Join(parts) == [s[0]] + rest[0] + ":" + Join(rest[1..]);
      assert s == [s[0]] + s[1..];
      parts
  }

  const UriPrefix := "spotify:track:"

  /** `uri?.split(":")[2] ?? ""`: the third colon-separated piece, or "" when there is none. */
  function GetIdFromUri(uri: Option<string>): (id: string)
    ensures ':' !in id
    ensures uri == None ==> id == ""
    ensures uri != None && |Split(uri.value)| < 3 ==> id == ""
    ensures uri != None && |Split(uri.value)| >= 3 ==> id == Split(uri.value)[2]
  {
    match uri
    case None => ""
    case Some(u) =>
      var parts := Split(u);
      if |parts| > 2 then parts[2] else ""
  }

  /** A track URI for a truthy (non-empty) id, otherwise "". */
  function GetUriFromId(id: Option<string>): (uri: string)
    ensures uri == "" <==> id == None || id.value == ""
    ensures id != None && id.value != "" ==> uri == UriPrefix + id.value
  {
    match id
    case Some(i) => if i != "" then UriPrefix + i else ""
    case None => ""
  }

  /** A colon-free string is one piece. */
  lemma {:induction false} SplitColonFree(s: string)
    requires ':' !in s
    ensures Split(s) == [s]
  {
    if s != [] {
      SplitColonFree(s[1..]);
    }
  }

  /** Splitting after a colon-free head and a colon gives the head, then the pieces of the tail. */
  lemma {:induction false} SplitAfterHead(a: string, b: string)
    requires ':' !in a
    ensures Split(a + ":" + b) == [a] + Split(b)
  {
    if a == [] {
      assert a + ":" + b == [':'] + b;
      assert ([':'] + b)[1..] == b;
    } else {
      var whole := a + ":" + b;
      assert whole[0] == a[0] && whole[0] != ':';
      assert whole[1..] == a[1..] + ":" + b;
      SplitAfterHead(a[1..], b);
      var rest := Split(whole[1..]);
      assert rest == [a[1..]] + Split(b);
      assert Split(whole) == [[a[0]] + rest[0]] + rest[1..];
      assert [a[0]] + a[1..] == a;
    }
  }

  /** The URI of a non-empty, colon-free id gives that id back. */
  lemma UriRoundTrip(id: string)
    requires id != "" && ':' !in id
    ensures GetIdFromUri(Some(GetUriFromId(Some(id)))) == id
  {
    assert UriPrefix + id == "spotify" + ":" + ("track" + ":" + id);
    SplitAfterHead("spotify", "track" + ":" + id);
    SplitAfterHead("track", id);
    SplitColonFree(id);
  }

  /** An id that contains a colon does not survive the round trip: only its first piece comes back. */
  lemma ColonIdTruncated(head: string, tail: string)
    requires ':' !in head
    ensures GetIdFromUri(Some(GetUriFromId(Some(head + ":" + tail)))) == head
  {
    assert UriPrefix + (head + ":" + tail) == "spotify" + ":" + ("track" + ":" + (head + ":" + tail));
    SplitAfterHead("spotify", "track" + ":" + (head + ":" + tail));
    SplitAfterHead("track", head + ":" + tail);
    SplitAfterHead(head, tail);
  }
}
