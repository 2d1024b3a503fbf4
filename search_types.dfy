/** The shapes of the catalog search API and of the search service's responses. */
module SearchTypes {
  import opened Wrappers

  datatype Artist = Artist(id: string, uri: string, name: string)

  datatype Album = Album(id: string, uri: string, name: string)

  datatype Playlist = Playlist(id: string, uri: string, name: string)

  /** A catalog track; `queuePosition` is the optional `queue_position` the enqueue effect fills in. */
  datatype Track = Track(
    id: string,
    uri: string,
    name: string,
    durationMs: int,
    explicit: bool,
    artists: seq<Artist>,
    queuePosition: Option<int>)

  /** The search types a caller may ask for (the keys of the response map). */
  datatype SearchType =
    | TrackSearch | ArtistSearch | AlbumSearch | PlaylistSearch
    | AudiobookSearch | ShowSearch | EpisodeSearch

  /** Why a candidate track was passed over: exactly the two reasons the source knows. */
  datatype FilteredReason = ExplicitReason | LengthReason

  /** A rejected candidate together with its reasons, in the order they were found. */
  datatype FilteredEntry<T> = FilteredEntry(reasons: seq<FilteredReason>, entry: T)

  /** Optional search settings; every field may be left out by the caller. */
  datatype SearchOptions = SearchOptions(
    limit: Option<int>,
    offset: Option<int>,
    filterExplicit: Option<bool>,
    maximumLength: Option<int>)

  /** `{}`: the options used when a caller passes none. */
  const NoOptions := SearchOptions(None, None, None, None)

  /** `{ found, filtered }`; `found` is absent when `items[0]` of an empty category is read. */
  datatype SearchResponse<T> = SearchResponse(found: Option<T>, filtered: seq<FilteredEntry<T>>)

  /** The response of one search, tagged by the search type that produced it. */
  datatype SearchResult =
    | TrackResult(tracks: SearchResponse<Track>)
    | ArtistResult(artists: SearchResponse<Artist>)
    | AlbumResult(albums: SearchResponse<Album>)
    | PlaylistResult(playlists: SearchResponse<Playlist>)
}
