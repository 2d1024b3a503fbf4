# Spotify song-request core, modelled in Dafny

This project models the part of the Firebot Spotify song-request integration that has real
branching logic:

- the track search filter (`getFirstTrack`), which shifts candidates off the front of the
  catalog's ranked track list until one is neither an excluded explicit track nor shorter
  than the configured length, logging every candidate it passes over with its reasons;
- its companions in the search service: the first-item selectors for artists, albums and
  playlists, the `searchAsync` dispatch with its `limit`/`offset` defaults, and the
  `getIdFromUri`/`getUriFromId` helpers;
- the banned-artist registry (`SpotifyArtistService`): an in-memory list of artist URIs,
  loaded from and written through to the settings store;
- the "find and enqueue track" effect: its options validator and the control flow of its
  trigger (direct link or search, push, index lookup, success or failure output).

Files:

| file | models |
|---|---|
| `wrappers.dfy` | `Option`, `Result`, `Outcome` and `Error`: absent values and thrown errors |
| `search_types.dfy` | the search response and option shapes of `src/types/spotify/search.d.ts` |
| `spotify_service.dfy` | `src/utils/spotify/index.ts` |
| `artist_service.dfy` | `src/utils/spotify/artist.ts` |
| `find_and_enqueue.dfy` | `src/firebot/effects/spotifyFindAndEnqueueTrackEffect.ts` |

How the source's shape is kept:

- The filter is a `while` loop over a class field. `ApiSearchResponse.tracks` is the
  response's `tracks.items` array, and `ShiftTrack` is `shift()`. `GetFirstTrack` is proved
  against the function `FilterFirst`. That function gives the first accepted candidate and
  the log of the candidates before it.
- The source loop never ends when no candidate passes: on an empty list `shift()` returns
  `undefined` and the body `continue`s. So `GetFirstTrack` requires that some candidate
  passes. The loop body is also given as a step function (`Step`, `Run`). `NeverFound`,
  `RunFinds` and `LoopStopsIff` prove that the loop stops exactly when some candidate
  passes, and that it then stops with `FilterFirst`'s result.
- The registry is a class with a `seq<string>` field. The settings store is a second
  class holding the value saved under the key `"bannedArtists"`.
- The effect's calls into code that is not part of this model are parameters, each one a
  value or a failure: `getIdFromTrackUrl`, `getTrackAsync`, the search fetch, `pushAsync`,
  `findIndexAsync`. `trackSummaryFromDetails` is a function parameter that gives a
  summary or a failure. The effect returns
  the list of external calls it made, in order, so the order of push and lookup and their
  arguments can be stated.

Behaviour of the code that the model keeps as written:

- The filter never consults banned artists. The only rejection reasons are "explicit"
  and "length".
- The filter never returns an empty result when the list runs out. It loops forever.
- Banning never deduplicates. The same URI can be appended again.
- Banning by name with no search result throws the TypeError of reading `.uri` from
  `undefined`.
- The effect ignores what `pushAsync` returns. Only a thrown error makes it fail, and a
  duplicate the queue refuses without throwing is still reported as enqueued.
- The track summaries are made after the push and the index lookup. A summary that
  throws therefore reports a track that was enqueued as not enqueued.

## Model

| member | source | states |
|---|---|---|
| `SpotifyService.ApiSearchResponse.ShiftTrack` | src/utils/spotify/index.ts:95 | `shift()` removes and returns the first track; on an empty list it returns nothing and changes nothing |
| `SpotifyService.MaxLengthMs` | src/utils/spotify/index.ts:90-92 | the limit is minutes × 60 × 1000 for a truthy `maximumLength`, else 0; it is positive exactly when `maximumLength` is positive |
| `SpotifyService.CriteriaOf` | src/utils/spotify/index.ts:90-99 | explicit tracks are excluded only when `filterExplicit` is `true`; the length limit is `MaxLengthMs` of `maximumLength` (minutes × 60 000), positive exactly when `maximumLength` is positive |
| `SpotifyService.Reasons` | src/utils/spotify/index.ts:98-104 | "explicit" is present iff explicit tracks are excluded and the track is explicit; "length" is present iff the limit is positive and the track is strictly shorter than it |
| `SpotifyService.ReasonsOrdered` | src/utils/spotify/index.ts:98-104 | each reason appears at most once, and "explicit" always comes before "length" |
| `SpotifyService.PassesIffNoReasons` | src/utils/spotify/index.ts:106-111 | a candidate is accepted exactly when its reason list is empty |
| `SpotifyService.FirstPassing` | src/utils/spotify/index.ts:94-111 | the index of an accepted candidate such that every earlier candidate is rejected |
| `SpotifyService.Rejections` | src/utils/spotify/index.ts:106-108 | the log of the first `n` candidates has one entry per candidate, in order, each holding that candidate and its reasons |
| `SpotifyService.FilterFirst` | src/utils/spotify/index.ts:94-117 | the found track is accepted and sits right after the filtered prefix; every filtered entry is the candidate at its position, in input order, with a non-empty reason list |
| `SpotifyService.GetFirstTrack` | src/utils/spotify/index.ts:84-118 | the loop returns `FilterFirst` of the original list and leaves in place exactly the candidates after the found one |
| `SpotifyService.Step` | src/utils/spotify/index.ts:94-111 | one pass of the loop body: on an empty list nothing changes; otherwise the first track is removed and becomes the found track when it passes, or is appended to the log with its reasons when it does not |
| `SpotifyService.Run` | src/utils/spotify/index.ts:94-112 | repeated passes stop once a track is found; the list never grows and the log never shrinks |
| `SpotifyService.RunShape` | src/utils/spotify/index.ts:94-112 | after any number of passes, what remains is a suffix of the list, and the log extends the starting log at its end |
| `SpotifyService.NeverFound` | src/utils/spotify/index.ts:94-96 | on a list where no candidate passes, including an empty one, the loop has found nothing after any number of passes |
| `SpotifyService.RunFinds` | src/utils/spotify/index.ts:94-112 | when some candidate passes, after one pass per candidate up to the first accepted one, the loop holds the remaining suffix, that track and `FilterFirst`'s log |
| `SpotifyService.LoopStopsIff` | src/utils/spotify/index.ts:94-112 | the loop stops after some number of passes if and only if some candidate passes |
| `SpotifyService.NoLengthReasonWithoutLimit` | src/utils/spotify/index.ts:90-92 | with `maximumLength` unset, zero or negative, no candidate is ever rejected for length |
| `SpotifyService.LengthReasonIff` | src/utils/spotify/index.ts:90-104 | for every candidate, "length" is among its reasons iff `maximumLength` is set and positive and the track is strictly shorter than `maximumLength` × 60 000 ms |
| `SpotifyService.ExplicitReasonIff` | src/utils/spotify/index.ts:99-101 | for every candidate, "explicit" is among its reasons iff `filterExplicit` is `true` and the track is explicit |
| `SpotifyService.NoFiltersPassThrough` | src/utils/spotify/index.ts:90-111 | with no filter set, a non-empty list yields its first track and an empty log |
| `SpotifyService.FoundTrackMeetsFilters` | src/utils/spotify/index.ts:99-111 | the found track is not explicit when explicit tracks are excluded, and lasts at least the limit when the limit is positive |
| `SpotifyService.ThreeMinuteLimitExample` | src/utils/spotify/index.ts:90-111 | with a 3-minute limit, a 120 000 ms track is logged with reason "length" and the following 200 000 ms track is found |
| `SpotifyService.First` | src/utils/spotify/index.ts:124 | `items[0]` is the first item when the list is non-empty and absent when it is empty |
| `SpotifyService.GetFirstArtist` | src/utils/spotify/index.ts:120-127 | finds the first artist, or nothing when there are none, with an empty log |
| `SpotifyService.GetFirstAlbum` | src/utils/spotify/index.ts:129-136 | finds the first album, or nothing when there are none, with an empty log |
| `SpotifyService.GetFirstPlaylist` | src/utils/spotify/index.ts:138-145 | finds the first playlist, or nothing when there are none, with an empty log |
| `SpotifyService.SearchParams` | src/utils/spotify/index.ts:48-53 | `limit` defaults to 50 and `offset` to 0 only when absent; given values are kept |
| `SpotifyService.SearchAsync` | src/utils/spotify/index.ts:40-82 | a fetch error is rethrown; a response without data throws "Could not retrieve Spotify track"; track, artist, album and playlist searches go to their selectors; any other type throws "Invalid search type"; only a track search changes the response |
| `SpotifyService.Split` | src/utils/spotify/index.ts:164 | `split(":")` gives at least one piece, no piece contains ':', and joining the pieces with ':' gives the input back |
| `SpotifyService.GetIdFromUri` | src/utils/spotify/index.ts:164 | the id is the third ':'-separated piece; it is "" for an absent URI or one with fewer than three pieces |
| `SpotifyService.GetUriFromId` | src/utils/spotify/index.ts:166 | the URI is "spotify:track:" followed by the id; it is "" exactly when the id is absent or empty |
| `SpotifyService.SplitColonFree` | src/utils/spotify/index.ts:164 | a string without ':' splits into itself alone |
| `SpotifyService.SplitAfterHead` | src/utils/spotify/index.ts:164 | splitting `a + ":" + b` with a colon-free `a` gives `a` followed by the pieces of `b` |
| `SpotifyService.UriRoundTrip` | src/utils/spotify/index.ts:164-166 | `getIdFromUri(getUriFromId(id)) == id` for every non-empty id that has no ':' |
| `SpotifyService.ColonIdTruncated` | src/utils/spotify/index.ts:164-166 | for an id that contains ':', the round trip gives back only the part before the first ':' |
| `SpotifyArtist.ArtistService.constructor` | src/utils/spotify/artist.ts:6-10 | a new registry starts with an empty list |
| `SpotifyArtist.ArtistService.Init` | src/utils/spotify/artist.ts:12-16 | after a successful read the in-memory list becomes the stored "bannedArtists" value; a failed read propagates its error and leaves the list as it was |
| `SpotifyArtist.ArtistService.IsArtistBanned` | src/utils/spotify/artist.ts:18-20 | true iff the URI occurs somewhere in the in-memory list |
| `SpotifyArtist.ArtistService.BanArtistByUri` | src/utils/spotify/artist.ts:22-28 | appends the URI even when it is already present, so the list grows by exactly one; the URI is banned and every earlier ban stays; after a successful save the store holds the whole list, and after a failed save the store keeps its old value (the store is taken to hold its own copy of the list) |
| `SpotifyArtist.ArtistService.BanArtistByName` | src/utils/spotify/artist.ts:30-34 | searches artists with limit 50 and offset 0 and bans the first result's URI; on a search error, a missing body or no result (the `.uri` TypeError) it fails and neither the list nor the store changes |
| `SpotifyArtist.ReloadAfterBan` | src/utils/spotify/artist.ts:12-28 | after a saved ban, `init` on a fresh registry over the same store reads back exactly the saved list |
| `FindAndEnqueueEffect.OptionsValidator` | src/firebot/effects/spotifyFindAndEnqueueTrackEffect.ts:89-95 | exactly `["Search Query is required!"]` for an empty query, `[]` otherwise |
| `FindAndEnqueueEffect.TrackSearchOptions` | src/firebot/effects/spotifyFindAndEnqueueTrackEffect.ts:111-114 | the search gets only `filterExplicit` and `maximumLength`, with no `limit` or `offset` |
| `FindAndEnqueueEffect.FailureResult` | src/firebot/effects/spotifyFindAndEnqueueTrackEffect.ts:139-150 | the catch block's result is a failure (not enqueued, no track, empty logs) whose error is the thrown error's message |
| `FindAndEnqueueEffect.FilteredSummaries` | src/firebot/effects/spotifyFindAndEnqueueTrackEffect.ts:133-136 | one summary per log entry, keeping its reasons, each made from the absent `track` field; the map fails exactly when the log is non-empty and the summary of `undefined` fails, with that error |
| `FindAndEnqueueEffect.Resolve` | src/firebot/effects/spotifyFindAndEnqueueTrackEffect.ts:107-116 | a link id is fetched directly and gets an empty log; without one the query is searched and filtered; it succeeds exactly when the link parse and then the fetch or the search succeed, each failure keeping its own error, and a resolved response always has a track |
| `FindAndEnqueueEffect.OnTriggerEvent` | src/firebot/effects/spotifyFindAndEnqueueTrackEffect.ts:97-151 | a link id leads only to a direct fetch and leaves the search response untouched; otherwise a track search runs with the two filter options. Push (track URI, `allowDuplicates`) comes before the index lookup, and a failed push makes no lookup. `queue_position` is the lookup's result. The track summary is made after the lookup, then the log summaries. It succeeds iff every step, both summaries included, succeeds. Each failure reports the failing step's error. Once the push went through, a failure still reports the track as not enqueued. On success the raw log is the resolved response's log unchanged. A track search leaves in the response body exactly the tracks after the found one, and the artists, albums and playlists unchanged. Every failure has `success` and `trackWasEnqueued` false, no track and empty logs |

## Left out

- HTTP transport, authentication and query encoding (`api.fetch`, `encodeURIComponent`, `URLSearchParams`): the model keeps the request's parameters and takes the fetch's outcome as a given error or response body.
- `getTrackAsync` (src/utils/spotify/index.ts:147-162) is a network fetch. The effect receives its outcome, a track or an error, as a parameter.
- The queue service (`pushAsync`, `findIndexAsync`), `getIdFromTrackUrl` and `trackSummaryFromDetails` are not part of this model. Their outcomes are parameters. No duplicate check is assumed for `pushAsync`.
- `FindAndEnqueueEffect.FailureResult`: `getErrorMessage` is not part of this model. The reported error is taken to be the thrown error's message.
- Logging (`logger.error`) is left out. It has no effect on results.
- Concurrency and `await` ordering between callers are left out. The model is sequential, so the race between two enqueues and a save that overlaps a load are not captured.
- `GetFirstTrack`: it requires that some candidate passes, because the source never returns otherwise. The endless loop itself is shown by `NeverFound`, not run.
- `SearchAsync`: it inherits that requirement for track searches. A track search whose results hold no acceptable track, zero results included, never returns in the source. The model promises nothing for it.
- `OnTriggerEvent`: it inherits the same requirement (`SearchTerminates`). On a search path whose results hold no acceptable track, the source effect never reports at all. The model promises nothing for that case.
- `MaxLengthMs`: `maximumLength` is an integer number of minutes. JavaScript's fractional minutes, `NaN` and the string coercion of a text input are not modelled.
- `SearchAsync`: the search types are taken to be the seven keys of the response map, because the declaration of `SpotifyContextType` is not part of this model.
- `OnTriggerEvent`: the "Track not found" branch cannot be reached. A found track is always present, because `getTrackAsync` returns data or throws and the filter always finds a track when it returns. The branch is kept as written.
- `OnTriggerEvent`: `trackSummaryFromDetails` is a parameter that may fail on any input, the absent track included. What it actually does with `undefined` is not part of this model.
- `SpotifyArtist.ArtistService.BanArtistByUri`: the settings store is taken to keep its own copy of what it is given and of what it returns. `init` keeps the array `getSetting` returns, and the save hands over `_bannedArtists` itself. If the settings service kept that same array, the `push` would change the stored value before the save, even when the save then fails. That sharing is not modelled.
- `SpotifyArtist.ArtistService.Init`: the stored value is taken to be a list. On a first run `getSetting` may return `undefined`, after which `includes` and `push` throw a TypeError. That case is not modelled.
- `OnTriggerEvent`: `getIdFromTrackUrl` returning `undefined` is modelled as returning "". Both are falsy.
- The track object is updated in place in the source (`track.queue_position = …`). The model updates a `Track` value, which is then the `spotifyResponse` output. No other holder of that object is read afterwards.
- `src/utils/spotify/events.ts`, `spotifyChangeRepeatStateEffect.ts`, `spotifyTrackUri.ts`, the queue test and the test fixtures are host wiring, I/O or tests of code outside this model.
