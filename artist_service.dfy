/** The banned-artist registry: an in-memory list of artist URIs written through to the settings store. */
module SpotifyArtist {
  import opened Wrappers
  import opened SearchTypes
  import SpotifyService

  /** The settings key under which the list is stored. */
  const BannedArtistsKey := "bannedArtists"

  /** The message of the TypeError raised when `.uri` is read from an `undefined` search result. */
  const UndefinedUriMessage := "Cannot read properties of undefined (reading 'uri')"

  /** The settings store, reduced to the value it holds under BannedArtistsKey. */
  class SettingsStore {
    var bannedArtists: seq<string>

    constructor (bannedArtists: seq<string>)
      ensures this.bannedArtists == bannedArtists
    {
      this.bannedArtists := bannedArtists;
    }
  }

  class ArtistService {
    /** The settings service reached through the parent service. */
    const settings: SettingsStore
    /** `_bannedArtists`: every ban in order, duplicates included. */
    var bannedArtists: seq<string>

    constructor (settings: SettingsStore)
      ensures this.settings == settings && bannedArtists == []
    {
      this.settings := settings;
      bannedArtists := [];
    }

    /**
     * Replaces the in-memory list with the stored one. `loadError` is the outcome of the
     * read; when it fails, the error propagates and the in-memory list is left as it was.
     */
    method Init(loadError: Option<Error>) returns (outcome: Outcome)
      modifies this`bannedArtists
      ensures loadError == None ==> outcome == Pass && bannedArtists == settings.bannedArtists
      ensures loadError != None ==> outcome == Fail(loadError.value) && bannedArtists == old(bannedArtists)
    {
      if loadError != None {
        outcome := Fail(loadError.value);
        return;
      }
      bannedArtists := settings.bannedArtists;
      outcome := Pass;
    }

    /** Whether the URI was banned at least once (`includes` on the in-memory list). */
    function IsArtistBanned(uri: string): (banned: bool)
      reads this
      ensures banned <==> exists i :: 0 <= i < |bannedArtists| && bannedArtists[i] == uri
    {
      uri in bannedArtists
    }

    /**
     * Appends the URI, even when it is already there, and then saves the whole list.
     * `saveError` is the outcome of the save; when it fails, the in-memory list keeps the
     * new entry while the store keeps its old value.
     */
    method BanArtistByUri(uri: string, saveError: Option<Error>) returns (outcome: Outcome)
      modifies this`bannedArtists, settings`bannedArtists
      ensures bannedArtists == old(bannedArtists) + [uri]
      ensures |bannedArtists| == |old(bannedArtists)| + 1
      ensures IsArtistBanned(uri)
      ensures forall u :: old(IsArtistBanned(u)) ==> IsArtistBanned(u)
      ensures saveError == None ==> outcome == Pass && settings.bannedArtists == bannedArtists
      ensures saveError != None ==>
                outcome == Fail(saveError.value) && settings.bannedArtists == old(settings.bannedArtists)
    {
      bannedArtists := bannedArtists + [uri];
      if saveError != None {
        outcome := Fail(saveError.value);
        return;
      }
      settings.bannedArtists := bannedArtists;
      outcome := Pass;
    }

    /**
     * Searches for artists by name (default options) and bans the URI of the first result.
     * `fetchError` and `data` are the search call's outcome, `saveError` the save's.
     */
    method BanArtistByName(name: string, fetchError: Option<Error>, data: SpotifyService.ApiSearchResponse?,
                           saveError: Option<Error>)
      returns (request: SpotifyService.SearchRequest, outcome: Outcome)
      modifies this`bannedArtists, settings`bannedArtists, if data != null then {data} else {}
      ensures request == SpotifyService.SearchParams(name, ArtistSearch, NoOptions)
      ensures request.limit == 50 && request.offset == 0
      ensures data != null ==> unchanged(data)
      ensures fetchError != None ==> outcome == Fail(fetchError.value)
      ensures fetchError == None && data == null ==> outcome == Fail(Error(SpotifyService.NoDataMessage))
      ensures fetchError == None && data != null && data.artists == [] ==> outcome == Fail(Error(UndefinedUriMessage))
      ensures !(fetchError == None && data != null && data.artists != []) ==>
                bannedArtists == old(bannedArtists) && settings.bannedArtists == old(settings.bannedArtists)
      ensures fetchError == None && data != null && data.artists != [] ==>
                && bannedArtists == old(bannedArtists) + [data.artists[0].uri]
                && (saveError == None ==> outcome == Pass && settings.bannedArtists == bannedArtists)
                && (saveError != None ==> outcome == Fail(saveError.value)
                                          && settings.bannedArtists == old(settings.bannedArtists))
    {
      var r;
      request, r := SpotifyService.SearchAsync(name, ArtistSearch, NoOptions, fetchError, data);
      if r.Failure? {
        outcome := Fail(r.error);
        return;
      }
      match r.value
      case ArtistResult(response) =>
        match response.found
        case None =>
          outcome := Fail(Error(UndefinedUriMessage));
        case Some(artist) =>
          outcome := BanArtistByUri(artist.uri, saveError);
    }
  }

  /** A ban that was saved is what the next Init of a fresh service over the same store reads back. */
  method ReloadAfterBan(store: SettingsStore, uri: string) returns (saved: seq<string>, reloaded: seq<string>)
    modifies store
    ensures saved == old(store.bannedArtists) + [uri]
    ensures reloaded == saved
  {
    var service := new ArtistService(store);
    var loaded := service.Init(None);
    var outcome := service.BanArtistByUri(uri, None);
    saved := service.bannedArtists;
    var restarted := new ArtistService(store);
    var reloadedOutcome := restarted.Init(None);
    reloaded := restarted.bannedArtists;
  }
}
