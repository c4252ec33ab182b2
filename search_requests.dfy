/**
 * The search module: searchItems, which calls the API directly and pages each kind of
 * result with its own projection. Its track, album, artist and playlist projections
 * differ from the shared ones; the track projection is also the one of the tracks
 * module. Unlike the shared projections these read `artists` and `album` without
 * `?.`, so a result missing them throws.
 */
module SearchRequests {
  import opened Js
  import opened Http
  import opened Slims
  import Requests

  const StrictTrackCopied: set<string> := {"id", "name", "popularity", "duration_ms", "explicit", "uri"}
  const StrictTrackKeys: set<string> := StrictTrackCopied + {"artists", "album", "external_url"}

  /** slimTrack of the search and tracks modules: `item.artists.map(a => a.name)` and `item.album.name`. */
  function StrictTrack(item: Json): (r: Result<Json>)
    ensures !Truthy(item) ==> r == Ok(JNull)
    ensures Truthy(item) ==> (r.Ok? <==> NamesPresent(Prop(item, "artists")) && !Nullish(Prop(item, "album")))
    ensures Truthy(item) && r.Ok? ==>
      HasKeys(r.value, StrictTrackKeys) && CopiesFrom(r.value, item, StrictTrackCopied)
      && MappedFrom(r.value.fields["artists"], Prop(item, "artists"), NameOf)
      && r.value.fields["album"] == Prop(Prop(item, "album"), "name")
      && r.value.fields["external_url"] == ExternalUrl(item)
  {
    if !Truthy(item) then Ok(JNull)
    else
      var artists :- MapStrict(Prop(item, "artists"), NameOf);
      var album :- Member(Prop(item, "album"), "name");
      Ok(JObj(Pick(item, StrictTrackCopied)
                ["artists" := artists]
                ["album" := album]
                ["external_url" := ExternalUrl(item)]))
  }

  /** A track without artists is projected by the shared projection but throws in this one. */
  lemma StrictTrackNeedsArtists(item: Json)
    requires Truthy(item) && Nullish(Prop(item, "artists"))
    ensures SlimTrack(item).Ok?
    ensures StrictTrack(item).Thrown?
  {
  }

  const SearchAlbumCopied: set<string> := {"id", "name", "total_tracks", "release_date", "uri"}
  const SearchAlbumKeys: set<string> := SearchAlbumCopied + {"artists", "external_url"}

  function SearchAlbum(item: Json): (r: Result<Json>)
    ensures !Truthy(item) ==> r == Ok(JNull)
    ensures Truthy(item) ==> (r.Ok? <==> NamesPresent(Prop(item, "artists")))
    ensures Truthy(item) && r.Ok? ==>
      HasKeys(r.value, SearchAlbumKeys) && CopiesFrom(r.value, item, SearchAlbumCopied)
      && MappedFrom(r.value.fields["artists"], Prop(item, "artists"), NameOf)
      && r.value.fields["external_url"] == ExternalUrl(item)
  {
    if !Truthy(item) then Ok(JNull)
    else
      var artists :- MapStrict(Prop(item, "artists"), NameOf);
      Ok(JObj(Pick(item, SearchAlbumCopied)["artists" := artists]["external_url" := ExternalUrl(item)]))
  }

  const SearchArtistCopied: set<string> := {"id", "name", "genres", "popularity", "uri"}
  const SearchArtistKeys: set<string> := SearchArtistCopied + {"followers", "external_url"}

  /** The artist projection keeps the follower count, `item.followers?.total`, in place of the object. */
  function SearchArtist(item: Json): (r: Json)
    ensures !Truthy(item) ==> r == JNull
    ensures Truthy(item) ==>
      HasKeys(r, SearchArtistKeys) && CopiesFrom(r, item, SearchArtistCopied)
      && r.fields["followers"] == Prop(Prop(item, "followers"), "total")
      && r.fields["external_url"] == ExternalUrl(item)
  {
    if !Truthy(item) then JNull
    else JObj(Pick(item, SearchArtistCopied)
                ["followers" := Prop(Prop(item, "followers"), "total")]
                ["external_url" := ExternalUrl(item)])
  }

  function SearchArtistCallback(item: Json): Result<Json> {
    Ok(SearchArtist(item))
  }

  const SearchPlaylistCopied: set<string> := {"id", "name", "description", "uri"}
  const SearchPlaylistKeys: set<string> := SearchPlaylistCopied + {"owner", "external_url"}

  /** The playlist projection keeps only the owner's display name. */
  function SearchPlaylist(item: Json): (r: Json)
    ensures !Truthy(item) ==> r == JNull
    ensures Truthy(item) ==>
      HasKeys(r, SearchPlaylistKeys) && CopiesFrom(r, item, SearchPlaylistCopied)
      && r.fields["owner"] == Prop(Prop(item, "owner"), "display_name")
      && r.fields["external_url"] == ExternalUrl(item)
  {
    if !Truthy(item) then JNull
    else JObj(Pick(item, SearchPlaylistCopied)
                ["owner" := Prop(Prop(item, "owner"), "display_name")]
                ["external_url" := ExternalUrl(item)])
  }

  function SearchPlaylistCallback(item: Json): Result<Json> {
    Ok(SearchPlaylist(item))
  }

  /** The projection each search result kind is paged with in this module. */
  function SearchCallback(kind: string): Json -> Result<Json> {
    match kind
    case "tracks" => StrictTrack
    case "artists" => SearchArtistCallback
    case "albums" => SearchAlbum
    case "playlists" => SearchPlaylistCallback
    case "shows" => ShowCallback
    case "episodes" => EpisodeCallback
    case _ => SlimAudiobook
  }

  function SearchPage(data: Json, kind: string): Result<Json> {
    ProcessPagingObject(Prop(data, kind), SearchCallback(kind))
  }

  /** The try block of searchItems: `data.tracks` and the rest, so a null body throws there. */
  function SearchFromReply(status: int, data: Json): (r: Result<Json>)
    ensures Nullish(data) ==> r == Thrown(TypeError)
    ensures !Nullish(data) ==> (r.Ok? <==> forall k :: k in Requests.SearchKeys ==> SearchPage(data, k).Ok?)
    ensures r.Ok? ==>
      HasKeys(r.value, Requests.SearchKeys)
      && forall k :: k in Requests.SearchKeys ==> r.value.fields[k] == SearchPage(data, k).value
  {
    if Nullish(data) then Thrown(TypeError)
    else
      var pages :- Requests.Pages(kind => SearchPage(data, kind), Requests.SearchOrder);
      Ok(JObj(pages))
  }

  const SearchFailed: Exn := Error("Failed to perform search")

  function SearchItems(creds: Credentials, q: string, kind: string, market: Option<string>, limit: Option<int>,
                       offset: Option<int>, includeExternal: Option<string>, outcome: Outcome): (x: Exchange<Json>)
    ensures Attempts(x, creds,
                     ApiRequest(Get, "search", AuthorizationOnly(creds),
                                Requests.SearchParams(q, kind, market, limit, offset, includeExternal), JUndef),
                     outcome, SearchFromReply, Always(Thrown(SearchFailed)))
  {
    TryRequest(creds,
               ApiRequest(Get, "search", AuthorizationOnly(creds),
                          Requests.SearchParams(q, kind, market, limit, offset, includeExternal), JUndef),
               outcome, SearchFromReply, Always(Thrown(SearchFailed)))
  }

  /**
   * Once signed in, a search succeeds exactly when a 2xx reply can be paged; every other
   * outcome, a failed reply or a result that cannot be projected alike, ends in the same error.
   */
  lemma SearchOutcomes(creds: Credentials, q: string, kind: string, market: Option<string>, limit: Option<int>,
                       offset: Option<int>, includeExternal: Option<string>, outcome: Outcome)
    requires creds.authenticated
    ensures var r := SearchItems(creds, q, kind, market, limit, offset, includeExternal, outcome).result;
      && (r.Ok? <==> Succeeded(outcome) && SearchFromReply(outcome.status, outcome.body).Ok?)
      && (r.Ok? ==> r == SearchFromReply(outcome.status, outcome.body))
      && (r.Thrown? ==> r == Thrown(SearchFailed))
  {
  }
}
