/**
 * The playlist module: five functions that call the API directly, each behind the
 * authentication guard and inside a try block whose catch block classifies the failure
 * by status. Its track projection differs from the shared one: artists are kept as
 * objects, the album as a projected album, and more track fields are kept.
 */
module PlaylistRequests {
  import opened Js
  import opened Http
  import opened Slims
  import opened Bodies

  // ---------------------------------------------------------------------------
  // The track, playlist-track and playlist projections of this module.

  const NestedTrackCopied: set<string> :=
    {"id", "name", "duration_ms", "explicit", "is_playable", "popularity", "track_number", "disc_number", "uri", "is_local"}
  const NestedTrackKeys: set<string> := NestedTrackCopied + {"artists", "album", "external_url"}

  /** slimTrack of the playlist module: artists through slimArtist, the album through slimAlbum. */
  function NestedTrack(track: Json): (r: Result<Json>)
    ensures !Truthy(track) ==> r == Ok(JNull)
    ensures Truthy(track) ==>
      (r.Ok? <==> Mappable(Prop(track, "artists"), ArtistCallback) && SlimAlbum(Prop(track, "album")).Ok?)
    ensures Truthy(track) && r.Ok? ==>
      HasKeys(r.value, NestedTrackKeys) && CopiesFrom(r.value, track, NestedTrackCopied)
      && MappedFrom(r.value.fields["artists"], Prop(track, "artists"), ArtistCallback)
      && r.value.fields["album"] == SlimAlbum(Prop(track, "album")).value
      && r.value.fields["external_url"] == ExternalUrl(track)
  {
    if !Truthy(track) then Ok(JNull)
    else
      var artists :- MapList(Prop(track, "artists"), ArtistCallback);
      var album :- SlimAlbum(Prop(track, "album"));
      Ok(NestedTrackObject(track, artists, album))
  }

  /** The object the playlist module's slimTrack builds around its projected artists and album. */
  function NestedTrackObject(track: Json, artists: Json, album: Json): (r: Json)
    ensures HasKeys(r, NestedTrackKeys) && CopiesFrom(r, track, NestedTrackCopied)
    ensures r.fields["artists"] == artists && r.fields["album"] == album
    ensures r.fields["external_url"] == ExternalUrl(track)
  {
    JObj(Pick(track, NestedTrackCopied)["artists" := artists]["album" := album]["external_url" := ExternalUrl(track)])
  }

  /** An album whose lists are absent is projected, so a track needs only well-formed lists to be projected. */
  lemma NestedTrackAbsentLists(track: Json)
    requires Truthy(track) && Nullish(Prop(track, "artists"))
    requires Nullish(Prop(Prop(track, "album"), "images")) && Nullish(Prop(Prop(track, "album"), "artists"))
    ensures NestedTrack(track).Ok?
    ensures NestedTrack(track).value.fields["artists"] == JArr([])
  {
  }

  /** slimPlaylistTrack of the playlist module, around its own track projection. */
  function NestedPlaylistTrack(item: Json): (r: Result<Json>)
    ensures !Truthy(item) ==> r == Ok(JNull)
    ensures Truthy(item) ==> (r.Ok? <==> NestedTrack(Prop(item, "track")).Ok?)
    ensures Truthy(item) && r.Ok? ==>
      HasKeys(r.value, PlaylistTrackKeys) && CopiesFrom(r.value, item, {"added_at", "is_local"})
      && r.value.fields["added_by"] == SlimPlaylistOwner(Prop(item, "added_by"))
      && r.value.fields["track"] == NestedTrack(Prop(item, "track")).value
  {
    if !Truthy(item) then Ok(JNull)
    else
      var track :- NestedTrack(Prop(item, "track"));
      Ok(PlaylistTrackObject(item, track))
  }

  /** slimPlaylist of the playlist module: the shared shape around its own playlist-track projection. */
  function NestedPlaylist(data: Json): (r: Result<Json>)
    ensures !Truthy(data) ==> r == Ok(JNull)
    ensures Truthy(data) ==>
      (r.Ok? <==> Mappable(Prop(data, "images"), ImageCallback)
                  && Mappable(Prop(Prop(data, "tracks"), "items"), NestedPlaylistTrack))
    ensures Truthy(data) && r.Ok? ==>
      HasKeys(r.value, PlaylistKeys) && CopiesFrom(r.value, data, PlaylistCopied)
      && r.value.fields["owner"] == SlimPlaylistOwner(Prop(data, "owner"))
      && MappedFrom(r.value.fields["images"], Prop(data, "images"), ImageCallback)
      && r.value.fields["tracks"] == TrackList(Prop(data, "tracks"), NestedPlaylistTrack).value
      && r.value.fields["external_url"] == ExternalUrl(data)
  {
    if !Truthy(data) then Ok(JNull)
    else
      var images :- MapList(Prop(data, "images"), ImageCallback);
      var tracks :- TrackList(Prop(data, "tracks"), NestedPlaylistTrack);
      Ok(PlaylistObject(data, SlimPlaylistOwner(Prop(data, "owner")), images, tracks))
  }

  // ---------------------------------------------------------------------------
  // The catch blocks.

  const PermissionMessage: string := "You don't have permission to modify this playlist"

  /** getPlaylist's catch: 404 and 401 get their own message, every other failure the generic one. */
  function PlaylistReadFailure(c: Caught): (r: Result<Json>)
    ensures HasStatus(c, 404) ==> r == Thrown(Error("Playlist not found"))
    ensures HasStatus(c, 401) ==> r == Thrown(Error("Invalid or expired access token"))
    ensures !HasStatus(c, 404) && !HasStatus(c, 401) ==> r == Thrown(Error("Failed to fetch playlist"))
  {
    if HasStatus(c, 404) then Thrown(Error("Playlist not found"))
    else if HasStatus(c, 401) then Thrown(Error("Invalid or expired access token"))
    else Thrown(Error("Failed to fetch playlist"))
  }

  /** getPlaylistItems' catch: only 404 is singled out. */
  function ItemsReadFailure(c: Caught): (r: Result<Json>)
    ensures HasStatus(c, 404) ==> r == Thrown(Error("Playlist not found"))
    ensures !HasStatus(c, 404) ==> r == Thrown(Error("Failed to fetch playlist items"))
  {
    if HasStatus(c, 404) then Thrown(Error("Playlist not found")) else Thrown(Error("Failed to fetch playlist items"))
  }

  /**
   * The catch of the three writes: 403 and 404 throw, every other failure is answered
   * with `{ success: false, error: fallback }`.
   */
  function WriteFailure(c: Caught, fallback: string): (r: Result<Json>)
    ensures HasStatus(c, 403) ==> r == Thrown(Error(PermissionMessage))
    ensures HasStatus(c, 404) ==> r == Thrown(Error("Playlist not found"))
    ensures !HasStatus(c, 403) && !HasStatus(c, 404) ==> r == Ok(SuccessFalse(fallback))
  {
    if HasStatus(c, 403) then Thrown(Error(PermissionMessage))
    else if HasStatus(c, 404) then Thrown(Error("Playlist not found"))
    else Ok(SuccessFalse(fallback))
  }

  function DetailsFailure(c: Caught): Result<Json> {
    WriteFailure(c, "Failed to change playlist details")
  }

  function UpdateFailure(c: Caught): Result<Json> {
    WriteFailure(c, "Failed to update playlist items")
  }

  function AdditionFailure(c: Caught): Result<Json> {
    WriteFailure(c, "Failed to add items to playlist")
  }

  // ---------------------------------------------------------------------------
  // What the try blocks make of a 2xx reply.

  function PlaylistFromReply(status: int, data: Json): Result<Json> {
    NestedPlaylist(data)
  }

  /** The page of getPlaylistItems: `result.data.href` and the rest read without `?.`, the items with it. */
  function ItemsFromReply(status: int, data: Json): (r: Result<Json>)
    ensures Nullish(data) ==> r == Thrown(TypeError)
    ensures !Nullish(data) ==> (r.Ok? <==> Mappable(Prop(data, "items"), NestedPlaylistTrack))
    ensures r.Ok? ==>
      HasKeys(r.value, TrackListKeys) && CopiesFrom(r.value, data, TrackListKeys - {"items"})
      && MappedFrom(r.value.fields["items"], Prop(data, "items"), NestedPlaylistTrack)
  {
    if Nullish(data) then Thrown(TypeError) else TrackList(data, NestedPlaylistTrack)
  }

  /** `{ success: true, snapshot_id: result.data.snapshot_id }`; a null body throws inside the try. */
  function SnapshotFromReply(status: int, data: Json): (r: Result<Json>)
    ensures Nullish(data) ==> r == Thrown(TypeError)
    ensures !Nullish(data) ==>
      r.Ok? && HasKeys(r.value, {"success", "snapshot_id"})
      && r.value.fields["success"] == JBool(true) && r.value.fields["snapshot_id"] == Prop(data, "snapshot_id")
  {
    var snapshot :- Member(data, "snapshot_id");
    Ok(JObj(map["success" := JBool(true), "snapshot_id" := snapshot]))
  }

  // ---------------------------------------------------------------------------
  // The exports.

  function GetPlaylist(creds: Credentials, playlistId: string, market: Option<string>, fields: Option<string>,
                       additionalTypes: Option<string>, outcome: Outcome): (x: Exchange<Json>)
    ensures Attempts(x, creds,
                     ApiRequest(Get, "playlists/" + playlistId, AuthorizationOnly(creds),
                                JObj(map["market" := OptStr(market), "fields" := OptStr(fields),
                                         "additional_types" := OptStr(additionalTypes)]), JUndef),
                     outcome, PlaylistFromReply, PlaylistReadFailure)
  {
    TryRequest(creds,
               ApiRequest(Get, "playlists/" + playlistId, AuthorizationOnly(creds),
                          JObj(map["market" := OptStr(market), "fields" := OptStr(fields),
                                   "additional_types" := OptStr(additionalTypes)]), JUndef),
               outcome, PlaylistFromReply, PlaylistReadFailure)
  }

  /** A 2xx reply whose playlist cannot be projected ends in the generic message, like a server error. */
  lemma GetPlaylistProjectionFailure(creds: Credentials, playlistId: string, market: Option<string>,
                                     fields: Option<string>, additionalTypes: Option<string>, status: int, body: Json)
    requires creds.authenticated && IsSuccess(status) && NestedPlaylist(body).Thrown?
    ensures GetPlaylist(creds, playlistId, market, fields, additionalTypes, Replied(status, body)).result
            == Thrown(Error("Failed to fetch playlist"))
  {
  }

  method ChangePlaylistDetails(creds: Credentials, playlistId: string, name: Option<string>,
                               description: Option<string>, publicPlaylist: Option<bool>,
                               collaborative: Option<bool>, outcome: Outcome)
    returns (body: map<string, Json>, x: Exchange<Json>)
    ensures DetailsBody(body, name, description, publicPlaylist, collaborative)
    ensures Attempts(x, creds, ApiRequest(Put, "playlists/" + playlistId, JsonHeaders(creds), JUndef, JObj(body)),
                     outcome, OnData(Acknowledge), DetailsFailure)
  {
    body := BuildDetailsBody(name, description, publicPlaylist, collaborative);
    x := TryRequest(creds, ApiRequest(Put, "playlists/" + playlistId, JsonHeaders(creds), JUndef, JObj(body)),
                    outcome, OnData(Acknowledge), DetailsFailure);
  }

  function GetPlaylistItems(creds: Credentials, playlistId: string, market: Option<string>, fields: Option<string>,
                            limit: Option<int>, offset: Option<int>, additionalTypes: Option<string>,
                            outcome: Outcome): (x: Exchange<Json>)
    ensures Attempts(x, creds,
                     ApiRequest(Get, "playlists/" + playlistId + "/tracks", AuthorizationOnly(creds),
                                JObj(map["market" := OptStr(market), "fields" := OptStr(fields), "limit" := OptNum(limit),
                                         "offset" := OptNum(offset), "additional_types" := OptStr(additionalTypes)]),
                                JUndef),
                     outcome, ItemsFromReply, ItemsReadFailure)
  {
    TryRequest(creds,
               ApiRequest(Get, "playlists/" + playlistId + "/tracks", AuthorizationOnly(creds),
                          JObj(map["market" := OptStr(market), "fields" := OptStr(fields), "limit" := OptNum(limit),
                                   "offset" := OptNum(offset), "additional_types" := OptStr(additionalTypes)]),
                          JUndef),
               outcome, ItemsFromReply, ItemsReadFailure)
  }

  method UpdatePlaylistItems(creds: Credentials, playlistId: string, uris: Option<seq<string>>,
                             rangeStart: Option<int>, insertBefore: Option<int>, rangeLength: Option<int>,
                             snapshotId: Option<string>, outcome: Outcome)
    returns (body: map<string, Json>, params: map<string, Json>, x: Exchange<Json>)
    ensures ItemsUpdate(body, params, uris, rangeStart, insertBefore, rangeLength, snapshotId)
    ensures Attempts(x, creds,
                     ApiRequest(Put, "playlists/" + playlistId + "/tracks", JsonHeaders(creds),
                                if uris.Some? then JObj(params) else JUndef, JObj(body)),
                     outcome, SnapshotFromReply, UpdateFailure)
  {
    body, params := BuildItemsUpdate(uris, rangeStart, insertBefore, rangeLength, snapshotId);
    x := TryRequest(creds,
                    ApiRequest(Put, "playlists/" + playlistId + "/tracks", JsonHeaders(creds),
                               if uris.Some? then JObj(params) else JUndef, JObj(body)),
                    outcome, SnapshotFromReply, UpdateFailure);
  }

  method AddItemsToPlaylist(creds: Credentials, playlistId: string, uris: seq<string>, position: Option<int>,
                            outcome: Outcome)
    returns (body: map<string, Json>, params: map<string, Json>, x: Exchange<Json>)
    ensures ItemsAddition(body, params, uris, position)
    ensures Attempts(x, creds,
                     ApiRequest(Post, "playlists/" + playlistId + "/tracks", JsonHeaders(creds),
                                if position.Some? then JObj(params) else JUndef, JObj(body)),
                     outcome, SnapshotFromReply, AdditionFailure)
  {
    body, params := BuildItemsAddition(uris, position);
    AdditionParamsNonEmpty(body, params, uris, position);
    x := TryRequest(creds,
                    ApiRequest(Post, "playlists/" + playlistId + "/tracks", JsonHeaders(creds),
                               if |params| > 0 then JObj(params) else JUndef, JObj(body)),
                    outcome, SnapshotFromReply, AdditionFailure);
  }

  /** A write answered 2xx with a null body is reported as a plain failure, not as a thrown error. */
  lemma NullWriteReplyIsFailure(status: int)
    requires IsSuccess(status)
    ensures Try(Replied(status, JNull), SnapshotFromReply) == Failed(OtherFailure)
    ensures UpdateFailure(OtherFailure) == Ok(SuccessFalse("Failed to update playlist items"))
  {
  }
}
