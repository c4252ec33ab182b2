/**
 * The shared request module: one function per Spotify endpoint, each a call of the
 * dispatcher `makeRequest` with the arguments shaped into params and a body, and the
 * reply's data projected. Optional arguments are `Option`s; in a params object an
 * absent argument is present as `undefined`, as in the object literal.
 */
module Requests {
  import opened Js
  import Text
  import opened Http
  import opened Slims
  import opened Bodies

  /** The device params: an object naming the device when the id is non-empty, otherwise undefined. */
  function DeviceParams(deviceId: Option<string>): (p: Json)
    ensures TruthyStr(deviceId) ==> p == JObj(map["device_id" := JStr(deviceId.value)])
    ensures !TruthyStr(deviceId) ==> p == JUndef
  {
    if TruthyStr(deviceId) then JObj(map["device_id" := JStr(deviceId.value)]) else JUndef
  }

  /** `{ ...fields, ...(deviceId && { device_id: deviceId }) }`: the device key only for a non-empty id. */
  function WithDevice(fields: map<string, Json>, deviceId: Option<string>): (p: Json)
    requires "device_id" !in fields
    ensures p.JObj? && p.fields.Keys == fields.Keys + (if TruthyStr(deviceId) then {"device_id"} else {})
    ensures forall k :: k in fields ==> p.fields[k] == fields[k]
    ensures TruthyStr(deviceId) ==> p.fields["device_id"] == JStr(deviceId.value)
  {
    if TruthyStr(deviceId) then JObj(fields["device_id" := JStr(deviceId.value)]) else JObj(fields)
  }

  /** The `{ market, additional_types }` params of the two playback reads. */
  function MarketParams(market: Option<string>, additionalTypes: Option<string>): Json {
    JObj(map["market" := OptStr(market), "additional_types" := OptStr(additionalTypes)])
  }

  /** The ids array of a body: the comma-separated list split and each piece trimmed. */
  function IdArray(ids: string): (r: Json)
    ensures r.JArr? && |r.items| == |Text.SplitTrim(ids)| == Text.Count(ids, ',') + 1
    ensures forall i :: 0 <= i < |r.items| ==> r.items[i] == JStr(Text.SplitTrim(ids)[i])
  {
    Text.SplitTrimCount(ids);
    StrArray(Text.SplitTrim(ids))
  }

  /** The page size sent: the given limit when it lies in 1..50, otherwise 20. */
  function FinalLimit(limit: Option<int>): (n: int)
    ensures 1 <= n <= 50
    ensures limit.Some? && 1 <= limit.value <= 50 ==> n == limit.value
    ensures !(limit.Some? && 1 <= limit.value <= 50) ==> n == 20
  {
    if limit.Some? && limit.value >= 1 && limit.value <= 50 then limit.value else 20
  }

  // ---------------------------------------------------------------------------
  // Player

  function GetPlaybackState(creds: Credentials, market: Option<string>, additionalTypes: Option<string>,
                            outcome: Outcome): (x: Exchange<Json>)
    ensures Performs(x, creds, Get, "me/player", Config(MarketParams(market, additionalTypes), JUndef), outcome,
                     SlimPlaybackState)
  {
    Then(MakeRequest(creds, Get, "me/player", Config(MarketParams(market, additionalTypes), JUndef), outcome),
         SlimPlaybackState)
  }

  function TransferPlayback(creds: Credentials, deviceIds: seq<string>, play: Option<bool>, outcome: Outcome)
    : (x: Exchange<Json>)
    ensures Performs(x, creds, Put, "me/player",
                     Config(JUndef, JObj(map["device_ids" := StrArray(deviceIds), "play" := OptBool(play)])),
                     outcome, Acknowledge)
  {
    Then(MakeRequest(creds, Put, "me/player",
                     Config(JUndef, JObj(map["device_ids" := StrArray(deviceIds), "play" := OptBool(play)])), outcome),
         Acknowledge)
  }

  /** `{ devices: data.devices.map(slimDevice) }`; a reply without a device array throws. */
  function DevicesReply(data: Json): (r: Result<Json>)
    ensures r.Ok? <==> Prop(data, "devices").JArr?
    ensures r.Thrown? ==> r.exn == TypeError
    ensures r.Ok? ==> HasKeys(r.value, {"devices"}) && MappedFrom(r.value.fields["devices"], Prop(data, "devices"), DeviceCallback)
  {
    var devices :- MapStrict(Prop(data, "devices"), DeviceCallback);
    Ok(JObj(map["devices" := devices]))
  }

  function GetAvailableDevices(creds: Credentials, outcome: Outcome): (x: Exchange<Json>)
    ensures Performs(x, creds, Get, "me/player/devices", Config(JUndef, JUndef), outcome, DevicesReply)
  {
    Then(MakeRequest(creds, Get, "me/player/devices", Config(JUndef, JUndef), outcome), DevicesReply)
  }

  function GetCurrentlyPlayingTrack(creds: Credentials, market: Option<string>, additionalTypes: Option<string>,
                                    outcome: Outcome): (x: Exchange<Json>)
    ensures Performs(x, creds, Get, "me/player/currently-playing",
                     Config(MarketParams(market, additionalTypes), JUndef), outcome, SlimPlaybackState)
  {
    Then(MakeRequest(creds, Get, "me/player/currently-playing",
                     Config(MarketParams(market, additionalTypes), JUndef), outcome),
         SlimPlaybackState)
  }

  /** startResumePlayback: the body built field by field, the device id as the only param. */
  method StartResumePlayback(creds: Credentials, deviceId: Option<string>, contextUri: Option<string>,
                             uris: Option<seq<string>>, offset: Json, positionMs: Option<int>, outcome: Outcome)
    returns (body: map<string, Json>, x: Exchange<Json>)
    ensures ResumeBody(body, contextUri, uris, offset, positionMs)
    ensures Performs(x, creds, Put, "me/player/play", Config(DeviceParams(deviceId), JObj(body)), outcome, Acknowledge)
  {
    body := BuildResumeBody(contextUri, uris, offset, positionMs);
    x := Then(MakeRequest(creds, Put, "me/player/play", Config(DeviceParams(deviceId), JObj(body)), outcome), Acknowledge);
  }

  function PausePlayback(creds: Credentials, deviceId: Option<string>, outcome: Outcome): (x: Exchange<Json>)
    ensures Performs(x, creds, Put, "me/player/pause", Config(DeviceParams(deviceId), JUndef), outcome, Acknowledge)
  {
    Then(MakeRequest(creds, Put, "me/player/pause", Config(DeviceParams(deviceId), JUndef), outcome), Acknowledge)
  }

  function SkipToNext(creds: Credentials, deviceId: Option<string>, outcome: Outcome): (x: Exchange<Json>)
    ensures Performs(x, creds, Post, "me/player/next", Config(DeviceParams(deviceId), JUndef), outcome, Acknowledge)
  {
    Then(MakeRequest(creds, Post, "me/player/next", Config(DeviceParams(deviceId), JUndef), outcome), Acknowledge)
  }

  function SkipToPrevious(creds: Credentials, deviceId: Option<string>, outcome: Outcome): (x: Exchange<Json>)
    ensures Performs(x, creds, Post, "me/player/previous", Config(DeviceParams(deviceId), JUndef), outcome, Acknowledge)
  {
    Then(MakeRequest(creds, Post, "me/player/previous", Config(DeviceParams(deviceId), JUndef), outcome), Acknowledge)
  }

  function SeekToPosition(creds: Credentials, positionMs: int, deviceId: Option<string>, outcome: Outcome)
    : (x: Exchange<Json>)
    ensures Performs(x, creds, Put, "me/player/seek",
                     Config(WithDevice(map["position_ms" := JNum(positionMs)], deviceId), JUndef), outcome, Acknowledge)
  {
    Then(MakeRequest(creds, Put, "me/player/seek",
                     Config(WithDevice(map["position_ms" := JNum(positionMs)], deviceId), JUndef), outcome),
         Acknowledge)
  }

  function SetRepeatMode(creds: Credentials, state: string, deviceId: Option<string>, outcome: Outcome)
    : (x: Exchange<Json>)
    ensures Performs(x, creds, Put, "me/player/repeat",
                     Config(WithDevice(map["state" := JStr(state)], deviceId), JUndef), outcome, Acknowledge)
  {
    Then(MakeRequest(creds, Put, "me/player/repeat",
                     Config(WithDevice(map["state" := JStr(state)], deviceId), JUndef), outcome),
         Acknowledge)
  }

  function SetPlaybackVolume(creds: Credentials, volumePercent: int, deviceId: Option<string>, outcome: Outcome)
    : (x: Exchange<Json>)
    ensures Performs(x, creds, Put, "me/player/volume",
                     Config(WithDevice(map["volume_percent" := JNum(volumePercent)], deviceId), JUndef), outcome,
                     Acknowledge)
  {
    Then(MakeRequest(creds, Put, "me/player/volume",
                     Config(WithDevice(map["volume_percent" := JNum(volumePercent)], deviceId), JUndef), outcome),
         Acknowledge)
  }

  function TogglePlaybackShuffle(creds: Credentials, state: bool, deviceId: Option<string>, outcome: Outcome)
    : (x: Exchange<Json>)
    ensures Performs(x, creds, Put, "me/player/shuffle",
                     Config(WithDevice(map["state" := JBool(state)], deviceId), JUndef), outcome, Acknowledge)
  {
    Then(MakeRequest(creds, Put, "me/player/shuffle",
                     Config(WithDevice(map["state" := JBool(state)], deviceId), JUndef), outcome),
         Acknowledge)
  }

  /** A history entry: its projected track with the play time and context copied; a null entry throws. */
  function PlayedItem(item: Json): (r: Result<Json>)
    ensures Nullish(item) ==> r == Thrown(TypeError)
    ensures !Nullish(item) ==> (r.Ok? <==> SlimTrack(Prop(item, "track")).Ok?)
    ensures r.Ok? ==>
      HasKeys(r.value, {"track", "played_at", "context"}) && CopiesFrom(r.value, item, {"played_at", "context"})
      && r.value.fields["track"] == SlimTrack(Prop(item, "track")).value
  {
    var track :- Member(item, "track");
    var slim :- SlimTrack(track);
    Ok(JObj(map["track" := slim, "played_at" := Prop(item, "played_at"), "context" := Prop(item, "context")]))
  }

  /** `{ items: data.items.map(...) }` of the recently played history. */
  function RecentlyPlayed(data: Json): (r: Result<Json>)
    ensures r.Ok? <==> MappableStrict(Prop(data, "items"), PlayedItem)
    ensures r.Ok? ==> HasKeys(r.value, {"items"}) && MappedFrom(r.value.fields["items"], Prop(data, "items"), PlayedItem)
  {
    var items :- MapStrict(Prop(data, "items"), PlayedItem);
    Ok(JObj(map["items" := items]))
  }

  function GetRecentlyPlayedTracks(creds: Credentials, limit: Option<int>, after: Option<int>, before: Option<int>,
                                   outcome: Outcome): (x: Exchange<Json>)
    ensures Performs(x, creds, Get, "me/player/recently-played",
                     Config(JObj(map["limit" := OptNum(limit), "after" := OptNum(after), "before" := OptNum(before)]), JUndef),
                     outcome, RecentlyPlayed)
  {
    Then(MakeRequest(creds, Get, "me/player/recently-played",
                     Config(JObj(map["limit" := OptNum(limit), "after" := OptNum(after), "before" := OptNum(before)]), JUndef),
                     outcome),
         RecentlyPlayed)
  }

  /** The queue reply: the current track and every queued track, each projected; a null reply or a queue that is not an array throws. */
  function QueueReply(data: Json): (r: Result<Json>)
    ensures Nullish(data) ==> r == Thrown(TypeError)
    ensures !Nullish(data) ==>
      (r.Ok? <==> SlimTrack(Prop(data, "currently_playing")).Ok? && MappableStrict(Prop(data, "queue"), TrackCallback))
    ensures r.Ok? ==>
      HasKeys(r.value, {"currently_playing", "queue"})
      && r.value.fields["currently_playing"] == SlimTrack(Prop(data, "currently_playing")).value
      && MappedFrom(r.value.fields["queue"], Prop(data, "queue"), TrackCallback)
  {
    var current :- Member(data, "currently_playing");
    var slim :- SlimTrack(current);
    var queue :- MapStrict(Prop(data, "queue"), TrackCallback);
    Ok(JObj(map["currently_playing" := slim, "queue" := queue]))
  }

  function GetUserQueue(creds: Credentials, outcome: Outcome): (x: Exchange<Json>)
    ensures Performs(x, creds, Get, "me/player/queue", Config(JUndef, JUndef), outcome, QueueReply)
  {
    Then(MakeRequest(creds, Get, "me/player/queue", Config(JUndef, JUndef), outcome), QueueReply)
  }

  function AddItemToPlaybackQueue(creds: Credentials, uri: string, deviceId: Option<string>, outcome: Outcome)
    : (x: Exchange<Json>)
    ensures Performs(x, creds, Post, "me/player/queue",
                     Config(WithDevice(map["uri" := JStr(uri)], deviceId), JUndef), outcome, Acknowledge)
  {
    Then(MakeRequest(creds, Post, "me/player/queue",
                     Config(WithDevice(map["uri" := JStr(uri)], deviceId), JUndef), outcome),
         Acknowledge)
  }

  // ---------------------------------------------------------------------------
  // Playlists

  function GetPlaylist(creds: Credentials, playlistId: string, market: Option<string>, fields: Option<string>,
                       additionalTypes: Option<string>, outcome: Outcome): (x: Exchange<Json>)
    ensures Performs(x, creds, Get, "playlists/" + playlistId,
                     Config(JObj(map["market" := OptStr(market), "fields" := OptStr(fields),
                                     "additional_types" := OptStr(additionalTypes)]), JUndef),
                     outcome, SlimPlaylist)
  {
    Then(MakeRequest(creds, Get, "playlists/" + playlistId,
                     Config(JObj(map["market" := OptStr(market), "fields" := OptStr(fields),
                                     "additional_types" := OptStr(additionalTypes)]), JUndef),
                     outcome),
         SlimPlaylist)
  }

  /** changePlaylistDetails: the body holds exactly the details that were given. */
  method ChangePlaylistDetails(creds: Credentials, playlistId: string, name: Option<string>,
                               description: Option<string>, publicPlaylist: Option<bool>,
                               collaborative: Option<bool>, outcome: Outcome)
    returns (body: map<string, Json>, x: Exchange<Json>)
    ensures DetailsBody(body, name, description, publicPlaylist, collaborative)
    ensures Performs(x, creds, Put, "playlists/" + playlistId, Config(JUndef, JObj(body)), outcome, Acknowledge)
  {
    body := BuildDetailsBody(name, description, publicPlaylist, collaborative);
    x := Then(MakeRequest(creds, Put, "playlists/" + playlistId, Config(JUndef, JObj(body)), outcome), Acknowledge);
  }

  /** The page getPlaylistItems returns: `data.href` and the rest read without `?.`, the items with it. */
  function PlaylistItemsPage(data: Json): (r: Result<Json>)
    ensures Nullish(data) ==> r == Thrown(TypeError)
    ensures !Nullish(data) ==> (r.Ok? <==> Mappable(Prop(data, "items"), SlimPlaylistTrack))
    ensures r.Ok? ==>
      HasKeys(r.value, TrackListKeys) && CopiesFrom(r.value, data, TrackListKeys - {"items"})
      && MappedFrom(r.value.fields["items"], Prop(data, "items"), SlimPlaylistTrack)
  {
    if Nullish(data) then Thrown(TypeError) else TrackList(data, SlimPlaylistTrack)
  }

  function GetPlaylistItems(creds: Credentials, playlistId: string, market: Option<string>, fields: Option<string>,
                            limit: Option<int>, offset: Option<int>, additionalTypes: Option<string>,
                            outcome: Outcome): (x: Exchange<Json>)
    ensures Performs(x, creds, Get, "playlists/" + playlistId + "/tracks",
                     Config(JObj(map["market" := OptStr(market), "fields" := OptStr(fields), "limit" := OptNum(limit),
                                     "offset" := OptNum(offset), "additional_types" := OptStr(additionalTypes)]), JUndef),
                     outcome, PlaylistItemsPage)
  {
    Then(MakeRequest(creds, Get, "playlists/" + playlistId + "/tracks",
                     Config(JObj(map["market" := OptStr(market), "fields" := OptStr(fields), "limit" := OptNum(limit),
                                     "offset" := OptNum(offset), "additional_types" := OptStr(additionalTypes)]), JUndef),
                     outcome),
         PlaylistItemsPage)
  }

  /** `{ success: true, snapshot_id: result.snapshot_id }`; a null reply throws. */
  function SnapshotReply(data: Json): (r: Result<Json>)
    ensures Nullish(data) ==> r == Thrown(TypeError)
    ensures !Nullish(data) ==>
      r.Ok? && HasKeys(r.value, {"success", "snapshot_id"})
      && r.value.fields["success"] == JBool(true) && r.value.fields["snapshot_id"] == Prop(data, "snapshot_id")
  {
    var snapshot :- Member(data, "snapshot_id");
    Ok(JObj(map["success" := JBool(true), "snapshot_id" := snapshot]))
  }

  /**
   * updatePlaylistItems: the params object is sent whenever a uri list was passed, even an
   * empty one, in which case it is `{}`.
   */
  method UpdatePlaylistItems(creds: Credentials, playlistId: string, uris: Option<seq<string>>,
                             rangeStart: Option<int>, insertBefore: Option<int>, rangeLength: Option<int>,
                             snapshotId: Option<string>, outcome: Outcome)
    returns (body: map<string, Json>, params: map<string, Json>, x: Exchange<Json>)
    ensures ItemsUpdate(body, params, uris, rangeStart, insertBefore, rangeLength, snapshotId)
    ensures Performs(x, creds, Put, "playlists/" + playlistId + "/tracks",
                     Config(if uris.Some? then JObj(params) else JUndef, JObj(body)), outcome, SnapshotReply)
  {
    body, params := BuildItemsUpdate(uris, rangeStart, insertBefore, rangeLength, snapshotId);
    x := Then(MakeRequest(creds, Put, "playlists/" + playlistId + "/tracks",
                          Config(if uris.Some? then JObj(params) else JUndef, JObj(body)), outcome),
              SnapshotReply);
  }

  /** addItemsToPlaylist: params are left out when they would be empty, that is when no position was given. */
  method AddItemsToPlaylist(creds: Credentials, playlistId: string, uris: seq<string>, position: Option<int>,
                            outcome: Outcome)
    returns (body: map<string, Json>, params: map<string, Json>, x: Exchange<Json>)
    ensures ItemsAddition(body, params, uris, position)
    ensures Performs(x, creds, Post, "playlists/" + playlistId + "/tracks",
                     Config(if position.Some? then JObj(params) else JUndef, JObj(body)), outcome, SnapshotReply)
  {
    body, params := BuildItemsAddition(uris, position);
    AdditionParamsNonEmpty(body, params, uris, position);
    x := Then(MakeRequest(creds, Post, "playlists/" + playlistId + "/tracks",
                          Config(if |params| > 0 then JObj(params) else JUndef, JObj(body)), outcome),
              SnapshotReply);
  }

  // ---------------------------------------------------------------------------
  // Search, tracks, library


  /** The projection each search result kind is paged with. */
  function SearchCallback(kind: string): Json -> Result<Json> {
    match kind
    case "tracks" => TrackCallback
    case "artists" => ArtistCallback
    case "albums" => SlimAlbum
    case "playlists" => SlimPlaylist
    case "shows" => ShowCallback
    case "episodes" => EpisodeCallback
    case _ => SlimAudiobook
  }

  /** The paging projection of one kind of search result. */
  function SearchPage(data: Json, kind: string): Result<Json> {
    ProcessPagingObject(Prop(data, kind), SearchCallback(kind))
  }

  /** The order in which the result literal of searchItems evaluates its fields. */
  const SearchOrder: seq<string> := ["tracks", "artists", "albums", "playlists", "shows", "episodes", "audiobooks"]

  /** The keys of searchItems' result. */
  const SearchKeys: set<string> := set k | k in SearchOrder

  /** The results of `page` on `kinds`, evaluated in order: the first one that throws ends the evaluation. */
  function Pages(page: string -> Result<Json>, kinds: seq<string>): (r: Result<map<string, Json>>)
    ensures r.Ok? <==> forall k :: k in kinds ==> page(k).Ok?
    ensures r.Ok? ==> r.value.Keys == set k | k in kinds
    ensures r.Ok? ==> forall k :: k in kinds ==> r.value[k] == page(k).value
  {
    if kinds == [] then Ok(map[])
    else
      var first :- page(kinds[0]);
      var rest :- Pages(page, kinds[1..]);
      assert kinds == [kinds[0]] + kinds[1..];
      Ok(rest[kinds[0] := first])
  }

  /** searchItems' result: one paging projection per result kind. */
  function SearchReply(data: Json): (r: Result<Json>)
    ensures Nullish(data) ==> r == Thrown(TypeError)
    ensures !Nullish(data) ==> (r.Ok? <==> forall k :: k in SearchKeys ==> SearchPage(data, k).Ok?)
    ensures r.Ok? ==> HasKeys(r.value, SearchKeys) && forall k :: k in SearchKeys ==> r.value.fields[k] == SearchPage(data, k).value
  {
    if Nullish(data) then Thrown(TypeError)
    else
      var pages :- Pages(kind => SearchPage(data, kind), SearchOrder);
      Ok(JObj(pages))
  }

  /** The params of searchItems: `limit || 20` and `offset || 0`, the rest as given. */
  function SearchParams(q: string, kind: string, market: Option<string>, limit: Option<int>, offset: Option<int>,
                        includeExternal: Option<string>): (p: Json)
    ensures p.JObj? && p.fields.Keys == {"q", "type", "market", "limit", "offset", "include_external"}
    ensures p.fields["q"] == JStr(q) && p.fields["type"] == JStr(kind) && p.fields["market"] == OptStr(market)
    ensures p.fields["limit"] == JNum(NumOr(limit, 20)) && p.fields["offset"] == JNum(NumOr(offset, 0))
    ensures p.fields["include_external"] == OptStr(includeExternal)
  {
    JObj(map["q" := JStr(q), "type" := JStr(kind), "market" := OptStr(market), "limit" := JNum(NumOr(limit, 20)),
             "offset" := JNum(NumOr(offset, 0)), "include_external" := OptStr(includeExternal)])
  }

  function SearchItems(creds: Credentials, q: string, kind: string, market: Option<string>, limit: Option<int>,
                       offset: Option<int>, includeExternal: Option<string>, outcome: Outcome): (x: Exchange<Json>)
    ensures Performs(x, creds, Get, "search", Config(SearchParams(q, kind, market, limit, offset, includeExternal), JUndef),
                     outcome, SearchReply)
  {
    Then(MakeRequest(creds, Get, "search", Config(SearchParams(q, kind, market, limit, offset, includeExternal), JUndef),
                     outcome),
         SearchReply)
  }

  function GetTrack(creds: Credentials, id: string, market: Option<string>, outcome: Outcome): (x: Exchange<Json>)
    ensures Performs(x, creds, Get, "tracks/" + id, Config(JObj(map["market" := OptStr(market)]), JUndef), outcome, SlimTrack)
  {
    Then(MakeRequest(creds, Get, "tracks/" + id, Config(JObj(map["market" := OptStr(market)]), JUndef), outcome), SlimTrack)
  }

  /** A several-tracks reply: every track projected with `track`, in order; a missing track list throws. */
  function TracksReply(data: Json, track: Json -> Result<Json>): (r: Result<Json>)
    ensures r.Ok? <==> MappableStrict(Prop(data, "tracks"), track)
    ensures r.Ok? ==> HasKeys(r.value, {"tracks"}) && MappedFrom(r.value.fields["tracks"], Prop(data, "tracks"), track)
  {
    var tracks :- MapStrict(Prop(data, "tracks"), track);
    Ok(JObj(map["tracks" := tracks]))
  }

  /** TracksReply with this module's track projection. */
  function SeveralTracksReply(data: Json): Result<Json> {
    TracksReply(data, TrackCallback)
  }

  function GetSeveralTracks(creds: Credentials, ids: string, market: Option<string>, outcome: Outcome): (x: Exchange<Json>)
    ensures Performs(x, creds, Get, "tracks", Config(JObj(map["ids" := JStr(ids), "market" := OptStr(market)]), JUndef),
                     outcome, SeveralTracksReply)
  {
    Then(MakeRequest(creds, Get, "tracks", Config(JObj(map["ids" := JStr(ids), "market" := OptStr(market)]), JUndef), outcome),
         SeveralTracksReply)
  }

  /** A saved-track entry: the time it was saved and its projected track; a null entry throws. */
  function SavedItem(track: Json -> Result<Json>, item: Json): (r: Result<Json>)
    ensures Nullish(item) ==> r == Thrown(TypeError)
    ensures !Nullish(item) ==> (r.Ok? <==> track(Prop(item, "track")).Ok?)
    ensures r.Ok? ==>
      HasKeys(r.value, {"added_at", "track"}) && r.value.fields["added_at"] == Prop(item, "added_at")
      && r.value.fields["track"] == track(Prop(item, "track")).value
  {
    var addedAt :- Member(item, "added_at");
    var slim :- track(Prop(item, "track"));
    Ok(JObj(map["added_at" := addedAt, "track" := slim]))
  }

  const SavedPageKeys: set<string> := {"total", "limit", "offset", "next", "items"}

  /** The saved-tracks page: its counters and `data.items.map(...)`, all read without `?.`. */
  function SavedTracksPage(data: Json, track: Json -> Result<Json>): (r: Result<Json>)
    ensures Nullish(data) ==> r == Thrown(TypeError)
    ensures !Nullish(data) ==>
      (r.Ok? <==> Prop(data, "items").JArr?
                  && forall i :: 0 <= i < |Prop(data, "items").items| ==> SavedItem(track, Prop(data, "items").items[i]).Ok?)
    ensures r.Ok? ==>
      HasKeys(r.value, SavedPageKeys) && CopiesFrom(r.value, data, SavedPageKeys - {"items"})
      && r.value.fields["items"].JArr? && |r.value.fields["items"].items| == |Prop(data, "items").items|
      && forall i :: 0 <= i < |Prop(data, "items").items| ==>
           SavedItem(track, Prop(data, "items").items[i]) == Ok(r.value.fields["items"].items[i])
  {
    if Nullish(data) then Thrown(TypeError)
    else
      var items :- MapStrict(Prop(data, "items"), item => SavedItem(track, item));
      Ok(JObj(Pick(data, SavedPageKeys - {"items"})["items" := items]))
  }

  /** SavedTracksPage with this module's track projection. */
  function SavedTracksReply(data: Json): Result<Json> {
    SavedTracksPage(data, TrackCallback)
  }

  function GetSavedTracks(creds: Credentials, market: Option<string>, limit: Option<int>, offset: Option<int>,
                          outcome: Outcome): (x: Exchange<Json>)
    ensures Performs(x, creds, Get, "me/tracks",
                     Config(JObj(map["market" := OptStr(market), "limit" := JNum(NumOr(limit, 20)),
                                     "offset" := JNum(NumOr(offset, 0))]), JUndef),
                     outcome, SavedTracksReply)
  {
    Then(MakeRequest(creds, Get, "me/tracks",
                     Config(JObj(map["market" := OptStr(market), "limit" := JNum(NumOr(limit, 20)),
                                     "offset" := JNum(NumOr(offset, 0))]), JUndef),
                     outcome),
         SavedTracksReply)
  }

  function SaveTracks(creds: Credentials, ids: string, outcome: Outcome): (x: Exchange<Json>)
    ensures Performs(x, creds, Put, "me/tracks", Config(JUndef, JObj(map["ids" := IdArray(ids)])), outcome, Acknowledge)
  {
    Then(MakeRequest(creds, Put, "me/tracks", Config(JUndef, JObj(map["ids" := IdArray(ids)])), outcome), Acknowledge)
  }

  function RemoveSavedTracks(creds: Credentials, ids: string, outcome: Outcome): (x: Exchange<Json>)
    ensures Performs(x, creds, Delete, "me/tracks", Config(JUndef, JObj(map["ids" := IdArray(ids)])), outcome, Acknowledge)
  {
    Then(MakeRequest(creds, Delete, "me/tracks", Config(JUndef, JObj(map["ids" := IdArray(ids)])), outcome), Acknowledge)
  }

  function CheckSavedTracks(creds: Credentials, ids: string, outcome: Outcome): (x: Exchange<Json>)
    ensures Performs(x, creds, Get, "me/tracks/contains", Config(JObj(map["ids" := JStr(ids)]), JUndef), outcome, PassThrough)
  {
    Then(MakeRequest(creds, Get, "me/tracks/contains", Config(JObj(map["ids" := JStr(ids)]), JUndef), outcome), PassThrough)
  }

  // ---------------------------------------------------------------------------
  // Users and following

  function GetUserProfile(creds: Credentials, userId: string, outcome: Outcome): (x: Exchange<Json>)
    ensures Performs(x, creds, Get, "users/" + userId, Config(JUndef, JUndef), outcome, PassThrough)
  {
    Then(MakeRequest(creds, Get, "users/" + userId, Config(JUndef, JUndef), outcome), PassThrough)
  }

  function GetCurrentUserProfile(creds: Credentials, outcome: Outcome): (x: Exchange<Json>)
    ensures Performs(x, creds, Get, "me", Config(JUndef, JUndef), outcome, PassThrough)
  {
    Then(MakeRequest(creds, Get, "me", Config(JUndef, JUndef), outcome), PassThrough)
  }

  /** The params of the top-items read: `time_range || "medium_term"`, the clamped limit and `offset || 0`. */
  function TopItemsParams(timeRange: Option<string>, limit: Option<int>, offset: Option<int>): (p: Json)
    ensures p.JObj? && p.fields.Keys == {"time_range", "limit", "offset"}
    ensures p.fields["time_range"] == JStr(if TruthyStr(timeRange) then timeRange.value else "medium_term")
    ensures p.fields["limit"] == JNum(FinalLimit(limit)) && p.fields["offset"] == JNum(NumOr(offset, 0))
  {
    JObj(map["time_range" := JStr(if TruthyStr(timeRange) then timeRange.value else "medium_term"),
             "limit" := JNum(FinalLimit(limit)), "offset" := JNum(NumOr(offset, 0))])
  }

  function GetCurrentUserTopItems(creds: Credentials, kind: string, timeRange: Option<string>, limit: Option<int>,
                                  offset: Option<int>, outcome: Outcome): (x: Exchange<Json>)
    ensures Performs(x, creds, Get, "me/top/" + kind, Config(TopItemsParams(timeRange, limit, offset), JUndef), outcome,
                     PassThrough)
  {
    Then(MakeRequest(creds, Get, "me/top/" + kind, Config(TopItemsParams(timeRange, limit, offset), JUndef), outcome),
         PassThrough)
  }

  /** Following is a PUT and unfollowing a DELETE on the same endpoint, with no params or body. */
  function FollowOrUnfollowPlaylist(creds: Credentials, playlistId: string, follow: bool, outcome: Outcome)
    : (x: Exchange<Json>)
    ensures Performs(x, creds, if follow then Put else Delete, "playlists/" + playlistId + "/followers",
                     Config(JUndef, JUndef), outcome, Acknowledge)
  {
    Then(MakeRequest(creds, if follow then Put else Delete, "playlists/" + playlistId + "/followers",
                     Config(JUndef, JUndef), outcome),
         Acknowledge)
  }

  function GetFollowedArtists(creds: Credentials, kind: string, after: Option<string>, limit: Option<int>,
                              outcome: Outcome): (x: Exchange<Json>)
    ensures Performs(x, creds, Get, "me/following",
                     Config(JObj(map["type" := JStr(kind), "after" := OptStr(after), "limit" := JNum(FinalLimit(limit))]),
                            JUndef),
                     outcome, PassThrough)
  {
    Then(MakeRequest(creds, Get, "me/following",
                     Config(JObj(map["type" := JStr(kind), "after" := OptStr(after), "limit" := JNum(FinalLimit(limit))]),
                            JUndef),
                     outcome),
         PassThrough)
  }

  function FollowArtistsOrUsers(creds: Credentials, kind: string, ids: string, outcome: Outcome): (x: Exchange<Json>)
    ensures Performs(x, creds, Put, "me/following",
                     Config(JObj(map["type" := JStr(kind)]), JObj(map["ids" := IdArray(ids)])), outcome, Acknowledge)
  {
    Then(MakeRequest(creds, Put, "me/following",
                     Config(JObj(map["type" := JStr(kind)]), JObj(map["ids" := IdArray(ids)])), outcome),
         Acknowledge)
  }

  function UnfollowArtistsOrUsers(creds: Credentials, kind: string, ids: string, outcome: Outcome): (x: Exchange<Json>)
    ensures Performs(x, creds, Delete, "me/following",
                     Config(JObj(map["type" := JStr(kind)]), JObj(map["ids" := IdArray(ids)])), outcome, Acknowledge)
  {
    Then(MakeRequest(creds, Delete, "me/following",
                     Config(JObj(map["type" := JStr(kind)]), JObj(map["ids" := IdArray(ids)])), outcome),
         Acknowledge)
  }

  function CheckIfUserFollows(creds: Credentials, kind: string, ids: string, outcome: Outcome): (x: Exchange<Json>)
    ensures Performs(x, creds, Get, "me/following/contains",
                     Config(JObj(map["type" := JStr(kind), "ids" := JStr(ids)]), JUndef), outcome, PassThrough)
  {
    Then(MakeRequest(creds, Get, "me/following/contains",
                     Config(JObj(map["type" := JStr(kind), "ids" := JStr(ids)]), JUndef), outcome),
         PassThrough)
  }

  function CheckIfCurrentUserFollowsPlaylist(creds: Credentials, playlistId: string, ids: string, outcome: Outcome)
    : (x: Exchange<Json>)
    ensures Performs(x, creds, Get, "playlists/" + playlistId + "/followers/contains",
                     Config(JObj(map["ids" := JStr(ids)]), JUndef), outcome, PassThrough)
  {
    Then(MakeRequest(creds, Get, "playlists/" + playlistId + "/followers/contains",
                     Config(JObj(map["ids" := JStr(ids)]), JUndef), outcome),
         PassThrough)
  }
}
