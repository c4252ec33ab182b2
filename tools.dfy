/**
 * The tool handlers that shape their input before calling the shared request module:
 * comma-separated lists are split and trimmed, the offset object is built only from
 * what was given, the add-items handler caps the list at 100 before any request, and
 * the follow handler defaults to following. Each handler awaits its request function,
 * so a rejection passes through, and then builds its response object.
 */
module Tools {
  import opened Js
  import Text
  import opened Http
  import opened Bodies
  import Requests

  /** A continuation that ignores what the request function resolved to. */
  function Replying(response: Json): (f: Json -> Result<Json>)
    ensures forall v :: f(v) == Ok(response)
  {
    v => Ok(response)
  }

  /** The uri list a handler passes on: the comma-separated pieces, trimmed, or none for an absent or empty argument. */
  function UrisArray(uris: Option<string>): (r: Option<seq<string>>)
    ensures TruthyStr(uris) ==> r == Some(Text.SplitTrim(uris.value))
    ensures !TruthyStr(uris) ==> r == None
  {
    if TruthyStr(uris) then Some(Text.SplitTrim(uris.value)) else None
  }

  /** A uri list a handler passes on is never empty: splitting yields at least one piece. */
  lemma UrisArrayNonEmpty(uris: Option<string>)
    requires UrisArray(uris).Some?
    ensures |UrisArray(uris).value| == Text.Count(uris.value, ',') + 1 >= 1
  {
    Text.SplitTrimCount(uris.value);
  }

  /** The offset object: `{ position, uri }` when a position is given or the uri is non-empty, otherwise undefined. */
  function OffsetObject(position: Option<int>, uri: Option<string>): (r: Json)
    ensures Truthy(r) <==> position.Some? || TruthyStr(uri)
    ensures Truthy(r) ==> r == JObj(map["position" := OptNum(position), "uri" := OptStr(uri)])
    ensures !Truthy(r) ==> r == JUndef
  {
    if position.Some? || TruthyStr(uri) then JObj(map["position" := OptNum(position), "uri" := OptStr(uri)]) else JUndef
  }

  /** The offset reaches the playback body exactly when the handler built it. */
  lemma OffsetReachesBody(body: map<string, Json>, contextUri: Option<string>, uris: Option<seq<string>>,
                          position: Option<int>, uri: Option<string>, positionMs: Option<int>)
    requires ResumeBody(body, contextUri, uris, OffsetObject(position, uri), positionMs)
    ensures "offset" in body <==> position.Some? || TruthyStr(uri)
    ensures "offset" in body ==> body["offset"].fields["position"] == OptNum(position)
  {
  }

  // ---------------------------------------------------------------------------
  // transfer-playback

  function TransferResponse(deviceIds: string): Json {
    JObj(map["message" := JStr("Successfully transferred playback to device: " + deviceIds),
             "action" := JStr("transferred")])
  }

  function TransferTool(creds: Credentials, deviceIds: string, play: Option<bool>, outcome: Outcome): (y: Exchange<Json>)
    ensures Performs(y, creds, Put, "me/player",
                     Config(JUndef, JObj(map["device_ids" := StrArray(Text.SplitTrim(deviceIds)), "play" := OptBool(play)])),
                     outcome, Replying(TransferResponse(deviceIds)))
  {
    Then(Requests.TransferPlayback(creds, Text.SplitTrim(deviceIds), play, outcome), Replying(TransferResponse(deviceIds)))
  }

  // ---------------------------------------------------------------------------
  // start-resume-playback

  const PlayResponse: Json := JObj(map["message" := JStr("Successfully started/resumed playback"), "action" := JStr("play")])

  method StartResumeTool(creds: Credentials, deviceId: Option<string>, contextUri: Option<string>, uris: Option<string>,
                         offsetPosition: Option<int>, offsetUri: Option<string>, positionMs: Option<int>, outcome: Outcome)
    returns (body: map<string, Json>, y: Exchange<Json>)
    ensures ResumeBody(body, contextUri, UrisArray(uris), OffsetObject(offsetPosition, offsetUri), positionMs)
    ensures Performs(y, creds, Put, "me/player/play", Config(Requests.DeviceParams(deviceId), JObj(body)), outcome,
                     Replying(PlayResponse))
  {
    var x;
    body, x := Requests.StartResumePlayback(creds, deviceId, contextUri, UrisArray(uris),
                                            OffsetObject(offsetPosition, offsetUri), positionMs, outcome);
    y := Then(x, Replying(PlayResponse));
  }

  // ---------------------------------------------------------------------------
  // update-playlist-items

  /** The update response: a fixed message and action with the snapshot id of the result; a null result throws. */
  function UpdatedResponse(result: Json): (r: Result<Json>)
    ensures Nullish(result) ==> r == Thrown(TypeError)
    ensures !Nullish(result) ==>
      r == Ok(JObj(map["message" := JStr("Successfully updated playlist items"), "action" := JStr("update_items"),
                       "snapshot_id" := Prop(result, "snapshot_id")]))
  {
    var snapshot :- Member(result, "snapshot_id");
    Ok(JObj(map["message" := JStr("Successfully updated playlist items"), "action" := JStr("update_items"),
                "snapshot_id" := snapshot]))
  }

  method UpdateItemsTool(creds: Credentials, playlistId: string, uris: Option<string>, rangeStart: Option<int>,
                         insertBefore: Option<int>, rangeLength: Option<int>, snapshotId: Option<string>,
                         outcome: Outcome)
    returns (body: map<string, Json>, params: map<string, Json>, x: Exchange<Json>, y: Exchange<Json>)
    ensures ItemsUpdate(body, params, UrisArray(uris), rangeStart, insertBefore, rangeLength, snapshotId)
    ensures Performs(x, creds, Put, "playlists/" + playlistId + "/tracks",
                     Config(if TruthyStr(uris) then JObj(params) else JUndef, JObj(body)), outcome,
                     Requests.SnapshotReply)
    ensures y == Then(x, UpdatedResponse)
  {
    body, params, x := Requests.UpdatePlaylistItems(creds, playlistId, UrisArray(uris), rangeStart, insertBefore,
                                                    rangeLength, snapshotId, outcome);
    y := Then(x, UpdatedResponse);
  }

  /** A replacement through the handler always sends its uris in both the body and the params. */
  lemma ReplacementSendsUris(body: map<string, Json>, params: map<string, Json>, uris: string, rangeStart: Option<int>,
                             insertBefore: Option<int>, rangeLength: Option<int>, snapshotId: Option<string>)
    requires uris != ""
    requires ItemsUpdate(body, params, UrisArray(Some(uris)), rangeStart, insertBefore, rangeLength, snapshotId)
    ensures "uris" in body && "uris" in params
    ensures body["uris"] == StrArray(Text.SplitTrim(uris))
  {
    UrisArrayNonEmpty(Some(uris));
  }

  // ---------------------------------------------------------------------------
  // add-items-to-playlist

  const MaxAdditions: nat := 100
  const TooManyItems: Exn := Error("Maximum 100 items can be added in one request")

  /** The success message, with the count written in decimal as the template literal writes it. */
  function AddedMessage(count: nat): string {
    "Successfully added " + NatToDecimal(count) + " item(s) to playlist"
  }

  function AddedResponse(count: nat): (f: Json -> Result<Json>)
    ensures forall result :: Nullish(result) ==> f(result) == Thrown(TypeError)
    ensures forall result :: !Nullish(result) ==>
      f(result) == Ok(JObj(map["message" := JStr(AddedMessage(count)), "action" := JStr("add_items"),
                               "snapshot_id" := Prop(result, "snapshot_id")]))
  {
    result => if Nullish(result) then Thrown(TypeError)
              else Ok(JObj(map["message" := JStr(AddedMessage(count)), "action" := JStr("add_items"),
                               "snapshot_id" := Prop(result, "snapshot_id")]))
  }

  /**
   * More than 100 pieces end the handler with the cap's error before anything is sent,
   * whether or not anybody is signed in; otherwise the pieces are added as a list.
   */
  method AddItemsTool(creds: Credentials, playlistId: string, uris: string, position: Option<int>, outcome: Outcome)
    returns (body: map<string, Json>, params: map<string, Json>, x: Exchange<Json>, y: Exchange<Json>)
    ensures |Text.SplitTrim(uris)| > MaxAdditions ==> y == Exchange(None, Thrown(TooManyItems))
    ensures |Text.SplitTrim(uris)| <= MaxAdditions ==>
      ItemsAddition(body, params, Text.SplitTrim(uris), position)
      && Performs(x, creds, Post, "playlists/" + playlistId + "/tracks",
                  Config(if position.Some? then JObj(params) else JUndef, JObj(body)), outcome, Requests.SnapshotReply)
      && y == Then(x, AddedResponse(|Text.SplitTrim(uris)|))
  {
    var urisArray := Text.SplitTrim(uris);
    if |urisArray| > MaxAdditions {
      body, params, x := map[], map[], Exchange(None, Thrown(TooManyItems));
      y := x;
      return;
    }
    body, params, x := Requests.AddItemsToPlaylist(creds, playlistId, urisArray, position, outcome);
    y := Then(x, AddedResponse(|urisArray|));
  }

  /** The cap counts pieces, so it is passed exactly when the input holds at least 100 commas. */
  lemma CapCountsCommas(uris: string)
    ensures |Text.SplitTrim(uris)| > MaxAdditions <==> Text.Count(uris, ',') >= 100
  {
    Text.SplitTrimCount(uris);
  }

  // ---------------------------------------------------------------------------
  // check-users-saved-tracks

  /** The check-saved response: the split and trimmed ids next to the statuses the API returned. */
  function SavedStatuses(ids: string): (f: Json -> Result<Json>)
    ensures forall statuses :: f(statuses) == Ok(JObj(map["ids" := StrArray(Text.SplitTrim(ids)), "statuses" := statuses]))
  {
    statuses => Ok(JObj(map["ids" := StrArray(Text.SplitTrim(ids)), "statuses" := statuses]))
  }

  function CheckSavedTool(creds: Credentials, ids: string, outcome: Outcome): (y: Exchange<Json>)
    ensures Performs(y, creds, Get, "me/tracks/contains", Config(JObj(map["ids" := JStr(ids)]), JUndef), outcome,
                     SavedStatuses(ids))
  {
    Then(Requests.CheckSavedTracks(creds, ids, outcome), SavedStatuses(ids))
  }

  /** The response lists one id per comma-separated piece, next to the statuses the API returned. */
  lemma CheckSavedEchoesIds(creds: Credentials, ids: string, status: int, statuses: Json)
    requires creds.authenticated && IsSuccess(status)
    ensures var r := CheckSavedTool(creds, ids, Replied(status, statuses)).result;
      && r.Ok? && r.value.fields["statuses"] == statuses
      && r.value.fields["ids"].JArr? && |r.value.fields["ids"].items| == Text.Count(ids, ',') + 1
  {
    Text.SplitTrimCount(ids);
  }

  // ---------------------------------------------------------------------------
  // follow-or-unfollow-playlist

  function FollowResponse(playlistId: string, follow: bool): (r: Json)
    ensures r.JObj? && r.fields.Keys == {"message", "playlistId", "action"}
    ensures r.fields["playlistId"] == JStr(playlistId)
    ensures r.fields["action"] == JStr(if follow then "followed" else "unfollowed")
  {
    JObj(map["message" := JStr((if follow then "Successfully followed playlist " else "Successfully unfollowed playlist ")
                               + playlistId),
             "playlistId" := JStr(playlistId),
             "action" := JStr(if follow then "followed" else "unfollowed")])
  }

  /** The follow handler: following unless `follow` is false, then the follow response. */
  function FollowTool(creds: Credentials, playlistId: string, follow: Option<bool>, outcome: Outcome): (y: Exchange<Json>)
    ensures Performs(y, creds, if follow.GetOr(true) then Put else Delete, "playlists/" + playlistId + "/followers",
                     Config(JUndef, JUndef), outcome, Replying(FollowResponse(playlistId, follow.GetOr(true))))
  {
    var doFollow := follow.GetOr(true);
    Then(Requests.FollowOrUnfollowPlaylist(creds, playlistId, doFollow, outcome),
         Replying(FollowResponse(playlistId, doFollow)))
  }

  /** Leaving `follow` out follows the playlist, exactly as passing true does. */
  lemma FollowDefaultsToTrue(creds: Credentials, playlistId: string, outcome: Outcome)
    ensures FollowTool(creds, playlistId, None, outcome) == FollowTool(creds, playlistId, Some(true), outcome)
    ensures creds.authenticated ==> FollowTool(creds, playlistId, None, outcome).sent.value.verb == Put
  {
  }

  // ---------------------------------------------------------------------------
  // check-if-user-follows and check-if-current-user-follows-playlist

  /** `{ type, ids, statuses }`: unlike check-users-saved-tracks, the ids are echoed unsplit. */
  function FollowStatuses(kind: string, ids: string): (f: Json -> Result<Json>)
    ensures forall statuses :: f(statuses) == Ok(JObj(map["type" := JStr(kind), "ids" := JStr(ids), "statuses" := statuses]))
  {
    statuses => Ok(JObj(map["type" := JStr(kind), "ids" := JStr(ids), "statuses" := statuses]))
  }

  function CheckIfUserFollowsTool(creds: Credentials, kind: string, ids: string, outcome: Outcome): (y: Exchange<Json>)
    ensures Performs(y, creds, Get, "me/following/contains",
                     Config(JObj(map["type" := JStr(kind), "ids" := JStr(ids)]), JUndef), outcome, FollowStatuses(kind, ids))
  {
    Then(Requests.CheckIfUserFollows(creds, kind, ids, outcome), FollowStatuses(kind, ids))
  }

  /** The playlist-follow response: the playlist id next to the answer of the API. */
  function PlaylistFollowStatus(playlistId: string): (f: Json -> Result<Json>)
    ensures forall result :: f(result) == Ok(JObj(map["playlistId" := JStr(playlistId), "isFollowing" := result]))
  {
    result => Ok(JObj(map["playlistId" := JStr(playlistId), "isFollowing" := result]))
  }

  function CheckPlaylistFollowTool(creds: Credentials, playlistId: string, ids: string, outcome: Outcome)
    : (y: Exchange<Json>)
    ensures Performs(y, creds, Get, "playlists/" + playlistId + "/followers/contains",
                     Config(JObj(map["ids" := JStr(ids)]), JUndef), outcome, PlaylistFollowStatus(playlistId))
  {
    Then(Requests.CheckIfCurrentUserFollowsPlaylist(creds, playlistId, ids, outcome), PlaylistFollowStatus(playlistId))
  }
}
