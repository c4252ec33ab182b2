/**
 * The player module: six functions that call the API directly behind the
 * authentication guard. The two reads answer a 204 reply with a message object; the
 * writes answer every failure with `{ success: false, error }` instead of throwing.
 * Its device, track and playback projections are the shared ones.
 */
module PlayerRequests {
  import opened Js
  import opened Http
  import opened Slims
  import opened Bodies
  import Requests

  // ---------------------------------------------------------------------------
  // The two playback reads.

  const NoPlayback: string := "No active playback"
  const NoTrack: string := "No track currently playing"

  /** The try block of the playback reads: a 204 reply ends in `{ message }`, any other in the projected state. */
  function PlaybackOrMessage(status: int, data: Json, message: string): (r: Result<Json>)
    ensures status == 204 ==> r == Ok(MessageObject(message))
    ensures status != 204 ==> r == SlimPlaybackState(data)
  {
    if status == 204 then Ok(MessageObject(message)) else SlimPlaybackState(data)
  }

  /** The catch block of the playback reads: an axios error with status 204 gets the message, everything else `fallback`. */
  function MessageOrFailure(c: Caught, message: string, fallback: string): (r: Result<Json>)
    ensures HasStatus(c, 204) ==> r == Ok(MessageObject(message))
    ensures !HasStatus(c, 204) ==> r == Thrown(Error(fallback))
  {
    if c.AxiosFailure? && c.status == Some(204) then Ok(MessageObject(message)) else Thrown(Error(fallback))
  }

  function PlaybackFromReply(status: int, data: Json): Result<Json> {
    PlaybackOrMessage(status, data, NoPlayback)
  }

  function PlaybackFailure(c: Caught): Result<Json> {
    MessageOrFailure(c, NoPlayback, "Failed to fetch playback state")
  }

  function CurrentFromReply(status: int, data: Json): Result<Json> {
    PlaybackOrMessage(status, data, NoTrack)
  }

  function CurrentFailure(c: Caught): Result<Json> {
    MessageOrFailure(c, NoTrack, "Failed to fetch currently playing track")
  }

  function GetPlaybackState(creds: Credentials, market: Option<string>, additionalTypes: Option<string>,
                            outcome: Outcome): (x: Exchange<Json>)
    ensures Attempts(x, creds,
                     ApiRequest(Get, "me/player", AuthorizationOnly(creds),
                                Requests.MarketParams(market, additionalTypes), JUndef),
                     outcome, PlaybackFromReply, PlaybackFailure)
  {
    TryRequest(creds,
               ApiRequest(Get, "me/player", AuthorizationOnly(creds), Requests.MarketParams(market, additionalTypes), JUndef),
               outcome, PlaybackFromReply, PlaybackFailure)
  }

  /**
   * The catch block's test for 204 never holds, so once signed in the playback read
   * answers the message exactly for a 204 reply and throws exactly for a failed outcome
   * or a state that cannot be projected.
   */
  lemma PlaybackStateOutcomes(creds: Credentials, market: Option<string>, additionalTypes: Option<string>,
                               outcome: Outcome)
    requires creds.authenticated
    ensures var r := GetPlaybackState(creds, market, additionalTypes, outcome).result;
      && (outcome.Replied? && outcome.status == 204 ==> r == Ok(MessageObject(NoPlayback)))
      && (!Succeeded(outcome) ==> r == Thrown(Error("Failed to fetch playback state")))
      && (Succeeded(outcome) && outcome.status != 204 ==>
            (r.Ok? <==> SlimPlaybackState(outcome.body).Ok?)
            && (r.Ok? ==> r == SlimPlaybackState(outcome.body)))
  {
    var x := GetPlaybackState(creds, market, additionalTypes, outcome);
    if !Succeeded(outcome) {
      CatchNeverSeesSuccess(outcome, PlaybackFromReply, 204);
      assert Try(outcome, PlaybackFromReply).Failed?;
    }
  }

  function GetCurrentlyPlayingTrack(creds: Credentials, market: Option<string>, additionalTypes: Option<string>,
                                    outcome: Outcome): (x: Exchange<Json>)
    ensures Attempts(x, creds,
                     ApiRequest(Get, "me/player/currently-playing", AuthorizationOnly(creds),
                                Requests.MarketParams(market, additionalTypes), JUndef),
                     outcome, CurrentFromReply, CurrentFailure)
  {
    TryRequest(creds,
               ApiRequest(Get, "me/player/currently-playing", AuthorizationOnly(creds),
                          Requests.MarketParams(market, additionalTypes), JUndef),
               outcome, CurrentFromReply, CurrentFailure)
  }

  // ---------------------------------------------------------------------------
  // The device list.

  function DevicesFromReply(status: int, data: Json): Result<Json> {
    Requests.DevicesReply(data)
  }

  function GetAvailableDevices(creds: Credentials, outcome: Outcome): (x: Exchange<Json>)
    ensures Attempts(x, creds, ApiRequest(Get, "me/player/devices", AuthorizationOnly(creds), JUndef, JUndef),
                     outcome, DevicesFromReply, Always(Thrown(Error("Failed to fetch available devices"))))
  {
    TryRequest(creds, ApiRequest(Get, "me/player/devices", AuthorizationOnly(creds), JUndef, JUndef),
               outcome, DevicesFromReply, Always(Thrown(Error("Failed to fetch available devices"))))
  }

  /** Once signed in, the device list is returned exactly for a 2xx reply holding a device array. */
  lemma DevicesOutcomes(creds: Credentials, outcome: Outcome)
    requires creds.authenticated
    ensures var r := GetAvailableDevices(creds, outcome).result;
      && (r.Ok? <==> Succeeded(outcome) && Prop(outcome.body, "devices").JArr?)
      && (r.Thrown? ==> r == Thrown(Error("Failed to fetch available devices")))
  {
  }

  // ---------------------------------------------------------------------------
  // The writes.

  function TransferPlayback(creds: Credentials, deviceIds: seq<string>, play: Option<bool>, outcome: Outcome)
    : (x: Exchange<Json>)
    ensures Attempts(x, creds,
                     ApiRequest(Put, "me/player", JsonHeaders(creds), JUndef,
                                JObj(map["device_ids" := StrArray(deviceIds), "play" := OptBool(play)])),
                     outcome, OnData(Acknowledge), Always(Ok(SuccessFalse("Failed to transfer playback"))))
  {
    TryRequest(creds,
               ApiRequest(Put, "me/player", JsonHeaders(creds), JUndef,
                          JObj(map["device_ids" := StrArray(deviceIds), "play" := OptBool(play)])),
               outcome, OnData(Acknowledge), Always(Ok(SuccessFalse("Failed to transfer playback"))))
  }

  method StartResumePlayback(creds: Credentials, deviceId: Option<string>, contextUri: Option<string>,
                             uris: Option<seq<string>>, offset: Json, positionMs: Option<int>, outcome: Outcome)
    returns (body: map<string, Json>, x: Exchange<Json>)
    ensures ResumeBody(body, contextUri, uris, offset, positionMs)
    ensures Attempts(x, creds,
                     ApiRequest(Put, "me/player/play", JsonHeaders(creds), Requests.DeviceParams(deviceId), JObj(body)),
                     outcome, OnData(Acknowledge), Always(Ok(SuccessFalse("Failed to start/resume playback"))))
  {
    body := BuildResumeBody(contextUri, uris, offset, positionMs);
    x := TryRequest(creds,
                    ApiRequest(Put, "me/player/play", JsonHeaders(creds), Requests.DeviceParams(deviceId), JObj(body)),
                    outcome, OnData(Acknowledge), Always(Ok(SuccessFalse("Failed to start/resume playback"))));
  }

  function PausePlayback(creds: Credentials, deviceId: Option<string>, outcome: Outcome): (x: Exchange<Json>)
    ensures Attempts(x, creds,
                     ApiRequest(Put, "me/player/pause", AuthorizationOnly(creds), Requests.DeviceParams(deviceId),
                                JObj(map[])),
                     outcome, OnData(Acknowledge), Always(Ok(SuccessFalse("Failed to pause playback"))))
  {
    TryRequest(creds,
               ApiRequest(Put, "me/player/pause", AuthorizationOnly(creds), Requests.DeviceParams(deviceId), JObj(map[])),
               outcome, OnData(Acknowledge), Always(Ok(SuccessFalse("Failed to pause playback"))))
  }

  /**
   * Once signed in, a player write never throws: it answers `{ success: true }` exactly
   * for a 2xx reply and `{ success: false, error }` for every other outcome.
   */
  lemma PauseNeverThrows(creds: Credentials, deviceId: Option<string>, outcome: Outcome)
    requires creds.authenticated
    ensures var r := PausePlayback(creds, deviceId, outcome).result;
      && (Succeeded(outcome) ==> r == Ok(SuccessTrue))
      && (!Succeeded(outcome) ==> r == Ok(SuccessFalse("Failed to pause playback")))
  {
  }

  lemma TransferNeverThrows(creds: Credentials, deviceIds: seq<string>, play: Option<bool>, outcome: Outcome)
    requires creds.authenticated
    ensures var r := TransferPlayback(creds, deviceIds, play, outcome).result;
      && (Succeeded(outcome) ==> r == Ok(SuccessTrue))
      && (!Succeeded(outcome) ==> r == Ok(SuccessFalse("Failed to transfer playback")))
  {
  }
}
