/**
 * The tracks module: six functions that call the API directly behind the
 * authentication guard, with the search module's track projection. The reads throw
 * one fixed error per function on any failure; the writes answer
 * `{ success: false, error }` instead.
 */
module TrackRequests {
  import opened Js
  import opened Http
  import Text
  import Slims
  import Requests
  import SearchRequests

  function TrackFromReply(status: int, data: Json): Result<Json> {
    SearchRequests.StrictTrack(data)
  }

  function GetTrack(creds: Credentials, id: string, market: Option<string>, outcome: Outcome): (x: Exchange<Json>)
    ensures Attempts(x, creds,
                     ApiRequest(Get, "tracks/" + id, AuthorizationOnly(creds), JObj(map["market" := OptStr(market)]), JUndef),
                     outcome, TrackFromReply, Always(Thrown(Error("Failed to fetch track"))))
  {
    TryRequest(creds,
               ApiRequest(Get, "tracks/" + id, AuthorizationOnly(creds), JObj(map["market" := OptStr(market)]), JUndef),
               outcome, TrackFromReply, Always(Thrown(Error("Failed to fetch track"))))
  }

  /** The several-tracks reply with the strict track projection; a missing track list throws. */
  function TracksFromReply(status: int, data: Json): Result<Json> {
    Requests.TracksReply(data, SearchRequests.StrictTrack)
  }

  function GetSeveralTracks(creds: Credentials, ids: string, market: Option<string>, outcome: Outcome): (x: Exchange<Json>)
    ensures Attempts(x, creds,
                     ApiRequest(Get, "tracks", AuthorizationOnly(creds),
                                JObj(map["ids" := JStr(ids), "market" := OptStr(market)]), JUndef),
                     outcome, TracksFromReply, Always(Thrown(Error("Failed to fetch several tracks"))))
  {
    TryRequest(creds,
               ApiRequest(Get, "tracks", AuthorizationOnly(creds),
                          JObj(map["ids" := JStr(ids), "market" := OptStr(market)]), JUndef),
               outcome, TracksFromReply, Always(Thrown(Error("Failed to fetch several tracks"))))
  }

  /** Once signed in, several tracks are returned exactly when a 2xx reply's every track can be projected. */
  lemma SeveralTracksOutcomes(creds: Credentials, ids: string, market: Option<string>, outcome: Outcome)
    requires creds.authenticated
    ensures var r := GetSeveralTracks(creds, ids, market, outcome).result;
      && (r.Ok? <==> Succeeded(outcome) && Slims.MappableStrict(Prop(outcome.body, "tracks"), SearchRequests.StrictTrack))
      && (r.Thrown? ==> r == Thrown(Error("Failed to fetch several tracks")))
  {
  }

  function SavedFromReply(status: int, data: Json): Result<Json> {
    Requests.SavedTracksPage(data, SearchRequests.StrictTrack)
  }

  function GetSavedTracks(creds: Credentials, market: Option<string>, limit: Option<int>, offset: Option<int>,
                          outcome: Outcome): (x: Exchange<Json>)
    ensures Attempts(x, creds,
                     ApiRequest(Get, "me/tracks", AuthorizationOnly(creds),
                                JObj(map["market" := OptStr(market), "limit" := JNum(NumOr(limit, 20)),
                                         "offset" := JNum(NumOr(offset, 0))]), JUndef),
                     outcome, SavedFromReply, Always(Thrown(Error("Failed to fetch saved tracks"))))
  {
    TryRequest(creds,
               ApiRequest(Get, "me/tracks", AuthorizationOnly(creds),
                          JObj(map["market" := OptStr(market), "limit" := JNum(NumOr(limit, 20)),
                                   "offset" := JNum(NumOr(offset, 0))]), JUndef),
               outcome, SavedFromReply, Always(Thrown(Error("Failed to fetch saved tracks"))))
  }

  function SaveTracks(creds: Credentials, ids: string, outcome: Outcome): (x: Exchange<Json>)
    ensures Attempts(x, creds,
                     ApiRequest(Put, "me/tracks", JsonHeaders(creds), JUndef, JObj(map["ids" := Requests.IdArray(ids)])),
                     outcome, OnData(Acknowledge), Always(Ok(SuccessFalse("Failed to save tracks"))))
  {
    TryRequest(creds,
               ApiRequest(Put, "me/tracks", JsonHeaders(creds), JUndef, JObj(map["ids" := Requests.IdArray(ids)])),
               outcome, OnData(Acknowledge), Always(Ok(SuccessFalse("Failed to save tracks"))))
  }

  /** The ids travel in the body of the DELETE request. */
  function RemoveSavedTracks(creds: Credentials, ids: string, outcome: Outcome): (x: Exchange<Json>)
    ensures Attempts(x, creds,
                     ApiRequest(Delete, "me/tracks", JsonHeaders(creds), JUndef, JObj(map["ids" := Requests.IdArray(ids)])),
                     outcome, OnData(Acknowledge), Always(Ok(SuccessFalse("Failed to remove tracks"))))
  {
    TryRequest(creds,
               ApiRequest(Delete, "me/tracks", JsonHeaders(creds), JUndef, JObj(map["ids" := Requests.IdArray(ids)])),
               outcome, OnData(Acknowledge), Always(Ok(SuccessFalse("Failed to remove tracks"))))
  }

  /**
   * Saving and removing send the same ids body, one id per comma-separated piece, and
   * differ only in the method.
   */
  lemma SaveAndRemoveMirror(creds: Credentials, ids: string, outcome: Outcome)
    requires creds.authenticated
    ensures var s := SaveTracks(creds, ids, outcome).sent.value;
      var d := RemoveSavedTracks(creds, ids, outcome).sent.value;
      && s.verb == Put && d.verb == Delete
      && s.url == d.url == SpotifyApiBase + "/me/tracks"
      && s.data == d.data
      && |s.data.fields["ids"].items| == Text.Count(ids, ',') + 1
  {
  }

  function CheckSavedTracks(creds: Credentials, ids: string, outcome: Outcome): (x: Exchange<Json>)
    ensures Attempts(x, creds,
                     ApiRequest(Get, "me/tracks/contains", AuthorizationOnly(creds), JObj(map["ids" := JStr(ids)]), JUndef),
                     outcome, OnData(PassThrough), Always(Thrown(Error("Failed to check saved tracks"))))
  {
    TryRequest(creds,
               ApiRequest(Get, "me/tracks/contains", AuthorizationOnly(creds), JObj(map["ids" := JStr(ids)]), JUndef),
               outcome, OnData(PassThrough), Always(Thrown(Error("Failed to check saved tracks"))))
  }
}
