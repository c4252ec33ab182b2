/**
 * The user module: the two profile reads and the top-items read, which call the API
 * directly behind the authentication guard, with the API base written into each URL.
 * The top-items read projects tracks and artists with projections of its own.
 */
module UserRequests {
  import opened Js
  import opened Http
  import opened Slims
  import Requests

  function GetUserProfile(creds: Credentials, userId: string, outcome: Outcome): (x: Exchange<Json>)
    ensures Attempts(x, creds, ApiRequest(Get, "users/" + userId, AuthorizationOnly(creds), JUndef, JUndef),
                     outcome, OnData(PassThrough), Always(Thrown(Error("Failed to fetch user profile"))))
    ensures x.sent.Some? ==> x.sent.value.url == "https://api.spotify.com/v1/users/" + userId
  {
    TryRequest(creds, ApiRequest(Get, "users/" + userId, AuthorizationOnly(creds), JUndef, JUndef),
               outcome, OnData(PassThrough), Always(Thrown(Error("Failed to fetch user profile"))))
  }

  function GetCurrentUserProfile(creds: Credentials, outcome: Outcome): (x: Exchange<Json>)
    ensures Attempts(x, creds, ApiRequest(Get, "me", AuthorizationOnly(creds), JUndef, JUndef),
                     outcome, OnData(PassThrough), Always(Thrown(Error("Failed to fetch user profile"))))
    ensures x.sent.Some? ==> x.sent.value.url == "https://api.spotify.com/v1/me"
  {
    TryRequest(creds, ApiRequest(Get, "me", AuthorizationOnly(creds), JUndef, JUndef),
               outcome, OnData(PassThrough), Always(Thrown(Error("Failed to fetch user profile"))))
  }

  /** Once signed in, a profile read returns the reply's data exactly for a 2xx reply, and one fixed error otherwise. */
  lemma ProfileOutcomes(creds: Credentials, userId: string, outcome: Outcome)
    requires creds.authenticated
    ensures var r := GetUserProfile(creds, userId, outcome).result;
      && (Succeeded(outcome) ==> r == Ok(outcome.body))
      && (!Succeeded(outcome) ==> r == Thrown(Error("Failed to fetch user profile")))
  {
  }

  const TopTrackCopied: set<string> := {"name", "popularity", "preview_url"}
  const TopTrackKeys: set<string> := TopTrackCopied + {"artists", "album", "external_url"}

  /** A top track: `item.name`, the artist names with `.map`, `item.album.name`; every read but the URL throws on null. */
  function TopTrack(item: Json): (r: Result<Json>)
    ensures r.Ok? <==> !Nullish(item) && NamesPresent(Prop(item, "artists")) && !Nullish(Prop(item, "album"))
    ensures r.Ok? ==>
      HasKeys(r.value, TopTrackKeys) && CopiesFrom(r.value, item, TopTrackCopied)
      && MappedFrom(r.value.fields["artists"], Prop(item, "artists"), NameOf)
      && r.value.fields["album"] == Prop(Prop(item, "album"), "name")
      && r.value.fields["external_url"] == ExternalUrl(item)
  {
    var name :- Member(item, "name");
    var artists :- MapStrict(Prop(item, "artists"), NameOf);
    var album :- Member(Prop(item, "album"), "name");
    Ok(JObj(Pick(item, TopTrackCopied)
              ["artists" := artists]
              ["album" := album]
              ["external_url" := ExternalUrl(item)]))
  }

  const TopArtistCopied: set<string> := {"name", "popularity", "genres"}
  const TopArtistKeys: set<string> := TopArtistCopied + {"followers", "external_url", "image"}

  /** `artist.images?.[0]?.url || null`: the first image's URL, or null when there is none. */
  function ArtistImage(artist: Json): (r: Json)
    ensures Truthy(Prop(First(Prop(artist, "images")), "url")) ==> r == Prop(First(Prop(artist, "images")), "url")
    ensures !Truthy(Prop(First(Prop(artist, "images")), "url")) ==> r == JNull
  {
    Or(Prop(First(Prop(artist, "images")), "url"), JNull)
  }

  /** An artist with no images, or with an empty image list, gets a null image. */
  lemma NoImagesGiveNull(artist: Json)
    requires Nullish(Prop(artist, "images")) || Prop(artist, "images") == JArr([])
    ensures ArtistImage(artist) == JNull
  {
  }

  /** A top artist: only `artist.name` can throw, on a null entry. */
  function TopArtist(artist: Json): (r: Result<Json>)
    ensures r.Ok? <==> !Nullish(artist)
    ensures r.Ok? ==>
      HasKeys(r.value, TopArtistKeys) && CopiesFrom(r.value, artist, TopArtistCopied)
      && r.value.fields["followers"] == Prop(Prop(artist, "followers"), "total")
      && r.value.fields["external_url"] == ExternalUrl(artist)
      && r.value.fields["image"] == ArtistImage(artist)
  {
    var name :- Member(artist, "name");
    Ok(JObj(Pick(artist, TopArtistCopied)
              ["followers" := Prop(Prop(artist, "followers"), "total")]
              ["external_url" := ExternalUrl(artist)]
              ["image" := ArtistImage(artist)]))
  }

  const TopPageKeys: set<string> := {"total", "limit", "offset", "next", "items"}

  /** A page of top items: its counters and `data.items.map(f)`, all read without `?.`. */
  function TopPage(data: Json, f: Json -> Result<Json>): (r: Result<Json>)
    ensures Nullish(data) ==> r == Thrown(TypeError)
    ensures !Nullish(data) ==> (r.Ok? <==> MappableStrict(Prop(data, "items"), f))
    ensures r.Ok? ==>
      HasKeys(r.value, TopPageKeys) && CopiesFrom(r.value, data, TopPageKeys - {"items"})
      && MappedFrom(r.value.fields["items"], Prop(data, "items"), f)
  {
    if Nullish(data) then Thrown(TypeError)
    else
      var items :- MapStrict(Prop(data, "items"), f);
      Ok(JObj(Pick(data, TopPageKeys - {"items"})["items" := items]))
  }

  /** The try block of the top-items read: tracks and artists are projected, any other type passes through. */
  function TopItemsPage(kind: string, data: Json): (r: Result<Json>)
    ensures kind == "tracks" ==> r == TopPage(data, TopTrack)
    ensures kind == "artists" ==> r == TopPage(data, TopArtist)
    ensures kind != "tracks" && kind != "artists" ==> r == Ok(data)
  {
    if kind == "tracks" then TopPage(data, TopTrack)
    else if kind == "artists" then TopPage(data, TopArtist)
    else Ok(data)
  }

  function TopItemsFromReply(kind: string): (int, Json) -> Result<Json> {
    (status, data) => TopItemsPage(kind, data)
  }

  /** The limit is settled before the guard, so it is clamped whatever the outcome. */
  function GetCurrentUserTopItems(creds: Credentials, kind: string, timeRange: Option<string>, limit: Option<int>,
                                  offset: Option<int>, outcome: Outcome): (x: Exchange<Json>)
    ensures Attempts(x, creds,
                     ApiRequest(Get, "me/top/" + kind, AuthorizationOnly(creds),
                                Requests.TopItemsParams(timeRange, limit, offset), JUndef),
                     outcome, TopItemsFromReply(kind), Always(Thrown(Error("Failed to fetch user top items"))))
  {
    TryRequest(creds,
               ApiRequest(Get, "me/top/" + kind, AuthorizationOnly(creds),
                          Requests.TopItemsParams(timeRange, limit, offset), JUndef),
               outcome, TopItemsFromReply(kind), Always(Thrown(Error("Failed to fetch user top items"))))
  }

  /** The limit sent is between 1 and 50: the given one when it is in range, 20 otherwise. */
  lemma TopItemsLimitInRange(creds: Credentials, kind: string, timeRange: Option<string>, limit: Option<int>,
                             offset: Option<int>, outcome: Outcome)
    requires creds.authenticated
    ensures var p := GetCurrentUserTopItems(creds, kind, timeRange, limit, offset, outcome).sent.value.params;
      && p.JObj? && "limit" in p.fields && p.fields["limit"].JNum?
      && 1 <= p.fields["limit"].n <= 50
      && (limit.Some? && 1 <= limit.value <= 50 ==> p.fields["limit"].n == limit.value)
  {
  }

  /** A top-tracks page throws, and so the read fails, when one track has no album. */
  lemma TrackWithoutAlbumFailsPage(data: Json, i: int)
    requires Prop(data, "items").JArr? && 0 <= i < |Prop(data, "items").items|
    requires Nullish(Prop(Prop(data, "items").items[i], "album"))
    ensures TopItemsPage("tracks", data).Thrown?
  {
  }
}
