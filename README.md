# mcp-spotify: a verified model of the request and token core

mcp-spotify is an MCP server that exposes the Spotify Web API as tools. A user signs in
through the OAuth 2.0 authorization-code flow (RFC 6749). The server keeps the access
token in an authentication service and in a session-keyed token store whose entries live
for an hour. Each tool handler shapes its arguments and calls a request function. The
request function refuses to act before sign-in, sends one HTTP request with a bearer
credential (section 2.1 of RFC 6750), and slims the reply down to a small record.

This project models that core in Dafny and proves what it promises.

- **Raw JSON.** Raw JSON is the datatype `Js.Json`. It distinguishes `null` from
  `undefined`, and it has a JavaScript truthiness predicate.
- **Evaluation that may throw.** Such code yields `Js.Result`: a value, or the thrown
  `TypeError`/`Error(message)`. A projection that dereferences a missing field throws
  exactly where the JavaScript does. No precondition excludes such an input.
- **HTTP replies.** The outcome of an HTTP request is an input, `Http.Outcome`:
  - a reply with a status and a body, which axios resolves for 2xx and rejects otherwise;
  - an axios error without a reply;
  - a non-axios exception.
- **Effect of a request function.** It is an `Http.Exchange`: the request it sent, or
  none when the guard stopped it, together with its result.
- **Object state.** The token store and the authentication service are classes whose
  methods update their fields. Time is an integer millisecond parameter `now`.
- **Imperative builders.** The random-string loop and the request bodies filled field by
  field are methods. Each is proved against a predicate or function that describes its
  result completely.

Modules follow the repository layout:

- `Text`: `split`, `join` and `trim`.
- `Js`: the JSON value model.
- `TokenStore`: `src/auth/usertokenstore.ts`.
- `AuthUtils`: `src/auth/utils.ts`.
- `Auth`: `src/auth/authservice.ts`.
- `Http`: what the request functions share.
- `Slims`: `src/mcp/slims.ts`.
- `Bodies`: the request bodies built in place.
- `Requests`: `src/mcp/requests.ts`.
- `PlaylistRequests`, `PlayerRequests`, `SearchRequests`, `TrackRequests`, `UserRequests`:
  the per-feature `requests.ts` files.
- `Tools`: the argument shaping of `src/mcp/tools.ts`.

### Behaviour the model makes explicit

- **204 test in the catch blocks.** The player reads test `status === 204` in their catch
  blocks as well as in their try blocks. Axios rejects only non-2xx replies, so the
  catch-side test never holds (`Http.CatchNeverSeesSuccess`). A 204 answer comes only from
  the try block.
- **slimAudiobook.** It maps `authors` and `narrators` without `?.`. A missing list therefore
  throws a `TypeError`, and `Slims.SlimAudiobook` returns that error.
- **generateAuthLink.** Its catch block cannot be reached, because `shortenURL` never
  rejects. See "Findings".

## Model

| member | source | states |
|---|---|---|
| Text.Split | src/mcp/requests.ts:389 | `s.split(sep)` for a one-character separator; it always yields at least one piece |
| Text.SplitTrim | src/mcp/requests.ts:389 | the id-list idiom: one piece per split piece, each trimmed |
| Text.TrimStart | src/mcp/requests.ts:389 | the result is a suffix of the input; every dropped character is whitespace; the result does not start with whitespace |
| Text.TrimEnd | src/mcp/requests.ts:389 | the result is a prefix of the input; every dropped character is whitespace; the result does not end with whitespace |
| Text.SplitCount | src/mcp/requests.ts:389 | a split yields exactly one more piece than the string has separators |
| Text.SplitPiecesLackSeparator | src/mcp/requests.ts:389 | no piece of a split contains the separator |
| Text.JoinSplit | src/mcp/requests.ts:285 | joining the pieces of a split with the separator gives back the string |
| Text.SplitJoin | src/mcp/requests.ts:285 | splitting a join of separator-free pieces gives back the pieces |
| Text.SplitTrimCount | src/mcp/requests.ts:389 | a comma-separated id list has one id more than it has commas |
| Text.TrimIdempotent | src/mcp/requests.ts:389 | trimming twice is trimming once |
| Js.Member | src/mcp/search/requests.ts:13 | `v.k` succeeds exactly when `v` is neither null nor undefined, and then is `v?.k` |
| Js.NamesOk | src/mcp/search/requests.ts:12 | reading every name of a list succeeds exactly when the names are present (an array with no nullish element), and gives the names in order |
| Js.NumOr | src/mcp/requests.ts:335-336 | `n \|\| d`: the given number unless it is absent or 0, when it is `d` |
| Slims.MapList | src/mcp/slims.ts:20 | `src?.map(f) \|\| []` succeeds exactly when `src` is absent or an array `f` accepts throughout; it keeps length and order |
| Slims.MapStrict | src/mcp/search/requests.ts:12 | `src.map(f)` succeeds exactly on an array `f` accepts throughout; unlike `?.map` an absent list throws |
| Slims.SlimDevice | src/mcp/slims.ts:1-13 | null for a falsy device; otherwise exactly the eight device fields, copied |
| Slims.SlimTrack | src/mcp/slims.ts:15-27 | null for a falsy item; otherwise succeeds exactly when its artist list is absent or maps; artists are the names in order, album is `album?.name`, external_url is `external_urls?.spotify` |
| Slims.SlimContext | src/mcp/slims.ts:40-44 | null unless the context is truthy; otherwise exactly type, uri and external_url |
| Slims.SlimPlaybackState | src/mcp/slims.ts:29-46 | null for a falsy state; otherwise succeeds exactly when its item projects; device, item and context are their projections and the other fields are copied |
| Slims.SlimPlaylistOwner | src/mcp/slims.ts:48-57 | null for a falsy owner; otherwise exactly id, type, uri, display_name and external_url |
| Slims.SlimImage | src/mcp/slims.ts:59-66 | null for a falsy image; otherwise exactly url, height and width, copied |
| Slims.SlimArtist | src/mcp/slims.ts:68-77 | null for a falsy artist; otherwise its copied fields and external_url |
| Slims.TotalCallbackMappable | src/mcp/slims.ts:87-88 | lists mapped with the never-throwing image and artist projections fail only when present and not arrays |
| Slims.SlimAlbum | src/mcp/slims.ts:79-92 | null for a falsy album; otherwise succeeds exactly when its image and artist lists map; both are mapped element-wise, or are [] when absent |
| Slims.SlimPlaylistTrack | src/mcp/slims.ts:94-102 | null for a falsy item; otherwise succeeds exactly when its track projects; added_by is the owner projection |
| Slims.PlaylistTrackObject | src/mcp/slims.ts:96-101 | the playlist-track record holds exactly its four keys, added_at and is_local copied |
| Slims.TrackList | src/mcp/slims.ts:115-123 | the tracks object always has its seven keys; its items are the mapped items, or [] when absent |
| Slims.SlimPlaylist | src/mcp/slims.ts:104-128 | null for a falsy playlist; otherwise succeeds exactly when images and track items map; tracks is always an object |
| Slims.PlaylistObject | src/mcp/slims.ts:106-127 | the playlist record has exactly its keys, with the copied fields taken from the input |
| Slims.PlaylistAlwaysHasTrackList | src/mcp/slims.ts:115-122 | a playlist without `tracks` still gets a tracks object whose items are [] |
| Slims.SlimShow | src/mcp/slims.ts:130-141 | null for a falsy show; otherwise its copied fields and external_url |
| Slims.SlimEpisode | src/mcp/slims.ts:143-155 | null for a falsy episode; otherwise its copied fields and external_url |
| Slims.SlimAudiobook | src/mcp/slims.ts:157-170 | null for a falsy audiobook; otherwise succeeds exactly when authors and narrators are arrays of non-null entries, which become their names |
| Slims.ProcessPagingObject | src/mcp/slims.ts:172-183 | undefined for a falsy envelope; otherwise total/limit/offset/next pass through, previous is dropped, and items keep length and order under `f` |
| TokenStore.UserTokenStore.constructor | src/auth/usertokenstore.ts:14 | a new store holds no sessions |
| TokenStore.UserTokenStore.SetToken | src/auth/usertokenstore.ts:16-18 | the session maps to the token created at `now`, replacing any earlier entry; nothing else changes |
| TokenStore.UserTokenStore.GetToken | src/auth/usertokenstore.ts:20-34 | unknown session: null and no change; age up to 3600 s: the token and no change; older: null and exactly that entry removed |
| TokenStore.UserTokenStore.IsAuthenticated | src/auth/usertokenstore.ts:36-38 | true exactly when getToken would return a token, with the same eviction |
| TokenStore.TtlWindow | src/auth/usertokenstore.ts:27-33 | a token stored at `t` is returned at every time in [t, t + 3600 s] and at none after |
| TokenStore.OtherSessionsUnaffected | src/auth/usertokenstore.ts:14-33 | storing or reading one session leaves every other session's answer and presence unchanged |
| TokenStore.Answers | src/auth/usertokenstore.ts:20-34 | a sequence of reads gives one answer per read |
| TokenStore.CallsOnlyShrink | src/auth/usertokenstore.ts:29-32 | reads never add entries |
| TokenStore.NullStaysNull | src/auth/usertokenstore.ts:29-32 | once a read answers null for a session, every later read of it answers null until it is stored again |
| TokenStore.AbsentStaysAbsent | src/auth/usertokenstore.ts:21-24 | an absent session stays absent and answers null through any sequence of reads |
| TokenStore.EvictionMatters | src/auth/usertokenstore.ts:29-32 | eviction keeps an expired token from coming back when the clock reads earlier |
| AuthUtils.GenerateRandomString | src/auth/utils.ts:3-12 | the loop builds the specified string: empty for length 0 or less, otherwise one drawn alphabet character per iteration |
| AuthUtils.RandomStringShape | src/auth/utils.ts:5-10 | with in-range draws the string has `length` characters, each the drawn one of the 62-letter alphabet |
| AuthUtils.ShortenRequest | src/auth/utils.ts:18-26 | a GET to the shortener with format=simple and the long link as parameters |
| AuthUtils.ShortenURL | src/auth/utils.ts:16-33 | never rejects: the reply body on success, the string "ERROR" on any failure |
| Auth.AuthQuery | src/auth/authservice.ts:59-65 | the authorization query of section 4.1.1 of RFC 6749: response_type=code, client_id, the space-joined scopes, redirect_uri and state, in that order |
| Auth.ScopeParameterRoundTrip | src/auth/authservice.ts:26-56 | the scope parameter (section 3.3 of RFC 6749) splits back into the sixteen listed scopes, in order |
| Auth.ScopesLackSpaces | src/auth/authservice.ts:26-54 | no listed scope contains a space |
| Auth.AuthStateShape | src/auth/authservice.ts:57 | the state is sixteen characters of the alphabet |
| Auth.GenerateAuthLinkAsWritten | src/auth/authservice.ts:67-73 | the link as written: the shortener's body on success and "ERROR" on any failure |
| Auth.ShorteningFailureLosesLink | src/auth/authservice.ts:68-73 | when shortening fails, the code as written returns "ERROR" and not the authorization link |
| Auth.GenerateAuthLink | src/auth/authservice.ts:25-74 | the intended link: the short link on success, the long authorization link on failure |
| Auth.GenerateAuthLinkNeverErrors | src/auth/authservice.ts:67-73 | the intended version never yields "ERROR" unless the shortener itself answered it |
| Auth.TokenForm | src/auth/authservice.ts:82-86 | the token-request form of section 4.1.3 of RFC 6749: code, redirect_uri, grant_type=authorization_code |
| Auth.TokenExchangeRequest | src/auth/authservice.ts:88-102 | a POST to the token endpoint with the form body and the header "Basic " + base64(id:secret) |
| Auth.SplitAtFirst | src/auth/authservice.ts:89 | splitting at the first colon; a string without one is all user-id |
| Auth.BasicUserPassRoundTrip | src/auth/authservice.ts:89 | the Basic credentials (section 2 of RFC 7617) give back the client id and secret when the id has no colon |
| Auth.AuthService.constructor | src/auth/authservice.ts:5-6 | a new service is not signed in and holds a null token |
| Auth.AuthService.SetAuthenticated | src/auth/authservice.ts:17-19 | sets the flag and leaves the token alone |
| Auth.AuthService.IsAuthenticated | src/auth/authservice.ts:21-23 | answers the last value set |
| Auth.AuthService.GetAccessToken | src/auth/authservice.ts:122-124 | answers the stored token |
| Auth.AuthService.ReceiveToken | src/auth/authservice.ts:76-120 | sends the token request; true exactly for an ok reply whose JSON body is not null, which stores its access_token and signs in; any other reply or exception leaves both fields unchanged |
| Auth.ReceiveTwice | src/auth/authservice.ts:104-119 | a failed exchange after a successful one keeps the first token |
| Http.Bearer | src/mcp/requests.ts:34 | the credential is "Bearer " followed by the token |
| Http.ApiErrorMessage | src/mcp/requests.ts:42 | the API's `error.message` when truthy, else "An API error occurred" |
| Http.MakeRequest | src/mcp/requests.ts:20-46 | not signed in: throws "User is not authenticated" and sends nothing; otherwise one request to base + "/" + endpoint with the bearer header; resolves to the body exactly on 2xx; otherwise the mapped error |
| Http.FailureMessage | src/mcp/requests.ts:40-45 | the message thrown for each kind of failed outcome |
| Http.Then | src/mcp/requests.ts:48-56 | a caller's continuation runs only on a resolved request; a rejection passes through unchanged |
| Http.Try | src/mcp/player/requests.ts:58-79 | a try block sees the 2xx reply; the catch block sees an axios error with the status, one without a reply, or another error |
| Http.ApiRequest | src/mcp/player/requests.ts:59 | the URL is the API base, "/", then the path |
| Http.TryRequest | src/mcp/player/requests.ts:54-80 | the guard, then the request, with the try block's processing or the catch block's handling |
| Http.Acknowledge | src/mcp/requests.ts:102 | a write answers `{ success: true }` whatever the reply holds |
| Http.PassThrough | src/mcp/requests.ts:404-408 | the result is the reply data unchanged |
| Http.OnData | src/mcp/player/requests.ts:101 | a try block that answers from the reply data alone, whatever its status |
| Http.Always | src/mcp/player/requests.ts:102-104 | a catch block that ignores what it caught and always ends the same way |
| Http.CatchNeverSeesSuccess | src/mcp/player/requests.ts:75-77 | a catch block never sees a 2xx status, so its test for 204 never holds |
| Bodies.BuildResumeBody | src/mcp/requests.ts:85-103 | fills the playback body; the result is the one body the description allows |
| Bodies.ResumeBodyUnique | src/mcp/player/requests.ts:165-169 | context_uri and uris when truthy, offset when truthy and position_ms when given determine the body completely |
| Bodies.BuildDetailsBody | src/mcp/requests.ts:224-228 | fills the details body; the result is the one body the description allows |
| Bodies.DetailsBodyUnique | src/mcp/playlists/requests.ts:158-162 | exactly the given details determine the body |
| Bodies.BuildItemsUpdate | src/mcp/playlists/requests.ts:249-282 | fills body and params: uris in both only when non-empty; the range fields when given; snapshot_id when truthy |
| Bodies.EmptyUriListAddsNothing | src/mcp/requests.ts:273-286 | an empty uri list reaches neither the body nor the params |
| Bodies.UrisParameterRoundTrip | src/mcp/requests.ts:285 | the comma-joined uris parameter splits back into the list when no uri holds a comma |
| Bodies.BuildItemsAddition | src/mcp/playlists/requests.ts:312-334 | fills body and params: the uris always; the position in both when given |
| Bodies.AdditionParamsNonEmpty | src/mcp/playlists/requests.ts:332-334 | params are non-empty, and so sent, exactly when a position was given |
| Requests.DeviceParams | src/mcp/requests.ts:107 | `{ device_id }` for a non-empty id, undefined otherwise |
| Requests.WithDevice | src/mcp/requests.ts:126-134 | the given fields, plus device_id exactly when the id is non-empty |
| Requests.IdArray | src/mcp/requests.ts:389 | the ids array holds one trimmed piece per comma-separated piece, so one more than the commas |
| Requests.FinalLimit | src/mcp/requests.ts:424 | the limit when it is in 1..50, otherwise 20; always in 1..50 |
| Requests.GetPlaybackState | src/mcp/requests.ts:48-56 | a GET of me/player through makeRequest, with the market params, slimming the state |
| Requests.TransferPlayback | src/mcp/requests.ts:58-66 | a PUT of me/player with device_ids and play |
| Requests.DevicesReply | src/mcp/requests.ts:68-73 | succeeds exactly when the reply holds a device array, which is mapped element-wise |
| Requests.GetAvailableDevices | src/mcp/requests.ts:68-73 | a GET of me/player/devices, slimming the device list |
| Requests.GetCurrentlyPlayingTrack | src/mcp/requests.ts:75-83 | a GET of me/player/currently-playing, slimming the state |
| Requests.StartResumePlayback | src/mcp/requests.ts:85-103 | a PUT of me/player/play with the filled body and the device param |
| Requests.PausePlayback | src/mcp/requests.ts:105-110 | a PUT of me/player/pause with the device param |
| Requests.SkipToNext | src/mcp/requests.ts:112-117 | a POST of me/player/next with the device param |
| Requests.SkipToPrevious | src/mcp/requests.ts:119-124 | a POST of me/player/previous with the device param |
| Requests.SeekToPosition | src/mcp/requests.ts:126-134 | a PUT of me/player/seek with position_ms and the device when given |
| Requests.SetRepeatMode | src/mcp/requests.ts:136-144 | a PUT of me/player/repeat with the state and the device when given |
| Requests.SetPlaybackVolume | src/mcp/requests.ts:146-154 | a PUT of me/player/volume with volume_percent and the device when given |
| Requests.TogglePlaybackShuffle | src/mcp/requests.ts:156-164 | a PUT of me/player/shuffle with the state and the device when given |
| Requests.PlayedItem | src/mcp/requests.ts:175-179 | a history entry: its track projection, played_at and context; a null entry throws |
| Requests.RecentlyPlayed | src/mcp/requests.ts:174-180 | succeeds exactly when the items array maps; it keeps length and order |
| Requests.GetRecentlyPlayedTracks | src/mcp/requests.ts:166-181 | a GET of me/player/recently-played with limit, after and before |
| Requests.QueueReply | src/mcp/requests.ts:185-188 | the current track and the queue, each projected; a null reply throws |
| Requests.GetUserQueue | src/mcp/requests.ts:183-189 | a GET of me/player/queue |
| Requests.AddItemToPlaybackQueue | src/mcp/requests.ts:191-199 | a POST of me/player/queue with the uri and the device when given |
| Requests.GetPlaylist | src/mcp/requests.ts:201-215 | a GET of playlists/{id} with market, fields and additional_types, slimming the playlist |
| Requests.ChangePlaylistDetails | src/mcp/requests.ts:217-232 | a PUT of playlists/{id} whose body holds exactly the given details |
| Requests.PlaylistItemsPage | src/mcp/requests.ts:234-260 | the page counters and the mapped items; a null reply throws |
| Requests.GetPlaylistItems | src/mcp/requests.ts:234-260 | a GET of playlists/{id}/tracks with its params |
| Requests.SnapshotReply | src/mcp/requests.ts:288-291 | `{ success: true, snapshot_id }`; a null reply throws |
| Requests.UpdatePlaylistItems | src/mcp/requests.ts:262-292 | a PUT of playlists/{id}/tracks; params are sent whenever a uri list was passed |
| Requests.AddItemsToPlaylist | src/mcp/requests.ts:294-320 | a POST of playlists/{id}/tracks; params are sent only when non-empty |
| Requests.Pages | src/mcp/requests.ts:341-349 | the object literal's fields in evaluation order: succeeds exactly when every page does, with one entry per kind |
| Requests.SearchReply | src/mcp/requests.ts:341-349 | exactly the seven result kinds, each the paging projection of its field; a null reply throws |
| Requests.SearchParams | src/mcp/requests.ts:330-338 | q, type, market and include_external as given; `limit \|\| 20` and `offset \|\| 0` |
| Requests.SearchItems | src/mcp/requests.ts:322-350 | a GET of search with those params |
| Requests.GetTrack | src/mcp/requests.ts:352-357 | a GET of tracks/{id}, slimming the track |
| Requests.TracksReply | src/mcp/requests.ts:359-366 | succeeds exactly when the tracks array maps; it keeps length and order |
| Requests.GetSeveralTracks | src/mcp/requests.ts:359-366 | a GET of tracks with ids and market |
| Requests.SavedItem | src/mcp/requests.ts:381-384 | a saved entry: added_at and the projected track; a null entry throws |
| Requests.SavedTracksPage | src/mcp/requests.ts:376-385 | the page counters and the mapped items; a null reply throws |
| Requests.GetSavedTracks | src/mcp/requests.ts:368-386 | a GET of me/tracks with `limit \|\| 20` and `offset \|\| 0` |
| Requests.SaveTracks | src/mcp/requests.ts:388-394 | a PUT of me/tracks whose body holds the split and trimmed ids |
| Requests.RemoveSavedTracks | src/mcp/requests.ts:396-402 | a DELETE of me/tracks whose body holds the split and trimmed ids |
| Requests.CheckSavedTracks | src/mcp/requests.ts:404-408 | a GET of me/tracks/contains returning the reply unchanged |
| Requests.GetUserProfile | src/mcp/requests.ts:410-412 | a GET of users/{id} returning the reply unchanged |
| Requests.GetCurrentUserProfile | src/mcp/requests.ts:414-416 | a GET of me returning the reply unchanged |
| Requests.TopItemsParams | src/mcp/requests.ts:424-431 | time_range defaults to medium_term, the clamped limit, `offset \|\| 0` |
| Requests.GetCurrentUserTopItems | src/mcp/requests.ts:418-433 | a GET of me/top/{type} with those params |
| Requests.FollowOrUnfollowPlaylist | src/mcp/requests.ts:435-439 | a PUT to follow and a DELETE to unfollow, on playlists/{id}/followers |
| Requests.GetFollowedArtists | src/mcp/requests.ts:441-455 | a GET of me/following with the type, after and the clamped limit |
| Requests.FollowArtistsOrUsers | src/mcp/requests.ts:457-468 | a PUT of me/following with the type and the split and trimmed ids |
| Requests.UnfollowArtistsOrUsers | src/mcp/requests.ts:470-481 | a DELETE of me/following with the type and the split and trimmed ids |
| Requests.CheckIfUserFollows | src/mcp/requests.ts:483-490 | a GET of me/following/contains with the type and the ids |
| Requests.CheckIfCurrentUserFollowsPlaylist | src/mcp/requests.ts:492-496 | a GET of playlists/{id}/followers/contains with the ids |
| PlaylistRequests.NestedTrack | src/mcp/playlists/requests.ts:53-70 | null for a falsy track; otherwise succeeds exactly when its artists map and its album projects; artists are artist objects and album the album object |
| PlaylistRequests.NestedTrackObject | src/mcp/playlists/requests.ts:55-69 | the track record has exactly its keys, its copied fields from the track |
| PlaylistRequests.NestedTrackAbsentLists | src/mcp/playlists/requests.ts:58-59 | absent artist and album lists make the track project, with artists [] |
| PlaylistRequests.NestedPlaylistTrack | src/mcp/playlists/requests.ts:72-80 | null for a falsy item; otherwise succeeds exactly when its track projects with this module's projection |
| PlaylistRequests.NestedPlaylist | src/mcp/playlists/requests.ts:82-106 | the shared playlist shape around this module's playlist-track projection |
| PlaylistRequests.PlaylistReadFailure | src/mcp/playlists/requests.ts:135-143 | 404: "Playlist not found"; 401: "Invalid or expired access token"; anything else: "Failed to fetch playlist" |
| PlaylistRequests.ItemsReadFailure | src/mcp/playlists/requests.ts:226-233 | 404: "Playlist not found"; anything else: "Failed to fetch playlist items" |
| PlaylistRequests.WriteFailure | src/mcp/playlists/requests.ts:177-185 | 403 throws the permission message; 404 throws "Playlist not found"; any other failure returns `{ success: false, error }` |
| PlaylistRequests.ItemsFromReply | src/mcp/playlists/requests.ts:212-220 | the page counters and the mapped items; a null body throws |
| PlaylistRequests.SnapshotFromReply | src/mcp/playlists/requests.ts:285-288 | `{ success: true, snapshot_id }`; a null body throws |
| PlaylistRequests.GetPlaylist | src/mcp/playlists/requests.ts:108-145 | the guard, then a GET of playlists/{id} with its params and the status-specific failures |
| PlaylistRequests.GetPlaylistProjectionFailure | src/mcp/playlists/requests.ts:135-143 | a 2xx reply whose playlist cannot be projected ends in the generic message |
| PlaylistRequests.ChangePlaylistDetails | src/mcp/playlists/requests.ts:147-187 | the guard, then a PUT whose body holds exactly the given details |
| PlaylistRequests.GetPlaylistItems | src/mcp/playlists/requests.ts:189-235 | the guard, then a GET of playlists/{id}/tracks |
| PlaylistRequests.UpdatePlaylistItems | src/mcp/playlists/requests.ts:237-301 | the guard, then a PUT with the filled body, and params when a uri list was passed |
| PlaylistRequests.AddItemsToPlaylist | src/mcp/playlists/requests.ts:303-353 | the guard, then a POST with the filled body, and params only when non-empty |
| PlaylistRequests.NullWriteReplyIsFailure | src/mcp/playlists/requests.ts:285-299 | a 2xx write reply with a null body is reported as `{ success: false }`, not thrown |
| PlayerRequests.PlaybackOrMessage | src/mcp/player/requests.ts:69-73 | a 204 reply gives the message object; any other gives the projected state |
| PlayerRequests.MessageOrFailure | src/mcp/player/requests.ts:74-79 | an axios 204 gives the message object; anything else throws the fixed message |
| PlayerRequests.GetPlaybackState | src/mcp/player/requests.ts:54-80 | the guard, then a GET of me/player with the market params |
| PlayerRequests.PlaybackStateOutcomes | src/mcp/player/requests.ts:54-80 | signed in: 204 gives "No active playback"; a failure throws "Failed to fetch playback state"; any other 2xx gives the projected state when it projects |
| PlayerRequests.GetCurrentlyPlayingTrack | src/mcp/player/requests.ts:126-152 | the guard, then a GET of me/player/currently-playing; 204 gives "No track currently playing" |
| PlayerRequests.GetAvailableDevices | src/mcp/player/requests.ts:107-124 | the guard, then a GET of me/player/devices |
| PlayerRequests.DevicesOutcomes | src/mcp/player/requests.ts:107-124 | signed in: the devices exactly for a 2xx reply holding a device array, otherwise "Failed to fetch available devices" |
| PlayerRequests.TransferPlayback | src/mcp/player/requests.ts:82-105 | the guard, then a PUT of me/player with device_ids and play |
| PlayerRequests.StartResumePlayback | src/mcp/player/requests.ts:154-187 | the guard, then a PUT of me/player/play with the filled body and the device param |
| PlayerRequests.PausePlayback | src/mcp/player/requests.ts:189-209 | the guard, then a PUT of me/player/pause |
| PlayerRequests.PauseNeverThrows | src/mcp/player/requests.ts:189-209 | signed in: `{ success: true }` exactly for 2xx, otherwise `{ success: false, error }`; never throws |
| PlayerRequests.TransferNeverThrows | src/mcp/player/requests.ts:82-105 | signed in: `{ success: true }` exactly for 2xx, otherwise `{ success: false, error }`; never throws |
| SearchRequests.StrictTrack | src/mcp/search/requests.ts:7-20 | null for a falsy item; otherwise succeeds exactly when artists has no null entry and album is present |
| SearchRequests.StrictTrackNeedsArtists | src/mcp/search/requests.ts:12 | a track without artists projects in the shared version but throws here |
| SearchRequests.SearchAlbum | src/mcp/search/requests.ts:22-33 | null for a falsy album; otherwise succeeds exactly when artists has no null entry |
| SearchRequests.SearchArtist | src/mcp/search/requests.ts:35-46 | null for a falsy artist; otherwise followers is `followers?.total` |
| SearchRequests.SearchPlaylist | src/mcp/search/requests.ts:48-58 | null for a falsy playlist; otherwise owner is `owner?.display_name` |
| SearchRequests.SearchFromReply | src/mcp/search/requests.ts:144-152 | exactly the seven kinds, each this module's paging projection; a null body throws |
| SearchRequests.SearchItems | src/mcp/search/requests.ts:115-157 | the guard, then a GET of search with `limit \|\| 20` and `offset \|\| 0` |
| SearchRequests.SearchOutcomes | src/mcp/search/requests.ts:127-156 | signed in: the result exactly for a 2xx reply that pages; every other failure is "Failed to perform search" |
| TrackRequests.GetTrack | src/mcp/tracks/requests.ts:22-37 | the guard, then a GET of tracks/{id}, projecting with the strict track |
| TrackRequests.GetSeveralTracks | src/mcp/tracks/requests.ts:39-57 | the guard, then a GET of tracks with ids and market |
| TrackRequests.SeveralTracksOutcomes | src/mcp/tracks/requests.ts:39-57 | signed in: the tracks exactly for a 2xx reply whose every track projects; otherwise the fixed message |
| TrackRequests.GetSavedTracks | src/mcp/tracks/requests.ts:59-88 | the guard, then a GET of me/tracks with `limit \|\| 20` and `offset \|\| 0` |
| TrackRequests.SaveTracks | src/mcp/tracks/requests.ts:90-112 | the guard, then a PUT of the split and trimmed ids; a failure is `{ success: false }` |
| TrackRequests.RemoveSavedTracks | src/mcp/tracks/requests.ts:114-136 | the guard, then a DELETE of the split and trimmed ids; a failure is `{ success: false }` |
| TrackRequests.SaveAndRemoveMirror | src/mcp/tracks/requests.ts:90-136 | save and remove send the same URL and body, differing only in the verb |
| TrackRequests.CheckSavedTracks | src/mcp/tracks/requests.ts:138-154 | the guard, then a GET of me/tracks/contains returning the body unchanged |
| UserRequests.GetUserProfile | src/mcp/user/requests.ts:6-20 | the guard, then a GET of users/{id} returning the body |
| UserRequests.GetCurrentUserProfile | src/mcp/user/requests.ts:22-36 | the guard, then a GET of me returning the body |
| UserRequests.ProfileOutcomes | src/mcp/user/requests.ts:6-20 | signed in: the body exactly for 2xx, otherwise "Failed to fetch user profile" |
| UserRequests.TopTrack | src/mcp/user/requests.ts:62-76 | succeeds exactly for a non-null track with non-null artists and an album; name, artist names, album name, popularity, preview_url, external_url |
| UserRequests.ArtistImage | src/mcp/user/requests.ts:90 | the first image's url when truthy, otherwise null |
| UserRequests.NoImagesGiveNull | src/mcp/user/requests.ts:90 | an artist with no image list, or an empty one, gets a null image |
| UserRequests.TopArtist | src/mcp/user/requests.ts:78-92 | succeeds exactly for a non-null artist; its fields, genres and image |
| UserRequests.TopPage | src/mcp/user/requests.ts:62-92 | the page counters and `items.map(f)`; a null page throws |
| UserRequests.TopItemsPage | src/mcp/user/requests.ts:61-95 | tracks and artists are projected, any other type passes through |
| UserRequests.GetCurrentUserTopItems | src/mcp/user/requests.ts:38-100 | the guard, then a GET of me/top/{type} with the defaulted and clamped params |
| UserRequests.TopItemsLimitInRange | src/mcp/user/requests.ts:44 | the limit sent is the given one when in 1..50, otherwise 20 |
| UserRequests.TrackWithoutAlbumFailsPage | src/mcp/user/requests.ts:62-76 | one top track without an album makes the whole page throw |
| Tools.Replying | src/mcp/tools.ts:81-92 | a handler response that ignores what the request resolved to |
| Tools.UrisArray | src/mcp/tools.ts:160 | the split and trimmed uris when non-empty, otherwise undefined |
| Tools.UrisArrayNonEmpty | src/mcp/tools.ts:160 | a uri list a handler passes on has one entry more than the input has commas |
| Tools.OffsetObject | src/mcp/tools.ts:161-166 | `{ position, uri }` exactly when a position is given or the uri is non-empty |
| Tools.OffsetReachesBody | src/mcp/tools.ts:161-166 | the offset reaches the playback body exactly when the handler built it |
| Tools.TransferTool | src/mcp/tools.ts:81-92 | the transfer handler sends the split and trimmed device ids |
| Tools.StartResumeTool | src/mcp/tools.ts:159-184 | the start/resume handler's body uses the uri list and the offset object |
| Tools.UpdatedResponse | src/mcp/tools.ts:593-597 | the update response message with snapshot_id; a null result throws |
| Tools.UpdateItemsTool | src/mcp/tools.ts:583-602 | the update handler sends the split uris and answers the update response |
| Tools.ReplacementSendsUris | src/mcp/tools.ts:583-602 | a non-empty uris argument always reaches both the body and the params |
| Tools.AddedResponse | src/mcp/tools.ts:631-635 | the success message reports the number of uris |
| Tools.AddItemsTool | src/mcp/tools.ts:621-640 | more than 100 uris: throws before any request; otherwise the addition with the success message |
| Tools.CapCountsCommas | src/mcp/tools.ts:622-625 | the cap is passed exactly when the input holds at least 100 commas |
| Tools.SavedStatuses | src/mcp/tools.ts:821-824 | the response echoes the split ids next to the statuses |
| Tools.CheckSavedTool | src/mcp/tools.ts:819-829 | the check-saved handler's request and response |
| Tools.CheckSavedEchoesIds | src/mcp/tools.ts:822 | the response lists one id per comma-separated piece |
| Tools.FollowResponse | src/mcp/tools.ts:854-860 | the message, playlistId and action "followed" exactly when following |
| Tools.FollowTool | src/mcp/tools.ts:850-866 | `follow ?? true` picks the verb |
| Tools.FollowDefaultsToTrue | src/mcp/tools.ts:851 | leaving follow out is the same as passing true, a PUT |
| Tools.FollowStatuses | src/mcp/tools.ts:1054-1065 | the response echoes the type and the unsplit ids next to the statuses |
| Tools.CheckIfUserFollowsTool | src/mcp/tools.ts:1054-1065 | the check-follows handler's request and response |
| Tools.PlaylistFollowStatus | src/mcp/tools.ts:1090-1100 | the response pairs the playlist id with the API's answer |
| Tools.CheckPlaylistFollowTool | src/mcp/tools.ts:1090-1100 | the check-playlist-follow handler's request and response |

## Left out

- Network I/O is not modelled. The axios calls, the fetch to the token endpoint and the
  shortener request are replaced by their outcome, which every member takes as an input.
- Time is not modelled: `Date.now()` is the parameter `now`, in integer milliseconds.
- Randomness is not modelled: `Math.floor(Math.random() * 62)` is a draw function passed in.
- Encodings are not modelled. `Buffer` base64 and `URLSearchParams` serialisation are
  functions passed in; only what is handed to them is stated.
- The singletons are modelled as ordinary objects. `getInstance` hands out one shared
  instance; the request functions read its flag and token as a `Credentials` value.
- `console.error` logging is not modelled.
- Zod input validation (`src/types`) is not modelled.
- The MCP registration and the content wrapping of tool results (`JSON.stringify`) are
  not modelled.
- The Express callback and transport (`src/index.ts`, `src/server.ts`) are not part of
  this model.
- The per-feature tool adapters (`src/mcp/*/tools.ts`, `src/auth/tools.ts`) are not part
  of this model. They only forward arguments and rethrow.
- The handlers of `src/mcp/tools.ts` that only forward their arguments are not modelled.
  Only the handlers that shape arguments or responses are.
- `src/experiment.js` and `src/mcp/user.ts` are not part of this model.
- Numbers are integers: floats, NaN and fractional limits are not modelled.
- Params objects keep `undefined` entries. Axios drops them when it serialises the query,
  which is not modelled.
- Js.Prop reads only own fields of objects. Built-in properties such as an array's
  `length` read as undefined.
- The projections that the player, search and tracks modules copy unchanged from
  `src/mcp/slims.ts` are defined once in Slims and reused. Only the copies that differ
  have their own functions.
- Text.Trim: that the trimmed string is a contiguous part of the input is stated for
  Text.TrimStart and Text.TrimEnd separately, not for their composition.
- Auth.AuthService.ReceiveToken: the unused `state` argument is accepted and ignored. No
  state check is modelled, because the code makes none.

## Findings

| source | as written | input that shows it | evidently intended | confidence | as-written member | corrected member |
|---|---|---|---|---|---|---|
| src/auth/authservice.ts:68-73 | `shortenURL` catches every failure and resolves to the string "ERROR" (src/auth/utils.ts:29-32). So the catch block at lines 70-73, which falls back to the long link, never runs, and a failed shortening hands the user "ERROR" as the sign-in link. | any failed shortening outcome, e.g. the shortener not answering (`Http.NoReply`) | return the long authorization link when shortening fails | not executed | Auth.GenerateAuthLinkAsWritten, exhibited by Auth.ShorteningFailureLosesLink | Auth.GenerateAuthLink, with Auth.GenerateAuthLinkNeverErrors |
