/**
 * The response projections: each takes a raw API object and keeps a fixed set of
 * fields, returning null for a falsy input. Nested lists are mapped element by
 * element; `x?.map(f) || []` turns an absent list into an empty one, while a bare
 * `x.map(f)` throws on anything but an array. The player module's copies of the
 * device, track and playback projections, the playlist module's copies of the
 * owner, image, artist and album projections, and the search module's copies of
 * the show, episode, audiobook and paging projections are the same definitions.
 */
module Slims {
  import opened Js

  /** The Spotify web link of an object, undefined when it has no external links. */
  function ExternalUrl(x: Json): Json {
    Prop(Prop(x, "external_urls"), "spotify")
  }

  /** `r` is an object with exactly the keys `keys`. */
  predicate HasKeys(r: Json, keys: set<string>) {
    r.JObj? && r.fields.Keys == keys
  }

  /** Each of `keys` in `r` holds the field of the same name of `x`. */
  predicate CopiesFrom(r: Json, x: Json, keys: set<string>) {
    r.JObj? && forall k :: k in keys ==> k in r.fields && r.fields[k] == Prop(x, k)
  }

  /** An object literal whose every listed key holds the input's field of the same name, `{ k: x.k, ... }`. */
  function Pick(x: Json, keys: set<string>): (m: map<string, Json>)
    ensures m.Keys == keys && forall k :: k in keys ==> m[k] == Prop(x, k)
  {
    map k | k in keys :: Prop(x, k)
  }

  /** `src?.map(f) || []` succeeds: `src` is absent, or an array on every element of which `f` succeeds. */
  predicate Mappable(src: Json, f: Json -> Result<Json>) {
    Nullish(src) || (src.JArr? && forall i :: 0 <= i < |src.items| ==> f(src.items[i]).Ok?)
  }

  /** `out` is `src?.map(f) || []`: empty for an absent `src`, else `f` applied to each element in order. */
  predicate MappedFrom(out: Json, src: Json, f: Json -> Result<Json>) {
    out.JArr?
    && (Nullish(src) ==> out.items == [])
    && (!Nullish(src) ==>
          src.JArr? && |out.items| == |src.items|
          && forall i :: 0 <= i < |src.items| ==> f(src.items[i]) == Ok(out.items[i]))
  }

  /** `src?.map(f) || []` as a JSON array. */
  function MapList(src: Json, f: Json -> Result<Json>): (r: Result<Json>)
    ensures r.Ok? <==> Mappable(src, f)
    ensures r.Ok? ==> MappedFrom(r.value, src, f)
  {
    var items :- MapOrEmpty(src, f);
    Ok(JArr(items))
  }

  /** `src.map(f)` succeeds: `src` is an array on every element of which `f` succeeds. */
  predicate MappableStrict(src: Json, f: Json -> Result<Json>) {
    src.JArr? && forall i :: 0 <= i < |src.items| ==> f(src.items[i]).Ok?
  }

  /** `src.map(f)` as a JSON array: unlike MapList, an absent `src` throws. */
  function MapStrict(src: Json, f: Json -> Result<Json>): (r: Result<Json>)
    ensures r.Ok? <==> MappableStrict(src, f)
    ensures r.Ok? ==> MappedFrom(r.value, src, f)
  {
    var items :- CallMap(src, f);
    Ok(JArr(items))
  }

  // Each projection has its key set and, where it computes some fields, the subset of
  // keys it copies unchanged from the input.

  const DeviceKeys: set<string> :=
    {"id", "is_active", "is_private_session", "is_restricted", "name", "type", "volume_percent", "supports_volume"}

  function SlimDevice(device: Json): (r: Json)
    ensures !Truthy(device) ==> r == JNull
    ensures Truthy(device) ==> HasKeys(r, DeviceKeys) && CopiesFrom(r, device, DeviceKeys)
  {
    if !Truthy(device) then JNull else JObj(Pick(device, DeviceKeys))
  }

  /** slimDevice as a `.map` callback; it never throws. */
  function DeviceCallback(device: Json): Result<Json> {
    Ok(SlimDevice(device))
  }

  const TrackCopied: set<string> := {"id", "name", "duration_ms", "explicit", "uri"}
  const TrackKeys: set<string> := TrackCopied + {"artists", "album", "external_url"}

  /** slimTrack: artist names with `?.map`, album name with `?.`, so only a malformed artist list throws. */
  function SlimTrack(item: Json): (r: Result<Json>)
    ensures !Truthy(item) ==> r == Ok(JNull)
    ensures Truthy(item) ==> (r.Ok? <==> Mappable(Prop(item, "artists"), NameOf))
    ensures Truthy(item) && r.Ok? ==>
      HasKeys(r.value, TrackKeys) && CopiesFrom(r.value, item, TrackCopied)
      && MappedFrom(r.value.fields["artists"], Prop(item, "artists"), NameOf)
      && r.value.fields["album"] == Prop(Prop(item, "album"), "name")
      && r.value.fields["external_url"] == ExternalUrl(item)
  {
    if !Truthy(item) then Ok(JNull)
    else
      var artists :- MapList(Prop(item, "artists"), NameOf);
      Ok(JObj(Pick(item, TrackCopied)
                ["artists" := artists]
                ["album" := Prop(Prop(item, "album"), "name")]
                ["external_url" := ExternalUrl(item)]))
  }

  /** slimTrack as a `.map` callback. */
  function TrackCallback(item: Json): Result<Json> {
    SlimTrack(item)
  }

  const ContextKeys: set<string> := {"type", "uri", "external_url"}

  /** The `context` field of a playback state: null unless the input context is truthy. */
  function SlimContext(context: Json): (r: Json)
    ensures !Truthy(context) ==> r == JNull
    ensures Truthy(context) ==>
      HasKeys(r, ContextKeys) && CopiesFrom(r, context, {"type", "uri"}) && r.fields["external_url"] == ExternalUrl(context)
  {
    if !Truthy(context) then JNull
    else JObj(Pick(context, {"type", "uri"})["external_url" := ExternalUrl(context)])
  }

  const PlaybackCopied: set<string> :=
    {"repeat_state", "shuffle_state", "timestamp", "progress_ms", "is_playing", "currently_playing_type"}
  const PlaybackKeys: set<string> := PlaybackCopied + {"device", "item", "context"}

  /** slimPlaybackState composes slimDevice, slimTrack and the context projection. */
  function SlimPlaybackState(data: Json): (r: Result<Json>)
    ensures !Truthy(data) ==> r == Ok(JNull)
    ensures Truthy(data) ==> (r.Ok? <==> SlimTrack(Prop(data, "item")).Ok?)
    ensures Truthy(data) && r.Ok? ==>
      HasKeys(r.value, PlaybackKeys) && CopiesFrom(r.value, data, PlaybackCopied)
      && r.value.fields["device"] == SlimDevice(Prop(data, "device"))
      && r.value.fields["item"] == SlimTrack(Prop(data, "item")).value
      && r.value.fields["context"] == SlimContext(Prop(data, "context"))
  {
    if !Truthy(data) then Ok(JNull)
    else
      var item :- SlimTrack(Prop(data, "item"));
      Ok(JObj(Pick(data, PlaybackCopied)
                ["device" := SlimDevice(Prop(data, "device"))]
                ["item" := item]
                ["context" := SlimContext(Prop(data, "context"))]))
  }

  const OwnerKeys: set<string> := {"id", "type", "uri", "display_name", "external_url"}

  function SlimPlaylistOwner(owner: Json): (r: Json)
    ensures !Truthy(owner) ==> r == JNull
    ensures Truthy(owner) ==>
      HasKeys(r, OwnerKeys) && CopiesFrom(r, owner, OwnerKeys - {"external_url"})
      && r.fields["external_url"] == ExternalUrl(owner)
  {
    if !Truthy(owner) then JNull
    else JObj(Pick(owner, OwnerKeys - {"external_url"})["external_url" := ExternalUrl(owner)])
  }

  const ImageKeys: set<string> := {"url", "height", "width"}

  function SlimImage(image: Json): (r: Json)
    ensures !Truthy(image) ==> r == JNull
    ensures Truthy(image) ==> HasKeys(r, ImageKeys) && CopiesFrom(r, image, ImageKeys)
  {
    if !Truthy(image) then JNull else JObj(Pick(image, ImageKeys))
  }

  /** slimImage as a `.map` callback; it never throws. */
  function ImageCallback(image: Json): Result<Json> {
    Ok(SlimImage(image))
  }

  const ArtistKeys: set<string> := {"id", "name", "type", "uri", "external_url"}

  function SlimArtist(artist: Json): (r: Json)
    ensures !Truthy(artist) ==> r == JNull
    ensures Truthy(artist) ==>
      HasKeys(r, ArtistKeys) && CopiesFrom(r, artist, ArtistKeys - {"external_url"})
      && r.fields["external_url"] == ExternalUrl(artist)
  {
    if !Truthy(artist) then JNull
    else JObj(Pick(artist, ArtistKeys - {"external_url"})["external_url" := ExternalUrl(artist)])
  }

  /** slimArtist as a `.map` callback; it never throws. */
  function ArtistCallback(artist: Json): Result<Json> {
    Ok(SlimArtist(artist))
  }

  /** A list mapped with a callback that never throws fails only when it is present and not an array. */
  lemma TotalCallbackMappable(src: Json)
    ensures Mappable(src, ImageCallback) <==> Nullish(src) || src.JArr?
    ensures Mappable(src, ArtistCallback) <==> Nullish(src) || src.JArr?
  {
  }

  const AlbumCopied: set<string> := {"id", "name", "album_type", "total_tracks", "release_date", "uri"}
  const AlbumKeys: set<string> := AlbumCopied + {"images", "artists", "external_url"}

  function SlimAlbum(album: Json): (r: Result<Json>)
    ensures !Truthy(album) ==> r == Ok(JNull)
    ensures Truthy(album) ==>
      (r.Ok? <==> Mappable(Prop(album, "images"), ImageCallback) && Mappable(Prop(album, "artists"), ArtistCallback))
    ensures Truthy(album) && r.Ok? ==>
      HasKeys(r.value, AlbumKeys) && CopiesFrom(r.value, album, AlbumCopied)
      && MappedFrom(r.value.fields["images"], Prop(album, "images"), ImageCallback)
      && MappedFrom(r.value.fields["artists"], Prop(album, "artists"), ArtistCallback)
      && r.value.fields["external_url"] == ExternalUrl(album)
  {
    if !Truthy(album) then Ok(JNull)
    else
      var images :- MapList(Prop(album, "images"), ImageCallback);
      var artists :- MapList(Prop(album, "artists"), ArtistCallback);
      Ok(JObj(Pick(album, AlbumCopied)
                ["images" := images]
                ["artists" := artists]
                ["external_url" := ExternalUrl(album)]))
  }

  const PlaylistTrackKeys: set<string> := {"added_at", "added_by", "is_local", "track"}

  function SlimPlaylistTrack(item: Json): (r: Result<Json>)
    ensures !Truthy(item) ==> r == Ok(JNull)
    ensures Truthy(item) ==> (r.Ok? <==> SlimTrack(Prop(item, "track")).Ok?)
    ensures Truthy(item) && r.Ok? ==>
      HasKeys(r.value, PlaylistTrackKeys) && CopiesFrom(r.value, item, {"added_at", "is_local"})
      && r.value.fields["added_by"] == SlimPlaylistOwner(Prop(item, "added_by"))
      && r.value.fields["track"] == SlimTrack(Prop(item, "track")).value
  {
    if !Truthy(item) then Ok(JNull)
    else
      var track :- SlimTrack(Prop(item, "track"));
      Ok(PlaylistTrackObject(item, track))
  }

  /** The object slimPlaylistTrack builds around its projected track. */
  function PlaylistTrackObject(item: Json, track: Json): (r: Json)
    ensures HasKeys(r, PlaylistTrackKeys) && CopiesFrom(r, item, {"added_at", "is_local"})
    ensures r.fields["added_by"] == SlimPlaylistOwner(Prop(item, "added_by")) && r.fields["track"] == track
  {
    JObj(Pick(item, {"added_at", "is_local"})["added_by" := SlimPlaylistOwner(Prop(item, "added_by"))]["track" := track])
  }

  const TrackListKeys: set<string> := {"href", "total", "limit", "offset", "next", "previous", "items"}

  /** The `tracks` object of a playlist: every field read with `?.`, so it is an object whatever `data.tracks` is. */
  function TrackList(tracks: Json, f: Json -> Result<Json>): (r: Result<Json>)
    ensures r.Ok? <==> Mappable(Prop(tracks, "items"), f)
    ensures r.Ok? ==>
      HasKeys(r.value, TrackListKeys) && CopiesFrom(r.value, tracks, TrackListKeys - {"items"})
      && MappedFrom(r.value.fields["items"], Prop(tracks, "items"), f)
  {
    var items :- MapList(Prop(tracks, "items"), f);
    Ok(JObj(Pick(tracks, TrackListKeys - {"items"})["items" := items]))
  }

  const PlaylistCopied: set<string> := {"id", "name", "description", "collaborative", "public", "snapshot_id", "uri", "type"}
  const PlaylistKeys: set<string> := PlaylistCopied + {"owner", "images", "tracks", "external_url"}

  function SlimPlaylist(data: Json): (r: Result<Json>)
    ensures !Truthy(data) ==> r == Ok(JNull)
    ensures Truthy(data) ==>
      (r.Ok? <==> Mappable(Prop(data, "images"), ImageCallback)
                  && Mappable(Prop(Prop(data, "tracks"), "items"), SlimPlaylistTrack))
    ensures Truthy(data) && r.Ok? ==>
      HasKeys(r.value, PlaylistKeys) && CopiesFrom(r.value, data, PlaylistCopied)
      && r.value.fields["owner"] == SlimPlaylistOwner(Prop(data, "owner"))
      && MappedFrom(r.value.fields["images"], Prop(data, "images"), ImageCallback)
      && r.value.fields["tracks"] == TrackList(Prop(data, "tracks"), SlimPlaylistTrack).value
      && r.value.fields["external_url"] == ExternalUrl(data)
  {
    if !Truthy(data) then Ok(JNull)
    else
      var images :- MapList(Prop(data, "images"), ImageCallback);
      var tracks :- TrackList(Prop(data, "tracks"), SlimPlaylistTrack);
      Ok(PlaylistObject(data, SlimPlaylistOwner(Prop(data, "owner")), images, tracks))
  }

  /** The object slimPlaylist builds around its projected owner, images and tracks. */
  function PlaylistObject(data: Json, owner: Json, images: Json, tracks: Json): (r: Json)
    ensures HasKeys(r, PlaylistKeys)
    ensures CopiesFrom(r, data, PlaylistCopied)
    ensures r.fields["owner"] == owner && r.fields["images"] == images && r.fields["tracks"] == tracks
    ensures r.fields["external_url"] == ExternalUrl(data)
  {
    JObj(Pick(data, PlaylistCopied)["owner" := owner]["images" := images]["tracks" := tracks]["external_url" := ExternalUrl(data)])
  }

  /** A playlist without a `tracks` field still gets a `tracks` object, with an empty item list. */
  lemma PlaylistAlwaysHasTrackList(data: Json)
    requires Truthy(data) && Nullish(Prop(data, "tracks")) && Mappable(Prop(data, "images"), ImageCallback)
    ensures SlimPlaylist(data).Ok?
    ensures SlimPlaylist(data).value.fields["tracks"].JObj?
    ensures SlimPlaylist(data).value.fields["tracks"].fields["items"] == JArr([])
  {
  }

  const ShowKeys: set<string> := {"id", "name", "publisher", "description", "explicit", "external_url", "uri"}

  function SlimShow(item: Json): (r: Json)
    ensures !Truthy(item) ==> r == JNull
    ensures Truthy(item) ==>
      HasKeys(r, ShowKeys) && CopiesFrom(r, item, ShowKeys - {"external_url"}) && r.fields["external_url"] == ExternalUrl(item)
  {
    if !Truthy(item) then JNull
    else JObj(Pick(item, ShowKeys - {"external_url"})["external_url" := ExternalUrl(item)])
  }

  /** slimShow as a `.map` callback; it never throws. */
  function ShowCallback(item: Json): Result<Json> {
    Ok(SlimShow(item))
  }

  const EpisodeKeys: set<string> :=
    {"id", "name", "description", "duration_ms", "release_date", "explicit", "external_url", "uri"}

  function SlimEpisode(item: Json): (r: Json)
    ensures !Truthy(item) ==> r == JNull
    ensures Truthy(item) ==>
      HasKeys(r, EpisodeKeys) && CopiesFrom(r, item, EpisodeKeys - {"external_url"}) && r.fields["external_url"] == ExternalUrl(item)
  {
    if !Truthy(item) then JNull
    else JObj(Pick(item, EpisodeKeys - {"external_url"})["external_url" := ExternalUrl(item)])
  }

  /** slimEpisode as a `.map` callback; it never throws. */
  function EpisodeCallback(item: Json): Result<Json> {
    Ok(SlimEpisode(item))
  }

  const AudiobookCopied: set<string> := {"id", "name", "publisher", "description", "explicit", "uri"}
  const AudiobookKeys: set<string> := AudiobookCopied + {"authors", "narrators", "external_url"}

  /** slimAudiobook maps `authors` and `narrators` without `?.`: both must be arrays of non-null entries. */
  function SlimAudiobook(item: Json): (r: Result<Json>)
    ensures !Truthy(item) ==> r == Ok(JNull)
    ensures Truthy(item) ==> (r.Ok? <==> NamesPresent(Prop(item, "authors")) && NamesPresent(Prop(item, "narrators")))
    ensures Truthy(item) && r.Ok? ==>
      HasKeys(r.value, AudiobookKeys) && CopiesFrom(r.value, item, AudiobookCopied)
      && MappedFrom(r.value.fields["authors"], Prop(item, "authors"), NameOf)
      && MappedFrom(r.value.fields["narrators"], Prop(item, "narrators"), NameOf)
      && r.value.fields["external_url"] == ExternalUrl(item)
  {
    if !Truthy(item) then Ok(JNull)
    else
      var authors :- MapStrict(Prop(item, "authors"), NameOf);
      var narrators :- MapStrict(Prop(item, "narrators"), NameOf);
      Ok(JObj(Pick(item, AudiobookCopied)
                ["authors" := authors]
                ["narrators" := narrators]
                ["external_url" := ExternalUrl(item)]))
  }

  const PageKeys: set<string> := {"total", "limit", "offset", "next", "items"}

  /** processPagingObject: undefined for a falsy envelope; otherwise its counters and its items mapped with `f`. */
  function ProcessPagingObject(page: Json, f: Json -> Result<Json>): (r: Result<Json>)
    ensures !Truthy(page) ==> r == Ok(JUndef)
    ensures Truthy(page) ==>
      (r.Ok? <==> MappableStrict(Prop(page, "items"), f))
    ensures Truthy(page) && r.Ok? ==>
      HasKeys(r.value, PageKeys) && CopiesFrom(r.value, page, PageKeys - {"items"})
      && MappedFrom(r.value.fields["items"], Prop(page, "items"), f)
      && "previous" !in r.value.fields
  {
    if !Truthy(page) then Ok(JUndef)
    else
      var items :- MapStrict(Prop(page, "items"), f);
      Ok(JObj(Pick(page, PageKeys - {"items"})["items" := items]))
  }
}
