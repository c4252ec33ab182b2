/**
 * The request bodies and params objects that the write endpoints fill field by field,
 * `if (arg !== undefined) body.key = arg`. The shared request module and the playlist
 * and player modules build them the same way. Each builder is a loop-free sequence of
 * conditional in-place updates; each predicate states which keys end up present and
 * what they hold.
 */
module Bodies {
  import opened Js
  import Text

  // ---------------------------------------------------------------------------
  // startResumePlayback

  /** Context and uri list when truthy (every array is truthy), offset when truthy, position when given. */
  predicate ResumeBody(body: map<string, Json>, contextUri: Option<string>, uris: Option<seq<string>>, offset: Json,
                       positionMs: Option<int>) {
    body.Keys <= {"context_uri", "uris", "offset", "position_ms"}
    && ("context_uri" in body <==> TruthyStr(contextUri))
    && ("context_uri" in body ==> body["context_uri"] == JStr(contextUri.value))
    && ("uris" in body <==> uris.Some?)
    && ("uris" in body ==> body["uris"] == StrArray(uris.value))
    && ("offset" in body <==> Truthy(offset))
    && ("offset" in body ==> body["offset"] == offset)
    && ("position_ms" in body <==> positionMs.Some?)
    && ("position_ms" in body ==> body["position_ms"] == JNum(positionMs.value))
  }

  method BuildResumeBody(contextUri: Option<string>, uris: Option<seq<string>>, offset: Json, positionMs: Option<int>)
    returns (body: map<string, Json>)
    ensures ResumeBody(body, contextUri, uris, offset, positionMs)
  {
    body := map[];
    if TruthyStr(contextUri) {
      body := body["context_uri" := JStr(contextUri.value)];
    }
    if uris.Some? {
      body := body["uris" := StrArray(uris.value)];
    }
    if Truthy(offset) {
      body := body["offset" := offset];
    }
    if positionMs.Some? {
      body := body["position_ms" := JNum(positionMs.value)];
    }
  }

  /** The arguments determine the body: the predicate is a complete description of it. */
  lemma ResumeBodyUnique(b1: map<string, Json>, b2: map<string, Json>, contextUri: Option<string>,
                         uris: Option<seq<string>>, offset: Json, positionMs: Option<int>)
    requires ResumeBody(b1, contextUri, uris, offset, positionMs)
    requires ResumeBody(b2, contextUri, uris, offset, positionMs)
    ensures b1 == b2
  {
    assert b1.Keys == b2.Keys;
  }

  // ---------------------------------------------------------------------------
  // changePlaylistDetails

  /** Exactly the details that were given, each under its key. */
  predicate DetailsBody(body: map<string, Json>, name: Option<string>, description: Option<string>,
                        publicPlaylist: Option<bool>, collaborative: Option<bool>) {
    body.Keys <= {"name", "description", "public", "collaborative"}
    && ("name" in body <==> name.Some?)
    && ("name" in body ==> body["name"] == JStr(name.value))
    && ("description" in body <==> description.Some?)
    && ("description" in body ==> body["description"] == JStr(description.value))
    && ("public" in body <==> publicPlaylist.Some?)
    && ("public" in body ==> body["public"] == JBool(publicPlaylist.value))
    && ("collaborative" in body <==> collaborative.Some?)
    && ("collaborative" in body ==> body["collaborative"] == JBool(collaborative.value))
  }

  method BuildDetailsBody(name: Option<string>, description: Option<string>, publicPlaylist: Option<bool>,
                          collaborative: Option<bool>)
    returns (body: map<string, Json>)
    ensures DetailsBody(body, name, description, publicPlaylist, collaborative)
  {
    body := map[];
    if name.Some? {
      body := body["name" := JStr(name.value)];
    }
    if description.Some? {
      body := body["description" := JStr(description.value)];
    }
    if publicPlaylist.Some? {
      body := body["public" := JBool(publicPlaylist.value)];
    }
    if collaborative.Some? {
      body := body["collaborative" := JBool(collaborative.value)];
    }
  }

  lemma DetailsBodyUnique(b1: map<string, Json>, b2: map<string, Json>, name: Option<string>,
                          description: Option<string>, publicPlaylist: Option<bool>, collaborative: Option<bool>)
    requires DetailsBody(b1, name, description, publicPlaylist, collaborative)
    requires DetailsBody(b2, name, description, publicPlaylist, collaborative)
    ensures b1 == b2
  {
    assert b1.Keys == b2.Keys;
  }

  // ---------------------------------------------------------------------------
  // updatePlaylistItems

  /**
   * A non-empty uri list goes into the body as the list and into the params comma-joined;
   * the range fields go into the body when given, the snapshot id when non-empty.
   */
  predicate ItemsUpdate(body: map<string, Json>, params: map<string, Json>, uris: Option<seq<string>>,
                        rangeStart: Option<int>, insertBefore: Option<int>, rangeLength: Option<int>,
                        snapshotId: Option<string>) {
    body.Keys <= {"uris", "range_start", "insert_before", "range_length", "snapshot_id"}
    && params.Keys <= {"uris"}
    && ("uris" in body <==> uris.Some? && |uris.value| > 0)
    && ("uris" in params <==> uris.Some? && |uris.value| > 0)
    && ("uris" in body ==> body["uris"] == StrArray(uris.value) && params["uris"] == JStr(Text.Join(uris.value, ",")))
    && ("range_start" in body <==> rangeStart.Some?)
    && ("range_start" in body ==> body["range_start"] == JNum(rangeStart.value))
    && ("insert_before" in body <==> insertBefore.Some?)
    && ("insert_before" in body ==> body["insert_before"] == JNum(insertBefore.value))
    && ("range_length" in body <==> rangeLength.Some?)
    && ("range_length" in body ==> body["range_length"] == JNum(rangeLength.value))
    && ("snapshot_id" in body <==> TruthyStr(snapshotId))
    && ("snapshot_id" in body ==> body["snapshot_id"] == JStr(snapshotId.value))
  }

  method BuildItemsUpdate(uris: Option<seq<string>>, rangeStart: Option<int>, insertBefore: Option<int>,
                          rangeLength: Option<int>, snapshotId: Option<string>)
    returns (body: map<string, Json>, params: map<string, Json>)
    ensures ItemsUpdate(body, params, uris, rangeStart, insertBefore, rangeLength, snapshotId)
  {
    body := map[];
    params := map[];
    if uris.Some? && |uris.value| > 0 {
      body := body["uris" := StrArray(uris.value)];
      params := params["uris" := JStr(Text.Join(uris.value, ","))];
    }
    if rangeStart.Some? {
      body := body["range_start" := JNum(rangeStart.value)];
    }
    if insertBefore.Some? {
      body := body["insert_before" := JNum(insertBefore.value)];
    }
    if rangeLength.Some? {
      body := body["range_length" := JNum(rangeLength.value)];
    }
    if TruthyStr(snapshotId) {
      body := body["snapshot_id" := JStr(snapshotId.value)];
    }
  }

  /** An empty uri list adds nothing: it reaches neither the body nor the params. */
  lemma EmptyUriListAddsNothing(body: map<string, Json>, params: map<string, Json>, rangeStart: Option<int>,
                                insertBefore: Option<int>, rangeLength: Option<int>, snapshotId: Option<string>)
    requires ItemsUpdate(body, params, Some([]), rangeStart, insertBefore, rangeLength, snapshotId)
    ensures params == map[] && "uris" !in body
  {
  }

  /** The comma-joined uris parameter gives back the list when no uri holds a comma. */
  lemma UrisParameterRoundTrip(body: map<string, Json>, params: map<string, Json>, uris: seq<string>,
                               rangeStart: Option<int>, insertBefore: Option<int>, rangeLength: Option<int>,
                               snapshotId: Option<string>)
    requires ItemsUpdate(body, params, Some(uris), rangeStart, insertBefore, rangeLength, snapshotId)
    requires |uris| > 0 && forall i :: 0 <= i < |uris| ==> ',' !in uris[i]
    ensures params["uris"].JStr? && Text.Split(params["uris"].s, ',') == uris
  {
    Text.SplitJoin(uris, ',');
  }

  // ---------------------------------------------------------------------------
  // addItemsToPlaylist

  /** The uri list always; the position in both the body and the params when given. */
  predicate ItemsAddition(body: map<string, Json>, params: map<string, Json>, uris: seq<string>, position: Option<int>) {
    body.Keys == {"uris"} + (if position.Some? then {"position"} else {})
    && body["uris"] == StrArray(uris)
    && params.Keys == (if position.Some? then {"position"} else {})
    && (position.Some? ==> body["position"] == JNum(position.value) && params["position"] == JNum(position.value))
  }

  method BuildItemsAddition(uris: seq<string>, position: Option<int>)
    returns (body: map<string, Json>, params: map<string, Json>)
    ensures ItemsAddition(body, params, uris, position)
  {
    body := map["uris" := StrArray(uris)];
    if position.Some? {
      body := body["position" := JNum(position.value)];
    }
    params := map[];
    if position.Some? {
      params := params["position" := JNum(position.value)];
    }
  }

  /** `Object.keys(params).length > 0` holds exactly when a position was given. */
  lemma AdditionParamsNonEmpty(body: map<string, Json>, params: map<string, Json>, uris: seq<string>, position: Option<int>)
    requires ItemsAddition(body, params, uris, position)
    ensures |params| > 0 <==> position.Some?
  {
    if position.Some? {
      assert "position" in params;
    }
  }
}
