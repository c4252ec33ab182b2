/**
 * The session-keyed credential store: each session id maps to an access token and
 * the time it was stored. A token lives for 3600 seconds; an expired entry is
 * deleted the first time a read observes it. Time is a millisecond count `now`
 * passed in by the caller in place of `new Date()`.
 */
module TokenStore {
  import opened Js

  /** 3600 seconds in milliseconds. */
  const TokenTtlMs: int := 3600 * 1000

  datatype TokenData = TokenData(accessToken: string, creation: int)

  /** The age test of getToken: strictly more than 3600 s is expired, so exactly 3600 s is still live. */
  predicate IsExpired(t: TokenData, now: int) {
    now - t.creation > TokenTtlMs
  }

  /** What getToken answers for `sessionId` at time `now` in store state `m`. */
  function Lookup(m: map<string, TokenData>, sessionId: string, now: int): Option<string> {
    if sessionId in m && !IsExpired(m[sessionId], now) then Some(m[sessionId].accessToken) else None
  }

  /** The store state after getToken: an entry found expired is removed, nothing else changes. */
  function Evict(m: map<string, TokenData>, sessionId: string, now: int): map<string, TokenData> {
    if sessionId in m && IsExpired(m[sessionId], now) then m - {sessionId} else m
  }

  class UserTokenStore {
    var sessionToToken: map<string, TokenData>

    constructor ()
      ensures sessionToToken == map[]
    {
      sessionToToken := map[];
    }

    /** Stores `accessToken` under `sessionId`, created at `now`, replacing any earlier entry. */
    method SetToken(sessionId: string, accessToken: string, now: int)
      modifies this
      ensures sessionToToken == old(sessionToToken)[sessionId := TokenData(accessToken, now)]
    {
      sessionToToken := sessionToToken[sessionId := TokenData(accessToken, now)];
    }

    method GetToken(sessionId: string, now: int) returns (token: Option<string>)
      modifies this
      ensures sessionId !in old(sessionToToken) ==> token == None && sessionToToken == old(sessionToToken)
      ensures sessionId in old(sessionToToken) && !IsExpired(old(sessionToToken)[sessionId], now) ==>
        token == Some(old(sessionToToken)[sessionId].accessToken) && sessionToToken == old(sessionToToken)
      ensures sessionId in old(sessionToToken) && IsExpired(old(sessionToToken)[sessionId], now) ==>
        token == None && sessionToToken == old(sessionToToken) - {sessionId}
      ensures token == Lookup(old(sessionToToken), sessionId, now)
      ensures sessionToToken == Evict(old(sessionToToken), sessionId, now)
    {
      if sessionId !in sessionToToken {
        return None;
      }
      var tokenData := sessionToToken[sessionId];
      if now - tokenData.creation > TokenTtlMs {
        sessionToToken := sessionToToken - {sessionId};
        return None;
      }
      return Some(tokenData.accessToken);
    }

    /** getToken(sessionId) !== null, with getToken's eviction as a side effect. */
    method IsAuthenticated(sessionId: string, now: int) returns (authenticated: bool)
      modifies this
      ensures authenticated <==> Lookup(old(sessionToToken), sessionId, now).Some?
      ensures sessionToToken == Evict(old(sessionToToken), sessionId, now)
    {
      var token := GetToken(sessionId, now);
      authenticated := token.Some?;
    }
  }

  // ---------------------------------------------------------------------------
  // Properties of the store's abstract state.

  /** A token stored at `t` is returned for every query time in [t, t + 3600 s] and for none after. */
  lemma TtlWindow(m: map<string, TokenData>, sessionId: string, token: string, t: int, now: int)
    ensures t <= now <= t + TokenTtlMs ==> Lookup(m[sessionId := TokenData(token, t)], sessionId, now) == Some(token)
    ensures now > t + TokenTtlMs ==> Lookup(m[sessionId := TokenData(token, t)], sessionId, now) == None
  {
  }

  /** Storing or reading one session leaves the answer for every other session as it was. */
  lemma OtherSessionsUnaffected(m: map<string, TokenData>, s: string, other: string, token: string, t: int, now: int, later: int)
    requires other != s
    ensures Lookup(m[s := TokenData(token, t)], other, later) == Lookup(m, other, later)
    ensures Lookup(Evict(m, s, now), other, later) == Lookup(m, other, later)
    ensures other in Evict(m, s, now) <==> other in m
  {
  }

  /** Answers of a sequence of getToken calls, each a (session, time) pair, from state `m`. */
  function Answers(m: map<string, TokenData>, calls: seq<(string, int)>): (r: seq<Option<string>>)
    ensures |r| == |calls|
  {
    if calls == [] then []
    else [Lookup(m, calls[0].0, calls[0].1)] + Answers(Evict(m, calls[0].0, calls[0].1), calls[1..])
  }

  /** The state after a sequence of getToken calls. */
  function AfterCalls(m: map<string, TokenData>, calls: seq<(string, int)>): map<string, TokenData> {
    if calls == [] then m else AfterCalls(Evict(m, calls[0].0, calls[0].1), calls[1..])
  }

  /** getToken calls never add entries. */
  lemma {:induction false} CallsOnlyShrink(m: map<string, TokenData>, calls: seq<(string, int)>)
    ensures AfterCalls(m, calls).Keys <= m.Keys
  {
    if calls != [] {
      CallsOnlyShrink(Evict(m, calls[0].0, calls[0].1), calls[1..]);
    }
  }

  /**
   * Once getToken has answered null for a session, every later getToken for it answers null,
   * whatever the clock then says, until a setToken: the expired entry is gone, not merely hidden.
   */
  lemma {:induction false} NullStaysNull(m: map<string, TokenData>, s: string, now: int, calls: seq<(string, int)>)
    requires Lookup(m, s, now) == None
    ensures forall k :: 0 <= k < |calls| && calls[k].0 == s ==> Answers(Evict(m, s, now), calls)[k] == None
    ensures s !in AfterCalls(Evict(m, s, now), calls)
  {
    AbsentStaysAbsent(Evict(m, s, now), s, calls);
  }

  lemma {:induction false} AbsentStaysAbsent(m: map<string, TokenData>, s: string, calls: seq<(string, int)>)
    requires s !in m
    ensures forall k :: 0 <= k < |calls| && calls[k].0 == s ==> Answers(m, calls)[k] == None
    ensures s !in AfterCalls(m, calls)
  {
    if calls != [] {
      var m' := Evict(m, calls[0].0, calls[0].1);
      AbsentStaysAbsent(m', s, calls[1..]);
      forall k | 0 <= k < |calls| && calls[k].0 == s ensures Answers(m, calls)[k] == None {
        if k > 0 {
          assert Answers(m, calls)[k] == Answers(m', calls[1..])[k - 1];
          assert calls[1..][k - 1] == calls[k];
        }
      }
    }
  }

  /** Without eviction an expired token would come back once the clock moved backwards; eviction rules that out. */
  lemma EvictionMatters(s: string, token: string)
    ensures Lookup(map[s := TokenData(token, 0)], s, TokenTtlMs + 1) == None
    ensures Lookup(map[s := TokenData(token, 0)], s, 0) == Some(token)
    ensures Lookup(Evict(map[s := TokenData(token, 0)], s, TokenTtlMs + 1), s, 0) == None
  {
  }
}
