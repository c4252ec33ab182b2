/**
 * The authentication service: whether the user has signed in and the access
 * token obtained, the authorization link of the OAuth 2.0 authorization-code
 * flow (section 4.1.1 of RFC 6749), and the exchange of the returned code for a
 * token (section 4.1.3 of RFC 6749). Environment variables are a value `Env`;
 * Base64 and form encoding are functions passed in.
 */
module Auth {
  import opened Js
  import opened Text
  import Http
  import AuthUtils

  /** SPOTIFY_CLIENT_ID, SPOTIFY_CLIENT_SECRET and SPOTIFY_REDIRECT_URI; `None` when unset. */
  datatype Env = Env(clientId: Option<string>, clientSecret: Option<string>, redirectUri: Option<string>)

  /** The scopes requested, group by group as the source lists them. */
  const ConnectScopes: seq<string> := ["user-read-playback-state", "user-modify-playback-state", "user-read-currently-playing"]
  const PlaylistScopes: seq<string> :=
    ["playlist-read-private", "playlist-read-collaborative", "playlist-modify-private", "playlist-modify-public"]
  const FollowScopes: seq<string> := ["user-follow-modify", "user-follow-read"]
  const HistoryScopes: seq<string> := ["user-read-playback-position", "user-top-read", "user-read-recently-played"]
  const LibraryScopes: seq<string> := ["user-library-modify", "user-library-read"]
  const UserScopes: seq<string> := ["user-read-email", "user-read-private"]

  /** The sixteen scopes, in the order they are listed. */
  const Scopes: seq<string> :=
    ConnectScopes + PlaylistScopes + FollowScopes + HistoryScopes + LibraryScopes + UserScopes

  const AuthorizeEndpoint: string := "https://accounts.spotify.com/authorize"
  const TokenEndpoint: string := "https://accounts.spotify.com/api/token"

  /** The query of the authorization link, in the order URLSearchParams receives it. */
  function AuthQuery(env: Env, state: string): (q: seq<(string, string)>)
    ensures |q| == 5
    ensures q[0] == ("response_type", "code") && q[1] == ("client_id", env.clientId.GetOr(""))
    ensures q[2] == ("scope", Join(Scopes, " ")) && q[3] == ("redirect_uri", env.redirectUri.GetOr(""))
    ensures q[4] == ("state", state)
  {
    [("response_type", "code"),
     ("client_id", env.clientId.GetOr("")),
     ("scope", Join(Scopes, " ")),
     ("redirect_uri", env.redirectUri.GetOr("")),
     ("state", state)]
  }

  /** The unshortened authorization link. */
  function AuthLink(env: Env, state: string, encode: seq<(string, string)> -> string): string {
    AuthorizeEndpoint + "?" + encode(AuthQuery(env, state))
  }

  /** The state generateAuthLink sends: sixteen characters from the random string generator. */
  function AuthState(draw: nat -> int): string {
    AuthUtils.RandomString(draw, 16)
  }

  /** The space-delimited scope parameter (section 3.3 of RFC 6749) splits back into the sixteen scopes in order. */
  lemma ScopeParameterRoundTrip()
    ensures |Scopes| == 16
    ensures Split(Join(Scopes, " "), ' ') == Scopes
  {
    ScopesLackSpaces();
    SplitJoin(Scopes, ' ');
  }

  predicate NoneContain(parts: seq<string>, c: char) {
    forall i :: 0 <= i < |parts| ==> c !in parts[i]
  }

  lemma NoneContainConcat(a: seq<string>, b: seq<string>, c: char)
    requires NoneContain(a, c) && NoneContain(b, c)
    ensures NoneContain(a + b, c)
  {
  }

  lemma ConnectScopesLackSpaces()
    ensures NoneContain(ConnectScopes, ' ')
  {
  }

  lemma PlaylistScopesLackSpaces()
    ensures NoneContain(PlaylistScopes, ' ')
  {
  }

  lemma FollowScopesLackSpaces()
    ensures NoneContain(FollowScopes, ' ')
  {
  }

  lemma HistoryScopesLackSpaces()
    ensures NoneContain(HistoryScopes, ' ')
  {
  }

  lemma LibraryScopesLackSpaces()
    ensures NoneContain(LibraryScopes, ' ')
  {
  }

  lemma UserScopesLackSpaces()
    ensures NoneContain(UserScopes, ' ')
  {
  }

  lemma ScopesLackSpaces()
    ensures NoneContain(Scopes, ' ')
  {
    ConnectScopesLackSpaces();
    PlaylistScopesLackSpaces();
    FollowScopesLackSpaces();
    HistoryScopesLackSpaces();
    LibraryScopesLackSpaces();
    UserScopesLackSpaces();
    NoneContainConcat(ConnectScopes, PlaylistScopes, ' ');
    NoneContainConcat(ConnectScopes + PlaylistScopes, FollowScopes, ' ');
    NoneContainConcat(ConnectScopes + PlaylistScopes + FollowScopes, HistoryScopes, ' ');
    NoneContainConcat(ConnectScopes + PlaylistScopes + FollowScopes + HistoryScopes, LibraryScopes, ' ');
    NoneContainConcat(ConnectScopes + PlaylistScopes + FollowScopes + HistoryScopes + LibraryScopes, UserScopes, ' ');
  }

  /** The state is sixteen characters of the alphabet whenever the draws are in range. */
  lemma AuthStateShape(draw: nat -> int)
    requires AuthUtils.InRangeDraws(draw, 16)
    ensures |AuthState(draw)| == 16
    ensures forall k :: 0 <= k < 16 ==> AuthState(draw)[k] == AuthUtils.Alphabet[draw(k)]
  {
    AuthUtils.RandomStringShape(draw, 16);
  }

  /**
   * generateAuthLink as written: it returns whatever shortenURL resolves to. Since
   * shortenURL never rejects, its catch block, which would return the long link, is
   * never reached, and a failed shortening hands the user the string "ERROR".
   */
  function GenerateAuthLinkAsWritten(env: Env, draw: nat -> int, encode: seq<(string, string)> -> string,
                                     outcome: Http.Outcome): (link: Json)
    ensures Http.Succeeded(outcome) ==> link == outcome.body
    ensures !Http.Succeeded(outcome) ==> link == JStr("ERROR")
  {
    var longLink := AuthLink(env, AuthState(draw), encode);
    match AuthUtils.ShortenURL(longLink, outcome)
    case Ok(short) => short
    case Thrown(_) => JStr(longLink)
  }

  /** A failed shortening gives "ERROR", never the authorization link. */
  lemma ShorteningFailureLosesLink(env: Env, draw: nat -> int, encode: seq<(string, string)> -> string)
    ensures GenerateAuthLinkAsWritten(env, draw, encode, Http.NoReply) == JStr("ERROR")
    ensures GenerateAuthLinkAsWritten(env, draw, encode, Http.NoReply) != JStr(AuthLink(env, AuthState(draw), encode))
  {
    var longLink := AuthLink(env, AuthState(draw), encode);
    assert |longLink| > |"ERROR"|;
  }

  /** generateAuthLink as intended: the short link when shortening succeeds, the long link when it fails. */
  function GenerateAuthLink(env: Env, draw: nat -> int, encode: seq<(string, string)> -> string,
                            outcome: Http.Outcome): (link: Json)
    ensures Http.Succeeded(outcome) ==> link == outcome.body
    ensures !Http.Succeeded(outcome) ==> link == JStr(AuthLink(env, AuthState(draw), encode))
  {
    var longLink := AuthLink(env, AuthState(draw), encode);
    if Http.Succeeded(outcome) then outcome.body else JStr(longLink)
  }

  /** Every link generateAuthLink can yield leads to the authorization endpoint, or is the shortener's answer. */
  lemma GenerateAuthLinkNeverErrors(env: Env, draw: nat -> int, encode: seq<(string, string)> -> string, outcome: Http.Outcome)
    ensures var link := GenerateAuthLink(env, draw, encode, outcome);
      Http.Succeeded(outcome) || (link.JStr? && link.s[..|AuthorizeEndpoint| + 1] == AuthorizeEndpoint + "?")
  {
  }

  // ---------------------------------------------------------------------------
  // The token exchange.

  /** A request to the token endpoint: HTTP method, URL, headers and the form-encoded body. */
  datatype TokenRequest = TokenRequest(verb: Http.Method, url: string, headers: seq<(string, string)>, body: string)

  /** What the token endpoint's fetch produced: a status and the parsed JSON body (`None` when it is not JSON), or a rejection. */
  datatype TokenReply = Fetched(status: int, json: Option<Json>) | FetchFailed

  /** The `user-id:password` string of the Basic scheme (section 2 of RFC 7617). */
  function BasicUserPass(env: Env): string {
    env.clientId.GetOr("") + ":" + env.clientSecret.GetOr("")
  }

  /** The form fields of the token request (section 4.1.3 of RFC 6749). */
  function TokenForm(code: string, env: Env): (form: seq<(string, string)>)
    ensures form == [("code", code), ("redirect_uri", env.redirectUri.GetOr("")), ("grant_type", "authorization_code")]
  {
    [("code", code), ("redirect_uri", env.redirectUri.GetOr("")), ("grant_type", "authorization_code")]
  }

  function TokenExchangeRequest(code: string, env: Env, base64: string -> string,
                                formEncode: seq<(string, string)> -> string): (req: TokenRequest)
    ensures req.verb == Http.Post
    ensures req.url == TokenEndpoint
    ensures req.headers == [("Content-Type", "application/x-www-form-urlencoded"),
                            ("Authorization", "Basic " + base64(BasicUserPass(env)))]
    ensures req.body == formEncode(TokenForm(code, env))
  {
    TokenRequest(Http.Post, TokenEndpoint,
                 [("Content-Type", "application/x-www-form-urlencoded"),
                  ("Authorization", "Basic " + base64(BasicUserPass(env)))],
                 formEncode(TokenForm(code, env)))
  }

  /** Splits at the first `c`, as a Basic-scheme server splits `user-id:password`. */
  function SplitAtFirst(s: string, c: char): (r: (string, string))
    ensures c !in s ==> r == (s, "")
  {
    if s == [] then ("", "")
    else if s[0] == c then ("", s[1..])
    else
      var rest := SplitAtFirst(s[1..], c);
      assert s == [s[0]] + s[1..];
      ([s[0]] + rest.0, rest.1)
  }

  /** A client id without a colon is recovered, with the secret, from the Basic credentials. */
  lemma {:induction false} BasicUserPassRoundTrip(id: string, secret: string)
    requires ':' !in id
    ensures SplitAtFirst(id + ":" + secret, ':') == (id, secret)
  {
    if id == [] {
      assert id + ":" + secret == [':'] + secret;
    } else {
      BasicUserPassRoundTrip(id[1..], secret);
      assert (id + ":" + secret)[1..] == id[1..] + ":" + secret;
      assert [id[0]] + id[1..] == id;
    }
  }

  /** receiveToken succeeds exactly on an ok reply whose JSON body is neither null nor undefined. */
  predicate TokenAccepted(reply: TokenReply) {
    reply.Fetched? && Http.IsSuccess(reply.status) && reply.json.Some? && !Nullish(reply.json.value)
  }

  class AuthService {
    var authenticated: bool
    var accessToken: Json

    /** A fresh service: not signed in, no token. */
    constructor ()
      ensures !authenticated && accessToken == JNull
    {
      authenticated := false;
      accessToken := JNull;
    }

    method SetAuthenticated(value: bool)
      modifies this
      ensures authenticated == value && accessToken == old(accessToken)
    {
      authenticated := value;
    }

    method IsAuthenticated() returns (value: bool)
      ensures value == authenticated
    {
      value := authenticated;
    }

    method GetAccessToken() returns (token: Json)
      ensures token == accessToken
    {
      token := accessToken;
    }

    /** The state the request functions read. */
    function Credentials(): Http.Credentials
      reads this
    {
      Http.Credentials(authenticated, accessToken)
    }

    /**
     * receiveToken: sends the code to the token endpoint and, on an ok reply with a
     * JSON body, stores `access_token` and marks the user signed in. Every failure
     * returns false before any field is written. `state` is not checked.
     */
    method ReceiveToken(code: string, state: string, env: Env, base64: string -> string,
                        formEncode: seq<(string, string)> -> string, reply: TokenReply)
      returns (ok: bool, sent: TokenRequest)
      modifies this
      ensures sent == TokenExchangeRequest(code, env, base64, formEncode)
      ensures ok <==> TokenAccepted(reply)
      ensures ok ==> authenticated && accessToken == Prop(reply.json.value, "access_token")
      ensures !ok ==> authenticated == old(authenticated) && accessToken == old(accessToken)
    {
      var clientId := env.clientId.GetOr("");
      var clientSecret := env.clientSecret.GetOr("");
      var redirectUri := env.redirectUri.GetOr("");
      var body := formEncode([("code", code), ("redirect_uri", redirectUri), ("grant_type", "authorization_code")]);
      var authHeader := "Basic " + base64(clientId + ":" + clientSecret);
      sent := TokenRequest(Http.Post, TokenEndpoint,
                           [("Content-Type", "application/x-www-form-urlencoded"), ("Authorization", authHeader)],
                           body);
      match reply {
        case FetchFailed =>
          return false, sent;
        case Fetched(status, json) =>
          if !Http.IsSuccess(status) {
            return false, sent;
          }
          if json.None? {
            return false, sent;
          }
          var data := json.value;
          if Nullish(data) {
            return false, sent;
          }
          accessToken := Prop(data, "access_token");
          SetAuthenticated(true);
          return true, sent;
      }
    }
  }

  /** A failed exchange after a successful one keeps the first token: failures never clear the state. */
  method ReceiveTwice(service: AuthService, env: Env, base64: string -> string,
                      formEncode: seq<(string, string)> -> string, first: TokenReply, second: TokenReply)
    returns (okFirst: bool, okSecond: bool)
    modifies service
    ensures okFirst == TokenAccepted(first) && okSecond == TokenAccepted(second)
    ensures okFirst && !okSecond ==> service.authenticated && service.accessToken == Prop(first.json.value, "access_token")
    ensures okSecond ==> service.authenticated && service.accessToken == Prop(second.json.value, "access_token")
    ensures !okFirst && !okSecond ==> service.authenticated == old(service.authenticated)
                                        && service.accessToken == old(service.accessToken)
  {
    var sent;
    okFirst, sent := service.ReceiveToken("code-1", "state-1", env, base64, formEncode, first);
    okSecond, sent := service.ReceiveToken("code-2", "state-2", env, base64, formEncode, second);
  }
}
