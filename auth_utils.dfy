/**
 * The two helpers of the sign-in flow: the random state string and the link
 * shortener. `Math.random` is an oracle `draw`, where `draw(i)` is the index
 * `Math.floor(Math.random() * 62)` drawn on iteration `i`; the shortener's
 * reply is an outcome passed in.
 */
module AuthUtils {
  import opened Js
  import Http

  /** The 62 characters the state string is drawn from. */
  const Alphabet: string := "ABCDEFGHIJKLMNOPQRSTUVWXYZabcdefghijklmnopqrstuvwxyz0123456789"

  /** Draws the oracle can make for a `Math.floor(Math.random() * 62)`: every index in range. */
  predicate InRangeDraws(draw: nat -> int, n: int) {
    forall i: nat :: i < n ==> 0 <= draw(i) < |Alphabet|
  }

  /** `s.charAt(k)`: the empty string when `k` is out of range. */
  function CharAt(s: string, k: int): string {
    if 0 <= k < |s| then [s[k]] else ""
  }

  /** The string the loop of generateRandomString has built after `n` iterations. */
  function RandomString(draw: nat -> int, n: int): string
    decreases n
  {
    if n <= 0 then "" else RandomString(draw, n - 1) + CharAt(Alphabet, draw(n - 1))
  }

  /** generateRandomString: `length` iterations, each appending the drawn character. */
  method GenerateRandomString(length: int, draw: nat -> int) returns (text: string)
    ensures text == RandomString(draw, length)
    ensures length <= 0 ==> text == ""
    ensures InRangeDraws(draw, length) ==>
      |text| == (if length < 0 then 0 else length)
      && (forall k :: 0 <= k < |text| ==> text[k] == Alphabet[draw(k)])
      && (forall k :: 0 <= k < |text| ==> text[k] in Alphabet)
  {
    text := "";
    var i := 0;
    while i < length
      invariant 0 <= i <= (if length < 0 then 0 else length)
      invariant text == RandomString(draw, i)
    {
      text := text + CharAt(Alphabet, draw(i));
      i := i + 1;
    }
    if length <= 0 {
      assert i == 0;
      assert RandomString(draw, length) == "";
    }
    if InRangeDraws(draw, length) {
      RandomStringShape(draw, length);
    }
  }

  /** With in-range draws the string has one character per iteration, the drawn one. */
  lemma {:induction false} RandomStringShape(draw: nat -> int, n: int)
    requires InRangeDraws(draw, n)
    ensures |RandomString(draw, n)| == (if n <= 0 then 0 else n)
    ensures forall k :: 0 <= k < |RandomString(draw, n)| ==> RandomString(draw, n)[k] == Alphabet[draw(k)]
    decreases n
  {
    if n > 0 {
      RandomStringShape(draw, n - 1);
      var prefix := RandomString(draw, n - 1);
      assert RandomString(draw, n) == prefix + [Alphabet[draw(n - 1)]];
    }
  }

  /** The host and path of the shortening service. */
  const ShortenerUrl: string := "https://is.gd/create.php"

  /** The GET request shortenURL sends: `format=simple` and the long link. */
  function ShortenRequest(urlToShorten: string): (req: Http.Request)
    ensures req.verb == Http.Get && req.url == ShortenerUrl && req.headers == []
    ensures req.params == JObj(map["format" := JStr("simple"), "url" := JStr(urlToShorten)])
  {
    Http.Request(Http.Get, ShortenerUrl, [], JObj(map["format" := JStr("simple"), "url" := JStr(urlToShorten)]), JUndef)
  }

  /**
   * shortenURL: the reply's body on success and the literal "ERROR" on any failure.
   * It never rejects: its catch block turns every failure into that string.
   */
  function ShortenURL(urlToShorten: string, outcome: Http.Outcome): (r: Result<Json>)
    ensures r.Ok?
    ensures Http.Succeeded(outcome) ==> r.value == outcome.body
    ensures !Http.Succeeded(outcome) ==> r.value == JStr("ERROR")
  {
    if Http.Succeeded(outcome) then Ok(outcome.body) else Ok(JStr("ERROR"))
  }
}
