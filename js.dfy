/**
 * The JavaScript runtime semantics the core depends on: raw JSON values as the
 * remote API returns them, truthiness, property access (`v.k` throws on a nullish
 * `v`, `v?.k` does not), `Array.prototype.map` with a callback that may throw,
 * `a || b`, and the string conversion template literals and `new Error(x)` apply.
 */
module Js {
  import Text

  datatype Option<+T> = None | Some(value: T) {
    /** The value when present, otherwise the default `d`. */
    function GetOr(d: T): T {
      match this
      case Some(v) => v
      case None => d
    }
  }

  /** A raw JSON value; `JUndef` is JavaScript's `undefined` (an absent field). */
  datatype Json =
    | JNull
    | JUndef
    | JBool(b: bool)
    | JNum(n: int)
    | JStr(s: string)
    | JArr(items: seq<Json>)
    | JObj(fields: map<string, Json>)

  /** What a `throw` carries: a runtime TypeError, or an `Error` with a message. */
  datatype Exn = TypeError | Error(message: string)

  /** The outcome of evaluating JavaScript code that may throw. */
  datatype Result<+T> = Ok(value: T) | Thrown(exn: Exn) {
    predicate IsFailure() {
      Thrown?
    }

    function PropagateFailure<U>(): Result<U>
      requires Thrown?
    {
      Thrown(exn)
    }

    function Extract(): T
      requires Ok?
    {
      value
    }
  }

  predicate Nullish(v: Json) {
    v.JNull? || v.JUndef?
  }

  /** JavaScript truthiness (numbers are integers here, so NaN does not arise). */
  predicate Truthy(v: Json) {
    match v
    case JNull => false
    case JUndef => false
    case JBool(b) => b
    case JNum(n) => n != 0
    case JStr(s) => s != ""
    case JArr(_) => true
    case JObj(_) => true
  }

  /** `v?.k`. For a value that is not nullish this is also `v.k`. */
  function Prop(v: Json, k: string): Json {
    if v.JObj? && k in v.fields then v.fields[k] else JUndef
  }

  /** `v.k`: a TypeError when `v` is null or undefined. */
  function Member(v: Json, k: string): (r: Result<Json>)
    ensures r.Ok? <==> !Nullish(v)
    ensures r.Ok? ==> r.value == Prop(v, k)
  {
    if Nullish(v) then Thrown(TypeError) else Ok(Prop(v, k))
  }

  /** The first element of an array; undefined for an empty array or a nullish value. */
  function First(v: Json): Json {
    match v
    case JArr(xs) => if |xs| > 0 then xs[0] else JUndef
    case _ => Prop(v, "0")
  }

  /** `a` when it is truthy, otherwise `b`. */
  function Or(a: Json, b: Json): Json {
    if Truthy(a) then a else b
  }

  /** Applies `f` to each element in order; the first element whose callback throws ends the map. */
  function MapAll<U>(xs: seq<Json>, f: Json -> Result<U>): (r: Result<seq<U>>)
    ensures r.Ok? <==> forall i :: 0 <= i < |xs| ==> f(xs[i]).Ok?
    ensures r.Ok? ==> |r.value| == |xs| && forall i :: 0 <= i < |xs| ==> r.value[i] == f(xs[i]).value
  {
    if xs == [] then Ok([])
    else
      var head :- f(xs[0]);
      var tail :- MapAll(xs[1..], f);
      assert forall i :: 1 <= i < |xs| ==> xs[i] == xs[1..][i - 1];
      Ok([head] + tail)
  }

  /** `v.map(f)`: a TypeError unless `v` is an array. */
  function CallMap<U>(v: Json, f: Json -> Result<U>): (r: Result<seq<U>>)
    ensures !v.JArr? ==> r == Thrown(TypeError)
    ensures v.JArr? ==> r == MapAll(v.items, f)
  {
    if v.JArr? then MapAll(v.items, f) else Thrown(TypeError)
  }

  /** `v?.map(f) || []`: an absent collection becomes empty (a mapped array is always truthy). */
  function MapOrEmpty<U>(v: Json, f: Json -> Result<U>): (r: Result<seq<U>>)
    ensures Nullish(v) ==> r == Ok([])
    ensures !Nullish(v) ==> r == CallMap(v, f)
  {
    if Nullish(v) then Ok([]) else CallMap(v, f)
  }

  /** `x => x.name`, the callback that turns artists, authors and narrators into names. */
  function NameOf(x: Json): Result<Json> {
    Member(x, "name")
  }

  /** A list whose names can be read: an array none of whose elements is null or undefined. */
  predicate NamesPresent(v: Json) {
    v.JArr? && forall i :: 0 <= i < |v.items| ==> !Nullish(v.items[i])
  }

  /** Reading every name of a list succeeds exactly when the names are present, and gives them in order. */
  lemma NamesOk(v: Json)
    ensures CallMap(v, NameOf).Ok? <==> NamesPresent(v)
    ensures CallMap(v, NameOf).Ok? ==>
      |CallMap(v, NameOf).value| == |v.items|
      && forall i :: 0 <= i < |v.items| ==> CallMap(v, NameOf).value[i] == Prop(v.items[i], "name")
  {
  }

  function DigitChar(d: nat): char
    requires d < 10
  {
    "0123456789"[d]
  }

  function NatToDecimal(n: nat): (s: string)
    ensures |s| >= 1
    decreases n
  {
    if n < 10 then [DigitChar(n)] else NatToDecimal(n / 10) + [DigitChar(n % 10)]
  }

  /** `String(v)`, as a template literal or `new Error(v)` applies it. */
  function ToJsString(v: Json): string
    decreases v
  {
    match v
    case JNull => "null"
    case JUndef => "undefined"
    case JBool(b) => if b then "true" else "false"
    case JNum(n) => if n < 0 then "-" + NatToDecimal(-n) else NatToDecimal(n)
    case JStr(s) => s
    case JArr(xs) =>
      // Array.prototype.toString: elements joined by commas, null and undefined shown empty
      Text.Join(seq(|xs|, i requires 0 <= i < |xs| =>
                    if Nullish(xs[i]) then "" else ToJsString(xs[i])), ",")
    case JObj(_) => "[object Object]"
  }

  /** A string argument that may be left out, as the value that lands in a params object. */
  function OptStr(o: Option<string>): Json {
    match o
    case Some(s) => JStr(s)
    case None => JUndef
  }

  function OptNum(o: Option<int>): Json {
    match o
    case Some(n) => JNum(n)
    case None => JUndef
  }

  function OptBool(o: Option<bool>): Json {
    match o
    case Some(b) => JBool(b)
    case None => JUndef
  }

  /** Truthiness of an optional string argument. */
  predicate TruthyStr(o: Option<string>) {
    o.Some? && o.value != ""
  }

  /** `n || d` for an optional numeric argument: 0 and absence both give `d`. */
  function NumOr(o: Option<int>, d: int): (r: int)
    ensures o.Some? && o.value != 0 ==> r == o.value
    ensures (o.None? || o.value == 0) ==> r == d
  {
    if o.Some? && o.value != 0 then o.value else d
  }

  function StrArray(xs: seq<string>): (r: Json)
    ensures r.JArr? && |r.items| == |xs|
    ensures forall i :: 0 <= i < |xs| ==> r.items[i] == JStr(xs[i])
  {
    JArr(seq(|xs|, i requires 0 <= i < |xs| => JStr(xs[i])))
  }
}
