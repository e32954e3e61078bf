/**
 * Loosely typed values as the JavaScript and PHP sides see them, with the
 * few language rules the core relies on: truthiness, the nullish `??`
 * chain, the `||` chain, ASCII lower-casing and the trailing-slash strip.
 */
module JsValues {

  datatype Option<+T> = None | Some(value: T) {
    function GetOr(default: T): T {
      match this
      case Some(v) => v
      case None => default
    }
  }

  datatype Result<+T, +E> = Ok(value: T) | Err(error: E)

  type byte = bv8

  /** A JavaScript number: a finite value or one of the three non-finite ones. */
  datatype Number = Finite(r: real) | NaN | Infinity | NegInfinity

  /**
   * A value of unknown shape: what `JSON.parse`, an Express request body or
   * a decoded PHP array can hold. `Buf` is a Node.js Buffer.
   */
  datatype Value =
    | Undefined
    | Null
    | Bool(b: bool)
    | Num(n: Number)
    | Str(s: string)
    | Arr(items: seq<Value>)
    | Obj(fields: map<string, Value>)
    | Buf(bytes: seq<byte>)

  /**
   * The runtime's parsing and encoding primitives, left uninterpreted:
   * `JSON.parse` (None when it throws), `JSON.stringify`, a Buffer's UTF-8
   * decoding and `Number.parseFloat`.
   */
  datatype Runtime = Runtime(
    parseJson: string -> Option<Value>,
    stringify: Value -> string,
    utf8Decode: seq<byte> -> string,
    parseFloat: string -> Number)

  /** JavaScript truthiness: `undefined`, `null`, `false`, `0`, `NaN` and `''` are falsy. */
  predicate Truthy(v: Value) {
    match v
    case Undefined => false
    case Null => false
    case Bool(b) => b
    case Num(n) => !(n == NaN || n == Finite(0.0))
    case Str(s) => s != ""
    case Arr(_) => true
    case Obj(_) => true
    case Buf(_) => true
  }

  predicate Nullish(v: Value) {
    v.Undefined? || v.Null?
  }

  /** `a ?? b` */
  function Coalesce(a: Value, b: Value): (r: Value)
    ensures !Nullish(a) ==> r == a
    ensures Nullish(a) ==> r == b
  {
    if Nullish(a) then b else a
  }

  /** `a || b`: the left operand when truthy, otherwise the right one (whatever it is). */
  function OrElse(a: Value, b: Value): (r: Value)
    ensures Truthy(a) ==> r == a
    ensures !Truthy(a) ==> r == b
  {
    if Truthy(a) then a else b
  }

  /** Property lookup on a plain object; a missing key reads as `undefined`. */
  function Field(fields: map<string, Value>, key: string): Value {
    if key in fields then fields[key] else Undefined
  }

  /** `record?.key` where the record may be absent. */
  function FieldOf(rec: Option<map<string, Value>>, key: string): (r: Value)
    ensures rec.None? ==> r == Undefined
    ensures rec.Some? && key in rec.value ==> r == rec.value[key]
    ensures rec.Some? && key !in rec.value ==> r == Undefined
  {
    match rec
    case None => Undefined
    case Some(f) => Field(f, key)
  }

  function LowerChar(c: char): char {
    if 'A' <= c <= 'Z' then (c as int + 32) as char else c
  }

  /** `String.prototype.toLowerCase`, restricted to ASCII letters. */
  function Lower(s: string): (r: string)
    ensures |r| == |s|
    ensures forall i :: 0 <= i < |s| ==> r[i] == LowerChar(s[i])
  {
    seq(|s|, i requires 0 <= i < |s| => LowerChar(s[i]))
  }

  /** Lower-casing twice is lower-casing once, so re-normalising a topic changes nothing. */
  lemma LowerIdempotent(s: string)
    ensures Lower(Lower(s)) == Lower(s)
  {
    assert forall i :: 0 <= i < |s| ==> LowerChar(LowerChar(s[i])) == LowerChar(s[i]);
  }

  /** Lower-casing never produces an upper-case ASCII letter. */
  lemma LowerHasNoUpper(s: string, i: int)
    requires 0 <= i < |s|
    ensures !('A' <= Lower(s)[i] <= 'Z')
  {
  }

  /** A string without upper-case ASCII letters is its own lower-case form. */
  lemma LowerKeepsLowercase(s: string)
    requires forall i :: 0 <= i < |s| ==> !('A' <= s[i] <= 'Z')
    ensures Lower(s) == s
  {
  }

  predicate EndsWithSlash(s: string) {
    |s| > 0 && s[|s| - 1] == '/'
  }

  /** `s.replace(/\/$/, '')`: removes one trailing slash, if there is one. */
  function StripTrailingSlash(s: string): (r: string)
    ensures EndsWithSlash(s) ==> r + "/" == s
    ensures !EndsWithSlash(s) ==> r == s
  {
    if EndsWithSlash(s) then s[..|s| - 1] else s
  }

  predicate StartsWith(s: string, prefix: string) {
    |prefix| <= |s| && s[..|prefix|] == prefix
  }
}
