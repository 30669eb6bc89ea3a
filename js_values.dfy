/**
 * The JavaScript values that the two listing views keep in their component
 * state, and the few operators of the language whose semantics the views
 * depend on: `%`, strict inequality `!==` and the `.length` property.
 */
module JsValues {

  datatype Option<+T> = None | Some(value: T)

  /** A JavaScript number. `parseFloat` of text that is not a number gives NaN. */
  datatype Number = Finite(x: real) | NaN

  /**
   * One element of a property's `images`: an image record `{url}` as the
   * server sends it, or a File taken from a file input's FileList.
   */
  datatype Attachment = Stored(url: string) | Upload(file: nat)

  /** The values a property record or a draft holds. */
  datatype Value =
    | Str(s: string)
    | Num(n: Number)
    | Files(items: seq<Attachment>)   // an array of image records, or a FileList
    | Account(username: string)       // the owner object `{username}`

  /** `v.length`: strings and array-like values have one; numbers and plain objects give `undefined` (None). */
  function Length(v: Value): (r: Option<nat>)
    ensures r.Some? <==> v.Str? || v.Files?
    ensures v.Str? ==> r == Some(|v.s|)
    ensures v.Files? ==> r == Some(|v.items|)
    ensures r == Some(0) <==> v == Str("") || v == Files([])
  {
    match v
    case Str(s) => Some(|s|)
    case Files(items) => Some(|items|)
    case _ => None
  }

  /** `v !== ''`: strict, so no conversion happens; only the empty string is equal. */
  predicate NotEmptyString(v: Value) {
    v != Str("")
  }

  /** `v !== 0`: strict, so the string "0" is not equal to 0; NaN is never equal to anything. */
  predicate NotZero(v: Value) {
    v != Num(Finite(0.0))
  }

  function Abs(b: int): int {
    if b < 0 then -b else b
  }

  /**
   * JavaScript's `%` on integral operands: the remainder of truncated
   * division, which takes the sign of the dividend (Dafny's `%` is Euclidean
   * and never negative).
   */
  function JsRem(a: int, b: int): (r: int)
    requires b != 0
    ensures a >= 0 ==> r == a % b
    ensures a >= 0 ==> 0 <= r < Abs(b)
    ensures a < 0 ==> -Abs(b) < r <= 0
  {
    if a >= 0 then a % b else -((-a) % b)
  }

  /** The remainder takes the dividend's sign: negating the dividend negates it. */
  lemma JsRemOdd(a: int, b: int)
    requires b != 0
    ensures JsRem(-a, b) == -JsRem(a, b)
  {
  }
}
