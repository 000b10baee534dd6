/** The few pieces of JavaScript semantics the inventory engine relies on:
    the `||` default idiom, arithmetic and comparison on values that may be
    `null`, `undefined` or `NaN`, and `String.prototype.trim`. */
module JsValues {
  import opened Wrappers

  /** `v || fallback` for a number that may be absent: `undefined` and `0`
      are both falsy, so both give the fallback. */
  function JsOr(v: Option<int>, fallback: int): (r: int)
    ensures v == None || v == Some(0) ==> r == fallback
    ensures v.Some? && v.value != 0 ==> r == v.value
  {
    match v
    case Some(x) => if x != 0 then x else fallback
    case None => fallback
  }

  /** A JavaScript value in a numeric position: an integer, `null`,
      `undefined`, or the `NaN` that arithmetic on `undefined` yields. */
  datatype JsNumber = Num(n: int) | Null | Undefined | NaN {

    /** `x == null` (loose equality): true of `null` and `undefined` only. */
    predicate IsNullish() {
      Null? || Undefined?
    }

    /** `this * k`: `null` coerces to 0, `undefined` and `NaN` give `NaN`. */
    function Times(k: int): (r: JsNumber)
      ensures Num? ==> r == Num(n * k)
      ensures Null? ==> r == Num(0)
      ensures Undefined? || NaN? ==> r == NaN
    {
      match this
      case Num(x) => Num(x * k)
      case Null => Num(0)
      case _ => NaN
    }

    /** `q - this`: `null` coerces to 0, `undefined` and `NaN` give `NaN`. */
    function SubtractedFrom(q: int): (r: JsNumber)
      ensures Num? ==> r == Num(q - n)
      ensures Null? ==> r == Num(q)
      ensures Undefined? || NaN? ==> r == NaN
    {
      match this
      case Num(x) => Num(q - x)
      case Null => Num(q)
      case _ => NaN
    }

    /** `this > 0`: every comparison with `NaN` is false. */
    predicate IsPositive() {
      Num? && n > 0
    }
  }

  /** The characters `String.prototype.trim` removes: the ECMAScript
      WhiteSpace and LineTerminator code points. */
  predicate IsWhiteSpace(c: char) {
    || c in {'\t', '\n', '\U{000B}', '\U{000C}', '\r', ' ', '\U{00A0}', '\U{1680}'}
    || c in {'\U{2028}', '\U{2029}', '\U{202F}', '\U{205F}', '\U{3000}', '\U{FEFF}'}
    || '\U{2000}' <= c <= '\U{200A}'
  }

  /** True when `s` holds at least one character that is not white space. */
  predicate HasNonWhiteSpace(s: string) {
    exists i :: 0 <= i < |s| && !IsWhiteSpace(s[i])
  }

  /** Drops the leading white space of `s`. */
  function TrimStart(s: string): (r: string)
    ensures |r| <= |s| && r == s[|s| - |r|..]
    ensures forall i :: 0 <= i < |s| - |r| ==> IsWhiteSpace(s[i])
    ensures r != [] ==> !IsWhiteSpace(r[0])
    decreases |s|
  {
    if s != [] && IsWhiteSpace(s[0]) then TrimStart(s[1..]) else s
  }

  /** Drops the trailing white space of `s`. */
  function TrimEnd(s: string): (r: string)
    ensures |r| <= |s| && r == s[..|r|]
    ensures forall i :: |r| <= i < |s| ==> IsWhiteSpace(s[i])
    ensures r != [] ==> !IsWhiteSpace(r[|r| - 1])
    decreases |s|
  {
    if s != [] && IsWhiteSpace(s[|s| - 1]) then TrimEnd(s[..|s| - 1]) else s
  }

  /** `s.trim()`: empty exactly when `s` is made of white space only. */
  function Trim(s: string): (r: string)
    ensures |r| <= |s|
    ensures r == [] <==> !HasNonWhiteSpace(s)
  {
    var t := TrimStart(s);
    assert t != [] ==> !IsWhiteSpace(s[|s| - |t|]);
    TrimEnd(t)
  }
}
