/** The small slice of JavaScript value semantics the email service relies on:
    the values a JSON request body, an environment variable or an HTTP header
    can hold, truthiness (what `!x` and `a || b` test), and strict equality
    (`!==`) on strings. */
module JsValues {

  datatype Option<+T> = None | Some(value: T)

  /** A JavaScript value as it can reach the service: `undefined` (an absent
      property, variable or header), or anything `JSON.parse` produces.
      Numbers are the parsed doubles; `NaN` cannot come out of JSON and is not
      represented. Arrays and objects are compared by identity in JavaScript,
      so they carry their contents only for field lookup. */
  datatype JsVal =
    | Undefined
    | Null
    | JBool(b: bool)
    | JNum(n: real)
    | JStr(s: string)
    | JArr(items: seq<JsVal>)
    | JObj(fields: map<string, JsVal>)

  /** JavaScript truthiness: `undefined`, `null`, `false`, `0`, `-0` and the
      empty string are falsy; every other value, including an empty array or
      object, is truthy. */
  predicate Truthy(v: JsVal) {
    match v
    case Undefined => false
    case Null => false
    case JBool(b) => b
    case JNum(n) => n != 0.0
    case JStr(s) => s != ""
    case JArr(_) => true
    case JObj(_) => true
  }

  /** `a || b`: the first operand when it is truthy, the second otherwise. */
  function Or(a: JsVal, b: JsVal): (r: JsVal)
    ensures Truthy(a) ==> r == a
    ensures !Truthy(a) ==> r == b
    ensures Truthy(r) <==> Truthy(a) || Truthy(b)
  {
    if Truthy(a) then a else b
  }

  /** A `process.env` entry or a Node header value: a string, or `undefined`. */
  function FromOpt(o: Option<string>): JsVal {
    match o
    case None => Undefined
    case Some(s) => JStr(s)
  }

  /** A setting or header that is present and non-empty. */
  predicate IsSet(o: Option<string>) {
    o.Some? && o.value != ""
  }

  lemma TruthyIffSet(o: Option<string>)
    ensures Truthy(FromOpt(o)) <==> IsSet(o)
  {
  }

  /** Values that `===` compares by content rather than by identity. */
  predicate IsPrimitive(v: JsVal) {
    !v.JArr? && !v.JObj?
  }

  /** `===` on two strings: same length and the same character at every
      position, compared front to back. No trimming, no case folding.
      JavaScript compares UTF-16 code units while a Dafny `char` is a Unicode
      scalar value; the two agree on equality for the strings compared here,
      since Node decodes header values as Latin-1 (one code unit per
      character) and environment values are well-formed text. */
  function SameChars(a: string, b: string): bool
    decreases |a|
  {
    if |a| != |b| then false
    else if |a| == 0 then true
    else a[0] == b[0] && SameChars(a[1..], b[1..])
  }

  /** String strict equality is exactly equality of the character sequences. */
  lemma {:induction false} SameCharsIsEquality(a: string, b: string)
    ensures SameChars(a, b) <==> a == b
    decreases |a|
  {
    if |a| == |b| && |a| > 0 {
      SameCharsIsEquality(a[1..], b[1..]);
      if a[0] == b[0] && a[1..] == b[1..] {
        assert a == [a[0]] + a[1..];
        assert b == [b[0]] + b[1..];
      }
    }
  }

  /** `a === b` on primitive values (`NaN` aside, which the model lacks):
      values of different types are never equal. */
  function StrictEquals(a: JsVal, b: JsVal): bool
    requires IsPrimitive(a) && IsPrimitive(b)
  {
    match (a, b)
    case (Undefined, Undefined) => true
    case (Null, Null) => true
    case (JBool(x), JBool(y)) => x == y
    case (JNum(x), JNum(y)) => x == y
    case (JStr(x), JStr(y)) => SameChars(x, y)
    case _ => false
  }

  /** On primitives, `===` is equality of the values themselves. */
  lemma StrictEqualsIsEquality(a: JsVal, b: JsVal)
    requires IsPrimitive(a) && IsPrimitive(b)
    ensures StrictEquals(a, b) <==> a == b
  {
    if a.JStr? && b.JStr? {
      SameCharsIsEquality(a.s, b.s);
    }
  }
}
