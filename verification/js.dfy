/** The fragments of JavaScript semantics the handlers rely on: parsed JSON
    request bodies, truthiness, `String.prototype.length` (UTF-16 code units),
    `startsWith`, `includes` and the decimal rendering of a non-negative number. */
module Js {

  /** A JSON value as `req.json()` returns it. Numbers are kept as integers;
      arrays and objects nested inside a body are only ever tested for
      truthiness, so their contents are not kept. */
  datatype JsonValue =
    | JString(s: string)
    | JNumber(n: int)
    | JBool(b: bool)
    | JNull
    | JComposite

  /** The outcome of `await req.json()`: a syntax error, a top-level object,
      or some other top-level value (array, string, number, ...). */
  datatype RequestBody =
    | Malformed
    | Object(fields: map<string, JsonValue>)
    | NotObject(value: JsonValue)

  /** JavaScript truthiness of a JSON value. */
  predicate Truthy(v: JsonValue)
  {
    match v
    case JString(s) => s != ""
    case JNumber(n) => n != 0
    case JBool(b) => b
    case JNull => false
    case JComposite => true
  }

  /** Number of UTF-16 code units of one character. */
  function Units(c: char): nat
  {
    if c as int < 0x1_0000 then 1 else 2
  }

  /** `s.length` in JavaScript: characters outside the Basic Multilingual
      Plane count as two code units. */
  function Utf16Length(s: string): (n: nat)
    ensures |s| <= n <= 2 * |s|
  {
    if s == [] then 0 else Units(s[0]) + Utf16Length(s[1..])
  }

  lemma {:induction false} Utf16LengthAppend(a: string, b: string)
    ensures Utf16Length(a + b) == Utf16Length(a) + Utf16Length(b)
  {
    if a == [] {
      assert a + b == b;
    } else {
      assert (a + b)[1..] == a[1..] + b;
      Utf16LengthAppend(a[1..], b);
    }
  }

  predicate StartsWith(s: string, prefix: string)
  {
    |prefix| <= |s| && s[..|prefix|] == prefix
  }

  /** `s.includes(sub)`. */
  predicate Includes(s: string, sub: string)
    decreases |s|
  {
    StartsWith(s, sub) || (s != [] && Includes(s[1..], sub))
  }

  function DigitChar(d: nat): (c: char)
    requires d < 10
    ensures '0' <= c <= '9'
  {
    "0123456789"[d]
  }

  /** The decimal rendering `${n}` of a non-negative integer. */
  function Decimal(n: nat): (r: string)
    ensures r != []
    ensures forall i :: 0 <= i < |r| ==> '0' <= r[i] <= '9'
  {
    if n < 10 then [DigitChar(n)] else Decimal(n / 10) + [DigitChar(n % 10)]
  }

  /** The number a string of decimal digits denotes. */
  function DecimalValue(s: string): nat
    requires forall i :: 0 <= i < |s| ==> '0' <= s[i] <= '9'
  {
    if s == [] then 0 else DecimalValue(s[..|s| - 1]) * 10 + (s[|s| - 1] as int - '0' as int)
  }

  /** The rendering reads back as the number, with no leading zero. */
  lemma {:induction false} DecimalRoundTrip(n: nat)
    ensures DecimalValue(Decimal(n)) == n
    ensures Decimal(n)[0] == '0' ==> n == 0
  {
    if n >= 10 {
      DecimalRoundTrip(n / 10);
      var r := Decimal(n);
      assert r[..|r| - 1] == Decimal(n / 10);
      assert r[0] == Decimal(n / 10)[0];
    } else {
      assert "0123456789"[n] as int - '0' as int == n;
    }
  }
}
