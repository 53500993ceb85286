/**
 * The JavaScript values the scraper handles: a parsed JSON document, the
 * `undefined` that a missing property yields, and the handful of implicit
 * conversions the controller relies on (truthiness, `||`, `<`, `parseFloat`,
 * string concatenation), together with the values on which a conversion
 * throws.
 */
module JsValues {

  datatype Option<+T> = None | Some(value: T)

  /** A thrown JavaScript error. Only TypeErrors can arise in the modelled code. */
  datatype JsError = TypeError(message: string)

  datatype Result<+T> = Ok(value: T) | Err(error: JsError)

  /** A value produced by `JSON.parse`. Numbers are exact rationals; an object
      keeps one value per key, as `JSON.parse` keeps the last duplicate. */
  datatype Json =
    | JNull
    | JBool(b: bool)
    | JNum(n: real)
    | JStr(s: string)
    | JArr(items: seq<Json>)
    | JObj(members: map<string, Json>)

  /** `!!v`, where `None` stands for `undefined`. */
  predicate Truthy(v: Option<Json>)
  {
    match v
    case None => false
    case Some(JNull) => false
    case Some(JBool(b)) => b
    case Some(JNum(n)) => n != 0.0
    case Some(JStr(s)) => s != ""
    case Some(_) => true
  }

  /** `v || fallback`. */
  function Or(v: Option<Json>, fallback: Json): (r: Json)
    ensures Truthy(Some(r)) || r == fallback
  {
    if Truthy(v) then v.value else fallback
  }

  /** `v?.[key]` for a key that is neither an array index nor the name of a
      built-in property: only an object member can answer it. */
  function Member(v: Option<Json>, key: string): Option<Json>
  {
    if v.Some? && v.value.JObj? && key in v.value.members then Some(v.value.members[key]) else None
  }

  /** `v?.[i]` for an array index `i`. */
  function Element(v: Option<Json>, i: nat): Option<Json>
  {
    match v
    case Some(JArr(a)) => if i < |a| then Some(a[i]) else None
    case Some(JObj(m)) => if NatString(i) in m then Some(m[NatString(i)]) else None
    case Some(JStr(s)) => if i < |s| then Some(JStr([s[i]])) else None
    case _ => None
  }

  function DigitChar(d: nat): char
    requires d < 10
  {
    ('0' as int + d) as char
  }

  /** The decimal digits of `n`. */
  function NatString(n: nat): string
  {
    if n < 10 then [DigitChar(n)] else NatString(n / 10) + [DigitChar(n % 10)]
  }

  function IntString(i: int): string
  {
    if i < 0 then "-" + NatString(-i) else NatString(i)
  }

  /** `String(v)`. A number is printed as its integer part, which is what
      JavaScript prints for an integer below 10^21 in magnitude. */
  function JsString(v: Json): string
    decreases v, 1
  {
    match v
    case JNull => "null"
    case JBool(b) => if b then "true" else "false"
    case JNum(n) => IntString(n.Floor)
    case JStr(s) => s
    case JObj(_) => "[object Object]"
    case JArr(a) => JoinItems(v, |a|)
  }

  /** `a.slice(0, k).join(",")` for `v == JArr(a)`: null items print as "". */
  function JoinItems(v: Json, k: nat): string
    requires v.JArr? && k <= |v.items|
    decreases v, 0, k
  {
    if k == 0 then ""
    else
      var item := v.items[k - 1];
      var text := if item == JNull then "" else JsString(item);
      if k == 1 then text else JoinItems(v, k - 1) + "," + text
  }

  /** Whether converting `v` to a primitive throws a TypeError, as `String(v)`,
      `parseFloat(v)`, `v > 0` and `"..." + v` all do first. `JSON.parse` gives
      no value a callable member, so an object with its own `toString` member
      cannot be converted: its inherited `valueOf` returns the object itself
      and its `toString` cannot be called. An array converts through `join`,
      which converts every item that is not null. Other values always convert.
      The conversions below give the result for values that do not throw. */
  predicate ToPrimitiveThrows(v: Json)
  {
    match v
    case JObj(m) => "toString" in m
    case JArr(a) => exists i :: 0 <= i < |a| && ToPrimitiveThrows(a[i])
    case _ => false
  }

  /** The error a failed conversion throws. */
  const ConversionError := TypeError("Cannot convert object to primitive value")

  /** `s.includes(needle)` on strings. */
  predicate HasSubstring(s: string, needle: string)
  {
    |needle| <= |s| && (s[..|needle|] == needle || HasSubstring(s[1..], needle))
  }

  // ---------------------------------------------------------------------
  // Numeric conversions

  predicate IsDigit(c: char)
  {
    '0' <= c <= '9'
  }

  /** The white space and line terminators that `parseFloat` and `Number` skip. */
  predicate IsSpace(c: char)
  {
    c == '\t' || c == '\n' || c == '\U{B}' || c == '\U{C}' || c == '\r' || c == ' '
    || c == '\U{A0}' || c == '\U{1680}' || ('\U{2000}' <= c <= '\U{200A}')
    || c == '\U{2028}' || c == '\U{2029}' || c == '\U{202F}' || c == '\U{205F}'
    || c == '\U{3000}' || c == '\U{FEFF}'
  }

  function TrimStart(s: string): (r: string)
    ensures |r| <= |s|
  {
    if s != [] && IsSpace(s[0]) then TrimStart(s[1..]) else s
  }

  function TrimEnd(s: string): (r: string)
    ensures |r| <= |s|
  {
    if s != [] && IsSpace(s[|s| - 1]) then TrimEnd(s[..|s| - 1]) else s
  }

  function LeadingDigits(s: string): (n: nat)
    ensures n <= |s|
    ensures forall i :: 0 <= i < n ==> IsDigit(s[i])
  {
    if s == [] || !IsDigit(s[0]) then 0 else 1 + LeadingDigits(s[1..])
  }

  function DigitsValue(s: string): nat
    requires forall i :: 0 <= i < |s| ==> IsDigit(s[i])
  {
    if s == [] then 0
    else
      assert IsDigit(s[|s| - 1]);
      10 * DigitsValue(s[..|s| - 1]) + (s[|s| - 1] as int - '0' as int)
  }

  function Pow10(k: nat): (r: real)
    ensures r >= 1.0
  {
    if k == 0 then 1.0 else 10.0 * Pow10(k - 1)
  }

  /** The longest prefix of `u` that is an exponent part (`e`, an optional
      sign, digits), as its scale factor and its length; (1, 0) if none. */
  function ExponentPrefix(u: string): (r: (real, nat))
    ensures r.1 <= |u| && r.0 > 0.0
  {
    if u == [] || (u[0] != 'e' && u[0] != 'E') then (1.0, 0)
    else
      var signed := |u| > 1 && (u[1] == '+' || u[1] == '-');
      var start := if signed then 2 else 1;
      var k := LeadingDigits(u[start..]);
      if k == 0 then (1.0, 0)
      else
        var e := DigitsValue(u[start..start + k]);
        (if signed && u[1] == '-' then 1.0 / Pow10(e) else Pow10(e), start + k)
  }

  /** The longest prefix of `t` that is an unsigned decimal literal (digits,
      an optional fraction, an optional exponent), as its value and length. */
  function UnsignedDecimalPrefix(t: string): (r: Option<(real, nat)>)
    ensures r.Some? ==> 0 < r.value.1 <= |t|
  {
    var i := LeadingDigits(t);
    var dot := i < |t| && t[i] == '.';
    var j := if dot then LeadingDigits(t[i + 1..]) else 0;
    if i + j == 0 then None
    else
      var fraction := if dot then DigitsValue(t[i + 1..i + 1 + j]) as real / Pow10(j) else 0.0;
      var end := if dot then i + 1 + j else i;
      var exponent := ExponentPrefix(t[end..]);
      Some(((DigitsValue(t[..i]) as real + fraction) * exponent.0, end + exponent.1))
  }

  /** The longest prefix of `t` that is a signed decimal literal. */
  function DecimalPrefix(t: string): (r: Option<(real, nat)>)
    ensures r.Some? ==> 0 < r.value.1 <= |t|
  {
    if t != [] && (t[0] == '+' || t[0] == '-') then
      match UnsignedDecimalPrefix(t[1..])
      case None => None
      case Some(p) => Some((if t[0] == '-' then -p.0 else p.0, p.1 + 1))
    else UnsignedDecimalPrefix(t)
  }

  /** `parseFloat(s)`; `None` is NaN. */
  function ParseFloat(s: string): Option<real>
  {
    match DecimalPrefix(TrimStart(s))
    case None => None
    case Some(p) => Some(p.0)
  }

  /** `Number(s)` for a string: the whole trimmed text must be a decimal
      literal, and blank text is 0. */
  function StringToNumber(s: string): Option<real>
  {
    var t := TrimEnd(TrimStart(s));
    if t == [] then Some(0.0)
    else match DecimalPrefix(t)
      case Some(p) => if p.1 == |t| then Some(p.0) else None
      case None => None
  }

  /** `Number(v)`; `None` is NaN. Arrays and objects go through their string form. */
  function ToNumber(v: Json): Option<real>
  {
    match v
    case JNull => Some(0.0)
    case JBool(b) => Some(if b then 1.0 else 0.0)
    case JNum(n) => Some(n)
    case JStr(s) => StringToNumber(s)
    case _ => StringToNumber(JsString(v))
  }

  /** `parseFloat(v) || 0`: the rating key of the controller. */
  function RatingValue(v: Json): real
  {
    match v
    case JNum(n) => n
    case _ =>
      match ParseFloat(JsString(v))
      case Some(r) => r
      case None => 0.0
  }

  /** Code-unit order on strings, as `<` compares two strings. */
  predicate StringLess(s: string, t: string)
  {
    if s == [] then t != []
    else if t == [] then false
    else if s[0] != t[0] then s[0] < t[0]
    else StringLess(s[1..], t[1..])
  }

  /** Whether `v` becomes a string when converted to a primitive. */
  predicate IsStringLike(v: Json)
  {
    v.JStr? || v.JArr? || v.JObj?
  }

  /** `a < b` (the abstract relational comparison): two string-like operands
      compare as strings, anything else as numbers, and NaN compares false. */
  predicate LooseLess(a: Json, b: Json)
  {
    if IsStringLike(a) && IsStringLike(b) then StringLess(JsString(a), JsString(b))
    else
      var x, y := ToNumber(a), ToNumber(b);
      x.Some? && y.Some? && x.value < y.value
  }

  /** `v > 0`. */
  predicate Positive(v: Json)
  {
    LooseLess(JNum(0.0), v)
  }
}
