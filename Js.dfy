/** The JavaScript values the handlers pass around (parsed JSON bodies, query values,
    environment variables, gateway responses) and the few language operations they
    apply to them: truthiness and `||`, optional property access `?.`, `String(v)`
    and `Number(v)`. */
module Js {
  import opened Text

  datatype Option<T> = None | Some(value: T)

  /** A JavaScript value. Numbers are integers here; `JObj` is an object's own properties. */
  datatype Json =
    | JUndef
    | JNull
    | JBool(b: bool)
    | JNum(n: int)
    | JStr(s: string)
    | JArr(items: seq<Json>)
    | JObj(fields: map<string, Json>)

  /** JavaScript truthiness: `undefined`, `null`, `false`, `0` and `""` are falsy. */
  predicate Truthy(v: Json) {
    match v
    case JUndef => false
    case JNull => false
    case JBool(b) => b
    case JNum(n) => n != 0
    case JStr(s) => s != ""
    case _ => true
  }

  /** `a || b`. */
  function Or(a: Json, b: Json): Json {
    if Truthy(a) then a else b
  }

  /** `a ?? b`. */
  function Coalesce(a: Json, b: Json): Json {
    if a == JUndef || a == JNull then b else a
  }

  /** `vs[0] || vs[1] || ... || vs[n-1]`. */
  function FirstTruthy(vs: seq<Json>): Json
    requires vs != []
  {
    if |vs| == 1 then vs[0] else Or(vs[0], FirstTruthy(vs[1..]))
  }

  /** The position a chain of `||` takes its value from. */
  function FirstTruthyIndex(vs: seq<Json>): (k: nat)
    requires vs != []
    ensures k < |vs|
    ensures forall j :: 0 <= j < k ==> !Truthy(vs[j])
    ensures Truthy(vs[k]) || k == |vs| - 1
  {
    if |vs| == 1 || Truthy(vs[0]) then 0 else 1 + FirstTruthyIndex(vs[1..])
  }

  /** A chain of `||` yields its first truthy operand, or its last operand when none is truthy. */
  lemma {:induction false} FirstTruthyIsFirst(vs: seq<Json>)
    requires vs != []
    ensures FirstTruthy(vs) == vs[FirstTruthyIndex(vs)]
  {
    if |vs| > 1 && !Truthy(vs[0]) {
      FirstTruthyIsFirst(vs[1..]);
    }
  }

  /** A chain of `||` is truthy exactly when one of its operands is. */
  lemma TruthyChain(vs: seq<Json>)
    requires vs != []
    ensures Truthy(FirstTruthy(vs)) <==> exists i :: 0 <= i < |vs| && Truthy(vs[i])
  {
    FirstTruthyIsFirst(vs);
  }

  /** `o?.[k]`: a missing property, or any property of a non-object, is `undefined`. */
  function Get(o: Json, k: string): Json {
    if o.JObj? && k in o.fields then o.fields[k] else JUndef
  }

  /** `a?.[i]` on an array. */
  function At(a: Json, i: nat): Json {
    if a.JArr? && i < |a.items| then a.items[i] else JUndef
  }

  /** `v && typeof v === "object"`: a (non-null) object or array. */
  predicate IsObjectLike(v: Json) {
    v.JArr? || v.JObj?
  }

  /** `Array.isArray(v?.data) ? v.data[0] : v?.data || v`: the transaction inside a gateway
      envelope (`{data: [tx]}`, `{data: tx}` or `tx` itself). */
  function Unwrap(v: Json): (r: Json)
    ensures Get(v, "data").JArr? ==> r == At(Get(v, "data"), 0)
    ensures !Get(v, "data").JArr? && Truthy(Get(v, "data")) ==> r == Get(v, "data")
    ensures !Truthy(Get(v, "data")) ==> r == v
  {
    var d := Get(v, "data");
    if d.JArr? then At(d, 0) else Or(d, v)
  }

  /** `String(v)`. Arrays are joined with "," and their `null`/`undefined` elements print as "". */
  function ToStr(v: Json): string {
    match v
    case JUndef => "undefined"
    case JNull => "null"
    case JBool(b) => if b then "true" else "false"
    case JNum(n) => IntToString(n)
    case JStr(s) => s
    case JArr(items) => JoinItems(items)
    case JObj(_) => "[object Object]"
  }

  function JoinItems(items: seq<Json>): string
    decreases items
  {
    if items == [] then ""
    else
      var first := if items[0] == JUndef || items[0] == JNull then "" else ToStr(items[0]);
      if |items| == 1 then first else first + "," + JoinItems(items[1..])
  }

  /** A JavaScript number as the handlers can produce it: NaN, the infinities, or an
      exact decimal `m * 10^e` (binary floating point is not modelled). */
  datatype Num = NaN | PosInf | NegInf | Dec(m: int, e: int)

  function Int(n: int): Num {
    Dec(n, 0)
  }

  /** `m * 10^e` as an exact fraction `numerator / denominator`. */
  function Numerator(n: Num): int
    requires n.Dec?
  {
    if n.e >= 0 then n.m * Pow10(n.e) else n.m
  }

  function Denominator(n: Num): nat
    requires n.Dec?
  {
    if n.e >= 0 then 1 else Pow10(-n.e)
  }

  /** A number is truthy unless it is NaN or zero. */
  predicate NumTruthy(n: Num) {
    !n.NaN? && !(n.Dec? && n.m == 0)
  }

  predicate IsInteger(n: Num) {
    n.Dec? && Numerator(n) % Denominator(n) == 0
  }

  function IntValue(n: Num): int
    requires IsInteger(n)
  {
    Numerator(n) / Denominator(n)
  }

  /** `n < k`; every comparison with NaN is false. */
  predicate LessThan(n: Num, k: int) {
    match n
    case NaN => false
    case NegInf => true
    case PosInf => false
    case Dec(_, _) => Numerator(n) < k * Denominator(n)
  }

  /** `Math.round(n * 100)`: halves round towards positive infinity. */
  function RoundTimes100(n: Num): (r: Num)
    ensures n.NaN? <==> r.NaN?
    ensures n.Dec? ==> r.Dec? && r.e == 0
  {
    match n
    case Dec(m, e) =>
      if e + 2 >= 0 then Int(m * Pow10(e + 2))
      else Int((2 * m + Pow10(-(e + 2))) / (2 * Pow10(-(e + 2))))
    case _ => n
  }

  /** `Math.min(n, cap)`. */
  function Min(n: Num, cap: int): Num {
    if n.NaN? then NaN else if LessThan(n, cap) then n else Int(cap)
  }

  /** `[+-]? digits+`, the exponent of a decimal literal. */
  function SignedInteger(x: string): Option<int> {
    if x != [] && (x[0] == '+' || x[0] == '-') then
      (if x[1..] != [] && AllDigits(x[1..]) then
         var v: int := DigitsValue(x[1..]);
         Some(if x[0] == '-' then -v else v)
       else None)
    else if x != [] && AllDigits(x) then Some(DigitsValue(x))
    else None
  }

  /** The position of the first `e` or `E`, or -1. */
  function IndexOfExponent(u: string): (r: int)
    ensures -1 <= r < |u|
    ensures r == -1 <==> 'e' !in u && 'E' !in u
  {
    var a, b := IndexOf(u, 'e'), IndexOf(u, 'E');
    if a < 0 then b else if b < 0 then a else if a < b then a else b
  }

  /** An unsigned decimal literal `digits [. digits] [(e|E) [+-] digits]` with at least one
      digit before the exponent, read as `(m, e)` meaning `m * 10^e`. */
  function DecimalLiteral(u: string): Option<(int, int)> {
    var x := IndexOfExponent(u);
    if x < 0 then Mantissa(u, 0)
    else match SignedInteger(u[x + 1..])
      case None => None
      case Some(exp) => Mantissa(u[..x], exp)
  }

  /** `digits [. digits]` scaled by `10^exp`, with at least one digit. */
  function Mantissa(mant: string, exp: int): Option<(int, int)> {
    var dot := IndexOf(mant, '.');
    var whole := if dot < 0 then mant else mant[..dot];
    var frac := if dot < 0 then "" else mant[dot + 1..];
    if !AllDigits(whole) || !AllDigits(frac) || |whole| + |frac| == 0 then None
    else
      DigitsValueAppend(whole, frac);
      Some((DigitsValue(whole + frac), exp - |frac|))
  }

  /** `Number(s)` for a string: surrounding white space is ignored, the empty string is 0,
      a sign may precede `Infinity` or a decimal literal, anything else is NaN. */
  function StringToNumber(s: string): Num {
    var t := Trim(s);
    if t == "" then Int(0)
    else if t[0] == '+' then UnsignedToNumber(t[1..], false)
    else if t[0] == '-' then UnsignedToNumber(t[1..], true)
    else UnsignedToNumber(t, false)
  }

  function UnsignedToNumber(u: string, negative: bool): Num {
    if u == "Infinity" then (if negative then NegInf else PosInf)
    else
      match DecimalLiteral(u)
      case None => NaN
      case Some(d) => Dec(if negative then -d.0 else d.0, d.1)
  }

  /** `Number(v)`. Objects and arrays convert through their string form. */
  function ToNumber(v: Json): Num {
    match v
    case JUndef => NaN
    case JNull => Int(0)
    case JBool(b) => Int(if b then 1 else 0)
    case JNum(n) => Int(n)
    case JStr(s) => StringToNumber(s)
    case _ => StringToNumber(ToStr(v))
  }

  /** A numeral is a decimal literal with no fraction and no exponent. */
  lemma NumeralLiteral(n: nat)
    ensures DecimalLiteral(NatToString(n)) == Some((n as int, 0))
  {
    var s := NatToString(n);
    assert 'e' !in s && 'E' !in s && '.' !in s by {
      assert forall i :: 0 <= i < |s| ==> IsDigit(s[i]);
    }
    assert IndexOfExponent(s) == -1;
    assert IndexOf(s, '.') == -1;
    var v: int := DigitsValue(s);
    assert Mantissa(s, 0) == Some((v, 0)) by { assert s + "" == s; }
    NatToStringRoundTrip(n);
  }

  lemma NumeralToNumber(n: nat)
    ensures StringToNumber(NatToString(n)) == Int(n)
  {
    var s := NatToString(n);
    assert NoSpace(s) by { assert forall i :: 0 <= i < |s| ==> IsDigit(s[i]); }
    assert s[0] != '+' && s[0] != '-' && s[0] != 'I';
    UnsignedReading(s);
    NumeralLiteral(n);
  }

  /** A minus sign in front of a numeral is read as a negative sign. */
  lemma NegatedReading(s: string)
    requires s != [] && AllDigits(s)
    ensures StringToNumber("-" + s) == UnsignedToNumber(s, true)
  {
    var t := "-" + s;
    assert NoSpace(t) && t[1..] == s by {
      assert forall k :: 0 < k < |t| ==> t[k] == s[k - 1];
    }
    TrimNoSpace(t);
  }

  /** `Number(String(i))` is `i`: the integer numeral reads back as the integer. */
  lemma IntegerToNumber(i: int)
    ensures StringToNumber(IntToString(i)) == Int(i)
  {
    if i >= 0 {
      NumeralToNumber(i);
    } else {
      var s := NatToString(-i);
      NegatedReading(s);
      assert s != "Infinity" by { assert IsDigit(s[0]); }
      NumeralLiteral(-i);
    }
  }

  /** Every character of `whole.frac` is a digit or the point. */
  lemma DigitsAndPoint(whole: string, frac: string)
    requires AllDigits(whole) && AllDigits(frac)
    ensures var s := whole + "." + frac;
      forall i :: 0 <= i < |s| ==> IsDigit(s[i]) || s[i] == '.'
  {
    var s := whole + "." + frac;
    forall i | 0 <= i < |s| ensures IsDigit(s[i]) || s[i] == '.' {
      if i < |whole| { assert s[i] == whole[i]; }
      else if i > |whole| { assert s[i] == frac[i - |whole| - 1]; }
    }
  }

  lemma MantissaOf(whole: string, frac: string)
    requires AllDigits(whole) && AllDigits(frac) && |whole| + |frac| > 0
    ensures AllDigits(whole + frac)
    ensures Mantissa(whole + "." + frac, 0) == Some((DigitsValue(whole + frac), -|frac|))
  {
    DigitsValueAppend(whole, frac);
    var s := whole + "." + frac;
    assert IndexOf(s, '.') == |whole| by {
      assert s[|whole|] == '.';
      assert s[..|whole|] == whole;
      assert '.' !in whole by { assert forall i :: 0 <= i < |whole| ==> IsDigit(whole[i]); }
    }
    assert s[..|whole|] == whole && s[|whole| + 1..] == frac;
  }

  lemma DecimalLiteralOf(whole: string, frac: string)
    requires AllDigits(whole) && AllDigits(frac) && |whole| + |frac| > 0
    ensures AllDigits(whole + frac)
    ensures DecimalLiteral(whole + "." + frac) == Some((DigitsValue(whole + frac), -|frac|))
  {
    var s := whole + "." + frac;
    DigitsAndPoint(whole, frac);
    assert IndexOfExponent(s) == -1 by {
      assert 'e' !in s && 'E' !in s;
    }
    MantissaOf(whole, frac);
  }

  /** A string that has no white space and does not start with a sign is read unsigned. */
  lemma UnsignedReading(s: string)
    requires s != [] && NoSpace(s) && s[0] != '+' && s[0] != '-'
    ensures StringToNumber(s) == UnsignedToNumber(s, false)
  {
    TrimNoSpace(s);
  }

  /** `whole.frac` reads as the exact decimal `(whole frac) * 10^-|frac|`. */
  lemma DecimalToNumber(whole: string, frac: string)
    requires AllDigits(whole) && AllDigits(frac) && |whole| + |frac| > 0
    ensures AllDigits(whole + frac)
    ensures StringToNumber(whole + "." + frac) == Dec(DigitsValue(whole + frac), -|frac|)
  {
    var s := whole + "." + frac;
    DigitsAndPoint(whole, frac);
    assert s[0] != '+' && s[0] != '-' && s[0] != 'I';
    UnsignedReading(s);
    DecimalLiteralOf(whole, frac);
  }

  /** A character that cannot begin a numeric literal, a sign or `Infinity`. */
  predicate NotNumberStart(c: char) {
    !IsDigit(c) && c != '.' && c != '+' && c != '-' && c != 'e' && c != 'E' && c != 'I'
  }

  /** A literal whose first character cannot start a number is not a decimal literal. */
  lemma NoDecimalLiteral(u: string)
    requires u != [] && NotNumberStart(u[0])
    ensures DecimalLiteral(u).None?
  {
    var x := IndexOfExponent(u);
    assert x != 0;
    var mant := if x < 0 then u else u[..x];
    assert mant != [] && mant[0] == u[0];
    var dot := IndexOf(mant, '.');
    assert dot != 0;
    var whole := if dot < 0 then mant else mant[..dot];
    assert whole[0] == u[0] && !AllDigits(whole);
  }

  /** `Number(s)` is NaN when the trimmed text starts with a character no number starts with. */
  lemma NotANumber(s: string)
    requires Trim(s) != [] && NotNumberStart(Trim(s)[0])
    ensures StringToNumber(s).NaN?
  {
    NoDecimalLiteral(Trim(s));
  }

  /** An HTTP request as the handlers read it; `remote` is `req.socket?.remoteAddress`. */
  datatype Request = Request(verb: string, headers: map<string, string>, query: map<string, Json>, body: Json, remote: Json)

  /** `req.headers[name]`. */
  function Header(req: Request, name: string): Json {
    if name in req.headers then JStr(req.headers[name]) else JUndef
  }

  /** `req.query[name]`: a string, an array of strings, or `undefined`. */
  function Query(req: Request, name: string): Json {
    if name in req.query then req.query[name] else JUndef
  }

  /** `process.env[name]`. */
  function EnvVar(env: map<string, string>, name: string): Json {
    if name in env then JStr(env[name]) else JUndef
  }

  /** `typeof body === "string" ? JSON.parse(body) : body`; `parse` stands for `JSON.parse`
      and answers None where it would throw. */
  function ReadBody(body: Json, parse: string -> Option<Json>): Option<Json> {
    if body.JStr? then parse(body.s) else Some(body)
  }

  /** An HTTP response: status code and JSON body. */
  datatype Response = Response(status: int, body: Json)

  /** `res.status(status).json({success: false, [key]: text})`. */
  function Failure(status: int, key: string, text: string): Response {
    Response(status, JObj(map["success" := JBool(false), key := JStr(text)]))
  }
}
