/** JavaScript value semantics that the two Kalshi handlers rely on: the values
    JSON.parse produces, truthiness, `== null`, property access, `||` chains,
    `String.prototype.toLowerCase` and the `Number(x)` coercion. */
module Js {

  datatype Option<T> = None | Some(value: T)

  /** `a ?? b` on two optional results. */
  function OrElse<T>(a: Option<T>, b: Option<T>): (r: Option<T>)
    ensures a.Some? ==> r == a
    ensures a.None? ==> r == b
  {
    if a.Some? then a else b
  }

  /** The outcome of evaluating an expression: a value, or a thrown TypeError. */
  datatype Completion<T> = Normal(value: T) | Throw

  /** A value as produced by JSON.parse, plus `undefined` for a missing property.
      JSON numbers are abstracted to reals; a literal beyond the double range,
      which `JSON.parse` reads as `Infinity`, is not modelled. */
  datatype Json =
    | Undefined
    | Null
    | Bool(b: bool)
    | Num(n: real)
    | Str(s: string)
    | Arr(items: seq<Json>)
    | Obj(fields: map<string, Json>)

  /** The result of `Number(x)`: an IEEE double abstracted to a real, or one of the
      three non-finite values. */
  datatype JsNumber = Finite(r: real) | NaN | PosInf | NegInf

  /** `x == null` in JavaScript (loose equality): null or undefined. */
  predicate Nullish(v: Json) {
    v.Undefined? || v.Null?
  }

  /** JavaScript truthiness of a JSON value. */
  predicate Truthy(v: Json) {
    match v
    case Undefined => false
    case Null => false
    case Bool(b) => b
    case Num(n) => n != 0.0
    case Str(s) => s != []
    case Arr(_) => true
    case Obj(_) => true
  }

  /** `v.name` for a value that is not null or undefined (those throw, so callers
      check first). Only own data properties of parsed objects are modelled. */
  function Prop(v: Json, name: string): (r: Json)
    requires !Nullish(v)
    ensures r != Undefined ==> v.Obj? && name in v.fields && r == v.fields[name]
    ensures v.Obj? && name in v.fields ==> r == v.fields[name]
  {
    match v
    case Obj(fields) => if name in fields then fields[name] else Undefined
    case _ => Undefined
  }

  /** `v?.name`: optional chaining yields undefined on null or undefined. */
  function OptProp(v: Json, name: string): (r: Json)
    ensures Nullish(v) ==> r == Undefined
    ensures !Nullish(v) ==> r == Prop(v, name)
  {
    if Nullish(v) then Undefined else Prop(v, name)
  }

  /** `xs[0] || xs[1] || ... || fallback`: the first truthy operand, else the fallback. */
  function FirstTruthy(xs: seq<Json>, fallback: Json): (r: Json)
    ensures (forall i :: 0 <= i < |xs| ==> !Truthy(xs[i])) ==> r == fallback
    ensures forall k :: 0 <= k < |xs| && Truthy(xs[k]) && (forall i :: 0 <= i < k ==> !Truthy(xs[i])) ==> r == xs[k]
    ensures Truthy(fallback) ==> Truthy(r)
  {
    if xs == [] then fallback
    else if Truthy(xs[0]) then xs[0]
    else FirstTruthy(xs[1..], fallback)
  }

  /** ASCII case mapping; see README for why this is exact for the words compared here. */
  function LowerChar(c: char): (d: char)
    ensures 'A' <= c <= 'Z' ==> d as int == c as int + 32
    ensures !('A' <= c <= 'Z') ==> d == c
  {
    if 'A' <= c <= 'Z' then (c as int + 32) as char else c
  }

  /** `s.toLowerCase()` */
  function Lower(s: string): (t: string)
    ensures |t| == |s|
    ensures forall i :: 0 <= i < |s| ==> t[i] == LowerChar(s[i])
  {
    seq(|s|, i requires 0 <= i < |s| => LowerChar(s[i]))
  }

  /** Comparing `s.toLowerCase()` with a lower-case word is a case-insensitive
      match: each character is the word's letter or its upper-case form. */
  lemma LowerMatches(s: string, w: string)
    requires forall i :: 0 <= i < |w| ==> 'a' <= w[i] <= 'z'
    ensures Lower(s) == w <==>
      |s| == |w| && forall i :: 0 <= i < |s| ==> s[i] == w[i] || s[i] as int == w[i] as int - 32
  {
    if |s| == |w| && forall i :: 0 <= i < |s| ==> s[i] == w[i] || s[i] as int == w[i] as int - 32 {
      assert forall i :: 0 <= i < |s| ==> Lower(s)[i] == w[i];
    }
  }

  // ---------------------------------------------------------------------------
  // Number(x) on strings: the StringNumericLiteral grammar of ECMAScript.

  /** StrWhiteSpaceChar: WhiteSpace and LineTerminator code points. */
  predicate IsWhite(c: char) {
    c == ' ' || c == '\t' || c == '\n' || c == '\r' || c == '\U{000B}' || c == '\U{000C}'
    || c == '\U{00A0}' || c == '\U{1680}' || ('\U{2000}' <= c <= '\U{200A}')
    || c == '\U{2028}' || c == '\U{2029}' || c == '\U{202F}' || c == '\U{205F}'
    || c == '\U{3000}' || c == '\U{FEFF}'
  }

  function TrimStart(s: string): (t: string)
    ensures t == [] || !IsWhite(t[0])
    ensures |t| <= |s| && t == s[|s| - |t|..]
  {
    if s != [] && IsWhite(s[0]) then TrimStart(s[1..]) else s
  }

  function TrimEnd(s: string): (t: string)
    ensures t == [] || !IsWhite(t[|t| - 1])
    ensures |t| <= |s| && t == s[..|t|]
  {
    if s != [] && IsWhite(s[|s| - 1]) then TrimEnd(s[..|s| - 1]) else s
  }

  /** Only leading white space is removed, and all of it. */
  lemma {:induction false} TrimStartRemovesWhite(s: string)
    ensures var t := TrimStart(s);
      forall i :: 0 <= i < |s| - |t| ==> IsWhite(s[i])
  {
    if s != [] && IsWhite(s[0]) {
      TrimStartRemovesWhite(s[1..]);
      assert forall i :: 1 <= i < |s| ==> s[i] == s[1..][i - 1];
    }
  }

  /** Only trailing white space is removed, and all of it. */
  lemma {:induction false} TrimEndRemovesWhite(s: string)
    ensures var t := TrimEnd(s);
      forall i :: |t| <= i < |s| ==> IsWhite(s[i])
  {
    if s != [] && IsWhite(s[|s| - 1]) {
      TrimEndRemovesWhite(s[..|s| - 1]);
      assert forall i :: 0 <= i < |s| - 1 ==> s[i] == s[..|s| - 1][i];
    }
  }

  function Trim(s: string): string {
    TrimEnd(TrimStart(s))
  }

  /** The radixes of numeric literals: binary, octal, decimal, hexadecimal. */
  type Radix = r: nat | r == 2 || r == 8 || r == 10 || r == 16 witness 10

  /** The value of one digit in the given radix, if it is one. */
  function DigitValue(c: char, radix: Radix): (d: Option<nat>)
    ensures d.Some? ==> d.value < radix
  {
    var v :=
      if '0' <= c <= '9' then c as int - '0' as int
      else if 'a' <= c <= 'f' then c as int - 'a' as int + 10
      else if 'A' <= c <= 'F' then c as int - 'A' as int + 10
      else 16;
    if v < radix then Some(v) else None
  }

  predicate AllDigits(s: string, radix: Radix) {
    forall i :: 0 <= i < |s| ==> DigitValue(s[i], radix).Some?
  }

  /** x * radix, spelled with a literal factor for each radix. */
  function Shift(x: nat, radix: Radix): (y: nat)
  {
    if radix == 2 then 2 * x else if radix == 8 then 8 * x else if radix == 16 then 16 * x else 10 * x
  }

  /** The value of a digit string, most significant digit first. */
  function DigitsValue(s: string, radix: Radix): nat
    requires AllDigits(s, radix)
  {
    if s == [] then 0
    else Shift(DigitsValue(s[..|s| - 1], radix), radix) + DigitValue(s[|s| - 1], radix).value
  }

  /** v * 10^e for an integer exponent e. */
  function ScalePow10(v: real, e: int): real
    decreases if e < 0 then -e else e
  {
    if e == 0 then v
    else if e > 0 then ScalePow10(v, e - 1) * 10.0
    else ScalePow10(v, e + 1) / 10.0
  }

  /** The index of the first character of s satisfying the test, or |s|. */
  function IndexOfDot(s: string): (k: nat)
    ensures k <= |s| && (k < |s| ==> s[k] == '.')
    ensures forall i :: 0 <= i < k ==> s[i] != '.'
  {
    if s == [] || s[0] == '.' then 0 else 1 + IndexOfDot(s[1..])
  }

  function IndexOfExponent(s: string): (k: nat)
    ensures k <= |s| && (k < |s| ==> s[k] in "eE")
    ensures forall i :: 0 <= i < k ==> s[i] !in "eE"
  {
    if s == [] || s[0] in "eE" then 0 else 1 + IndexOfExponent(s[1..])
  }

  /** DecimalDigits [. DecimalDigits] or . DecimalDigits, without exponent. */
  function Mantissa(m: string): Option<real> {
    var dot := IndexOfDot(m);
    var whole := m[..dot];
    var frac := if dot < |m| then m[dot + 1..] else [];
    if (whole == [] && frac == []) || !AllDigits(whole, 10) || !AllDigits(frac, 10) then None
    else Some(DigitsValue(whole, 10) as real + ScalePow10(DigitsValue(frac, 10) as real, -|frac|))
  }

  /** The part after `e`/`E`: an optionally signed non-empty digit string. */
  function ExponentPart(x: string): Option<int> {
    if x != [] && x[0] in "+-" then
      var ds := x[1..];
      if ds != [] && AllDigits(ds, 10) then
        var d: int := DigitsValue(ds, 10);
        Some(if x[0] == '-' then -d else d)
      else None
    else if x != [] && AllDigits(x, 10) then Some(DigitsValue(x, 10))
    else None
  }

  /** StrUnsignedDecimalLiteral without the Infinity case. */
  function UnsignedDecimal(u: string): Option<real> {
    var e := IndexOfExponent(u);
    match Mantissa(u[..e])
    case None => None
    case Some(v) =>
      if e == |u| then Some(v)
      else match ExponentPart(u[e + 1..])
        case None => None
        case Some(x) => Some(ScalePow10(v, x))
  }

  /** The radix named by the letter after a leading `0`, for 0x, 0o and 0b literals. */
  function RadixOf(c: char): Option<Radix> {
    if c in "xX" then Some(16) else if c in "oO" then Some(8) else if c in "bB" then Some(2) else None
  }

  /** StringNumericLiteral on a string with no surrounding white space. */
  function TrimmedToNumber(t: string): (n: JsNumber)
    ensures t == [] ==> n == Finite(0.0)
  {
    if t == [] then Finite(0.0)
    else if t == "Infinity" || t == "+Infinity" then PosInf
    else if t == "-Infinity" then NegInf
    else if |t| > 2 && t[0] == '0' && RadixOf(t[1]).Some? then
      var radix := RadixOf(t[1]).value;
      if AllDigits(t[2..], radix) then Finite(DigitsValue(t[2..], radix) as real) else NaN
    else
      var negative := t[0] == '-';
      var u := if t[0] in "+-" then t[1..] else t;
      match UnsignedDecimal(u)
      case None => NaN
      case Some(v) => Finite(if negative then -v else v)
  }

  /** The size of a value as far as `Number(v)` recurses into it. */
  function NumberWeight(v: Json): nat {
    match v
    case Str(s) => |s|
    case Arr(xs) => 1 + (if xs == [] then 0 else NumberWeight(xs[0]))
    case _ => 0
  }

  /** `Number(s)` for a string s: surrounding white space is ignored, so a
      string that has some converts like its trimmed form. */
  function StringToNumber(s: string): (n: JsNumber)
    decreases |s|, 0
  {
    var t := Trim(s);
    if t != s then ToNumber(Str(t)) else TrimmedToNumber(s)
  }

  /** `Number(v)`. An array converts through its `join(",")` string: the empty array
      gives 0, a one-element array converts like its element (null and undefined
      join as the empty string, booleans as words), and any longer array gives a
      string with a comma in it, which is never numeric. An object converts
      through the inherited `toString`, giving "[object Object]", which is not
      numeric either. An object with its own `toString` key (or an array holding
      one) makes `Number` throw instead; that throw is not modelled here. */
  function ToNumber(v: Json): (n: JsNumber)
    ensures v.Undefined? ==> n == NaN
    ensures v.Null? ==> n == Finite(0.0)
    ensures v.Num? ==> n == Finite(v.n)
    ensures v.Obj? ==> n == NaN
    decreases NumberWeight(v), 1
  {
    match v
    case Undefined => NaN
    case Null => Finite(0.0)
    case Bool(b) => Finite(if b then 1.0 else 0.0)
    case Num(x) => Finite(x)
    case Str(s) => StringToNumber(s)
    case Obj(_) => NaN
    case Arr(xs) =>
      if |xs| == 0 then Finite(0.0)
      else if |xs| > 1 then NaN
      else if Nullish(xs[0]) then Finite(0.0)
      else if xs[0].Bool? then NaN
      else ToNumber(xs[0])
  }

  /** The value of a two-character string of decimal digits. */
  function TwoDigitValue(s: string): nat
    requires |s| == 2 && '0' <= s[0] <= '9' && '0' <= s[1] <= '9'
  {
    (s[0] as int - '0' as int) * 10 + (s[1] as int - '0' as int)
  }

  lemma TwoDigitLiteral(s: string)
    requires |s| == 2 && '0' <= s[0] <= '9' && '0' <= s[1] <= '9'
    ensures TrimmedToNumber(s) == Finite(TwoDigitValue(s) as real)
  {
    var d0, d1 := s[0] as int - '0' as int, s[1] as int - '0' as int;
    assert s[..IndexOfExponent(s)] == s by { assert IndexOfExponent(s) == 2; }
    assert Mantissa(s) == Some((d0 * 10 + d1) as real) by {
      assert IndexOfDot(s) == 2;
      assert s[..2] == s;
      assert DigitValue(s[0], 10) == Some(d0);
      assert DigitValue(s[1], 10) == Some(d1);
      assert s[..1][..0] == [];
      assert DigitsValue(s[..1], 10) == d0;
      assert DigitsValue(s, 10) == d0 * 10 + d1;
    }
  }

  /** `Number("d1d2")` for a two-character string of decimal digits. */
  lemma TwoDigitNumber(s: string)
    requires |s| == 2 && '0' <= s[0] <= '9' && '0' <= s[1] <= '9'
    ensures StringToNumber(s) == Finite(TwoDigitValue(s) as real)
  {
    assert TrimStart(s) == s;
    assert TrimEnd(s) == s;
    TwoDigitLiteral(s);
  }

  // ---------------------------------------------------------------------------
  // Properties of Number(x) on strings

  /** `Number` of a string of decimal digits is its decimal value. */
  lemma DecimalDigitsNumber(s: string)
    requires s != [] && AllDigits(s, 10)
    ensures StringToNumber(s) == Finite(DigitsValue(s, 10) as real)
  {
    DigitsUntrimmed(s);
    DigitsUnsigned(s);
    DigitsStart(s);
    UnsignedForm(s);
  }

  lemma DigitsStart(s: string)
    requires s != [] && AllDigits(s, 10)
    ensures s[0] !in "+-I" && !(|s| > 2 && s[0] == '0' && RadixOf(s[1]).Some?)
  {
    assert DigitValue(s[0], 10).Some?;
    assert |s| > 2 ==> DigitValue(s[1], 10).Some?;
  }

  /** A string that starts like an unsigned decimal literal is read as one. */
  lemma UnsignedForm(t: string)
    requires t != [] && t[0] !in "+-I"
    requires !(|t| > 2 && t[0] == '0' && RadixOf(t[1]).Some?)
    ensures TrimmedToNumber(t) == match UnsignedDecimal(t) case None => NaN case Some(v) => Finite(v)
  {
    assert t != "Infinity" && t != "+Infinity" && t != "-Infinity" by {
      assert "Infinity"[0] == 'I' && "+Infinity"[0] == '+' && "-Infinity"[0] == '-';
    }
  }

  lemma DigitsUntrimmed(s: string)
    requires s != [] && AllDigits(s, 10)
    ensures Trim(s) == s && StringToNumber(s) == TrimmedToNumber(s)
  {
    assert DigitValue(s[0], 10).Some? && DigitValue(s[|s| - 1], 10).Some?;
    assert TrimStart(s) == s;
    assert TrimEnd(s) == s;
  }

  /** A digit string is an unsigned decimal literal of its own value. */
  lemma DigitsUnsigned(s: string)
    requires s != [] && AllDigits(s, 10)
    ensures UnsignedDecimal(s) == Some(DigitsValue(s, 10) as real)
  {
    assert forall i :: 0 <= i < |s| ==> s[i] !in "eE" by {
      forall i | 0 <= i < |s| ensures s[i] !in "eE" {
        assert DigitValue(s[i], 10).Some?;
      }
    }
    assert IndexOfExponent(s) == |s|;
    assert s[..|s|] == s;
    DigitsMantissa(s);
  }

  lemma DigitsMantissa(s: string)
    requires s != [] && AllDigits(s, 10)
    ensures Mantissa(s) == Some(DigitsValue(s, 10) as real)
  {
    assert forall i :: 0 <= i < |s| ==> s[i] != '.' by {
      forall i | 0 <= i < |s| ensures s[i] != '.' {
        assert DigitValue(s[i], 10).Some?;
      }
    }
    assert IndexOfDot(s) == |s|;
    assert s[..|s|] == s;
    assert AllDigits([], 10) && DigitsValue([], 10) == 0;
  }

  /** A leading `-` negates a decimal literal. */
  lemma NegatedLiteral(u: string)
    requires UnsignedDecimal(u).Some?
    ensures TrimmedToNumber("-" + u) == Finite(-UnsignedDecimal(u).value)
  {
    NotNegativeInfinity(u);
    NegatedForm(u);
  }

  lemma NotNegativeInfinity(u: string)
    requires UnsignedDecimal(u).Some?
    ensures "-" + u != "-Infinity"
  {
    DecimalStart(u);
    assert ("-" + u)[1] == u[0];
    assert "-Infinity"[1] == 'I';
  }

  /** `-` followed by anything but `Infinity` is read as a negated unsigned
      decimal literal. */
  lemma NegatedForm(u: string)
    requires "-" + u != "-Infinity"
    ensures TrimmedToNumber("-" + u) == match UnsignedDecimal(u) case None => NaN case Some(v) => Finite(-v)
  {
    var t := "-" + u;
    assert t[0] == '-' && t[1..] == u;
    assert t != "Infinity" && t != "+Infinity" by {
      assert "Infinity"[0] == 'I' && "+Infinity"[0] == '+';
    }
  }

  /** An unsigned decimal literal starts with a digit or a dot. */
  lemma DecimalStart(u: string)
    requires UnsignedDecimal(u).Some?
    ensures u != [] && (DigitValue(u[0], 10).Some? || u[0] == '.')
  {
    var m := u[..IndexOfExponent(u)];
    assert Mantissa(m).Some?;
    var dot := IndexOfDot(m);
    if dot == 0 {
      assert dot < |m|;
    } else {
      assert AllDigits(m[..dot], 10);
      assert m[..dot][0] == u[0];
    }
  }

  /** `Number` ignores surrounding white space. */
  lemma SurroundingWhiteIgnored(w: string, s: string, w2: string)
    requires forall i :: 0 <= i < |w| ==> IsWhite(w[i])
    requires forall i :: 0 <= i < |w2| ==> IsWhite(w2[i])
    ensures StringToNumber(w + s + w2) == StringToNumber(s)
  {
    assert w + s + w2 == w + (s + w2);
    TrimStartWhitePrefix(w, s + w2);
    if TrimStart(s) != [] {
      TrimStartAppend(s, w2);
      TrimEndWhiteSuffix(TrimStart(s), w2);
    } else {
      TrimStartAllWhite(s, w2);
      TrimStartWhitePrefix(w2, []);
      assert w2 + [] == w2;
    }
    assert Trim(w + s + w2) == Trim(s);
    NumberOfTrimmed(w + s + w2);
    NumberOfTrimmed(s);
  }

  /** A one-element array converts like its element, unless the element is
      null, undefined or a boolean. */
  lemma SingletonArrayNumber(x: Json)
    requires !Nullish(x) && !x.Bool?
    ensures ToNumber(Arr([x])) == ToNumber(x)
  {
  }

  /** `Number(s)` reads the trimmed string. */
  lemma NumberOfTrimmed(s: string)
    ensures StringToNumber(s) == TrimmedToNumber(Trim(s))
  {
    var t := Trim(s);
    assert TrimStart(t) == t by {
      if t != [] {
        assert t[0] == TrimStart(s)[0];
      }
    }
    assert TrimEnd(t) == t;
    if t != s {
      assert StringToNumber(s) == ToNumber(Str(t));
      assert ToNumber(Str(t)) == StringToNumber(t);
      assert StringToNumber(t) == TrimmedToNumber(t);
    }
  }

  lemma {:induction false} TrimStartWhitePrefix(w: string, x: string)
    requires forall i :: 0 <= i < |w| ==> IsWhite(w[i])
    ensures TrimStart(w + x) == TrimStart(x)
    decreases |w|
  {
    if w == [] {
      assert w + x == x;
    } else {
      assert (w + x)[0] == w[0] && (w + x)[1..] == w[1..] + x;
      TrimStartWhitePrefix(w[1..], x);
    }
  }

  lemma {:induction false} TrimEndWhiteSuffix(x: string, w: string)
    requires forall i :: 0 <= i < |w| ==> IsWhite(w[i])
    ensures TrimEnd(x + w) == TrimEnd(x)
    decreases |w|
  {
    if w == [] {
      assert x + w == x;
    } else {
      var xw := x + w;
      assert xw[|xw| - 1] == w[|w| - 1] && xw[..|xw| - 1] == x + w[..|w| - 1];
      TrimEndWhiteSuffix(x, w[..|w| - 1]);
    }
  }

  lemma {:induction false} TrimStartAppend(x: string, y: string)
    requires TrimStart(x) != []
    ensures TrimStart(x + y) == TrimStart(x) + y
    decreases |x|
  {
    assert (x + y)[0] == x[0] && (x + y)[1..] == x[1..] + y;
    if IsWhite(x[0]) {
      TrimStartAppend(x[1..], y);
    }
  }

  lemma {:induction false} TrimStartAllWhite(x: string, y: string)
    requires TrimStart(x) == []
    ensures TrimStart(x + y) == TrimStart(y)
    decreases |x|
  {
    if x == [] {
      assert x + y == y;
    } else {
      assert (x + y)[0] == x[0] && (x + y)[1..] == x[1..] + y;
      TrimStartAllWhite(x[1..], y);
    }
  }
}
