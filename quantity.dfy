/**
  Quantities as the page's JavaScript sees them, and the normalisation the
  quantity input applies to its text: `Math.max(0, parseInt(value || "0", 10))`
  (app.js:106).
 */
module Quantity {
  import opened Wrappers

  /** A JavaScript number held as a coin's quantity or a stored map value.
      `NotFinite` stands for everything `Number.isFinite` rejects: NaN,
      `null` (what JSON makes of NaN), `undefined`, or a non-number value. */
  datatype Qty = Finite(v: real) | NotFinite

  /** `Number.isFinite(q) ? q : 1`, the quantity a coin is valued and shown at
      (app.js:66, app.js:81). */
  function EffectiveQty(q: Qty): (r: real)
    ensures q.Finite? ==> r == q.v
    ensures !q.Finite? ==> r == 1.0
  {
    if q.Finite? then q.v else 1.0
  }

  /** The characters JavaScript's `parseInt` skips at the start of its input:
      WhiteSpace (tab, vertical tab, form feed, ZWNBSP and the Unicode Zs
      category) and LineTerminator. */
  predicate IsJsSpace(ch: char) {
    || ch == '\t' || ch == '\n' || ch == '\U{B}' || ch == '\U{C}' || ch == '\r'
    || ch == ' ' || ch == '\U{A0}' || ch == '\U{1680}'
    || ('\U{2000}' <= ch <= '\U{200A}')
    || ch == '\U{2028}' || ch == '\U{2029}' || ch == '\U{202F}' || ch == '\U{205F}'
    || ch == '\U{3000}' || ch == '\U{FEFF}'
  }

  predicate IsDigit(ch: char) {
    '0' <= ch <= '9'
  }

  predicate AllSpaces(s: string) {
    forall i :: 0 <= i < |s| ==> IsJsSpace(s[i])
  }

  /** No sign, or one `+` or `-`. */
  predicate IsSign(s: string) {
    s == [] || (|s| == 1 && (s[0] == '+' || s[0] == '-'))
  }

  predicate AllDigits(s: string) {
    forall i :: 0 <= i < |s| ==> IsDigit(s[i])
  }

  /** The input with its leading white space removed. */
  function TrimStart(s: string): (t: string)
    ensures |t| <= |s| && t == s[|s| - |t|..]
    ensures AllSpaces(s[..|s| - |t|])
    ensures t == [] || !IsJsSpace(t[0])
  {
    if s != [] && IsJsSpace(s[0]) then TrimStart(s[1..]) else s
  }

  /** The length of the longest run of decimal digits at the start of `s`. */
  function DigitRun(s: string): (n: nat)
    ensures n <= |s| && AllDigits(s[..n])
    ensures n < |s| ==> !IsDigit(s[n])
  {
    if s != [] && IsDigit(s[0]) then 1 + DigitRun(s[1..]) else 0
  }

  /** The value of a string of decimal digits, most significant first. */
  function DigitsValue(d: string): nat
    requires AllDigits(d)
  {
    if d == [] then 0 else 10 * DigitsValue(d[..|d| - 1]) + (d[|d| - 1] as int - '0' as int)
  }

  /** The input with one leading `+` or `-` removed, if there is one. */
  function Unsigned(t: string): string {
    if t != [] && (t[0] == '-' || t[0] == '+') then t[1..] else t
  }

  /** JavaScript's `parseInt(s, 10)`: skip leading white space, take an
      optional sign, read the longest run of decimal digits and stop at the
      first other character. `None` is NaN, the result when there is no digit. */
  function ParseInt(s: string): (r: Option<int>)
  {
    ParseTrimmed(TrimStart(s))
  }

  /** `parseInt` on input that no longer starts with white space. */
  function ParseTrimmed(t: string): Option<int> {
    var u := Unsigned(t);
    var n := DigitRun(u);
    if n == 0 then None
    else if t[0] == '-' then Some(-(DigitsValue(u[..n]) as int))
    else Some(DigitsValue(u[..n]))
  }

  /** What the quantity input handler makes of the field's text (app.js:106):
      the empty text reads as "0", a negative value becomes 0, and text
      without leading digits stays NaN (`Math.max(0, NaN)` is NaN). */
  function NormalizeQty(text: string): (q: Qty)
    ensures q.Finite? ==> 0.0 <= q.v && q.v == q.v.Floor as real
  {
    match ParseInt(if text == "" then "0" else text)
    case None => NotFinite
    case Some(n) => Finite(if n < 0 then 0.0 else n as real)
  }

  /** The canonical decimal spelling of `n`, the partner of `DigitsValue`. */
  function Decimal(n: nat): (d: string)
    ensures d != [] && AllDigits(d)
  {
    if n < 10 then [('0' as int + n) as char]
    else Decimal(n / 10) + [('0' as int + n % 10) as char]
  }

  lemma {:induction false} DecimalValue(n: nat)
    ensures DigitsValue(Decimal(n)) == n
  {
    if n >= 10 {
      var d := Decimal(n);
      assert d[..|d| - 1] == Decimal(n / 10);
      DecimalValue(n / 10);
    }
  }

  lemma {:induction false} TrimSpaces(ws: string, x: string)
    requires AllSpaces(ws)
    requires x == [] || !IsJsSpace(x[0])
    ensures TrimStart(ws + x) == x
  {
    if ws != [] {
      assert (ws + x)[1..] == ws[1..] + x;
      TrimSpaces(ws[1..], x);
    }
  }

  lemma {:induction false} DigitRunOf(d: string, rest: string)
    requires AllDigits(d)
    requires rest == [] || !IsDigit(rest[0])
    ensures DigitRun(d + rest) == |d|
  {
    if d != [] {
      assert (d + rest)[1..] == d[1..] + rest;
      DigitRunOf(d[1..], rest);
    }
  }

  /** Every input decomposes as white space, a sign, digits and a rest that
      does not start with a digit; `parseInt` reads the digits with the sign,
      and is NaN exactly when there are none. */
  lemma ParseIntShape(ws: string, sign: string, d: string, rest: string)
    requires AllSpaces(ws) && IsSign(sign) && AllDigits(d)
    requires rest == [] || !IsDigit(rest[0])
    requires sign + d + rest == [] || !IsJsSpace((sign + d + rest)[0])
    requires sign == [] && d == [] && rest != [] ==> rest[0] != '+' && rest[0] != '-'
    ensures ParseInt(ws + sign + d + rest) ==
              if d == [] then None
              else if sign != [] && sign[0] == '-' then Some(-(DigitsValue(d) as int))
              else Some(DigitsValue(d))
  {
    var x := sign + d + rest;
    assert ws + sign + d + rest == ws + x;
    TrimSpaces(ws, x);
    ParseSigned(sign, d, rest);
  }

  lemma UnsignedOf(sign: string, u: string)
    requires IsSign(sign)
    requires sign == [] && u != [] ==> u[0] != '+' && u[0] != '-'
    ensures Unsigned(sign + u) == u
    ensures sign + u != [] ==> ((sign + u)[0] == '-' <==> sign != [] && sign[0] == '-')
  {
    if sign == [] {
      assert sign + u == u;
    } else {
      assert (sign + u)[0] == sign[0] && (sign + u)[1..] == u;
    }
  }

  /** `parseInt` after the sign: the digit run, or NaN when it is empty. */
  lemma ParseDigits(x: string, d: string, rest: string)
    requires AllDigits(d)
    requires rest == [] || !IsDigit(rest[0])
    requires Unsigned(x) == d + rest
    ensures d != [] ==> x != []
    ensures ParseTrimmed(x) ==
              if d == [] then None
              else if x[0] == '-' then Some(-(DigitsValue(d) as int))
              else Some(DigitsValue(d))
  {
    DigitRunOf(d, rest);
    assert (d + rest)[..|d|] == d;
  }

  lemma ParseSigned(sign: string, d: string, rest: string)
    requires IsSign(sign) && AllDigits(d)
    requires rest == [] || !IsDigit(rest[0])
    requires sign == [] && d == [] && rest != [] ==> rest[0] != '+' && rest[0] != '-'
    ensures ParseTrimmed(sign + d + rest) ==
              if d == [] then None
              else if sign != [] && sign[0] == '-' then Some(-(DigitsValue(d) as int))
              else Some(DigitsValue(d))
  {
    var u := d + rest;
    assert sign + d + rest == sign + u;
    UnsignedOf(sign, u);
    ParseDigits(sign + u, d, rest);
  }

  /** Round trip: the handler reads back the canonical spelling of any count,
      with any leading white space and any non-digit tail ("3.9", "2abc"). */
  lemma NormalizeDecimal(ws: string, n: nat, rest: string)
    requires AllSpaces(ws)
    requires rest == [] || !IsDigit(rest[0])
    ensures NormalizeQty(ws + Decimal(n) + rest) == Finite(n as real)
  {
    var d := Decimal(n);
    assert d[0] != '+' && d[0] != '-' && !IsJsSpace(d[0]);
    assert ws + [] + d + rest == ws + d + rest;
    ParseIntShape(ws, [], d, rest);
    DecimalValue(n);
  }

  /** A negative entry is clamped to zero. */
  lemma NormalizeNegative(ws: string, n: nat, rest: string)
    requires AllSpaces(ws)
    requires rest == [] || !IsDigit(rest[0])
    ensures NormalizeQty(ws + "-" + Decimal(n) + rest) == Finite(0.0)
  {
    ParseIntShape(ws, "-", Decimal(n), rest);
  }

  /** Text with no digit after the white space and the sign is NaN, not 0. */
  lemma NormalizeNoDigits(ws: string, sign: string, rest: string)
    requires AllSpaces(ws) && IsSign(sign)
    requires rest == [] || !IsDigit(rest[0])
    requires sign + rest == [] || !IsJsSpace((sign + rest)[0])
    requires sign == [] && rest != [] ==> rest[0] != '+' && rest[0] != '-'
    requires ws + sign + rest != []
    ensures NormalizeQty(ws + sign + rest) == NotFinite
  {
    assert sign + [] + rest == sign + rest;
    assert ws + sign + [] + rest == ws + sign + rest;
    ParseIntShape(ws, sign, [], rest);
  }

  /** The empty field reads as "0"; a negative entry becomes 0. */
  lemma NormalizeZeroExamples()
    ensures NormalizeQty("") == Finite(0.0)
    ensures NormalizeQty("-4") == Finite(0.0)
  {
    assert Decimal(0) == "0";
    assert [] + "0" + [] == "0";
    NormalizeDecimal([], 0, []);
    assert Decimal(4) == "4";
    assert [] + "-" + "4" + [] == "-4";
    NormalizeNegative([], 4, []);
  }

  /** A decimal point ends the number. */
  lemma NormalizeFractionExample()
    ensures NormalizeQty("3.9") == Finite(3.0)
  {
    assert Decimal(3) == "3";
    assert [] + "3" + ".9" == "3.9";
    NormalizeDecimal([], 3, ".9");
  }

  /** Trailing letters end the number. */
  lemma NormalizeSuffixExample()
    ensures NormalizeQty("2abc") == Finite(2.0)
  {
    assert Decimal(2) == "2";
    assert [] + "2" + "abc" == "2abc";
    NormalizeDecimal([], 2, "abc");
  }

  /** Leading white space is skipped. */
  lemma NormalizeSpaceExample()
    ensures NormalizeQty(" 12") == Finite(12.0)
  {
    assert Decimal(1) == "1";
    assert Decimal(12) == "12";
    assert " " + "12" + [] == " 12";
    NormalizeDecimal(" ", 12, []);
  }

  /** Text without leading digits stays NaN rather than becoming 0. */
  lemma NormalizeNaNExamples()
    ensures NormalizeQty("abc") == NotFinite
    ensures NormalizeQty("-") == NotFinite
  {
    assert [] + [] + "abc" == "abc";
    NormalizeNoDigits([], [], "abc");
    assert [] + "-" + [] == "-";
    NormalizeNoDigits([], "-", []);
  }
}
