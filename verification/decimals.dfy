/** Decimal numbers as text: what `bc` prints and what strconv.ParseFloat reads. */
module Decimals {
  import opened Config
  import opened Results
  import opened Text

  /** m / 10^scale */
  datatype Dec = Dec(m: int, scale: nat)

  function Pow10(n: nat): (p: nat)
    ensures p > 0
  {
    if n == 0 then 1 else 10 * Pow10(n - 1)
  }

  /** x / 10^n */
  function Shift(x: real, n: nat): real
    decreases n
  {
    if n == 0 then x else Shift(x / 10.0, n - 1)
  }

  function Value(d: Dec): real {
    Shift(d.m as real, d.scale)
  }

  function Rescale(d: Dec, scale: nat): int
    requires d.scale <= scale
  {
    d.m * Pow10(scale - d.scale)
  }

  /** Addition in `bc`: exact, with the larger scale. */
  function BcAdd(a: Dec, b: Dec): Dec {
    var scale := if a.scale < b.scale then b.scale else a.scale;
    Dec(Rescale(a, scale) + Rescale(b, scale), scale)
  }

  lemma {:induction false} ShiftBack(x: int, k: nat, n: nat)
    ensures Shift((x * Pow10(k)) as real, n + k) == Shift(x as real, n)
  {
    if k > 0 {
      ShiftBack(x, k - 1, n);
      assert x * Pow10(k) == 10 * (x * Pow10(k - 1));
    }
  }

  lemma {:induction false} ShiftSum(x: real, y: real, n: nat)
    ensures Shift(x + y, n) == Shift(x, n) + Shift(y, n)
    decreases n
  {
    if n > 0 {
      ShiftSum(x / 10.0, y / 10.0, n - 1);
      assert x / 10.0 + y / 10.0 == (x + y) / 10.0;
    }
  }

  lemma {:induction false} ShiftZero(n: nat)
    ensures Shift(0.0, n) == 0.0
  {
    if n > 0 {
      ShiftZero(n - 1);
    }
  }

  lemma {:induction false} ShiftTenth(x: real, n: nat)
    ensures Shift(x / 10.0, n) == Shift(x, n) / 10.0
    decreases n
  {
    if n > 0 {
      ShiftTenth(x / 10.0, n - 1);
    }
  }

  /** A whole number is itself, and every place behind the point divides by ten. */
  lemma ValueExactly(m: int, scale: nat)
    ensures Value(Dec(m, 0)) == m as real && Value(Dec(m, scale + 1)) * 10.0 == Value(Dec(m, scale))
  {
    ShiftTenth(m as real, scale);
  }

  lemma {:induction false} ValueScaled(m: int, scale: nat)
    ensures Product(Value(Dec(m, scale)), Pow10(scale) as real) == m as real
  {
    if scale > 0 {
      ValueScaled(m, scale - 1);
      ValueExactly(m, scale - 1);
      TenTimes(Value(Dec(m, scale)), Pow10(scale - 1) as real);
    }
  }

  lemma TenTimes(x: real, p: real)
    ensures Product(x, 10.0 * p) == Product(x * 10.0, p)
  {
  }

  lemma RescaleKeepsValue(d: Dec, scale: nat)
    requires d.scale <= scale
    ensures Value(Dec(Rescale(d, scale), scale)) == Value(d)
  {
    ShiftBack(d.m, scale - d.scale, d.scale);
  }

  /** A sum is exact and has as many places as the longer operand. */
  lemma AddIsExact(a: Dec, b: Dec)
    ensures Value(BcAdd(a, b)) == Value(a) + Value(b)
    ensures BcAdd(a, b).scale in {a.scale, b.scale} && BcAdd(a, b).scale >= a.scale && BcAdd(a, b).scale >= b.scale
  {
    var scale := BcAdd(a, b).scale;
    RescaleKeepsValue(a, scale);
    RescaleKeepsValue(b, scale);
    ShiftSum(Rescale(a, scale) as real, Rescale(b, scale) as real, scale);
  }

  // ---- Text ----

  predicate IsDigit(c: char) {
    '0' <= c <= '9'
  }

  predicate AllDigits(s: string) {
    forall i :: 0 <= i < |s| ==> IsDigit(s[i])
  }

  function Digit(n: nat): char
    requires n < 10
  {
    ('0' as int + n) as char
  }

  function Digits(n: nat): (s: string)
    ensures AllDigits(s) && s != ""
  {
    if n < 10 then [Digit(n)] else Digits(n / 10) + [Digit(n % 10)]
  }

  function Number(s: string): nat
    requires AllDigits(s)
  {
    if s == "" then 0 else Number(s[..|s| - 1]) * 10 + (s[|s| - 1] as int - '0' as int)
  }

  function Pad(s: string, n: nat): (p: string)
    ensures |p| >= n && |p| >= |s| && (AllDigits(s) ==> AllDigits(p))
    decreases n - |s|
  {
    if |s| >= n then s else Pad("0" + s, n)
  }

  function Abs(x: int): nat {
    if x < 0 then -x else x
  }

  /** The digits with a point in front of the last `scale` of them. */
  function Pointed(digits: string, scale: nat): string
    requires scale <= |digits|
  {
    digits[..|digits| - scale] + (if scale > 0 then "." + digits[|digits| - scale..] else "")
  }

  /** bc leaves out a zero before the point and prints 0 for every zero. */
  function BcPrint(d: Dec): string {
    if d.m == 0 then "0"
    else (if d.m < 0 then "-" else "") + Pointed(Pad(Digits(Abs(d.m)), d.scale), d.scale)
  }

  function ParseUnsigned(s: string): Option<Dec> {
    var parts := Split(s, '.');
    if |parts| == 1 && AllDigits(s) && s != "" then Some(Dec(Number(s), 0))
    else if |parts| == 2 && AllDigits(parts[0] + parts[1]) && parts[0] + parts[1] != "" then
      Some(Dec(Number(parts[0] + parts[1]), |parts[1]|))
    else None
  }

  /** A plain decimal with an optional sign. */
  function ParseDec(s: string): Option<Dec> {
    if s == "" then None
    else if s[0] == '-' then
      match ParseUnsigned(s[1..]) case Some(d) => Some(Dec(-d.m, d.scale)) case None => None
    else ParseUnsigned(if s[0] == '+' then s[1..] else s)
  }

  /** An exponent: digits with an optional sign. */
  function ParseExponent(s: string): Option<int> {
    var digits := if s != "" && s[0] in "+-" then s[1..] else s;
    if digits == "" || !AllDigits(digits) then None
    else
      var n: int := Number(digits);
      Some(if s[0] == '-' then -n else n)
  }

  /** x * 10^n */
  function TimesTen(x: real, n: int): real {
    if n < 0 then Shift(x, -n) else x * Pow10(n) as real
  }

  /** A plain decimal, then e or E and an exponent. */
  function ParseScientific(s: string): Option<real> {
    var parts := Split(ToUpper(s), 'E');
    if |parts| != 2 then None
    else match (ParseDec(parts[0]), ParseExponent(parts[1]))
      case (Some(d), Some(n)) => Some(TimesTen(Value(d), n))
      case _ => None
  }

  /** strconv.ParseFloat with its error ignored: decimals with or without an exponent, the special names, and 0 for
      anything else. */
  function ParseFloat(s: string): Float {
    match ParseDec(s)
    case Some(d) => Num(Value(d))
    case None =>
      match ParseScientific(s)
      case Some(x) => Num(x)
      case None =>
        var u := ToUpper(s);
        if u == "NAN" then NaN
        else if u in ["INF", "+INF", "INFINITY", "+INFINITY"] then PosInf
        else if u in ["-INF", "-INFINITY"] then NegInf
        else ZERO
  }

  // ---- Round trip ----

  lemma {:induction false} NumberOfDigits(n: nat)
    ensures Number(Digits(n)) == n
  {
    if n >= 10 {
      NumberOfDigits(n / 10);
      assert Digits(n)[..|Digits(n)| - 1] == Digits(n / 10);
    } else {
      assert Digits(n)[..0] == "";
    }
  }

  lemma {:induction false} LeadingZero(s: string)
    requires AllDigits(s)
    ensures AllDigits("0" + s) && Number("0" + s) == Number(s)
  {
    if s != "" {
      LeadingZero(s[..|s| - 1]);
      assert ("0" + s)[..|s|] == "0" + s[..|s| - 1];
    } else {
      assert ("0" + s)[..0] == "";
    }
  }

  lemma {:induction false} PadKeepsNumber(s: string, n: nat)
    requires AllDigits(s)
    ensures Number(Pad(s, n)) == Number(s)
    decreases n - |s|
  {
    if |s| < n {
      LeadingZero(s);
      PadKeepsNumber("0" + s, n);
    }
  }

  lemma NoPointInDigits(s: string)
    requires AllDigits(s)
    ensures '.' !in s
  {
  }

  lemma WholeRoundTrip(digits: string)
    requires AllDigits(digits) && digits != ""
    ensures ParseUnsigned(digits) == Some(Dec(Number(digits), 0))
  {
    NoPointInDigits(digits);
    SplitNone(digits, '.');
  }

  lemma PointRoundTrip(text: string, digits: string, a: string, b: string)
    requires text == a + "." + b && digits == a + b && AllDigits(digits) && b != ""
    ensures ParseUnsigned(text) == Some(Dec(Number(digits), |b|))
  {
    PartsAreDigits(a, b);
    NoPointInDigits(a);
    NoPointInDigits(b);
    SplitAt(a, '.', b);
    SplitNone(b, '.');
  }

  lemma PartsAreDigits(a: string, b: string)
    requires AllDigits(a + b)
    ensures AllDigits(a) && AllDigits(b)
  {
    assert forall i :: 0 <= i < |a| ==> a[i] == (a + b)[i];
    assert forall i :: 0 <= i < |b| ==> b[i] == (a + b)[|a| + i];
  }

  lemma PointedWhole(digits: string)
    ensures Pointed(digits, 0) == digits
  {
  }

  lemma PointedSplit(digits: string, scale: nat) returns (a: string, b: string)
    requires 0 < scale <= |digits|
    ensures Pointed(digits, scale) == a + "." + b && digits == a + b && |b| == scale
  {
    a, b := digits[..|digits| - scale], digits[|digits| - scale..];
    assert a + ("." + b) == a + "." + b;
  }

  lemma UnsignedRoundTrip(digits: string, scale: nat)
    requires AllDigits(digits) && digits != "" && scale <= |digits|
    ensures ParseUnsigned(Pointed(digits, scale)) == Some(Dec(Number(digits), scale))
  {
    if scale == 0 {
      PointedWhole(digits);
      WholeRoundTrip(digits);
    } else {
      var a, b := PointedSplit(digits, scale);
      PointRoundTrip(Pointed(digits, scale), digits, a, b);
    }
  }

  lemma NoSignInFront(digits: string, scale: nat)
    requires AllDigits(digits) && digits != "" && scale <= |digits|
    ensures Pointed(digits, scale) != "" && Pointed(digits, scale)[0] !in "+-"
  {
    if scale == |digits| {
      assert Pointed(digits, scale)[0] == '.';
    } else {
      assert Pointed(digits, scale)[0] == digits[0];
    }
  }

  lemma SignedParse(body: string, d: Dec)
    requires body != "" && body[0] !in "+-" && ParseUnsigned(body) == Some(d)
    ensures ParseDec("" + body) == Some(d) && ParseDec("-" + body) == Some(Dec(-d.m, d.scale))
    ensures ParseDec("+" + body) == Some(d)
  {
    assert "" + body == body;
    assert ("+" + body)[1..] == body;
    assert ("-" + body)[1..] == body;
  }

  /** Reading what bc prints gives the number back. */
  lemma PrintParse(d: Dec)
    ensures ParseDec(BcPrint(d)) == Some(if d.m == 0 then Dec(0, 0) else d)
  {
    if d.m == 0 {
      SplitNone("0", '.');
      assert "0"[..0] == "";
    } else {
      var digits := Pad(Digits(Abs(d.m)), d.scale);
      NumberOfDigits(Abs(d.m));
      PadKeepsNumber(Digits(Abs(d.m)), d.scale);
      UnsignedRoundTrip(digits, d.scale);
      NoSignInFront(digits, d.scale);
      SignedParse(Pointed(digits, d.scale), Dec(Abs(d.m), d.scale));
    }
  }

  lemma ParsePrinted(d: Dec)
    ensures ParseFloat(BcPrint(d)) == Num(Value(d))
  {
    PrintParse(d);
    if d.m == 0 {
      ShiftZero(d.scale);
    }
  }

  lemma PointedChars(digits: string, scale: nat)
    requires AllDigits(digits) && scale <= |digits|
    ensures forall c :: c in Pointed(digits, scale) ==> IsDigit(c) || c == '.'
  {
    forall c | c in Pointed(digits, scale) ensures IsDigit(c) || c == '.' {
      assert c in digits || c == '.';
    }
  }

  /** The characters bc prints. */
  lemma PrintedChars(d: Dec)
    ensures BcPrint(d) != "" && forall c :: c in BcPrint(d) ==> IsDigit(c) || c == '-' || c == '.'
  {
    if d.m != 0 {
      var digits := Pad(Digits(Abs(d.m)), d.scale);
      PointedChars(digits, d.scale);
      NoSignInFront(digits, d.scale);
      assert BcPrint(d) == (if d.m < 0 then "-" else "") + Pointed(digits, d.scale);
    }
  }

  // ---- Exponents and special names ----

  lemma {:induction false} UpperDigits(s: string)
    requires forall c :: c in s ==> IsDigit(c) || c in "+-."
    ensures ToUpper(s) == s
  {
    if s != "" {
      assert s[0] in s && forall c :: c in s[1..] ==> c in s;
      UpperDigits(s[1..]);
    }
  }

  lemma {:induction false} UpperJoined(a: string, b: string)
    ensures ToUpper(a + b) == ToUpper(a) + ToUpper(b)
  {
    if a == "" {
      assert a + b == b;
    } else {
      assert (a + b)[1..] == a[1..] + b;
      UpperJoined(a[1..], b);
    }
  }

  function Signed(sign: string, n: int): int {
    if sign == "-" then -n else n
  }

  lemma ExponentRead(sign: string, digits: string)
    requires sign in ["", "+", "-"] && AllDigits(digits) && digits != ""
    ensures ParseExponent(sign + digits) == Some(Signed(sign, Number(digits)))
  {
    if sign == "" {
      assert sign + digits == digits;
    } else {
      assert (sign + digits)[1..] == digits;
    }
  }

  lemma ScientificFrom(text: string, a: string, b: string, d: Dec, n: int)
    requires Split(ToUpper(text), 'E') == [a, b] && ParseDec(a) == Some(d) && ParseExponent(b) == Some(n)
    ensures ParseScientific(text) == Some(TimesTen(Value(d), n))
  {
  }

  lemma ParsedValue(d: Dec)
    ensures ParseDec(BcPrint(d)).Some? && Value(ParseDec(BcPrint(d)).value) == Value(d)
  {
    PrintParse(d);
    if d.m == 0 {
      ShiftZero(d.scale);
    }
  }

  /** Scientific notation: mantissa, e or E, an optional sign, and the exponent. */
  lemma ReadsScientific(d: Dec, e: char, sign: string, n: nat)
    requires e in "eE" && sign in ["", "+", "-"]
    ensures ParseScientific(BcPrint(d) + [e] + (sign + Digits(n)))
         == Some(TimesTen(Value(d), Signed(sign, n)))
  {
    var exponent := sign + Digits(n);
    ScientificParts(d, e, exponent);
    ParsedValue(d);
    NumberOfDigits(n);
    ExponentRead(sign, Digits(n));
    ScientificFrom(BcPrint(d) + [e] + exponent, BcPrint(d), exponent, ParseDec(BcPrint(d)).value,
                   Signed(sign, n));
  }

  /** Upper case leaves digits alone and turns either e into E. */
  lemma UpperParts(a: string, e: char, b: string)
    requires e in "eE" && (forall c :: c in a ==> IsDigit(c) || c in "+-.")
    requires forall c :: c in b ==> IsDigit(c) || c in "+-."
    ensures ToUpper(a + [e] + b) == a + ['E'] + b && 'E' !in a && 'E' !in b
  {
    UpperJoined(a + [e], b);
    UpperJoined(a, [e]);
    UpperDigits(a);
    UpperDigits(b);
    assert ToUpper([e]) == ['E'];
  }

  lemma ScientificParts(d: Dec, e: char, exponent: string)
    requires e in "eE" && forall c :: c in exponent ==> IsDigit(c) || c in "+-."
    ensures Split(ToUpper(BcPrint(d) + [e] + exponent), 'E') == [BcPrint(d), exponent]
  {
    PrintedChars(d);
    UpperParts(BcPrint(d), e, exponent);
    SplitAt(BcPrint(d), 'E', exponent);
    SplitNone(exponent, 'E');
  }

  lemma TimesTenExactly(x: real, n: int)
    ensures TimesTen(x, 0) == x && TimesTen(x, n + 1) == TimesTen(x, n) * 10.0
  {
    if n >= 0 {
      assert Pow10(n + 1) == 10 * Pow10(n);
    } else {
      ShiftTenth(x, -n - 1);
    }
  }

  predicate NoDigits(s: string) {
    forall c :: c in s ==> !IsDigit(c)
  }

  lemma NoDigitsNoDec(s: string)
    requires NoDigits(s)
    ensures ParseUnsigned(s) == None && ParseDec(s) == None
  {
    NoDigitsUnsigned(s);
    if s != "" {
      assert forall c :: c in s[1..] ==> c in s;
      NoDigitsUnsigned(s[1..]);
    }
  }

  lemma NoDigitsUnsigned(s: string)
    requires NoDigits(s)
    ensures ParseUnsigned(s) == None
  {
    var parts := Split(s, '.');
    SplitGivesParts(s, '.');
    if |parts| == 2 && parts[0] + parts[1] != "" {
      assert Joined(parts[1..], '.') == parts[1];
      var c := (parts[0] + parts[1])[0];
      assert c in s;
    } else if s != "" {
      assert s[0] in s;
    }
  }

  lemma NoDigitsNoScientific(s: string)
    requires NoDigits(s)
    ensures ParseScientific(s) == None
  {
    var u := ToUpper(s);
    var parts := Split(u, 'E');
    SplitGivesParts(u, 'E');
    if |parts| == 2 {
      forall c | c in parts[0] ensures !IsDigit(c) {
        var i :| 0 <= i < |parts[0]| && parts[0][i] == c;
        assert u[i] == c && s[i] in s;
      }
      NoDigitsNoDec(parts[0]);
    }
  }

  /** Text without digits is a special name in any case, or read as zero. */
  lemma ReadsNames(s: string)
    requires NoDigits(s)
    ensures var u := ToUpper(s);
            ParseFloat(s) == if u == "NAN" then NaN
                             else if u in {"INF", "+INF", "INFINITY", "+INFINITY"} then PosInf
                             else if u in {"-INF", "-INFINITY"} then NegInf
                             else ZERO
  {
    NoDigitsNoDec(s);
    NoDigitsNoScientific(s);
  }
}
