/** Shared value types: the boxed state values the services exchange, the
    wrappers that stand for C#'s null and exceptions, and the two string
    conversions the source relies on (double.ToString for whole numbers and
    ToUpperInvariant restricted to ASCII). */
module Values {

  datatype Option<+T> = None | Some(value: T)

  datatype Result<+T, +E> = Ok(value: T) | Err(error: E)

  /** Whether an awaited call returned normally or threw an exception carrying a message. */
  datatype Outcome = Pass | Fail(message: string)

  /** The exceptions the control executors raise, each with its Message text. */
  datatype Error =
    | InvalidArgument(message: string)   // ArgumentException: the value has the wrong runtime type
    | UnknownControl(message: string)    // InvalidOperationException: no switch arm for the control id
    | PublishFailed(message: string)     // the bus threw while publishing a state-changed event

  /** A boxed `object` stored in a service's state. Equality is the boxed
      `Equals`: the runtime type (the tag) must match as well as the payload.
      `Num` is a double holding a whole number; `Time` is a DateTime in ticks. */
  datatype Value =
    | Bool(b: bool)
    | Num(n: int)
    | Str(s: string)
    | Time(ticks: int)

  /** The runtime type a `value is T` test asks for. */
  datatype ValueKind = BoolKind | NumKind | StrKind | TimeKind

  function KindOf(v: Value): ValueKind
  {
    match v
    case Bool(_) => BoolKind
    case Num(_) => NumKind
    case Str(_) => StrKind
    case Time(_) => TimeKind
  }

  /** Regrouping a concatenation; stated once so that callers need not ask the solver. */
  lemma ConcatAssoc<T>(a: seq<T>, b: seq<T>, c: seq<T>)
    ensures a + b + c == a + (b + c)
  {
  }

  // ---------------------------------------------------------------------
  // Decimal text of whole numbers

  function DigitChar(d: nat): char
    requires d < 10
  {
    ('0' as int + d) as char
  }

  predicate IsDigit(c: char)
  {
    '0' <= c <= '9'
  }

  /** Decimal digits of `n`, without sign or leading zeros. */
  function NatText(n: nat): (r: string)
    ensures 1 <= |r|
    ensures forall i :: 0 <= i < |r| ==> IsDigit(r[i])
    ensures n >= 10 ==> r[0] != '0'
  {
    if n < 10 then [DigitChar(n)] else NatText(n / 10) + [DigitChar(n % 10)]
  }

  /** The number a string of decimal digits denotes (reads the last digit last). */
  function DigitsValue(s: string): nat
    requires forall i :: 0 <= i < |s| ==> IsDigit(s[i])
  {
    if s == [] then 0
    else
      assert IsDigit(s[|s| - 1]);
      DigitsValue(s[..|s| - 1]) * 10 + (s[|s| - 1] as int - '0' as int)
  }

  /** Reading back the digits gives the number: NatText loses nothing. */
  lemma {:induction false} NatTextRoundTrip(n: nat)
    ensures DigitsValue(NatText(n)) == n
  {
    if n >= 10 {
      var prefix := NatText(n / 10);
      var text := NatText(n);
      assert text == prefix + [DigitChar(n % 10)];
      assert text[..|text| - 1] == prefix;
      NatTextRoundTrip(n / 10);
    }
  }

  /** Signed decimal text of an integer. */
  function IntText(i: int): (r: string)
    ensures 1 <= |r|
    ensures r[0] == '-' <==> i < 0
  {
    if i < 0 then "-" + NatText(-i) else NatText(i)
  }

  function Pow10(k: nat): (r: nat)
    ensures r >= 1
  {
    if k == 0 then 1 else 10 * Pow10(k - 1)
  }

  /** 10^15: from this magnitude on, double.ToString() switches to scientific form. */
  const ScientificFrom: nat := 1_000_000_000_000_000

  function Magnitude(n: int): nat
  {
    if n < 0 then -n else n
  }

  function Zeros(k: nat): (r: string)
    ensures |r| == k && forall i :: 0 <= i < k ==> r[i] == '0'
  {
    if k == 0 then [] else Zeros(k - 1) + ['0']
  }

  /** `s` without its trailing zeros. */
  function DropTrailingZeros(s: string): (r: string)
    ensures |r| <= |s|
    ensures s == r + Zeros(|s| - |r|)
    ensures r == [] || r[|r| - 1] != '0'
  {
    if s == [] || s[|s| - 1] != '0' then s
    else
      var r := DropTrailingZeros(s[..|s| - 1]);
      assert s == s[..|s| - 1] + ['0'];
      r
  }

  /** The significant digits of `m`: its first digit and the rest without trailing zeros. */
  function Significand(m: nat): (r: string)
    ensures 1 <= |r| <= |NatText(m)|
    ensures forall i :: 0 <= i < |r| ==> IsDigit(r[i])
    ensures NatText(m) == r + Zeros(|NatText(m)| - |r|)
  {
    var d := NatText(m);
    var rest := DropTrailingZeros(d[1..]);
    assert d == [d[0]] + d[1..];
    assert forall i :: 0 <= i < |rest| ==> rest[i] == d[1 + i];
    [d[0]] + rest
  }

  /** The power of ten of the first digit of `m`. */
  function Exponent(m: nat): nat
  {
    |NatText(m)| - 1
  }

  /** What double.ToString() prints for a whole-number double: plain digits
      below 10^15 in magnitude, otherwise the significant digits in the
      form d[.ddd]E+XX. */
  function NumText(n: int): (r: string)
    ensures Magnitude(n) < ScientificFrom ==> r == IntText(n)
    ensures 1 <= |r| && (r[0] == '-' <==> n < 0)
  {
    if Magnitude(n) < ScientificFrom then IntText(n)
    else
      var digits := Significand(Magnitude(n));
      (if n < 0 then "-" else "") + [digits[0]]
        + (if |digits| == 1 then "" else "." + digits[1..])
        + "E+" + NatText(Exponent(Magnitude(n)))
  }

  /** Regrouping a product by ten; stated once so that callers need not ask the solver. */
  lemma TimesTenAssoc(a: int, p: int)
    ensures a * p * 10 == a * (10 * p)
  {
  }

  /** Appending k zeros multiplies the value of a digit string by 10^k. */
  lemma {:induction false} DigitsValueZeros(s: string, k: nat)
    requires forall i :: 0 <= i < |s| ==> IsDigit(s[i])
    ensures forall i :: 0 <= i < |s + Zeros(k)| ==> IsDigit((s + Zeros(k))[i])
    ensures DigitsValue(s + Zeros(k)) == DigitsValue(s) * Pow10(k)
  {
    if k > 0 {
      DigitsValueZeros(s, k - 1);
      var u := s + Zeros(k - 1);
      var t := s + Zeros(k);
      assert t == u + ['0'];
      assert t[..|t| - 1] == u;
      assert DigitsValue(t) == DigitsValue(u) * 10;
      TimesTenAssoc(DigitsValue(s), Pow10(k - 1));
    } else {
      assert s + Zeros(k) == s;
    }
  }

  /** The scientific form loses nothing: its significant digits times ten to
      the power the form states, less the digits after the point, give back
      the magnitude. */
  lemma ScientificDenotes(m: nat)
    ensures |Significand(m)| - 1 <= Exponent(m)
    ensures DigitsValue(Significand(m)) * Pow10(Exponent(m) - (|Significand(m)| - 1)) == m
  {
    var d := NatText(m);
    var sig := Significand(m);
    var k := |d| - |sig|;
    assert Exponent(m) - (|sig| - 1) == k;
    ValueWithZeros(d, sig, k);
    NatTextRoundTrip(m);
    assert DigitsValue(sig) * Pow10(k) == m;
  }

  /** A digit string that is `sig` followed by k zeros is worth sig times 10^k. */
  lemma ValueWithZeros(d: string, sig: string, k: nat)
    requires forall i :: 0 <= i < |sig| ==> IsDigit(sig[i])
    requires d == sig + Zeros(k)
    ensures forall i :: 0 <= i < |d| ==> IsDigit(d[i])
    ensures DigitsValue(d) == DigitsValue(sig) * Pow10(k)
  {
    DigitsValueZeros(sig, k);
  }

  /** A magnitude of at least 10^k has at least k + 1 digits. */
  lemma {:induction false} NatTextLength(m: nat, k: nat)
    requires m >= Pow10(k)
    ensures |NatText(m)| >= k + 1
  {
    if k > 0 {
      assert m / 10 >= Pow10(k - 1);
      NatTextLength(m / 10, k - 1);
    }
  }

  /** The scientific form only appears from exponent 15 on. */
  lemma ScientificExponent(n: int)
    requires Magnitude(n) >= ScientificFrom
    ensures Exponent(Magnitude(n)) >= 15
  {
    assert Pow10(15) == ScientificFrom;
    NatTextLength(Magnitude(n), 15);
  }

  /** 10^k is written as a one followed by k zeros. */
  lemma {:induction false} NatTextPow10(k: nat)
    ensures NatText(Pow10(k)) == "1" + Zeros(k)
  {
    if k > 0 {
      NatTextPow10(k - 1);
      assert Pow10(k) / 10 == Pow10(k - 1) && Pow10(k) % 10 == 0;
      assert NatText(Pow10(k)) == NatText(Pow10(k - 1)) + ['0'];
    }
  }

  /** Only zeros: nothing is left once trailing zeros are dropped. */
  lemma {:induction false} DropAllZeros(k: nat)
    ensures DropTrailingZeros(Zeros(k)) == []
  {
    if k > 0 {
      DropAllZeros(k - 1);
      assert Zeros(k)[..k - 1] == Zeros(k - 1);
    }
  }

  /** 10^15 has the single significant digit 1 and exponent 15. */
  lemma TenToFifteenDigits()
    ensures Significand(ScientificFrom) == "1"
    ensures Exponent(ScientificFrom) == 15
  {
    assert Pow10(15) == ScientificFrom;
    NatTextPow10(15);
    var d := NatText(ScientificFrom);
    assert d[1..] == Zeros(15);
    DropAllZeros(15);
  }

  lemma FifteenText()
    ensures NatText(15) == "15"
  {
    assert NatText(15) == NatText(1) + [DigitChar(5)];
  }

  /** 10^15 is the first whole double printed in scientific form: "1E+15". */
  lemma TenToFifteenText()
    ensures NumText(ScientificFrom) == "1E+15"
    ensures NumText(0 - ScientificFrom) == "-1E+15"
  {
    TenToFifteenDigits();
    FifteenText();
    assert Magnitude(0 - ScientificFrom) == ScientificFrom;
    assert NumText(ScientificFrom) == "" + "1" + "" + "E+" + "15";
    assert NumText(0 - ScientificFrom) == "-" + "1" + "" + "E+" + "15";
  }

  // ---------------------------------------------------------------------
  // ToUpperInvariant over ASCII

  function UpperChar(c: char): char
  {
    if 'a' <= c <= 'z' then (c as int - 32) as char else c
  }

  function Upper(s: string): (r: string)
    ensures |r| == |s|
    ensures forall i :: 0 <= i < |s| ==> r[i] == UpperChar(s[i])
  {
    if s == [] then [] else [UpperChar(s[0])] + Upper(s[1..])
  }

  /** Upper-casing twice is upper-casing once. */
  lemma UpperIdempotent(s: string)
    ensures Upper(Upper(s)) == Upper(s)
  {
    var u := Upper(s);
    assert forall i :: 0 <= i < |u| ==> Upper(u)[i] == u[i];
  }

  /** A string without lower-case letters is its own upper-cased form. */
  lemma UpperKeepsUpperCase(s: string)
    requires forall i :: 0 <= i < |s| ==> !('a' <= s[i] <= 'z')
    ensures Upper(s) == s
  {
    assert forall i :: 0 <= i < |s| ==> Upper(s)[i] == s[i];
  }

  /** The text `object.ToString()` gives for a boxed value: bool prints
      "True"/"False", a whole-number double as NumText writes it, a string itself; a
      DateTime is rendered by its tick count. */
  function ValueText(v: Value): string
  {
    match v
    case Bool(b) => if b then "True" else "False"
    case Num(n) => NumText(n)
    case Str(s) => s
    case Time(t) => IntText(t)
  }
}
