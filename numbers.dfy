/** JavaScript numbers as the model sees them: an exact real value, or NaN.
    Exchange prices and quantities arrive as decimal strings and are read with
    `parseFloat`; stored timestamps are read with `parseInt`. Binary floating-point
    rounding is not modelled: arithmetic on `Real` values is exact. */
module Numbers {

  import opened Text

  datatype Num = NaN | Real(value: real)

  function Plus(a: Num, b: Num): (r: Num)
    ensures r.Real? <==> a.Real? && b.Real?
    ensures r.Real? ==> r.value == a.value + b.value
  {
    if a.Real? && b.Real? then Real(a.value + b.value) else NaN
  }

  function Minus(a: Num, b: Num): (r: Num)
    ensures r.Real? <==> a.Real? && b.Real?
    ensures r.Real? ==> r.value == a.value - b.value
  {
    if a.Real? && b.Real? then Real(a.value - b.value) else NaN
  }

  function Times(a: Num, b: Num): (r: Num)
    ensures r.Real? <==> a.Real? && b.Real?
    ensures r.Real? ==> r.value == a.value * b.value
  {
    if a.Real? && b.Real? then Real(a.value * b.value) else NaN
  }

  /** `a > b`: false whenever either side is NaN. */
  predicate Greater(a: Num, b: Num) {
    a.Real? && b.Real? && a.value > b.value
  }

  /** `Math.max(a, b)`: NaN wins. */
  function Max(a: Num, b: Num): (r: Num)
    ensures r.Real? <==> a.Real? && b.Real?
    ensures r.Real? ==> r.value >= a.value && r.value >= b.value
    ensures r.Real? ==> r.value == a.value || r.value == b.value
  {
    if a.Real? && b.Real? then Real(if a.value >= b.value then a.value else b.value) else NaN
  }

  /** `Math.min(a, b)`: NaN wins. */
  function Min(a: Num, b: Num): (r: Num)
    ensures r.Real? <==> a.Real? && b.Real?
    ensures r.Real? ==> r.value <= a.value && r.value <= b.value
    ensures r.Real? ==> r.value == a.value || r.value == b.value
  {
    if a.Real? && b.Real? then Real(if a.value <= b.value then a.value else b.value) else NaN
  }

  /** `a / b`. A zero divisor gives NaN here (JavaScript gives an infinity unless
      the dividend is also zero). */
  function Divide(a: Num, b: Num): (r: Num)
    ensures r.Real? <==> a.Real? && b.Real? && b.value != 0.0
    ensures r.Real? ==> r.value * b.value == a.value
  {
    if a.Real? && b.Real? && b.value != 0.0 then Real(a.value / b.value) else NaN
  }

  /** `Math.max(...xs)` for a non-empty list: NaN if any entry is NaN. */
  function MaxOf(xs: seq<Num>): (r: Num)
    requires |xs| > 0
    ensures r.Real? <==> forall i :: 0 <= i < |xs| ==> xs[i].Real?
    ensures r.Real? ==> forall i :: 0 <= i < |xs| ==> r.value >= xs[i].value
    ensures r.Real? ==> exists i :: 0 <= i < |xs| && r.value == xs[i].value
  {
    if |xs| == 1 then xs[0]
    else
      var rest := MaxOf(xs[1..]);
      assert forall i :: 1 <= i < |xs| ==> xs[i] == xs[1..][i - 1];
      Max(xs[0], rest)
  }

  /** `Math.min(...xs)` for a non-empty list. */
  function MinOf(xs: seq<Num>): (r: Num)
    requires |xs| > 0
    ensures r.Real? <==> forall i :: 0 <= i < |xs| ==> xs[i].Real?
    ensures r.Real? ==> forall i :: 0 <= i < |xs| ==> r.value <= xs[i].value
    ensures r.Real? ==> exists i :: 0 <= i < |xs| && r.value == xs[i].value
  {
    if |xs| == 1 then xs[0]
    else
      var rest := MinOf(xs[1..]);
      assert forall i :: 1 <= i < |xs| ==> xs[i] == xs[1..][i - 1];
      Min(xs[0], rest)
  }

  /** `xs.reduce((sum, x) => sum + x, 0)`; the reals are exact, so summing from
      the front gives the same value. */
  function SumNum(xs: seq<Num>): Num {
    if xs == [] then Real(0.0) else Plus(xs[0], SumNum(xs[1..]))
  }

  predicate IsSpace(c: char) {
    c == ' ' || c == '\t' || c == '\n' || c == '\r'
  }

  /** Leading white space, as `parseFloat` and `parseInt` skip it. */
  function TrimStart(s: string): (r: string)
    ensures |r| <= |s| && r == s[|s| - |r|..]
    ensures r == [] || !IsSpace(r[0])
  {
    if s != [] && IsSpace(s[0]) then TrimStart(s[1..]) else s
  }

  /** Length of the run of digits that `s` starts with. */
  function DigitRun(s: string): (n: nat)
    ensures n <= |s|
    ensures AllDigits(s[..n])
    ensures n < |s| ==> !IsDigit(s[n])
  {
    if s != [] && IsDigit(s[0]) then 1 + DigitRun(s[1..]) else 0
  }

  /** The value of the fraction `0.d1d2...` written by the digit string `s`. */
  function FractionValue(s: string): (r: real)
    requires AllDigits(s)
    ensures 0.0 <= r <= 1.0
  {
    if s == [] then 0.0 else (DigitValue(s[0]) as real + FractionValue(s[1..])) / 10.0
  }

  function Negate(a: Num): (r: Num)
    ensures r.Real? <==> a.Real?
    ensures r.Real? ==> r.value == -a.value
  {
    if a.Real? then Real(-a.value) else NaN
  }

  /** The unsigned part of a float: a run of digits and an optional `.` followed
      by digits; NaN when neither part has a digit. */
  function UnsignedFloat(body: string): Num {
    var k := DigitRun(body);
    var rest := body[k..];
    var fraction := if rest != [] && rest[0] == '.' then rest[1..][..DigitRun(rest[1..])] else "";
    if k == 0 && fraction == [] then NaN
    else Real(DigitsValue(body[..k]) as real + FractionValue(fraction))
  }

  /** The unsigned part of an integer: a run of digits; NaN when there is none. */
  function UnsignedInt(body: string): Num {
    var k := DigitRun(body);
    if k == 0 then NaN else Real(DigitsValue(body[..k]) as real)
  }

  /** Applies an optional leading sign to the unsigned reader `f`. */
  function Signed(t: string, f: string -> Num): Num {
    if t != [] && t[0] == '-' then Negate(f(t[1..]))
    else if t != [] && t[0] == '+' then f(t[1..])
    else f(t)
  }

  /** `parseFloat(s)`: skips leading white space, reads an optional sign, a run of
      digits and an optional `.` followed by digits, and ignores what follows; NaN
      when no digit is read. */
  function ParseFloat(s: string): Num {
    Signed(TrimStart(s), UnsignedFloat)
  }

  /** `parseInt(s)` in base 10: skips leading white space, reads an optional sign
      and a run of digits, and ignores what follows; NaN when no digit is read. */
  function ParseInt(s: string): Num {
    Signed(TrimStart(s), UnsignedInt)
  }

  lemma AllDigitsRun(s: string)
    requires AllDigits(s)
    ensures DigitRun(s) == |s|
  {
    if s != [] {
      AllDigitsRun(s[1..]);
    }
  }

  /** A digit run followed by a non-digit stops there. */
  lemma DigitRunStops(ds: string, rest: string)
    requires AllDigits(ds)
    requires rest != [] && !IsDigit(rest[0])
    ensures DigitRun(ds + rest) == |ds|
    ensures (ds + rest)[..|ds|] == ds && (ds + rest)[|ds|..] == rest
  {
    if ds != [] {
      assert (ds + rest)[1..] == ds[1..] + rest;
      DigitRunStops(ds[1..], rest);
    }
  }

  /** A rendered natural number parses back to itself, as a float. */
  lemma ParseFloatOfNat(n: nat)
    ensures ParseFloat(NatToString(n)) == Real(n as real)
  {
    var s := NatToString(n);
    AllDigitsRun(s);
    assert TrimStart(s) == s;
    assert s[..|s|] == s;
    assert s[|s|..] == [];
    NatToStringRoundTrip(n);
  }

  /** Leading white space is all that `TrimStart` removes. */
  lemma TrimStartNoSpace(s: string)
    requires s != [] && !IsSpace(s[0])
    ensures TrimStart(s) == s
  {
  }

  /** A rendered integer parses back to itself, with `parseInt`. */
  lemma ParseIntOfInt(i: int)
    ensures ParseInt(IntToString(i)) == Real(i as real)
  {
    var n: nat := if i < 0 then -i else i;
    var s := NatToString(n);
    AllDigitsRun(s);
    NatToStringRoundTrip(n);
    assert s[..|s|] == s;
    assert UnsignedInt(s) == Real(n as real);
    if i < 0 {
      var t := "-" + s;
      assert t[0] == '-' && t[1..] == s;
      TrimStartNoSpace(t);
      assert IntToString(i) == t;
      assert ParseInt(t) == Signed(t, UnsignedInt);
      assert Signed(t, UnsignedInt) == Negate(UnsignedInt(s));
    } else {
      assert IsDigit(s[0]);
      TrimStartNoSpace(s);
      assert Signed(s, UnsignedInt) == UnsignedInt(s);
    }
  }

  lemma UnsignedFloatOfDecimal(ds: string, fs: string)
    requires ds != [] && AllDigits(ds) && AllDigits(fs)
    ensures UnsignedFloat(ds + "." + fs) == Real(DigitsValue(ds) as real + FractionValue(fs))
  {
    var rest := "." + fs;
    var s := ds + rest;
    assert ds + "." + fs == s;
    DigitRunStops(ds, rest);
    assert rest[1..] == fs;
    AllDigitsRun(fs);
    assert fs[..|fs|] == fs;
  }

  /** An exchange decimal string `ds.fs` parses to its decimal value. */
  lemma ParseFloatOfDecimal(ds: string, fs: string)
    requires ds != [] && AllDigits(ds) && AllDigits(fs)
    ensures ParseFloat(ds + "." + fs) == Real(DigitsValue(ds) as real + FractionValue(fs))
  {
    var s := ds + "." + fs;
    assert s[0] == ds[0];
    TrimStartNoSpace(s);
    UnsignedFloatOfDecimal(ds, fs);
  }
}
