/** Instants as the store keeps them: RFC 3339 text with nanoseconds, whose
    fraction loses its trailing zeros, compared byte by byte.

    The calendar part has a fixed width and grows with the second it names. It
    is modelled as the decimal count of seconds in twelve digits. */
module Timestamps {

  const SECONDS_WIDTH: nat := 12
  const NANOS: nat := 1_000_000_000
  const ZERO: nat := 48
  const DOT: nat := 46
  const ZULU: nat := 90

  type Text = seq<nat>

  datatype Instant = Instant(seconds: nat, nanos: nat)

  function Pow10(w: nat): (p: nat)
    ensures p > 0
  {
    if w == 0 then 1 else 10 * Pow10(w - 1)
  }

  predicate Representable(at: Instant) {
    at.seconds < Pow10(SECONDS_WIDTH) && at.nanos < NANOS
  }

  /** The last `w` decimal digits of `n`, as bytes. */
  function Digits(n: nat, w: nat): (text: Text)
    ensures |text| == w && forall i :: 0 <= i < w ==> ZERO <= text[i] < ZERO + 10
  {
    if w == 0 then [] else Digits(n / 10, w - 1) + [ZERO + n % 10]
  }

  /** The length of a fraction without its trailing zeros. */
  function Kept(digits: Text, n: nat): (kept: nat)
    requires n <= |digits|
    ensures kept <= n && (kept > 0 ==> digits[kept - 1] != ZERO)
    ensures forall i :: kept <= i < n ==> digits[i] == ZERO
  {
    if n == 0 || digits[n - 1] != ZERO then n else Kept(digits, n - 1)
  }

  /** The digits of a fraction of a second that are written. */
  function Fraction(nanos: nat): Text {
    Digits(nanos, 9)[..Kept(Digits(nanos, 9), 9)]
  }

  function Suffix(nanos: nat): Text {
    (if Fraction(nanos) == [] then [] else [DOT] + Fraction(nanos)) + [ZULU]
  }

  function Format(at: Instant): Text {
    Digits(at.seconds, SECONDS_WIDTH) + Suffix(at.nanos)
  }

  function Add(at: Instant, seconds: nat): Instant {
    at.(seconds := at.seconds + seconds)
  }

  predicate Earlier(a: Instant, b: Instant) {
    a.seconds < b.seconds || (a.seconds == b.seconds && a.nanos < b.nanos)
  }

  /** The byte order of SQLite's default collation. */
  predicate LessFrom(a: Text, b: Text, i: nat)
    requires i <= |a| && i <= |b|
    decreases |a| - i
  {
    if i == |b| then false
    else if i == |a| then true
    else if a[i] != b[i] then a[i] < b[i]
    else LessFrom(a, b, i + 1)
  }

  predicate Less(a: Text, b: Text) {
    LessFrom(a, b, 0)
  }

  function Later(a: Text, b: Text): Text {
    if Less(a, b) then b else a
  }

  /** Where two texts first differ decides their order. */
  lemma {:induction false} FirstDifference(a: Text, b: Text, i: nat, k: nat)
    requires i <= k < |a| && k < |b| && a[..k] == b[..k] && a[k] != b[k]
    ensures LessFrom(a, b, i) <==> a[k] < b[k]
    decreases k - i
  {
    if i < k {
      assert a[i] == a[..k][i] == b[..k][i] == b[i];
      FirstDifference(a, b, i + 1, k);
    }
  }

  lemma {:induction false} SameTextFrom(a: Text, i: nat)
    requires i <= |a|
    ensures !LessFrom(a, a, i)
    decreases |a| - i
  {
    if i < |a| {
      SameTextFrom(a, i + 1);
    }
  }

  /** A text that is not less than the later of two is not less than either. */
  lemma {:induction false} NotLessTrans(a: Text, b: Text, c: Text, i: nat)
    requires i <= |a| && i <= |b| && i <= |c|
    requires !LessFrom(a, b, i) && !LessFrom(b, c, i)
    ensures !LessFrom(a, c, i)
    decreases |a| - i
  {
    if i < |a| && i < |b| && i < |c| && a[i] == b[i] == c[i] {
      NotLessTrans(a, b, c, i + 1);
    }
  }

  /** Numbers differ first in a digit that orders them. */
  lemma {:induction false} FirstDigit(m: nat, n: nat, w: nat) returns (k: nat)
    requires m < n < Pow10(w)
    ensures k < w && Digits(m, w)[..k] == Digits(n, w)[..k] && Digits(m, w)[k] < Digits(n, w)[k]
  {
    if m / 10 < n / 10 {
      k := FirstDigit(m / 10, n / 10, w - 1);
      assert Digits(m, w)[..k] == Digits(m / 10, w - 1)[..k];
      assert Digits(n, w)[..k] == Digits(n / 10, w - 1)[..k];
    } else {
      k := w - 1;
      assert Digits(m, w)[..k] == Digits(m / 10, w - 1);
    }
  }

  /** Text order agrees with time across different seconds. */
  lemma SecondsOrderTexts(a: Instant, b: Instant)
    requires Representable(a) && Representable(b) && a.seconds < b.seconds
    ensures Less(Format(a), Format(b)) && !Less(Format(b), Format(a))
  {
    var k := FirstDigit(a.seconds, b.seconds, SECONDS_WIDTH);
    var x, y := Format(a), Format(b);
    assert x[..k] == Digits(a.seconds, SECONDS_WIDTH)[..k];
    assert y[..k] == Digits(b.seconds, SECONDS_WIDTH)[..k];
    FirstDifference(x, y, 0, k);
    FirstDifference(y, x, 0, k);
  }

  lemma NineDigits()
    ensures Pow10(9) == NANOS
  {
    assert Pow10(3) == 1000;
    assert Pow10(6) == 1000000;
  }

  predicate ProperPrefix(a: Text, b: Text) {
    |a| < |b| && a == b[..|a|]
  }

  /** The fraction of an earlier instant of the same second either differs first
      in a smaller digit, or is a proper prefix. */
  lemma FractionsDiffer(a: nat, b: nat) returns (k: nat)
    requires a < b < NANOS
    ensures k < |Fraction(b)| && k <= |Fraction(a)| && Fraction(a)[..k] == Fraction(b)[..k]
    ensures ProperPrefix(Fraction(a), Fraction(b)) <==> k == |Fraction(a)|
    ensures k < |Fraction(a)| ==> Fraction(a)[k] < Fraction(b)[k]
  {
    NineDigits();
    var d := FirstDigit(a, b, 9);
    var x, y := Digits(a, 9), Digits(b, 9);
    var p, q := Kept(x, 9), Kept(y, 9);
    assert d < q;
    k := if d < p then d else p;
    assert forall i :: 0 <= i < d ==> x[i] == x[..d][i] == y[..d][i] == y[i];
    assert Fraction(a)[..k] == x[..k] == y[..k] == Fraction(b)[..k];
    if k == d && k < p {
      assert Fraction(a)[k] == x[k] && Fraction(b)[k] == y[k];
      assert k < |Fraction(a)| && (|Fraction(a)| < |Fraction(b)| ==> Fraction(b)[..|Fraction(a)|][k] == y[k]);
    } else {
      assert Fraction(a) == Fraction(b)[..p];
    }
  }

  lemma FractionDigits(nanos: nat)
    ensures forall i :: 0 <= i < |Fraction(nanos)| ==> ZERO <= Fraction(nanos)[i] < ZERO + 10
  {
  }

  /** Inside one second the text order is inverted exactly when the written
      fraction of the earlier instant is a proper prefix of the other's: the
      final `Z` sorts after every digit and after the point. */
  lemma InvertedIff(a: Instant, b: Instant)
    requires Representable(a) && Representable(b) && a.seconds == b.seconds && a.nanos < b.nanos
    ensures Less(Format(b), Format(a)) <==> ProperPrefix(Fraction(a.nanos), Fraction(b.nanos))
    ensures Less(Format(a), Format(b)) <==> !ProperPrefix(Fraction(a.nanos), Fraction(b.nanos))
  {
    var k := FractionsDiffer(a.nanos, b.nanos);
    var f, g := Fraction(a.nanos), Fraction(b.nanos);
    FractionDigits(a.nanos);
    FractionDigits(b.nanos);
    var x, y, s := Format(a), Format(b), Digits(a.seconds, SECONDS_WIDTH);
    var at := if f == [] then SECONDS_WIDTH else SECONDS_WIDTH + 1 + k;
    assert x == s + Suffix(a.nanos) && y == s + Suffix(b.nanos);
    if f == [] {
      assert x[..at] == s && y[..at] == s;
      assert x[at] == ZULU && y[at] == DOT;
    } else {
      assert x[..at] == s + ([DOT] + f[..k]);
      assert y[..at] == s + ([DOT] + g[..k]);
      assert x[at] == if k == |f| then ZULU else f[k];
      assert y[at] == g[k];
    }
    FirstDifference(x, y, 0, at);
    FirstDifference(y, x, 0, at);
  }

  /** Some instants of one second are stored in the wrong order. */
  lemma WholeSecondSortsLast(second: nat, nanos: nat)
    requires Representable(Instant(second, nanos)) && nanos > 0
    ensures Earlier(Instant(second, 0), Instant(second, nanos))
            && Less(Format(Instant(second, nanos)), Format(Instant(second, 0)))
  {
    NineDigits();
    var k := FractionsDiffer(0, nanos);
    NoFraction();
    InvertedIff(Instant(second, 0), Instant(second, nanos));
  }

  lemma NoFraction()
    ensures Fraction(0) == []
  {
    assert Digits(0, 9) == Digits(0, 8) + [ZERO];
    ZeroDigits(9);
  }

  lemma {:induction false} ZeroDigits(w: nat)
    ensures forall i :: 0 <= i < w ==> Digits(0, w)[i] == ZERO
  {
    if w > 0 {
      ZeroDigits(w - 1);
    }
  }

  // ----- Reading a text back -----

  function Value(digits: Text): int {
    if digits == [] then 0 else 10 * Value(digits[..|digits| - 1]) + digits[|digits| - 1] - ZERO
  }

  lemma {:induction false} DigitsReadBack(n: nat, w: nat)
    requires n < Pow10(w)
    ensures Value(Digits(n, w)) == n
  {
    if w > 0 {
      DigitsReadBack(n / 10, w - 1);
      assert Digits(n, w)[..w - 1] == Digits(n / 10, w - 1);
    }
  }

  lemma {:induction false} DroppedZeros(digits: Text, kept: nat, n: nat)
    requires kept <= n <= |digits| && forall i :: kept <= i < n ==> digits[i] == ZERO
    ensures Value(digits[..n]) == Value(digits[..kept]) * Pow10(n - kept)
  {
    if kept < n {
      DroppedZeros(digits, kept, n - 1);
      assert digits[..n][..n - 1] == digits[..n - 1];
      var p, v := Pow10(n - 1 - kept), Value(digits[..kept]);
      assert 10 * (v * p) == v * (10 * p);
    }
  }

  /** The seconds in twelve digits, nothing for a whole second and otherwise a
      point and the fraction up to its last digit that is not zero, and `Z`. */
  lemma FormatReadsBack(at: Instant)
    requires Representable(at)
    ensures var text := Format(at);
            && |text| >= 13 && text[|text| - 1] == ZULU && Value(text[..12]) == at.seconds
            && (at.nanos == 0 <==> |text| == 13)
            && (at.nanos > 0 ==>
                  && 15 <= |text| <= 23 && text[12] == DOT && text[|text| - 2] != ZERO
                  && Value(text[13..|text| - 1]) * Pow10(23 - |text|) == at.nanos)
  {
    NineDigits();
    var text, digits, fraction := Format(at), Digits(at.nanos, 9), Fraction(at.nanos);
    DigitsReadBack(at.seconds, SECONDS_WIDTH);
    DigitsReadBack(at.nanos, 9);
    assert text[..12] == Digits(at.seconds, 12);
    assert digits[..9] == digits;
    DroppedZeros(digits, |fraction|, 9);
    assert digits[..|fraction|] == fraction;
    if fraction == [] {
      assert Value(fraction) == 0;
    } else {
      assert text[13..|text| - 1] == fraction;
    }
    if at.nanos == 0 {
      NoFraction();
    }
  }

  /** No two instants are stored alike. */
  lemma TextsAreDistinct(a: Instant, b: Instant)
    requires Representable(a) && Representable(b) && Format(a) == Format(b)
    ensures a == b
  {
    hide Format, Pow10, Value;
    FormatReadsBack(a);
    FormatReadsBack(b);
  }
}
