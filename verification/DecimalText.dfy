/** The canonical decimal printer (schemas/extraction.py). A finite decimal is a sign, a coefficient
and a power of ten, as the General Decimal Arithmetic Specification represents it. */
module DecimalText {

  datatype Decimal = Decimal(negative: bool, coefficient: nat, exponent: int)

  // ---------------------------------------------------------------- values

  /** `n` with `j` zeros appended. */
  function Scale(n: nat, j: nat): nat {
    if j == 0 then n else 10 * Scale(n, j - 1)
  }

  /** A magnitude: `digits` with the point `places` digits from the right. */
  datatype Magnitude = Magnitude(digits: nat, places: nat)

  function MagnitudeOf(d: Decimal): Magnitude {
    if d.exponent >= 0 then Magnitude(Scale(d.coefficient, d.exponent), 0) else Magnitude(d.coefficient, -d.exponent)
  }

  predicate SameMagnitude(a: Magnitude, b: Magnitude) {
    Scale(a.digits, b.places) == Scale(b.digits, a.places)
  }

  predicate IsZero(d: Decimal) {
    d.coefficient == 0
  }

  /** Numeric equality; a zero has no sign. */
  predicate Equal(a: Decimal, b: Decimal) {
    SameMagnitude(MagnitudeOf(a), MagnitudeOf(b)) && (IsZero(a) || a.negative == b.negative)
  }

  // ---------------------------------------------------------------- printing

  function Digit(n: nat): char
    requires n < 10
  {
    (n + '0' as int) as char
  }

  function Digits(n: nat): string {
    if n < 10 then [Digit(n)] else Digits(n / 10) + [Digit(n % 10)]
  }

  /** The digits left of the point, as a number. */
  function Whole(m: Magnitude): nat
    decreases m.places
  {
    if m.places == 0 then m.digits else Whole(Magnitude(m.digits / 10, m.places - 1))
  }

  /** The digits right of the point, padded to their places. */
  function Fraction(m: Magnitude): string
    decreases m.places
  {
    if m.places == 0 then ""
    else Fraction(Magnitude(m.digits / 10, m.places - 1)) + [Digit(m.digits % 10)]
  }

  /** Fixed-point notation with every place written. */
  function FixedPoint(m: Magnitude): string {
    Digits(Whole(m)) + if m.places == 0 then "" else "." + Fraction(m)
  }

  function StripRight(text: string, c: char): string {
    if text != "" && text[|text| - 1] == c then StripRight(text[..|text| - 1], c) else text
  }

  function Shortened(text: string): string {
    if '.' in text then StripRight(StripRight(text, '0'), '.') else text
  }

  function Text(d: Decimal): string {
    if IsZero(d) then "0" else (if d.negative then "-" else "") + Shortened(FixedPoint(MagnitudeOf(d)))
  }

  // ---------------------------------------------------------------- reading

  function DigitValue(c: char): nat {
    if '0' <= c <= '9' then (c - '0') as nat else 0
  }

  function ReadDigits(text: string): nat {
    if text == "" then 0 else 10 * ReadDigits(text[..|text| - 1]) + DigitValue(text[|text| - 1])
  }

  /** Where the point is, or the end. */
  function PointAt(text: string): (n: nat)
    ensures n <= |text|
    ensures n < |text| ==> text[n] == '.'
    ensures '.' !in text[..n]
  {
    if text == "" || text[0] == '.' then 0
    else
      assert text[1..][..PointAt(text[1..])] == text[..1 + PointAt(text[1..])][1..];
      1 + PointAt(text[1..])
  }

  function ReadMagnitude(text: string): Magnitude {
    var n := PointAt(text);
    if n == |text| then Magnitude(ReadDigits(text), 0)
    else Magnitude(ReadDigits(text[..n] + text[n + 1..]), |text| - n - 1)
  }

  function Read(text: string): Decimal {
    var negative := text != "" && text[0] == '-';
    var m := ReadMagnitude(if negative then text[1..] else text);
    Decimal(negative, m.digits, -(m.places as int))
  }

  // ---------------------------------------------------------------- shortest form of a magnitude

  /** Without trailing zeros right of the point. */
  function Shortest(m: Magnitude): (r: Magnitude)
    ensures r.places == 0 || r.digits % 10 != 0
    ensures r.places <= m.places
    decreases m.places
  {
    if m.places > 0 && m.digits % 10 == 0 then Shortest(Magnitude(m.digits / 10, m.places - 1)) else m
  }

  lemma {:induction false} ScaleOnce(n: nat, j: nat)
    ensures Scale(10 * n, j) == 10 * Scale(n, j)
  {
    if j > 0 {
      ScaleOnce(n, j - 1);
    }
  }

  lemma {:induction false} ScaleInjective(a: nat, b: nat, j: nat)
    ensures Scale(a, j) == Scale(b, j) <==> a == b
  {
    if j > 0 {
      ScaleInjective(a, b, j - 1);
    }
  }

  lemma {:induction false} ScaleTwice(n: nat, i: nat, j: nat)
    ensures Scale(Scale(n, i), j) == Scale(n, i + j)
  {
    if j > 0 {
      ScaleTwice(n, i, j - 1);
    }
  }

  lemma SameShift(m: Magnitude)
    requires m.places > 0 && m.digits % 10 == 0
    ensures SameMagnitude(m, Magnitude(m.digits / 10, m.places - 1))
  {
    var n := m.digits / 10;
    assert m.digits == 10 * n;
    ScaleOnce(n, m.places - 1);
  }

  lemma SameTransitive(a: Magnitude, b: Magnitude, c: Magnitude)
    requires SameMagnitude(a, b) && SameMagnitude(b, c)
    ensures SameMagnitude(a, c)
  {
    ScaleTwice(a.digits, b.places, c.places);
    ScaleTwice(a.digits, c.places, b.places);
    ScaleTwice(b.digits, a.places, c.places);
    ScaleTwice(b.digits, c.places, a.places);
    ScaleTwice(c.digits, b.places, a.places);
    ScaleTwice(c.digits, a.places, b.places);
    ScaleInjective(Scale(a.digits, c.places), Scale(c.digits, a.places), b.places);
  }

  lemma {:induction false} ShortestSame(m: Magnitude)
    ensures SameMagnitude(m, Shortest(m))
    decreases m.places
  {
    if m.places > 0 && m.digits % 10 == 0 {
      var next := Magnitude(m.digits / 10, m.places - 1);
      SameShift(m);
      ShortestSame(next);
      SameTransitive(m, next, Shortest(next));
    }
  }

  lemma ScaleEndsInZero(n: nat, j: nat)
    requires j > 0
    ensures Scale(n, j) % 10 == 0
  {
  }

  /** Two shortest magnitudes with the same value are the same. */
  lemma ShortestUnique(a: Magnitude, b: Magnitude)
    requires SameMagnitude(a, b)
    requires a.places == 0 || a.digits % 10 != 0
    requires b.places == 0 || b.digits % 10 != 0
    ensures a == b
  {
    if a.places == b.places {
      ScaleInjective(a.digits, b.digits, a.places);
    } else if a.places < b.places {
      ScaleTwice(a.digits, b.places - a.places, a.places);
      ScaleInjective(Scale(a.digits, b.places - a.places), b.digits, a.places);
      ScaleEndsInZero(a.digits, b.places - a.places);
    } else {
      ScaleTwice(b.digits, a.places - b.places, b.places);
      ScaleInjective(Scale(b.digits, a.places - b.places), a.digits, b.places);
      ScaleEndsInZero(b.digits, a.places - b.places);
    }
  }

  // ---------------------------------------------------------------- printing and the shortest form

  predicate AllDigits(text: string) {
    forall c <- text :: '0' <= c <= '9'
  }

  lemma ReadAppend(text: string, n: nat)
    requires n < 10
    ensures ReadDigits(text + [Digit(n)]) == 10 * ReadDigits(text) + n
    ensures AllDigits(text) ==> AllDigits(text + [Digit(n)])
  {
    assert (text + [Digit(n)])[..|text|] == text;
  }

  lemma {:induction false} DigitsFacts(n: nat)
    ensures Digits(n) != "" && AllDigits(Digits(n)) && ReadDigits(Digits(n)) == n
  {
    if n >= 10 {
      DigitsFacts(n / 10);
      ReadAppend(Digits(n / 10), n % 10);
    }
  }

  lemma {:induction false} FractionFacts(m: Magnitude)
    ensures |Fraction(m)| == m.places && AllDigits(Fraction(m))
    ensures ReadDigits(Digits(Whole(m)) + Fraction(m)) == m.digits
    decreases m.places
  {
    var whole := Digits(Whole(m));
    if m.places == 0 {
      DigitsFacts(m.digits);
      assert whole + "" == whole;
    } else {
      var next := Magnitude(m.digits / 10, m.places - 1);
      FractionFacts(next);
      ReadAppend(whole + Fraction(next), m.digits % 10);
      ReadAppend(Fraction(next), m.digits % 10);
      assert whole + Fraction(m) == (whole + Fraction(next)) + [Digit(m.digits % 10)];
      hide AllDigits, ReadDigits, Digit;
    }
  }

  lemma StripNothing(text: string, c: char)
    requires text == "" || text[|text| - 1] != c
    ensures StripRight(text, c) == text
  {
  }

  lemma StripOne(text: string, c: char)
    ensures StripRight(text + [c], c) == StripRight(text, c)
  {
    assert (text + [c])[..|text|] == text;
  }

  /** Dropping trailing zeros of the text is dropping trailing zeros of the number. */
  lemma {:induction false} ShortenedIsShortest(m: Magnitude)
    ensures Shortened(FixedPoint(m)) == FixedPoint(Shortest(m))
    decreases m.places
  {
    var whole := Digits(Whole(m));
    DigitsFacts(Whole(m));
    FractionFacts(m);
    if m.places == 0 {
      NoPoint(whole);
    } else {
      var next := Magnitude(m.digits / 10, m.places - 1);
      var text := FixedPoint(m);
      assert text[|whole|] == '.';
      if m.digits % 10 != 0 {
        assert text[|text| - 1] == Digit(m.digits % 10);
        StripNothing(text, '0');
        StripNothing(text, '.');
      } else {
        assert text == (whole + "." + Fraction(next)) + "0";
        StripOne(whole + "." + Fraction(next), '0');
        if m.places == 1 {
          assert whole + "." + "" == whole + ".";
          StripNothing(whole + ".", '0');
          StripOne(whole, '.');
          NoPointAtEnd(whole);
        } else {
          assert FixedPoint(next) == whole + "." + Fraction(next);
          assert FixedPoint(next)[|whole|] == '.';
          ShortenedIsShortest(next);
        }
      }
    }
  }

  lemma NoPoint(text: string)
    requires AllDigits(text)
    ensures Shortened(text) == text
  {
  }

  lemma NoPointAtEnd(text: string)
    requires AllDigits(text) && text != ""
    ensures StripRight(text, '.') == text
  {
    assert text[|text| - 1] in text;
  }

  lemma PointAfter(whole: string, rest: string)
    requires AllDigits(whole)
    ensures PointAt(whole) == |whole| && PointAt(whole + "." + rest) == |whole|
  {
    var text := whole + "." + rest;
    var n := PointAt(text);
    assert text[|whole|] == '.';
    assert forall i | 0 <= i < |whole| :: text[i] == whole[i] && whole[i] in whole;
  }

  /** Reading fixed-point text gives back exactly the magnitude that was written. */
  lemma ReadFixedPoint(m: Magnitude)
    ensures ReadMagnitude(FixedPoint(m)) == m
    ensures FixedPoint(m) != "" && FixedPoint(m)[0] != '-'
  {
    var whole := Digits(Whole(m));
    DigitsFacts(Whole(m));
    FractionFacts(m);
    PointAfter(whole, Fraction(m));
    assert whole[0] in whole;
    if m.places == 0 {
      assert whole + "" == whole;
    } else {
      var text := FixedPoint(m);
      assert text == whole + "." + Fraction(m);
      assert text[..|whole|] == whole && text[|whole| + 1..] == Fraction(m);
    }
  }

  // ---------------------------------------------------------------- canonicity

  lemma ShortenedReads(d: Decimal)
    ensures ReadMagnitude(Shortened(FixedPoint(MagnitudeOf(d)))) == Shortest(MagnitudeOf(d))
    ensures var body := Shortened(FixedPoint(MagnitudeOf(d))); body != "" && body[0] != '-'
  {
    ShortenedIsShortest(MagnitudeOf(d));
    ReadFixedPoint(Shortest(MagnitudeOf(d)));
  }

  lemma {:induction false} ScaleZero(n: nat, j: nat)
    ensures Scale(n, j) == 0 <==> n == 0
  {
    if j > 0 {
      ScaleZero(n, j - 1);
    }
  }

  lemma EqualZero(a: Decimal, b: Decimal)
    requires SameMagnitude(MagnitudeOf(a), MagnitudeOf(b))
    ensures IsZero(a) <==> IsZero(b)
  {
    var m, n := MagnitudeOf(a), MagnitudeOf(b);
    if a.exponent >= 0 { ScaleZero(a.coefficient, a.exponent); }
    if b.exponent >= 0 { ScaleZero(b.coefficient, b.exponent); }
    ScaleZero(m.digits, n.places);
    ScaleZero(n.digits, m.places);
  }

  lemma ReadText(d: Decimal)
    requires !IsZero(d)
    ensures var m := Shortest(MagnitudeOf(d)); Read(Text(d)) == Decimal(d.negative, m.digits, -(m.places as int))
  {
    ShortenedReads(d);
    var body := Shortened(FixedPoint(MagnitudeOf(d)));
    assert ("-" + body)[1..] == body;
    assert "" + body == body;
    hide Shortened, FixedPoint, MagnitudeOf, ReadMagnitude;
  }

  lemma BackAgain(m: Magnitude, negative: bool)
    ensures MagnitudeOf(Decimal(negative, m.digits, -(m.places as int))) == m
  {
  }

  /** Parsing the printed text gives the same number. */
  lemma TextReadsBack(d: Decimal)
    ensures Equal(Read(Text(d)), d)
  {
    var m := MagnitudeOf(d);
    if IsZero(d) {
      assert Read("0") == Decimal(false, 0, 0) by { ReadZero(); }
      if d.exponent >= 0 { ScaleZero(d.coefficient, d.exponent); }
      ScaleZero(0, m.places);
    } else {
      ReadText(d);
      ShortestSame(m);
      BackAgain(Shortest(m), d.negative);
    }
  }

  lemma ReadZero()
    ensures Read("0") == Decimal(false, 0, 0)
  {
    assert PointAt("0") == 1 by { assert PointAt("") == 0; }
    assert "0"[..0] == "";
    assert ReadDigits("0") == 0;
  }

  /** The printer is canonical: two decimals print alike exactly when they are numerically equal,
  whatever their exponents and trailing zeros. */
  lemma TextIsCanonical(a: Decimal, b: Decimal)
    ensures Text(a) == Text(b) <==> Equal(a, b)
  {
    var m, n := MagnitudeOf(a), MagnitudeOf(b);
    ShortestSame(m);
    ShortestSame(n);
    if Equal(a, b) {
      EqualZero(a, b);
      if !IsZero(a) {
        SameTransitive(Shortest(m), m, n);
        SameTransitive(Shortest(m), n, Shortest(n));
        ShortestUnique(Shortest(m), Shortest(n));
        ShortenedIsShortest(m);
        ShortenedIsShortest(n);
      }
    }
    if Text(a) == Text(b) {
      TextReadsBack(a);
      TextReadsBack(b);
      EqualThrough(a, Read(Text(a)), b);
    }
    hide Text, Shortened, FixedPoint, Read;
  }

  lemma EqualThrough(a: Decimal, read: Decimal, b: Decimal)
    requires Equal(read, a) && Equal(read, b)
    ensures Equal(a, b)
  {
    SameTransitive(MagnitudeOf(a), MagnitudeOf(read), MagnitudeOf(b));
    EqualZero(read, a);
    EqualZero(read, b);
  }
}
