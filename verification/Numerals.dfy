/** Decimal numerals as a host writes them, what they mean, and how the conversions of common.cpp read them. */
module Numerals {
  import opened Arithmetic
  import opened NumberText

  function Ratio(a: nat, b: nat): real
    requires b > 0
  {
    a as real / b as real
  }

  /** What digits behind a point stand for. */
  function FractionValue(digits: string): real {
    Ratio(Value(digits), Pow10(|digits|))
  }

  /** A sign, digits, and digits behind a point; without the latter there is no point. */
  datatype Numeral = Numeral(sign: string, whole: string, fraction: string) {
    predicate Valid() {
      && (sign == "" || sign == "-" || sign == "+")
      && AllDigits(whole) && AllDigits(fraction) && (whole != "" || fraction != "")
    }

    function Tail(): string {
      if fraction == "" then "" else "." + fraction
    }

    function Text(): string {
      sign + (whole + Tail())
    }

    /** The number the text stands for. */
    function Meaning(): real {
      var v := Value(whole) as real + FractionValue(fraction);
      if sign == "-" then -v else v
    }

    /** The same for a numeral without a fraction. */
    function Integer(): int {
      var v: int := Value(whole);
      if sign == "-" then -v else v
    }

    /** At most six digits behind the point. */
    function Kept(): Numeral {
      if |fraction| <= FLT_DIG then this else Numeral(sign, whole, fraction[..FLT_DIG])
    }

    /** The digits behind the sixth. */
    function CutOff(): string {
      if |fraction| <= FLT_DIG then "" else fraction[FLT_DIG..]
    }
  }

  // ---- The parts of the text

  lemma Parts(n: Numeral, s: string)
    requires n.Valid() && s == n.Text()
    ensures var point := |n.sign| + |n.whole|;
      && point <= |s| && s[..|n.sign|] == n.sign && s[|n.sign|..point] == n.whole && s[point..] == n.Tail()
  {
  }

  lemma TailParts(s: string, point: nat, fraction: string)
    requires point < |s| && s[point..] == "." + fraction
    ensures s[point] == '.' && point + 1 + |fraction| == |s| && s[point + 1..|s|] == fraction
  {
    assert s[point] == s[point..][0];
    assert s[point + 1..|s|] == s[point..][1..];
  }

  /** The sign is skipped. */
  lemma SignSkipped(n: Numeral, s: string)
    requires n.Valid() && s == n.Text()
    ensures FloatStart(s, 0) == |n.sign| && Negative(s, 0) == (n.sign == "-")
  {
    var rest := n.whole + n.Tail();
    assert rest[0] == if n.whole != "" then n.whole[0] else '.';
    if n.whole == "" {
      assert rest[1] == n.fraction[0];
    }
    if n.sign != "" {
      assert s[0] == n.sign[0] && s[1] == rest[0];
      assert n.whole == "" ==> s[2] == rest[1];
    } else {
      assert s == rest;
    }
  }

  lemma WholeEnds(n: Numeral, s: string, point: nat)
    requires n.Valid() && s == n.Text() && point == |n.sign| + |n.whole|
    ensures point <= |s| && DigitsEnd(s, |n.sign|) == point && s[|n.sign|..point] == n.whole
    ensures FractionStart(s, point) == if n.fraction == "" then point else point + 1
  {
    Parts(n, s);
    if n.fraction != "" {
      TailParts(s, point, n.fraction);
      assert s[point + 1] == s[point + 1..|s|][0];
    }
    DigitsEndAt(s, |n.sign|, point);
  }

  lemma FractionAt(n: Numeral, s: string, start: nat)
    requires n.Valid() && s == n.Text() && start == |s| - |n.fraction|
    ensures s[start..|s|] == n.fraction
  {
    Parts(n, s);
    if n.fraction != "" {
      TailParts(s, |n.sign| + |n.whole|, n.fraction);
    }
  }

  lemma FractionEnds(n: Numeral, s: string, start: nat)
    requires n.Valid() && s == n.Text() && start == |s| - |n.fraction|
    ensures DigitsEnd(s, start) == |s| && s[start..KeptEnd(s, start)] == n.Kept().fraction
  {
    FractionAt(n, s, start);
    DigitsEndAt(s, start, |s|);
    SlicePrefix(s, start, |s|, KeptEnd(s, start));
  }

  lemma SlicePrefix(s: string, a: nat, c: nat, b: nat)
    requires a <= b <= c <= |s|
    ensures s[a..b] == s[a..c][..b - a]
  {
  }

  // ---- The float conversion

  lemma ShiftedIs(v: nat, n: nat)
    ensures Shifted(v as real, n) == Ratio(v, Pow10(n))
  {
    ShiftedDivides(v as real, n);
    Cancel(Shifted(v as real, n), v as real, Pow10(n) as real);
  }

  lemma Cancel(r: real, v: real, p: real)
    requires p > 0.0 && r * p == v
    ensures r == v / p
  {
  }

  lemma CombinedIs(n: Numeral)
    ensures Combined(n.sign == "-", Value(n.whole), Value(n.fraction), |n.fraction|) == n.Meaning()
  {
    ShiftedIs(Value(n.fraction), |n.fraction|);
  }

  /** The fraction of a numeral behind a whole part that has been read. */
  lemma FractionRead(n: Numeral, s: string, start: nat)
    requires n.Valid() && s == n.Text() && start == |s| - |n.fraction|
    ensures Fraction(s, start, n.sign == "-", Value(n.whole)) == Read(n.Kept().Meaning(), |s|)
  {
    var kept := n.Kept();
    FractionEnds(n, s, start);
    assert kept.sign == n.sign && kept.whole == n.whole;
    FractionIs(kept, s, start, KeptEnd(s, start));
  }

  lemma FractionIs(kept: Numeral, s: string, start: nat, end: nat)
    requires start <= |s| && end == KeptEnd(s, start) && s[start..end] == kept.fraction && DigitsEnd(s, start) == |s|
    ensures Fraction(s, start, kept.sign == "-", Value(kept.whole)) == Read(kept.Meaning(), |s|)
  {
    CombinedIs(kept);
  }

  lemma FloatRead(n: Numeral, s: string, point: nat, start: nat)
    requires n.Valid() && s == n.Text() && point == |n.sign| + |n.whole| && start == |s| - |n.fraction|
    ensures Float(s, 0) == Fraction(s, start, n.sign == "-", Value(n.whole))
  {
    SignSkipped(n, s);
    WholeEnds(n, s, point);
    assert start == if n.fraction == "" then point else point + 1;
  }

  /** `strtof` reads the whole text, as the number its first six decimals stand for. */
  lemma ReadsKept(n: Numeral)
    requires n.Valid()
    ensures Float(n.Text(), 0) == Read(n.Kept().Meaning(), |n.Text()|)
  {
    var s := n.Text();
    FloatRead(n, s, |n.sign| + |n.whole|, |s| - |n.fraction|);
    FractionRead(n, s, |s| - |n.fraction|);
  }

  // ---- What is cut off

  lemma {:induction false} ValueSplits(a: string, b: string)
    ensures Value(a + b) == Value(a) * Pow10(|b|) + Value(b)
    decreases |b|
  {
    if b == "" {
      assert a + b == a;
    } else {
      var front := b[..|b| - 1];
      ValueSplits(a, front);
      assert (a + b)[..|a + b| - 1] == a + front;
      TenTimes(Value(a), Pow10(|front|));
    }
  }

  lemma TenTimes(a: nat, p: nat)
    ensures a * (10 * p) == 10 * (a * p)
  {
  }

  lemma {:induction false} ValueBound(s: string)
    ensures Value(s) < Pow10(|s|)
  {
    if s != "" {
      ValueBound(s[..|s| - 1]);
    }
  }

  lemma {:induction false} Pow10Adds(a: nat, b: nat)
    ensures Pow10(a + b) == Pow10(a) * Pow10(b)
    decreases b
  {
    if b > 0 {
      Pow10Adds(a, b - 1);
      TenTimes(Pow10(a), Pow10(b - 1));
    }
  }

  lemma MillionIs()
    ensures Pow10(FLT_DIG) == 1000000
  {
    assert Pow10(3) == 1000;
  }

  /** A fraction is what its first part stands for, and less than one in the last place of that. */
  lemma CutFraction(v: real, head: real, tail: real, p: real, q: real)
    requires p > 0.0 && q > 0.0 && v == head * q + tail && 0.0 <= tail < q
    ensures head / p <= v / (p * q) < head / p + 1.0 / p
    ensures v / (p * q) == head / p <==> tail == 0.0
  {
    var pq := PositiveProduct(p, q);
    var x, y, u := head / p, v / pq, 1.0 / p;
    Quotient(head, p, 0.0);
    Quotient(v, pq, 0.0);
    Quotient(1.0, p, 0.0);
    Products(x, y, u, p, q, head, v, tail);
  }

  lemma Products(x: real, y: real, u: real, p: real, q: real, head: real, v: real, tail: real)
    requires p > 0.0 && q > 0.0 && x * p == head && y * (p * q) == v && u * p == 1.0
    requires v == head * q + tail && 0.0 <= tail < q
    ensures x <= y < x + u && (y == x <==> tail == 0.0)
  {
    var w := (y - x) * p;
    assert w * q == y * (p * q) - x * p * q;
    assert w * q == tail;
    FactorSign(w, q, tail);
    assert u * p == 1.0;
    FactorBelow(y - x, u, p, w);
  }

  lemma FactorSign(w: real, q: real, tail: real)
    requires q > 0.0 && w * q == tail && 0.0 <= tail < q
    ensures 0.0 <= w < 1.0 && (w == 0.0 <==> tail == 0.0)
  {
    if w < 0.0 {
      RealMulStrict(w, 0.0, q);
    }
    if w >= 1.0 {
      RealMul(1.0, w, q);
    }
  }

  lemma FactorBelow(d: real, u: real, p: real, w: real)
    requires p > 0.0 && d * p == w && u * p == 1.0 && 0.0 <= w < 1.0
    ensures 0.0 <= d < u && (d == 0.0 <==> w == 0.0)
  {
    if d < 0.0 {
      RealMulStrict(d, 0.0, p);
    }
    if d >= u {
      RealMul(u, d, p);
    }
  }

  lemma CutValues(digits: string, head: string, tail: string) returns (v: nat, h: nat, l: nat, q: nat)
    requires digits == head + tail && |head| == FLT_DIG
    ensures v == Value(digits) && h == Value(head) && l == Value(tail) && v == h * q + l && l < q
    ensures Pow10(|head|) == 1000000 && Pow10(|digits|) == 1000000 * q
  {
    v, h, l, q := Value(digits), Value(head), Value(tail), Pow10(|tail|);
    ValueSplits(head, tail);
    ValueBound(tail);
    Pow10Adds(FLT_DIG, |tail|);
    MillionIs();
  }

  lemma CutRatio(v: nat, h: nat, l: nat, q: nat)
    requires v == h * q + l && l < q
    ensures Ratio(h, 1000000) <= Ratio(v, 1000000 * q) < Ratio(h, 1000000) + 0.000001
    ensures Ratio(v, 1000000 * q) == Ratio(h, 1000000) <==> l == 0
  {
    RealProduct(h, q);
    assert (1000000 * q) as real == 1000000.0 * q as real;
    CutFraction(v as real, h as real, l as real, 1000000.0, q as real);
  }

  lemma CutDigits(digits: string, head: string, tail: string)
    requires digits == head + tail && |head| == FLT_DIG
    ensures FractionValue(head) <= FractionValue(digits) < FractionValue(head) + 0.000001
    ensures FractionValue(digits) == FractionValue(head) <==> Value(tail) == 0
  {
    var v, h, l, q := CutValues(digits, head, tail);
    CutRatio(v, h, l, q);
  }

  /** The digits of a fraction that reading keeps. */
  lemma KeptFraction(n: Numeral)
    ensures var f, kept := FractionValue(n.fraction), FractionValue(n.Kept().fraction);
      0.0 <= kept <= f < kept + 0.000001 && (f == kept <==> Value(n.CutOff()) == 0)
  {
    FractionNotNegative(n.Kept().fraction);
    if |n.fraction| > FLT_DIG {
      CutDigits(n.fraction, n.fraction[..FLT_DIG], n.CutOff());
    }
  }

  /**
   Reading cuts the decimals behind the sixth off: towards zero, by less than a millionth, and without effect exactly
   when they are zeros.
   */
  lemma KeptIsTruncated(n: Numeral)
    ensures var v, t := n.Meaning(), n.Kept().Meaning();
      && (if n.sign == "-" then v <= t <= 0.0 else 0.0 <= t <= v)
      && -0.000001 < v - t < 0.000001
      && (t == v <==> Value(n.CutOff()) == 0)
  {
    KeptFraction(n);
  }

  lemma RealProduct(a: nat, b: nat)
    ensures (a * b) as real == a as real * b as real
  {
  }

  lemma FractionNotNegative(digits: string)
    ensures FractionValue(digits) >= 0.0
  {
    Quotient(Value(digits) as real, Pow10(|digits|) as real, 0.0);
  }

  // ---- The integer conversions

  /** `strtoull` reads digits behind an optional plus sign. */
  lemma ReadsUnsigned(n: Numeral)
    requires n.Valid() && n.fraction == "" && n.sign != "-"
    ensures Unsigned(n.Text(), 0) == Read(Value(n.whole) % TWO_TO_64, |n.Text()|)
  {
    var s := n.Text();
    Parts(n, s);
    WholeEnds(n, s, |s|);
    assert s[|n.sign|] == n.whole[0];
  }

  /** `strtoll` reads digits behind an optional sign. */
  lemma ReadsSigned(n: Numeral)
    requires n.Valid() && n.fraction == ""
    ensures var v: int := Value(n.whole) % TWO_TO_64;
      Signed(n.Text(), 0) == Read(Wrap64(if n.sign == "-" then -v else v), |n.Text()|)
  {
    var s := n.Text();
    Parts(n, s);
    WholeEnds(n, s, |s|);
    assert s[|n.sign|] == n.whole[0];
    if n.sign == "-" {
      assert s[0] == '-' && UnsignedStart(s, 1) == 1;
    } else {
      ReadsUnsigned(n);
      assert s[0] != '-';
    }
  }
}
