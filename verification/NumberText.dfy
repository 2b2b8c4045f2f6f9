/** The conversions between numbers and text in common.cpp. A string's terminating character is read past its end. */
module NumberText {

  import opened Arithmetic

  const TWO_TO_64: nat := 0x1_0000_0000_0000_0000
  const TWO_TO_32: nat := 0x1_0000_0000
  const INT_BUFFER_SIZE := 22
  const FLOAT_BUFFER_SIZE := 17
  const NUMBER_OF_DECIMAL_PLACES := 4
  const FLT_DIG := 6

  // ---- Characters and digits

  function At(s: string, i: nat): char {
    if i < |s| then s[i] else '\0'
  }

  predicate IsDigit(c: char) {
    '0' <= c <= '9'
  }

  function Digit(c: char): (d: nat)
    ensures d < 10
  {
    if IsDigit(c) then c as int - 0x30 else 0
  }

  function DigitChar(d: nat): (c: char)
    requires d < 10
    ensures IsDigit(c) && Digit(c) == d
  {
    (d + 0x30) as char
  }

  predicate AllDigits(s: string) {
    forall k :: 0 <= k < |s| ==> IsDigit(s[k])
  }

  /** Where the run of digits that starts at `i` ends. */
  function DigitsEnd(s: string, i: nat): (end: nat)
    requires i <= |s|
    ensures i <= end <= |s|
    decreases |s| - i
  {
    if IsDigit(At(s, i)) then DigitsEnd(s, i + 1) else i
  }

  /** The value of a decimal numeral. */
  function Value(digits: string): nat {
    if digits == "" then 0 else 10 * Value(digits[..|digits| - 1]) + Digit(digits[|digits| - 1])
  }

  lemma NextDigit(s: string, start: nat, end: nat)
    requires start <= end < |s|
    ensures Value(s[start..end + 1]) == 10 * Value(s[start..end]) + Digit(s[end])
    ensures AllDigits(s[start..end]) && IsDigit(s[end]) ==> AllDigits(s[start..end + 1])
  {
    assert s[start..end + 1] == s[start..end] + [s[end]];
  }

  lemma {:induction false} DigitsRun(s: string, i: nat)
    requires i <= |s|
    ensures AllDigits(s[i..DigitsEnd(s, i)]) && !IsDigit(At(s, DigitsEnd(s, i)))
    decreases |s| - i
  {
    if IsDigit(At(s, i)) {
      DigitsRun(s, i + 1);
      assert s[i..DigitsEnd(s, i)] == [s[i]] + s[i + 1..DigitsEnd(s, i)];
    }
  }

  /** The run of digits ends at the only place where a run can end. */
  lemma {:induction false} DigitsEndAt(s: string, i: nat, end: nat)
    requires i <= end <= |s| && AllDigits(s[i..end]) && !IsDigit(At(s, end))
    ensures DigitsEnd(s, i) == end
    decreases end - i
  {
    if i < end {
      assert s[i] == s[i..end][0];
      assert s[i + 1..end] == s[i..end][1..];
      DigitsEndAt(s, i + 1, end);
    }
  }

  // ---- Numerals

  /** The digits of a positive number; nothing for zero. */
  function Digits(v: nat): (s: string)
    ensures AllDigits(s) && Value(s) == v
  {
    if v == 0 then ""
    else
      var s := Digits(v / 10) + [DigitChar(v % 10)];
      assert s[..|s| - 1] == Digits(v / 10);
      s
  }

  function Decimal(v: nat): (s: string)
    ensures AllDigits(s) && |s| > 0 && Value(s) == v
  {
    if v == 0 then
      assert "0"[..0] == "";
      "0"
    else Digits(v)
  }

  function Pow10(n: nat): (p: nat)
    ensures p >= 1
  {
    if n == 0 then 1 else 10 * Pow10(n - 1)
  }

  /** The last `n` digits. */
  function Padded(v: nat, n: nat): (s: string)
    ensures |s| == n && AllDigits(s)
  {
    if n == 0 then "" else Padded(v / 10, n - 1) + [DigitChar(v % 10)]
  }

  lemma TenthBelow(v: nat, p: nat)
    requires v < 10 * p
    ensures v / 10 < p
  {
  }

  lemma ValueNext(s: string, d: nat)
    requires AllDigits(s) && d < 10
    ensures AllDigits(s + [DigitChar(d)]) && Value(s + [DigitChar(d)]) == 10 * Value(s) + d
  {
    assert (s + [DigitChar(d)])[..|s|] == s;
  }

  lemma {:induction false} PaddedValue(v: nat, n: nat)
    requires v < Pow10(n)
    ensures Value(Padded(v, n)) == v
  {
    if n > 0 {
      TenthBelow(v, Pow10(n - 1));
      PaddedValue(v / 10, n - 1);
      ValueNext(Padded(v / 10, n - 1), v % 10);
    }
  }

  /** Twenty digits hold every 64-bit number. */
  lemma TwentyDigits()
    ensures UINT64_MAX / 10 < Pow10(19)
  {
    assert Pow10(4) == 10000;
    assert Pow10(8) == 100000000;
    assert Pow10(12) == 1000000000000;
    assert Pow10(16) == 10000000000000000;
  }

  // ---- ulltoa and ftoa

  lemma LeadingDigit(v: nat, done: string, i: nat)
    requires 0 < v < Pow10(i)
    ensures i > 0 && v / 10 < Pow10(i - 1)
    ensures Digits(v) + done == Digits(v / 10) + ([DigitChar(v % 10)] + done)
  {
  }

  /** Puts a digit in front of the `done` ones. */
  method PutDigit(buffer: array<char>, i: nat, d: nat, ghost end: nat, ghost done: string)
    requires i < end <= buffer.Length && d < 10 && buffer[i + 1..end] == done
    modifies buffer
    ensures buffer[i..end] == [DigitChar(d)] + done
    ensures buffer[end..] == old(buffer[end..])
    ensures buffer[..i] == old(buffer[..i])
  {
    buffer[i] := DigitChar(d);
  }

  /** The digit loop of `ulltoa` and `ftoa`: writes the numeral so that it ends before index `end`. */
  method WriteDigits(value: nat, buffer: array<char>, end: nat) returns (i: nat)
    requires 0 < end <= buffer.Length && value / 10 < Pow10(end - 1)
    modifies buffer
    ensures i < end && buffer[i..end] == Decimal(value)
    ensures buffer[end..] == old(buffer[end..])
  {
    i := end - 1;
    PutDigit(buffer, i, value % 10, end, "");
    var v: nat := value / 10;
    ghost var done := [DigitChar(value % 10)];
    assert Decimal(value) == Digits(v) + done;
    while v != 0
      invariant i < end && v < Pow10(i)
      invariant buffer[i..end] == done && Decimal(value) == Digits(v) + done
      invariant buffer[end..] == old(buffer[end..])
      decreases v
    {
      LeadingDigit(v, done, i);
      i := i - 1;
      PutDigit(buffer, i, v % 10, end, done);
      done := [DigitChar(v % 10)] + done;
      v := v / 10;
    }
  }

  /** `memmove` to the start of the buffer. */
  method MoveToStart(buffer: array<char>, i: nat, count: nat)
    requires i + count <= buffer.Length
    modifies buffer
    ensures buffer[..count] == old(buffer[i..i + count])
  {
    forall k | 0 <= k < count {
      buffer[k] := buffer[i + k];
    }
  }

  method Ulltoa(value: uint64, buffer: array<char>)
    requires buffer.Length == INT_BUFFER_SIZE
    modifies buffer
    ensures |Decimal(value)| < INT_BUFFER_SIZE - 1
    ensures buffer[..|Decimal(value)| + 1] == Decimal(value) + ['\0']
  {
    var end := INT_BUFFER_SIZE - 2;
    buffer[end] := '\0';
    TwentyDigits();
    var i := WriteDigits(value, buffer, end);
    assert buffer[i..end + 1] == Decimal(value) + [buffer[end..][0]];
    MoveToStart(buffer, i, end + 1 - i);
  }

  /** The whole part of a magnitude below 2^32, and the four decimals after it, cut off. */
  function WholePart(v: real): (n: nat)
    requires 0.0 <= v < 4294967296.0
    ensures n < TWO_TO_32 && n as real <= v < n as real + 1.0
  {
    v.Floor
  }

  function Decimals(v: real): (n: nat)
    requires 0.0 <= v < 4294967296.0
    ensures n < 10000 && n as real <= (v - WholePart(v) as real) * 10000.0 < n as real + 1.0
  {
    ((v - WholePart(v) as real) * 10000.0).Floor
  }

  predicate Printable(v: real) {
    -4294967296.0 < v < 4294967296.0
  }

  function FloatText(v: real): string
    requires Printable(v)
  {
    (if v < 0.0 then "-" else "") + MagnitudeText(Abs(v))
  }

  function MagnitudeText(v: real): string
    requires 0.0 <= v < 4294967296.0
  {
    Decimal(WholePart(v)) + "." + Padded(Decimals(v), NUMBER_OF_DECIMAL_PLACES)
  }

  /** The decimals loop of `ftoa`. */
  method WriteDecimals(value: nat, buffer: array<char>, start: nat)
    requires start + NUMBER_OF_DECIMAL_PLACES <= buffer.Length
    modifies buffer
    ensures buffer[start..start + NUMBER_OF_DECIMAL_PLACES] == Padded(value, NUMBER_OF_DECIMAL_PLACES)
    ensures buffer[..start] == old(buffer[..start])
    ensures buffer[start + NUMBER_OF_DECIMAL_PLACES..] == old(buffer[start + NUMBER_OF_DECIMAL_PLACES..])
  {
    var temp, k := value, NUMBER_OF_DECIMAL_PLACES;
    while k != 0
      invariant 0 <= k <= NUMBER_OF_DECIMAL_PLACES && 0 <= temp
      invariant Padded(value, NUMBER_OF_DECIMAL_PLACES)
                == Padded(temp, k) + buffer[start + k..start + NUMBER_OF_DECIMAL_PLACES]
      invariant buffer[..start] == old(buffer[..start])
      invariant buffer[start + NUMBER_OF_DECIMAL_PLACES..] == old(buffer[start + NUMBER_OF_DECIMAL_PLACES..])
    {
      ghost var done := buffer[start + k..start + NUMBER_OF_DECIMAL_PLACES];
      k := k - 1;
      PutDigit(buffer, start + k, temp % 10, start + NUMBER_OF_DECIMAL_PLACES, done);
      temp := temp / 10;
    }
  }

  lemma {:induction false} LengthOfDigits(v: nat, n: nat)
    requires v < Pow10(n) && n > 0
    ensures |Decimal(v)| <= n
  {
    if v < 10 {
      assert Digits(v / 10) == "";
    } else {
      LengthOfDigits(v / 10, n - 1);
    }
  }

  lemma Assembled(t: string, a: nat, b: nat, c: nat, whole: string, decimals: string)
    requires a <= b < c && c + 1 == |t|
    requires t[a..b] == whole && t[b] == '.' && t[b + 1..c] == decimals && t[c] == '\0'
    ensures t[a..] == whole + "." + decimals + ['\0']
  {
    assert t[a..] == t[a..b] + [t[b]] + t[b + 1..c] + [t[c]];
  }

  /** The part of `ftoa` before the sign. */
  method WriteMagnitude(v: real, buffer: array<char>) returns (i: nat)
    requires buffer.Length == FLOAT_BUFFER_SIZE && 0.0 <= v < 4294967296.0
    modifies buffer
    ensures 0 < i < FLOAT_BUFFER_SIZE && buffer[i..] == MagnitudeText(v) + ['\0']
  {
    var end := FLOAT_BUFFER_SIZE - 1;
    buffer[end] := '\0';
    var point := end - 1 - NUMBER_OF_DECIMAL_PLACES;
    buffer[point] := '.';
    assert Pow10(point - 1) == 10000000000;
    LengthOfDigits(WholePart(v), point - 1);
    i := WriteDigits(WholePart(v), buffer, point);
    ghost var s := buffer[..];
    assert s[point..][0] == '.' && s[point..][end - point] == '\0';
    assert s[i..point] == Decimal(WholePart(v));
    WriteDecimals(Decimals(v), buffer, point + 1);
    ghost var t := buffer[..];
    assert t[..point + 1] == s[..point + 1] && t[end..] == s[end..];
    assert t[i..point] == t[..point + 1][i..point] == s[..point + 1][i..point] == s[i..point];
    assert t[point] == s[..point + 1][point] && t[end] == t[end..][0];
    assert t[point + 1..end] == Padded(Decimals(v), NUMBER_OF_DECIMAL_PLACES);
    Assembled(t, i, point, end, Decimal(WholePart(v)), Padded(Decimals(v), NUMBER_OF_DECIMAL_PLACES));
    assert buffer[i..] == t[i..];
  }

  method Ftoa(value: real, buffer: array<char>)
    requires buffer.Length == FLOAT_BUFFER_SIZE && Printable(value)
    modifies buffer
    ensures |FloatText(value)| < FLOAT_BUFFER_SIZE
    ensures buffer[..|FloatText(value)| + 1] == FloatText(value) + ['\0']
  {
    var i := WriteMagnitude(Abs(value), buffer);
    ghost var tail := buffer[i..];
    if value < 0.0 {
      i := i - 1;
      buffer[i] := '-';
      assert buffer[i..] == "-" + tail;
    }
    assert buffer[i..FLOAT_BUFFER_SIZE] == buffer[i..];
    assert buffer[i..] == FloatText(value) + ['\0'];
    MoveToStart(buffer, i, FLOAT_BUFFER_SIZE - i);
  }

  // ---- strtoull and strtoll

  /** What a conversion read, and where it stopped: at the start if there was no number. */
  datatype Read<T> = Read(value: T, end: nat)

  function UnsignedStart(s: string, i: nat): (start: nat)
    requires i <= |s|
    ensures i <= start <= |s|
  {
    if At(s, i) == '+' && IsDigit(At(s, i + 1)) then i + 1 else i
  }

  function Unsigned(s: string, i: nat): Read<nat>
    requires i <= |s|
  {
    var start := UnsignedStart(s, i);
    var end := DigitsEnd(s, start);
    Read(Value(s[start..end]) % TWO_TO_64, end)
  }

  /** Two's complement reading of the low 64 bits. */
  function Wrap64(v: int): (r: int)
    ensures -0x8000_0000_0000_0000 <= v < 0x8000_0000_0000_0000 ==> r == v
  {
    (v + 0x8000_0000_0000_0000) % 0x1_0000_0000_0000_0000 - 0x8000_0000_0000_0000
  }

  /** Two's complement reading of the low 32 bits. */
  function Wrap32(v: int): (r: int)
    ensures -0x8000_0000 <= v < 0x8000_0000 ==> r == v
  {
    (v + 0x8000_0000) % 0x1_0000_0000 - 0x8000_0000
  }

  function Signed(s: string, i: nat): Read<int>
    requires i <= |s|
  {
    var negative := At(s, i) == '-' && IsDigit(At(s, i + 1));
    var u := Unsigned(s, if negative then i + 1 else i);
    var n: int := u.value;
    Read(Wrap64(if negative then -n else n), u.end)
  }

  lemma ModStep(a: nat, d: nat)
    ensures (a % TWO_TO_64 * 10 % TWO_TO_64 + d) % TWO_TO_64 == (10 * a + d) % TWO_TO_64
  {
  }

  method Strtoull(s: string, i: nat) returns (value: nat, end: nat)
    requires i <= |s|
    ensures Read(value, end) == Unsigned(s, i)
  {
    value, end := 0, i;
    if At(s, end) == '+' && IsDigit(At(s, end + 1)) {
      end := end + 1;
    }
    ghost var start := end;
    while IsDigit(At(s, end))
      invariant start <= end <= |s| && AllDigits(s[start..end])
      invariant value == Value(s[start..end]) % TWO_TO_64
      decreases |s| - end
    {
      NextDigit(s, start, end);
      ModStep(Value(s[start..end]), Digit(s[end]));
      value := value * 10 % TWO_TO_64;
      value := (value + Digit(s[end])) % TWO_TO_64;
      end := end + 1;
    }
    DigitsEndAt(s, start, end);
  }

  method Strtoll(s: string, i: nat) returns (value: int, end: nat)
    requires i <= |s|
    ensures Read(value, end) == Signed(s, i)
  {
    if At(s, i) == '-' && IsDigit(At(s, i + 1)) {
      value, end := Strtoull(s, i + 1);
      value := Wrap64(-value);
    } else {
      value, end := Strtoull(s, i);
      value := Wrap64(value);
    }
  }

  /** A numeral in a text is read back. */
  lemma ReadNumeral(s: string, i: nat, v: nat, end: nat)
    requires i <= end <= |s| && s[i..end] == Decimal(v) && !IsDigit(At(s, end))
    ensures Unsigned(s, i) == Read(v % TWO_TO_64, end)
  {
    DigitsEndAt(s, i, end);
    assert s[i] == s[i..end][0];
  }

  /** `strtoull` undoes `ulltoa` on every 64-bit number, whatever follows that is not a digit. */
  lemma UlltoaStrtoull(v: uint64, rest: string)
    requires rest != "" ==> !IsDigit(rest[0])
    ensures Unsigned(Decimal(v) + rest, 0) == Read(v, |Decimal(v)|)
  {
    var s := Decimal(v) + rest;
    assert s[0..|Decimal(v)|] == Decimal(v);
    ReadNumeral(s, 0, v, |Decimal(v)|);
  }

  // ---- strtof

  predicate IsSign(c: char) {
    c == '-' || c == '+'
  }

  function FloatStart(s: string, i: nat): (start: nat)
    requires i <= |s|
    ensures i <= start <= |s|
  {
    if IsSign(At(s, i)) && (IsDigit(At(s, i + 1)) || (At(s, i + 1) == '.' && IsDigit(At(s, i + 2)))) then i + 1 else i
  }

  function FractionStart(s: string, i: nat): (start: nat)
    requires i <= |s|
    ensures i <= start <= |s|
  {
    if At(s, i) == '.' && IsDigit(At(s, i + 1)) then i + 1 else i
  }

  /** `v` divided by ten `n` times. */
  function Shifted(v: real, n: nat): real
    decreases n
  {
    if n == 0 then v else Shifted(v / 10.0, n - 1)
  }

  lemma {:induction false} ShiftedDivides(v: real, n: nat)
    ensures Shifted(v, n) * Pow10(n) as real == v
    decreases n
  {
    if n > 0 {
      ShiftedDivides(v / 10.0, n - 1);
      ShiftedNext(Shifted(v, n), v, Pow10(n - 1));
    }
  }

  lemma ShiftedNext(r: real, v: real, p: nat)
    requires r * p as real == v / 10.0
    ensures r * (10 * p) as real == v
  {
    assert (10 * p) as real == 10.0 * p as real;
    assert r * (10.0 * p as real) == 10.0 * (r * p as real);
  }

  /** At most six digits of the fraction count. */
  function KeptEnd(s: string, fraction: nat): (kept: nat)
    requires fraction <= |s|
    ensures fraction <= kept <= DigitsEnd(s, fraction) && kept <= fraction + FLT_DIG
  {
    var end := DigitsEnd(s, fraction);
    if end - fraction < FLT_DIG then end else fraction + FLT_DIG
  }

  /** A number from its sign, its whole part, and its fraction of `n` digits. */
  function Combined(negative: bool, whole: nat, fraction: nat, n: nat): real {
    var v := whole as real + Shifted(fraction as real, n);
    if negative then -v else v
  }

  predicate Negative(s: string, i: nat)
    requires i <= |s|
  {
    FloatStart(s, i) == i + 1 && At(s, i) == '-'
  }

  /** The fraction from index `fraction` on, behind a whole part that has been read. */
  function Fraction(s: string, fraction: nat, negative: bool, whole: nat): Read<real>
    requires fraction <= |s|
  {
    var kept := KeptEnd(s, fraction);
    Read(Combined(negative, whole, Value(s[fraction..kept]), kept - fraction), DigitsEnd(s, fraction))
  }

  /** The number from index `start` on, behind its sign. */
  function Magnitude(s: string, start: nat, negative: bool): Read<real>
    requires start <= |s|
  {
    var point := DigitsEnd(s, start);
    Fraction(s, FractionStart(s, point), negative, Value(s[start..point]))
  }

  function Float(s: string, i: nat): Read<real>
    requires i <= |s|
  {
    Magnitude(s, FloatStart(s, i), Negative(s, i))
  }

  /** One pass of the digit loop of `strtof`: the whole part, or the fraction, of which six digits are kept. */
  method ReadDigits(s: string, start: nat, firstPass: bool) returns (value: real, numberOfDigits: nat, end: nat)
    requires start <= |s|
    ensures end == DigitsEnd(s, start)
    ensures firstPass ==> value == Value(s[start..end]) as real
    ensures !firstPass ==> numberOfDigits == KeptEnd(s, start) - start
    ensures !firstPass ==> value == Value(s[start..KeptEnd(s, start)]) as real
  {
    value, numberOfDigits, end := 0.0, 0, start;
    while IsDigit(At(s, end))
      invariant start <= end <= |s| && AllDigits(s[start..end])
      invariant numberOfDigits == if firstPass || end - start < FLT_DIG then end - start else FLT_DIG
      invariant value == Value(s[start..start + numberOfDigits]) as real
      decreases |s| - end
    {
      NextDigit(s, start, end);
      if firstPass || numberOfDigits != FLT_DIG {
        value := value * 10.0;
        value := value + Digit(s[end]) as real;
        numberOfDigits := numberOfDigits + 1;
      }
      end := end + 1;
    }
    DigitsEndAt(s, start, end);
  }

  method Shift(v: real, numberOfDigits: nat) returns (r: real)
    ensures r == Shifted(v, numberOfDigits)
  {
    r := v;
    for i := numberOfDigits downto 0
      invariant Shifted(r, i) == Shifted(v, numberOfDigits)
    {
      r := r / 10.0;
    }
  }

  method SkipSign(s: string, i: nat) returns (start: nat, negative: bool)
    requires i <= |s|
    ensures start == FloatStart(s, i) && negative == Negative(s, i)
  {
    start, negative := i, false;
    if IsSign(At(s, i)) && (IsDigit(At(s, i + 1)) || (At(s, i + 1) == '.' && IsDigit(At(s, i + 2)))) {
      negative := At(s, i) == '-';
      start := start + 1;
    }
  }

  /** The part of `strtof` after the sign. */
  method ReadMagnitude(s: string, start: nat, negative: bool) returns (value: real, end: nat)
    requires start <= |s|
    ensures Read(value, end) == Magnitude(s, start, negative)
  {
    var numberOfDigits;
    value, numberOfDigits, end := ReadDigits(s, start, true);
    if At(s, end) == '.' && IsDigit(At(s, end + 1)) {
      end := end + 1;
    }
    value, end := ReadFraction(s, end, negative, value, Value(s[start..DigitsEnd(s, start)]));
  }

  method ReadFraction(s: string, fraction: nat, negative: bool, v: real, ghost whole: nat)
      returns (value: real, end: nat)
    requires fraction <= |s| && v == whole as real
    ensures Read(value, end) == Fraction(s, fraction, negative, whole)
  {
    var decimalValue, numberOfDigits;
    decimalValue, numberOfDigits, end := ReadDigits(s, fraction, false);
    decimalValue := Shift(decimalValue, numberOfDigits);
    value := v + decimalValue;
    value := if negative then -value else value;
  }

  method Strtof(s: string, i: nat) returns (value: real, end: nat)
    requires i <= |s|
    ensures Read(value, end) == Float(s, i)
  {
    var start, negative := SkipSign(s, i);
    value, end := ReadMagnitude(s, start, negative);
  }

  // ---- strtof undoes ftoa, up to truncation

  /** The number with its decimals after the fourth cut off. */
  function Truncated(v: real): real
    requires Printable(v)
  {
    var t := WholePart(Abs(v)) as real + Decimals(Abs(v)) as real / 10000.0;
    if v < 0.0 then -t else t
  }

  lemma Scaled(w: nat, d: nat)
    ensures (w as real + d as real / 10000.0) * 10000.0 == (w * 10000 + d) as real
  {
  }

  /** Four decimals are kept: the result is a whole number of ten-thousandths. */
  lemma TruncatedHasFourDecimals(v: real) returns (n: int)
    requires Printable(v)
    ensures Truncated(v) * 10000.0 == n as real
  {
    var w, d := WholePart(Abs(v)), Decimals(Abs(v));
    Scaled(w, d);
    n := w * 10000 + d;
    if v < 0.0 {
      n := -n;
    }
  }

  lemma TruncatesMagnitude(v: real, w: real, d: real)
    requires d <= (v - w) * 10000.0 < d + 1.0
    ensures w + d / 10000.0 <= v < w + d / 10000.0 + 1.0 / 10000.0
  {
  }

  /** The other decimals are cut off, so the number moves towards zero by less than one in the fourth decimal. */
  lemma TruncatesTowardsZero(v: real)
    requires Printable(v)
    ensures Abs(Truncated(v)) <= Abs(v) && Abs(v - Truncated(v)) < 1.0 / 10000.0
    ensures v >= 0.0 ==> Truncated(v) >= 0.0
    ensures v <= 0.0 ==> Truncated(v) <= 0.0
  {
    TruncatesMagnitude(Abs(v), WholePart(Abs(v)) as real, Decimals(Abs(v)) as real);
  }

  /** A whole part and a fraction of one to six digits around the point. */
  lemma ReadFloat(s: string, point: nat, end: nat)
    requires 0 < |s| && FloatStart(s, 0) <= point && point + 1 < end <= point + 1 + FLT_DIG && end <= |s|
    requires AllDigits(s[FloatStart(s, 0)..point]) && s[point] == '.' && AllDigits(s[point + 1..end])
             && !IsDigit(At(s, end))
    ensures DigitsEnd(s, FloatStart(s, 0)) == point && FractionStart(s, point) == point + 1
    ensures KeptEnd(s, point + 1) == end == DigitsEnd(s, point + 1)
  {
    DigitsEndAt(s, FloatStart(s, 0), point);
    assert s[point + 1] == s[point + 1..end][0];
    DigitsEndAt(s, point + 1, end);
  }

  lemma Placed(s: string, sign: string, whole: string, decimals: string, rest: string, point: nat, end: nat)
    requires s == sign + (whole + "." + decimals) + rest && (rest != "" ==> !IsDigit(rest[0]))
    requires point == |sign| + |whole| && end == point + 1 + |decimals|
    ensures end <= |s| && s[..|sign|] == sign && s[|sign|..point] == whole && s[point] == '.'
    ensures s[point + 1..end] == decimals && !IsDigit(At(s, end))
  {
    assert end < |s| ==> s[end] == rest[0];
  }

  lemma StartsAfterSign(s: string, sign: string, whole: string)
    requires sign == "" || sign == "-"
    requires whole != "" && AllDigits(whole) && |sign| + |whole| <= |s|
    requires s[..|sign|] == sign && s[|sign|..|sign| + |whole|] == whole
    ensures FloatStart(s, 0) == |sign| && Negative(s, 0) == (sign == "-")
  {
    assert s[|sign|] == s[|sign|..|sign| + |whole|][0] == whole[0];
    assert sign != "" ==> s[0] == s[..|sign|][0] == sign[0];
  }

  lemma ReadPlaced(s: string, sign: string, whole: string, decimals: string, point: nat, end: nat)
    requires sign == "" || sign == "-"
    requires whole != "" && AllDigits(whole) && 0 < |decimals| <= FLT_DIG && AllDigits(decimals)
    requires point == |sign| + |whole| && end == point + 1 + |decimals| && end <= |s|
    requires s[..|sign|] == sign && s[|sign|..point] == whole && s[point] == '.' && s[point + 1..end] == decimals
    requires !IsDigit(At(s, end))
    ensures Float(s, 0) == Read(Combined(sign == "-", Value(whole), Value(decimals), |decimals|), end)
  {
    StartsAfterSign(s, sign, whole);
    ReadFloat(s, point, end);
  }

  lemma ReadPrinted(s: string, sign: string, whole: string, decimals: string, rest: string)
    requires sign == "" || sign == "-"
    requires whole != "" && AllDigits(whole) && 0 < |decimals| <= FLT_DIG && AllDigits(decimals)
    requires rest != "" ==> !IsDigit(rest[0])
    requires s == sign + (whole + "." + decimals) + rest
    ensures Float(s, 0) == Read(Combined(sign == "-", Value(whole), Value(decimals), |decimals|),
                                |sign| + |whole| + 1 + |decimals|)
  {
    var point := |sign| + |whole|;
    var end := point + 1 + |decimals|;
    Placed(s, sign, whole, decimals, rest, point, end);
    ReadPlaced(s, sign, whole, decimals, point, end);
  }

  /** `strtof` undoes `ftoa` up to the truncation, whatever follows that is not a digit. */
  lemma FtoaStrtof(v: real, rest: string)
    requires Printable(v) && (rest != "" ==> !IsDigit(rest[0]))
    ensures Float(FloatText(v) + rest, 0) == Read(Truncated(v), |FloatText(v)|)
  {
    var w, n := WholePart(Abs(v)), Decimals(Abs(v));
    var sign := if v < 0.0 then "-" else "";
    ReadPrinted(FloatText(v) + rest, sign, Decimal(w), Padded(n, NUMBER_OF_DECIMAL_PLACES), rest);
    PaddedFraction(n);
    assert Combined(v < 0.0, w, n, NUMBER_OF_DECIMAL_PLACES) == Truncated(v);
  }

  lemma PaddedFraction(n: nat)
    requires n < 10000
    ensures Value(Padded(n, NUMBER_OF_DECIMAL_PLACES)) == n
    ensures Shifted(n as real, NUMBER_OF_DECIMAL_PLACES) == n as real / 10000.0
  {
    assert Pow10(NUMBER_OF_DECIMAL_PLACES) == 10000;
    PaddedValue(n, NUMBER_OF_DECIMAL_PLACES);
    ShiftedDivides(n as real, NUMBER_OF_DECIMAL_PLACES);
  }
}
