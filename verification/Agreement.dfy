/** The host's printer against the firmware's parser: both sides read the same numbers from a printed line. */
module Agreement {

  import opened Options
  import opened Arithmetic
  import opened NumberText
  import opened Numerals
  import F = FirmwareParser
  import H = HostAscii

  // ---- A number inside a longer text

  /** `v` stands in `s` from index `i` on, and the character behind it belongs to no number. */
  predicate Embedded(s: string, i: nat, v: string) {
    i + |v| <= |s| && s[i..i + |v|] == v && F.IsBoundary(At(s, i + |v|))
  }

  lemma AtShift(s: string, i: nat, v: string, j: nat)
    requires Embedded(s, i, v) && j <= |v|
    ensures if j < |v| then At(s, i + j) == v[j] else F.IsBoundary(At(s, i + j))
  {
    if j < |v| {
      assert s[i..i + |v|][j] == s[i + j];
    }
  }

  lemma {:induction false} DigitsEndShift(s: string, i: nat, v: string, j: nat)
    requires Embedded(s, i, v) && j <= |v|
    ensures DigitsEnd(s, i + j) == i + DigitsEnd(v, j)
    decreases |v| - j
  {
    AtShift(s, i, v, j);
    if j < |v| && IsDigit(v[j]) {
      DigitsEndShift(s, i, v, j + 1);
    }
  }

  lemma SliceShift(s: string, i: nat, v: string, a: nat, b: nat)
    requires Embedded(s, i, v) && a <= b <= |v|
    ensures s[i + a..i + b] == v[a..b]
  {
    forall k | 0 <= k < b - a ensures s[i + a..i + b][k] == v[a..b][k] {
      assert s[i..i + |v|][a + k] == s[i + a + k];
    }
  }

  lemma UnsignedStartShift(s: string, i: nat, v: string, j: nat)
    requires Embedded(s, i, v) && j <= |v|
    ensures UnsignedStart(s, i + j) == i + UnsignedStart(v, j)
  {
    AtShift(s, i, v, j);
    if j < |v| {
      AtShift(s, i, v, j + 1);
    }
  }

  lemma UnsignedShift(s: string, i: nat, v: string, j: nat)
    requires Embedded(s, i, v) && j <= |v|
    ensures Unsigned(s, i + j) == Read(Unsigned(v, j).value, i + Unsigned(v, j).end)
  {
    UnsignedStartShift(s, i, v, j);
    var start := UnsignedStart(v, j);
    DigitsEndShift(s, i, v, start);
    SliceShift(s, i, v, start, DigitsEnd(v, start));
  }

  lemma SignedShift(s: string, i: nat, v: string)
    requires Embedded(s, i, v)
    ensures Signed(s, i) == Read(Signed(v, 0).value, i + Signed(v, 0).end)
  {
    AtShift(s, i, v, 0);
    if |v| > 0 && v[0] == '-' {
      AtShift(s, i, v, 1);
      UnsignedShift(s, i, v, 1);
    }
    UnsignedShift(s, i, v, 0);
  }

  lemma FloatStartShift(s: string, i: nat, v: string)
    requires Embedded(s, i, v)
    ensures FloatStart(s, i) == i + FloatStart(v, 0) && Negative(s, i) == Negative(v, 0)
  {
    AtShift(s, i, v, 0);
    if |v| > 0 {
      AtShift(s, i, v, 1);
      if |v| > 1 {
        AtShift(s, i, v, 2);
      }
    }
  }

  lemma FractionStartShift(s: string, i: nat, v: string, j: nat)
    requires Embedded(s, i, v) && j <= |v|
    ensures FractionStart(s, i + j) == i + FractionStart(v, j)
  {
    AtShift(s, i, v, j);
    if j < |v| {
      AtShift(s, i, v, j + 1);
    }
  }

  lemma KeptEndShift(s: string, i: nat, v: string, j: nat)
    requires Embedded(s, i, v) && j <= |v|
    ensures KeptEnd(s, i + j) == i + KeptEnd(v, j)
  {
    DigitsEndShift(s, i, v, j);
  }

  lemma FractionShift(s: string, i: nat, v: string, f: nat, negative: bool, whole: nat)
    requires Embedded(s, i, v) && f <= |v|
    ensures Fraction(s, i + f, negative, whole)
            == Read(Fraction(v, f, negative, whole).value, i + Fraction(v, f, negative, whole).end)
  {
    KeptEndShift(s, i, v, f);
    DigitsEndShift(s, i, v, f);
    SliceShift(s, i, v, f, KeptEnd(v, f));
  }

  lemma MagnitudeShift(s: string, i: nat, v: string, start: nat, negative: bool)
    requires Embedded(s, i, v) && start <= |v|
    ensures Magnitude(s, i + start, negative)
            == Read(Magnitude(v, start, negative).value, i + Magnitude(v, start, negative).end)
  {
    DigitsEndShift(s, i, v, start);
    var point := DigitsEnd(v, start);
    SliceShift(s, i, v, start, point);
    FractionStartShift(s, i, v, point);
    FractionShift(s, i, v, FractionStart(v, point), negative, Value(v[start..point]));
  }

  lemma FloatShift(s: string, i: nat, v: string)
    requires Embedded(s, i, v)
    ensures Float(s, i) == Read(Float(v, 0).value, i + Float(v, 0).end)
  {
    FloatStartShift(s, i, v);
    MagnitudeShift(s, i, v, FloatStart(v, 0), Negative(v, 0));
  }

  /** A number reads the same inside a longer text. */
  lemma NumberShift(s: string, i: nat, v: string, p: F.Parameter)
    requires Embedded(s, i, v)
    ensures F.ReadNumber(s, i, p) == Read(F.ReadNumber(v, 0, p).value, i + F.ReadNumber(v, 0, p).end)
  {
    UnsignedShift(s, i, v, 0);
    SignedShift(s, i, v);
    FloatShift(s, i, v);
  }

  // ---- Letters

  /** The host's place of a firmware parameter. */
  function Place(p: F.Parameter): (i: nat)
    ensures H.IsParameter(i)
  {
    match p
    case G => 2
    case M => 1
    case T => 9
    case S => 10
    case P => 11
    case X => 3
    case Y => 4
    case Z => 5
    case F => 8
    case E => 6
    case N => 0
  }

  lemma SameLetter(i: nat, p: F.Parameter)
    requires H.IsParameter(i)
    ensures F.ParameterOf(H.Letter(i)) == Some(p) <==> i == Place(p)
  {
    F.EitherCase(H.Letter(i));
  }

  /** Values made of digits, signs and points. */
  predicate Numeric(v: string) {
    forall k :: 0 <= k < |v| ==> F.InNumber(v[k])
  }

  predicate NumericWords(ts: seq<H.Token>) {
    forall j :: 0 <= j < |ts| ==> H.IsParameter(ts[j].index) && Numeric(ts[j].value)
  }

  // ---- First occurrences in a printed line

  /** Whether a value starts with a number of the kind `p` takes. */
  function HasNumber(p: F.Parameter): string -> bool {
    (v: string) => F.ReadNumber(v, 0, p).end != 0
  }

  /** The value of the first word at place `i` whose value has a number. */
  function Named(ts: seq<H.Token>, i: nat, has: string -> bool): Option<string> {
    if ts == [] then None
    else if ts[0].index == i && has(ts[0].value) then Some(ts[0].value)
    else Named(ts[1..], i, has)
  }

  lemma {:induction false} FirstSkips(o: F.Findings, p: F.Parameter, low: nat, middle: nat, high: nat)
    requires low <= middle <= high && forall k :: low <= k < middle ==> !o.occurs(k, p)
    ensures F.First(o, p, low, high) == F.First(o, p, middle, high)
    decreases middle - low
  {
    if low < middle {
      FirstSkips(o, p, low + 1, middle, high);
    }
  }

  lemma WordEmbedded(s: string, k: nat, end: nat, v: string)
    requires k < end <= |s| && s[k + 1..end] == v && (end == |s| || s[end] == ' ')
    ensures Embedded(s, k + 1, v)
  {
  }

  lemma HeadNumber(s: string, k: nat, end: nat, v: string, p: F.Parameter)
    requires k < end <= |s| && s[k + 1..end] == v && (end == |s| || s[end] == ' ')
    ensures F.ReadNumber(s, k + 1, p) == Read(F.ReadNumber(v, 0, p).value, k + 1 + F.ReadNumber(v, 0, p).end)
  {
    WordEmbedded(s, k, end, v);
    NumberShift(s, k + 1, v, p);
  }

  lemma HeadOccurs(s: string, k: nat, end: nat, t: H.Token, p: F.Parameter)
    requires H.IsParameter(t.index)
    requires k < end <= |s| && s[k] == H.Letter(t.index) && s[k + 1..end] == t.value && (end == |s| || s[end] == ' ')
    ensures F.Occurs(s, k, p) <==> t.index == Place(p) && F.ReadNumber(t.value, 0, p).end != 0
  {
    HeadNumber(s, k, end, t.value, p);
    SameLetter(t.index, p);
  }

  /**
   The word at index `k` of a line: whether `p` occurs there, with which number, and nowhere else up to the next word.
   */
  lemma WordOccurs(o: F.Findings, s: string, k: nat, end: nat, t: H.Token, p: F.Parameter)
    requires F.Describes(o, s) && H.IsParameter(t.index) && Numeric(t.value)
    requires k < end <= |s| && s[k] == H.Letter(t.index) && s[k + 1..end] == t.value && (end == |s| || s[end] == ' ')
    ensures o.occurs(k, p) <==> t.index == Place(p) && HasNumber(p)(t.value)
    ensures o.number(k, p) == F.ReadNumber(t.value, 0, p).value
    ensures forall j :: k < j <= end && j < |s| ==> !o.occurs(j, p)
  {
    HeadOccurs(s, k, end, t, p);
    HeadNumber(s, k, end, t.value, p);
    assert F.Sought(k, p);
    forall j | k < j <= end && j < |s| ensures !o.occurs(j, p) {
      NoLetterIn(s, k, end, t.value, j);
      F.OtherLetter(o, s, j, p);
    }
  }

  lemma NoLetterIn(s: string, k: nat, end: nat, v: string, j: nat)
    requires Numeric(v) && k < end <= |s| && s[k + 1..end] == v && (end == |s| || s[end] == ' ') && k < j <= end
             && j < |s|
    ensures F.ParameterOf(s[j]) == None
  {
    if j < end {
      assert s[j] == v[j - k - 1];
      F.NotALetter(s[j]);
    }
  }

  /** What the firmware finds for `p` from index `k` of a line is what the words `ts` there name. */
  predicate FindsNamed(o: F.Findings, s: string, k: nat, ts: seq<H.Token>, p: F.Parameter)
    requires k <= |s|
  {
    var named := Named(ts, Place(p), HasNumber(p));
    && (F.First(o, p, k, |s|) < |s| <==> named.Some?)
    && (named.Some? ==> o.number(F.First(o, p, k, |s|), p) == F.ReadNumber(named.value, 0, p).value)
  }

  /** The word at index `k`: whether `p` occurs there, with which number, and nowhere else before `next`. */
  ghost predicate WordSays(o: F.Findings, k: nat, next: nat, t: H.Token, p: F.Parameter) {
    && (o.occurs(k, p) <==> t.index == Place(p) && HasNumber(p)(t.value))
    && o.number(k, p) == F.ReadNumber(t.value, 0, p).value
    && forall j :: k < j < next ==> !o.occurs(j, p)
  }

  lemma FoundFrom(o: F.Findings, s: string, k: nat, next: nat, ts: seq<H.Token>, p: F.Parameter)
    requires ts != [] && k < next <= |s| && WordSays(o, k, next, ts[0], p) && FindsNamed(o, s, next, ts[1..], p)
    ensures FindsNamed(o, s, k, ts, p)
  {
    if !o.occurs(k, p) {
      FirstSkips(o, p, k, next, |s|);
    }
  }

  lemma WordFound(o: F.Findings, s: string, k: nat, ts: seq<H.Token>, p: F.Parameter) returns (next: nat)
    requires F.Describes(o, s) && NumericWords(ts) && H.WordsOk(ts) && ts != [] && k <= |s| && s[k..] == H.Joined(ts)
    ensures k < next <= |s| && WordSays(o, k, next, ts[0], p)
    ensures s[next..] == H.Joined(ts[1..]) && NumericWords(ts[1..]) && H.WordsOk(ts[1..])
  {
    var end := k + |H.Word(ts[0])|;
    H.WordAt(s, k, ts);
    WordOccurs(o, s, k, end, ts[0], p);
    next := if |ts| == 1 then end else end + 1;
    assert s[next..] == H.Joined(ts[1..]);
  }

  lemma NoneFound(o: F.Findings, s: string, k: nat, p: F.Parameter)
    requires k <= |s| && s[k..] == H.Joined([])
    ensures FindsNamed(o, s, k, [], p)
  {
  }

  lemma {:induction false} FirstInLine(o: F.Findings, s: string, k: nat, ts: seq<H.Token>, p: F.Parameter)
    requires F.Describes(o, s) && NumericWords(ts) && H.WordsOk(ts) && k <= |s| && s[k..] == H.Joined(ts)
    ensures FindsNamed(o, s, k, ts, p)
    decreases |ts|
  {
    if ts == [] {
      NoneFound(o, s, k, p);
    } else {
      var next := WordFound(o, s, k, ts, p);
      FirstInLine(o, s, next, ts[1..], p);
      FoundFrom(o, s, k, next, ts, p);
    }
  }

  // ---- Whole lines

  lemma {:induction false} NoFirmwareEnd(s: string, i: nat)
    requires i <= |s| && forall k :: i <= k < |s| ==> !F.IsEnd(s[k])
    ensures F.Cut(s, i) == |s|
    decreases |s| - i
  {
    if i < |s| {
      NoFirmwareEnd(s, i + 1);
    }
  }

  /** The firmware finds nothing to trim in a line of words. */
  lemma LineIsTrimmed(ts: seq<H.Token>)
    requires H.WordsOk(ts) && ts != []
    ensures var s := H.Joined(ts); F.Start(s) == 0 && F.Stop(s) == |s| && |s| > 0 && s[0] != '@'
  {
    var s := H.Joined(ts);
    H.JoinedInLine(ts);
    assert forall k :: 0 <= k < |s| ==> H.InLine(s[k]) && !F.IsEnd(s[k]);
    assert F.Start(s) == 0;
    NoFirmwareEnd(s, 0);
  }

  lemma {:induction false} NamedNext(ts: seq<H.Token>, t: H.Token, i: nat, has: string -> bool)
    ensures Named(ts + [t], i, has) ==
      if Named(ts, i, has).Some? then Named(ts, i, has)
      else if t.index == i && has(t.value) then Some(t.value) else None
  {
    if ts == [] {
      assert ts + [t] == [t];
      assert [t][1..] == [];
    } else {
      assert (ts + [t])[1..] == ts[1..] + [t];
      NamedNext(ts[1..], t, i, has);
    }
  }

  lemma {:induction false} NamedIs(g: H.Command, n: nat, i: nat, has: string -> bool)
    requires g.Shaped() && i < H.ORDER_LENGTH && n <= H.ORDER_LENGTH
    ensures Named(H.Tokens(g, n), i, has)
            == if i < n && H.Printed(g, i) && has(g.values[i]) then Some(g.values[i]) else None
  {
    if n > 0 {
      NamedIs(g, n - 1, i, has);
      if H.Printed(g, n - 1) {
        NamedNext(H.Tokens(g, n - 1), H.Token(n - 1, g.values[n - 1]), i, has);
      } else {
        assert H.Tokens(g, n) == H.Tokens(g, n - 1);
      }
    }
  }

  /** A command whose values are numbers, or missing. */
  predicate NumericCommand(g: H.Command) {
    H.Plain(g) && forall i :: 0 <= i < H.ORDER_LENGTH ==> Numeric(g.values[i])
  }

  lemma NumericTokens(g: H.Command, n: nat)
    requires NumericCommand(g) && n <= H.ORDER_LENGTH
    ensures NumericWords(H.Tokens(g, n))
  {
    var ts := H.Tokens(g, n);
    forall j | 0 <= j < |ts| ensures H.IsParameter(ts[j].index) && Numeric(ts[j].value) {
      H.TokensAre(g, n, j);
    }
  }

  /**
   The firmware reads from the printed line of a command exactly the parameters it supports that have a number, each
   with the number its value starts with.
   */
  lemma FirmwareReadsPrinted(g: H.Command, p: F.Parameter)
    requires NumericCommand(g)
    ensures var s, v := H.Ascii(g), g.values[Place(p)];
      && (F.Present(s, p) <==> H.Printed(g, Place(p)) && F.ReadNumber(v, 0, p).end != 0)
      && (F.Present(s, p) ==> F.ValueOf(s, p) == F.ReadNumber(v, 0, p).value)
  {
    var ts, s := H.Tokens(g, H.ORDER_LENGTH), H.Ascii(g);
    H.AsciiIsJoined(g);
    NamedIs(g, H.ORDER_LENGTH, Place(p), HasNumber(p));
    if ts != [] {
      NumericTokens(g, H.ORDER_LENGTH);
      LineIsTrimmed(ts);
      F.FindingsDescribe(s);
      assert s[0..] == s;
      FirstInLine(F.FindingsOf(s), s, 0, ts, p);
    }
  }

  // ---- Numerals

  /** The parameters the firmware keeps as floats. */
  predicate IsFloat(p: F.Parameter) {
    p.X? || p.Y? || p.Z? || p.F? || p.E?
  }

  /**
   A numeral of the kind the firmware reads for `p`: of a fraction only for floats, of a minus sign not for naturals.
   */
  predicate Suits(n: Numeral, p: F.Parameter) {
    n.Valid() && (IsFloat(p) || (n.fraction == "" && (n.sign == "-" ==> p.S? || p.P?)))
  }

  /** The number a numeral stands for. */
  function Meant(n: Numeral, p: F.Parameter): F.Number {
    if IsFloat(p) then F.Decimal(n.Meaning()) else F.Whole(n.Integer())
  }

  /** The numerals whose number a firmware field holds exactly. */
  predicate FitsField(n: Numeral, p: F.Parameter) {
    match p
    case G => 0 <= n.Integer() < 0x100
    case T => 0 <= n.Integer() < 0x100
    case M => 0 <= n.Integer() < 0x1_0000
    case N => 0 <= n.Integer() <= 0xFFFF_FFFF_FFFF_FFFF
    case S => -0x8000_0000 <= n.Integer() < 0x8000_0000
    case P => -0x8000_0000 <= n.Integer() < 0x8000_0000
    case _ => Value(n.CutOff()) == 0
  }

  lemma NaturalFits(v: nat, width: nat)
    requires 0 < width <= TWO_TO_64
    ensures v % TWO_TO_64 % width == v <==> v < width
  {
    if v < width {
      DivModUnique(v, TWO_TO_64, 0, v);
      DivModUnique(v, width, 0, v);
    }
  }

  lemma IntegerFits(v: nat, negative: bool)
    ensures var low: int, n: int := v % TWO_TO_64, v;
      Wrap32(Wrap64(if negative then -low else low)) == (if negative then -n else n)
      <==> -0x8000_0000 <= (if negative then -n else n) < 0x8000_0000
  {
    if v <= 0x8000_0000 {
      DivModUnique(v, TWO_TO_64, 0, v);
    }
  }

  lemma SignedRead(s: string, w: int, p: F.Parameter)
    requires (p.S? || p.P?) && Signed(s, 0) == Read(w, |s|)
    ensures F.ReadNumber(s, 0, p) == Read(F.Whole(Wrap32(w)), |s|)
  {
  }

  lemma SignedReadWhatFits(n: Numeral, p: F.Parameter)
    requires Suits(n, p) && (p.S? || p.P?)
    ensures var r := F.ReadNumber(n.Text(), 0, p);
      r.end == |n.Text()| && (r.value == Meant(n, p) <==> FitsField(n, p))
  {
    var v := Value(n.whole);
    var low: int := v % TWO_TO_64;
    ReadsSigned(n);
    SignedRead(n.Text(), Wrap64(if n.sign == "-" then -low else low), p);
    IntegerFits(v, n.sign == "-");
  }

  /** The number of values a natural field holds. */
  function Capacity(p: F.Parameter): nat {
    if p.M? then 0x1_0000 else if p.N? then TWO_TO_64 else 0x100
  }

  lemma NaturalRead(s: string, v: nat, p: F.Parameter)
    requires p.G? || p.M? || p.T? || p.N?
    requires Unsigned(s, 0) == Read(v % TWO_TO_64, |s|)
    ensures F.ReadNumber(s, 0, p) == Read(F.Whole(v % TWO_TO_64 % Capacity(p)), |s|)
  {
  }

  lemma NaturalsReadWhatFits(n: Numeral, p: F.Parameter)
    requires Suits(n, p) && (p.G? || p.M? || p.T? || p.N?)
    ensures var r := F.ReadNumber(n.Text(), 0, p);
      r.end == |n.Text()| && (r.value == Meant(n, p) <==> FitsField(n, p))
  {
    ReadsUnsigned(n);
    NaturalRead(n.Text(), Value(n.whole), p);
    NaturalFits(Value(n.whole), Capacity(p));
  }

  /**
   Every parameter: the firmware reads the whole text of a numeral of its kind, as the number it stands for exactly when
   its field holds that number.
   */
  lemma ReadsWhatFits(n: Numeral, p: F.Parameter)
    requires Suits(n, p)
    ensures var r := F.ReadNumber(n.Text(), 0, p);
      r.end == |n.Text()| && (r.value == Meant(n, p) <==> FitsField(n, p))
  {
    if IsFloat(p) {
      ReadsKept(n);
      KeptIsTruncated(n);
    } else if p.S? || p.P? {
      SignedReadWhatFits(n, p);
    } else {
      NaturalsReadWhatFits(n, p);
    }
  }

  /** A float never differs from the number meant by a millionth, nor lies further from zero. */
  lemma ReadsFloats(n: Numeral, p: F.Parameter)
    requires n.Valid() && IsFloat(p)
    ensures var r := F.ReadNumber(n.Text(), 0, p);
      && r.end == |n.Text()| && r.value.Decimal?
      && -0.000001 < n.Meaning() - r.value.decimal < 0.000001
      && if n.sign == "-" then n.Meaning() <= r.value.decimal <= 0.0 else 0.0 <= r.value.decimal <= n.Meaning()
  {
    ReadsKept(n);
    KeptIsTruncated(n);
  }

  /**
   Both sides agree on a whole line: a parameter of either side's eleven common letters that the host prints with a
   numeral of its kind is present for the firmware, with the number the numeral stands for exactly when the field holds
   it.
   */
  lemma LineCarriesNumber(g: H.Command, p: F.Parameter, n: Numeral)
    requires NumericCommand(g) && H.Printed(g, Place(p)) && g.values[Place(p)] == n.Text() && Suits(n, p)
    ensures F.Present(H.Ascii(g), p)
    ensures F.ValueOf(H.Ascii(g), p) == Meant(n, p) <==> FitsField(n, p)
  {
    FirmwareReadsPrinted(g, p);
    ReadsWhatFits(n, p);
    NotEmpty(n);
  }

  lemma NotEmpty(n: Numeral)
    requires n.Valid()
    ensures |n.Text()| > 0
  {
  }
}
