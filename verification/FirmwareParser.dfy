/** The G-code parser of the firmware, gcode.cpp. */
module FirmwareParser {

  import A = Arithmetic
  import opened Options
  import opened NumberText

  datatype Parameter = G | M | T | S | P | X | Y | Z | F | E | N

  datatype Number = Whole(whole: int) | Decimal(decimal: real)

  // ---- What the text says

  predicate IsWhitespace(c: char) {
    c == ' ' || '\t' <= c <= '\r'
  }

  /** Ends the part of the line that holds parameters. */
  predicate IsEnd(c: char) {
    c == '\0' || c == ';' || c == '*' || c == '\n'
  }

  /** The character with bit 5 set. */
  function LowerCase(c: char): char {
    if c as int < 0x100 && c as int / 0x20 % 2 == 0 then (c as int + 0x20) as char else c
  }

  /** The parameter a letter stands for: its place in "gmtspxyzfen". */
  function ParameterOf(c: char): Option<Parameter> {
    match LowerCase(c)
    case 'g' => Some(G)
    case 'm' => Some(M)
    case 't' => Some(T)
    case 's' => Some(S)
    case 'p' => Some(P)
    case 'x' => Some(X)
    case 'y' => Some(Y)
    case 'z' => Some(Z)
    case 'f' => Some(F)
    case 'e' => Some(E)
    case 'n' => Some(N)
    case _ => None
  }

  /** The number at index `i`, as wide as the parameter's field; it ends at `i` if there is none. */
  function ReadNumber(s: string, i: nat, p: Parameter): Read<Number>
    requires i <= |s|
  {
    match p
    case G => var r := Unsigned(s, i); Read(Whole(r.value % 0x100), r.end)
    case M => var r := Unsigned(s, i); Read(Whole(r.value % 0x1_0000), r.end)
    case T => var r := Unsigned(s, i); Read(Whole(r.value % 0x100), r.end)
    case N => var r := Unsigned(s, i); Read(Whole(r.value), r.end)
    case S => var r := Signed(s, i); Read(Whole(Wrap32(r.value)), r.end)
    case P => var r := Signed(s, i); Read(Whole(Wrap32(r.value)), r.end)
    case _ => var r := Float(s, i); Read(Decimal(r.value), r.end)
  }

  /** The letter of `p` at index `k`, directly followed by a number. */
  predicate Occurs(s: string, k: nat, p: Parameter)
    requires k < |s|
  {
    ParameterOf(s[k]) == Some(p) && ReadNumber(s, k + 1, p).end != k + 1
  }

  /** A letter in either case. */
  lemma EitherCase(c: char)
    ensures ParameterOf(c) == Some(G) <==> c == 'g' || c == 'G'
    ensures ParameterOf(c) == Some(M) <==> c == 'm' || c == 'M'
    ensures ParameterOf(c) == Some(T) <==> c == 't' || c == 'T'
    ensures ParameterOf(c) == Some(S) <==> c == 's' || c == 'S'
    ensures ParameterOf(c) == Some(P) <==> c == 'p' || c == 'P'
    ensures ParameterOf(c) == Some(X) <==> c == 'x' || c == 'X'
    ensures ParameterOf(c) == Some(Y) <==> c == 'y' || c == 'Y'
    ensures ParameterOf(c) == Some(Z) <==> c == 'z' || c == 'Z'
    ensures ParameterOf(c) == Some(F) <==> c == 'f' || c == 'F'
    ensures ParameterOf(c) == Some(E) <==> c == 'e' || c == 'E'
    ensures ParameterOf(c) == Some(N) <==> c == 'n' || c == 'N'
  {
  }

  /**
   A number of the kind `p` takes starts at index `i`: '-' only for S, P and fractions, a point only for fractions.
   */
  predicate StartsNumber(s: string, i: nat, p: Parameter) {
    var unsigned := p in {G, M, T, N};
    var signed := p in {S, P};
    var j := if At(s, i) == '+' || (At(s, i) == '-' && !unsigned) then i + 1 else i;
    IsDigit(At(s, j)) || (!unsigned && !signed && At(s, j) == '.' && IsDigit(At(s, j + 1)))
  }

  lemma UnsignedReads(s: string, i: nat)
    requires i <= |s|
    ensures Unsigned(s, i).end != i <==> IsDigit(At(s, i)) || (At(s, i) == '+' && IsDigit(At(s, i + 1)))
  {
  }

  lemma SignedReads(s: string, i: nat)
    requires i <= |s|
    ensures Signed(s, i).end != i <==> IsDigit(At(s, i)) || (IsSign(At(s, i)) && IsDigit(At(s, i + 1)))
  {
    UnsignedReads(s, i);
    if i < |s| {
      UnsignedReads(s, i + 1);
    }
  }

  lemma FloatReads(s: string, i: nat)
    requires i <= |s|
    ensures var j := if IsSign(At(s, i)) then i + 1 else i;
      Float(s, i).end != i <==> IsDigit(At(s, j)) || (At(s, j) == '.' && IsDigit(At(s, j + 1)))
  {
    var start := FloatStart(s, i);
    var point := DigitsEnd(s, start);
    assert Float(s, i).end == DigitsEnd(s, FractionStart(s, point));
  }

  /** There is something to read exactly when a number starts. */
  lemma ReadsExactlyNumbers(s: string, i: nat, p: Parameter)
    requires i <= |s|
    ensures ReadNumber(s, i, p).end != i <==> StartsNumber(s, i, p)
  {
    UnsignedReads(s, i);
    SignedReads(s, i);
    FloatReads(s, i);
  }

  // ---- Where numbers stop

  lemma {:induction false} DigitsStop(s: string, i: nat, stop: nat)
    requires i <= stop <= |s| && !IsDigit(At(s, stop))
    ensures DigitsEnd(s, i) <= stop
    decreases stop - i
  {
    if i < stop && IsDigit(s[i]) {
      DigitsStop(s, i + 1, stop);
    }
  }

  predicate IsBoundary(c: char) {
    !IsDigit(c) && c != '.' && !IsSign(c)
  }

  lemma UnsignedStops(s: string, i: nat, stop: nat)
    requires i <= stop <= |s| && IsBoundary(At(s, stop))
    ensures i <= Unsigned(s, i).end <= stop
  {
    DigitsStop(s, UnsignedStart(s, i), stop);
  }

  lemma FloatStops(s: string, i: nat, stop: nat)
    requires i <= stop <= |s| && IsBoundary(At(s, stop))
    ensures i <= Float(s, i).end <= stop
  {
    var start := FloatStart(s, i);
    DigitsStop(s, start, stop);
    DigitsStop(s, FractionStart(s, DigitsEnd(s, start)), stop);
  }

  /** A number does not run over the end of the parameters. */
  lemma NumberStops(s: string, i: nat, p: Parameter, stop: nat)
    requires i <= stop <= |s| && IsBoundary(At(s, stop))
    ensures i <= ReadNumber(s, i, p).end <= stop
  {
    UnsignedStops(s, i, stop);
    FloatStops(s, i, stop);
    if i < stop {
      UnsignedStops(s, i + 1, stop);
    }
  }

  predicate InNumber(c: char) {
    IsDigit(c) || c == '.' || IsSign(c)
  }

  lemma DigitsInNumber(s: string, i: nat)
    requires i <= |s|
    ensures forall k :: i <= k < DigitsEnd(s, i) ==> InNumber(s[k])
  {
    DigitsRun(s, i);
    var run := s[i..DigitsEnd(s, i)];
    forall k | i <= k < DigitsEnd(s, i) ensures InNumber(s[k]) {
      assert s[k] == run[k - i];
    }
  }

  lemma UnsignedInNumber(s: string, i: nat)
    requires i <= |s|
    ensures forall k :: i <= k < Unsigned(s, i).end ==> InNumber(s[k])
  {
    DigitsInNumber(s, UnsignedStart(s, i));
  }

  lemma FloatInNumber(s: string, i: nat)
    requires i <= |s|
    ensures forall k :: i <= k < Float(s, i).end ==> InNumber(s[k])
  {
    var start := FloatStart(s, i);
    DigitsInNumber(s, start);
    DigitsInNumber(s, FractionStart(s, DigitsEnd(s, start)));
  }

  lemma SignedInNumber(s: string, i: nat)
    requires i <= |s|
    ensures forall k :: i <= k < Signed(s, i).end ==> InNumber(s[k])
  {
    UnsignedInNumber(s, i);
    if i < |s| {
      UnsignedInNumber(s, i + 1);
    }
  }

  lemma ReadInNumber(s: string, i: nat, p: Parameter)
    requires i <= |s|
    ensures i <= ReadNumber(s, i, p).end <= |s|
    ensures forall k :: i <= k < ReadNumber(s, i, p).end ==> InNumber(s[k])
  {
    NumberStops(s, i, p, |s|);
    UnsignedInNumber(s, i);
    SignedInNumber(s, i);
    FloatInNumber(s, i);
  }

  lemma NotALetter(c: char)
    requires InNumber(c)
    ensures ParameterOf(c) == None
  {
  }

  /** A number has no letter in it. */
  lemma NumberHasNoLetter(s: string, i: nat, p: Parameter, end: nat)
    requires i <= |s| && end == ReadNumber(s, i, p).end
    ensures i <= end <= |s|
    ensures forall k :: i <= k < end ==> ParameterOf(s[k]) == None
  {
    ReadInNumber(s, i, p);
    forall k | i <= k < end ensures ParameterOf(s[k]) == None {
      NotALetter(s[k]);
    }
  }

  // ---- Trimming

  /** The first character from `i` on that is not whitespace. */
  function TrimStart(s: string, i: nat): (k: nat)
    requires i <= |s|
    ensures i <= k <= |s| && !IsWhitespace(At(s, k))
    decreases |s| - i
  {
    if i < |s| && IsWhitespace(s[i]) then TrimStart(s, i + 1) else i
  }

  /** The end of the parameters, a comment, a checksum or the line from `i` on. */
  function Cut(s: string, i: nat): (k: nat)
    requires i <= |s|
    ensures i <= k <= |s| && IsEnd(At(s, k))
    decreases |s| - i
  {
    if i < |s| && !IsEnd(s[i]) then Cut(s, i + 1) else i
  }

  /** `end` without the whitespace before it, down to `start`. */
  function TrimEnd(s: string, start: nat, end: nat): (k: nat)
    requires start <= end <= |s|
    ensures start <= k <= end && (k == end || IsWhitespace(s[k]))
    decreases end
  {
    if start < end && IsWhitespace(s[end - 1]) then TrimEnd(s, start, end - 1) else end
  }

  function Start(s: string): nat {
    TrimStart(s, 0)
  }

  function Stop(s: string): (k: nat)
    ensures Start(s) <= k <= |s|
  {
    TrimEnd(s, Start(s), Cut(s, Start(s)))
  }

  lemma StopIsBoundary(s: string)
    ensures IsBoundary(At(s, Stop(s)))
  {
    var cut := Cut(s, Start(s));
    assert Stop(s) == cut || IsWhitespace(s[Stop(s)]);
  }

  // ---- The checksum

  function FirstStar(s: string, i: nat): (k: nat)
    requires i <= |s|
    ensures i <= k <= |s| && (k < |s| ==> s[k] == '*') && forall j :: i <= j < k ==> s[j] != '*'
    decreases |s| - i
  {
    if i < |s| && s[i] != '*' then FirstStar(s, i + 1) else i
  }

  function Byte(c: char): bv8 {
    (c as int % 0x100) as bv8
  }

  function LowByte(n: nat): bv8 {
    (n % 0x100) as bv8
  }

  /** The exclusive or of all characters. */
  function Xor(s: string): bv8 {
    if s == "" then 0 else Xor(s[..|s| - 1]) ^ Byte(s[|s| - 1])
  }

  /** The number after the first '*' is, modulo 256, the exclusive or of everything before it. */
  predicate ValidChecksum(s: string) {
    var star := FirstStar(s, 0);
    && star < |s|
    && Unsigned(s, star + 1).end != star + 1
    && LowByte(Unsigned(s, star + 1).value) == Xor(s[..star])
  }

  lemma {:induction false} StarAfter(s: string, i: nat, k: nat)
    requires i <= k <= |s| && forall j :: i <= j < k ==> s[j] != '*'
    ensures FirstStar(s, i) == FirstStar(s, k)
    decreases k - i
  {
    if i < k {
      StarAfter(s, i + 1, k);
    }
  }

  lemma {:induction false} WhitespaceBefore(s: string, i: nat)
    requires i <= |s|
    ensures forall j :: i <= j < TrimStart(s, i) ==> IsWhitespace(s[j])
    decreases |s| - i
  {
    if i < |s| && IsWhitespace(s[i]) {
      WhitespaceBefore(s, i + 1);
    }
  }

  lemma {:induction false} NoEndBefore(s: string, i: nat)
    requires i <= |s|
    ensures forall j :: i <= j < Cut(s, i) ==> !IsEnd(s[j])
    decreases |s| - i
  {
    if i < |s| && !IsEnd(s[i]) {
      NoEndBefore(s, i + 1);
    }
  }

  /** There is no '*' in front of the end of the parameters. */
  lemma StarAfterStop(s: string)
    ensures FirstStar(s, Stop(s)) == FirstStar(s, 0)
  {
    WhitespaceBefore(s, 0);
    NoEndBefore(s, Start(s));
    StarAfter(s, 0, Stop(s));
  }

  lemma {:induction false} NoStarIn(body: string, tail: string, i: nat)
    requires i <= |body| && tail != "" && tail[0] == '*' && forall k :: 0 <= k < |body| ==> body[k] != '*'
    ensures FirstStar(body + tail, i) == |body|
    decreases |body| - i
  {
    if i < |body| {
      NoStarIn(body, tail, i + 1);
    }
  }

  lemma AppendedNumber(body: string, n: nat, digits: string, rest: string, s: string)
    requires digits == NumberText.Decimal(n) && n < TWO_TO_64 && (rest != "" ==> !IsDigit(rest[0]))
    requires s == body + ("*" + digits + rest)
    ensures s[..|body|] == body && Unsigned(s, |body| + 1) == Read(n, |body| + 1 + |digits|)
  {
    var end := |body| + 1 + |digits|;
    assert s[|body| + 1..end] == digits;
    assert end < |s| ==> s[end] == rest[0];
    ReadNumeral(s, |body| + 1, n, end);
  }

  /**
   A checksum appended to a text without '*' is accepted exactly when it is the exclusive or of the text modulo 256.
   */
  lemma AppendedChecksum(body: string, n: nat, rest: string)
    requires (forall k :: 0 <= k < |body| ==> body[k] != '*') && n < TWO_TO_64 && (rest != "" ==> !IsDigit(rest[0]))
    ensures ValidChecksum(body + ("*" + NumberText.Decimal(n) + rest)) <==> LowByte(n) == Xor(body)
  {
    var digits := NumberText.Decimal(n);
    var tail := "*" + digits + rest;
    NoStarIn(body, tail, 0);
    AppendedNumber(body, n, digits, rest, body + tail);
  }

  lemma XorDiffers(a: bv8, b: bv8, c: bv8)
    requires a != b
    ensures a ^ c != b ^ c && c ^ a != c ^ b
  {
  }

  /** One changed character changes the exclusive or. */
  lemma {:induction false} ChangeIsSeen(s: string, i: nat, c: char)
    requires i < |s| && Byte(c) != Byte(s[i])
    ensures Xor(s[i := c]) != Xor(s)
    decreases |s|
  {
    var t := s[i := c];
    if i == |s| - 1 {
      assert t[..|t| - 1] == s[..|s| - 1];
      XorDiffers(Byte(c), Byte(s[i]), Xor(s[..|s| - 1]));
    } else {
      assert t[..|t| - 1] == s[..|s| - 1][i := c];
      ChangeIsSeen(s[..|s| - 1], i, c);
      XorDiffers(Xor(t[..|t| - 1]), Xor(s[..|s| - 1]), Byte(s[|s| - 1]));
    }
  }

  /** If there is a checksum, its '*' is among the first 256 characters. */
  predicate ChecksumInReach(s: string) {
    var star := FirstStar(s, 0);
    star < |s| && Unsigned(s, star + 1).end != star + 1 ==> star <= 0xFF
  }

  // ---- First occurrences

  /** Where parameters occur in a text, and the number behind each occurrence. */
  datatype Findings = Findings(occurs: (nat, Parameter) -> bool, number: (nat, Parameter) -> Number)

  function FindingsOf(s: string): Findings {
    Findings((k: nat, p: Parameter) => k < |s| && Occurs(s, k, p),
             (k: nat, p: Parameter) => if k < |s| then ReadNumber(s, k + 1, p).value else Whole(0))
  }

  lemma FindingsAt(s: string, k: nat, p: Parameter)
    requires k < |s|
    ensures FindingsOf(s).occurs(k, p) == Occurs(s, k, p) && FindingsOf(s).number(k, p) == ReadNumber(s, k + 1, p).value
  {
  }

  /** The first occurrence of `p` from `low` on, or `high` if there is none before it. */
  function First(o: Findings, p: Parameter, low: nat, high: nat): (k: nat)
    requires low <= high
    ensures low <= k <= high
    decreases high - low
  {
    if low == high || o.occurs(low, p) then low else First(o, p, low + 1, high)
  }

  lemma {:induction false} FirstIs(o: Findings, p: Parameter, low: nat, high: nat, k: nat)
    requires low <= k <= high
    requires forall j :: low <= j < k ==> !o.occurs(j, p)
    requires k < high ==> o.occurs(k, p)
    ensures First(o, p, low, high) == k
    decreases high - low
  {
    if low < k {
      FirstIs(o, p, low + 1, high, k);
    }
  }

  /** `p` occurs first at `k`. */
  ghost predicate FoundAt(o: Findings, p: Parameter, start: nat, k: nat) {
    o.occurs(k, p) && forall j :: start <= j < k ==> !o.occurs(j, p)
  }

  /** The parameters present between `start` and `i`, each with the value of its first occurrence. */
  ghost predicate Scanned(o: Findings, start: nat, i: nat, present: set<Parameter>, values: map<Parameter, Number>) {
    && start <= i
    && (forall p :: p in present ==>
                      && p in values
                      && exists k :: start <= k < i && FoundAt(o, p, start, k) && values[p] == o.number(k, p))
    && (forall p, k :: p !in present && start <= k < i ==> !o.occurs(k, p))
  }

  lemma ScannedFound(o: Findings, start: nat, k: nat, present: set<Parameter>, values: map<Parameter, Number>,
                     p: Parameter, end: nat)
    requires Scanned(o, start, k, present, values) && k < end
    requires o.occurs(k, p) && p !in present && forall q :: q != p ==> !o.occurs(k, q)
    requires forall j, q :: k < j < end ==> !o.occurs(j, q)
    ensures Scanned(o, start, end, present + {p}, values[p := o.number(k, p)])
  {
    assert FoundAt(o, p, start, k);
  }

  lemma ScannedNext(o: Findings, start: nat, k: nat, present: set<Parameter>, values: map<Parameter, Number>,
                    values': map<Parameter, Number>)
    requires Scanned(o, start, k, present, values)
    requires forall p :: p !in present ==> !o.occurs(k, p)
    requires forall p :: p in present ==> p in values' && values'[p] == values[p]
    ensures Scanned(o, start, k + 1, present, values')
  {
  }

  /** The scan up to `stop` says what the text says. */
  lemma ScannedAll(o: Findings, start: nat, stop: nat, present: set<Parameter>, values: map<Parameter, Number>,
                   p: Parameter)
    requires Scanned(o, start, stop, present, values)
    ensures p in present <==> First(o, p, start, stop) < stop
    ensures p in present ==> p in values && values[p] == o.number(First(o, p, start, stop), p)
  {
    if p in present {
      var k :| start <= k < stop && FoundAt(o, p, start, k) && values[p] == o.number(k, p);
      FirstIs(o, p, start, stop, k);
    } else {
      FirstIs(o, p, start, stop, stop);
    }
  }

  lemma ScannedEach(o: Findings, start: nat, stop: nat, present: set<Parameter>, values: map<Parameter, Number>)
    requires Scanned(o, start, stop, present, values)
    ensures forall p ::
      && (p in present <==> First(o, p, start, stop) < stop)
      && (p in present ==> p in values && values[p] == o.number(First(o, p, start, stop), p))
  {
    forall p
      ensures p in present <==> First(o, p, start, stop) < stop
      ensures p in present ==> p in values && values[p] == o.number(First(o, p, start, stop), p)
    {
      ScannedAll(o, start, stop, present, values, p);
    }
  }

  /** Parameter `p` is in the command, and the value of its first occurrence. */
  predicate Present(s: string, p: Parameter) {
    First(FindingsOf(s), p, Start(s), Stop(s)) < Stop(s)
  }

  function ValueOf(s: string, p: Parameter): Number
    requires Present(s, p)
  {
    FindingsOf(s).number(First(FindingsOf(s), p, Start(s), Stop(s)), p)
  }

  lemma {:induction false} FirstOccurs(o: Findings, p: Parameter, low: nat, high: nat)
    requires low <= high
    ensures First(o, p, low, high) < high ==> o.occurs(First(o, p, low, high), p)
    ensures forall j :: low <= j < First(o, p, low, high) ==> !o.occurs(j, p)
    decreases high - low
  {
    if low < high && !o.occurs(low, p) {
      FirstOccurs(o, p, low + 1, high);
    }
  }

  /**
   A parameter is present exactly when its letter is somewhere directly followed by a number; the first such place
   counts.
   */
  lemma PresentExactlyWhenOccurs(s: string, p: Parameter) returns (k: nat)
    ensures Start(s) <= k <= Stop(s) && (Present(s, p) <==> k < Stop(s))
    ensures forall j :: Start(s) <= j < k ==> !Occurs(s, j, p)
    ensures k < Stop(s) ==> Occurs(s, k, p) && ValueOf(s, p) == ReadNumber(s, k + 1, p).value
  {
    var o := FindingsOf(s);
    k := First(o, p, Start(s), Stop(s));
    FirstOccurs(o, p, Start(s), Stop(s));
    forall j | Start(s) <= j < k ensures !Occurs(s, j, p) {
      FindingsAt(s, j, p);
    }
    if k < Stop(s) {
      FindingsAt(s, k, p);
    }
  }

  predicate IsHostCommand(s: string) {
    Start(s) < Stop(s) && s[Start(s)] == '@'
  }

  /** The characters after '@' that are kept; the 8-bit length drops multiples of 256. */
  function HostCommand(s: string, first: nat, last: nat): string
    requires first < last <= |s|
  {
    s[first + 1..first + 1 + (last - first - 1) % 0x100]
  }

  lemma EightBitLength(first: nat, last: nat)
    requires first < last
    ensures (last % 0x100 - first % 0x100 - 1) % 0x100 == (last - first - 1) % 0x100 <= last - first - 1
  {
    var q, r := (last - first - 1) / 0x100, (last - first - 1) % 0x100;
    A.DivModUnique(last % 0x100 - first % 0x100 - 1, 0x100, q - last / 0x100 + first / 0x100, r);
  }

  // ---- The parser

  const ALL_PARAMETERS := {G, M, T, S, P, X, Y, Z, F, E, N}

  lemma FewerLeft(present: set<Parameter>, more: set<Parameter>)
    requires present <= more
    ensures more == present || ALL_PARAMETERS - more < ALL_PARAMETERS - present
  {
    if more != present {
      var p :| p in more && p !in present;
      assert p.G? || p.M? || p.T? || p.S? || p.P? || p.X? || p.Y? || p.Z? || p.F? || p.E? || p.N?;
      assert p in ALL_PARAMETERS - present;
    }
  }

  /** `++i` on an 8-bit index. */
  function Increment8(i: nat): nat {
    if i == 0xFF then 0 else i + 1
  }

  /** `--i` on an 8-bit index. */
  function Decrement8(i: nat): nat {
    if i == 0 then 0xFF else i - 1
  }

  predicate Sought(k: nat, p: Parameter) {
    true
  }

  /** `o` says what is in `s`, when asked. */
  ghost predicate Describes(o: Findings, s: string) {
    forall k: nat, p: Parameter {:trigger Sought(k, p)} :: Sought(k, p) && k < |s| ==>
      o.occurs(k, p) == Occurs(s, k, p) && o.number(k, p) == ReadNumber(s, k + 1, p).value
  }

  lemma FindingsDescribe(s: string)
    ensures Describes(FindingsOf(s), s)
  {
    forall k: nat, p: Parameter | Sought(k, p) && k < |s|
      ensures FindingsOf(s).occurs(k, p) == Occurs(s, k, p)
              && FindingsOf(s).number(k, p) == ReadNumber(s, k + 1, p).value
    {
      FindingsAt(s, k, p);
    }
  }

  lemma OtherLetter(o: Findings, s: string, k: nat, p: Parameter)
    requires Describes(o, s) && k < |s| && ParameterOf(s[k]) != Some(p)
    ensures !o.occurs(k, p)
  {
    assert Sought(k, p);
  }

  method ReadParameter(s: string, i: nat, p: Parameter) returns (n: Number, end: nat)
    requires i <= |s|
    ensures Read(n, end) == ReadNumber(s, i, p)
  {
    match p
    case G => var v; v, end := Strtoull(s, i); n := Whole(v % 0x100);
    case M => var v; v, end := Strtoull(s, i); n := Whole(v % 0x1_0000);
    case T => var v; v, end := Strtoull(s, i); n := Whole(v % 0x100);
    case N => var v; v, end := Strtoull(s, i); n := Whole(v);
    case S => var v; v, end := Strtoll(s, i); n := Whole(Wrap32(v));
    case P => var v; v, end := Strtoll(s, i); n := Whole(Wrap32(v));
    case _ => var v; v, end := Strtof(s, i); n := Decimal(v);
  }

  lemma BehindIs(s: string, k: nat, p: Parameter, o: Findings, stop: nat, n: Number, end: nat)
    requires Describes(o, s) && k < stop <= |s| && IsBoundary(At(s, stop)) && ParameterOf(s[k]) == Some(p)
    requires Read(n, end) == ReadNumber(s, k + 1, p)
    ensures k + 1 <= end <= stop && (end != k + 1 <==> o.occurs(k, p)) && n == o.number(k, p)
    ensures forall j :: k < j < end ==> ParameterOf(s[j]) == None
  {
    NumberStops(s, k + 1, p, stop);
    NumberHasNoLetter(s, k + 1, p, end);
    assert Sought(k, p);
  }

  lemma Behind(s: string, k: nat, p: Parameter, o: Findings, stop: nat, n: Number, end: nat)
    requires Describes(o, s) && k < stop <= |s| && IsBoundary(At(s, stop)) && ParameterOf(s[k]) == Some(p)
    requires Read(n, end) == ReadNumber(s, k + 1, p)
    ensures k + 1 <= end <= stop && (end != k + 1 <==> o.occurs(k, p)) && n == o.number(k, p)
    ensures forall q :: q != p ==> !o.occurs(k, q)
    ensures forall j, q :: k < j < end ==> !o.occurs(j, q)
  {
    BehindIs(s, k, p, o, stop, n, end);
    forall q | q != p ensures !o.occurs(k, q) {
      OtherLetter(o, s, k, q);
    }
    forall j, q | k < j < end ensures !o.occurs(j, q) {
      OtherLetter(o, s, j, q);
    }
  }

  /** The number behind the letter of `p` at index `k`: there is one exactly when `p` occurs there. */
  method ReadBehind(s: string, k: nat, p: Parameter, ghost o: Findings, ghost stop: nat) returns (n: Number, end: nat)
    requires Describes(o, s) && k < stop <= |s| && IsBoundary(At(s, stop)) && ParameterOf(s[k]) == Some(p)
    ensures k + 1 <= end <= stop && (end != k + 1 <==> o.occurs(k, p)) && n == o.number(k, p)
    ensures forall q :: q != p ==> !o.occurs(k, q)
    ensures forall j, q :: k < j < end ==> !o.occurs(j, q)
  {
    n, end := ReadParameter(s, k + 1, p);
    Behind(s, k, p, o, stop, n, end);
  }

  class Gcode {
    var isParsed: bool
    var commandParameters: set<Parameter>
    var hasHostCommand: bool
    var validChecksum: bool
    var values: map<Parameter, Number>
    var hostCommand: string

    constructor ()
    {
      isParsed, commandParameters, hasHostCommand, validChecksum := false, {}, false, false;
      values, hostCommand := map[], "";
    }

    /** One character of the parameter loop; gives the index at which the next pass starts. */
    method ParseCharacter(command: string, k: nat, ghost start: nat, ghost stop: nat, ghost o: Findings)
        returns (next: nat)
      requires k < stop <= |command| && k < 255 && IsBoundary(At(command, stop)) && Describes(o, command)
      modifies `commandParameters, `values
      ensures next <= 255 && (commandParameters == old(commandParameters) ==> next == k + 1)
      ensures old(commandParameters) <= commandParameters
      ensures stop <= 255 ==> k < next <= stop
      ensures stop <= 255 && old(Scanned(o, start, k, commandParameters, values)) ==>
              Scanned(o, start, next, commandParameters, values)
    {
      var i := k;
      var letter := ParameterOf(command[i]);
      if letter.Some? && letter.value !in commandParameters {
        ghost var present, before := commandParameters, values;
        i := Increment8(i);
        var n, end := ReadBehind(command, i - 1, letter.value, o, stop);
        values := values[letter.value := n];
        if end != i {
          commandParameters := commandParameters + {letter.value};
          i := end % 0x100;
          if Scanned(o, start, k, present, before) {
            ScannedFound(o, start, k, present, before, letter.value, end);
          }
        } else if Scanned(o, start, k, present, before) {
          ScannedNext(o, start, k, present, before, values);
        }
        i := Decrement8(i);
      } else {
        forall p | p !in commandParameters ensures !o.occurs(k, p) {
          OtherLetter(o, command, k, p);
        }
        if Scanned(o, start, k, commandParameters, values) {
          ScannedNext(o, start, k, commandParameters, values, values);
        }
      }
      next := Increment8(i);
    }

    /** The parameter loop, with its 8-bit index. It ends on every text; its result is stated for an index that fits. */
    method ParseParameters(command: string, start: nat, stop: nat, ghost o: Findings)
      requires start < stop <= |command| && IsBoundary(At(command, stop)) && Describes(o, command)
      modifies `commandParameters, `values
      ensures stop <= 255 ==> Scanned(o, start, stop, commandParameters, values)
    {
      commandParameters := {};
      var i: nat, stopParsingOffset: nat := start % 0x100, stop % 0x100;
      while i < stopParsingOffset
        invariant stop <= 255 ==> i <= stop && Scanned(o, start, i, commandParameters, values)
        decreases ALL_PARAMETERS - commandParameters, stopParsingOffset - i
      {
        ghost var present := commandParameters;
        i := ParseCharacter(command, i, start, stop, o);
        FewerLeft(present, commandParameters);
      }
    }

    /** The checksum loop; it would never end with the '*' out of reach of its 8-bit index. */
    static method CalculateChecksum(command: string, ghost star: nat) returns (calculated: bv8)
      requires star < |command| && command[star] == '*' && star <= 0xFF
      requires forall j :: 0 <= j < star ==> command[j] != '*'
      ensures calculated == Xor(command[..star])
    {
      calculated := 0;
      var i: nat := 0;
      while command[i] != '*'
        invariant i <= star && calculated == Xor(command[..i])
        decreases star - i
      {
        assert command[..i + 1][..i] == command[..i];
        calculated := calculated ^ Byte(command[i]);
        i := Increment8(i);
      }
    }

    method ParseChecksum(command: string, lastValidCharacter: nat)
      requires lastValidCharacter <= |command| && FirstStar(command, lastValidCharacter) == FirstStar(command, 0)
      requires ChecksumInReach(command)
      modifies `validChecksum
      ensures validChecksum == ValidChecksum(command)
    {
      validChecksum := false;
      var star := FirstStar(command, lastValidCharacter);
      if star < |command| {
        var provided, end := Strtoull(command, star + 1);
        if end != star + 1 {
          var calculated := CalculateChecksum(command, star);
          validChecksum := calculated == LowByte(provided);
        }
      }
    }

    method ParseHostCommand(command: string, first: nat, last: nat)
      requires first < last <= |command|
      modifies `hasHostCommand, `hostCommand
      ensures hasHostCommand == (HostCommand(command, first, last) != "")
      ensures hasHostCommand ==> hostCommand == HostCommand(command, first, last)
    {
      hasHostCommand := false;
      var startParsingOffset: int, stopParsingOffset: int := first % 0x100, last % 0x100;
      var commandLength := (stopParsingOffset - startParsingOffset - 1) % 0x100;
      EightBitLength(first, last);
      if commandLength != 0 {
        hostCommand := command[first + 1..first + 1 + commandLength];
        hasHostCommand := true;
      }
    }

    method Trim(command: string) returns (first: nat, last: nat)
      ensures first == Start(command) && last == Stop(command)
    {
      first := 0;
      while first < |command| && IsWhitespace(command[first])
        invariant first <= |command| && TrimStart(command, first) == Start(command)
      {
        first := first + 1;
      }
      last := first;
      while last < |command| && !IsEnd(command[last])
        invariant first <= last <= |command| && Cut(command, last) == Cut(command, first)
      {
        last := last + 1;
      }
      while last > first && IsWhitespace(command[last - 1])
        invariant first <= last <= |command| && TrimEnd(command, first, last) == Stop(command)
      {
        last := last - 1;
      }
    }

    method ParseCommand(command: string)
      requires ChecksumInReach(command)
      modifies this
      ensures isParsed
      ensures Start(command) == Stop(command) ==> commandParameters == {} && !hasHostCommand && !validChecksum
      ensures IsHostCommand(command) ==>
        && commandParameters == {} && !validChecksum
        && hasHostCommand == (HostCommand(command, Start(command), Stop(command)) != "")
        && (hasHostCommand ==> hostCommand == HostCommand(command, Start(command), Stop(command)))
      ensures Start(command) < Stop(command) && !IsHostCommand(command) ==>
        && !hasHostCommand && validChecksum == ValidChecksum(command)
        && (Stop(command) <= 0xFF ==> forall p ::
              && (p in commandParameters <==> Present(command, p))
              && (p in commandParameters ==> p in values && values[p] == ValueOf(command, p)))
    {
      isParsed, commandParameters, hasHostCommand, validChecksum := true, {}, false, false;
      var first, last := Trim(command);
      if last != first {
        if command[first] == '@' {
          ParseHostCommand(command, first, last);
        } else {
          ghost var o := FindingsOf(command);
          FindingsDescribe(command);
          StopIsBoundary(command);
          ParseParameters(command, first, last, o);
          StarAfterStop(command);
          ParseChecksum(command, last);
          if last <= 0xFF {
            ScannedEach(o, first, last, commandParameters, values);
          }
        }
      }
    }
  }
}
