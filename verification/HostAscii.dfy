/** The ASCII printer and parser of G-code commands in M33 Manager/gcode.cpp. */
module HostAscii {
  import opened Options
  import opened Arithmetic

  const ORDER_LENGTH := 20
  const STRING_INDEX := 15

  /** The bits of the data type of an empty command, 0x1080. */
  const EMPTY_DATA_TYPE: set<nat> := {7, 12}

  /** The data type as the set of its bits, and the parameter values as text. */
  datatype Command = Command(dataType: set<nat>, values: seq<string>) {
    predicate Shaped() {
      |values| == ORDER_LENGTH
    }
  }

  function Empty(): (g: Command)
    ensures g.Shaped()
  {
    Command(EMPTY_DATA_TYPE, seq(ORDER_LENGTH, (_: nat) => ""))
  }

  // ---- Letters

  const ORDER := "NMGXYZE FTSP    IJRD"

  /** Places of "NMGXYZE FTSP    IJRD" that hold a letter. */
  predicate IsParameter(i: nat) {
    i < ORDER_LENGTH && i != 7 && !(12 <= i <= 15)
  }

  function Letter(i: nat): char
    requires IsParameter(i)
  {
    ORDER[i]
  }

  /** `orderToOffset`: the place of a letter, if it has one. */
  function Offset(c: char): Option<nat> {
    match c
    case 'N' => Some(0)
    case 'M' => Some(1)
    case 'G' => Some(2)
    case 'X' => Some(3)
    case 'Y' => Some(4)
    case 'Z' => Some(5)
    case 'E' => Some(6)
    case 'F' => Some(8)
    case 'T' => Some(9)
    case 'S' => Some(10)
    case 'P' => Some(11)
    case 'I' => Some(16)
    case 'J' => Some(17)
    case 'R' => Some(18)
    case 'D' => Some(19)
    case _ => None
  }

  predicate IsUpper(c: char) {
    'A' <= c <= 'Z'
  }

  predicate IsSpace(c: char) {
    c == ' ' || '\t' <= c <= '\r'
  }

  lemma LetterHasOffset(i: nat)
    requires IsParameter(i)
    ensures Offset(Letter(i)) == Some(i) && IsUpper(Letter(i)) && (Letter(i) == 'M' <==> i == 1)
  {
  }

  lemma OffsetIsParameter(c: char)
    requires Offset(c).Some?
    ensures IsParameter(Offset(c).value) && Letter(Offset(c).value) == c
  {
  }

  // ---- Printing

  /** What the command prints for place `i`. */
  function Part(g: Command, i: nat): string
    requires g.Shaped()
  {
    if IsParameter(i) && i in g.dataType
    then [Letter(i)] + g.values[i] + " "
         + if i == 1 && STRING_INDEX in g.dataType then g.values[STRING_INDEX] + " " else ""
    else ""
  }

  function Parts(g: Command, n: nat): string
    requires g.Shaped()
  {
    if n == 0 then "" else Parts(g, n - 1) + Part(g, n - 1)
  }

  function Ascii(g: Command): string
    requires g.Shaped()
  {
    var request := Parts(g, ORDER_LENGTH);
    if request == "" then "" else request[..|request| - 1]
  }

  // ---- Parsing

  function At(s: string, i: nat): char {
    if i < |s| then s[i] else '\0'
  }

  /** The values of M after which the rest of the line is a string. */
  const STRING_COMMANDS := {"23", "28", "29", "30", "32", "117"}

  datatype Parse = Parse(g: Command, identifier: char, current: string, done: bool)

  function Store(g: Command, i: nat, value: string): (r: Command)
    requires g.Shaped() && i < ORDER_LENGTH
    ensures r.Shaped()
  {
    Command(g.dataType + {i}, g.values[i := value])
  }

  function TrimLeft(s: string): string {
    if s != "" && (s[0] == ' ' || s[0] == '\t' || s[0] == '\n' || s[0] == '\r') then TrimLeft(s[1..]) else s
  }

  function StringFrom(s: string): string {
    if TrimLeft(s) == "" then s else TrimLeft(s)
  }

  /** The end of a parameter at index `i`: store it, and start the next one or take the rest as a string. */
  function Flush(p: Parse, command: string, i: nat): (r: Parse)
    requires p.g.Shaped() && i <= |command|
    ensures r.g.Shaped()
  {
    var g := if i > 0 && Offset(p.identifier).Some? then
        OffsetIsParameter(p.identifier);
        Store(p.g, Offset(p.identifier).value, p.current)
      else p.g;
    if p.identifier == 'M' && g.values[1] in STRING_COMMANDS then
      var text := StringFrom(command[i..]);
      var stored := g.(values := g.values[STRING_INDEX := text]);
      Parse(if text != "" then stored.(dataType := stored.dataType + {STRING_INDEX}) else stored,
            p.identifier, "", true)
    else Parse(g, At(command, i), "", false)
  }

  /** One pass of the parsing loop. */
  function Feed(p: Parse, command: string, i: nat): (r: Parse)
    requires p.g.Shaped() && i <= |command|
    ensures r.g.Shaped()
  {
    var c := At(command, i);
    if p.done then p
    else if i == 0 || IsUpper(c) || c == ' ' || c == '\0' then Flush(p, command, i)
    else if !IsSpace(c) then p.(current := p.current + [c])
    else p
  }

  function FeedRange(p: Parse, command: string, low: nat, high: nat): (r: Parse)
    requires p.g.Shaped() && low <= high <= |command| + 1
    ensures r.g.Shaped()
    decreases high
  {
    if low == high then p else Feed(FeedRange(p, command, low, high - 1), command, high - 1)
  }

  /** The parameters of a trimmed line. */
  function Parsed(command: string): (g: Command)
    ensures g.Shaped()
  {
    FeedRange(Parse(Empty(), '\0', "", false), command, 0, |command| + 1).g
  }

  lemma {:induction false} FeedSplits(p: Parse, command: string, a: nat, b: nat, c: nat)
    requires p.g.Shaped() && a <= b <= c <= |command| + 1
    ensures FeedRange(p, command, a, c) == FeedRange(FeedRange(p, command, a, b), command, b, c)
    decreases c
  {
    if b < c {
      FeedSplits(p, command, a, b, c - 1);
    }
  }

  // ---- One parameter

  /** A value that prints as one word. */
  predicate WellFormed(v: string) {
    forall k :: 0 <= k < |v| ==> !IsUpper(v[k]) && !IsSpace(v[k]) && v[k] != '\0' && v[k] != ';' && v[k] != '*'
  }

  lemma WellFormedLast(command: string, low: nat, high: nat)
    requires low < high <= |command| && WellFormed(command[low..high])
    ensures command[low..high] == command[low..high - 1] + [command[high - 1]]
    ensures WellFormed(command[low..high - 1]) && WellFormed([command[high - 1]])
  {
    var v := command[low..high];
    assert v[..|v| - 1] == command[low..high - 1] && v[|v| - 1] == command[high - 1];
  }

  lemma {:induction false} ValueFed(p: Parse, command: string, low: nat, high: nat)
    requires p.g.Shaped() && !p.done && 0 < low <= high <= |command| && WellFormed(command[low..high])
    ensures FeedRange(p, command, low, high) == p.(current := p.current + command[low..high])
    decreases high
  {
    if low < high {
      WellFormedLast(command, low, high);
      ValueFed(p, command, low, high - 1);
      assert WellFormed([command[high - 1]]) && [command[high - 1]][0] == command[high - 1];
    }
  }

  /** Between two parameters. */
  predicate Ready(p: Parse) {
    p.g.Shaped() && !p.done && p.current == "" && Offset(p.identifier) == None
  }

  lemma ParameterStarts(p: Parse, command: string, k: nat, i: nat)
    requires Ready(p) && IsParameter(i) && k < |command| && command[k] == Letter(i)
    ensures Feed(p, command, k) == Parse(p.g, Letter(i), "", false)
  {
    LetterHasOffset(i);
  }

  lemma ParameterEnds(p: Parse, command: string, i: nat, end: nat)
    requires p.g.Shaped() && !p.done && IsParameter(i) && p.identifier == Letter(i) && 0 < end <= |command|
    requires At(command, end) == ' ' || end == |command|
    requires i == 1 && p.current in STRING_COMMANDS ==> end == |command| && p.g.values[STRING_INDEX] == ""
    ensures Feed(p, command, end).g == Store(p.g, i, p.current)
    ensures end < |command| ==> Ready(Feed(p, command, end))
  {
    LetterHasOffset(i);
    var g := Store(p.g, i, p.current);
    if i == 1 && p.current in STRING_COMMANDS {
      assert command[end..] == "";
      assert g.values[STRING_INDEX := ""] == g.values;
    }
  }

  /** A letter with its value up to a space or the end. */
  lemma ParameterFed(p: Parse, command: string, k: nat, i: nat, end: nat)
    requires Ready(p) && IsParameter(i) && k < end <= |command| && command[k] == Letter(i)
    requires WellFormed(command[k + 1..end]) && (At(command, end) == ' ' || end == |command|)
    requires i == 1 && command[k + 1..end] in STRING_COMMANDS ==> end == |command| && p.g.values[STRING_INDEX] == ""
    ensures FeedRange(p, command, k, end + 1).g == Store(p.g, i, command[k + 1..end])
    ensures end < |command| ==> Ready(FeedRange(p, command, k, end + 1))
  {
    var started := Parse(p.g, Letter(i), "", false);
    var ended := Parse(p.g, Letter(i), command[k + 1..end], false);
    ParameterStarts(p, command, k, i);
    FeedSplits(p, command, k, k + 1, end);
    ValueFed(started, command, k + 1, end);
    assert FeedRange(p, command, k, end) == ended;
    ParameterEnds(ended, command, i, end);
  }

  // ---- A line of parameters

  datatype Token = Token(index: nat, value: string)

  /** Letters with values that print as one word. */
  predicate WordsOk(ts: seq<Token>) {
    forall j :: 0 <= j < |ts| ==> IsParameter(ts[j].index) && WellFormed(ts[j].value)
  }

  /** An M command that takes the rest of the line as a string. */
  predicate TakesString(t: Token) {
    t.index == 1 && t.value in STRING_COMMANDS
  }

  predicate TokensOk(ts: seq<Token>) {
    WordsOk(ts) && forall j :: 0 <= j < |ts| - 1 ==> !TakesString(ts[j])
  }

  function Word(t: Token): string
    requires IsParameter(t.index)
  {
    [Letter(t.index)] + t.value
  }

  /** The words with a space between them. */
  function Joined(ts: seq<Token>): string
    requires WordsOk(ts)
  {
    if ts == [] then "" else if |ts| == 1 then Word(ts[0]) else Word(ts[0]) + " " + Joined(ts[1..])
  }

  function StoreAll(g: Command, ts: seq<Token>): (r: Command)
    requires g.Shaped() && WordsOk(ts)
    ensures r.Shaped()
    decreases |ts|
  {
    if ts == [] then g else StoreAll(Store(g, ts[0].index, ts[0].value), ts[1..])
  }

  lemma WordAt(command: string, k: nat, ts: seq<Token>)
    requires WordsOk(ts) && ts != [] && k <= |command| && command[k..] == Joined(ts)
    ensures var end := k + |Word(ts[0])|;
      && k < end <= |command| && command[k] == Letter(ts[0].index) && command[k + 1..end] == ts[0].value
      && (if |ts| == 1 then end == |command|
          else end < |command| && command[end] == ' ' && command[end + 1..] == Joined(ts[1..]))
  {
    var rest := command[k..];
    var w := Word(ts[0]);
    assert rest[..|w|] == w;
    assert command[k] == rest[0] && command[k + 1..k + |w|] == rest[1..|w|] == w[1..];
    if |ts| > 1 {
      assert rest[|w|] == ' ' && command[k + |w|] == rest[|w|];
      assert command[k + |w| + 1..] == rest[|w| + 1..] == Joined(ts[1..]);
    }
  }

  lemma RestOk(ts: seq<Token>)
    requires TokensOk(ts) && ts != []
    ensures TokensOk(ts[1..])
  {
  }

  lemma WordFed(p: Parse, command: string, k: nat, ts: seq<Token>) returns (q: Parse, next: nat)
    requires Ready(p) && p.g.values[STRING_INDEX] == "" && WordsOk(ts) && ts != [] && k <= |command|
             && command[k..] == Joined(ts)
    requires |ts| > 1 ==> !TakesString(ts[0])
    ensures k < next <= |command| + 1 && q == FeedRange(p, command, k, next)
    ensures q.g == Store(p.g, ts[0].index, ts[0].value) && q.g.values[STRING_INDEX] == ""
    ensures if |ts| == 1 then next == |command| + 1
            else next <= |command| && Ready(q) && command[next..] == Joined(ts[1..])
  {
    var end := k + |Word(ts[0])|;
    WordAt(command, k, ts);
    ParameterFed(p, command, k, ts[0].index, end);
    next := end + 1;
    q := FeedRange(p, command, k, next);
  }

  lemma {:induction false} LineFed(p: Parse, command: string, k: nat, ts: seq<Token>)
    requires Ready(p) && p.g.values[STRING_INDEX] == "" && TokensOk(ts) && ts != [] && k <= |command|
             && command[k..] == Joined(ts)
    ensures FeedRange(p, command, k, |command| + 1).g == StoreAll(p.g, ts)
    decreases |ts|
  {
    var q, next := WordFed(p, command, k, ts);
    RestOk(ts);
    if |ts| > 1 {
      FeedSplits(p, command, k, next, |command| + 1);
      LineFed(q, command, next, ts[1..]);
    } else {
      assert ts[1..] == [];
    }
  }

  // ---- The words of a command

  predicate Printed(g: Command, i: nat) {
    IsParameter(i) && i in g.dataType
  }

  function Tokens(g: Command, n: nat): seq<Token>
    requires g.Shaped() && n <= ORDER_LENGTH
  {
    if n == 0 then [] else Tokens(g, n - 1) + if Printed(g, n - 1) then [Token(n - 1, g.values[n - 1])] else []
  }

  /** A command as the class makes it, without a string and with values that print as one word. */
  predicate Plain(g: Command) {
    && g.Shaped()
    && EMPTY_DATA_TYPE <= g.dataType
    && (forall i :: i in g.dataType ==> i in EMPTY_DATA_TYPE || IsParameter(i))
    && (forall i :: 0 <= i < ORDER_LENGTH ==> if Printed(g, i) then WellFormed(g.values[i]) else g.values[i] == "")
  }

  /** No parameter is printed behind an M command that takes the rest of the line as a string. */
  predicate StringLast(g: Command)
    requires g.Shaped()
  {
    Printed(g, 1) && g.values[1] in STRING_COMMANDS ==> forall i :: 1 < i < ORDER_LENGTH ==> !Printed(g, i)
  }

  lemma {:induction false} TokensAre(g: Command, n: nat, j: nat)
    requires g.Shaped() && n <= ORDER_LENGTH && j < |Tokens(g, n)|
    ensures var t := Tokens(g, n)[j]; t.index < n && Printed(g, t.index) && t.value == g.values[t.index]
    ensures j + 1 < |Tokens(g, n)| ==> Tokens(g, n)[j].index < Tokens(g, n)[j + 1].index
  {
    if j < |Tokens(g, n - 1)| {
      TokensAre(g, n - 1, j);
    }
  }

  lemma WordsAreOk(g: Command, n: nat)
    requires Plain(g) && n <= ORDER_LENGTH
    ensures WordsOk(Tokens(g, n))
  {
    var ts := Tokens(g, n);
    forall j | 0 <= j < |ts| ensures IsParameter(ts[j].index) && WellFormed(ts[j].value) {
      TokensAre(g, n, j);
    }
  }

  lemma TokensAreOk(g: Command, n: nat)
    requires Plain(g) && StringLast(g) && n <= ORDER_LENGTH
    ensures TokensOk(Tokens(g, n))
  {
    var ts := Tokens(g, n);
    WordsAreOk(g, n);
    forall j | 0 <= j < |ts| - 1 ensures !TakesString(ts[j]) {
      TokensAre(g, n, j);
      TokensAre(g, n, j + 1);
    }
  }

  predicate Letters(ts: seq<Token>) {
    forall j :: 0 <= j < |ts| ==> IsParameter(ts[j].index)
  }

  function Piece(t: Token): string
    requires IsParameter(t.index)
  {
    Word(t) + " "
  }

  /** The words with a space behind each. */
  function Spaced(ts: seq<Token>): string
    requires Letters(ts)
  {
    if ts == [] then "" else Piece(ts[0]) + Spaced(ts[1..])
  }

  lemma {:induction false} SpacedNext(ts: seq<Token>, t: Token)
    requires Letters(ts) && IsParameter(t.index)
    ensures Letters(ts + [t]) && Spaced(ts + [t]) == Spaced(ts) + Piece(t)
    decreases |ts|
  {
    if ts == [] {
      assert ts + [t] == [t];
      assert [t][1..] == [];
    } else {
      assert (ts + [t])[1..] == ts[1..] + [t];
      SpacedNext(ts[1..], t);
      Associative(Piece(ts[0]), Spaced(ts[1..]), Piece(t));
    }
  }

  lemma {:induction false} JoinedSpaced(ts: seq<Token>)
    requires WordsOk(ts) && ts != []
    ensures Joined(ts) + " " == Spaced(ts)
    decreases |ts|
  {
    if |ts| > 1 {
      JoinedSpaced(ts[1..]);
      Associative(Word(ts[0]) + " ", Joined(ts[1..]), " ");
    }
  }

  lemma PartIs(g: Command, i: nat)
    requires g.Shaped() && STRING_INDEX !in g.dataType && i < ORDER_LENGTH
    ensures Part(g, i) == if Printed(g, i) then Piece(Token(i, g.values[i])) else ""
  {
  }

  lemma {:induction false} PartsAreSpaced(g: Command, n: nat)
    requires g.Shaped() && STRING_INDEX !in g.dataType && n <= ORDER_LENGTH
    ensures Letters(Tokens(g, n)) && Parts(g, n) == Spaced(Tokens(g, n))
  {
    if n > 0 {
      PartsAreSpaced(g, n - 1);
      PartIs(g, n - 1);
      if Printed(g, n - 1) {
        SpacedNext(Tokens(g, n - 1), Token(n - 1, g.values[n - 1]));
      } else {
        assert Tokens(g, n) == Tokens(g, n - 1);
      }
    }
  }

  /** The printed line is the words with spaces between them. */
  lemma AsciiIsJoined(g: Command)
    requires Plain(g)
    ensures WordsOk(Tokens(g, ORDER_LENGTH)) && Ascii(g) == Joined(Tokens(g, ORDER_LENGTH))
  {
    var ts := Tokens(g, ORDER_LENGTH);
    WordsAreOk(g, ORDER_LENGTH);
    PartsAreSpaced(g, ORDER_LENGTH);
    if ts != [] {
      JoinedSpaced(ts);
    }
  }

  lemma {:induction false} StoreNext(g: Command, ts: seq<Token>, t: Token)
    requires g.Shaped() && IsParameter(t.index) && WordsOk(ts + [t]) && WordsOk(ts)
    ensures StoreAll(g, ts + [t]) == Store(StoreAll(g, ts), t.index, t.value)
    decreases |ts|
  {
    if ts == [] {
      assert ts + [t] == [t];
      assert [t][1..] == [];
    } else {
      assert (ts + [t])[1..] == ts[1..] + [t];
      assert WordsOk((ts + [t])[1..]);
      StoreNext(Store(g, ts[0].index, ts[0].value), ts[1..], t);
    }
  }

  /** The command with its first `n` places. */
  function Prefix(g: Command, n: nat): Command
    requires g.Shaped()
  {
    Command(EMPTY_DATA_TYPE + (set i: nat | 0 <= i < n && Printed(g, i)),
      seq(ORDER_LENGTH, (i: nat) => if i < n && i < ORDER_LENGTH then g.values[i] else ""))
  }

  lemma PrefixNext(g: Command, n: nat)
    requires Plain(g) && n < ORDER_LENGTH
    ensures Prefix(g, n + 1) == if Printed(g, n) then Store(Prefix(g, n), n, g.values[n]) else Prefix(g, n)
  {
    var a, b := Prefix(g, n), Prefix(g, n + 1);
    if Printed(g, n) {
      assert b.values == a.values[n := g.values[n]];
      assert b.dataType == a.dataType + {n};
    } else {
      assert b.values == a.values;
      assert b.dataType == a.dataType;
    }
  }

  lemma {:induction false} StoresPrefix(g: Command, n: nat)
    requires Plain(g) && n <= ORDER_LENGTH && WordsOk(Tokens(g, n))
    ensures StoreAll(Empty(), Tokens(g, n)) == Prefix(g, n)
  {
    if n == 0 {
      assert Prefix(g, 0).dataType == EMPTY_DATA_TYPE && Prefix(g, 0).values == Empty().values;
    } else {
      WordsAreOk(g, n - 1);
      StoresPrefix(g, n - 1);
      PrefixNext(g, n - 1);
      if Printed(g, n - 1) {
        StoreNext(Empty(), Tokens(g, n - 1), Token(n - 1, g.values[n - 1]));
      } else {
        assert Tokens(g, n) == Tokens(g, n - 1);
      }
    }
  }

  lemma StoresAll(g: Command)
    requires Plain(g) && WordsOk(Tokens(g, ORDER_LENGTH))
    ensures StoreAll(Empty(), Tokens(g, ORDER_LENGTH)) == g
  {
    StoresPrefix(g, ORDER_LENGTH);
    var r := Prefix(g, ORDER_LENGTH);
    assert r.values == g.values;
    forall i | i in g.dataType ensures i in r.dataType {
      assert i in EMPTY_DATA_TYPE || Printed(g, i);
    }
    assert r.dataType == g.dataType;
  }

  lemma NothingParsed()
    ensures Parsed("") == Empty()
  {
    var p := Parse(Empty(), '\0', "", false);
    assert FeedRange(p, "", 0, 1) == Feed(p, "", 0);
  }

  lemma ParsesWords(ts: seq<Token>)
    requires TokensOk(ts)
    ensures Parsed(Joined(ts)) == StoreAll(Empty(), ts)
  {
    if ts == [] {
      NothingParsed();
    } else {
      var command := Joined(ts);
      assert command[0..] == command;
      LineFed(Parse(Empty(), '\0', "", false), command, 0, ts);
    }
  }

  lemma ParsesPrinted(g: Command)
    requires Plain(g) && StringLast(g)
    ensures Parsed(Ascii(g)) == g
  {
    AsciiIsJoined(g);
    TokensAreOk(g, ORDER_LENGTH);
    ParsesWords(Tokens(g, ORDER_LENGTH));
    StoresAll(g);
  }

  // ---- A string command in front of other parameters

  lemma {:induction false} DoneStays(p: Parse, command: string, low: nat, high: nat)
    requires p.g.Shaped() && p.done && low <= high <= |command| + 1
    ensures FeedRange(p, command, low, high) == p
    decreases high
  {
    if low < high {
      DoneStays(p, command, low, high - 1);
    }
  }

  lemma StringTaken(p: Parse, command: string, k: nat, end: nat, value: string, text: string)
    requires Ready(p) && k < end < |command| && command[k] == 'M' && command[end] == ' '
    requires value == command[k + 1..end] && WellFormed(value) && value in STRING_COMMANDS
    requires text == StringFrom(command[end..]) && text != ""
    ensures var r := FeedRange(p, command, k, end + 1);
      r.done && r.g == Store(Store(p.g, 1, value), STRING_INDEX, text)
  {
    var started := Parse(p.g, 'M', "", false);
    ParameterStarts(p, command, k, 1);
    FeedSplits(p, command, k, k + 1, end);
    ValueFed(started, command, k + 1, end);
    assert FeedRange(p, command, k, end) == Parse(p.g, 'M', value, false);
  }

  lemma StringTakenToEnd(p: Parse, command: string, k: nat, end: nat, value: string, text: string)
    requires Ready(p) && k < end < |command| && command[k] == 'M' && command[end] == ' '
    requires value == command[k + 1..end] && WellFormed(value) && value in STRING_COMMANDS
    requires text == StringFrom(command[end..]) && text != ""
    ensures FeedRange(p, command, k, |command| + 1).g == Store(Store(p.g, 1, value), STRING_INDEX, text)
  {
    StringTaken(p, command, k, end, value, text);
    DoneStays(FeedRange(p, command, k, end + 1), command, end + 1, |command| + 1);
    FeedSplits(p, command, k, end + 1, |command| + 1);
  }

  /** The string behind one space is the words themselves. */
  lemma StringOfWords(s: string, ts: seq<Token>)
    requires WordsOk(ts) && ts != [] && |s| > 0 && s[0] == ' ' && s[1..] == Joined(ts)
    ensures StringFrom(s) == Joined(ts) != ""
  {
    assert Joined(ts)[0] == Letter(ts[0].index);
    LetterHasOffset(ts[0].index);
    assert TrimLeft(s[1..]) == s[1..];
  }

  lemma StringAt(command: string, k: nat, ts: seq<Token>) returns (end: nat)
    requires WordsOk(ts) && |ts| > 1 && k <= |command| && command[k..] == Joined(ts) && TakesString(ts[0])
    ensures k < end < |command| && command[k] == 'M' && command[end] == ' ' && command[k + 1..end] == ts[0].value
    ensures StringFrom(command[end..]) == Joined(ts[1..]) != ""
  {
    end := k + |Word(ts[0])|;
    WordAt(command, k, ts);
    assert command[end..][1..] == command[end + 1..];
    StringOfWords(command[end..], ts[1..]);
  }

  /** The first word takes the others. */
  lemma FirstSwallows(p: Parse, command: string, k: nat, ts: seq<Token>)
    requires Ready(p) && WordsOk(ts) && |ts| > 1 && k <= |command| && command[k..] == Joined(ts) && TakesString(ts[0])
    ensures FeedRange(p, command, k, |command| + 1).g
            == Store(Store(p.g, 1, ts[0].value), STRING_INDEX, Joined(ts[1..]))
  {
    var end := StringAt(command, k, ts);
    StringTakenToEnd(p, command, k, end, ts[0].value, Joined(ts[1..]));
  }

  lemma {:induction false} StringSwallows(p: Parse, command: string, k: nat, ts: seq<Token>, j: nat)
    requires Ready(p) && p.g.values[STRING_INDEX] == "" && WordsOk(ts) && k <= |command| && command[k..] == Joined(ts)
    requires j < |ts| - 1 && TakesString(ts[j]) && forall i :: 0 <= i < j ==> !TakesString(ts[i])
    ensures FeedRange(p, command, k, |command| + 1).g
            == Store(StoreAll(p.g, ts[..j + 1]), STRING_INDEX, Joined(ts[j + 1..]))
    decreases |ts|
  {
    if j == 0 {
      FirstSwallows(p, command, k, ts);
      assert ts[..1] == [ts[0]] && [ts[0]][1..] == [];
    } else {
      var q, next := WordFed(p, command, k, ts);
      StringSwallows(q, command, next, ts[1..], j - 1);
      FeedSplits(p, command, k, next, |command| + 1);
      assert ts[..j + 1][1..] == ts[1..][..j] && ts[1..][j..] == ts[j + 1..];
    }
  }

  lemma {:induction false} TokensExtend(g: Command, a: nat, n: nat)
    requires g.Shaped() && a <= n <= ORDER_LENGTH
    ensures Tokens(g, a) <= Tokens(g, n)
    decreases n
  {
    if a < n {
      TokensExtend(g, a, n - 1);
    }
  }

  /** The words of the parameters behind the M. */
  function WordsBehind(g: Command): string
    requires Plain(g)
  {
    var ts := Tokens(g, ORDER_LENGTH);
    TokensExtend(g, 2, ORDER_LENGTH);
    WordsAreOk(g, ORDER_LENGTH);
    Joined(ts[|Tokens(g, 2)|..])
  }

  /** The M is the last of the first two places, and some word follows it. */
  lemma WordsFollow(g: Command)
    requires Plain(g) && !StringLast(g)
    ensures var ts, m := Tokens(g, ORDER_LENGTH), |Tokens(g, 2)| - 1;
      && Tokens(g, 2) <= ts && 0 <= m < |ts| - 1 && TakesString(ts[m]) && forall a :: 0 <= a < m ==> !TakesString(ts[a])
  {
    var i :| 1 < i < ORDER_LENGTH && Printed(g, i);
    TokensExtend(g, 2, i);
    TokensExtend(g, i, i + 1);
    TokensExtend(g, i + 1, ORDER_LENGTH);
    TokensExtend(g, 2, ORDER_LENGTH);
    assert Tokens(g, 2) == Tokens(g, 1) + [Token(1, g.values[1])];
    assert Tokens(g, 1) == if Printed(g, 0) then [Token(0, g.values[0])] else [];
  }

  /**
   The rest of the line becomes the string: printing and parsing keep the parameters up to the M, and the words behind
   it are stored as its string.
   */
  lemma OthersAreSwallowed(g: Command)
    requires Plain(g) && !StringLast(g)
    ensures Parsed(Ascii(g)) == Store(Prefix(g, 2), STRING_INDEX, WordsBehind(g))
  {
    var ts, first := Tokens(g, ORDER_LENGTH), Tokens(g, 2);
    AsciiIsJoined(g);
    WordsFollow(g);
    var command := Ascii(g);
    assert command[0..] == command;
    StringSwallows(Parse(Empty(), '\0', "", false), command, 0, ts, |first| - 1);
    assert ts[..|first|] == first;
    WordsAreOk(g, 2);
    StoresPrefix(g, 2);
  }

  /** Parsing a printed command gives it back, except behind an M command that takes a string. */
  lemma PrintedComesBackExactlyWhen(g: Command)
    requires Plain(g)
    ensures Parsed(Ascii(g)) == g <==> StringLast(g)
  {
    if StringLast(g) {
      ParsesPrinted(g);
    } else {
      OthersAreSwallowed(g);
    }
  }

  // ---- Whole lines

  /** Starts a comment or a checksum, or ends the line. */
  predicate IsEnd(c: char) {
    c == '\0' || c == ';' || c == '*'
  }

  function SkipSpaces(s: string, i: nat): (k: nat)
    requires i <= |s|
    ensures i <= k <= |s|
    decreases |s| - i
  {
    if i < |s| && IsSpace(s[i]) then SkipSpaces(s, i + 1) else i
  }

  function FindEnd(s: string, i: nat): (k: nat)
    requires i <= |s|
    ensures i <= k <= |s|
    decreases |s| - i
  {
    if i < |s| && !IsEnd(s[i]) then FindEnd(s, i + 1) else i
  }

  function DropSpaces(s: string, start: nat, end: nat): (k: nat)
    requires start <= end <= |s|
    ensures start <= k <= end
    decreases end
  {
    if start < end && IsSpace(s[end - 1]) then DropSpaces(s, start, end - 1) else end
  }

  /** The line without surrounding whitespace, comment and checksum. */
  function Trimmed(line: string): string {
    var start := SkipSpaces(line, 0);
    line[start..DropSpaces(line, start, FindEnd(line, start))]
  }

  lemma {:induction false} NoEnd(s: string, i: nat)
    requires i <= |s| && forall k :: i <= k < |s| ==> !IsEnd(s[k])
    ensures FindEnd(s, i) == |s|
    decreases |s| - i
  {
    if i < |s| {
      NoEnd(s, i + 1);
    }
  }

  /** The characters of a printed line. */
  predicate InLine(c: char) {
    !IsEnd(c) && (c == ' ' || !IsSpace(c))
  }

  lemma {:induction false} JoinedInLine(ts: seq<Token>)
    requires WordsOk(ts) && ts != []
    ensures forall k :: 0 <= k < |Joined(ts)| ==> InLine(Joined(ts)[k])
    ensures |Joined(ts)| > 0 && IsUpper(Joined(ts)[0]) && !IsSpace(Joined(ts)[|Joined(ts)| - 1])
    decreases |ts|
  {
    var w := Word(ts[0]);
    LetterHasOffset(ts[0].index);
    assert forall k :: 0 <= k < |w| ==> InLine(w[k]) && !IsSpace(w[k]);
    if |ts| > 1 {
      JoinedInLine(ts[1..]);
      var rest := Joined(ts[1..]);
      forall k | 0 <= k < |Joined(ts)| ensures InLine(Joined(ts)[k]) {
        assert Joined(ts)[k] == if k < |w| then w[k] else if k == |w| then ' ' else rest[k - |w| - 1];
      }
    }
  }

  /** A printed line has nothing to trim. */
  lemma PrintedIsTrimmed(g: Command)
    requires Plain(g)
    ensures Trimmed(Ascii(g)) == Ascii(g)
    ensures Ascii(g) != "" ==> Ascii(g)[0] != '@'
  {
    var ts, line := Tokens(g, ORDER_LENGTH), Ascii(g);
    AsciiIsJoined(g);
    if ts != [] {
      JoinedInLine(ts);
      NoEnd(line, 0);
    }
  }

  /** A trimmed line and the command it means; host commands are kept as text. */
  datatype Line = Line(ok: bool, original: string, hostCommand: string, g: Command)

  function ParsedLine(line: string): Line {
    var command := Trimmed(line);
    if command == "" then Line(false, "", "", Empty())
    else if command[0] == '@' then Line(true, command, command, Empty())
    else Line(Parsed(command).dataType != EMPTY_DATA_TYPE, command, "", Parsed(command))
  }

  /** `parseLine` undoes `getAscii` exactly when nothing is printed behind a command that takes a string. */
  lemma RoundTripsExactlyWhen(g: Command)
    requires Plain(g)
    ensures ParsedLine(Ascii(g)).g == g <==> StringLast(g)
    ensures StringLast(g) ==> ParsedLine(Ascii(g)).ok == (g.dataType != EMPTY_DATA_TYPE)
  {
    PrintedIsTrimmed(g);
    PrintedComesBackExactlyWhen(g);
    if Ascii(g) == "" {
      NothingParsed();
    }
  }

  // ---- The same in place

  class Gcode {
    var dataType: set<nat>
    var values: seq<string>
    var hostCommand: string
    var originalCommand: string

    ghost function View(): Command
      reads this
    {
      Command(dataType, values)
    }

    constructor ()
      ensures View() == Empty() && hostCommand == "" && originalCommand == ""
    {
      dataType, values, hostCommand, originalCommand := Empty().dataType, Empty().values, "", "";
    }

    method GetAscii() returns (request: string)
      requires View().Shaped()
      ensures request == if hostCommand != "" then hostCommand else Ascii(View())
    {
      if hostCommand != "" {
        return hostCommand;
      }
      request := PrintParameters(ORDER_LENGTH, View());
      if request != "" {
        request := request[..|request| - 1];
      }
    }

    /** The parameters at the first `n` places. */
    method PrintParameters(n: nat, ghost g: Command) returns (request: string)
      requires g == View() && g.Shaped() && n <= ORDER_LENGTH
      ensures request == Parts(g, n)
    {
      request := "";
      for i := 0 to n
        invariant request == Parts(g, i)
      {
        var part := PrintParameter(i);
        request := request + part;
      }
    }

    method PrintParameter(i: nat) returns (part: string)
      requires View().Shaped() && i < ORDER_LENGTH
      ensures part == Part(View(), i)
    {
      part := "";
      if i != 7 && !(12 <= i <= 15) && i in dataType {
        part := [Letter(i)] + values[i] + " ";
        if i == 1 && STRING_INDEX in dataType {
          part := part + (values[STRING_INDEX] + " ");
        }
      }
    }

    method Clear()
      modifies this
      ensures View() == Empty() && hostCommand == "" && originalCommand == old(originalCommand)
    {
      dataType, values, hostCommand := Empty().dataType, Empty().values, "";
    }

    /** Stores the parameter that ends at index `i`; takes the rest of the line if the command wants a string. */
    method EndParameter(command: string, i: nat, identifier: char, current: string) returns (next: char, done: bool)
      requires View().Shaped() && i <= |command|
      modifies `dataType, `values
      ensures Parse(View(), next, "", done) == Flush(Parse(old(View()), identifier, current, false), command, i)
    {
      if i != 0 && Offset(identifier).Some? {
        OffsetIsParameter(identifier);
        dataType := dataType + {Offset(identifier).value};
        values := values[Offset(identifier).value := current];
      }
      next, done := identifier, false;
      if identifier == 'M' && values[1] in STRING_COMMANDS {
        var text := StringFrom(command[i..]);
        values := values[STRING_INDEX := text];
        if text != "" {
          dataType := dataType + {STRING_INDEX};
        }
        done := true;
      } else {
        next := At(command, i);
      }
    }

    /** The parsing loop; its 8-bit index reaches the end of lines of up to 254 characters only. */
    method ParseParameters(command: string)
      requires View() == Empty() && |command| <= 254
      modifies `dataType, `values
      ensures View() == Parsed(command)
    {
      ghost var start := Parse(Empty(), '\0', "", false);
      var identifier, current, done := '\0', "", false;
      var i := 0;
      while i <= |command| && !done
        invariant 0 <= i <= |command| + 1
        invariant Parse(View(), identifier, current, done) == FeedRange(start, command, 0, i)
      {
        var c := At(command, i);
        if i == 0 || IsUpper(c) || c == ' ' || c == '\0' {
          identifier, done := EndParameter(command, i, identifier, current);
          current := "";
        } else if !IsSpace(c) {
          current := current + [c];
        }
        i := i + 1;
      }
      FeedSplits(start, command, 0, i, |command| + 1);
      if done {
        DoneStays(FeedRange(start, command, 0, i), command, i, |command| + 1);
      }
    }

    method ParseLine(line: string) returns (ok: bool)
      requires Trimmed(line) != "" && Trimmed(line)[0] != '@' ==> |Trimmed(line)| <= 254
      modifies this
      ensures Line(ok, originalCommand, hostCommand, View()) == ParsedLine(line)
    {
      Clear();
      var lineStart: nat := 0;
      while lineStart < |line| && IsSpace(line[lineStart])
        invariant lineStart <= |line| && SkipSpaces(line, lineStart) == SkipSpaces(line, 0)
      {
        lineStart := lineStart + 1;
      }
      var lineEnd: nat := lineStart;
      while lineEnd < |line| && !IsEnd(line[lineEnd])
        invariant lineStart <= lineEnd <= |line| && FindEnd(line, lineEnd) == FindEnd(line, lineStart)
      {
        lineEnd := lineEnd + 1;
      }
      while lineEnd > lineStart && IsSpace(line[lineEnd - 1])
        invariant lineStart <= lineEnd <= |line|
        invariant DropSpaces(line, lineStart, lineEnd) == DropSpaces(line, lineStart, FindEnd(line, lineStart))
      {
        lineEnd := lineEnd - 1;
      }
      var command := line[lineStart..lineEnd];
      assert command == Trimmed(line);
      originalCommand := command;
      if command == "" {
        return false;
      }
      if command[0] == '@' {
        hostCommand := command;
        return true;
      }
      ParseParameters(command);
      ok := dataType != EMPTY_DATA_TYPE;
    }
  }
}
