/**
 The binary form of G-code commands in M33 Manager/gcode.cpp. A value stands for what its text reads as: an integer, or
 the 32-bit word of a float.
 */
module HostBinary {

  import opened Arithmetic

  // ---- Little-endian bytes

  function Pow256(n: nat): (p: nat)
    ensures p >= 1
  {
    if n == 0 then 1 else 0x100 * Pow256(n - 1)
  }

  /** The low `width` bytes, the lowest first. */
  function Bytes(v: int, width: nat): (s: seq<byte>)
    ensures |s| == width
    decreases width
  {
    if width == 0 then [] else [v % 0x100] + Bytes(v / 0x100, width - 1)
  }

  function Unsigned(s: seq<byte>): nat {
    if s == [] then 0 else s[0] + 0x100 * Unsigned(s[1..])
  }

  lemma {:induction false} UnsignedOfBytes(v: int, width: nat)
    requires 0 <= v < Pow256(width)
    ensures Unsigned(Bytes(v, width)) == v
    decreases width
  {
    if width > 0 {
      UnsignedOfBytes(v / 0x100, width - 1);
      assert Bytes(v, width)[1..] == Bytes(v / 0x100, width - 1);
    }
  }

  lemma {:induction false} BytesWrap(v: int, width: nat)
    ensures Bytes(v + Pow256(width), width) == Bytes(v, width)
    decreases width
  {
    if width > 0 {
      var p := Pow256(width - 1);
      assert (v + 0x100 * p) / 0x100 == v / 0x100 + p && (v + 0x100 * p) % 0x100 == v % 0x100;
      BytesWrap(v / 0x100, width - 1);
    }
  }

  // ---- Parameters

  datatype Kind = Natural | Integer

  /** A parameter: its place in "NMGXYZE FTSP    IJRD", its width in bytes, and whether its value may be negative. */
  datatype Field = Field(index: nat, width: nat, kind: Kind)

  /** The parameters in the order they are encoded; float words are naturals of four bytes. */
  const FIELDS: seq<Field> := [
    Field(0, 2, Natural), Field(1, 2, Natural), Field(2, 2, Natural),
    Field(3, 4, Natural), Field(4, 4, Natural), Field(5, 4, Natural), Field(6, 4, Natural), Field(8, 4, Natural),
    Field(9, 1, Natural), Field(10, 4, Integer), Field(11, 4, Integer),
    Field(16, 4, Natural), Field(17, 4, Natural), Field(18, 4, Natural), Field(19, 4, Natural)]

  const STRING_BIT := 15
  const EMPTY_DATA_TYPE := 0x1080

  datatype Command = Command(dataType: uint32, values: map<nat, int>, text: seq<byte>, hostCommand: seq<byte>)

  /** Bit `k` of the data type. */
  predicate Bit(n: nat, k: nat)
    decreases k
  {
    if k == 0 then n % 2 == 1 else Bit(n / 2, k - 1)
  }

  /** The values a field can hold. */
  predicate Fits(f: Field, v: int) {
    var limit: int := Pow256(f.width);
    if f.kind == Natural then 0 <= v < limit else -limit <= 2 * v < limit
  }

  /** The value of a field's bytes: unsigned, or two's complement. */
  function FieldValue(f: Field, s: seq<byte>): int {
    var n := Unsigned(s);
    if f.kind == Integer && 2 * n >= Pow256(f.width) then n - Pow256(f.width) else n
  }

  lemma FieldRoundTrip(f: Field, v: int)
    requires Fits(f, v)
    ensures FieldValue(f, Bytes(v, f.width)) == v
  {
    if v < 0 {
      BytesWrap(v, f.width);
      UnsignedOfBytes(v + Pow256(f.width), f.width);
    } else {
      UnsignedOfBytes(v, f.width);
    }
  }

  lemma {:induction false} UnsignedBound(s: seq<byte>)
    ensures Unsigned(s) < Pow256(|s|)
  {
    if s != [] {
      UnsignedBound(s[1..]);
    }
  }

  lemma FieldValueFits(f: Field, s: seq<byte>)
    requires |s| == f.width
    ensures Fits(f, FieldValue(f, s))
  {
    UnsignedBound(s);
  }

  // ---- Encoding

  function EncodedFields(values: map<nat, int>, fields: seq<Field>): seq<byte> {
    if fields == [] then []
    else
      var first := if fields[0].index in values then Bytes(values[fields[0].index], fields[0].width) else [];
      first + EncodedFields(values, fields[1..])
  }

  /** Everything before the checksum. */
  function Body(g: Command, fields: seq<Field>): seq<byte> {
    Bytes(g.dataType, 4) + (Length(g.text) + (EncodedFields(g.values, fields) + g.text))
  }

  /** The length byte of a string. */
  function Length(text: seq<byte>): seq<byte> {
    if text != [] then [|text| % 0x100] else []
  }

  /** The running sums of the checksum loop. */
  datatype Sums = Sums(sum1: nat, sum2: nat)

  function Added(sums: Sums, b: nat): Sums {
    var sum1 := (sums.sum1 + b) % 0xFF;
    Sums(sum1, (sum1 + sums.sum2) % 0xFF)
  }

  function Fletcher(s: seq<byte>): Sums {
    if s == [] then Sums(0, 0) else Added(Fletcher(s[..|s| - 1]), s[|s| - 1])
  }

  function WithSums(s: seq<byte>): seq<byte> {
    var sums := Fletcher(s);
    s + [sums.sum1 % 0x100, sums.sum2 % 0x100]
  }

  function Encoded(g: Command, fields: seq<Field>): seq<byte> {
    if g.hostCommand != [] then g.hostCommand else WithSums(Body(g, fields))
  }

  // ---- Decoding

  /** A byte of the line; nothing is known about memory behind it, so it reads as zero. */
  function ByteAt(line: seq<byte>, i: nat): byte {
    if i < |line| then line[i] else 0
  }

  function Slice(line: seq<byte>, i: nat, n: nat): (s: seq<byte>)
    ensures |s| == n
  {
    seq<byte>(n, (k: nat) => ByteAt(line, i + k))
  }

  datatype Decoding = Decoding(values: map<nat, int>, end: nat)

  function DecodedFields(dataType: nat, line: seq<byte>, i: nat, fields: seq<Field>): Decoding
    decreases |fields|
  {
    if fields == [] then Decoding(map[], i)
    else if Bit(dataType, fields[0].index) then
      var rest := DecodedFields(dataType, line, i + fields[0].width, fields[1..]);
      Decoding(rest.values[fields[0].index := FieldValue(fields[0], Slice(line, i, fields[0].width))], rest.end)
    else DecodedFields(dataType, line, i, fields[1..])
  }

  datatype Result = Ok(command: Command) | NoData

  function DataType(line: seq<byte>): uint32 {
    UnsignedBound(Slice(line, 0, 4));
    assert Pow256(4) == 0x1_0000_0000;
    Unsigned(Slice(line, 0, 4))
  }

  function Decoded(line: seq<byte>, fields: seq<Field>): Result {
    var dataType := DataType(line);
    if dataType == 0 || dataType == EMPTY_DATA_TYPE then NoData
    else
      var start := if Bit(dataType, STRING_BIT) then 5 else 4;
      var decoding := DecodedFields(dataType, line, start, fields);
      var text := if Bit(dataType, STRING_BIT) then Slice(line, decoding.end, ByteAt(line, 4)) else [];
      Ok(Command(dataType, decoding.values, text, []))
  }

  // ---- Round trip

  /** Every present value fits its field, and the data type says exactly which values are present. */
  predicate FieldOk(g: Command, f: Field) {
    && (f.index in g.values <==> Bit(g.dataType, f.index))
    && (f.index in g.values ==> Fits(f, g.values[f.index]))
  }

  predicate FieldsOk(g: Command, fields: seq<Field>) {
    forall j :: 0 <= j < |fields| ==> FieldOk(g, fields[j])
  }

  predicate HasData(g: Command) {
    g.dataType != 0 && g.dataType != EMPTY_DATA_TYPE
  }

  predicate TextOk(g: Command) {
    g.text != [] <==> Bit(g.dataType, STRING_BIT)
  }

  /** The part of `values` that the fields name. */
  function Restricted(values: map<nat, int>, fields: seq<Field>): map<nat, int> {
    if fields == [] then map[]
    else
      var rest := Restricted(values, fields[1..]);
      if fields[0].index in values then rest[fields[0].index := values[fields[0].index]] else rest
  }

  predicate Named(k: nat, fields: seq<Field>) {
    exists j :: 0 <= j < |fields| && fields[j].index == k
  }

  lemma {:induction false} RestrictedIs(values: map<nat, int>, fields: seq<Field>, k: nat)
    ensures k in Restricted(values, fields) <==> k in values && Named(k, fields)
    ensures k in Restricted(values, fields) ==> Restricted(values, fields)[k] == values[k]
    decreases |fields|
  {
    if fields != [] {
      RestrictedIs(values, fields[1..], k);
      NamedNext(k, fields);
    }
  }

  lemma NamedNext(k: nat, fields: seq<Field>)
    requires fields != []
    ensures Named(k, fields) <==> fields[0].index == k || Named(k, fields[1..])
  {
    if Named(k, fields) && fields[0].index != k {
      var j :| 0 <= j < |fields| && fields[j].index == k;
      assert fields[1..][j - 1].index == k;
    }
    if Named(k, fields[1..]) {
      var j :| 0 <= j < |fields[1..]| && fields[1..][j].index == k;
      assert fields[j + 1].index == k;
    }
  }

  lemma NothingElse(values: map<nat, int>, fields: seq<Field>)
    requires forall k :: k in values ==> Named(k, fields)
    ensures Restricted(values, fields) == values
  {
    forall k: nat
      ensures k in Restricted(values, fields) <==> k in values
      ensures k in values ==> Restricted(values, fields)[k] == values[k]
    {
      RestrictedIs(values, fields, k);
    }
  }

  /** `part` stands in the line from index `i` on. */
  predicate Holds(line: seq<byte>, i: nat, part: seq<byte>) {
    i + |part| <= |line| && line[i..i + |part|] == part
  }

  lemma HoldsSlice(line: seq<byte>, i: nat, part: seq<byte>)
    requires Holds(line, i, part)
    ensures Slice(line, i, |part|) == part
  {
    forall k | 0 <= k < |part| ensures Slice(line, i, |part|)[k] == part[k] {
      assert part[k] == line[i..i + |part|][k] == line[i + k];
    }
  }

  lemma HoldsParts(line: seq<byte>, i: nat, a: seq<byte>, b: seq<byte>)
    requires Holds(line, i, a + b)
    ensures Holds(line, i, a) && Holds(line, i + |a|, b)
  {
    var whole := line[i..i + |a + b|];
    assert whole[..|a|] == a && whole[|a|..] == b;
    assert line[i..i + |a|] == whole[..|a|];
    assert line[i + |a|..i + |a| + |b|] == whole[|a|..];
  }

  lemma FieldPresent(g: Command, line: seq<byte>, i: nat, f: Field, tail: seq<byte>)
    requires FieldOk(g, f) && f.index in g.values && Holds(line, i, Bytes(g.values[f.index], f.width) + tail)
    ensures FieldValue(f, Slice(line, i, f.width)) == g.values[f.index] && Holds(line, i + f.width, tail)
  {
    var v := g.values[f.index];
    HoldsParts(line, i, Bytes(v, f.width), tail);
    HoldsSlice(line, i, Bytes(v, f.width));
    FieldRoundTrip(f, v);
  }

  lemma {:induction false} FieldsRoundTrip(g: Command, line: seq<byte>, i: nat, fields: seq<Field>)
    requires FieldsOk(g, fields) && Holds(line, i, EncodedFields(g.values, fields))
    ensures DecodedFields(g.dataType, line, i, fields).values == Restricted(g.values, fields)
    ensures DecodedFields(g.dataType, line, i, fields).end == i + |EncodedFields(g.values, fields)|
    decreases |fields|
  {
    if fields != [] {
      var f, rest := fields[0], fields[1..];
      assert FieldOk(g, f);
      var tail := EncodedFields(g.values, rest);
      if f.index in g.values {
        FieldPresent(g, line, i, f, tail);
        FieldsRoundTrip(g, line, i + f.width, rest);
      } else {
        assert EncodedFields(g.values, fields) == tail;
        FieldsRoundTrip(g, line, i, rest);
      }
    }
  }

  lemma HoldsFront(a: seq<byte>, b: seq<byte>)
    ensures Holds(a + b, 0, a)
  {
  }

  lemma LayoutParts(line: seq<byte>, head: seq<byte>, length: seq<byte>, values: seq<byte>, text: seq<byte>,
                    sums: seq<byte>)
    requires line == head + (length + (values + text)) + sums
    ensures Holds(line, 0, head) && Holds(line, |head|, length)
    ensures Holds(line, |head| + |length|, values) && Holds(line, |head| + |length| + |values|, text)
  {
    HoldsFront(head + (length + (values + text)), sums);
    HoldsParts(line, 0, head, length + (values + text));
    HoldsParts(line, |head|, length, values + text);
    HoldsParts(line, |head| + |length|, values, text);
  }

  lemma Layout(g: Command, fields: seq<Field>, line: seq<byte>)
    requires line == WithSums(Body(g, fields))
    ensures Holds(line, 0, Bytes(g.dataType, 4))
    ensures Holds(line, 4, Length(g.text))
    ensures Holds(line, 4 + |Length(g.text)|, EncodedFields(g.values, fields))
    ensures Holds(line, 4 + |Length(g.text)| + |EncodedFields(g.values, fields)|, g.text)
  {
    var sums := Fletcher(Body(g, fields));
    LayoutParts(line, Bytes(g.dataType, 4), Length(g.text), EncodedFields(g.values, fields), g.text,
                [sums.sum1 % 0x100, sums.sum2 % 0x100]);
  }

  lemma DataTypeKept(g: Command, line: seq<byte>)
    requires Holds(line, 0, Bytes(g.dataType, 4))
    ensures DataType(line) == g.dataType
  {
    HoldsSlice(line, 0, Bytes(g.dataType, 4));
    assert Pow256(4) == 0x1_0000_0000;
    UnsignedOfBytes(g.dataType, 4);
  }

  lemma LengthKept(text: seq<byte>, line: seq<byte>)
    requires text != [] && |text| < 0x100 && Holds(line, 4, Length(text))
    ensures ByteAt(line, 4) == |text|
  {
    assert line[4..5][0] == line[4];
  }

  lemma TextShort(g: Command, fields: seq<Field>)
    ensures |g.text| + 4 <= |Body(g, fields)|
  {
  }

  /** What the decoder finds in an encoded command. */
  lemma DecodesParts(g: Command, fields: seq<Field>, line: seq<byte>)
    requires line == WithSums(Body(g, fields)) && |Body(g, fields)| <= 0xFF && FieldsOk(g, fields) && TextOk(g)
    ensures var start := if Bit(g.dataType, STRING_BIT) then 5 else 4;
      var decoding := DecodedFields(g.dataType, line, start, fields);
      && DataType(line) == g.dataType
      && decoding.values == Restricted(g.values, fields)
      && (g.text != [] ==> ByteAt(line, 4) == |g.text| && Slice(line, decoding.end, |g.text|) == g.text)
  {
    Layout(g, fields, line);
    DataTypeKept(g, line);
    FieldsRoundTrip(g, line, 4 + |Length(g.text)|, fields);
    HoldsSlice(line, 4 + |Length(g.text)| + |EncodedFields(g.values, fields)|, g.text);
    TextShort(g, fields);
    if g.text != [] {
      LengthKept(g.text, line);
    }
  }

  /** Decoding an encoded command gives it back. */
  lemma RoundTrip(g: Command, fields: seq<Field>)
    requires g.hostCommand == [] && |Body(g, fields)| <= 0xFF
    requires FieldsOk(g, fields) && TextOk(g) && HasData(g) && forall k :: k in g.values ==> Named(k, fields)
    ensures Decoded(Encoded(g, fields), fields) == Ok(g)
  {
    DecodesParts(g, fields, Encoded(g, fields));
    NothingElse(g.values, fields);
  }

  predicate Increasing(fields: seq<Field>) {
    forall i, j :: 0 <= i < j < |fields| ==> fields[i].index < fields[j].index
  }

  lemma FieldsIncreasing()
    ensures Increasing(FIELDS)
  {
  }

  /** The data type alone decides which values are decoded. */
  lemma {:induction false} DecodedPresence(dataType: nat, line: seq<byte>, i: nat, fields: seq<Field>, k: nat)
    ensures k in DecodedFields(dataType, line, i, fields).values <==> Named(k, fields) && Bit(dataType, k)
    decreases |fields|
  {
    if fields != [] {
      NamedNext(k, fields);
      DecodedPresence(dataType, line, if Bit(dataType, fields[0].index) then i + fields[0].width else i, fields[1..],
                      k);
    }
  }

  lemma {:induction false} DecodedFits(dataType: nat, line: seq<byte>, i: nat, fields: seq<Field>, j: nat)
    requires Increasing(fields) && j < |fields| && Bit(dataType, fields[j].index)
    ensures fields[j].index in DecodedFields(dataType, line, i, fields).values
    ensures Fits(fields[j], DecodedFields(dataType, line, i, fields).values[fields[j].index])
    decreases |fields|
  {
    var next := if Bit(dataType, fields[0].index) then i + fields[0].width else i;
    if j == 0 {
      FieldValueFits(fields[0], Slice(line, i, fields[0].width));
    } else {
      DecodedFits(dataType, line, next, fields[1..], j - 1);
    }
  }

  lemma DecodedFieldOk(g: Command, fields: seq<Field>, line: seq<byte>, i: nat, j: nat)
    requires Increasing(fields) && j < |fields| && g.values == DecodedFields(g.dataType, line, i, fields).values
    ensures FieldOk(g, fields[j])
  {
    DecodedPresence(g.dataType, line, i, fields, fields[j].index);
    assert Named(fields[j].index, fields);
    if Bit(g.dataType, fields[j].index) {
      DecodedFits(g.dataType, line, i, fields, j);
    }
  }

  /** Only commands whose data type names exactly the values they have, all in range, come back. */
  lemma OnlyWhenOk(g: Command, fields: seq<Field>)
    requires g.hostCommand == [] && Increasing(fields) && Decoded(Encoded(g, fields), fields) == Ok(g)
    ensures FieldsOk(g, fields) && HasData(g) && (g.text != [] ==> Bit(g.dataType, STRING_BIT))
  {
    var line := Encoded(g, fields);
    var start := if Bit(g.dataType, STRING_BIT) then 5 else 4;
    Layout(g, fields, line);
    DataTypeKept(g, line);
    forall j | 0 <= j < |fields| ensures FieldOk(g, fields[j]) {
      DecodedFieldOk(g, fields, line, start, j);
    }
  }

  // ---- A string bit without a string: the encoder writes no length byte, and the decoder takes the next byte for it

  lemma LowByte(b: byte, rest: nat)
    ensures (b + 0x100 * rest) % 0x100 == b && (b + 0x100 * rest) / 0x100 == rest
  {
  }

  lemma {:induction false} BytesOfUnsigned(s: seq<byte>)
    ensures Bytes(Unsigned(s), |s|) == s
  {
    if s != [] {
      BytesOfUnsigned(s[1..]);
      LowByte(s[0], Unsigned(s[1..]));
      assert s == [s[0]] + s[1..];
    }
  }

  lemma BytesOfField(f: Field, s: seq<byte>)
    requires |s| == f.width
    ensures Bytes(FieldValue(f, s), f.width) == s
  {
    BytesOfUnsigned(s);
    BytesWrap(FieldValue(f, s), f.width);
  }

  lemma {:induction false} EncodedIgnores(values: map<nat, int>, k: nat, v: int, fields: seq<Field>)
    requires !Named(k, fields)
    ensures EncodedFields(values[k := v], fields) == EncodedFields(values, fields)
    decreases |fields|
  {
    if fields != [] {
      NamedNext(k, fields);
      EncodedIgnores(values, k, v, fields[1..]);
    }
  }

  lemma SliceParts(line: seq<byte>, i: nat, a: nat, b: nat)
    ensures Slice(line, i, a) + Slice(line, i + a, b) == Slice(line, i, a + b)
  {
  }

  /** Encoding decoded values gives the bytes they were decoded from. */
  lemma {:induction false} EncodesDecoded(dataType: nat, line: seq<byte>, i: nat, fields: seq<Field>)
    requires Increasing(fields)
    ensures var d := DecodedFields(dataType, line, i, fields);
      d.end >= i && EncodedFields(d.values, fields) == Slice(line, i, d.end - i)
    decreases |fields|
  {
    if fields != [] {
      var f, rest := fields[0], fields[1..];
      assert !Named(f.index, rest);
      if Bit(dataType, f.index) {
        var d := DecodedFields(dataType, line, i + f.width, rest);
        var bytes := Slice(line, i, f.width);
        EncodesDecoded(dataType, line, i + f.width, rest);
        EncodedIgnores(d.values, f.index, FieldValue(f, bytes), rest);
        BytesOfField(f, bytes);
        SliceParts(line, i, f.width, d.end - i - f.width);
      } else {
        EncodesDecoded(dataType, line, i, rest);
        DecodedPresence(dataType, line, i, rest, f.index);
      }
    }
  }

  predicate Zeros(s: seq<byte>) {
    forall k :: 0 <= k < |s| ==> s[k] == 0
  }

  /** Bytes that stand at two neighbouring places, behind a zero. */
  lemma {:induction false} ShiftedIsZero(line: seq<byte>, values: seq<byte>, k: nat)
    requires Holds(line, 4, values) && Slice(line, 5, |values|) == values && ByteAt(line, 4) == 0
    requires k <= |values| && 4 + k < |line|
    ensures line[4 + k] == 0 && (k < |values| ==> values[k] == 0)
    decreases k
  {
    if k > 0 {
      ShiftedIsZero(line, values, k - 1);
      assert Slice(line, 5, |values|)[k - 1] == ByteAt(line, 5 + (k - 1));
      assert 5 + (k - 1) == 4 + k;
    }
    if k < |values| {
      assert line[4..4 + |values|][k] == line[4 + k];
    }
  }

  lemma ZerosShift(line: seq<byte>, values: seq<byte>)
    requires Holds(line, 4, values) && 4 + |values| < |line| && line[4 + |values|] == 0 && Zeros(values)
    ensures Holds(line, 5, values) && ByteAt(line, 4) == 0
  {
    var s := line[4..5 + |values|];
    assert s == values + [0];
    assert line[5..5 + |values|] == s[1..];
    assert s[0] == line[4];
  }

  /** The first checksum byte follows the values when there is no string. */
  lemma ChecksumAt(g: Command, fields: seq<Field>, line: seq<byte>)
    requires line == WithSums(Body(g, fields)) && g.text == []
    ensures var end := 4 + |EncodedFields(g.values, fields)|;
      end < |line| && line[end] == Fletcher(Body(g, fields)).sum1
  {
    FletcherIs(Body(g, fields));
  }

  lemma AllShiftedZero(line: seq<byte>, values: seq<byte>)
    requires Holds(line, 4, values) && Slice(line, 5, |values|) == values && ByteAt(line, 4) == 0
             && 4 + |values| < |line|
    ensures Zeros(values) && line[4 + |values|] == 0
  {
    forall k | 0 <= k < |values| ensures values[k] == 0 {
      ShiftedIsZero(line, values, k);
    }
    ShiftedIsZero(line, values, |values|);
  }

  /** What the decoder of a command with a string bit and no string has found when it gave the command back. */
  lemma DecodedEmptyText(g: Command, line: seq<byte>, fields: seq<Field>, values: seq<byte>)
    requires g.text == [] && Bit(g.dataType, STRING_BIT) && DataType(line) == g.dataType
             && Decoded(line, fields) == Ok(g)
    requires Increasing(fields) && values == EncodedFields(g.values, fields)
    ensures ByteAt(line, 4) == 0 && Slice(line, 5, |values|) == values
  {
    EncodesDecoded(g.dataType, line, 5, fields);
  }

  lemma EmptyTextLine(g: Command, fields: seq<Field>, line: seq<byte>, values: seq<byte>)
    requires g.text == [] && line == WithSums(Body(g, fields)) && values == EncodedFields(g.values, fields)
    ensures DataType(line) == g.dataType && Holds(line, 4, values) && 4 + |values| < |line|
    ensures line[4 + |values|] == Fletcher(Body(g, fields)).sum1
  {
    Layout(g, fields, line);
    DataTypeKept(g, line);
    ChecksumAt(g, fields, line);
  }

  /** Such a command comes back only if all its values are zero and so is the first checksum byte. */
  lemma EmptyTextOnly(g: Command, fields: seq<Field>)
    requires g.hostCommand == [] && g.text == [] && Bit(g.dataType, STRING_BIT) && Increasing(fields)
    requires Decoded(Encoded(g, fields), fields) == Ok(g)
    ensures Zeros(EncodedFields(g.values, fields)) && Fletcher(Body(g, fields)).sum1 == 0
  {
    var line, values := Encoded(g, fields), EncodedFields(g.values, fields);
    EmptyTextLine(g, fields, line, values);
    DecodedEmptyText(g, line, fields, values);
    AllShiftedZero(line, values);
  }

  lemma DecodesEmptyText(g: Command, line: seq<byte>, fields: seq<Field>)
    requires g.hostCommand == [] && g.text == [] && Bit(g.dataType, STRING_BIT) && HasData(g)
    requires DataType(line) == g.dataType && ByteAt(line, 4) == 0
    requires DecodedFields(g.dataType, line, 5, fields).values == g.values
    ensures Decoded(line, fields) == Ok(g)
  {
  }

  lemma EmptyTextBack(g: Command, fields: seq<Field>)
    requires g.hostCommand == [] && g.text == [] && Bit(g.dataType, STRING_BIT)
    requires FieldsOk(g, fields) && HasData(g) && forall k :: k in g.values ==> Named(k, fields)
    requires Zeros(EncodedFields(g.values, fields)) && Fletcher(Body(g, fields)).sum1 == 0
    ensures Decoded(Encoded(g, fields), fields) == Ok(g)
  {
    var line := Encoded(g, fields);
    EmptyTextLine(g, fields, line, EncodedFields(g.values, fields));
    ZerosShift(line, EncodedFields(g.values, fields));
    FieldsRoundTrip(g, line, 5, fields);
    NothingElse(g.values, fields);
    DecodesEmptyText(g, line, fields);
  }

  /** The string and its bit agree, or there is none and every byte the decoder can take for its length is zero. */
  predicate StringOk(g: Command, fields: seq<Field>) {
    if Bit(g.dataType, STRING_BIT) && g.text == []
    then Zeros(EncodedFields(g.values, fields)) && Fletcher(Body(g, fields)).sum1 == 0
    else TextOk(g)
  }

  /**
   A command comes back exactly when its values are in range, its data type names exactly those it has, and its string
   agrees with its string bit.
   */
  lemma RoundTripsExactlyWhenOk(g: Command)
    requires g.hostCommand == [] && |Body(g, FIELDS)| <= 0xFF && forall k :: k in g.values ==> Named(k, FIELDS)
    ensures Decoded(Encoded(g, FIELDS), FIELDS) == Ok(g) <==> FieldsOk(g, FIELDS) && StringOk(g, FIELDS) && HasData(g)
  {
    FieldsIncreasing();
    RoundTripsFields(g, FIELDS);
  }

  lemma RoundTripsFields(g: Command, fields: seq<Field>)
    requires g.hostCommand == [] && |Body(g, fields)| <= 0xFF && forall k :: k in g.values ==> Named(k, fields)
    requires Increasing(fields)
    ensures Decoded(Encoded(g, fields), fields) == Ok(g) <==> FieldsOk(g, fields) && StringOk(g, fields) && HasData(g)
  {
    if Decoded(Encoded(g, fields), fields) == Ok(g) {
      OnlyWhenOk(g, fields);
      if Bit(g.dataType, STRING_BIT) && g.text == [] {
        EmptyTextOnly(g, fields);
      }
    }
    if FieldsOk(g, fields) && StringOk(g, fields) && HasData(g) {
      if Bit(g.dataType, STRING_BIT) && g.text == [] {
        EmptyTextBack(g, fields);
      } else {
        RoundTrip(g, fields);
      }
    }
  }

  lemma {:induction false} ZeroBytes(s: seq<byte>)
    requires Zeros(s)
    ensures Unsigned(s) == 0
  {
    if s != [] {
      ZeroBytes(s[1..]);
    }
  }

  lemma {:induction false} ZeroField(values: map<nat, int>, fields: seq<Field>, j: nat)
    requires Zeros(EncodedFields(values, fields)) && j < |fields| && fields[j].index in values
    ensures Zeros(Bytes(values[fields[j].index], fields[j].width))
    decreases |fields|
  {
    var f := fields[0];
    var first := if f.index in values then Bytes(values[f.index], f.width) else [];
    var rest := EncodedFields(values, fields[1..]);
    assert forall k :: 0 <= k < |first| ==> first[k] == (first + rest)[k];
    if j > 0 {
      assert forall k :: 0 <= k < |rest| ==> rest[k] == (first + rest)[|first| + k];
      ZeroField(values, fields[1..], j - 1);
    }
  }

  /**
   A command whose string bit is set, with an empty string and a value that is not zero, such as an M117 alone, is lost.
   */
  lemma EmptyStringIsLost(g: Command, j: nat)
    requires g.hostCommand == [] && g.text == [] && Bit(g.dataType, STRING_BIT)
    requires j < |FIELDS| && FIELDS[j].index in g.values && g.values[FIELDS[j].index] != 0
    ensures Decoded(Encoded(g, FIELDS), FIELDS) != Ok(g)
  {
    FieldsIncreasing();
    if Decoded(Encoded(g, FIELDS), FIELDS) == Ok(g) {
      OnlyWhenOk(g, FIELDS);
      EmptyTextOnly(g, FIELDS);
      ValuesZero(g, FIELDS, j);
    }
  }

  lemma ValuesZero(g: Command, fields: seq<Field>, j: nat)
    requires FieldsOk(g, fields) && Zeros(EncodedFields(g.values, fields)) && j < |fields|
             && fields[j].index in g.values
    ensures g.values[fields[j].index] == 0
  {
    var f := fields[j];
    assert FieldOk(g, f);
    ZeroField(g.values, fields, j);
    ZeroBytes(Bytes(g.values[f.index], f.width));
    FieldRoundTrip(f, g.values[f.index]);
  }

  /** M117 with nothing to show: what the decoder makes of a zero length byte, and what does not come back. */
  lemma EmptyStringExample()
    ensures var g := Command(0x9082, map[1 := 117], [], []);
      Decoded(Encoded(g, FIELDS), FIELDS) != Ok(g)
  {
    assert Bit(0x2, 1);
    assert Bit(0x9, 3);
    assert Bit(0x24, 5);
    assert Bit(0x90, 7);
    assert Bit(0x242, 9);
    assert Bit(0x908, 11);
    assert Bit(0x2420, 13);
    assert Bit(0x9082, 15);
    EmptyStringIsLost(Command(0x9082, map[1 := 117], [], []), 1);
  }

  /** A parameter without a value, such as the X of "G28 X", does not survive. */
  lemma FlagIsLost(g: Command, j: nat)
    requires g.hostCommand == [] && j < |FIELDS| && Bit(g.dataType, FIELDS[j].index) && FIELDS[j].index !in g.values
    ensures Decoded(Encoded(g, FIELDS), FIELDS) != Ok(g)
  {
    FieldsIncreasing();
    if Decoded(Encoded(g, FIELDS), FIELDS) == Ok(g) {
      OnlyWhenOk(g, FIELDS);
    }
  }

  // ---- The checksum

  function Sum(s: seq<byte>): nat {
    if s == [] then 0 else s[0] + Sum(s[1..])
  }

  /** Every byte counted once for each byte from it to the end. */
  function Weighted(s: seq<byte>): nat {
    if s == [] then 0 else |s| * s[0] + Weighted(s[1..])
  }

  lemma {:induction false} SumNext(s: seq<byte>, b: byte)
    ensures Sum(s + [b]) == Sum(s) + b
  {
    if s == [] {
      assert [b][1..] == [];
    } else {
      assert (s + [b])[1..] == s[1..] + [b];
      SumNext(s[1..], b);
    }
  }

  lemma OneMore(n: nat, x: nat)
    ensures (n + 1) * x == n * x + x
  {
  }

  lemma {:induction false} WeightedNext(s: seq<byte>, b: byte)
    ensures Weighted(s + [b]) == Weighted(s) + Sum(s) + b
  {
    if s == [] {
      assert s + [b] == [b];
      assert [b][1..] == [];
    } else {
      assert (s + [b])[1..] == s[1..] + [b];
      WeightedNext(s[1..], b);
      OneMore(|s|, s[0]);
    }
  }

  lemma ModShift(x: int, n: int)
    ensures (x + n * 0xFF) % 0xFF == x % 0xFF
  {
  }

  lemma ModAdd(a: nat, b: nat)
    ensures (a % 0xFF + b) % 0xFF == (a + b) % 0xFF
  {
    ModShift(a % 0xFF + b, a / 0xFF);
  }

  lemma SumsNext(sum: nat, weighted: nat, b: nat)
    ensures Added(Sums(sum % 0xFF, weighted % 0xFF), b) == Sums((sum + b) % 0xFF, (weighted + sum + b) % 0xFF)
  {
    ModAdd(sum, b);
    ModAdd(sum + b, weighted % 0xFF);
    ModAdd(weighted, sum + b);
  }

  /** The two checksum bytes are the plain and the position-weighted sum modulo 255, as in Appendix I of RFC 1146. */
  lemma {:induction false} FletcherIs(s: seq<byte>)
    ensures Fletcher(s) == Sums(Sum(s) % 0xFF, Weighted(s) % 0xFF)
    decreases |s|
  {
    if s != [] {
      var front, b := s[..|s| - 1], s[|s| - 1];
      FletcherIs(front);
      assert s == front + [b];
      SumNext(front, b);
      WeightedNext(front, b);
      SumsNext(Sum(front), Weighted(front), b);
    }
  }

  lemma Distributes(n: int, a: int, b: int)
    ensures n * (a - b) == n * a - n * b
  {
  }

  lemma WeightedFirst(s: seq<byte>, first: int)
    requires s != [] && first == |s| * s[0]
    ensures Weighted(s) == first + Weighted(s[1..]) && Sum(s) == s[0] + Sum(s[1..])
  {
  }

  lemma {:induction false} ChangedSums(s: seq<byte>, i: nat, c: byte)
    requires i < |s|
    ensures Sum(s[i := c]) == Sum(s) + c - s[i]
    ensures Weighted(s[i := c]) == Weighted(s) + (|s| - i) * (c - s[i])
  {
    var changed := s[i := c];
    WeightedFirst(s, |s| * s[0]);
    WeightedFirst(changed, |s| * changed[0]);
    if i == 0 {
      assert changed[1..] == s[1..];
      Distributes(|s|, c, s[0]);
    } else {
      assert changed[1..] == s[1..][i - 1 := c] && changed[0] == s[0];
      ChangedSums(s[1..], i - 1, c);
    }
  }

  lemma Unseen(a: nat, d: int)
    requires -0xFF <= d <= 0xFF && a + d >= 0
    ensures (a + d) % 0xFF == a % 0xFF <==> d == 0 || d == 0xFF || d == -0xFF
  {
  }

  lemma Multiples(a: int, n: int, d: int)
    requires d == 0 || d == 0xFF || d == -0xFF
    ensures (a + n * d) % 0xFF == a % 0xFF
  {
    ModShift(a, if d == 0xFF then n else if d == 0 then 0 else -n);
  }

  function Modulo255(v: Sums): Sums {
    Sums(v.sum1 % 0xFF, v.sum2 % 0xFF)
  }

  lemma SumsSeen(was: Sums, now: Sums, n: int, d: int)
    requires -0xFF <= d <= 0xFF && now.sum1 == was.sum1 + d && now.sum2 == was.sum2 + n * d
    ensures Modulo255(now) == Modulo255(was) <==> d == 0 || d == 0xFF || d == -0xFF
  {
    Unseen(was.sum1, d);
    if d == 0 || d == 0xFF || d == -0xFF {
      Multiples(was.sum2, n, d);
    }
  }

  lemma SumsOf(s: seq<byte>, i: nat, c: byte) returns (was: Sums, now: Sums)
    requires i < |s|
    ensures Fletcher(s) == Modulo255(was) && Fletcher(s[i := c]) == Modulo255(now)
    ensures now.sum1 == was.sum1 + (c - s[i]) && now.sum2 == was.sum2 + (|s| - i) * (c - s[i])
  {
    was, now := Sums(Sum(s), Weighted(s)), Sums(Sum(s[i := c]), Weighted(s[i := c]));
    FletcherIs(s);
    FletcherIs(s[i := c]);
    ChangedSums(s, i, c);
  }

  lemma Extremes(a: byte, c: byte)
    ensures c - a == 0 || c - a == 0xFF || c - a == -0xFF <==> c == a || {c, a} == {0, 0xFF}
  {
    if c - a == 0xFF {
      assert c == 0xFF && a == 0;
    } else if c - a == -0xFF {
      assert c == 0 && a == 0xFF;
    }
  }

  /** A changed byte changes the checksum, except for a change between 0 and 255. */
  lemma ChangeIsSeen(s: seq<byte>, i: nat, c: byte)
    requires i < |s|
    ensures Fletcher(s[i := c]) == Fletcher(s) <==> c == s[i] || {c, s[i]} == {0, 0xFF}
  {
    var was, now := SumsOf(s, i, c);
    SumsSeen(was, now, |s| - i, c - s[i]);
    Extremes(s[i], c);
  }

  // ---- The same in place

  lemma {:induction false} EncodedNext(values: map<nat, int>, fields: seq<Field>, f: Field)
    ensures EncodedFields(values, fields + [f]) == EncodedFields(values, fields) + EncodedFields(values, [f])
    decreases |fields|
  {
    if fields == [] {
      assert fields + [f] == [f];
    } else {
      assert (fields + [f])[1..] == fields[1..] + [f];
      EncodedNext(values, fields[1..], f);
      var first := if fields[0].index in values then Bytes(values[fields[0].index], fields[0].width) else [];
      Associative(first, EncodedFields(values, fields[1..]), EncodedFields(values, [f]));
    }
  }

  lemma EncodedOne(values: map<nat, int>, f: Field)
    ensures EncodedFields(values, [f]) == if f.index in values then Bytes(values[f.index], f.width) else []
  {
    assert [f][1..] == [];
  }

  method PushBackBytes(request: seq<byte>, value: int, width: nat) returns (r: seq<byte>)
    ensures r == request + Bytes(value, width)
  {
    r := request;
    var v := value;
    for i := 0 to width
      invariant r + Bytes(v, width - i) == request + Bytes(value, width)
    {
      assert r + Bytes(v, width - i) == (r + [v % 0x100]) + Bytes(v / 0x100, width - i - 1);
      r := r + [v % 0x100];
      v := v / 0x100;
    }
  }

  lemma EncodedUpTo(values: map<nat, int>, fields: seq<Field>, i: nat)
    requires i < |fields|
    ensures EncodedFields(values, fields[..i + 1])
            == EncodedFields(values, fields[..i]) + EncodedFields(values, [fields[i]])
  {
    assert fields[..i + 1] == fields[..i] + [fields[i]];
    EncodedNext(values, fields[..i], fields[i]);
  }

  method PushBackValue(request: seq<byte>, values: map<nat, int>, f: Field) returns (r: seq<byte>)
    ensures r == request + EncodedFields(values, [f])
  {
    EncodedOne(values, f);
    r := request;
    if f.index in values {
      r := PushBackBytes(r, values[f.index], f.width);
    }
  }

  /** The values in the order of the fields. */
  method PushBackValues(request: seq<byte>, values: map<nat, int>, fields: seq<Field>) returns (r: seq<byte>)
    ensures r == request + EncodedFields(values, fields)
  {
    r := request;
    for i := 0 to |fields|
      invariant r == request + EncodedFields(values, fields[..i])
    {
      EncodedUpTo(values, fields, i);
      Associative(request, EncodedFields(values, fields[..i]), EncodedFields(values, [fields[i]]));
      r := PushBackValue(r, values, fields[i]);
    }
    assert fields[..|fields|] == fields;
  }

  lemma AddedBelow(sums: Sums, b: nat)
    ensures Added(sums, b).sum1 < 0xFF && Added(sums, b).sum2 < 0xFF
  {
  }

  lemma SumsFit(s: seq<byte>, sum1: nat, sum2: nat)
    requires Fletcher(s) == Sums(sum1, sum2)
    ensures sum1 < 0xFF && sum2 < 0xFF && s + [sum1, sum2] == WithSums(s)
  {
    if s != [] {
      AddedBelow(Fletcher(s[..|s| - 1]), s[|s| - 1]);
    }
    assert sum1 % 0x100 == sum1 && sum2 % 0x100 == sum2;
  }

  lemma FletcherNext(s: seq<byte>, i: nat)
    requires i < |s|
    ensures Fletcher(s[..i + 1]) == Added(Fletcher(s[..i]), s[i])
  {
    assert s[..i + 1][..i] == s[..i];
  }

  /** The checksum loop; its 8-bit index reaches the end of requests of up to 255 bytes only. */
  method AppendChecksum(request: seq<byte>) returns (r: seq<byte>)
    requires |request| <= 0xFF
    ensures r == WithSums(request)
  {
    var sum1: nat, sum2: nat := 0, 0;
    for index := 0 to |request|
      invariant Fletcher(request[..index]) == Sums(sum1, sum2)
    {
      FletcherNext(request, index);
      sum1 := (sum1 + request[index]) % 0xFF;
      sum2 := (sum1 + sum2) % 0xFF;
    }
    assert request[..|request|] == request;
    SumsFit(request, sum1, sum2);
    r := request + [sum1, sum2];
  }

  class Gcode {
    var dataType: uint32
    var values: map<nat, int>
    var text: seq<byte>
    var hostCommand: seq<byte>

    ghost function View(): Command
      reads this
    {
      Command(dataType, values, text, hostCommand)
    }

    constructor ()
      ensures View() == Command(EMPTY_DATA_TYPE, map[], [], [])
    {
      dataType, values, text, hostCommand := EMPTY_DATA_TYPE, map[], [], [];
    }

    method GetBinary() returns (request: seq<byte>)
      requires if hostCommand != [] then |hostCommand| <= 0xFF else |Body(View(), FIELDS)| <= 0xFF
      ensures request == Encoded(View(), FIELDS)
    {
      if hostCommand != [] {
        return hostCommand;
      }
      request := PushBackBody(FIELDS);
      request := AppendChecksum(request);
    }

    method PushBackBody(fields: seq<Field>) returns (request: seq<byte>)
      ensures request == Body(View(), fields)
    {
      request := PushBackBytes([], dataType, 4);
      if text != [] {
        request := request + [|text| % 0x100];
      }
      ghost var head := request;
      request := PushBackValues(request, values, fields);
      if text != [] {
        request := request + text;
      }
      assert request == head + EncodedFields(values, fields) + text;
      assert head == Bytes(dataType, 4) + Length(text);
    }

    /** The fields from byte `start` on; `index` is where the string starts. */
    method ParseValues(line: seq<byte>, start: nat, fields: seq<Field>) returns (index: nat)
      requires Increasing(fields)
      modifies `values
      ensures values == DecodedFields(dataType, line, start, fields).values
              && index == DecodedFields(dataType, line, start, fields).end
    {
      values := map[];
      index := start;
      for j := 0 to |fields|
        invariant DecodedFields(dataType, line, start, fields).end
                  == DecodedFields(dataType, line, index, fields[j..]).end
        invariant DecodedFields(dataType, line, start, fields).values
                  == values + DecodedFields(dataType, line, index, fields[j..]).values
        invariant forall k :: k in values ==> forall m :: j <= m < |fields| ==> k < fields[m].index
      {
        var f := fields[j];
        assert fields[j..][1..] == fields[j + 1..] && fields[j..][0] == f;
        if Bit(dataType, f.index) {
          DecodedPresence(dataType, line, index + f.width, fields[j + 1..], f.index);
          ghost var rest := DecodedFields(dataType, line, index + f.width, fields[j + 1..]).values;
          ghost var v := FieldValue(f, Slice(line, index, f.width));
          assert values + rest[f.index := v] == values[f.index := v] + rest;
          values := values[f.index := FieldValue(f, Slice(line, index, f.width))];
          index := index + f.width;
        }
      }
    }

    method ParseBinary(line: seq<byte>) returns (ok: bool)
      modifies this
      ensures ok == Decoded(line, FIELDS).Ok? && dataType == DataType(line)
      ensures if ok then View() == Decoded(line, FIELDS).command else View() == old(View()).(dataType := dataType)
    {
      dataType := DataType(line);
      if dataType == 0 || dataType == EMPTY_DATA_TYPE {
        return false;
      }
      hostCommand := [];
      var index := 4;
      if Bit(dataType, STRING_BIT) {
        index := index + 1;
      }
      FieldsIncreasing();
      index := ParseValues(line, index, FIELDS);
      text := [];
      if Bit(dataType, STRING_BIT) {
        ParseText(line, index);
      }
      ok := true;
    }

    method ParseText(line: seq<byte>, index: nat)
      modifies `text
      ensures text == Slice(line, index, ByteAt(line, 4))
    {
      text := [];
      for i := 0 to ByteAt(line, 4)
        invariant text == Slice(line, index, i)
      {
        text := text + [ByteAt(line, index + i)];
      }
    }
  }
}
