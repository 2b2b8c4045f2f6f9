/**
 How the state of the X, Y and Z motors is kept in EEPROM: `changeState`, the save timer and the save before a reset. A
 value is the four bytes of its float; bytes that differ are values that differ.
 */
module SavedState {

  import opened Arithmetic

  const EEPROM_SIZE := 0x400
  const MOTORS := 3
  const Z := 2

  const DIRECTION := 0
  const VALIDITY := 1
  const VALUE := 2

  /** What is kept of each motor, X first. */
  datatype State = State(directions: seq<byte>, validities: seq<byte>, values: seq<seq<byte>>) {
    predicate Shaped() {
      && |directions| == MOTORS && |validities| == MOTORS && |values| == MOTORS
      && forall i :: 0 <= i < MOTORS ==> |values[i]| == 4
    }
  }

  // ---- Where everything is kept

  /** A kept parameter of a motor; the direction of the Z motor is not kept. */
  predicate IsKept(motor: nat, parameter: nat) {
    motor < MOTORS && parameter <= VALUE && !(motor == Z && parameter == DIRECTION)
  }

  function Offset(motor: nat, parameter: nat): (o: nat)
    requires IsKept(motor, parameter)
  {
    if parameter == VALUE then (if motor == 0 then 0x29F else if motor == 1 then 0x2A3 else 0x08)
    else if parameter == VALIDITY then (if motor == 0 then 0x2A9 else if motor == 1 then 0x2AA else 0x2E6)
    else if motor == 0 then 0x2A7 else 0x2A8
  }

  function Length(parameter: nat): nat {
    if parameter == VALUE then 4 else 1
  }

  function Kept(s: State, motor: nat, parameter: nat): (d: seq<byte>)
    requires s.Shaped() && motor < MOTORS
    ensures |d| == Length(parameter)
  {
    if parameter == VALUE then s.values[motor] else if parameter == VALIDITY then [s.validities[motor]]
    else [s.directions[motor]]
  }

  predicate IsEeprom(e: seq<byte>) {
    |e| == EEPROM_SIZE
  }

  function ReadCell(e: seq<byte>, motor: nat, parameter: nat): seq<byte>
    requires IsEeprom(e) && IsKept(motor, parameter)
  {
    e[Offset(motor, parameter)..Offset(motor, parameter) + Length(parameter)]
  }

  function Write(e: seq<byte>, offset: nat, data: seq<byte>): (r: seq<byte>)
    requires IsEeprom(e) && offset + |data| <= EEPROM_SIZE
    ensures IsEeprom(r)
  {
    e[..offset] + data + e[offset + |data|..]
  }

  lemma WriteAt(e: seq<byte>, offset: nat, data: seq<byte>)
    requires IsEeprom(e) && offset + |data| <= EEPROM_SIZE
    ensures Write(e, offset, data)[offset..offset + |data|] == data
    ensures forall k :: 0 <= k < EEPROM_SIZE && !(offset <= k < offset + |data|) ==> Write(e, offset, data)[k] == e[k]
  {
  }

  /** Writing what is there changes nothing. */
  lemma WriteSame(e: seq<byte>, offset: nat, data: seq<byte>)
    requires IsEeprom(e) && offset + |data| <= EEPROM_SIZE && e[offset..offset + |data|] == data
    ensures Write(e, offset, data) == e
  {
    assert e == e[..offset] + e[offset..offset + |data|] + e[offset + |data|..];
  }

  /** Two cells do not overlap. */
  lemma CellsApart(m: nat, p: nat, n: nat, q: nat)
    requires IsKept(m, p) && IsKept(n, q) && (m != n || p != q)
    ensures Offset(m, p) + Length(p) <= Offset(n, q) || Offset(n, q) + Length(q) <= Offset(m, p)
  {
  }

  // ---- Saving

  /** One save: the parameter's cell gets its current bytes. */
  function Save(e: seq<byte>, s: State, motor: nat, parameter: nat): (r: seq<byte>)
    requires IsEeprom(e) && s.Shaped() && motor < MOTORS && parameter <= VALUE
    ensures IsEeprom(r)
  {
    if IsKept(motor, parameter) then Write(e, Offset(motor, parameter), Kept(s, motor, parameter)) else e
  }

  lemma SaveStores(e: seq<byte>, s: State, motor: nat, parameter: nat)
    requires IsEeprom(e) && s.Shaped() && IsKept(motor, parameter)
    ensures ReadCell(Save(e, s, motor, parameter), motor, parameter) == Kept(s, motor, parameter)
  {
    WriteAt(e, Offset(motor, parameter), Kept(s, motor, parameter));
  }

  lemma SameCell(a: seq<byte>, b: seq<byte>, n: nat, q: nat)
    requires IsEeprom(a) && IsEeprom(b) && IsKept(n, q)
    requires forall k :: Offset(n, q) <= k < Offset(n, q) + Length(q) ==> a[k] == b[k]
    ensures ReadCell(a, n, q) == ReadCell(b, n, q)
  {
  }

  /** A save leaves every other cell alone. */
  lemma SaveKeepsOthers(e: seq<byte>, s: State, m: nat, p: nat, n: nat, q: nat)
    requires IsEeprom(e) && s.Shaped() && m < MOTORS && p <= VALUE && IsKept(n, q) && (m != n || p != q)
    ensures ReadCell(Save(e, s, m, p), n, q) == ReadCell(e, n, q)
  {
    if IsKept(m, p) {
      CellsApart(m, p, n, q);
      WriteAt(e, Offset(m, p), Kept(s, m, p));
      SameCell(Save(e, s, m, p), e, n, q);
    }
  }

  /** No cell lies at address `k`. */
  ghost predicate Unused(k: nat) {
    forall m: nat, p: nat :: IsKept(m, p) ==> !(Offset(m, p) <= k < Offset(m, p) + Length(p))
  }

  lemma SaveKeepsRest(e: seq<byte>, s: State, motor: nat, parameter: nat, k: nat)
    requires IsEeprom(e) && s.Shaped() && motor < MOTORS && parameter <= VALUE && k < EEPROM_SIZE && Unused(k)
    ensures Save(e, s, motor, parameter)[k] == e[k]
  {
    if IsKept(motor, parameter) {
      WriteAt(e, Offset(motor, parameter), Kept(s, motor, parameter));
    }
  }

  // ---- The rota

  /** Which parameter of which motor was saved last. */
  datatype Turn = Turn(motor: nat, parameter: nat) {
    predicate Valid() {
      motor < MOTORS && parameter <= VALUE
    }
  }

  const FIRST_TURN := Turn(Z, VALUE)

  function NextTurn(t: Turn): (n: Turn)
    requires t.Valid()
    ensures n.Valid()
  {
    if t.parameter == VALUE then Turn(if t.motor == Z then 0 else t.motor + 1, DIRECTION)
    else Turn(t.motor, t.parameter + 1)
  }

  function TurnAfter(t: Turn, n: nat): (r: Turn)
    requires t.Valid()
    ensures r.Valid()
  {
    if n == 0 then t else NextTurn(TurnAfter(t, n - 1))
  }

  /** The place of a turn in the rota. */
  function Place(t: Turn): (i: nat)
    requires t.Valid()
    ensures i < 9
  {
    3 * t.motor + t.parameter
  }

  /** A place of the rota, counted on past its end at most once. */
  function Round(x: nat): nat {
    if x < 9 then x else x - 9
  }

  lemma NextPlace(t: Turn)
    requires t.Valid()
    ensures Place(NextTurn(t)) == Round(Place(t) + 1)
  {
  }

  lemma {:induction false} PlaceAfter(t: Turn, n: nat)
    requires t.Valid() && n <= 9
    ensures Place(TurnAfter(t, n)) == Round(Place(t) + n)
  {
    if n > 0 {
      PlaceAfter(t, n - 1);
      NextPlace(TurnAfter(t, n - 1));
    }
  }

  /** How many turns it takes from place `b` to place `a`. */
  function Distance(b: nat, a: nat): (n: nat)
    requires a < 9 && b < 9
    ensures 1 <= n <= 9 && Round(b + n) == a
  {
    if a > b then a - b else a + 9 - b
  }

  lemma SamePlace(t: Turn, u: Turn)
    requires t.Valid() && u.Valid() && Place(t) == Place(u)
    ensures t == u
  {
  }

  /** Save ticks, one for each state found. */
  function Ticks(e: seq<byte>, states: seq<State>, t: Turn): (r: seq<byte>)
    requires IsEeprom(e) && t.Valid() && forall j :: 0 <= j < |states| ==> states[j].Shaped()
    ensures IsEeprom(r)
    decreases |states|
  {
    if states == [] then e
    else
      var last := TurnAfter(t, |states|);
      Save(Ticks(e, states[..|states| - 1], t), states[|states| - 1], last.motor, last.parameter)
  }

  lemma DifferentTurns(t: Turn, i: nat, j: nat)
    requires t.Valid() && 1 <= i < j <= 9
    ensures TurnAfter(t, i) != TurnAfter(t, j)
  {
    PlaceAfter(t, i);
    PlaceAfter(t, j);
  }

  /** Within nine ticks every cell saved holds what its tick found. */
  lemma {:induction false} TicksStore(e: seq<byte>, states: seq<State>, t: Turn, j: nat)
    requires IsEeprom(e) && t.Valid() && |states| <= 9 && (forall i :: 0 <= i < |states| ==> states[i].Shaped())
    requires j < |states| && IsKept(TurnAfter(t, j + 1).motor, TurnAfter(t, j + 1).parameter)
    ensures var turn := TurnAfter(t, j + 1);
      ReadCell(Ticks(e, states, t), turn.motor, turn.parameter) == Kept(states[j], turn.motor, turn.parameter)
    decreases |states|
  {
    var front := states[..|states| - 1];
    if j == |states| - 1 {
      TickStores(Ticks(e, front, t), states[j], TurnAfter(t, j + 1));
    } else {
      TicksStore(e, front, t, j);
      DifferentTurns(t, j + 1, |states|);
      TickKeepsOthers(Ticks(e, front, t), states[|states| - 1], TurnAfter(t, |states|), TurnAfter(t, j + 1));
    }
  }

  lemma TickStores(e: seq<byte>, s: State, t: Turn)
    requires IsEeprom(e) && s.Shaped() && IsKept(t.motor, t.parameter)
    ensures ReadCell(Save(e, s, t.motor, t.parameter), t.motor, t.parameter) == Kept(s, t.motor, t.parameter)
  {
    SaveStores(e, s, t.motor, t.parameter);
  }

  lemma TickKeepsOthers(e: seq<byte>, s: State, t: Turn, u: Turn)
    requires IsEeprom(e) && s.Shaped() && t.Valid() && IsKept(u.motor, u.parameter) && t != u
    ensures ReadCell(Save(e, s, t.motor, t.parameter), u.motor, u.parameter) == ReadCell(e, u.motor, u.parameter)
  {
    SaveKeepsOthers(e, s, t.motor, t.parameter, u.motor, u.parameter);
  }

  lemma {:induction false} TicksKeepRest(e: seq<byte>, states: seq<State>, t: Turn, k: nat)
    requires IsEeprom(e) && t.Valid() && (forall i :: 0 <= i < |states| ==> states[i].Shaped()) && k < EEPROM_SIZE
             && Unused(k)
    ensures Ticks(e, states, t)[k] == e[k]
    decreases |states|
  {
    if states != [] {
      var last := TurnAfter(t, |states|);
      TicksKeepRest(e, states[..|states| - 1], t, k);
      SaveKeepsRest(Ticks(e, states[..|states| - 1], t), states[|states| - 1], last.motor, last.parameter, k);
    }
  }

  /** Every turn comes within nine ticks. */
  lemma TurnComes(t: Turn, u: Turn, n: nat)
    requires t.Valid() && u.Valid() && n == Distance(Place(t), Place(u))
    ensures TurnAfter(t, n) == u
  {
    PlaceAfter(t, n);
    SamePlace(TurnAfter(t, n), u);
  }

  /** Every cell holds the state. */
  ghost predicate Holds(e: seq<byte>, s: State)
    requires IsEeprom(e) && s.Shaped()
  {
    forall m: nat, p: nat :: IsKept(m, p) ==> ReadCell(e, m, p) == Kept(s, m, p)
  }

  lemma CellAfterTicks(e: seq<byte>, s: State, t: Turn, states: seq<State>, m: nat, p: nat, j: nat)
    requires IsEeprom(e) && s.Shaped() && t.Valid() && IsKept(m, p) && TurnAfter(t, j + 1) == Turn(m, p)
    requires j < |states| <= 9 && forall i :: 0 <= i < |states| ==> states[i] == s
    ensures ReadCell(Ticks(e, states, t), m, p) == Kept(s, m, p)
  {
    TicksStore(e, states, t, j);
  }

  lemma CellComes(t: Turn, m: nat, p: nat) returns (j: nat)
    requires t.Valid() && IsKept(m, p)
    ensures j < 9 && TurnAfter(t, j + 1) == Turn(m, p)
  {
    j := Distance(Place(t), Place(Turn(m, p))) - 1;
    TurnComes(t, Turn(m, p), j + 1);
  }

  /** After any nine save ticks that find the same state, EEPROM holds that state, and nothing else has changed. */
  lemma NineTicks(e: seq<byte>, s: State, t: Turn, states: seq<State>)
    requires IsEeprom(e) && s.Shaped() && t.Valid()
    requires |states| == 9 && forall i :: 0 <= i < |states| ==> states[i] == s
    ensures Holds(Ticks(e, states, t), s)
    ensures forall k :: 0 <= k < EEPROM_SIZE && Unused(k) ==> Ticks(e, states, t)[k] == e[k]
  {
    var r := Ticks(e, states, t);
    forall m: nat, p: nat | IsKept(m, p) ensures ReadCell(r, m, p) == Kept(s, m, p) {
      var j := CellComes(t, m, p);
      CellAfterTicks(e, s, t, states, m, p, j);
    }
    forall k | 0 <= k < EEPROM_SIZE && Unused(k) ensures r[k] == e[k] {
      TicksKeepRest(e, states, t, k);
    }
  }

  // ---- Restoring

  /** The state read from EEPROM; the direction of the Z motor stays. */
  function Restored(e: seq<byte>, s: State): (r: State)
    requires IsEeprom(e) && s.Shaped()
    ensures r.Shaped()
  {
    State([e[0x2A7], e[0x2A8], s.directions[Z]], [e[0x2A9], e[0x2AA], e[0x2E6]],
          [e[0x29F..0x2A3], e[0x2A3..0x2A7], e[0x08..0x0C]])
  }

  /** Restoring gives back what was saved. */
  lemma RestoresSaved(e: seq<byte>, s: State, other: State)
    requires IsEeprom(e) && s.Shaped() && other.Shaped() && Holds(e, s)
    ensures Restored(e, other) == s.(directions := s.directions[Z := other.directions[Z]])
  {
    forall m: nat, p: nat | IsKept(m, p) ensures ReadCell(e, m, p) == Kept(s, m, p) {
    }
    var r := Restored(e, other);
    assert forall m :: 0 <= m < MOTORS ==>
                         ReadCell(e, m, VALUE) == s.values[m] && ReadCell(e, m, VALIDITY) == [s.validities[m]];
    assert ReadCell(e, 0, DIRECTION) == [s.directions[0]] && ReadCell(e, 1, DIRECTION) == [s.directions[1]];
    assert r.values == s.values && r.validities == s.validities;
  }

  /** The first `n` parameters of a motor saved in turn. */
  function SavedParameters(e: seq<byte>, s: State, motor: nat, n: nat): (r: seq<byte>)
    requires IsEeprom(e) && s.Shaped() && motor < MOTORS && n <= 3
    ensures IsEeprom(r)
  {
    if n == 0 then e else Save(SavedParameters(e, s, motor, n - 1), s, motor, n - 1)
  }

  /** All parameters of the first `n` motors saved in turn. */
  function SavedMotors(e: seq<byte>, s: State, n: nat): (r: seq<byte>)
    requires IsEeprom(e) && s.Shaped() && n <= MOTORS
    ensures IsEeprom(r)
  {
    if n == 0 then e else SavedParameters(SavedMotors(e, s, n - 1), s, n - 1, 3)
  }

  lemma {:induction false} SavedParametersHold(e: seq<byte>, s: State, motor: nat, n: nat, m: nat, p: nat)
    requires IsEeprom(e) && s.Shaped() && motor < MOTORS && n <= 3 && IsKept(m, p)
    ensures ReadCell(SavedParameters(e, s, motor, n), m, p)
            == if m == motor && p < n then Kept(s, m, p) else ReadCell(e, m, p)
  {
    if n > 0 {
      var before := SavedParameters(e, s, motor, n - 1);
      SavedParametersHold(e, s, motor, n - 1, m, p);
      if m == motor && p == n - 1 {
        SaveStores(before, s, m, p);
      } else {
        SaveKeepsOthers(before, s, motor, n - 1, m, p);
      }
    }
  }

  lemma {:induction false} SavedMotorsHold(e: seq<byte>, s: State, n: nat, m: nat, p: nat)
    requires IsEeprom(e) && s.Shaped() && n <= MOTORS && IsKept(m, p)
    ensures ReadCell(SavedMotors(e, s, n), m, p) == if m < n then Kept(s, m, p) else ReadCell(e, m, p)
  {
    if n > 0 {
      SavedMotorsHold(e, s, n - 1, m, p);
      SavedParametersHold(SavedMotors(e, s, n - 1), s, n - 1, 3, m, p);
    }
  }

  lemma {:induction false} SavedParametersKeepRest(e: seq<byte>, s: State, motor: nat, n: nat, k: nat)
    requires IsEeprom(e) && s.Shaped() && motor < MOTORS && n <= 3 && k < EEPROM_SIZE && Unused(k)
    ensures SavedParameters(e, s, motor, n)[k] == e[k]
  {
    if n > 0 {
      SavedParametersKeepRest(e, s, motor, n - 1, k);
      SaveKeepsRest(SavedParameters(e, s, motor, n - 1), s, motor, n - 1, k);
    }
  }

  lemma {:induction false} SavedMotorsKeepRest(e: seq<byte>, s: State, n: nat, k: nat)
    requires IsEeprom(e) && s.Shaped() && n <= MOTORS && k < EEPROM_SIZE && Unused(k)
    ensures SavedMotors(e, s, n)[k] == e[k]
  {
    if n > 0 {
      SavedMotorsKeepRest(e, s, n - 1, k);
      SavedParametersKeepRest(SavedMotors(e, s, n - 1), s, n - 1, 3, k);
    }
  }

  /** The save before a reset leaves EEPROM holding the state, and nothing else changed. */
  lemma SavedMotorsHoldState(e: seq<byte>, s: State)
    requires IsEeprom(e) && s.Shaped()
    ensures Holds(SavedMotors(e, s, MOTORS), s)
    ensures forall k :: 0 <= k < EEPROM_SIZE && Unused(k) ==> SavedMotors(e, s, MOTORS)[k] == e[k]
  {
    var r := SavedMotors(e, s, MOTORS);
    forall m: nat, p: nat | IsKept(m, p) ensures ReadCell(r, m, p) == Kept(s, m, p) {
      SavedMotorsHold(e, s, MOTORS, m, p);
    }
    forall k | 0 <= k < EEPROM_SIZE && Unused(k) ensures r[k] == e[k] {
      SavedMotorsKeepRest(e, s, MOTORS, k);
    }
  }

  // ---- The same in place

  class Memory {
    const eeprom: array<byte>
    const directions: array<byte>
    const validities: array<byte>
    const values: array<seq<byte>>
    var turn: Turn

    ghost predicate Layout() {
      && eeprom.Length == EEPROM_SIZE && directions.Length == MOTORS && validities.Length == MOTORS
      && values.Length == MOTORS
      && eeprom != directions && eeprom != validities && directions != validities
    }

    ghost predicate Valid()
      reads this, eeprom, directions, validities, values
    {
      Layout() && turn.Valid() && View().Shaped()
    }

    ghost function View(): State
      reads this, directions, validities, values
    {
      State(directions[..], validities[..], values[..])
    }

    constructor (e: seq<byte>, s: State)
      requires IsEeprom(e) && s.Shaped()
      ensures Valid() && eeprom[..] == e && View() == s && turn == FIRST_TURN
      ensures fresh(eeprom) && fresh(directions) && fresh(validities) && fresh(values)
    {
      eeprom := new byte[EEPROM_SIZE](i requires 0 <= i < |e| => e[i]);
      directions := new byte[MOTORS](i requires 0 <= i < |s.directions| => s.directions[i]);
      validities := new byte[MOTORS](i requires 0 <= i < |s.validities| => s.validities[i]);
      values := new seq<byte>[MOTORS](i requires 0 <= i < |s.values| => s.values[i]);
      turn := FIRST_TURN;
      new;
      assert eeprom[..] == e && directions[..] == s.directions && validities[..] == s.validities
             && values[..] == s.values;
    }

    method WriteBytes(offset: nat, data: seq<byte>)
      requires eeprom.Length == EEPROM_SIZE && offset + |data| <= EEPROM_SIZE
      modifies eeprom
      ensures eeprom[..] == Write(old(eeprom[..]), offset, data)
    {
      forall k | 0 <= k < |data| {
        eeprom[offset + k] := data[k];
      }
      assert eeprom[..] == Write(old(eeprom[..]), offset, data);
    }

    /** `changeState` for one motor: saves a parameter unless EEPROM is up to date. */
    method SaveState(motor: nat, parameter: nat)
      requires Valid() && motor < MOTORS && parameter <= VALUE
      modifies eeprom
      ensures Valid() && View() == old(View()) && eeprom[..] == Save(old(eeprom[..]), View(), motor, parameter)
    {
      if parameter == DIRECTION && motor != Z {
        UpdateCell(motor, parameter, [directions[motor]]);
      } else if parameter == VALIDITY {
        UpdateCell(motor, parameter, [validities[motor]]);
      } else if parameter == VALUE {
        UpdateCell(motor, parameter, values[motor]);
      }
    }

    method UpdateCell(motor: nat, parameter: nat, data: seq<byte>)
      requires eeprom.Length == EEPROM_SIZE && IsKept(motor, parameter) && |data| == Length(parameter)
      modifies eeprom
      ensures eeprom[..] == Write(old(eeprom[..]), Offset(motor, parameter), data)
    {
      var offset := Offset(motor, parameter);
      if eeprom[offset..offset + |data|] != data {
        WriteBytes(offset, data);
      } else {
        assert eeprom[..][offset..offset + |data|] == data;
        WriteSame(eeprom[..], offset, data);
      }
    }

    /** The save timer's callback when its time has come. */
    method SaveTick()
      requires Valid()
      modifies eeprom, `turn
      ensures Valid() && View() == old(View()) && turn == NextTurn(old(turn))
      ensures eeprom[..] == Save(old(eeprom[..]), View(), turn.motor, turn.parameter)
    {
      if turn.parameter == VALUE {
        turn := Turn(if turn.motor == Z then 0 else turn.motor + 1, DIRECTION);
      } else {
        turn := turn.(parameter := turn.parameter + 1);
      }
      SaveState(turn.motor, turn.parameter);
    }

    /** The save before a reset (M115 S628): every parameter of every motor in turn. */
    method SaveAll()
      requires Valid()
      modifies eeprom
      ensures Valid() && View() == old(View()) && Holds(eeprom[..], View())
      ensures forall k :: 0 <= k < EEPROM_SIZE && Unused(k) ==> eeprom[k] == old(eeprom[k])
    {
      ghost var e, s := eeprom[..], View();
      for motor := 0 to MOTORS
        invariant Valid() && View() == s && eeprom[..] == SavedMotors(e, s, motor)
      {
        SaveMotor(motor);
      }
      SavedMotorsHoldState(e, s);
    }

    method SaveMotor(motor: nat)
      requires Valid() && motor < MOTORS
      modifies eeprom
      ensures Valid() && View() == old(View()) && eeprom[..] == SavedParameters(old(eeprom[..]), View(), motor, 3)
    {
      for parameter := DIRECTION to VALUE + 1
        invariant Valid() && View() == old(View())
        invariant eeprom[..] == SavedParameters(old(eeprom[..]), View(), motor, parameter)
      {
        SaveState(motor, parameter);
      }
    }

    /** `changeState` for one motor when it restores. */
    method RestoreMotor(motor: nat)
      requires Layout() && motor < MOTORS
      modifies directions, validities, values
      ensures directions[..] == if motor == Z then old(directions[..])
              else old(directions[..])[motor := eeprom[Offset(motor, DIRECTION)]]
      ensures validities[..] == old(validities[..])[motor := eeprom[Offset(motor, VALIDITY)]]
      ensures values[..] == old(values[..])[motor := ReadCell(eeprom[..], motor, VALUE)]
    {
      if motor != Z {
        directions[motor] := eeprom[Offset(motor, DIRECTION)];
      }
      validities[motor] := eeprom[Offset(motor, VALIDITY)];
      var offset := Offset(motor, VALUE);
      values[motor] := eeprom[offset..offset + Length(VALUE)];
      assert eeprom[..][offset..offset + Length(VALUE)] == eeprom[offset..offset + Length(VALUE)];
    }

    method RestoreState()
      requires Valid()
      modifies directions, validities, values
      ensures Valid() && View() == Restored(eeprom[..], old(View()))
    {
      for motor := 0 to MOTORS
        invariant forall k :: 0 <= k < motor ==>
                                && validities[k] == eeprom[Offset(k, VALIDITY)]
                                && values[k] == ReadCell(eeprom[..], k, VALUE)
        invariant forall k :: 0 <= k < motor && k != Z ==> directions[k] == eeprom[Offset(k, DIRECTION)]
        invariant directions[Z] == old(directions[Z])
      {
        RestoreMotor(motor);
      }
      ghost var r := Restored(eeprom[..], old(View()));
      assert validities[0] == r.validities[0] && validities[1] == r.validities[1] && validities[2] == r.validities[2];
      assert values[0] == r.values[0] && values[1] == r.values[1] && values[2] == r.values[2];
      assert directions[..] == r.directions && validities[..] == r.validities && values[..] == r.values;
    }
  }
}
