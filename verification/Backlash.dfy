/** Backlash taken up over a run of received movements. */
module Backlash {
  import opened Arithmetic
  import opened BedSurface
  import opened Motion

  /** Whole steps in a backlash distance, with its sign. */
  function Nominal(backlash: real, scale: real): int {
    var size := Abs(backlash) * scale;
    var n: int := if size >= 1.0 then ToUint32(size) else 0;
    if backlash >= 0.0 then n else -n
  }

  /** For the distances the host accepts, `Nominal` is the floor of the distance in steps. */
  lemma NominalIsFloor(backlash: real, scale: real)
    requires backlash >= 0.0 && scale >= 0.0 && backlash * scale < 4294967296.0
    ensures Nominal(backlash, scale) == (backlash * scale).Floor
  {
    RealMul(0.0, backlash, scale);
  }

  /** A cleared motor takes up the same number of steps wherever it is and whichever way its pin points. */
  ghost predicate Even(env: Env, backlash: real, scale: real, nominal: int) {
    forall at: real, pin: bool ::
      BacklashSteps(env, at, pin, scale, backlash) == nominal
          && BacklashSteps(env, at, pin, scale, -backlash) == -nominal
  }

  lemma ClearedStep(at: real, pin: bool, scale: real, distance: real)
    ensures Step(Drive(at, 0.0, pin, 0), scale, at + distance).steps == Nominal(distance, scale)
  {
    var m := Drive(at, 0.0, pin, 0);
    var size := SizeOf(m, scale, at + distance, distance);
  }

  /** A motor without a left-over fraction is asked for the distance in steps. */
  lemma SizeOf(m: Drive, scale: real, to: real, distance: real) returns (size: real)
    requires m.remaining == 0.0 && to - m.value == distance
    ensures size == TotalSteps(m, scale, to) == Abs(distance) * scale
  {
    size := TotalSteps(m, scale, to);
  }

  lemma NominalOdd(backlash: real, scale: real)
    ensures Nominal(-backlash, scale) == -Nominal(backlash, scale)
  {
  }

  lemma FirmwareEven(sqrt: real -> real, backlash: real, scale: real)
    ensures Even(Firmware(sqrt), backlash, scale, Nominal(backlash, scale))
  {
    NominalOdd(backlash, scale);
    forall at: real, pin: bool
      ensures BacklashSteps(Firmware(sqrt), at, pin, scale, backlash) == Nominal(backlash, scale)
      ensures BacklashSteps(Firmware(sqrt), at, pin, scale, -backlash) == -Nominal(backlash, scale)
    {
      ClearedStep(at, pin, scale, backlash);
      ClearedStep(at, pin, scale, -backlash);
    }
  }

  /** Steps taken up between two recorded directions: none, or one backlash in the current direction. */
  function TakenUpBetween(before: bool, after: bool, nominal: int): int {
    if after == before then 0 else if after then nominal else -nominal
  }

  lemma TakenUpOnce(env: Env, m: Drive, scale: real, to: real, direction: bool, backlash: real, nominal: int)
    requires Even(env, backlash, scale, nominal)
    ensures TakenUp(env, m, scale, to, direction, backlash)
            == TakenUpBetween(direction, NewDirection(env, m, scale, to, direction), nominal)
  {
    if TakesUp(env, m, scale, to, direction) {
      EvenAt(env, backlash, scale, nominal, to, m.pin);
    }
  }

  lemma EvenAt(env: Env, backlash: real, scale: real, nominal: int, at: real, pin: bool)
    requires Even(env, backlash, scale, nominal)
    ensures BacklashSteps(env, at, pin, scale, backlash) == nominal
            && BacklashSteps(env, at, pin, scale, -backlash) == -nominal
  {
  }

  lemma ReceivedTakesUp(env: Env, cfg: Settings, st: State, g: MoveCode, nominalX: int, nominalY: int)
    requires Even(env, cfg.backlashX, Scale(cfg).x, nominalX) && Even(env, cfg.backlashY, Scale(cfg).y, nominalY)
    ensures var after := Received(env, cfg, st, g);
            && after.backlashX == st.backlashX + TakenUpBetween(st.directionX, after.directionX, nominalX)
            && after.backlashY == st.backlashY + TakenUpBetween(st.directionY, after.directionY, nominalY)
  {
    var fed := WithFeedRate(st, g);
    var target := Target(env, cfg, fed, g);
    TakenUpOnce(env, fed.drives.x, Scale(cfg).x, target.x, fed.directionX, cfg.backlashX, nominalX);
    TakenUpOnce(env, fed.drives.y, Scale(cfg).y, target.y, fed.directionY, cfg.backlashY, nominalY);
  }

  /**
   Over any run of received movements the signed backlash steps of an axis add up to nothing when its direction is the
   initial one, and to one backlash in the current direction otherwise, never more.
   */
  lemma {:induction false} RunTakesUp(env: Env, cfg: Settings, st: State, gs: seq<MoveCode>, nominalX: int,
                                      nominalY: int)
    requires Even(env, cfg.backlashX, Scale(cfg).x, nominalX) && Even(env, cfg.backlashY, Scale(cfg).y, nominalY)
    ensures var after := Run(env, cfg, st, gs);
            && after.backlashX == st.backlashX + TakenUpBetween(st.directionX, after.directionX, nominalX)
            && after.backlashY == st.backlashY + TakenUpBetween(st.directionY, after.directionY, nominalY)
    decreases |gs|
  {
    if gs != [] {
      RunTakesUp(env, cfg, st, gs[..|gs| - 1], nominalX, nominalY);
      ReceivedTakesUp(env, cfg, Run(env, cfg, st, gs[..|gs| - 1]), gs[|gs| - 1], nominalX, nominalY);
    }
  }

  /** The same for the firmware's own functions: one backlash is `Nominal`. */
  lemma FirmwareTakesUp(sqrt: real -> real, cfg: Settings, st: State, gs: seq<MoveCode>)
    ensures var after := Run(Firmware(sqrt), cfg, st, gs);
            && after.backlashX == st.backlashX + TakenUpBetween(st.directionX, after.directionX,
                                                                Nominal(cfg.backlashX, Scale(cfg).x))
            && after.backlashY == st.backlashY + TakenUpBetween(st.directionY, after.directionY,
                                                                Nominal(cfg.backlashY, Scale(cfg).y))
  {
    FirmwareEven(sqrt, cfg.backlashX, Scale(cfg).x);
    FirmwareEven(sqrt, cfg.backlashY, Scale(cfg).y);
    RunTakesUp(Firmware(sqrt), cfg, st, gs, Nominal(cfg.backlashX, Scale(cfg).x), Nominal(cfg.backlashY, Scale(cfg).y));
  }
}
