/** A new `Motors` object and a run of received commands, from which the theorems about runs speak of the class. */
module Printing {
  import opened BedSurface
  import opened Bed
  import opened Motion
  import opened Conservation
  import opened StepCounts
  import opened MotorControl

  /**
   Performs `gcodes` on a new object that has restored `saved`: its state is the specified run, and the microsteps
   issued on a motor are the distance its real position covered, up to less than one, wherever the step counters
   suffice.
   */
  method Perform(sqrt: real -> real, cpuHz: real, settings: Settings, saved: Saved, gcodes: seq<MoveCode>)
    returns (motors: Motors)
    requires PositiveScales(settings) && IsSqrt(sqrt) && |saved.validities| == 3
    ensures motors.Valid() && motors.Idle()
    ensures motors.View() == Run(Firmware(sqrt), settings, InitialState(saved), gcodes)
    ensures StepsMatch(Firmware(sqrt), settings, gcodes, InitialState(saved), motors.View())
  {
    ghost var start := InitialState(saved);
    motors := PerformFrom(sqrt, cpuHz, settings, saved, gcodes, start);
  }

  method PerformFrom(sqrt: real -> real, cpuHz: real, settings: Settings, saved: Saved, gcodes: seq<MoveCode>,
                     ghost start: State)
    returns (motors: Motors)
    requires PositiveScales(settings) && IsSqrt(sqrt) && |saved.validities| == 3 && start == InitialState(saved)
    ensures motors.Valid() && motors.Idle()
    ensures motors.View() == Run(Firmware(sqrt), settings, start, gcodes)
    ensures StepsMatch(Firmware(sqrt), settings, gcodes, start, motors.View())
  {
    motors := new Motors(sqrt, cpuHz, settings, saved);
    motors.MoveAll(gcodes);
    RunMatches(sqrt, settings, gcodes, start, motors.View());
  }

  /** The step counter of motor `i` suffices for a run from `start` at heights up to `top`. */
  predicate Suffices(env: Env, settings: Settings, gcodes: seq<MoveCode>, start: State, i: nat, top: real) {
    || i == 3
    || (i < 2 && NoSkew(settings.bed))
    || (HasRoom(FirmwareGain(settings.bed), settings, start, top, i) && StaysLow(env, settings, start, gcodes, top))
  }

  /** Where the step counters suffice, the issued steps match the distance. */
  ghost predicate StepsMatch(env: Env, settings: Settings, gcodes: seq<MoveCode>, start: State, after: State) {
    forall i, top :: 0 <= i < 4 && Suffices(env, settings, gcodes, start, i, top) ==>
      Matches(env, settings, start, after, i)
  }

  lemma ScaleNotNegative(settings: Settings, i: nat)
    requires PositiveScales(settings) && i < 4
    ensures Scale(settings).At(i) >= 0.0
  {
  }

  predicate NothingLeftOver(start: State) {
    && start.drives.x.remaining == 0.0 && start.drives.y.remaining == 0.0
    && start.drives.z.remaining == 0.0 && start.drives.e.remaining == 0.0
  }

  lemma MotorMatches(sqrt: real -> real, settings: Settings, gcodes: seq<MoveCode>, start: State, after: State, i: nat,
                     top: real)
    requires PositiveScales(settings) && IsSqrt(sqrt) && NothingLeftOver(start)
    requires after == Run(Firmware(sqrt), settings, start, gcodes)
    requires i < 4 && Suffices(Firmware(sqrt), settings, gcodes, start, i, top)
    ensures Matches(Firmware(sqrt), settings, start, after, i)
  {
    ScaleNotNegative(settings, i);
    FirmwareStepsMatchDistance(sqrt, settings, start, gcodes, i, top);
  }

  lemma RunMatches(sqrt: real -> real, settings: Settings, gcodes: seq<MoveCode>, start: State, after: State)
    requires PositiveScales(settings) && IsSqrt(sqrt) && NothingLeftOver(start)
    requires after == Run(Firmware(sqrt), settings, start, gcodes)
    ensures StepsMatch(Firmware(sqrt), settings, gcodes, start, after)
  {
    forall i, top | 0 <= i < 4 && Suffices(Firmware(sqrt), settings, gcodes, start, i, top)
      ensures Matches(Firmware(sqrt), settings, start, after, i)
    {
      MotorMatches(sqrt, settings, gcodes, start, after, i, top);
    }
  }
}
