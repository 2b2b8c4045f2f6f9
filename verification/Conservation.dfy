/** What a run of received movements conserves: the microsteps issued on a motor against the distance covered. */
module Conservation {
  import opened Arithmetic
  import opened BedSurface
  import opened Bed
  import opened Motion

  /** The left-over fraction with the sign of the direction pin. */
  function SignedRemaining(m: Drive): real {
    if m.pin then m.remaining else -m.remaining
  }

  /** Steps issued, plus the fraction still owed. */
  function Balance(m: Drive): real {
    m.steps as real + SignedRemaining(m)
  }

  /** Distance covered by neither steps nor fraction. */
  function Owed(m: Drive, scale: real): real {
    Balance(m) - m.value * scale
  }

  /** Issued steps and left-over fraction together follow the distance exactly, for every motor and movement. */
  lemma StepConserves(m: Drive, scale: real, to: real)
    ensures Step(m, scale, to).value == to
    ensures Owed(Step(m, scale, to), scale) == Owed(m, scale)
  {
    if to > m.value {
      assert Abs(to - m.value) * scale == to * scale - m.value * scale;
    } else if to < m.value {
      assert Abs(to - m.value) * scale == m.value * scale - to * scale;
    }
  }

  /** A movement ends where it is told and keeps the quantity `inv` of every motor. */
  ghost predicate Keeps(env: Env, inv: (Drive, real) -> real) {
    forall m: Drive, scale: real, to: real ::
      env.step(m, scale, to).value == to && inv(env.step(m, scale, to), scale) == inv(m, scale)
  }

  lemma KeepsAt(env: Env, inv: (Drive, real) -> real, m: Drive, scale: real, to: real)
    requires Keeps(env, inv)
    ensures env.step(m, scale, to).value == to && inv(env.step(m, scale, to), scale) == inv(m, scale)
  {
  }

  lemma FirmwareConserves(sqrt: real -> real)
    ensures Keeps(Firmware(sqrt), Owed)
  {
    forall m: Drive, scale: real, to: real
      ensures Firmware(sqrt).step(m, scale, to).value == to
      ensures Owed(Firmware(sqrt).step(m, scale, to), scale) == Owed(m, scale)
    {
      StepConserves(m, scale, to);
    }
  }

  lemma MovedAt(env: Env, scale: Vec<real>, drives: Vec<Drive>, to: Point, i: nat)
    requires i < 4
    ensures Moved(env, scale, drives, to).At(i) == env.step(drives.At(i), scale.At(i), to.At(i))
  {
  }

  /** Segments keep what movements keep, and end at the last end. */
  lemma {:induction false} SegmentsKeep(env: Env, inv: (Drive, real) -> real, scale: Vec<real>, drives: Vec<Drive>,
                                        ends: nat -> Point, k: nat, n: nat, i: nat)
    requires k <= n && i < 4 && Keeps(env, inv)
    ensures var after := Segments(env, scale, drives, ends, k, n).At(i);
            after.value == ends(n).At(i) && inv(after, scale.At(i)) == inv(drives.At(i), scale.At(i))
    decreases n - k
  {
    var next := Moved(env, scale, drives, ends(k));
    MovedAt(env, scale, drives, ends(k), i);
    KeepsAt(env, inv, drives.At(i), scale.At(i), ends(k).At(i));
    if k < n {
      SegmentsKeep(env, inv, scale, next, ends, k + 1, n, i);
    }
  }

  lemma PlacedAt(drives: Vec<Drive>, p: Point, i: nat)
    requires i < 4
    ensures Placed(drives, p).At(i) == drives.At(i).(value := p.At(i))
  {
  }

  /** The owed distance of motor `i` when it stands for the real position of the logical position `p`. */
  function OwedAt(env: Env, cfg: Settings, drives: Vec<Drive>, p: Point, i: nat): real
    requires i < 4
  {
    Owed(drives.At(i).(value := RealPosition(env, cfg.bed, p).At(i)), Scale(cfg).At(i))
  }

  lemma SplitUpKeeps(env: Env, cfg: Settings, drives: Vec<Drive>, start: Point, end: Point, i: nat)
    requires i < 4 && Keeps(env, Owed)
    ensures SplitUp(env, cfg, drives, start, end).At(i).value == end.At(i)
    ensures OwedAt(env, cfg, SplitUp(env, cfg, drives, start, end), end, i) == OwedAt(env, cfg, drives, start, i)
  {
    var d := env.distance(start, end);
    var n := NumberOfSegments(d);
    var ends := SegmentEnds(env, cfg.bed, start, end, d, n);
    var first := Placed(drives, RealPosition(env, cfg.bed, start));
    var last := Segments(env, Scale(cfg), first, ends, 1, n);
    assert ends(n) == RealPosition(env, cfg.bed, end);
    PlacedAt(drives, RealPosition(env, cfg.bed, start), i);
    SegmentsKeep(env, Owed, Scale(cfg), first, ends, 1, n, i);
    PlacedAt(last, end, i);
    assert last.At(i).(value := end.At(i)).(value := RealPosition(env, cfg.bed, end).At(i)) == last.At(i);
  }

  /** An accepted movement ends at its target. */
  lemma AcceptedEnds(env: Env, cfg: Settings, st: State, target: Point)
    requires Keeps(env, Owed)
    ensures Position(Accepted(env, cfg, st, target)) == target
  {
    var after := SplitUp(env, cfg, st.drives, Position(st), target);
    SplitUpKeeps(env, cfg, st.drives, Position(st), target, 0);
    SplitUpKeeps(env, cfg, st.drives, Position(st), target, 1);
    SplitUpKeeps(env, cfg, st.drives, Position(st), target, 2);
    SplitUpKeeps(env, cfg, st.drives, Position(st), target, 3);
    assert after.x.value == target.x && after.y.value == target.y && after.z.value == target.z
           && after.e.value == target.e;
  }

  /** One received movement keeps the owed distance of every motor, whether it is accepted or refused. */
  lemma ReceivedKeeps(env: Env, cfg: Settings, st: State, g: MoveCode, i: nat)
    requires i < 4 && Keeps(env, Owed)
    ensures var after := Received(env, cfg, st, g);
            OwedAt(env, cfg, after.drives, Position(after), i) == OwedAt(env, cfg, st.drives, Position(st), i)
  {
    var fed := WithFeedRate(st, g);
    assert fed.drives == st.drives && Position(fed) == Position(st);
    var target := Target(env, cfg, fed, g);
    if !TooBig(env, cfg, fed.drives, target) {
      AcceptedEnds(env, cfg, fed, target);
      SplitUpKeeps(env, cfg, fed.drives, Position(fed), target, i);
    }
  }

  /** The owed distance is the same after any run, for any settings, any commands and any initial fraction. */
  lemma {:induction false} RunKeeps(env: Env, cfg: Settings, st: State, gs: seq<MoveCode>, i: nat)
    requires i < 4 && Keeps(env, Owed)
    ensures var after := Run(env, cfg, st, gs);
            OwedAt(env, cfg, after.drives, Position(after), i) == OwedAt(env, cfg, st.drives, Position(st), i)
    decreases |gs|
  {
    if gs != [] {
      RunKeeps(env, cfg, st, gs[..|gs| - 1], i);
      ReceivedKeeps(env, cfg, Run(env, cfg, st, gs[..|gs| - 1]), gs[|gs| - 1], i);
    }
  }

  // ---- The left-over fraction

  predicate Fraction(m: Drive) {
    -1.0 < m.remaining < 1.0
  }

  /** A movement leaves a fraction of a step exactly when it asks for no more steps than the 32-bit counter holds. */
  lemma StepKeepsFraction(m: Drive, scale: real, to: real)
    requires scale >= 0.0 && Fraction(m)
    ensures Fraction(Step(m, scale, to)) <==> TotalSteps(m, scale, to) < 4294967296.0
  {
    RealMul(0.0, Abs(to - m.value), scale);
  }

  /** A movement that fits the step counter leaves a fraction of a step. */
  ghost predicate KeepsFraction(env: Env) {
    forall m: Drive, scale: real, to: real ::
      scale >= 0.0 && Fraction(m) && env.planned(m, scale, to) < 4294967296.0 ==> Fraction(env.step(m, scale, to))
  }

  lemma KeepsFractionAt(env: Env, m: Drive, scale: real, to: real)
    requires KeepsFraction(env) && scale >= 0.0 && Fraction(m) && env.planned(m, scale, to) < 4294967296.0
    ensures Fraction(env.step(m, scale, to))
  {
  }

  lemma FirmwareKeepsFraction(sqrt: real -> real)
    ensures KeepsFraction(Firmware(sqrt))
  {
    forall m: Drive, scale: real, to: real
      | scale >= 0.0 && Fraction(m) && Firmware(sqrt).planned(m, scale, to) < 4294967296.0
      ensures Fraction(Firmware(sqrt).step(m, scale, to))
    {
      StepKeepsFraction(m, scale, to);
    }
  }

  /** Every segment from `k` to `n` asks motor `i` for fewer steps than its 32-bit counter can hold. */
  predicate SegmentsFit(env: Env, scale: Vec<real>, drives: Vec<Drive>, ends: nat -> Point, k: nat, n: nat, i: nat)
    requires k <= n && i < 4
    decreases n - k
  {
    && env.planned(drives.At(i), scale.At(i), ends(k).At(i)) < 4294967296.0
    && (k < n ==> SegmentsFit(env, scale, Moved(env, scale, drives, ends(k)), ends, k + 1, n, i))
  }

  lemma {:induction false} SegmentsKeepFraction(env: Env, scale: Vec<real>, drives: Vec<Drive>, ends: nat -> Point,
                                                k: nat, n: nat, i: nat)
    requires k <= n && i < 4 && KeepsFraction(env) && scale.At(i) >= 0.0
    requires Fraction(drives.At(i)) && SegmentsFit(env, scale, drives, ends, k, n, i)
    ensures Fraction(Segments(env, scale, drives, ends, k, n).At(i))
    decreases n - k
  {
    MovedAt(env, scale, drives, ends(k), i);
    KeepsFractionAt(env, drives.At(i), scale.At(i), ends(k).At(i));
    if k < n {
      SegmentsKeepFraction(env, scale, Moved(env, scale, drives, ends(k)), ends, k + 1, n, i);
    }
  }

  /** Every segment of the movement from `start` to `target` fits motor `i`'s step counter. */
  predicate SplitFits(env: Env, cfg: Settings, drives: Vec<Drive>, start: Point, target: Point, i: nat)
    requires i < 4
  {
    var d := env.distance(start, target);
    var n := NumberOfSegments(d);
    SegmentsFit(env, Scale(cfg), Placed(drives, RealPosition(env, cfg.bed, start)),
                SegmentEnds(env, cfg.bed, start, target, d, n), 1, n, i)
  }

  /** A received movement is refused or fits motor `i`'s step counter. */
  predicate MovementFits(env: Env, cfg: Settings, st: State, g: MoveCode, i: nat)
    requires i < 4
  {
    || Refused(env, cfg, st, g)
    || SplitFits(env, cfg, st.drives, Position(st), Target(env, cfg, WithFeedRate(st, g), g), i)
  }

  /** So does every movement of a run. Module StepCounts proves this of every run on the conditions it states. */
  predicate RunFits(env: Env, cfg: Settings, st: State, gs: seq<MoveCode>, i: nat)
    requires i < 4
  {
    || gs == []
    || (&& RunFits(env, cfg, st, gs[..|gs| - 1], i)
        && MovementFits(env, cfg, Run(env, cfg, st, gs[..|gs| - 1]), gs[|gs| - 1], i))
  }

  lemma ReceivedKeepsFraction(env: Env, cfg: Settings, st: State, g: MoveCode, i: nat)
    requires i < 4 && KeepsFraction(env) && Scale(cfg).At(i) >= 0.0
    requires Fraction(st.drives.At(i)) && MovementFits(env, cfg, st, g, i)
    ensures Fraction(Received(env, cfg, st, g).drives.At(i))
  {
    var fed := WithFeedRate(st, g);
    assert fed.drives == st.drives && Position(fed) == Position(st);
    var target := Target(env, cfg, fed, g);
    if !TooBig(env, cfg, fed.drives, target) {
      var d := env.distance(Position(st), target);
      var n := NumberOfSegments(d);
      var ends := SegmentEnds(env, cfg.bed, Position(st), target, d, n);
      var first := Placed(st.drives, RealPosition(env, cfg.bed, Position(st)));
      PlacedAt(st.drives, RealPosition(env, cfg.bed, Position(st)), i);
      SegmentsKeepFraction(env, Scale(cfg), first, ends, 1, n, i);
      PlacedAt(Segments(env, Scale(cfg), first, ends, 1, n), target, i);
    }
  }

  lemma {:induction false} RunKeepsFraction(env: Env, cfg: Settings, st: State, gs: seq<MoveCode>, i: nat)
    requires i < 4 && KeepsFraction(env) && Scale(cfg).At(i) >= 0.0
    requires Fraction(st.drives.At(i)) && RunFits(env, cfg, st, gs, i)
    ensures Fraction(Run(env, cfg, st, gs).drives.At(i))
    decreases |gs|
  {
    if gs != [] {
      RunKeepsFraction(env, cfg, st, gs[..|gs| - 1], i);
      ReceivedKeepsFraction(env, cfg, Run(env, cfg, st, gs[..|gs| - 1]), gs[|gs| - 1], i);
    }
  }

  /** The steps issued on motor `i` between two states are the real distance, up to less than one step. */
  predicate Matches(env: Env, cfg: Settings, st: State, after: State, i: nat)
    requires i < 4
  {
    var issued := (after.drives.At(i).steps - st.drives.At(i).steps) as real;
    var from, to := RealPosition(env, cfg.bed, Position(st)).At(i), RealPosition(env, cfg.bed, Position(after)).At(i);
    -1.0 < issued - (to - from) * Scale(cfg).At(i) < 1.0
  }

  /** The step law neither loses nor invents distance and leaves a fraction of a step. */
  ghost predicate Faithful(env: Env) {
    Keeps(env, Owed) && KeepsFraction(env)
  }

  lemma FirmwareFaithful(sqrt: real -> real)
    ensures Faithful(Firmware(sqrt))
  {
    FirmwareConserves(sqrt);
    FirmwareKeepsFraction(sqrt);
  }

  /**
   After a run that fits the step counter and starts without a left-over fraction, the steps issued by segments on a
   motor differ from the real distance covered by less than one step, however many movements and segments there were.
   */
  lemma StepsMatchDistance(env: Env, cfg: Settings, st: State, gs: seq<MoveCode>, i: nat)
    requires i < 4 && Scale(cfg).At(i) >= 0.0 && st.drives.At(i).remaining == 0.0
    requires Faithful(env) && RunFits(env, cfg, st, gs, i)
    ensures Matches(env, cfg, st, Run(env, cfg, st, gs), i)
  {
    RunKeeps(env, cfg, st, gs, i);
    RunKeepsFraction(env, cfg, st, gs, i);
    OwedMatches(env, cfg, st, Run(env, cfg, st, gs), i);
  }

  lemma OwedMatches(env: Env, cfg: Settings, st: State, after: State, i: nat)
    requires i < 4 && st.drives.At(i).remaining == 0.0 && Fraction(after.drives.At(i))
    requires OwedAt(env, cfg, after.drives, Position(after), i) == OwedAt(env, cfg, st.drives, Position(st), i)
    ensures Matches(env, cfg, st, after, i)
  {
    Difference(st.drives.At(i), after.drives.At(i), RealPosition(env, cfg.bed, Position(st)).At(i),
               RealPosition(env, cfg.bed, Position(after)).At(i), Scale(cfg).At(i));
  }

  lemma Difference(m: Drive, m': Drive, from: real, to: real, scale: real)
    requires Owed(m.(value := from), scale) == Owed(m'.(value := to), scale)
    requires m.remaining == 0.0 && Fraction(m')
    ensures -1.0 < (m'.steps - m.steps) as real - (to - from) * scale < 1.0
  {
    assert (to - from) * scale == to * scale - from * scale;
  }
}
