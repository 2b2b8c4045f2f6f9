# iMe: a verified model of the firmware's and the host's core

iMe is motion-control firmware for a 3D printer; M33 Manager is the host tool that talks to it. This project models the
parts of both whose correctness is hard to see from the code, and proves what they promise. `dafny verify dfyconfig.toml`
checks everything.

**Motion** (`motors.cpp`). `StepTiming`, `Planner` and `StepTimer` (module `StepEngine`) model the step interrupt and the
planner of step delays and skips: how many ticks a movement takes, exactly, and that every motor ends within the planned
window. `BedSurface` and `Bed` model bed levelling and skew, and what a change of the bed settings keeps. `Motion` says what a
received movement does to the drives as a function of the state; `Conservation`, `StepCounts`, `Backlash`, `Boundary` and
`Excursions` prove what holds over every run of received movements. `Motors` (module `MotorControl`) is the class itself, with
arrays, pins, modes and the timer, proved equal to `Motion`; `Printing` performs a run on a new object, so that the run theorems
speak of it. The levelling, skew, distance and step functions enter these proofs as fields of `Env`, so that a proof can say
which law it uses; the lemmas named `Firmware…` prove each law of the firmware's own functions.

**Requests** (`main.cpp`). `CommandQueue` is the request ring, the emergency stop and the main loop as a state machine: a step
is one action of the main loop, or a whole USB interrupt wherever USB interrupts are enabled. `LineNumbers` is the protocol of
numbered lines. `SavedState` is the state kept in EEPROM.

**Text** (`common.cpp`, `gcode.cpp`, `M33 Manager/gcode.cpp`). `NumberText` holds the number conversions, `Numerals` what a
decimal numeral means and how they read it, `FirmwareParser` the firmware's G-code parser, `HostAscii` and `HostBinary` the host's two
encodings, and `Agreement` proves for all eleven letters both sides know which numbers arrive as the host meant them.

**Firmware images** (`M33 Manager/printer.cpp`). `Crc` proves the table-driven CRC-32 equal to the bit-serial one of section 8
of RFC 1952 and shows which changes it detects. `Rom` follows an image through encryption, padding, page streaming and
decryption.

## Conventions

- Floats are reals, so rounding, NaN and signed zero do not exist; the binary codec and the EEPROM treat a float as its
  four bytes. The square root is a parameter of which only `sqrt(x) >= 0` and `sqrt(x)^2 = x` is known.
- Integers are unbounded except where the width matters: 8-bit indices, 32-bit step counts and delays, 64-bit line numbers.
  A conversion of a float that is too large for `uint32_t` saturates in the model.
- All compensation and boundary flags are on. USB interrupts are atomic.
- Text has no NUL; the terminating NUL is read behind its end.

## Where the code and its promise differ

- `PlannerBound`: the executed time lies in [target, 2 * target) exactly when the target is reachable with the largest 32-bit
  delay. Beyond that the delay wraps to zero and the movement ends early (`BeyondReach`); `OneStepBesideLongExtrusion` is such a
  movement.
- `FirmwareStepsMatchDistance`: the firmware compares the step count of the whole movement with 2^32, and then asks for the
  segments' counts, which levelling and skew change. The extruder, and X and Y without skew, are covered by that test on every
  run; a compensated motor is on every run that stays at heights (`StaysLow`) for which there is room (`HasRoom`), however many
  movements go up and down between them. `FirmwareFallsBehind` is an accepted movement without room after which the motor is
  behind by more than a step; the excess stays in its left-over fraction. One motor keeps its fraction below one step exactly
  when it is asked for fewer than 2^32 steps (`StepKeepsFraction`).
- `EndsInsideExactly`: the nozzle ends at the target's skewed place clamped to the chosen tier, moved by the skew of the bed's
  rise between two places (`Landing`), and it is inside the region, and inside its own height's tier, exactly when that point
  is. With levelling and skew both at work it need not be (`FirmwareSkewOnSlope`); with one of them it is (`FirmwareStaysInside`).
  On a plane every segment of a run stays inside exactly when every accepted movement lands inside (`FirmwareInsideExactly`); on
  every bed the nozzle leaves the region by no more than the skew of the bed's height differences (`FirmwareStrays`).
- `OwnTierInside`: without a rise the nozzle is inside the boundaries of its own height's tier exactly when the target does not
  fall through the tier search (`FirmwareFallsThrough` is one that does). For the high tier it always is (`HighTierInside`).
- `NozzleHeightKept`: a change of bed settings moves the nozzle by exactly the new bed's difference between the old place and
  the place the skews shift it to; on a plane it keeps its height exactly when slopes times shifts cancel
  (`NozzleHeightOnPlane`).
- `HeightError`: the triangle test moves every corner outwards by 0.01, so close to a diagonal the plane of the other side may
  be used; the adjustment is the calibrated surface exactly when the wrong sides' terms cancel (`WrongTriangle` is a point
  where they do not).
- `AfterRestart`: after M110 with the largest 64-bit number the numbering starts at zero again (`RestartAtMaximum`).
- `EmergencyStop`: no response is sent after a stop, except one whose decision to send was made before the interrupt
  (`AnsweredAfterStop` is a run from the start in which that happens).
- `RoundTripsExactlyWhenOk`: neither a parameter without a value, as in "G28 X", survives the binary form (`FlagIsLost`), nor an
  empty string behind a value that is not zero (`EmptyStringIsLost`).
- `RoundTripsExactlyWhen`: parameters printed behind M23, M28, M29, M30, M32 or M117 are read back as that command's string.
- `ReadsWhatFits`: a number arrives as the host meant it exactly when it fits the firmware's field: the integer's range, or a
  float whose decimals behind the sixth are zeros.

## Model

| member | source | states |
|---|---|---|
| StepTiming.ExactDuration | motors.cpp:180-241 | a started motor is moving before tick k exactly when k is less than its duration; before the end it has emitted fewer pulses than its steps, from then on exactly its steps |
| StepTiming.TicksClosedForm | motors.cpp:180-222 | the counters after any number of ticks, as quotients and remainders of the number of ticks not skipped |
| StepTiming.Outcome | motors.cpp:225-241 | the same for a motor that may be at rest: it emits nothing |
| StepTiming.DurationFormula | motors.cpp:182-183 | the duration is the formula of the comment above the interrupt handler |
| Planner.PlannerBound | motors.cpp:2161-2178 | the executed time lies in [target, 2 * target) if and only if the target is reachable with a 32-bit delay |
| Planner.WrappedDelay | motors.cpp:2164-2172 | a delay that wrapped to zero makes the motor finish before the target |
| Planner.BeyondReach | motors.cpp:2161-2178 | for every motor and every target beyond the reach the planned delay has wrapped to zero and the movement ends before the target |
| Planner.OneStepBesideLongExtrusion | motors.cpp:2148-2178 | one microstep planned for the cycles of 10^9 extruder microsteps at 60 mm per minute ends before them |
| Planner.NeverFasterThanFeedRate | motors.cpp:849-855 | planned for the largest target, a motor's average speed stays within its own clamped feed rate |
| StepEngine.StepTimer.MotorsStepAction | motors.cpp:180-222 | one action changes one motor by the specification of a tick and counts its pulse |
| StepEngine.StepTimer.UpdateMotorsStepTimer | motors.cpp:225-241 | one interrupt is one tick of every moving motor |
| StepEngine.StepTimer.AreMotorsMoving | motors.cpp:298-311 | true exactly when some motor is moving |
| StepEngine.StepTimer.SetMotorDelayAndSkip | motors.cpp:2161-2178 | arms one motor with the planned delay and skips |
| StepEngine.StepTimer.WaitUntilStopped | motors.cpp:990-1042 | the wait ends, after exactly the longest duration, with every motor's steps emitted |
| StepEngine.StepTimer.Execute | motors.cpp:951-1042 | planned motors emit exactly their steps; the wait ends with the longest movement, and each motor that the planner can stretch that far takes at least the cycles and less than twice that |
| BedSurface.CornersAndCenter | motors.cpp:338-379 | the adjustment is the calibrated height at each corner and zero at the centre, for all calibrations |
| BedSurface.PlanesMeetOnDiagonals | motors.cpp:1380-1384 | adjacent planes agree along every diagonal |
| BedSurface.PlanarBed | motors.cpp:246-295 | a bed that is a plane through the centre is followed exactly at every point, whichever region or triangle is taken |
| BedSurface.HeightError | motors.cpp:338-379 | at every point the adjustment is the piecewise-linear surface less what the wrongly chosen sides take off, so it is the surface if and only if those cancel |
| BedSurface.HeightAccuracy | motors.cpp:338-379 | the adjustment is the surface away from the diagonals, and within a stated share of the warp near them |
| BedSurface.WrongTriangle | motors.cpp:246-295 | a point 0.001 right of the centre that is taken for the left triangle, where the adjustment is not the surface |
| BedSurface.PlaneForms | motors.cpp:246-276 | each of the four plane equations is the interpolation of its two corners and the centre |
| BedSurface.ChosenSides | motors.cpp:277-379 | at a point not beyond a corner the side chosen for each diagonal is right unless the point is within the overshoot of that diagonal |
| Bed.UpdateConserves | motors.cpp:1317-1471 | one change of settings keeps Z plus adjustment plus offset, and X and Y plus their skew adjustments, at the old X and Y |
| Bed.NozzleHeightKept | motors.cpp:1317-1471 | a change of settings shifts X and Y by stated amounts and the nozzle's height by the new bed's difference between the two places; the height is kept if and only if that is zero |
| Bed.NozzleHeightOnPlane | motors.cpp:1317-1471 | on a planar bed, for any change of settings, the height changes by slopes times shifts and is kept if and only if these cancel |
| Bed.ChangesConserve | main.cpp:1592-1598 | without skew any sequence of setting writes keeps X, Y and the nozzle height, and ending with the original settings gives Z back |
| Bed.PlanarCalibration | motors.cpp:338-379 | the firmware's levelling follows a planar calibration |
| Bed.SkewOnSlopedBed | motors.cpp:384-388 | switching skew on over a sloped bed moves the nozzle by a stated amount |
| Motion.StepsAdded | motors.cpp:826-846 | the steps a movement adds to a motor do not depend on the steps made before |
| Conservation.StepConserves | motors.cpp:742-847 | one movement of one motor keeps the position minus the issued steps minus the left-over fraction |
| Conservation.RunKeeps | motors.cpp:1170-1315 | the distance owed on each motor is the same after any run of received movements, whatever the settings and the initial fraction |
| Conservation.StepKeepsFraction | motors.cpp:826-846 | a movement leaves a fraction of a step on a motor if and only if it asks for fewer than 2^32 steps |
| Conservation.StepsMatchDistance | motors.cpp:742-847 | over any run whose accepted movements fit the step counter the net steps differ from the real distance, with levelling and skew, by less than one step |
| Conservation.FirmwareFaithful | motors.cpp:742-847 | the firmware's step function has the laws that the run theorems use |
| StepCounts.DirectRunFits | motors.cpp:858-904 | on a motor that levelling and skew do not move, the test of the whole movement covers every segment of every run |
| StepCounts.BoxRunFits | motors.cpp:1239-1288 | on a compensated motor every segment of every run fits when the box of its positions has room |
| StepCounts.FirmwareStepsMatchDistance | motors.cpp:742-1315 | over any run of the firmware, refused movements included, the net steps of a motor differ from the real distance by less than one step: of the extruder always, of X and Y without skew always, of a compensated motor on every run, however long, that stays at heights for which settings and start leave room |
| StepCounts.LowCommands | motors.cpp:603-654 | whichever commands are refused, a run stays as low as the heights its commands add up to |
| StepCounts.LowHeights | motors.cpp:603-654 | a run without refusals stays below a height if and only if the heights its commands ask for one after the other do |
| StepCounts.FirmwareFallsBehind | motors.cpp:858-1288 | an accepted movement on a sloped bed whose only segment needs more steps than the counter holds: the motor is behind by 1.6 microsteps, which stay in its left-over fraction |
| Backlash.RunTakesUp | motors.cpp:881-937 | over any run the signed backlash steps of an axis sum to nothing or to one backlash in the current direction |
| Backlash.FirmwareTakesUp | motors.cpp:881-1167 | the same, of the firmware's own functions |
| Backlash.NominalIsFloor | motors.cpp:826-846 | one backlash is the floor of the distance in steps |
| Backlash.FirmwareEven | motors.cpp:1095-1167 | the firmware's compensating movement issues the same number of steps in both directions, from every position and pin level |
| Boundary.LandsAt | motors.cpp:656-729 | for all settings the nozzle ends at the target's skewed place clamped to the chosen tier, moved by the skew of the bed's rise, all computed from the target |
| Boundary.EndsInsideExactly | motors.cpp:656-729 | for all settings the nozzle ends inside the region, and inside its own height's tier, if and only if that point is |
| Boundary.FirmwareEndsInsideExactly | motors.cpp:338-729 | the same, of the firmware's own functions |
| Boundary.BoundedInChosenTier | motors.cpp:656-729 | for all settings the nozzle leaves the chosen tier by no more than the skew of the rise |
| Boundary.SettledRise | motors.cpp:656-729 | without skew, or on a flat bed, there is no rise |
| Boundary.PlanarRise | motors.cpp:656-729 | on a planar bed the rise is slopes times the way between the two places, which the skews bound |
| Boundary.PlanarExcursion | motors.cpp:656-729 | on a planar bed the nozzle leaves the chosen tier by at most skew times slopes times skews |
| Boundary.FirmwareSkewOnSlope | motors.cpp:656-729 | with levelling and skew both at work, an end 0.01 mm outside the region |
| Boundary.FirmwareSettled | motors.cpp:338-388 | the firmware's compensations are settled without skew, and with any skew on a bed calibrated flat |
| Boundary.HighTierInside | motors.cpp:656-729 | without a rise, an end whose nozzle height is in the high tier has X in [7, 97] and Y in [9, 85] |
| Boundary.OwnTierInside | motors.cpp:656-729 | without a rise, the nozzle is inside its own tier's boundaries if and only if the target does not fall through the search |
| Boundary.StaysExactly | motors.cpp:656-729 | for all settings a target is not moved if and only if its skewed place is inside the tier chosen for it |
| Boundary.InsideStays | motors.cpp:656-729 | without skew, or on a flat bed, a target whose nozzle position is inside the low tier and its own height's tier is not moved |
| Boundary.GoesWhereAsked | motors.cpp:603-654 | for all settings an accepted movement ends exactly where the command asks if and only if that place is inside the tier chosen for it |
| Boundary.ThereAndBack | motors.cpp:636-654 | for all settings, in the relative modes a movement between two such places and its opposite end where they started |
| Boundary.FallsThroughExample | motors.cpp:695-727 | a target that falls through, on a sloped bed |
| Boundary.FirmwareFallsThrough | motors.cpp:338-727 | the same with the firmware's own functions: the nozzle then is outside its own tier's boundaries |
| Boundary.ReceivedEndsInside | motors.cpp:656-729 | for all settings an accepted movement ends inside the region if and only if it lands there, and a refused one does not move |
| Boundary.RunStaysInside | motors.cpp:656-729 | for all settings, a run that starts with the nozzle inside the region and lands inside with every accepted movement ends with it inside |
| Boundary.NozzleOnTheWay | motors.cpp:1239-1288 | for all settings the nozzle follows the straight line between its real end points, moved by the skew of the bed's sag below that line |
| Boundary.PlanarStraight | motors.cpp:1239-1288 | on a planar bed, with any skew, the line is straight |
| Boundary.SegmentInsideExactly | motors.cpp:1239-1288 | for all settings every segment ends inside the region if and only if that moved point of the line is inside |
| Boundary.MovementInsideExactly | motors.cpp:1239-1288 | where lines are straight, a movement that starts inside keeps every segment inside if and only if it lands inside |
| Boundary.RunInsideExactly | motors.cpp:656-1288 | where lines are straight, a run that starts inside keeps every segment of every accepted movement inside if and only if every accepted movement lands inside |
| Boundary.FirmwareInsideExactly | motors.cpp:338-1288 | the same, of the firmware with any skew on every planar calibration |
| Boundary.SegmentsStayInside | motors.cpp:1239-1288 | once one movement was accepted, every segment of every later movement of any run ends with the nozzle inside X [-2, 106], Y [-9, 105], with any skew on a flat bed and without skew on any bed |
| Boundary.FirmwareStaysInside | motors.cpp:656-1288 | the same, of the firmware's own functions |
| Boundary.SegmentConvex | motors.cpp:1239-1246 | segment ends are convex combinations of start and end with a strictly increasing parameter |
| Boundary.SegmentLengths | motors.cpp:1220-1246 | every segment but the last is exactly 2 mm long, and the last is no longer |
| Excursions.RunSegmentsStray | motors.cpp:656-1288 | for all settings, from a start near the region, every segment of every later movement of a run ends with the nozzle outside by no more than the skew of the largest height differences of the bed |
| Excursions.FirmwareStrays | motors.cpp:338-1288 | the same, of the firmware's own functions, with the differences computed from the calibrated corners |
| Excursions.NoSway | motors.cpp:338-388 | without skew, or with corners calibrated flat, that margin is zero |
| MotorControl.Motors.UpdateDrive | motors.cpp:826-846 | position, pin and fraction of one motor after a movement are those of the specified step, the others are untouched |
| MotorControl.Motors.MoveAndWait | motors.cpp:731-1050 | a movement without tasks is planned for the largest of the motors' needs; each motor emits exactly its steps in its own planned time and, where the planner can stretch it that far, within twice the cycles and on average no faster than its feed rate |
| MotorControl.Motors.PerformMovement | motors.cpp:575-1054 | `move` without tasks changes the state as specified |
| MotorControl.Motors.CompensateForBacklash | motors.cpp:1095-1167 | position, feed rate, mode, fractions and direction pins are what they were; only the backlash steps have been issued |
| MotorControl.Motors.SplitUpMovement | motors.cpp:1170-1315 | the segments are those of the specification; position, modes and validities end as they were |
| MotorControl.Motors.Bound | motors.cpp:656-729 | the tier search ends and gives the specified end point |
| MotorControl.Motors.PlanMotors | motors.cpp:738-904 | the first pass refuses the movement without a trace, or sets the position and finds the backlash directions |
| MotorControl.Motors.constructor | motors.cpp:392-404 | a new object has the saved positions, directions and validities, nothing left over and the initial modes, is idle, owns its arrays and timer, and has the firmware's step law, so it can be moved |
| MotorControl.Motors.Move | motors.cpp:575-1054 | a received movement changes the state exactly as the specification that the run theorems are about, and is refused exactly when it needs too many steps |
| MotorControl.Motors.MoveAll | motors.cpp:575-1054 | a sequence of received movements leaves the state of the specified run |
| Printing.Perform | motors.cpp:575-1054 | on a new object, from any saved state, any sequence of movements leaves the specified run, and the issued steps match the distance wherever the step counters suffice |
| MotorControl.Motors.UpdateBedChanges | motors.cpp:1317-1471 | the new settings are cached and the position is the specified one |
| CommandQueue.CountIsLength | main.cpp:2039-2049 | the number of parsed slots is the length of the queue |
| CommandQueue.FullExactlyWhenParsed | main.cpp:2053-2062 | the receiving slot is occupied if and only if all slots are |
| CommandQueue.DroppedExactlyWhenFull | main.cpp:2053-2062 | a command is dropped if and only if all 15 slots are occupied |
| CommandQueue.MainStepKeeps | main.cpp:274-283 | every step of the main loop keeps the invariant; only clearing a slot takes a command out |
| CommandQueue.InterruptKeeps | main.cpp:1997-2068 | an interrupt keeps the invariant, also between clearing a slot and advancing the index |
| CommandQueue.RetireKeeps | main.cpp:1943-1962 | the command cleared is the oldest one |
| CommandQueue.RunIsQueue | main.cpp:1938-1985 | in every reachable state the parsed slots are one circular run holding a queue, and what was accepted is what was taken out followed by that queue |
| CommandQueue.OneQueue | main.cpp:274-275 | the ring determines the queue |
| CommandQueue.ProcessesOldest | main.cpp:274-283 | the command decided on, executed or answered is the oldest accepted one |
| CommandQueue.RunServes | main.cpp:274-1985 | in every run, on every interleaving and with any number of stops, every event is one a lawful server may make: a command taken out was answered or doomed by a stop, none starts twice or between a stop and the reset, and the reset waits for the last doomed command; and since the last reset, as long as no stop came, commands are started and answered exactly once each and in order |
| CommandQueue.LawfulServes | main.cpp:274-1985 | every lawful log without a stop since the last reset is one of full service |
| CommandQueue.OnePass | main.cpp:274-1962 | one pass of the main loop without a stop starts, answers and takes out the oldest command |
| CommandQueue.PacketDooms | main.cpp:2029-2066 | a packet dooms exactly the commands queued when its last stop was parsed; those behind the stop are queued behind them |
| CommandQueue.StepTowardsReset | main.cpp:1946-1966 | while a stop is pending, what is logged together with what is still to come never changes |
| CommandQueue.StopEndsInReset | main.cpp:1938-1985 | every run from a pending stop that is long enough reaches the reset within the rank of its first state, having logged exactly the pending events, and a beginning of them before |
| CommandQueue.EmergencyStop | main.cpp:1938-1985 | after a packet with a stop, on every interleaving: the reset comes within a stated number of steps, no state before it has logged anything else, nothing starts, exactly the doomed commands are removed, and the commands behind the stop are still queued |
| CommandQueue.AnsweredAfterStop | main.cpp:1938-1985 | a run from the start in which a stop arrives while an answer is being sent: the answer is logged after it |
| CommandQueue.RequestQueue.CdcRxNotifyCallback | main.cpp:2029-2066 | the callback's loops over commands and slots do what the specified interrupt does |
| CommandQueue.RequestQueue.SetEmergencyStop | main.cpp:2036-2050 | the countdown is one more than the number of parsed slots |
| CommandQueue.RequestQueue.MainLoop | main.cpp:274-1985 | the next action of the main loop is the specified step |
| LineNumbers.OneLine | main.cpp:1162-1213 | exactly when a line is acknowledged, skipped or asked for again; an ok advances the number and names it, rs names the next number, and a skipped or resent line is not executed |
| LineNumbers.AcknowledgedInOrder | main.cpp:1894-1917 | between restarts the acknowledged numbers are the consecutive numbers from the first expected to the last |
| LineNumbers.AfterRestart | main.cpp:1178-1181 | from one M110 to the next the acknowledged numbers are its number and the ones after it, in a row if and only if its number is not the largest or no intact, succeeding line 0 follows |
| LineNumbers.RestartAtMaximum | main.cpp:1178-1181 | after M110 with the largest number, line 0 is acknowledged |
| LineNumbers.ResendNamesNext | main.cpp:1911-1917 | the line acknowledged next after a resend request is the one it names |
| LineNumbers.DeliversProgram | main.cpp:1162-1213 | however lines are lost, repeated, reordered or damaged, the acknowledged lines are a prefix of the program, each once and in order |
| LineNumbers.Session.Handle | main.cpp:1162-1917 | building the response in stages gives the specified outcome |
| LineNumbers.Session.HandleAll | main.cpp:1162-1917 | a whole run leaves the specified number and acknowledges the specified lines |
| NumberText.Ulltoa | common.cpp:12-30 | the buffer starts with the decimal numeral and a terminating character |
| NumberText.Strtoull | common.cpp:87-110 | the value of the digits modulo 2^64, and where they end |
| NumberText.Strtoll | common.cpp:112-116 | the same with a minus sign, as a 64-bit integer |
| NumberText.UlltoaStrtoull | common.cpp:12-110 | reading back what was printed is the identity on every 64-bit number |
| NumberText.Ftoa | common.cpp:43-85 | the buffer starts with sign, whole part, point and four decimals |
| NumberText.Strtof | common.cpp:118-199 | sign, whole part and at most six decimals are read, and where they end |
| NumberText.FtoaStrtof | common.cpp:43-199 | reading back what was printed gives the number truncated to four decimals |
| NumberText.TruncatesTowardsZero | common.cpp:61-79 | truncation moves towards zero by less than 0.0001 |
| NumberText.TruncatedHasFourDecimals | common.cpp:72-79 | the truncated number is a whole number of ten-thousandths |
| FirmwareParser.EitherCase | common.cpp:232-236 | a letter stands for its parameter in either case, and no other character does |
| FirmwareParser.ReadsExactlyNumbers | common.cpp:87-199 | something is read if and only if a number of the parameter's kind starts there |
| FirmwareParser.NumberStops | gcode.cpp:51-54 | no number runs over the end of the trimmed text |
| FirmwareParser.NumberHasNoLetter | gcode.cpp:151-163 | skipping a number skips no letter |
| FirmwareParser.PresentExactlyWhenOccurs | gcode.cpp:86-167 | a parameter is present if and only if its letter is directly followed by a number somewhere in the trimmed text, and has the value of the first such place |
| FirmwareParser.AppendedChecksum | gcode.cpp:170-187 | an appended checksum is accepted if and only if it is the exclusive or of the text modulo 256 |
| FirmwareParser.ChangeIsSeen | gcode.cpp:178-181 | one changed character changes the exclusive or |
| FirmwareParser.Gcode.ParseParameters | gcode.cpp:86-167 | the parameter loop ends on every text, also when its 8-bit index wraps, and finds the specified parameters when it fits |
| FirmwareParser.Gcode.ParseChecksum | gcode.cpp:169-187 | the checksum bit is set exactly as specified |
| FirmwareParser.Gcode.ParseHostCommand | gcode.cpp:64-80 | the host command kept, with its 8-bit length |
| FirmwareParser.Gcode.Trim | gcode.cpp:42-54 | the trimmed text |
| FirmwareParser.Gcode.ParseCommand | gcode.cpp:34-190 | presence and value of every parameter, the host command and the checksum bit, for every text |
| HostAscii.RoundTripsExactlyWhen | M33 Manager/gcode.cpp:75-189 | parsing a printed string-free command gives it back if and only if nothing is printed behind a command that takes a string |
| HostAscii.OthersAreSwallowed | M33 Manager/gcode.cpp:146-173 | otherwise the parameters up to the M come back and the words behind it become its string |
| HostAscii.AsciiIsJoined | M33 Manager/gcode.cpp:553-601 | the printed line is the words of the command with single spaces |
| HostAscii.PrintedIsTrimmed | M33 Manager/gcode.cpp:88-109 | a printed line has nothing to trim |
| HostAscii.Gcode.GetAscii | M33 Manager/gcode.cpp:553-601 | the printing loop prints the specified line |
| HostAscii.Gcode.ParseLine | M33 Manager/gcode.cpp:75-189 | the parsing loops give the specified command, host command and result |
| HostBinary.FieldRoundTrip | M33 Manager/gcode.cpp:374-407 | the bytes of a value in range read back as that value |
| HostBinary.RoundTrip | M33 Manager/gcode.cpp:213-366 | decoding an encoded command gives back its data type, values and string |
| HostBinary.OnlyWhenOk | M33 Manager/gcode.cpp:409-551 | only commands whose data type names exactly their values, all in range, come back |
| HostBinary.RoundTripsExactlyWhenOk | M33 Manager/gcode.cpp:213-551 | a command comes back if and only if its data type names exactly its values, all in range, and its string agrees with its string bit, or there is none and the bytes up to the first checksum byte are zero |
| HostBinary.FlagIsLost | M33 Manager/gcode.cpp:439-529 | a parameter without a value never comes back |
| HostBinary.EmptyStringIsLost | M33 Manager/gcode.cpp:213-551 | a set string bit with an empty string and a value that is not zero never comes back |
| HostBinary.EmptyStringExample | M33 Manager/gcode.cpp:213-551 | M117 with an empty string does not come back |
| HostBinary.EncodesDecoded | M33 Manager/gcode.cpp:213-529 | encoding decoded values gives the bytes they were decoded from |
| HostBinary.FletcherIs | M33 Manager/gcode.cpp:531-546 | the checksum bytes are the plain and the position-weighted byte sum modulo 255 |
| HostBinary.ChangeIsSeen | M33 Manager/gcode.cpp:531-546 | one changed byte changes the checksum if and only if it is not a change between 0 and 255 |
| HostBinary.AppendChecksum | M33 Manager/gcode.cpp:531-546 | the checksum loop appends the specified sums |
| HostBinary.Gcode.GetBinary | M33 Manager/gcode.cpp:409-551 | the appended bytes are the specified encoding |
| HostBinary.Gcode.ParseBinary | M33 Manager/gcode.cpp:213-366 | the running index decodes as specified; a command without data changes the data type only |
| Agreement.FirmwareReadsPrinted | gcode.cpp:86-167 | the firmware reads from the host's printed line exactly the parameters it supports that have a number, each with the number its value starts with |
| Agreement.NumberShift | common.cpp:87-199 | a number reads the same inside a longer text |
| Numerals.ReadsKept | common.cpp:118-199 | a sign, digits and digits behind a point are read to the end, as the number the first six decimals stand for |
| Numerals.KeptIsTruncated | common.cpp:150-190 | this is the number itself cut off towards zero by less than a millionth, and exactly it if and only if the decimals behind the sixth are zeros |
| Agreement.ReadsWhatFits | gcode.cpp:105-148 | for each of the eleven letters a numeral of its kind is read to the end, as the number it stands for if and only if the firmware's field holds that number |
| Agreement.ReadsFloats | gcode.cpp:127-148 | X, Y, Z, F and E never differ from the number meant by a millionth, nor lie further from zero |
| Agreement.LineCarriesNumber | gcode.cpp:86-167 | a letter the host prints with a numeral of its kind is present for the firmware, with the number meant if and only if the field holds it |
| Crc.TableIsEightMoves | M33 Manager/printer.cpp:48-50 | every table entry is what eight moves of the shift register make of its index |
| Crc.TableStep | M33 Manager/printer.cpp:2708-2711 | one table step enters the eight bits of a byte |
| Crc.Crc32 | M33 Manager/printer.cpp:2699-2715 | the loop computes the bit-serial CRC-32 of the bytes |
| Crc.BurstIsDetected | M33 Manager/printer.cpp:2699-2715 | images that differ only within four bytes in a row have different CRCs |
| Rom.TablesInverse | M33 Manager/printer.cpp:43-45 | decryption undoes encryption for every byte |
| Rom.AcceptedExactlyWhenFits | M33 Manager/printer.cpp:1554-1561 | an image is accepted if and only if the file fits the chip |
| Rom.StreamDecrypts | M33 Manager/printer.cpp:1646-1719 | decrypting the streamed pages and extending with 0xFF gives the image whose CRC is compared |
| Rom.PlainFileIsRecovered | M33 Manager/printer.cpp:1528-1558 | for an unencrypted file that image is the file followed by 0xFF |
| Rom.TransferredImage | M33 Manager/printer.cpp:1528-1804 | both, with the tables of the program |
| Rom.PrepareRom | M33 Manager/printer.cpp:1528-1558 | encryption and padding as specified |
| Rom.SendPages | M33 Manager/printer.cpp:1646-1719 | the nested page loops send the specified stream |
| Rom.DecryptRom | M33 Manager/printer.cpp:1779-1804 | the array is the specified image |
| Rom.Transfer | M33 Manager/printer.cpp:1528-1804 | the whole transfer: acceptance, the pages and the image |
| Rom.RomCrc | M33 Manager/printer.cpp:1806-1807 | the compared CRC is the bit-serial CRC-32 of that image |
| SavedState.SaveKeepsOthers | motors.cpp:1512-1537 | a save disturbs no other cell |
| SavedState.TicksStore | motors.cpp:514-559 | within nine ticks every cell saved holds what its own tick found, also when the state changes in between |
| SavedState.NineTicks | motors.cpp:514-559 | after any nine ticks that find the same state EEPROM holds exactly that state, and no other byte has changed |
| SavedState.SavedMotorsHoldState | main.cpp:1409-1416 | the same for the save before a reset |
| SavedState.RestoresSaved | motors.cpp:1540-1553 | restoring gives back the saved state |
| SavedState.Memory.SaveState | motors.cpp:1479-1537 | a save writes its cell, if it is not up to date |
| SavedState.Memory.SaveTick | motors.cpp:514-559 | a tick takes the next turn of the rota and saves it |
| SavedState.Memory.SaveAll | main.cpp:1409-1416 | the nested loops leave EEPROM holding the state |
| SavedState.Memory.RestoreState | motors.cpp:1540-1553 | the state read from EEPROM |

## Left out

- Float rounding, NaN, infinity and signed zero.
- StepCounts.FirmwareStepsMatchDistance: for a compensated motor the room is sufficient and not shown to be necessary; the exact condition is stated for one movement of one motor.
- Boundary.SegmentsStayInside: requires that levelling and skew are not both at work, because the region is left otherwise; when is stated exactly by Boundary.RunInsideExactly where lines are straight and by Boundary.SegmentInsideExactly for every segment, and how far by Excursions.RunSegmentsStray.
- Excursions.RunSegmentsStray: the margin is an upper bound and not shown to be reached.
- MotorControl.Motors.Move: covers received movements with all tasks and no emergency stop; the stop's abort of a movement, homing, the search for Z0 and the calibrations are not modelled.
- MotorControl.Motors.constructor: the saved state is a parameter; how EEPROM bytes hold it is modelled in SavedState.
- StepEngine.StepTimer.Execute: leaves out the regulation of the extruder motor's current while it waits.
- CommandQueue.EmergencyStop: a command is what its parameters say; what running it does, and the wait responses between commands, are not modelled.
- CommandQueue.RequestQueue.CdcRxNotifyCallback: starts from a complete packet that has been split into commands; collecting packets in the buffer is left out.
- LineNumbers.Session.Handle: whether a command answers ok is an input; the text behind the ok is left out.
- FirmwareParser.Gcode.ParseCommand: requires the '*' of a checksum within the first 256 characters, because the source's loop does not end otherwise; parameters are specified when the trimmed text ends within 255 characters.
- HostAscii.RoundTripsExactlyWhen: is about commands without a string whose values print as one word; lines longer than 254 characters, on which the source's loop does not end, are excluded where the loop is modelled.
- HostBinary.RoundTripsExactlyWhenOk: the fifteen conditional blocks of the source are one loop over a table of fields; commands whose bytes do not fit 255 are excluded.
- Rom.Transfer: excludes unencrypted files of more than 65535 bytes, on which the source's 16-bit loop does not end; the exchange with the boot loader is left out.
- SavedState.NineTicks: the timer's prescaler and the state of the memory controller are left out.
- Vendor drivers, the accelerometer, heater, fan, LED and PWM code, serial ports, the user interface, and the host commands and memory dumps of the main loop.
