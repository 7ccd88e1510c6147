# Verified model of the guiding engines of Sodium

Sodium is a fork of PHD2, a program that keeps a telescope on a guide star. Most of it is user interface and drivers.
The parts modelled here are its stateful engines, each in a module of its own and in the form it has in the source:
classes with the source's fields and methods, proved against specification functions, and laws about those functions.

| files | engine |
|---|---|
| `ComplexNumbers`, `Polynomials`, `ZFilterFactory`, `ZFilterResponse` | design of the digital filter: pole table, left half-plane, bilinear transform, in-place polynomial expansion, gain; its frequency response |
| `ZFilter`, `ZFilterStability` | the shift registers inside the guiding loop, against the difference equation over the whole history; what stability means for the loop |
| `Controller`, `ControllerLaws`, `GuideLaws`, `SettleLaws` | the eleven-state controller: update loop, retries, what precedes settling, Dec-mode override, aborts, settling over frame traces |
| `StepGuider`, `CalibrationLaws`, `CalibrationSamples`, `CalibrationErrors` | the adaptive-optics unit: saturating moves, fall-through calibration, whole calibration runs, also on a device that fails |
| `AoBump`, `BumpLaws`, `BumpReach`, `BumpAims` | its bump controller: average, weight, hysteresis, size and direction of bumps, what runs reach |
| `BacklashPlay`, `BacklashComp`, `BacklashLearning`, `BacklashTracking` | the play element, the compensation with its bounded history, what it learns, and the two composed |
| `LineFraming`, `EventClient` | the event client: framing of the byte stream, streaming statistics over a window of events |
| `ResistSwitch` | the voting guide algorithm with its fast switch |
| `ConfigText`, `ConfigStore`, `ConfigRuns`, `TempProfile` | escaping and parsing of profile files, the profile store and its sessions, the transactional temporary profile |

Arithmetic is exact: `real` for the source's `double`, unbounded `int` for its integers. Answers of the camera, the
mount, the device and the clock are parameters, so the laws hold for all of them. `dafny verify dfyconfig.toml` checks
the project.

Where the code and what it says of itself differ, the model follows the code and the difference is a theorem:

- The cap on the bump weight is there to keep a bump within half of the search region (`src/ao/stepguider.cpp:1072-1086`).
  The initial weight and the settling boost are not capped; `BumpReach.HalfRegionPromise` gives the exact condition on runs.
- A bump is to end close to the centre. For a travel limit below 5 the centre tolerance is rounded down to zero, and on some
  runs the bump never ends: `BumpReach.EveryBumpEnds`. The settings dialog offers limits from 10 to 45
  (`src/ao/stepguider.cpp:1430-1433`), so that only a stored value gets below 5.
- A gentle bump divides by the length of the average offset, which runs bring to zero: `BumpReach.UndefinedReached`.
- The table of Bessel poles ends at order 10 while the order is only checked to be positive:
  `ZFilterDesign.BesselTableServes`. The program itself uses order 4.
- The pulse correction adds its half after rounding down, to no effect (`src/algorithm/backlash_comp.cpp:269-270`); when it is
  the nearest number of milliseconds all the same says `BacklashCompensation.NearestExactly`.
- A pulse below the minimum of 20 ms can be adaptable, and then a decrease raises it to the floor:
  `BacklashCompensation.RequestsAdaptGradually`. A negative request is not clamped to zero but becomes the largest pulse:
  `BacklashCompensation.PulseClamped`.
- String values of profile files lose the blanks at their end when read back: `ConfigText.ValueReadBack`.
- A profile created, cloned or renamed with the empty name is stored without one and shows as "Profile" and its number, which
  another profile may be called; the event server passes any name (`src/server/event_server.cpp:2812`). Selecting or cloning to
  the empty name reports failure and leaves the profile behind. Names stay distinct under the exact condition of
  `ConfigRuns.SessionSound`.
- A temporary profile left over from a crash is deleted when the next one opens: `TempProfile.OpenAndDrop`.

## Model

| member | source | states |
|---|---|---|
| `Polynomials.EvalMulIn` | src/algorithm/zfilterfactory.cpp:237-253 | One in-place factor step turns the coefficients of a polynomial into those of (z - w) times it, at every z, when the room for one more degree is there |
| `Polynomials.ExpandedIsProduct` | src/algorithm/zfilterfactory.cpp:212-244 | Folding in any prefix of the roots gives, at every z, the product of the factors so far; the leading coefficient is 1 |
| `Polynomials.ExpansionIsProduct` | src/algorithm/zfilterfactory.cpp:212-254 | For every list of complex roots the expansion evaluates at every z to the product of (z - root) and has top coefficient 1 |
| `Polynomials.MulInCommutes` | src/algorithm/zfilterfactory.cpp:237-244 | Two factors may be multiplied in in either order |
| `Polynomials.ExpandedPermuted` | src/algorithm/zfilterfactory.cpp:212-244 | The coefficients do not depend on the order of the roots |
| `Polynomials.RootProductPermuted` | src/algorithm/zfilterfactory.cpp:212-254 | Neither does the value of the product at any z |
| `Polynomials.ConjClosedPermutes` | src/algorithm/zfilterfactory.cpp:227-235 | Conjugating a conjugate-closed list only permutes it (the converse is PermutesConjClosed) |
| `Polynomials.ExpansionReal` | src/algorithm/zfilterfactory.cpp:227-235 | The expansion of a conjugate-closed list has only real coefficients |
| `Polynomials.ProductAtOnePositive` | src/algorithm/zfilterfactory.cpp:203-203 | A conjugate-closed list strictly inside the unit circle has a real, positive product of factors at z = 1 |
| `ComplexNumbers.DivMul` | src/algorithm/zfilterfactory.hpp:94-97 | The complex quotient used by the bilinear transform and the gain really undoes multiplication |
| `ZFilterDesign.MultIn` | src/algorithm/zfilterfactory.cpp:237-244 | The in-place loop from the high index down computes the factor step on the array, reading no coefficient it has already overwritten |
| `ZFilterDesign.EvalPoly` | src/algorithm/zfilterfactory.cpp:246-254 | The accumulating loop is Horner evaluation of the polynomial |
| `ZFilterDesign.CheckReal` | src/algorithm/zfilterfactory.cpp:227-235 | The scan succeeds exactly if every imaginary part is within EPS |
| `ZFilterDesign.Expand` | src/algorithm/zfilterfactory.cpp:212-235 | The array holds the product polynomial of any root list, top coefficient 1, and for a conjugate-closed list the "not real" exit is never taken |
| `ZFilterDesign.PermutesConjClosed` | src/algorithm/zfilterfactory.cpp:227-235 | If conjugation permutes a list, the list is closed under conjugation, multiplicities included |
| `ZFilterDesign.AdmittedClosed` | src/algorithm/zfilterfactory.hpp:88-92 | Discarding the right half-plane keeps a list closed under conjugation |
| `ZFilterDesign.MapPermuted` | src/algorithm/zfilterfactory.cpp:157-163 | Mapping permuted lists gives permuted lists |
| `ZFilterDesign.MapClosed` | src/algorithm/zfilterfactory.cpp:157-163 | A map that commutes with conjugation on the list keeps it conjugate-closed |
| `ZFilterDesign.BilinearConj` | src/algorithm/zfilterfactory.hpp:94-97 | The bilinear map commutes with conjugation away from its pole |
| `ZFilterDesign.BilinearInside` | src/algorithm/zfilterfactory.hpp:94-97 | A pole lands strictly inside the unit circle if and only if its real part is negative |
| `ZFilterDesign.BesselTableServes` | src/algorithm/zfilterfactory.cpp:105-120 | The stored table of Bessel poles serves an order if and only if the order is at most 10; beyond it the source would read past the table |
| `ZFilterDesign.RowsFollow` | src/algorithm/zfilterfactory.cpp:109-119 | The rows of the orders follow each other in the table without gap or overlap |
| `ZFilterDesign.WithConjugatesClosed` | src/algorithm/zfilterfactory.cpp:109-120 | A real first pole and conjugate pairs form a conjugate-closed list |
| `ZFilterDesign.CoefficientsRealise` | src/algorithm/zfilterfactory.cpp:206-209 | The reversed, negated coefficient lists of the recurrence represent exactly the two root products |
| `ZFilterDesign.ZerosAtOne` | src/algorithm/zfilterfactory.cpp:176-177 | The product of the factors of n zeros at -1 is two to the n at z = 1 |
| `ZFilterDesign.ZFilterFactory.Gain` | src/algorithm/zfilterfactory.hpp:51-51 | The gain is positive and is the modulus of the DC gain |
| `ZFilterDesign.CircleClosed` | src/algorithm/zfilterfactory.cpp:121-127 | The candidates for Butterworth poles are closed under conjugation, for odd and for even orders |
| `ZFilterDesign.LawsConsistent` | src/algorithm/zfilterfactory.cpp:121-127 | The laws of cosine and sine asked of the circle can be met: the points of order 1 obey them |
| `ZFilterDesign.AdmittedRange` | src/algorithm/zfilterfactory.hpp:88-92 | Of a list whose left half-plane part is contiguous setpole keeps exactly that part, in order |
| `ZFilterDesign.ButterworthPoles` | src/algorithm/zfilterfactory.cpp:121-127 | Of the 2 n candidates exactly n are poles: consecutive ones, of modulus one, conjugate-closed |
| `ZFilterDesign.ZFilterFactory.SPlane` | src/algorithm/zfilterfactory.cpp:105-127 | The prototype poles of either design are as many as the order, conjugate-closed and in the left half-plane: a row of the table with conjugates, or the left half of the circle |
| `ZFilterDesign.ZFilterFactory.Normalize` | src/algorithm/zfilterfactory.cpp:157-163 | Scaling in place by the prewarped corner keeps conjugates together and the left half-plane |
| `ZFilterDesign.ZFilterFactory.ZPlane` | src/algorithm/zfilterfactory.cpp:165-178 | The digital poles are the bilinear images, conjugate-closed and strictly inside the unit circle, with as many zeros at -1 |
| `ZFilterDesign.ZFilterFactory.Digitize` | src/algorithm/zfilterfactory.cpp:148-178 | Each digital pole z belongs to its prototype pole s at the prewarped corner w = 2 tan(pi / period): z (2 - w s) = 2 + w s |
| `ZFilterDesign.ZFilterFactory.TakeCoefficients` | src/algorithm/zfilterfactory.cpp:206-209 | Recurrence coefficients are the polynomial coefficients newest first, the feedback ones negated |
| `ZFilterDesign.ZFilterFactory.ExpandPoly` | src/algorithm/zfilterfactory.cpp:186-210 | Expansion succeeds, the recurrence realises poles and zeros, and the DC gain is the real positive number 2^n over the product at 1 |
| `ZFilterDesign.ZFilterFactory.Make` | src/algorithm/zfilterfactory.cpp:85-103 | Refuses exactly a non-positive order or a period below 2; otherwise a stable design with real coefficients and positive DC gain, whose poles belong to the prototype of design and order at the corner of the period |
| `ZFilterResponse.FactorTheorem` | src/algorithm/zfilterfactory.cpp:212-254 | A polynomial with leading coefficient 1 and as many different roots as its degree is their product |
| `ZFilterResponse.WholeCircle` | src/algorithm/zfilterfactory.cpp:121-127 | The product over the whole Butterworth circle is z^2n + (-1)^n, for every order |
| `ZFilterResponse.MaximallyFlat` | src/algorithm/zfilterfactory.cpp:121-127 | At i v the squared distances to the Butterworth poles multiply to 1 + v^2n |
| `ZFilterResponse.ResponseCorresponds` | src/algorithm/zfilterfactory.cpp:165-178 | The digital transfer function at a point is, up to one constant, that of the scaled prototype at the corresponding point |
| `ZFilterResponse.PrototypeResponse` | src/algorithm/zfilterfactory.cpp:85-210 | Relative to DC the recurrence of a finished design responds, at the point of the plane that belongs to the frequency v in units of the corner, as the analogue prototype does at v |
| `ZFilterResponse.CircleCorresponds` | src/algorithm/zfilterfactory.cpp:148-163 | A point of the unit circle belongs to the frequency whose multiple by the corner is twice the tangent of half its angle |
| `ZFilterResponse.ButterworthResponse` | src/algorithm/zfilterfactory.cpp:85-210 | On the unit circle the squared response of a Butterworth design is 1 / (1 + v^2n) of that at DC, so one half at the corner of the period asked for, for every order |
| `ZFilterResponse.BesselHalfPower` | src/algorithm/zfilterfactory.cpp:58-59 | The poles of order 4, the order in use, put the half-power point at the corner to ten digits |
| `ZFilter.ShiftHolds` | src/algorithm/guide_algorithm_zfilter.cpp:75-80 | Inserting in front and dropping the last keeps a register equal to the last samples of the history |
| `ZFilter.StepHolds` | src/algorithm/guide_algorithm_zfilter.cpp:68-95 | One step keeps both registers equal to the whole-history signals, whatever move is returned |
| `ZFilter.StepTransparent` | src/algorithm/guide_algorithm_zfilter.cpp:68-95 | One turn of the guiding loop keeps feedback transparency |
| `ZFilter.FeedbackTransparent` | src/algorithm/guide_algorithm_zfilter.cpp:60-112 | Over every waveform, with the mount applying the corrections, the registers compute the open-loop difference equation of the uncorrected waveform, the running correction is the sum of all moves, and it equals the filter output or is within the minimum move of it with no move made |
| `ZFilter.MinMoveIrrelevant` | src/algorithm/guide_algorithm_zfilter.cpp:91-95 | The registers after any waveform are the same for every minimum move |
| `ZFilter.ConstantPasses` | src/algorithm/guide_algorithm_zfilter.cpp:82-88 | With unity gain a constant history reproduces the constant |
| `ZFilter.SettledStaysStill` | src/algorithm/guide_algorithm_zfilter.cpp:68-112 | A constant that the loop already follows causes no move and no change of state, for as long as it lasts |
| `ZFilter.DesignHasUnityGain` | src/algorithm/guide_algorithm_zfilter.cpp:134-138 | A finished design, its input divided by its gain, has unity gain at DC |
| `ZFilter.GuideAlgorithmZFilter.Clear` | src/algorithm/guide_algorithm_zfilter.cpp:60-66 | All registers and the running correction are zero, at the lengths of the coefficients |
| `ZFilter.GuideAlgorithmZFilter.BuildFilter` | src/algorithm/guide_algorithm_zfilter.cpp:114-161 | Fails exactly for an order or expansion factor below 1, leaving everything alone; otherwise the filter taken over is the design of that order, Butterworth or Bessel, with its corner at four times the expansion factor: stable, unity DC gain, cleared registers |
| `ZFilter.GuideAlgorithmZFilter.Accumulate` | src/algorithm/guide_algorithm_zfilter.cpp:82-88 | The two accumulating loops put the recurrence output into the newest register cell without using it |
| `ZFilter.GuideAlgorithmZFilter.Result` | src/algorithm/guide_algorithm_zfilter.cpp:68-112 | The in-place shifts and loops compute one step of the recurrence with the minimum-move gate |
| `ZFilterStability.AppliedMulIn` | src/algorithm/zfilterfactory.cpp:237-244 | Multiplying a root into a polynomial is applying the polynomial, as an operator on signals, to the signal reduced by the root |
| `ZFilterStability.StableVanishes` | src/algorithm/zfilterfactory.cpp:212-235 | A signal annihilated by a polynomial whose roots all lie inside the unit circle dies out |
| `ZFilterStability.TrailRegisters` | src/algorithm/guide_algorithm_zfilter.cpp:75-80 | The registers hold the last inputs and outputs, whatever they held at first |
| `ZFilterStability.ForgetsStart` | src/algorithm/guide_algorithm_zfilter.cpp:68-95 | On the same waveform, the outputs of a stable filter from any two states of its registers come together |
| `ZFilterStability.DisplacementCorrected` | src/algorithm/guide_algorithm_zfilter.cpp:68-112 | From any registers and mount position the loop corrects a constant displacement: what is left is in the end below the minimum move plus any margin |
| `Controller.Pass` | src/controller.cpp:274-511 | Every pass of the state loop that does not end the update goes strictly down in a rank of the states |
| `Controller.PhdController.DoFail` | src/controller.cpp:117-122 | Records the failure and goes to the finish state |
| `Controller.PhdController.StartPass` | src/controller.cpp:289-333 | Starting an attempt, with the answers of the equipment |
| `Controller.PhdController.SelectPass` | src/controller.cpp:335-354 | One star selection; the third failure fails the operation |
| `Controller.PhdController.WaitSelectedPass` | src/controller.cpp:356-368 | Waiting for a selected star for at most three updates |
| `Controller.PhdController.CalibratePass` | src/controller.cpp:370-402 | Starting the calibration with the sticky lock saved |
| `Controller.PhdController.CalibrationWaitPass` | src/controller.cpp:404-413 | Waiting for the calibration, then restoring the sticky lock |
| `Controller.PhdController.GuidePass` | src/controller.cpp:415-422 | Starting to guide |
| `Controller.PhdController.SettleBeginPass` | src/controller.cpp:424-439 | Starting to settle, with the Dec mode overridden if the operation asks for it |
| `Controller.PhdController.SettleWaitPass` | src/controller.cpp:441-495 | One frame of settling agrees with the verdict on frame budget, streak and timeout, in that order |
| `Controller.PhdController.FinishPass` | src/controller.cpp:497-509 | Restores the Dec mode, notifies once, goes idle |
| `Controller.PhdController.OnePass` | src/controller.cpp:275-510 | The switch over the eleven states |
| `Controller.PhdController.UpdateControllerState` | src/controller.cpp:271-512 | The run-to-completion loop terminates from every state for every environment and computes the specified update |
| `Controller.PhdController.Guide` | src/controller.cpp:96-115 | Refused exactly when busy; otherwise accepted and run |
| `Controller.PhdController.Dither` | src/controller.cpp:124-187 | Which dithers override the Dec mode or fall back to RA only, and when an operation is accepted |
| `Controller.PhdController.AbortController` | src/controller.cpp:208-213 | Fails the operation in progress and runs it to its end |
| `Controller.PhdController.DitherCompat` | src/controller.cpp:200-206 | Aborts, then dithers with the legacy settle parameters |
| `ControllerLaws.UpdateKeeps` | src/controller.cpp:271-512 | Every update keeps the accounting, retry, Dec-mode and frame-count invariant and stops only in a resting state |
| `ControllerLaws.RunKeeps` | src/controller.cpp:96-512 | So does every sequence of guide, dither, abort, legacy dither and frame commands |
| `ControllerLaws.OperationsAccounted` | src/controller.cpp:96-237 | On every run, aborts included: accepted operations = completion notifications + 1 if not idle; events never come out of order; settling begins at most once for each operation |
| `ControllerLaws.DecModeRestored` | src/controller.cpp:149-186 | On every run the Dec mode at every idle moment is the original one, it is AUTO while an overriding dither settles, and it differs only then |
| `ControllerLaws.AttemptsBounded` | src/controller.cpp:335-368 | On every run at most three star selections fail per guide operation, and dropped frames never exceed frames |
| `ControllerLaws.AbortAnswers` | src/controller.cpp:208-213 | Aborting leaves the controller idle and, if it was busy, the last event reports failure with the reason and the frame counts |
| `ControllerLaws.CompatNeverReentrant` | src/controller.cpp:200-206 | After a legacy dither request only the frame can have refused it: it is accepted if and only if dithering succeeds |
| `ControllerLaws.OverridingDitherIsAuto` | src/controller.cpp:149-186 | An accepted dither is settling when the call returns, in AUTO exactly if it overrides |
| `GuideLaws.GuidingWasStarted` | src/controller.cpp:271-512 | On every run no guide operation settles without guiding having been started since it was accepted, unless the guider was found calibrating or guiding and no calibration was forced; a forced one has cleared the old calibration; settling never follows a refusal to start and success never comes without settling |
| `GuideLaws.SettlingIsReady` | src/controller.cpp:271-512 | On every run, while a guide operation settles all gear was found connected, a star selected or the guider busy, the mounts calibrated or the guider past calibration |
| `GuideLaws.GuideFromStar` | src/controller.cpp:96-422 | With a selected star and calibrated mounts a request clears if forced and starts guiding at once |
| `GuideLaws.GuideStartsCapture` | src/controller.cpp:96-319 | Without capture running it resets guider and exposure, starts capturing and waits |
| `GuideLaws.GuideRefused` | src/controller.cpp:264-317 | With gear missing or no camera to capture with it is answered with the reason |
| `GuideLaws.GuideJoins` | src/controller.cpp:296-312 | If the guider is at it already the request settles at once or waits for the calibration |
| `GuideLaws.GuideLooksForStar` | src/controller.cpp:321-331 | Without a star one is looked for at once, or after resetting an automatic exposure |
| `GuideLaws.SelectionWaits` | src/controller.cpp:349-368 | A star found but not selected is waited for over three frames, then the attempt is repeated |
| `GuideLaws.StarFoundAndSelected` | src/controller.cpp:349-422 | Once selected, guiding starts |
| `GuideLaws.ThirdFailureGivesUp` | src/controller.cpp:335-348 | Each failure to find a star resets the guider, the third fails the request |
| `GuideLaws.CalibratesAndSettles` | src/controller.cpp:370-439 | A calibration, after any number of frames, ends with the stickiness of the lock position as it was and settling begun |
| `GuideLaws.StartRefused` | src/controller.cpp:389-418 | A refusal to start is answered with the reason, the stickiness as it was |
| `GuideLaws.DitherMovesDecOnlyIfGuided` | src/controller.cpp:124-187 | A dither moves Dec exactly if the mount guides Dec in both directions while it settles, having been in AUTO or being switched for the settling; else the Dec mode is left alone |
| `GuideLaws.CompatLastsTenFrames` | src/controller.cpp:189-206 | A legacy dither is over after ten frames and not before, unless hours pass |
| `GuideLaws.CompatDithers` | src/controller.cpp:189-206 | It leaves Dec out exactly if the program setting or a mode other than AUTO says so, and never touches the mode |
| `SettleLaws.StateJudges` | src/controller.cpp:441-495 | The stopwatches, counters and flag of the controller give the verdict that the whole list of frames gives |
| `SettleLaws.FrameUpdate` | src/controller.cpp:441-495 | Each pending frame reports its distance and lock and how long the streak has lasted; the last one reports the verdict |
| `SettleLaws.FeedDecides` | src/controller.cpp:424-495 | Over every frame trace the controller is settling exactly while the reference has no verdict; after the first verdict it is idle and has reported it with the right frame counts |
| `SettleLaws.SettlingEnds` | src/controller.cpp:441-460 | Once settling begins the controller is idle again within max(1, frames) updates |
| `SettleLaws.DitherSettles` | src/controller.cpp:124-495 | From an accepted dither on, over every frame trace: settling exactly while there is no verdict, then idle with that verdict reported, at the latest after max(1, frames) frames |
| `SettleLaws.VerdictMeaning` | src/controller.cpp:441-495 | Success if and only if the frame budget is reached or the trace ends in an unbroken locked, in-tolerance streak that is long enough; a timeout if and only if there is no success and the timeout has passed |
| `SettleLaws.StreakSpansSettleTime` | src/controller.cpp:462-480 | A streak of several frames that settles spans the settle time in milliseconds, and that time is positive |
| `StepGuiding.StepGuider.WouldHitLimit` | src/ao/stepguider.cpp:1262-1272 | True exactly if the move needs more steps than the travel box allows |
| `StepGuiding.BoxMeans` | src/ao/stepguider.cpp:393-413 | The travel box and the room left in each direction, in numbers |
| `StepGuiding.StepGuider.TakeSteps` | src/ao/stepguider.cpp:940-968 | The position follows the device, and is recentred only if the device was |
| `StepGuiding.StepGuider.MoveAxis` | src/ao/stepguider.cpp:883-988 | A saturating move: cut to the travel left, refused when guiding is off, and the position never leaves the box |
| `StepGuiding.StepGuider.MoveToCenter` | src/ao/stepguider.cpp:337-391 | Success means the position is the centre; failure exactly if a needed step failed |
| `StepGuiding.StepGuider.BeginCalibration` | src/ao/stepguider.cpp:422-446 | Refused exactly without connection or valid location; otherwise the run starts afresh |
| `StepGuiding.StepGuider.UpdateCalibrationState` | src/ao/stepguider.cpp:485-795 | The fall-through state machine, with its room assertions, computes the specified next record and moves; too many errors clear it |
| `StepGuiding.StepGuider.FinishCalibrationState` | src/ao/stepguider.cpp:617-757 | The second half of the fall-through |
| `StepGuiding.StepGuider.ScheduledMove` | src/ao/stepguider.cpp:849-871 | One scheduled move with any answer of the device; a move that was cut short counts as failed |
| `StepGuiding.StepGuider.PerformMoves` | src/ao/stepguider.cpp:764-792 | The scheduled moves one after the other, whatever the device answers: position, number of failures, and whether the device ran into its limit |
| `StepGuiding.StepGuider.CalibrationFrame` | src/ao/stepguider.cpp:485-795 | One frame with any error count and any answers: it gives up exactly after more than twelve errors, otherwise updates and performs the moves |
| `StepGuiding.MovesExclusive` | src/ao/stepguider.cpp:764-792 | No update schedules two opposite moves, which the source asserts |
| `CalibrationLaws.FrameOnTrack` | src/ao/stepguider.cpp:485-795 | From every state of a run one frame keeps the device where its phase requires, keeps the iteration counts, and takes exactly one off the predicted number of frames |
| `CalibrationLaws.RunCountsDown` | src/ao/stepguider.cpp:485-795 | Over a whole run the predicted number of frames counts down to zero, whatever the camera sees |
| `CalibrationLaws.CalibrationTerminates` | src/ao/stepguider.cpp:485-795 | For all travel limits, strides and sample counts, the run is complete after exactly the predicted number of frames, with the left/up offsets equal to (MaxPosition - 1) mod stride and as many logged steps as the rounded-up quotients |
| `CalibrationLaws.PhasesAdvance` | src/ao/stepguider.cpp:548-757 | On every run, whatever the camera sees, no frame takes the calibration back to an earlier phase |
| `CalibrationLaws.CalibrationRecoversDevice` | src/ao/stepguider.cpp:617-723 | On a device with fixed step vectors the complete run measures exactly those vectors: the divisors are the steps really travelled between the averaged places |
| `CalibrationSamples.CalibrationTakesMeans` | src/ao/stepguider.cpp:548-723 | Whatever the camera sees, the axes of a complete calibration are differences of the means of all samples at the three corners, in exactly known frames, and every logged step is the average at the start of its strides less what the camera saw in its frame |
| `CalibrationErrors.UpdatesAlike` | src/ao/stepguider.cpp:548-757 | No update depends on the iteration count or the logged steps, and it schedules exactly the moves of the phase in which it ends |
| `CalibrationErrors.PerformObeyed` | src/ao/stepguider.cpp:764-792 | Unless the device runs into its limit, the obeyed moves are made in full and the others not at all, and the failures are counted exactly if there are any |
| `CalibrationErrors.PartMoved` | src/ao/stepguider.cpp:764-792 | If only some of the scheduled moves are made, the device is where the phase allows and at most one frame is lost |
| `CalibrationErrors.NextSound` | src/ao/stepguider.cpp:485-795 | Every frame, with any answers, keeps the phase invariant; a frame with failed moves loses at most one frame and gains none, and only the first thirteen failures can lose any |
| `CalibrationErrors.CalibrationEnds` | src/ao/stepguider.cpp:485-795 | Whatever the device does the run ends within the frames of a run without failures and one more for each of the first thirteen failures; unless stopped it is then complete exactly if no more than twelve moves failed, never sooner than without failures, and at the same place |
| `CalibrationErrors.FailuresDoNotMatter` | src/ao/stepguider.cpp:617-723 | A complete run has measured the step vectors of the device exactly, whatever moves failed on the way |
| `CalibrationErrors.NoFailures` | src/ao/stepguider.cpp:485-795 | If no move fails the run is the plain one |
| `AoBump.BumpController.KeepAverage` | src/ao/stepguider.cpp:1028-1036 | The moving average starts at the position and then moves 0.33 of the way to it |
| `AoBump.BumpController.AdaptWeight` | src/ao/stepguider.cpp:1056-1100 | The weight grows while a finished bump step has not helped, up to the cap, and is halved down to one back inside |
| `AoBump.BumpController.ConsiderBump` | src/ao/stepguider.cpp:1040-1142 | When a bump starts, when it ends, and when the warning about a slow one is raised |
| `AoBump.BumpController.LargeBump` | src/ao/stepguider.cpp:1153-1174 | 70% of the star offset, cut to half the search region |
| `AoBump.BumpController.GentleBump` | src/ao/stepguider.cpp:1175-1226 | A step towards the centre, boosted while settling, cut to the star offset |
| `AoBump.BumpController.MoveOffset` | src/ao/stepguider.cpp:1008-1247 | The part of the move after the unit has moved: new state, scheduled bump and warning, with deduced and disabled moves passing by |
| `AoBump.BumpController.NotifyGuidingStopped` | src/ao/stepguider.cpp:823-835 | Clears average, request, bump, weight and warning |
| `BumpLaws.RunKeeps` | src/ao/stepguider.cpp:1008-1142 | On every run with the unit in its box the average stays in the travel box and the weight in [min(1, cap), max(1, cap)] |
| `BumpLaws.BumpHistory` | src/ao/stepguider.cpp:1040-1142 | On every run a bump is in progress if and only if some frame found the unit outside or a bump asked for, and since then guiding has not stopped and no frame inside (or forced) found the average within the centre tolerance |
| `BumpLaws.ForcedHistory` | src/ao/stepguider.cpp:195-198 | A request is pending exactly if it was made and no frame since could take it |
| `BumpLaws.CutLength` | src/ao/stepguider.cpp:1214-1226 | Limiting makes the squared length the smaller of the two |
| `BumpLaws.ScheduledLength` | src/ao/stepguider.cpp:1150-1226 | No scheduled bump is longer than the star offset; after a travel limit none is longer than half the search region; a gentle one no longer than its weight allows |
| `BumpLaws.UndefinedExactly` | src/ao/stepguider.cpp:1175-1212 | The size is a zero over zero exactly if a gentle bump is due while the average is exactly at the centre |
| `BumpLaws.WithinHalfExactly` | src/ao/stepguider.cpp:1072-1086 | A weight keeps every gentle bump within half the search region if and only if it is at most the cap |
| `BumpReach.HalfRegionPromise` | src/ao/stepguider.cpp:1072-1086 | The promise "no move exceeds half the search region" holds of all bumps scheduled on runs, however the camera is turned, if and only if the unit cannot move at all or neither the initial weight 1 nor the settling boost is above the cap |
| `BumpReach.TooLong` | src/ao/stepguider.cpp:1072-1226 | The run that breaks it: a forced bump with the unit out on an axis of its box, in the orientation that has the way home along the faster axis |
| `BumpReach.UndefinedRun` | src/ao/stepguider.cpp:1175-1212 | A run that ends in a zero over zero: a dither in the middle of a bump, then a move that is no guide step with the unit at its centre |
| `BumpReach.UndefinedReached` | src/ao/stepguider.cpp:1175-1212 | Runs reach a bump of undefined size if and only if the unit can move |
| `BumpLaws.BumpsHomeward` | src/ao/stepguider.cpp:1175-1226 | A gentle bump never points away from the centre along either camera axis |
| `BumpAims.BumpTowardsCentre` | src/ao/stepguider.cpp:1175-1226 | Turned back into the coordinates of the unit, a gentle bump has no component along the average offset, and one against it unless weight or star offset is nothing |
| `BumpAims.BumpReachesEllipse` | src/ao/stepguider.cpp:1190-1226 | If it is not cut to the star offset it reaches the ellipse whose semi-axes are rate times steps times weight, the weight raised to the boost while settling |
| `BumpAims.LargeBumpAims` | src/ao/stepguider.cpp:1150-1173 | A large bump goes along the star offset: seven tenths of it exactly unless that is longer than half the search region, and then of that length |
| `BumpAims.AverageFollows` | src/ao/stepguider.cpp:1022-1038 | While the unit stays at a place the average goes straight towards it, 0.67 of the distance being left on each move |
| `BumpAims.InterruptionsForget` | src/ao/stepguider.cpp:823-844 | Stopping, resuming and dithering forget the average; stopping also ends the bump, its weight and any request |
| `BumpAims.WeightGrows` | src/ao/stepguider.cpp:1058-1086 | While a bump has not brought the unit back its weight grows by 1 a move far outside and by 1/6 else, up to the cap |
| `BumpAims.WeightHalves` | src/ao/stepguider.cpp:1088-1099 | Back inside it is halved on every move down to 1 |
| `BumpAims.RangesInPercent` | src/ao/stepguider.cpp:200-217 | The ranges as percentages of the travel, in integers |
| `BumpAims.TolerancesInNumbers` | src/ao/stepguider.cpp:213-217 | A bump ends within a fifth of the travel upwards; half of the search region is half of it |
| `BumpAims.BumpsWhenInProgress` | src/ao/stepguider.cpp:1145-1155 | A bump is scheduled on exactly the averaged moves on which one is in progress and the secondary mount is free |
| `BumpLaws.CentreRun` | src/ao/stepguider.cpp:1028-1142 | With the unit at its centre, after n frames the squared average has shrunk by 0.4489^n, and the bump is still in progress exactly while that is above the tolerance |
| `BumpLaws.CentreEnds` | src/ao/stepguider.cpp:1028-1142 | It has ended after at most as many frames as the squared average divided by the squared tolerance |
| `BumpReach.StartedReaches` | src/ao/stepguider.cpp:1050-1142 | A bump asked for while the unit is beyond the tolerance is in progress, with weight 1, after the next normal frame |
| `BumpReach.NeverEnds` | src/ao/stepguider.cpp:213-217 | With a travel limit below 5 a bump in progress with any average but zero never ends while the unit is held at its centre |
| `BumpReach.EveryBumpEnds` | src/ao/stepguider.cpp:213-217 | After every run, holding the unit at its centre ends the bump, if and only if the travel limit is at least 5 or the unit cannot move at all |
| `BumpLaws.OneAlertPerBump` | src/ao/stepguider.cpp:1102-1123 | Between two warnings guiding stopped or a bump could start |
| `BumpAims.WarningIsLate` | src/ao/stepguider.cpp:1102-1123 | A warning comes only when the bump has been in progress for more than 240 seconds since it began |
| `BumpAims.WarningIsGiven` | src/ao/stepguider.cpp:1102-1123 | And then it comes on the next normal move, unless it has been given |
| `BacklashPlay.BacklashVal.Incr` | src/ao/gear_simulator.cpp:436-445 | Moving the index keeps it between the limits and moves them as little as possible: a clamp projection |
| `BacklashPlay.MovesBatch` | src/ao/gear_simulator.cpp:436-445 | Moves in one direction can be made at once or in parts |
| `BacklashPlay.LosesAtMostBacklash` | src/ao/gear_simulator.cpp:424-446 | Over any sequence of moves the limits hold and at most the backlash is lost |
| `BacklashTracking.TracksExactly` | src/algorithm/backlash_comp.cpp:549-583 | With the pulse equal to the backlash, starting engaged, the output follows every sequence of requests and reversals exactly |
| `BacklashTracking.ReversalError` | src/algorithm/backlash_comp.cpp:549-583 | With any pulse, a long enough reversal is off by the pulse less the backlash |
| `BacklashTracking.OnlyExactPulseTracks` | src/algorithm/backlash_comp.cpp:549-583 | A fixed pulse follows every sequence of requests if and only if it equals the backlash |
| `BacklashCompensation.WithDeflection` | src/algorithm/backlash_comp.cpp:74-109 | A tracked miss adds one entry and the flags of its place; a valid event stays valid |
| `BacklashCompensation.PrunedFrom` | src/algorithm/backlash_comp.cpp:177-199 | Pruning takes at most one event and never the newest |
| `BacklashCompensation.PrunedWhole` | src/algorithm/backlash_comp.cpp:177-199 | It takes none exactly if no older event has the flag |
| `BacklashCompensation.WholeMilliseconds` | src/algorithm/backlash_comp.cpp:269-270 | The correction is the number of whole milliseconds in the average miss |
| `BacklashCompensation.NearestExactly` | src/algorithm/backlash_comp.cpp:269-270 | It is the nearest number of milliseconds if and only if at most half a millisecond is cut off |
| `BacklashCompensation.ThreeQuartersCutOff` | src/algorithm/backlash_comp.cpp:269-270 | An input for which it is not: three quarters of a millisecond make no correction |
| `BacklashCompensation.DecisionFollowsMiss` | src/algorithm/backlash_comp.cpp:240-358 | An adjustment happens only for a miss of at least the minimum move, closes the window, and goes the way of the miss; an increase only with three entries |
| `BacklashCompensation.JudgementKeeps` | src/algorithm/backlash_comp.cpp:240-358 | Noting a miss and pruning keep the history valid, non-empty and no longer, with the newest event one entry richer |
| `BacklashCompensation.BLCHistory.RecordNewBLCPulse` | src/algorithm/backlash_comp.cpp:154-162 | The oldest of ten events makes room, the window opens on the new one |
| `BacklashCompensation.BLCHistory.AddDeflection` | src/algorithm/backlash_comp.cpp:164-175 | Takes the miss into the newest event, or closes the window when it has three entries |
| `BacklashCompensation.BLCHistory.EraseFirst` | src/algorithm/backlash_comp.cpp:177-199 | One scan erases the first flagged event but never the newest |
| `BacklashCompensation.BLCHistory.RemoveOldest` | src/algorithm/backlash_comp.cpp:177-199 | As many scans as asked for |
| `BacklashCompensation.BLCHistory.GetStats` | src/algorithm/backlash_comp.cpp:208-238 | The backward scan yields the statistics of the newest events, with every index in range |
| `BacklashLearning.StatsMeasure` | src/algorithm/backlash_comp.cpp:208-238 | The averages are the means of exactly the first misses after the pulses and of exactly the sticking ones; the counts are the numbers of events with an overshoot, without one, and with stiction |
| `BacklashLearning.AveragesBetween` | src/algorithm/backlash_comp.cpp:208-238 | They lie between the smallest and the largest of those misses |
| `BacklashLearning.TriggersDoNotMatter` | src/algorithm/backlash_comp.cpp:208-358 | Histories that differ only in the deflections that triggered the pulses have the same statistics and lead to the same decision |
| `BacklashLearning.AdjustsExactly` | src/algorithm/backlash_comp.cpp:240-358 | When an adjustment is made, of what amount, what is pruned and when the window closes, in terms of the means and numbers of misses |
| `BacklashLearning.FlagsMean` | src/algorithm/backlash_comp.cpp:74-102 | What the flags of an event with two follow-ons say of them |
| `BacklashLearning.FirstUndershoot` | src/algorithm/backlash_comp.cpp:240-358 | A first pulse that is too short twice over is lengthened by the whole milliseconds of its first miss |
| `BacklashLearning.FirstOvershoot` | src/algorithm/backlash_comp.cpp:240-358 | One that is too long is shortened at once by the whole milliseconds of its miss |
| `BacklashLearning.PrunesOldest` | src/algorithm/backlash_comp.cpp:177-199 | Pruning takes the oldest flagged event |
| `BacklashLearning.NewPulseExactly` | src/algorithm/backlash_comp.cpp:524-546 | The new pulse is the nominal one, held by a tenth above or a fifth below the old, the ceiling and the floor |
| `BacklashLearning.LimitsTaken` | src/algorithm/backlash_comp.cpp:404-421 | How floor and ceiling are taken over |
| `BacklashLearning.MissSigned` | src/algorithm/backlash_comp.cpp:505-513 | What still has to be made up in the direction of the last pulse counts as positive |
| `BacklashLearning.LearnsBacklash` | src/algorithm/backlash_comp.cpp:524-546 | Adapted by what was missing each time the pulse only comes closer to the backlash, is it after a number of adaptations and then stays |
| `BacklashCompensation.BLCHistory.AdjustmentNeeded` | src/algorithm/backlash_comp.cpp:240-358 | The branches decide as specified and prune as specified |
| `BacklashCompensation.BLCHistory.Examine` | src/algorithm/backlash_comp.cpp:514-522 | Each pulse is examined at most three times and adjusted at most once, and the history invariant is kept |
| `BacklashCompensation.Rational` | src/algorithm/backlash_comp.cpp:404-421 | Whatever is requested, negative numbers included, the pulse is between 0 and the ceiling, the ceiling at most 8000, and the floor at most the pulse unless it is 20 |
| `BacklashCompensation.PulseClamped` | src/algorithm/backlash_comp.cpp:405-405 | The pulse is the request clamped to [0, 8000] if and only if the request is not negative: the comparison with an unsigned constant makes negative requests maximal |
| `BacklashCompensation.RationalKeeps` | src/algorithm/backlash_comp.cpp:404-421 | Settings in order with the pulse at or above the floor stay unchanged |
| `BacklashCompensation.GradualExactly` | src/algorithm/backlash_comp.cpp:524-546 | All adaptations stay between floor and ceiling, go the way of the correction, by at most a tenth up or a fifth down plus rounding and never beyond the correction, if and only if the pulse has reached the floor |
| `BacklashCompensation.RequestsAdaptGradually` | src/algorithm/backlash_comp.cpp:404-546 | In terms of the request: for requests of at least 20 ms, and where a negative request or floor passes for a large one |
| `BacklashCompensation.SmallPulseDoubled` | src/algorithm/backlash_comp.cpp:404-546 | An input for which it fails: settings of 10 ms are adaptable, and a decrease by 5 makes the pulse 20 |
| `BacklashCompensation.RetunedKeeps` | src/algorithm/backlash_comp.cpp:524-546 | Taking over an adapted pulse yields that pulse, and keeps floor and ceiling if the pulse had reached the floor |
| `BacklashCompensation.AdaptationBounded` | src/algorithm/backlash_comp.cpp:524-546 | However long adaptation goes on from such settings, floor and ceiling stay and the pulse stays between them |
| `BacklashCompensation.BacklashComp.SetCompValues` | src/algorithm/backlash_comp.cpp:404-421 | The fields take the rational values |
| `BacklashCompensation.BacklashComp.SetBacklashPulseWidth` | src/algorithm/backlash_comp.cpp:423-449 | Nothing happens for equal settings; a change of more than 100 ms clears the history |
| `BacklashCompensation.BacklashComp.TrackBLCResults` | src/algorithm/backlash_comp.cpp:475-547 | Which offsets count as follow-ups; settings and history change as decided; floor and ceiling stay where the pulse had reached the floor |
| `BacklashCompensation.BacklashComp.Adapt` | src/algorithm/backlash_comp.cpp:524-546 | The in-place update computes the new settings for any settings, and keeps floor and ceiling where the pulse had reached the floor |
| `BacklashCompensation.BacklashComp.ApplyBacklashComp` | src/algorithm/backlash_comp.cpp:549-583 | The pulse is added exactly on reversals and recorded exactly for algorithm moves |
| `LineFraming.ReadInTwoParts` | client/guider.py:94-110 | Reading a stream in two parts needs only the residual of the first |
| `LineFraming.ChunkingIrrelevant` | client/guider.py:94-110 | For every partition of the stream into chunks, lines and residual are those of the stream in one piece |
| `LineFraming.WrittenReadsBack` | client/guider.py:94-119 | Lines written with CR LF are read back one for one with nothing left |
| `LineFraming.LinesWritable` | client/guider.py:102-108 | What is read is always non-empty and free of terminators |
| `LineFraming.NothingLost` | client/guider.py:94-110 | Lines and residual together are the stream without its terminators, in order |
| `LineFraming.Conn.Take` | client/guider.py:100-109 | The scan of one chunk keeps lines and buffer equal to the split of everything received |
| `LineFraming.Conn.ReadLine` | client/guider.py:94-110 | Delivers the next line of the stream and uses only as many chunks as needed |
| `EventClient.PeakIsLargest` | client/guider.py:44-45 | The running maximum is attained and is the largest magnitude |
| `EventClient.RunningMean` | client/guider.py:47-48 | The running update keeps the mean |
| `EventClient.WelfordStep` | client/guider.py:47-49 | The running update keeps q equal to the sum of squared deviations from the new mean |
| `EventClient.Accum.Add` | client/guider.py:43-49 | After every sample: count, mean, squared deviations and peak of exactly the samples so far |
| `EventClient.Accum.StdevSquared` | client/guider.py:54-55 | The square of the published deviation is the two-pass population variance |
| `EventClient.VarianceByMoments` | client/guider.py:54-55 | It is the mean of the squares less the square of the mean |
| `EventClient.WindowSnoc` | client/guider.py:177-205 | How each event changes the window of samples: after the last reset, before the settling that follows |
| `EventClient.Guider.HandleEvent` | client/guider.py:167-221 | For every event trace the published statistics are the two-pass statistics of exactly the guide steps in the current window; state, distance, version strings and settle progress as specified |
| `EventClient.LastWordOnState` | client/guider.py:167-221 | The state shown is that of the last event that told one, guide steps telling one only inside a window |
| `EventClient.LastWordOnDistance` | client/guider.py:167-221 | So is the distance, which the report of guiding sets to 0 |
| `EventClient.LastWordOnSettling` | client/guider.py:189-208 | The settling shown is in progress with the last report or done with the last result |
| `ResistSwitch.MovesOnCurrentSide` | src/algorithm/guide_algorithm_resistswitch.cpp:90-166 | A non-zero move is aggression times input, beyond the minimum move, on the side decided for |
| `ResistSwitch.WhenItMoves` | src/algorithm/guide_algorithm_resistswitch.cpp:90-166 | Exactly when a move comes, when the algorithm is silent and what side it is on then, in terms of samples and of how many lie beyond the minimum move |
| `ResistSwitch.DriftCorrected` | src/algorithm/guide_algorithm_resistswitch.cpp:90-166 | From the start a steady drift beyond the minimum move is corrected in full proportion on the third and every later frame |
| `ResistSwitch.FarDriftCorrected` | src/algorithm/guide_algorithm_resistswitch.cpp:90-166 | One far enough out for a fast switch on every frame |
| `ResistSwitch.SmallNeverMoves` | src/algorithm/guide_algorithm_resistswitch.cpp:90-98 | Inputs below the minimum move are never corrected and never change the side |
| `ResistSwitch.ExcursionMovesAtOnce` | src/algorithm/guide_algorithm_resistswitch.cpp:101-149 | A fast-switch excursion moves on that very frame, after rewriting its own history |
| `ResistSwitch.SwitchNeedsEvidence` | src/algorithm/guide_algorithm_resistswitch.cpp:118-149 | The side changes only by a fast-switch excursion, or with three votes for the new side and a worsening trend |
| `ResistSwitch.RunNegated` | src/algorithm/guide_algorithm_resistswitch.cpp:90-166 | Over every run mirrored inputs give mirrored moves |
| `ResistSwitch.RunScaled` | src/algorithm/guide_algorithm_resistswitch.cpp:90-166 | Over every run, scaling inputs and minimum move by k > 0 scales all moves by k |
| `ResistSwitch.GuideAlgorithmResistSwitch.Reset` | src/algorithm/guide_algorithm_resistswitch.cpp:68-76 | Ten zeros and no side |
| `ResistSwitch.GuideAlgorithmResistSwitch.SetMinMove` | src/algorithm/guide_algorithm_resistswitch.cpp:168-191 | Non-positive values are refused in favour of the default, and only an accepted value clears the side |
| `ResistSwitch.GuideAlgorithmResistSwitch.Result` | src/algorithm/guide_algorithm_resistswitch.cpp:90-166 | The in-place history edits and loops compute one step of the specification; the history stays ten long |
| `ConfigText.EscapeIsPerCharacter` | src/config/config.cpp:494-509 | The four sequential replacements equal one per-character map |
| `ConfigText.UnescapeEscape` | src/config/config.cpp:494-542 | Unescaping gives back every escaped string |
| `ConfigText.EscapesNamed` | src/config/config.cpp:494-542 | Which character is escaped as what |
| `ConfigText.StrayBackslash` | src/config/config.cpp:511-542 | A backslash before any other character, or at the end, stands for itself |
| `ConfigText.EscapedClean` | src/config/config.cpp:494-509 | Escaped text has no tab, CR or LF |
| `ConfigText.UnescapeString` | src/config/config.cpp:511-542 | The index loop computes unescaping, trailing backslash included |
| `ConfigText.ParseWritten` | src/config/config.cpp:544-554 | A written line is parsed into its key, type and right-trimmed value |
| `ConfigText.ValueReadBack` | src/config/config.cpp:544-554 | A written string value is read back without its trailing blanks, so unchanged if and only if it does not end in a blank |
| `ConfigStore.PhdConfig.GetProfileId` | src/config/config.cpp:304-326 | Zero exactly if no profile has the name up to case |
| `ConfigStore.SameNameMeans` | src/config/config.cpp:304-334 | Names are the same if they differ in the case of letters only |
| `ConfigStore.FallbacksDiffer` | src/config/config.cpp:328-334 | Two profiles without names are never shown under the same name |
| `ConfigStore.NewNameKeeps` | src/config/config.cpp:328-334 | A new entry for a name keeps all names distinct if and only if no other profile is called what the entry shows as; an empty entry shows as "Profile" and the number |
| `ConfigStore.UnnamedClash` | src/config/config.cpp:328-334 | An unnamed profile 2 beside one called "Profile 2": two profiles of one name |
| `ConfigStore.PhdConfig.CreateProfile` | src/config/config.cpp:342-360 | Fails exactly if the name is taken; otherwise the first free number gets the name and nothing else changes. Names stay distinct unless the name is empty, and then exactly if its fallback is free |
| `ConfigStore.PhdConfig.SetCurrentProfile` | src/config/config.cpp:282-302 | The current profile gets the name, created only if the name is not taken; the empty name fails and leaves an unnamed profile behind |
| `ConfigStore.PhdConfig.InitializeProfile` | src/config/config.cpp:254-267 | Selects the stored profile, else some profile, else a new one; the selected one exists exactly if nothing positive was stored or the stored one exists |
| `ConfigStore.PhdConfig.CopyGroup` | src/config/config.cpp:395-413 | The recursive copy copies everything below the path and touches no other entry |
| `ConfigStore.AllCopied` | src/config/config.cpp:395-413 | All sub-groups and all entries make up the whole subtree |
| `ConfigStore.PhdConfig.CloneProfile` | src/config/config.cpp:415-447 | The clone has the whole source subtree except the name; every other entry is as before; fails exactly if source is missing, destination taken or destination empty, and in the last case leaves an empty unnamed profile |
| `ConfigStore.CloneKeeps` | src/config/config.cpp:415-447 | Cloning keeps names distinct and the current profile alive |
| `ConfigStore.PhdConfig.DeleteProfile` | src/config/config.cpp:449-469 | The named profile goes with all its entries, at least one profile remains, and the current one is among them |
| `ConfigStore.PhdConfig.RenameProfile` | src/config/config.cpp:471-492 | Fails exactly if the old name is missing or the new one taken; otherwise only the name changes, and names stay distinct exactly if no other profile is called what the new entry shows as |
| `ConfigRuns.StepSound` | src/config/config.cpp:282-492 | Every command on a sound store leaves it sound if and only if it leaves no unnamed profile that shows as another |
| `ConfigRuns.SessionSound` | src/config/config.cpp:282-492 | Over every sequence of commands all states are sound (names distinct, current profile alive) if and only if no command leaves such a clash |
| `ConfigRuns.ClashSession` | src/config/config.cpp:328-360 | A session in which creating a profile without a name breaks soundness |
| `ConfigRuns.NamedSessionSound` | src/config/config.cpp:282-492 | Over every sequence of create, select, clone, delete, rename and set that gives names, all states are sound |
| `ConfigRuns.SettingsKept` | src/config/config.cpp:282-492 | Over every session a profile keeps all its settings unless it is deleted or is current when one is set |
| `ConfigRuns.GlobalsKept` | src/config/config.cpp:282-492 | Over every session entries outside the profiles, but for the current number, stay as they are |
| `ConfigRuns.CloneIsCopy` | src/config/config.cpp:415-447 | A clone has every setting of its source under the new name and nothing else changes |
| `ConfigRuns.Perform` | src/config/config.cpp:282-492 | What the object does for each command is the step sessions are made of |
| `TempProfile.AutoTempProfile.constructor` | src/config/config.cpp:813-838 | A temporary profile is current; the previous one is remembered; any stale temporary profile is gone |
| `TempProfile.AutoTempProfile.ApplySetting` | src/config/config.cpp:129-159 | The setting is stored in the temporary profile and nothing outside it changes |
| `TempProfile.AutoTempProfile.Commit` | src/config/config.cpp:840-850 | Succeeds exactly if the new name is free, and then the temporary profile simply has that name |
| `TempProfile.AutoTempProfile.Close` | src/config/config.cpp:819-827 | Uncommitted, store and current profile are as before, whatever settings were made |
| `TempProfile.OpenAndDrop` | src/config/config.cpp:813-850 | Opening and dropping restores everything if and only if no stale temporary profile existed |

## Left out

- User interface, logging, graphs, event server, JSON, threads, sleeps, camera and AO drivers, image handling: input and output with nothing to prove.
- Floating-point rounding and integer width: reals and unbounded integers stand for them; the 1e-10 tolerance on imaginary parts is kept.
- `tan` of the prewarp and `polar` of the Butterworth circle: parameters, a function that is positive at the corner, and points that obey the laws of cosine and sine in `ZFilterDesign.OnUnitCircle`.
- `sqrt` and `hypot`: by their defining law in the bump controller; deviations as their squares in the event client; calibration rates as vector and number of steps.
- Chebyshev filters, the matched-z branch, gains at the corner and at high frequency: never used or only reported.
- `abs` in the filter and the history is the real absolute value.
- Lowpass, Gaussian-process, hysteresis and identity algorithms, `ComputeBacklashPx`, `DecMeasurementStep`, simulated cooler.
- Controller: region of interest, null mount checks, text of messages beyond the reasons reported, the change of maximum Dec duration that goes with the override.
- Sticky-lock restoration on abort: an aborted calibration does not restore it, so nothing is claimed.
- Travel limits that change while the unit is off-centre: limits are fixed during a run.
- CalibrationErrors.CalibrationEnds: a device that runs into its own limit stops guiding, and the run with it; nothing more is said of that run.
- ZFilterDesign.ZFilterFactory.Make: a Bessel order above 10, for which the source reads past its table.
- ZFilter.GuideAlgorithmZFilter.BuildFilter: likewise.
- Controller.PhdController.Guide: the region of interest, which is only handed on, and the text of the refusal.
- EventClient.Guider.HandleEvent: standard deviations appear as their squares.
- AoBump.BumpController.MoveOffset: the move of the unit itself comes before and is not part of it, `xRate()` and the rate in the AO's calibration record are the same number, and the result code is left out.
- AoBump.BumpController.NotifyGuidingStopped: recentring the unit is `StepGuiding.StepGuider.MoveToCenter`.
- Aggression and fast-switch setters of the resist-switch algorithm: plain fields.
- Order of groups in the store: an arbitrary choice; case folding is ASCII only.
- `ReadProfile` and `WriteProfile` file handling, values other than strings in text form; stores in which two names already clash or the current profile does not exist.
- LineFraming.Conn.ReadLine: returns None when the chunks given end, where the source waits for more; a closed socket is not modelled.
- The C++ client is the twin of the Python one; they differ in that the C++ one takes over the average distance of guide steps outside a window too. The Python one is followed.
