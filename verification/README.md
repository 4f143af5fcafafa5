# PAWS control core in Dafny

This project models the control core of PAWS_Control, the controller of a quadruped robot that has pressure-sensing feet. Each leg has one actuator on a Moteus bus. The legs are FR, FL, RR and RL, with controller ids 1 to 4. The project proves properties of the model.

- **`Reflex` (paws.dfy)**: the PAWS reflex controller.
  - Six synergy lookup tables. Each has 16 rows, one per contact pattern, and each row holds one position per leg.
  - The contact pattern is read from the four contact flags as a 4-bit index.
  - Contact flags come from pressure readings, with a strict per-leg threshold.
  - Commands are selected by mode. The model also covers the recovery override for a stalled RR leg and the zero-position sentinel.
  - One tick of `update` is a sequence of bus round trips. The bus is a call trace plus a reply oracle.
  - In a table mode, `get_commands` returns a numpy view into the table. So the recovery write of position 3 for FR lands in the table itself and stays there for later ticks. The model reproduces this and proves both that it persists and what it does to the AMPLIFY table.
- **`Sine` (sine_network.dfy)**: the sine synergy generator.
  - A touchdown of RR (a rising edge of its contact flag) latches a start time.
  - From then on, each joint rests at its offset until its delay has passed. It then runs one sine burst that starts and ends at the offset, and rests again afterwards.
- **`Hopf` (hopf_network.dfy)**: the Hopf oscillator network.
  - The gait phase-offset matrices.
  - The Euler integration loop with phase wrapping into [0, 2π).
  - The joint drive.
  - `sin` is an uninterpreted function. In the source the Euler step sits inside the leg loop, so one call steps the amplitude of leg j 4 − j times. The model keeps this and proves it.
- **`Logger` (data_logger.dfy)**: the CSV data logger. It covers registering fields, setting them (with optional rounding), validating a line before it is written, and building the file name. The stored prefix is rewritten in place: with a non-empty prefix, each generated name gains one more "_"; an empty prefix and explicit names leave it as it is.
- **`Footfall` (footfall.dfy)**: the footfall utilities of the analysis scripts plot_average_footfall.py, plot_pressure_debouncing.py and plot_gait_ratios.py.
  - Rising-edge detection.
  - Per-period slicing with Python's slice semantics.
  - Pressure debouncing, plain and exponentially smoothed.
  - Padding and flattening, including the proof that the flattened debounced series is exactly as long as the data.
- **`Wrappers` (wrappers.dfy)**: `Option`, `Result` and `Outcome`. Python's `None` and raised exceptions are modelled with these.

Floats are modelled as `real`. Two facts about the code shape several rows below:

- The AMPLIFY table drives only RR when FR and RR are both down: row 10 is `[0, 0, 1, 0]` (cpg_control/PAWS.py:44-59).
- A leg whose position is 0 is still sent a `set_position`, with torque ceiling 0 (cpg_control/PAWS.py:256-268).

## Model

| member | source | states |
|---|---|---|
| Reflex.ZeroTable | cpg_control/PAWS.py:27 | the 16×4 table of zeros that `__init__` starts from (and keeps in PASSIVE and unknown modes) |
| Reflex.SynergyTable | cpg_control/PAWS.py:36-174 | a table exists exactly for the six LUT modes; each is 16×4 and drives only rows 2, 8 and 10 (RR alone, FR alone, FR and RR) in columns FR and RR |
| Reflex.ContactPattern | cpg_control/PAWS.py:177-181 | the LUT index is 8·FR + 4·FL + 2·RR + RL, below 16 |
| Reflex.ContactPatternBijective | cpg_control/PAWS.py:177-181 | contact flags and LUT index convert both ways without loss: the 16 rows are the 16 contact patterns |
| Reflex.ContactFlags | cpg_control/PAWS.py:210-215 | a listed leg is in contact exactly when its pressure is strictly above its threshold (104, 104, 102.2, 104); unlisted legs keep their flag |
| Reflex.ContactThresholdStrict | cpg_control/PAWS.py:212 | a pressure equal to the threshold reads as no contact |
| Reflex.GetCommands | cpg_control/PAWS.py:218-225 | a LUT mode selects the table row of the current contact pattern and the configured torque ceiling; PASSIVE and unknown modes give zero positions and torque 0 |
| Reflex.AmplifyCommands | cpg_control/PAWS.py:44-59 | under AMPLIFY: RR alone folds FR and RR back (−1), FR alone extends both (+1), FR and RR together extend RR only, every other pattern commands nothing |
| Reflex.Bus.SetRecapturePositionVelocity | cpg_control/PAWS.py:259 | the recapture request is appended to the bus trace |
| Reflex.Bus.SetPosition | cpg_control/PAWS.py:261-268 | the position command is appended to the bus trace and the reply is the bus's telemetry for that call |
| Reflex.PositionIdsAppend | cpg_control/PAWS.py:236-268 | the controllers commanded by two traces in a row are those of the first, then those of the second |
| Reflex.Paws.constructor | cpg_control/PAWS.py:8-30 | an argument left out takes its keyword default (AMPLIFY, recovery off, acceleration limit 30, velocity limit 20, torque ceiling 3, controllers 1 to 4), so a controller built as the control scripts build it has the override off; flags false, pressures 0, no telemetry; the table is the mode's synergy table unless the mode is PASSIVE or unknown, where it stays zero |
| Reflex.Paws.SetLut | cpg_control/PAWS.py:36-174 | a LUT mode installs its table; any other mode leaves the table as it was |
| Reflex.Paws.GetLutIndex | cpg_control/PAWS.py:177-181 | the loop's sum is the contact pattern of the current flags |
| Reflex.Paws.UpdateFootContact | cpg_control/PAWS.py:210-215 | the flags become the threshold test of the stored pressures for the listed ids |
| Reflex.Paws.GetState | cpg_control/PAWS.py:227-228 | the stored telemetry of the four legs and their contact flags |
| Reflex.Paws.LegStep | cpg_control/PAWS.py:236-271 | one pass of the leg loop as a function of the state so far; its result is a well-formed state (what it does is stated by the lemmas below) |
| Reflex.Paws.RunLegs | cpg_control/PAWS.py:236-271 | the leg loop over the listed ids in order; its result is a well-formed state |
| Reflex.Paws.CommandLeg | cpg_control/PAWS.py:239-271 | the table, telemetry, pressures and bus trace after one leg are exactly those of LegStep |
| Reflex.Paws.Update | cpg_control/PAWS.py:231-271 | the flags are refreshed from the previous pressures first, then every listed leg is commanded in order, as RunLegs |
| Reflex.Paws.LegStepCalls | cpg_control/PAWS.py:256-268 | one leg adds one `set_position` for its own id, preceded by a recapture exactly when its position is nonzero; a zero position goes out with torque ceiling 0 |
| Reflex.Paws.LegStepRespectsSentinel | cpg_control/PAWS.py:256-259 | one leg keeps the trace invariant: zero positions carry zero torque, nonzero positions are preceded by a recapture of the same leg |
| Reflex.Paws.LegStepReadings | cpg_control/PAWS.py:261-271 | one leg stores, as its state, the bus's reply to its own `set_position` (the last call it made) and that reply's temperature register as its pressure; the other legs' states, pressures and last replies are unchanged |
| Reflex.Paws.LegStepPositionIds | cpg_control/PAWS.py:261-268 | one leg appends exactly its own id to the list of commanded controllers |
| Reflex.Paws.TickRespectsSentinel | cpg_control/PAWS.py:236-268 | a whole tick keeps the trace invariant |
| Reflex.Paws.TickCommandsEveryId | cpg_control/PAWS.py:236-268 | a tick sends one position command per listed id, in the order listed, and no other |
| Reflex.Paws.LastReplyIsLast | cpg_control/PAWS.py:261-268 | LastReply is the reply the bus gave to the last `set_position` for a controller in a trace: None exactly when it was never commanded, otherwise the oracle's reply at a call for that id with no later call for it |
| Reflex.Paws.TickStoresReadings | cpg_control/PAWS.py:261-271 | after a tick every listed leg holds the bus's reply to the last `set_position` sent to it and the pressure read from that reply's temperature register; unlisted legs keep both |
| Reflex.Paws.PlainStepWithoutRecovery | cpg_control/PAWS.py:239-268 | without the override, a leg gets the selected position and ceiling (0 at position 0) and the table is unchanged |
| Reflex.Paws.RecoveryWritePersists | cpg_control/PAWS.py:241-254 | when the override fires in a LUT mode, FR is sent to 3 with ceiling 4; the 3 stays in the table row of the current pattern and nothing else in the table changes |
| Reflex.Paws.RecoveryCommand | cpg_control/PAWS.py:240-268 | while the override fires every leg goes out with torque ceiling 4 (0 at position 0): FR at position 3, any other leg at its selected entry; only FR in a LUT mode changes the table |
| Reflex.Paws.RecoveryInPassive | cpg_control/PAWS.py:240-250 | in PASSIVE the override fires too when recovery is on and RR is stalled: FR goes to 3 with ceiling 4, the other legs to 0 with ceiling 0, and the table is not written because the row is a fresh array of zeros |
| Reflex.Paws.RecoveryCorruptsAmplifyTable | cpg_control/PAWS.py:245-247 | under AMPLIFY with RR stalled in pattern 0011, one tick leaves a 3 in row 3, so the table no longer drives only rows 2, 8 and 10 |
| Wrappers.OrDefault | cpg_control/SineNetwork.py:8-23 | a given argument is used as is; a missing one takes its default (also for the keyword defaults of PAWS and HopfNetwork) |
| Sine.Period | cpg_control/SineNetwork.py:44 | the burst period exists exactly for a nonzero frequency, and period · ω = 2π |
| Sine.LastRise | cpg_control/SineNetwork.py:36-39 | reference definition: the time of the last rising edge of the RR flag; with none, the flag never rose |
| Sine.LatchTracksLastRise | cpg_control/SineNetwork.py:36-39 | over any run of updates the start time is the time of the last rising edge of the RR flag; holding the foot down never re-latches |
| Sine.LatchAllSnoc | cpg_control/SineNetwork.py:36-39 | the latch over a run of updates is the latch of the last update applied to the latch over the earlier ones |
| Sine.SineNetwork.constructor | cpg_control/SineNetwork.py:7-31 | given parameters are stored, missing ones take the defaults; no start time, previous RR flag false |
| Sine.SineNetwork.Command | cpg_control/SineNetwork.py:41-53 | no command (all 0) before the first touchdown; afterwards every joint follows its angle at the time since the touchdown |
| Sine.SineNetwork.Update | cpg_control/SineNetwork.py:33-55 | the start time latches on a rising RR edge, the RR flag is remembered, and the command is Command at the new start time |
| Sine.SineNetwork.RestsBeforeDelay | cpg_control/SineNetwork.py:45-46 | before its delay a joint holds its offset |
| Sine.SineNetwork.BurstStartsAtOffset | cpg_control/SineNetwork.py:47-49 | at the end of its delay a joint is at its offset: the burst starts without a jump |
| Sine.SineNetwork.BurstEndsAtOffset | cpg_control/SineNetwork.py:47-49 | one period later, for a 2π-periodic sine, the joint is back at its offset: the burst ends without a jump |
| Sine.SineNetwork.RestsAfterBurst | cpg_control/SineNetwork.py:50-53 | after the burst a joint holds its offset |
| Sine.SineNetwork.ZeroFrequencyHoldsOffset | cpg_control/SineNetwork.py:44-53 | with ω = 0 (infinite period) a joint holds its offset at all times |
| Sine.SineNetwork.ZeroAmplitudeHoldsOffset | cpg_control/SineNetwork.py:48-53 | with amplitude 0 a joint holds its offset at all times |
| Sine.DefaultsDriveFrOnlyAndRr | cpg_control/SineNetwork.py:8-20 | the defaults drive FR (half a turn) and RR (150°) only, both offset by 0.01, and every default frequency is positive with a period |
| Hopf.CalculatePhi | cpg_control/HopfNetwork.py:35-40 | entry (i, j) is 2π·(F[i] − F[j]) for legs in the sequence, 0 elsewhere |
| Hopf.PhiAntisymmetric | cpg_control/HopfNetwork.py:35-40 | the offset matrix has a zero diagonal and is antisymmetric |
| Hopf.GaitPhi | cpg_control/HopfNetwork.py:51-70 | an offset matrix exists exactly for TROT, PACE, BOUND and WALK |
| Hopf.GaitPhaseRelations | cpg_control/HopfNetwork.py:51-59 | with the oscillators in the order FR, RR, FL, RL of the footfall vectors: TROT keeps oscillators 0 and 2 (and 1 and 3) in phase and half a cycle from each other; PACE pairs 0 with 3 and 1 with 2; BOUND pairs 0 with 1 and 2 with 3; WALK spaces them a quarter cycle apart |
| Hopf.WrapPhase | cpg_control/HopfNetwork.py:121 | `np.mod(x, 2π)` lies in [0, 2π) |
| Hopf.WrapPhaseWholeTurns | cpg_control/HopfNetwork.py:121 | wrapping moves a phase by a whole number of turns: WrapPhase(x) = x + 2π·turns for an integer turns |
| Hopf.WrapPhaseKeepsPrincipal | cpg_control/HopfNetwork.py:121 | a phase already in [0, 2π) is unchanged |
| Hopf.EulerStep | cpg_control/HopfNetwork.py:118 | the step `X + dt·X_dot` of a 4-vector is a 4-vector |
| Hopf.WrapAll | cpg_control/HopfNetwork.py:121 | every wrapped phase lies in [0, 2π) |
| Hopf.SteppedClosedForm | cpg_control/HopfNetwork.py:118 | k Euler steps at a fixed rate advance by k times one step |
| Hopf.WrappedStepTurns | cpg_control/HopfNetwork.py:118-121 | a phase k Euler steps from s up to whole turns, stepped once more at the same rate and wrapped, is k + 1 steps from s up to whole turns |
| Hopf.HopfNetwork.constructor | cpg_control/HopfNetwork.py:6-33 | an argument left out takes its keyword default (μ 1, swing frequency 10π, stance frequency 4π, TROT, α 50, coupling strength 1, coupled, dt 0.001, both amplitudes π/4); the parameters are stored, the gait's offset matrix is selected, and amplitudes, phases and rates start at 0 |
| Hopf.HopfNetwork.SetGait | cpg_control/HopfNetwork.py:42-70 | the four matrices are rebuilt; a known gait selects its matrix, any other is the error "<gait> not implemented." and keeps the old one; the network stays well formed |
| Hopf.HopfNetwork.CouplingVanishesAtRest | cpg_control/HopfNetwork.py:113 | with all amplitudes 0 the coupling sum is 0 |
| Hopf.HopfNetwork.PhaseRate | cpg_control/HopfNetwork.py:107-113 | the phase rate is the stance frequency in contact, the swing frequency otherwise, plus the weighted coupling sum only when coupled |
| Hopf.HopfNetwork.LegPass | cpg_control/HopfNetwork.py:103-121 | one pass of the leg loop gives a well-formed state with every phase in [0, 2π) |
| Hopf.HopfNetwork.Passes | cpg_control/HopfNetwork.py:103-121 | after at least one pass every phase lies in [0, 2π) |
| Hopf.HopfNetwork.Integrated | cpg_control/HopfNetwork.py:100-121 | a call of `integrate_hopf` leaves every phase in [0, 2π) |
| Hopf.HopfNetwork.IntegrateHopf | cpg_control/HopfNetwork.py:100-121 | the state after the loop is Integrated of the state before it |
| Hopf.HopfNetwork.Drive | cpg_control/HopfNetwork.py:76-80 | a leg in contact is driven at the stance amplitude times the sine of its phase, a leg in swing at the swing amplitude |
| Hopf.HopfNetwork.DriveIgnoresContactForEqualAmplitudes | cpg_control/HopfNetwork.py:76-80 | with equal swing and stance amplitudes (both default to π/4) the drive does not depend on contact |
| Hopf.HopfNetwork.Update | cpg_control/HopfNetwork.py:72-81 | integrates first, then drives every leg from its new phase |
| Hopf.HopfNetwork.GetR | cpg_control/HopfNetwork.py:85-86 | the four amplitudes |
| Hopf.HopfNetwork.GetTheta | cpg_control/HopfNetwork.py:89-90 | the four phases |
| Hopf.HopfNetwork.GetRDot | cpg_control/HopfNetwork.py:93-94 | the four amplitude rates of the last call |
| Hopf.HopfNetwork.GetThetaDot | cpg_control/HopfNetwork.py:97-98 | the four phase rates of the last call |
| Hopf.HopfNetwork.LegPassSteps | cpg_control/HopfNetwork.py:105-119 | one pass sets the rates of its own leg only, steps every amplitude with the rates filled so far, and steps and wraps every phase likewise |
| Hopf.HopfNetwork.LegPassAmplitude | cpg_control/HopfNetwork.py:105-118 | the same, for one leg's amplitude and rate |
| Hopf.HopfNetwork.PassesAmplitude | cpg_control/HopfNetwork.py:101-118 | after n passes a leg already reached has the rate of its untouched amplitude and has been stepped n − j times; a leg not yet reached is untouched with rate 0 |
| Hopf.HopfNetwork.AmplitudeSteppedFourMinusJTimes | cpg_control/HopfNetwork.py:103-119 | one call steps the amplitude of leg j 4 − j times, always at the rate α(μ − r²)r of its amplitude before the call |
| Hopf.HopfNetwork.LegPassPhaseRate | cpg_control/HopfNetwork.py:107-115 | one pass sets the phase rate of its own leg from the state so far and keeps the others |
| Hopf.HopfNetwork.LegPassPhase | cpg_control/HopfNetwork.py:117-121 | one pass steps a leg's phase once with the rate it leaves for it, then wraps it |
| Hopf.HopfNetwork.PassesPhase | cpg_control/HopfNetwork.py:103-121 | after n passes a reached leg's phase is n − j steps at the rate set at its own pass, up to whole turns; a leg not yet reached has rate 0 and its phase is unchanged up to whole turns |
| Hopf.HopfNetwork.PhaseSteppedFourMinusJTimes | cpg_control/HopfNetwork.py:103-121 | one call steps the phase of leg j 4 − j times at the rate it records for that leg (an advance of (4 − j)·dt·rate by SteppedClosedForm), up to whole turns; this is the phase `update` feeds to sin |
| Hopf.HopfNetwork.UncoupledPhaseAdvance | cpg_control/HopfNetwork.py:107-121 | without coupling that rate is the bare stance or swing frequency of the leg |
| Hopf.HopfNetwork.RestIsFixedPoint | cpg_control/HopfNetwork.py:100-121 | from all amplitudes 0 (the state `__init__` leaves) amplitudes and their rates stay 0 and each phase runs at its bare stance or swing frequency, coupled or not |
| Hopf.HopfNetwork.PassesAtRest | cpg_control/HopfNetwork.py:100-121 | the same after each pass of the loop |
| Hopf.HopfNetwork.UncoupledPhaseRates | cpg_control/HopfNetwork.py:107-113 | without coupling every phase rate of a call is the leg's stance or swing frequency |
| Hopf.HopfNetwork.UncoupledPasses | cpg_control/HopfNetwork.py:107-115 | the same after each pass; legs not yet reached have rate 0 |
| Hopf.DefaultGaitKnown | cpg_control/HopfNetwork.py:10 | the default gait TROT has an offset matrix |
| Logger.FirstUnset | cpg_control/DataLogger.py:40-42 | the first registered field still unset, in registration order; none exactly when every field has a value |
| Logger.RowOf | cpg_control/DataLogger.py:44-46 | the row written holds the value of every registered field, in registration order |
| Logger.Stored | cpg_control/DataLogger.py:30-34 | the value is rounded only when the field has decimals and the value is a number (bool, int or float); otherwise it is stored unchanged, None included |
| Logger.Created | cpg_control/DataLogger.py:13-18 | an explicit name is used as given and keeps the prefix; otherwise a non-empty prefix gains "_" and the name is prefix, stamp and ".csv" |
| Logger.SecondNameGainsUnderscore | cpg_control/DataLogger.py:14-16 | a second generated name carries "__" where the first carried "_" |
| Logger.EmptyPrefixIsStable | cpg_control/DataLogger.py:14-16 | with an empty prefix every generated name is the stamp and ".csv" |
| Logger.NewFieldBlocksWrite | cpg_control/DataLogger.py:23-42 | a field just added is unset, so no line can be written until it is set |
| Logger.SetFieldKeepsOthers | cpg_control/DataLogger.py:28-34 | setting a field to a value leaves it set and every other field as it was |
| Logger.DataLogger.constructor | cpg_control/DataLogger.py:5-10 | no fields, no values, no decimals, no file name; the given prefix, or the empty default that both control scripts use |
| Logger.DataLogger.CreateFile | cpg_control/DataLogger.py:12-18 | prefix and file name become those of Created; fields and values are unchanged |
| Logger.DataLogger.AddField | cpg_control/DataLogger.py:23-26 | the name is appended (again, if already present), its value reset to None and its decimals recorded |
| Logger.DataLogger.SetField | cpg_control/DataLogger.py:28-36 | a registered field takes the Stored value; any other name is a KeyError naming it and changes nothing |
| Logger.FirstUnsetAt | cpg_control/DataLogger.py:40-42 | the field at which the scan in registration order first meets a None is the one FirstUnset reports, so the error names it |
| Logger.DataLogger.WriteLine | cpg_control/DataLogger.py:38-49 | a ValueError names the first unset field; otherwise the row of all values in field order, or an error when no file was ever created |
| Logger.DataLogger.GetFileName | cpg_control/DataLogger.py:51-52 | None before `create_file`, the name it set afterwards |
| Footfall.TransitionsFrom | cpg_control/plot_average_footfall.py:36 | the rising edges of the contact series from a given index on, increasing |
| Footfall.Transitions | cpg_control/plot_average_footfall.py:36 | exactly the indices k with fc[k] false and fc[k + 1] true, strictly increasing (the same line is plot_pressure_debouncing.py:32 and plot_gait_ratios.py:53) |
| Footfall.SliceIndex | cpg_control/plot_average_footfall.py:53 | a slice bound counts from the end when negative and is clamped into [0, n] |
| Footfall.Slice | cpg_control/plot_average_footfall.py:53 | in-range bounds give the ordinary subsequence; any bounds give at most the whole series |
| Footfall.PeriodStart | cpg_control/plot_average_footfall.py:43-46 | the transition moved back by the offset, clamped at 0 in two scripts and left possibly negative in plot_gait_ratios.py:60 |
| Footfall.CollectPeriods | cpg_control/plot_average_footfall.py:42-57 | one slice per transition but the last, from the period start to the next transition moved back by the offset (also plot_gait_ratios.py:59-71, unclamped) |
| Footfall.FirstRise | cpg_control/plot_average_footfall.py:92-95 | the first sample from a given index that exceeds the first sample by more than the threshold |
| Footfall.FirstDrop | cpg_control/plot_average_footfall.py:96-97 | the first sample from a given index that is back within the threshold |
| Footfall.Run | cpg_control/plot_average_footfall.py:89-99 | the series that is 1 exactly on [s, e) |
| Footfall.Debounced | cpg_control/plot_average_footfall.py:88-100 | the debounced series is as long as the data |
| Footfall.DebouncedShape | cpg_control/plot_average_footfall.py:88-100 | entries are 0 or 1, the first and last are 0, every 1 lies above the threshold, the ones are contiguous, start at the first rise and stop only at a drop or the last sample |
| Footfall.DebouncedRunStart | cpg_control/plot_average_footfall.py:88-100 | no rise gives all zeros; a first rise before the last sample starts the run exactly there |
| Footfall.AssignOnes | cpg_control/plot_average_footfall.py:98-99 | `debounced[lo:hi] = 1` sets exactly [lo, hi) and leaves the rest |
| Footfall.DebouncedFromScan | cpg_control/plot_average_footfall.py:92-99 | where the flag loop stops determines the debounced series |
| Footfall.MarkContact | cpg_control/plot_average_footfall.py:89-99 | the zero series with ones exactly on [contact_start, i) when a contact was found, all zeros otherwise |
| Footfall.DebounceFootContact | cpg_control/plot_average_footfall.py:88-100 | the flag loop with `break` and the slice assignment compute Debounced (the same function is plot_pressure_debouncing.py:113-125) |
| Footfall.Smoothed | cpg_control/plot_gait_ratios.py:105-107 | the smoothed series is as long as the data and keeps its first sample |
| Footfall.SmoothedRecurrence | cpg_control/plot_gait_ratios.py:107 | every later smoothed sample is the previous one times 1 − α plus the raw one times α |
| Footfall.SmoothedUnitAlpha | cpg_control/plot_gait_ratios.py:101 | with the default α = 1 the smoothing is the identity |
| Footfall.DebounceFootContactSmoothed | cpg_control/plot_gait_ratios.py:101-115 | the loop that smooths in place while scanning computes Debounced of the smoothed series |
| Footfall.SmoothedDebounceUnitAlpha | cpg_control/plot_gait_ratios.py:101-115 | with α = 1 the smoothed debounce equals the plain one |
| Footfall.MaxLength | cpg_control/plot_average_footfall.py:104 | the largest row length: no row is longer and some row has it |
| Footfall.PadToMaxLength | cpg_control/plot_average_footfall.py:103-106 | every row is kept as a prefix and padded to the longest length with the pad value; no rows raises |
| Footfall.StartPadding | cpg_control/plot_pressure_debouncing.py:60-64 | zeros as long as the first period start when positive, else none; no transitions raises |
| Footfall.EndPadding | cpg_control/plot_pressure_debouncing.py:66-70 | zeros from the last period start to the end of the data, none when that start is not before the end |
| Footfall.Flatten | cpg_control/plot_pressure_debouncing.py:90-100 | start padding, then every debounced period in order, then end padding |
| Footfall.PeriodSlice | cpg_control/plot_pressure_debouncing.py:38-49 | period k holds the samples from the k-th transition moved back by the offset (clamped to 0) up to the next transition moved back by it, whenever those bounds lie in the data |
| Footfall.DebouncedPeriods | cpg_control/plot_pressure_debouncing.py:37-52 | one period appended per transition but the last |
| Footfall.DebouncedPeriodAt | cpg_control/plot_pressure_debouncing.py:37-57 | the k-th appended period is the debounced slice of period k |
| Footfall.ConcatTelescopes | cpg_control/plot_pressure_debouncing.py:93-97 | periods whose lengths are consecutive gaps concatenate to the whole span |
| Footfall.DebouncedPeriodLength | cpg_control/plot_pressure_debouncing.py:38-57 | a period inside the data is as long as the gap between its transitions, or runs from 0 to the second transition minus the offset when its start was clamped |
| Footfall.FlattenedLengthFromBounds | cpg_control/plot_pressure_debouncing.py:60-102 | padding, periods and padding together are exactly as long as the data for increasing transitions inside it whose second entry is at least the offset |
| Footfall.FlattenedLengthMatchesData | cpg_control/plot_pressure_debouncing.py:102 | the two lengths the script reports agree: with two or more transitions and an offset no larger than the second (an offset past the first makes the first period start at sample 0 with no padding), the flattened series is as long as the data |

## Left out

- The Moteus bus and asyncio: `create_controllers`, `set_zero_position` and the controller objects are not modelled. A bus is a trace of the calls made plus a reply function from call number, id and command to telemetry, which stands in for the hardware.
- The `except: pass` around the recovery test: a missing RR reading is modelled as no stall. Other exceptions a bus call could raise are not modelled.
- `self.power` in PAWS: it is allocated and never used.
- The console messages, all plotting, loading of recorded data, and the `np.mean` averaging and unit scaling of the analysis scripts (floating-point statistics).
- `int(PERIOD_OFFSET / dt)` of the analysis scripts: it is a natural-number parameter, the offset.
- The sample type of the debounced copy: plot_gait_ratios.py smooths a copy that has the data's own dtype. Integer-typed data would truncate there; the model smooths over reals.
- `sin` is uninterpreted in both networks. Its periodicity is required only as the explicit precondition of Sine.SineNetwork.BurstEndsAtOffset. Nothing is claimed about oscillation, convergence to the limit cycle or the gait actually emerging.
- Reflex.Paws.constructor: controller ids must be 1 to 4, because ids outside that range index the four-element arrays from the end or raise.
- Hopf.HopfNetwork.constructor: requires a known gait, because for any other gait `__init__` raises ValueError through `set_gait` and no network exists.
- Sine.SineNetwork.constructor: requires every given parameter list to have at least four entries, because shorter lists raise IndexError in `update`.
- Python's `round(value, decimals)`: it is a function parameter of the logger, so its arithmetic is not modelled.
- Value kinds in the logger: a value is a bool, an int, a float or a string (or None). numpy scalar types are not distinguished.
- File I/O in DataLogger: `create_file` writing the header, `write_line` appending the row, `delete_file`, and the `writer` attribute. Logger.DataLogger.WriteLine stops at the row it would hand to the CSV writer.
- Time stamps: `datetime.now()` in `create_file` is a string parameter.
- The callers at paws_control.py:19 and run_cpg.py:19 unpack three values from `get_state`, which returns two (PAWS.py:227-228). These callers are not part of this model.
