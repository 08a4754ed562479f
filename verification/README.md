# A verified model of LACT's decision logic

LACT is a daemon that configures GPUs and a graphical client for it. This project models the parts of it that
decide something, in Dafny, and proves what they are for.

| file | what it models |
|---|---|
| `CubicSpline.dfy`, `CubicSplineProperties.dfy` | the curve drawn through the samples of a graph: the in-place sweep over a tridiagonal system, the segments, their sampling |
| `PlotData.dfy` | the stored time series and their trimming |
| `ThrottlingBars.dfy` | the bars that mark periods of throttling |
| `FanCurve.dfy`, `FanControl.dfy`, `FanTasks.dfy` | the fan curve, the timed loop over it, and the AMD and Nvidia tasks that run that loop |
| `ClocksConfig.dfy` | clock settings and the commands that edit them |
| `NvidiaOffsets.dfy` | Nvidia clock offsets, with the record the program keeps for drivers that report zero |
| `Config.dfy` | the configuration with its profiles and the edits of them |
| `ConfirmProtocol.dfy`, `ConfirmLimits.dfy`, `ConfirmHandler.dfy` | changes that are applied at once and saved only when confirmed in time: what holds, where it stops, and the object that does it |
| `ProcessIndex.dfy`, `ProfileRules.dfy` | the process table with its index by name, and the rules evaluated on it |
| `ProfileWatcher.dfy`, `WatcherSteps.dfy`, `WatcherHandler.dfy` | automatic profile switching with everything that runs beside it: what holds, stretches of several steps, and the object that does it |
| `WatcherLimits.dfy`, `WatcherRequests.dfy`, `UnsavedEdits.dfy`, `ManualChoice.dfy` | where the promises of profile switching stop: restarts, overlapping requests, edits that could not be saved, and how long a manual choice stays |

Code that changes things step by step is modelled by methods over arrays and object fields; each is proved equal to a
function, and the results are proved about that function. The two protocols are state machines: an action is what the
program does between two points where it may be suspended, and every interleaving of actions is a run. The classes
`ConfirmHandler.Handler` and `WatcherHandler.Daemon` have a method for each action; their methods keep the invariants,
and their `Serve` methods carry the results over to any sequence of calls.

## What holds, and where it stops

* **Spline.** The system that the code solves has the two weights of the usual natural spline exchanged. The curve still
  meets every sample and its second derivative is continuous, but the slope jumps at a sample by
  `(h1 - h0) * (d0 - d2) / 6`, for spacings `h0`, `h1` and outer second derivatives `d0`, `d2`. So the drawn curve is
  smooth for all data exactly when the times are evenly spaced up to the last sample drawn (`CurveSmoothIffEven`). The
  last interval is never drawn; what is drawn elsewhere is stated point by point (`DrawnSpline`).
* **Fans.** With a curve that does not fall, a fixed critical temperature, and the last write that was tried accepted, the
  fan is not slower than the curve asks for at the current temperature less the threshold. Whatever writes fail, the
  hardware holds the PWM of the last write tried if that was accepted, and what it held before otherwise. A failed write
  on AMD hardware is repeated for an unchanged temperature exactly when there is no threshold (`FailedWriteRetriedIff`).
  On Nvidia hardware the fan can be asked for up to 102 percent, and the message "disabling fan control" is not true: the
  `break` only leaves the loop over the fans, and the task goes on.
* **Confirmation.** Under every interleaving a change is saved or taken back at most once, and exactly once when its task
  has ended. Hardware and saved settings agree as long as no edit of a GPU begins while another edit or an unresolved change of it is in progress. This condition is
  exact (`SafeToEditIff`): otherwise some continuation ends with nothing unresolved and the hardware different from what
  is saved, and the program has runs that get there (`DivergenceReached`, `ConcurrentEditsReached`), because it checks
  less: only that no sender is stored. A request to reset the clocks cleans the hardware before even that check. When a
  change of the same GPU is pending, this can leave hardware and saved settings different exactly when the change has
  clock settings and can still be saved (`ResetWhilePendingIff`). When a change of another GPU is pending, it does so at
  once, and until an edit of the GPU is applied, exactly when clock settings are saved for it (`ResetOtherGpuIff`). A
  confirmation that was accepted can still be lost to the timer (`ConfirmSavedIff`, `LostConfirmReached`).
* **Profile switching.** At the head of its loop the watcher finds the right profile active, or a command is coming. This
  needs three things, and each is exact over all continuations. Watchers must not restart themselves in the middle of a
  request (`SafeToRestartIff`). Requests must not overlap unless all of them are manual: exactly so for each state in
  which no watcher is stuck or about to restart (`SafeToBeginIff`), and over all runs (`OverlapSafeIff`). Edits must be
  saved, as one that could not be saved stays in memory without being announced: `UnsavedChangeIff` says when that does
  harm, for every state that the invariant allows, and `UnsavedCreateIff`, `UnsavedDeleteIff`, `UnsavedMoveIff` and
  `UnsavedRuleIff` say it for the four edits. A watcher that restarts itself while five commands wait blocks on its own
  queue, and no watcher works any more; otherwise one can (`RestartWorksIff`, `StuckForEver`, `StuckReached`). A manual
  choice stays current exactly when no watcher is left that can replace it (`ChoiceStaysIff`).
* **Nvidia offsets.** At start-up the record of offsets is empty, so it tells the truth if the driver reports offsets
  truthfully or none is set, and only then (`ConsistentAtStartIff`). From there on the offsets shown are true after any
  operations. Cleaning up drops the record of an offset that cannot be read, although its value stays (`CleanupExact`).

## Model

| member | source | states |
|---|---|---|
| CubicSpline.FillCoefficients | lact-gui/src/app/graphs_window/plot/cubic_spline.rs:52-57 | the arrays hold the weights and right-hand side of every interior row, computed from the samples |
| CubicSpline.EliminateInPlace | lact-gui/src/app/graphs_window/plot/cubic_spline.rs:60-62 | one row is eliminated in place without dividing by zero; no other entry changes |
| CubicSpline.ForwardSweep | lact-gui/src/app/graphs_window/plot/cubic_spline.rs:59-63 | every row is swept, with pivots in (1, 2] and coefficients in (-1, 0] |
| CubicSpline.BackwardSweep | lact-gui/src/app/graphs_window/plot/cubic_spline.rs:65-67 | the in-place loop performs back substitution on the values found before it |
| CubicSpline.SecondDerivatives | lact-gui/src/app/graphs_window/plot/cubic_spline.rs:47-67 | the array left behind solves every interior row of the samples' system and is zero at both ends |
| CubicSpline.BuildSegments | lact-gui/src/app/graphs_window/plot/cubic_spline.rs:72-78 | one segment per interval with the stated coefficients |
| CubicSpline.PairSegments | lact-gui/src/app/graphs_window/plot/cubic_spline.rs:80-86 | pairing neighbours gives n - 2 pieces, each with its own interval and segment |
| CubicSpline.CubicSplineInterpolation | lact-gui/src/app/graphs_window/plot/cubic_spline.rs:28-87 | the result is the curve of a solution of the samples' system, for any number of samples from one on |
| CubicSpline.EliminateRow | lact-gui/src/app/graphs_window/plot/cubic_spline.rs:60-62 | the invariant of the forward sweep is kept: pivot in (1, 2], coefficient in (-1, 0] |
| CubicSpline.SweepSolves | lact-gui/src/app/graphs_window/plot/cubic_spline.rs:59-67 | swept rows with back substitution solve the original rows |
| CubicSpline.SystemMatchesRows | lact-gui/src/app/graphs_window/plot/cubic_spline.rs:52-57 | the divided system has the same solutions as the rows stated without division |
| CubicSpline.SolutionBound | lact-gui/src/app/graphs_window/plot/cubic_spline.rs:59-67 | maximum principle: no entry of a solution exceeds the largest right-hand side |
| CubicSpline.SecondDerivativesUnique | lact-gui/src/app/graphs_window/plot/cubic_spline.rs:47-67 | the samples determine the second derivatives, hence the curve |
| CubicSpline.SecondDerivativesBounded | lact-gui/src/app/graphs_window/plot/cubic_spline.rs:47-67 | the second derivatives are bounded by the largest right-hand side of the samples |
| CubicSplineProperties.TaylorExpansion | lact-gui/src/app/graphs_window/plot/cubic_spline.rs:19-22 | the evaluated polynomial has the slope and curvature used below as its derivatives |
| CubicSplineProperties.SegmentEnds | lact-gui/src/app/graphs_window/plot/cubic_spline.rs:72-78 | a segment meets both of its samples and has the computed second derivatives there |
| CubicSplineProperties.SlopeGapFormula | lact-gui/src/app/graphs_window/plot/cubic_spline.rs:52-78 | the slope jump at a sample is (h1 - h0)(d0 - d2)/6 |
| CubicSplineProperties.JointSmoothIff | lact-gui/src/app/graphs_window/plot/cubic_spline.rs:72-86 | value and second derivative always agree at a joint, so it is smooth exactly when the slope gap is zero |
| CubicSplineProperties.EveryCurvatureOccurs | lact-gui/src/app/graphs_window/plot/cubic_spline.rs:47-67 | any second derivatives with zero ends come from some samples at given times |
| CubicSplineProperties.SlopeContinuousIffEven | lact-gui/src/app/graphs_window/plot/cubic_spline.rs:52-78 | the slope is continuous at a joint for all samples exactly when the joint is evenly spaced |
| CubicSplineProperties.CurveSmoothIffEven | lact-gui/src/app/graphs_window/plot/cubic_spline.rs:28-87 | the drawn curve is twice continuously differentiable for all samples exactly when their times are evenly spaced as far as drawn |
| CubicSplineProperties.LineReproduced | lact-gui/src/app/graphs_window/plot/cubic_spline.rs:28-87 | samples on a straight line are drawn as that line |
| CubicSplineProperties.DrawnPointsContiguous | lact-gui/src/app/graphs_window/plot/render_thread.rs:338-345 | contiguous pieces are drawn once per millisecond, each time on its own piece's cubic |
| CubicSplineProperties.SegmentIsBentChord | lact-gui/src/app/graphs_window/plot/cubic_spline.rs:72-78 | a segment is the chord between its samples, bent by their second derivatives |
| CubicSplineProperties.DrawnSpline | lact-gui/src/app/graphs_window/plot/render_thread.rs:338-345 | every millisecond from the first to before the next-to-last sample is drawn once, in order, with the value of the bent chord between its neighbouring samples |
| CubicSplineProperties.SampleMet | lact-gui/src/app/graphs_window/plot/render_thread.rs:338-345 | at a sample the drawn value is the sample's |
| PlotData.Plot.PushLineSeriesWithTime | lact-gui/src/app/graphs_window/plot/imp.rs:110-120 | appends to the named series, creating it if missing |
| PlotData.Plot.PushSecondaryLineSeriesWithTime | lact-gui/src/app/graphs_window/plot/imp.rs:122-132 | the same on the secondary series |
| PlotData.Plot.PushThrottling | lact-gui/src/app/graphs_window/plot/imp.rs:134-142 | appends a throttling sample and changes nothing else |
| PlotData.Plot.TrimData | lact-gui/src/app/graphs_window/plot/imp.rs:158-192 | keeps the points in the window of each series' newest point and drops series that get empty |
| PlotData.NoEmptySeries | lact-gui/src/app/graphs_window/plot/imp.rs:110-192 | no sequence of pushes and trims leaves an empty series |
| PlotData.AlwaysDrawable | lact-gui/src/app/graphs_window/plot/imp.rs:110-192 | pushes in time order, with any trims between them, keep every series fit for the spline |
| PlotData.TrimIdempotent | lact-gui/src/app/graphs_window/plot/imp.rs:158-192 | trimming keeps the newest point, and trimming again changes nothing |
| PlotData.TrimIsSuffix | lact-gui/src/app/graphs_window/plot/imp.rs:158-192 | points in time order keep exactly the suffix within the window |
| PlotData.PushAppends | lact-gui/src/app/graphs_window/plot/imp.rs:110-132 | a push puts its point behind those of its series and touches nothing else |
| PlotData.PushThrottlingAppends | lact-gui/src/app/graphs_window/plot/imp.rs:134-142 | a throttling sample goes behind the others |
| PlotData.RecentIff | lact-gui/src/app/graphs_window/plot/imp.rs:158-192 | which points the truncating division keeps, in milliseconds, for any window |
| PlotData.TrimKeepsWindow | lact-gui/src/app/graphs_window/plot/imp.rs:158-192 | every series that has points stays, with exactly its points in the window of its newest one, and so does throttling |
| ThrottlingBars.SortSorts | lact-gui/src/app/graphs_window/plot/render_thread.rs:316 | sorting orders the intervals by start and keeps them all |
| ThrottlingBars.CoalesceCovers | lact-gui/src/app/graphs_window/plot/render_thread.rs:317-323 | merging sorted intervals covers the same times and leaves gaps between the results |
| ThrottlingBars.RunsAreMaximal | lact-gui/src/app/graphs_window/plot/render_thread.rs:306-315 | the intervals found are exactly the maximal runs of throttled samples |
| ThrottlingBars.BarsCoverRuns | lact-gui/src/app/graphs_window/plot/render_thread.rs:306-323 | for any times at all, the bars are sorted, disjoint and cover exactly the runs |
| ThrottlingBars.BarsAreMaximalRuns | lact-gui/src/app/graphs_window/plot/render_thread.rs:306-323 | for samples in time order the bars are the maximal runs, and a sample lies in a bar exactly when it is throttled |
| FanCurve.Validate | lact-daemon/src/server/gpu_controller/fan_control.rs:76-83 | accepts exactly the curves whose speeds all lie between 0 and 1 |
| FanCurve.PwmOnPoint | lact-daemon/src/server/gpu_controller/fan_control.rs:27-41 | at a curve point the PWM is 255 times the point's speed, rounded down |
| FanCurve.PwmBetweenPoints | lact-daemon/src/server/gpu_controller/fan_control.rs:32-35 | between two points the PWM is the rounded share on the straight line through them, and lies between theirs |
| FanCurve.PwmOutside | lact-daemon/src/server/gpu_controller/fan_control.rs:36-37 | beyond the curve's ends the PWM is the rounded share of the end point |
| FanCurve.PwmBeyondCrit | lact-daemon/src/server/gpu_controller/fan_control.rs:22-25 | beyond the critical temperature the PWM is 255 |
| FanCurve.TruncateIs | lact-daemon/src/server/gpu_controller/fan_control.rs:27 | the curve is asked at the temperature without its fraction |
| FanCurve.PwmMonotone | lact-daemon/src/server/gpu_controller/fan_control.rs:18-42 | on a nondecreasing curve a hotter GPU never gets a lower PWM, also across the critical temperature |
| FanCurve.PmfwCurveFits | lact-daemon/src/server/gpu_controller/fan_control.rs:44-72 | conversion for the firmware fails exactly on a wrong point count or fixed curve; otherwise it keeps temperatures, minimum and order |
| FanCurve.PmfwCurveInRange | lact-daemon/src/server/gpu_controller/fan_control.rs:58-66 | each point of a validated curve gets its rounded share of the firmware's maximum, or the minimum if that is more |
| FanControl.Decide | lact-daemon/src/server/gpu_controller/amd.rs:250-267 | only a lower PWM is ever delayed |
| FanControl.TickRecordsIff | lact-daemon/src/server/gpu_controller/amd.rs:250-270 | a tick records the curve's answer exactly when the temperature is at or beyond the threshold, on either side, and a lower PWM is not within the delay; otherwise it changes nothing |
| FanControl.IdleChangesNothing | lact-daemon/src/server/gpu_controller/amd.rs:250-267 | over a run of readings within the threshold or delayed, the memory stays |
| FanControl.FirstChangeRecorded | lact-daemon/src/server/gpu_controller/amd.rs:250-270 | the first other reading after them is recorded |
| FanControl.RunOnCurve | lact-daemon/src/server/gpu_controller/amd.rs:233-271 | the recorded PWM is always the curve's value at the recorded temperature |
| FanControl.NeverFarBelowCurve | lact-daemon/src/server/gpu_controller/amd.rs:233-271 | after every tick the recorded PWM is at least what the curve asks for at the temperature less the threshold |
| FanControl.SpindownRateLimit | lact-daemon/src/server/gpu_controller/amd.rs:258-270 | k lowerings take at least k spin-down delays since the first record |
| FanControl.SettledStays | lact-daemon/src/server/gpu_controller/amd.rs:250-270 | at a constant temperature a settled loop stays settled |
| FanControl.UnsettledWaits | lact-daemon/src/server/gpu_controller/amd.rs:258-267 | a loop that is not settled has recorded nothing and is within its delay |
| FanControl.SettlesInTime | lact-daemon/src/server/gpu_controller/amd.rs:233-271 | at a constant temperature the loop settles within ceil(delay / interval) + 1 ticks |
| FanTasks.AmdFanTask.Tick | lact-daemon/src/server/gpu_controller/amd.rs:233-286 | one pass through the AMD loop body, with the device's answer to the write |
| FanTasks.AmdTickIs | lact-daemon/src/server/gpu_controller/amd.rs:250-285 | what a tick leaves in memory and hardware and whether the task goes on, for idle and other readings and for both answers of the device |
| FanTasks.AmdIdle | lact-daemon/src/server/gpu_controller/amd.rs:250-267 | over a run of idle readings the hardware and all else stay |
| FanTasks.AmdFollowsLoop | lact-daemon/src/server/gpu_controller/amd.rs:233-286 | while it runs, the AMD task remembers what the shared loop does |
| FanTasks.AmdHardwareIs | lact-daemon/src/server/gpu_controller/amd.rs:233-286 | after every run, whatever writes fail, the recorded PWM is that of the last write tried, and the hardware holds it if that was accepted, else what it held before |
| FanTasks.AmdFanSafe | lact-daemon/src/server/gpu_controller/amd.rs:233-286 | whenever the last write tried was accepted, the PWM in the hardware is at least what the curve asks for less the threshold |
| FanTasks.FailedWriteRetriedIff | lact-daemon/src/server/gpu_controller/amd.rs:269-285 | a failed write is repeated for the same temperature exactly when there is no threshold |
| FanTasks.AmdRunningIff | lact-daemon/src/server/gpu_controller/amd.rs:274-285 | the task runs exactly when nothing was recorded or some write was accepted |
| FanTasks.NvidiaFanTask.Tick | lact-daemon/src/server/gpu_controller/nvidia.rs:106-155 | one pass through the Nvidia loop body, which refuses no later tick after a failed write |
| FanTasks.NvidiaTickIs | lact-daemon/src/server/gpu_controller/nvidia.rs:117-154 | an idle reading changes nothing; on any other the curve's answer is recorded and the fans before the first refusal get its percentage |
| FanTasks.NvidiaFanTask.WriteFans | lact-daemon/src/server/gpu_controller/nvidia.rs:146-154 | fans are written in order up to the first that refuses |
| FanTasks.NvidiaFollowsLoop | lact-daemon/src/server/gpu_controller/nvidia.rs:106-155 | whatever writes fail, the Nvidia task remembers what the shared loop does |
| FanTasks.NvidiaFansAre | lact-daemon/src/server/gpu_controller/nvidia.rs:106-155 | after every run each fan runs at the speed last tried if the writes reached it, else as before |
| FanTasks.NvidiaFanSafe | lact-daemon/src/server/gpu_controller/nvidia.rs:106-155 | every fan that the last writes reached runs at least at the percentage that the curve asks for less the threshold |
| FanTasks.FanPercentBound | lact-daemon/src/server/gpu_controller/nvidia.rs:149 | the percentage is two fifths of the PWM, rounded down: at most 102, and above 100 exactly for PWM values from 253 |
| FanTasks.ThresholdKeptIff | lact-daemon/src/server/gpu_controller/nvidia.rs:104 | a threshold survives the conversion to 32 bits exactly when it fits |
| ClocksConfig.Gpu.ApplyClocksCommand | lact-daemon/src/config.rs:131-163 | a command changes exactly its setting; Reset clears all |
| ClocksConfig.Gpu.BatchSetClocksValue | lact-daemon/src/server/handler.rs:525-537 | a batch applies its commands in order |
| ClocksConfig.AppliedOne | lact-daemon/src/config.rs:131-163 | the effect of one command on every setting |
| ClocksConfig.LastWriterWins | lact-daemon/src/server/handler.rs:531-533 | the last command for a setting or Reset decides its value |
| ClocksConfig.UntouchedKept | lact-daemon/src/server/handler.rs:531-533 | a setting without command or Reset keeps its value |
| ClocksConfig.SameSettings | lact-daemon/src/config.rs:131-163 | the settings looked at are all there is to a clock configuration |
| NvidiaOffsets.NvidiaGpu.CleanupClocks | lact-daemon/src/server/gpu_controller/nvidia.rs:621-655 | cleans the supported offsets in order until a write fails |
| NvidiaOffsets.NvidiaGpu.CleanupKey | lact-daemon/src/server/gpu_controller/nvidia.rs:627-649 | resets one readable offset that is reported or recorded as nonzero, and drops its record |
| NvidiaOffsets.NvidiaGpu.ApplyOffsets | lact-daemon/src/server/gpu_controller/nvidia.rs:551-583 | sets and records the configured offsets of one clock until one fails |
| NvidiaOffsets.NvidiaGpu.ApplyConfig | lact-daemon/src/server/gpu_controller/nvidia.rs:549-583 | clean-up, then the graphics offsets, then the memory offsets, ending at the first failure |
| NvidiaOffsets.NvidiaGpu.GetClocksInfo | lact-daemon/src/server/gpu_controller/nvidia.rs:446-494 | lists exactly the supported readable offsets, with the record in place of a reported zero |
| NvidiaOffsets.ConsistentAtStartIff | lact-daemon/src/server/gpu_controller/nvidia.rs:627-649 | the empty record is consistent exactly when the driver is truthful or no readable offset is set |
| NvidiaOffsets.CleanKeysEffect | lact-daemon/src/server/gpu_controller/nvidia.rs:625-651 | consistency is kept, other offsets are untouched, and success zeroes the readable ones |
| NvidiaOffsets.CleanupExact | lact-daemon/src/server/gpu_controller/nvidia.rs:621-655 | a successful clean-up zeroes what can be read, keeps the rest and empties the record |
| NvidiaOffsets.KeysInOrder | lact-daemon/src/server/gpu_controller/nvidia.rs:625-626 | the clean-up takes each performance state in turn, graphics before memory |
| NvidiaOffsets.CleanupEnds | lact-daemon/src/server/gpu_controller/nvidia.rs:621-655 | a clean-up succeeds exactly when all its writes are accepted; up to the first refused one keys are clean, and all others are untouched |
| NvidiaOffsets.ApplyExact | lact-daemon/src/server/gpu_controller/nvidia.rs:549-583 | a successful apply leaves every supported readable offset as configured, or zero |
| NvidiaOffsets.ApplyEntriesEnd | lact-daemon/src/server/gpu_controller/nvidia.rs:551-566 | entries are set and recorded in order; all are exactly when every number names a state and every write is accepted |
| NvidiaOffsets.ApplyEnds | lact-daemon/src/server/gpu_controller/nvidia.rs:549-583 | an apply succeeds exactly when every configured number names a state and every write made is accepted; before a failure the earlier entries are set and recorded, and the rest is as the clean-up left it |
| NvidiaOffsets.RunConsistent | lact-daemon/src/server/gpu_controller/nvidia.rs:549-655 | every sequence of applies and clean-ups, with any failed writes, keeps record and hardware consistent |
| NvidiaOffsets.ShownAndAppliedAreTrue | lact-daemon/src/server/gpu_controller/nvidia.rs:446-655 | after any such sequence the shown offsets are the true ones, and the next successful apply sets exactly its configuration |
| ProcessIndex.ProfileWatcherState.PushProcess | lact-schema/src/profiles.rs:15-30 | adds or replaces a process in the table and its index |
| ProcessIndex.ProfileWatcherState.RemoveProcess | lact-schema/src/profiles.rs:32-44 | removes a process; returns it exactly when it was the last of its name |
| ProcessIndex.PushReplaces | lact-schema/src/profiles.rs:15-30 | reusing a pid is removing it and adding it again |
| ProcessIndex.PushKeepsIndexed | lact-schema/src/profiles.rs:15-30 | adding keeps the index the inverse of the table |
| ProcessIndex.DropKeepsIndexed | lact-schema/src/profiles.rs:32-44 | removing keeps the index the inverse of the table |
| ProcessIndex.EventsKeepIndexed | lact-daemon/src/server/profiles.rs:217-253 | so does any sequence of process and gamemode events |
| ProcessIndex.TableHolds | lact-daemon/src/server/profiles.rs:217-244 | after any events the table holds exactly the processes whose last event is a start that could be read, with what was read, and those from before that no event is about |
| ProcessIndex.GamesHold | lact-daemon/src/server/profiles.rs:245-250 | the same for the processes that gamemode is active for |
| ProcessIndex.LookupAgrees | lact-schema/src/profiles.rs:15-44 | after any events, a pid is indexed under a name exactly when the last event about it is a start of a process of that name |
| ProfileRules.ContainsIff | lact-daemon/src/server/profiles.rs:310 | a filter matches a command line exactly when it occurs in it anywhere |
| ProfileRules.MatchesIff | lact-daemon/src/server/profiles.rs:301-345 | what each form of rule asks of processes, command lines and games |
| ProfileRules.LookupMatchesScan | lact-daemon/src/server/profiles.rs:301-345 | evaluation through the index agrees with a scan over all processes, for every form of rule |
| ProfileRules.ProfileRuleMatches | lact-daemon/src/server/profiles.rs:301-345 | the rule is matched as by a scan, and an indexed process is never missing from the table |
| ProfileRules.EvaluateCurrentProfile | lact-daemon/src/server/profiles.rs:288-299 | the result is the first profile, in order, with a matching rule |
| ProfileRules.FirstMatchIs | lact-daemon/src/server/profiles.rs:288-299 | what being the first match means, position by position |
| ProfileRules.FirstMatchNamed | lact-daemon/src/server/profiles.rs:288-299 | a chosen profile exists |
| Config.ConfigHolder.InsertGpu | lact-daemon/src/config.rs:296-307 | stores settings in the current profile, or reports that it does not exist |
| Config.ConfigHolder.CreateProfile | lact-daemon/src/server/handler.rs:791-805 | creates a profile at the end; fails if the name is taken or the base is missing, and, with the profile left in memory, if saving fails |
| Config.ConfigHolder.ShiftRemoveProfile | lact-daemon/src/server/handler.rs:819-823 | removes a profile and keeps the order of the others |
| Config.ConfigHolder.MoveProfile | lact-daemon/src/server/handler.rs:835-850 | swaps two positions; fails for an unknown name or position, and, with the swap left in memory, if saving fails |
| Config.ConfigHolder.SetProfileRule | lact-daemon/src/server/handler.rs:860-873 | sets the rule of one profile; fails for an unknown name, and, with the rule left in memory, if saving fails |
| Config.InsertThenLookup | lact-daemon/src/config.rs:282-307 | stored settings are found again, no other profile changes, and the automatic choice stays |
| Config.CreatedFrom | lact-daemon/src/server/handler.rs:798-803 | a new profile is empty, or has the default settings, or the settings and rule of the profile it is based on, and leaves the others alone |
| Config.DeletedIs | lact-daemon/src/server/handler.rs:819-823 | deleting takes out one profile and keeps the others, settings and all, in order |
| Config.RuleSetIs | lact-daemon/src/server/handler.rs:865-871 | setting a rule changes nothing else, and nothing at all for an unknown name |
| Config.CreateNeverSwitches | lact-daemon/src/server/handler.rs:791-805 | creating a profile never changes the automatic choice |
| Config.DeleteSwitchesIff | lact-daemon/src/server/handler.rs:819-823 | deleting a profile changes the automatic choice exactly when it is the chosen one |
| Config.MoveIsInvertible | lact-daemon/src/server/handler.rs:848 | moving loses nothing and can be undone by the same move |
| Config.MoveSwitchesIff | lact-daemon/src/server/handler.rs:839-848 | exactly when moving a profile changes the automatic choice |
| Config.RuleSwitchesIff | lact-daemon/src/server/handler.rs:865-871 | exactly when setting a rule changes the automatic choice |
| ConfirmProtocol.ExactlyOneOutcome | lact-daemon/src/server/handler.rs:285-337 | under every interleaving a change is saved or taken back at most once, exactly once when it has ended, and saved only if Confirm came through its own channel |
| ConfirmProtocol.OthersCanProceed | lact-daemon/src/server/handler.rs:285-337 | only the change whose sender is stored may have to wait for its timer |
| ConfirmProtocol.OutcomeAlways | lact-daemon/src/server/handler.rs:237-337 | the invariant of channels, phases and effects in every reachable state |
| ConfirmProtocol.StepKeepsSettled | lact-daemon/src/server/handler.rs:232-340 | every step allowed in a serial execution keeps hardware and saved settings in step |
| ConfirmProtocol.HardwareMatchesSaved | lact-daemon/src/server/handler.rs:232-340 | with nothing unresolved the hardware is as saved; while a change is, the hardware is new and the rollback target is what is saved |
| ConfirmLimits.SafeToEditIff | lact-daemon/src/server/handler.rs:237-246 | after an edit begins, hardware and saved settings of its GPU stay in step in every serial continuation exactly when no other edit of it is in progress and no change of it is unresolved |
| ConfirmLimits.UnresolvedIsUnsafe | lact-daemon/src/server/handler.rs:285-337 | an edit begun while a change is unresolved has a continuation that ends with nothing unresolved and hardware and saved settings different |
| ConfirmLimits.EditingIsUnsafe | lact-daemon/src/server/handler.rs:237-260 | so has an edit begun while another one is in progress |
| ConfirmLimits.DivergenceReached | lact-daemon/src/server/handler.rs:237-337 | from every start the program has a run that ends so, by an edit begun after a change was confirmed but before it is saved |
| ConfirmLimits.ConcurrentEditsReached | lact-daemon/src/server/handler.rs:237-260 | and one by two edits that begin before either is applied |
| ConfirmLimits.ConfirmSavedIff | lact-daemon/src/server/handler.rs:299-308 | a change whose Confirm was accepted ends saved in every continuation without its timer running out exactly when that has not run out already |
| ConfirmLimits.LostConfirmReached | lact-daemon/src/server/handler.rs:299-308 | from every start there is a run in which a change with an accepted Confirm is taken back |
| ConfirmLimits.ResetWhilePendingIff | lact-daemon/src/server/handler.rs:509-523 | after a reset refused for a pending change of the same GPU, some serial continuation ends with hardware and saved settings different exactly when the change has clock settings and can still be saved |
| ConfirmLimits.ResetOtherGpuIff | lact-daemon/src/server/handler.rs:514-520 | after a reset refused for a pending change of another GPU, and until an edit is applied, hardware and saved settings differ exactly when clock settings are saved |
| ConfirmLimits.LostClocksReached | lact-daemon/src/server/handler.rs:509-523 | from every start with saved clock settings there is a run in which a refused reset takes them from the hardware |
| ConfirmHandler.Handler.BeginEdit | lact-daemon/src/server/handler.rs:237-246 | an edit is refused exactly while some change has its sender stored |
| ConfirmHandler.Handler.ReadConfig | lact-daemon/src/server/handler.rs:248-256 | the new settings are an edited copy of the saved ones, which become the rollback target |
| ConfirmHandler.Handler.ApplyEdit | lact-daemon/src/server/handler.rs:260-274 | a successful apply starts a change, a failed one applies the previous settings again |
| ConfirmHandler.Handler.WaitConfigConfirm | lact-daemon/src/server/handler.rs:278-340 | stores the sender of the new change, dropping one that was stored |
| ConfirmHandler.Handler.ConfirmPendingConfig | lact-daemon/src/server/handler.rs:893-905 | succeeds exactly when the answer reaches a change that still waits |
| ConfirmHandler.Handler.TaskWakes | lact-daemon/src/server/handler.rs:299-308 | a change goes on to be saved only on its own Confirm |
| ConfirmHandler.Handler.TaskActs | lact-daemon/src/server/handler.rs:300-330 | saves the new settings or applies the previous ones, and is the first and only effect of the change |
| ConfirmHandler.Handler.TaskEnds | lact-daemon/src/server/handler.rs:333-336 | clears the stored sender even if it belongs to another change |
| ConfirmHandler.Handler.Serve | lact-daemon/src/server/handler.rs:232-340 | any run of the methods leaves every ended change with exactly one effect, and, if serial, GPUs without unresolved change in step |
| ProfileWatcher.StepKeepsInv | lact-daemon/src/server/profiles.rs:39-285 | every regular step of watchers, requests and edits keeps the invariant that ties profile, table, lock, senders and queues |
| ProfileWatcher.StepKeepsLed | lact-daemon/src/server/handler.rs:216-230 | a watcher that can act is the stored one, has been told to stop, or is waited for by a stuck one |
| ProfileWatcher.EvaluatedIs | lact-daemon/src/server/profiles.rs:255-272 | an update evaluates to the first match, as the table is indexed |
| ProfileWatcher.CurrentIsFirstMatch | lact-daemon/src/server/profiles.rs:123-207 | at the head of the loop the current profile is the first match and exists, or a command waits or is on its way |
| ProfileWatcher.OneWatcherWorks | lact-daemon/src/server/profiles.rs:45 | two watchers never work at the same time |
| WatcherSteps.Updates | lact-daemon/src/server/profiles.rs:255-285 | an update that is not interrupted activates the first match and changes nothing else |
| WatcherSteps.WorksOff | lact-daemon/src/server/profiles.rs:131-140 | a watcher that was told to stop can work off its queue up to that command, and leaves |
| WatcherSteps.ChoiceTaken | lact-daemon/src/server/handler.rs:778-785 | a request for a profile that does not exist ends and leaves the current one; any other goes on to make its choice current |
| WatcherLimits.SafeToRestartIff | lact-daemon/src/server/profiles.rs:203-206 | after a restart every watcher is up to date at the head of its loop in every continuation exactly when no request is in progress |
| WatcherLimits.BadRestartReached | lact-daemon/src/server/handler.rs:764-786 | from a start without profiles there is a run, with a restart during a request of any kind, that ends with a watcher unaware of a wrong profile |
| WatcherLimits.OverlapSafeIff | lact-daemon/src/server/handler.rs:759-776 | two requests may overlap, in every run and continuation, exactly when both are manual |
| WatcherRequests.ReachesHead | lact-daemon/src/server/profiles.rs:121-207 | a watcher that works has a continuation, without anybody else, to the head of its loop |
| WatcherRequests.SafeToBeginIff | lact-daemon/src/server/handler.rs:759-776 | from a state without a watcher that is stuck or about to restart, a request keeps every watcher up to date in all continuations exactly when no other is in progress or all are manual |
| UnsavedEdits.PromiseIff | lact-daemon/src/server/profiles.rs:255-285 | for any state with the rest of the invariant, all continuations keep every watcher up to date exactly when each watcher unaware of changes ends its update well |
| UnsavedEdits.UnsavedChangeIff | lact-daemon/src/server/handler.rs:803-812 | an edit that could not be saved does no harm in any continuation exactly when it suits what each watcher unaware of it has picked |
| UnsavedEdits.UnsavedRemoveIff | lact-daemon/src/server/handler.rs:816-825 | the same for a removal after the current profile was unset |
| UnsavedEdits.UnsavedCreateIff | lact-daemon/src/server/handler.rs:791-805 | a new profile does harm only when an unaware watcher is about to check a choice of that name |
| UnsavedEdits.UnsavedMoveIff | lact-daemon/src/server/handler.rs:835-850 | a move does harm exactly when it matters to which matching profile comes first and a watcher is unaware |
| UnsavedEdits.UnsavedRuleIff | lact-daemon/src/server/handler.rs:860-873 | a rule does harm exactly when no earlier profile matches, the profile's own match changes, and a watcher is unaware |
| UnsavedEdits.UnsavedDeleteIff | lact-daemon/src/server/handler.rs:815-825 | a deletion does harm exactly when a watcher is unaware, the profile was the right one, and the watcher writes it or what is left is not right |
| UnsavedEdits.UnsavedEditReached | lact-daemon/src/server/profiles.rs:256-274 | there is a run in which an edit fails between evaluating and comparing, and the watcher overlooks it |
| ManualChoice.ChoiceStaysIff | lact-daemon/src/server/handler.rs:764-786 | a manual choice stays current, without further requests or edits, exactly when no watcher that works or waits can still write something else |
| WatcherLimits.RestartWorksIff | lact-daemon/src/server/handler.rs:216-230 | after a restart some continuation brings a watcher to the head of its loop exactly when the stored watcher's queue was not full |
| WatcherLimits.StuckForEver | lact-daemon/src/server/profiles.rs:203-206 | after that no watcher takes a step again |
| WatcherLimits.StuckReached | lact-daemon/src/server/profiles.rs:141-206 | there is a run in which a watcher gets stuck: the gamemode daemon starts and five edits are announced |
| WatcherHandler.Daemon.LoadProcesses | lact-daemon/src/server/profiles.rs:47-121 | fills and publishes a new table |
| WatcherHandler.Daemon.UpdateProfile | lact-daemon/src/server/profiles.rs:255-285 | an update that is not interrupted activates the first match and keeps the invariant |
| WatcherHandler.Daemon.EvaluateRules | lact-daemon/src/server/profiles.rs:256-272 | the first part of an update finds the first match |
| WatcherHandler.Daemon.ContinueUpdate | lact-daemon/src/server/profiles.rs:274-284 | the rest of an update, cut where it may be suspended |
| WatcherHandler.Daemon.ReceiveCommand | lact-daemon/src/server/profiles.rs:133-140 | Stop ends the watcher, Update starts an update |
| WatcherHandler.Daemon.HandleProfileEvent | lact-daemon/src/server/profiles.rs:217-253 | a start adds or replaces a process, an exit removes it, gamemode events do so for games, the index is kept, and the start of the gamemode daemon asks for a restart |
| WatcherHandler.Daemon.Restart | lact-daemon/src/server/profiles.rs:203-209 | stops the stored watcher, starts a new one and leaves, or blocks |
| WatcherHandler.Daemon.StopProfileWatcher | lact-daemon/src/server/handler.rs:216-221 | the Stop command enters the queue of a watcher that still listens |
| WatcherHandler.Daemon.StartProfileWatcher | lact-daemon/src/server/handler.rs:223-230 | a new watcher is stored and waits for the lock; no other request is then in progress |
| WatcherHandler.Daemon.ChooseProfile | lact-daemon/src/server/handler.rs:778-781 | a request for a profile that does not exist ends |
| WatcherHandler.Daemon.AnnounceEdit | lact-daemon/src/server/handler.rs:807-810 | an edit announces itself to the watcher stored at that time |
| WatcherHandler.Daemon.Serve | lact-daemon/src/server/profiles.rs:123-207 | after any run of the methods, a watcher at the head of its loop has the first match active or a command coming |

## Left out

- Floating point: numbers are `real`, so rounding, NaN and overflow to infinity are not modelled. Conversions to integers are: they truncate, and saturate for bytes; the saturation of a temperature at 32 bits is not.
- Spline on repeated times: the code divides by a zero spacing then, so the model asks for strictly increasing times, as `AlwaysDrawable` shows them to be when pushes are. It also asks for at least one sample, which the code needs too and `NoEmptySeries` provides.
- Clocks of the plot functions without a time argument, and the series names of the throttling bars, which are not drawn.
- Fan curve without points: the code panics, so `PwmAtTemp` requires a point. A missing temperature, which is a panic too, is not modelled.
- Fan loop timing: readings come with the time they were taken; sleeping between ticks and the notification that ends a task are left out. Time differences saturate at zero.
- Settings of Nvidia GPUs other than offsets: the power cap before and the fan part after them in `apply_config`.
- Nvidia record of offsets: the nested map by clock and performance state is one map by both. Numbers that name no performance state fail the apply, as in the code.
- ConfirmProtocol.HardwareMatchesSaved: assumes what its `Serial` says, that edits of one GPU do not overlap and that previous settings can be applied again; `SafeToEditIff` shows the first to be exact. Switching profiles, reloading the configuration and re-applying it after suspend while a change is pending are not modelled, and saving always succeeds.
- Settings of a GPU other than clocks are one number in the confirmation protocol, since nothing in it looks inside. Applying settings is a single step.
- ProfileWatcher.CurrentIsFirstMatch: assumes what its `Regular` says about restarts, overlapping requests and saving; each part is shown to be exact in `WatcherLimits`, `WatcherRequests` and `UnsavedEdits`. Replacing the configuration from outside and `reset_config` are not modelled.
- WatcherRequests.SafeToBeginIff: leaves out states with a watcher that is stuck or about to restart. Such a watcher keeps the lock, or restarts once the requests have ended, so an overlap need not do harm then.
- Two senders that were granted their places in a queue fill them in that order in the model; the program may swap them.
- Profile edits in the watcher's state machine may produce any list of profiles, which covers the four edits of `Config`. GPU settings in profiles are left out there.
- Whether applying the settings of a newly set profile succeeds does not matter to which profile is current, so it is not modelled.
- Debounce and inactivity timers: they may run out at any time, so deadlines are not stated.
- Order of hash sets in the index: the search visits pids in any order, which cannot matter for the result.
- Sockets, serialisation, file watching, DBus, process listing, drawing, dialogs and hardware access are left out; hardware is a device whose writes may fail.
- Version migration of the configuration, the overclocking mask bit, system snapshots and the power arithmetic of Intel GPUs are not modelled; each is a separate part that nothing here depends on.
