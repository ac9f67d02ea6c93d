# UrbanFlow controllers and services: a verified model

This project models the parts of UrbanFlow whose guarantees hold over whole runs: the adaptive
and fixed-time traffic signals, the metered roundabout, the calibration search, and three small
concurrent limiters of the web service. Seconds are exact reals. What the detectors count in a
tick is an arbitrary input, so every statement about a run holds for any traffic.

Each file is one module.

- `Phases`, `FixedTimeSignal`, `CursorAgreement`: the phase cursor that steps through a cyclic plan,
  the closed-form schedule it refines, and its agreement with the separately written metering cursor.
- `Stages`, `SignalPlans`, `SignalPlanLaws`: cutting a plan into stages, building plans, what built
  plans hold, and which plans run adaptively.
- `AdaptiveSpec`, `AdaptiveSafety`, `AdaptiveTimers`, `AdaptiveWaiting`, `AdaptiveAccounting`,
  `AdaptiveSignal`: one tick of the adaptive signal as a function, what every run of it keeps, when and
  why a green ends, and the class that computes it.
- `SignalDetection`: the lanes a phase releases and the vehicles counted on them.
- `MeteringCursor`, `MeteringControl`, `EntryGate`, `MeteringRuns`, `SignalisedRoundabout`: the metering
  cursor, queue cap, spillback guard and entry gate, their runs, and the controller that steps them.
- `MeteringPlans`, `MeteringPlanLaws`, `MeteringRoundTrip`: the validator and the builder of
  entry-metering sections, and plans written out and read back.
- `NetworkFit`: the coordinate search with its cache, budget and shrinking step.
- `TokenRate`, `KeySet`, `ComputeSlots`: the per-token request window, the cached key set, and the
  compute slots, as protocols of atomic steps.
- `RealMath`, `Options`: exact arithmetic and absent values, shared by the others.

A method of a class equates the new state with a function of the old one; the lemmas are about
that function. `Run`, `IsRun` and `IsTrace` are arbitrary runs of such steps.

## What the model found

- The per-token quota is not kept under concurrency. The clock is read before the lock is taken
  (`auth.py:324-325`), so two requests can enter in the other order than they read it; the later
  value empties the window and the earlier one is then accepted beyond the quota. The quota holds
  on every interleaving exactly when it is one request (`TokenRate.QuotaOnEveryRunIff`), and for any
  quota when requests enter in clock order (`TokenRate.SlidingWindow`).
- The entry-metering validator reads a null `yellow`, `offset` or `allRed` as absent; the builder
  refuses the first two and falls through the third to `all_red`. A valid section builds exactly
  under `MeteringPlanLaws.ScalarsUsable`. The offsets the validator lets through all lie inside the
  built cycle exactly if `allRed` is not null or the `all_red` behind it is at least the default of two
  seconds (`OffsetsInsideIff`; `NullAllRedShortensCycle` is a case beyond it), and the built all-red
  keeps the checked bound exactly if that `all_red` is at most five (`BuiltAllRedIff`;
  `NullAllRedIsUnchecked` builds one of 1000 seconds). Without null scalars the two agree
  (`ValidatorAndBuilderAgree`).
- The validator looks for the section under `controller` first, the builder at the top level first
  (`MeteringPlanLaws.SameSectionIff`), so a valid section can hide one that is refused
  (`MeteringPlanLaws.OtherSectionIsBuilt`).
- A fixed-time tick ends inside a phase only when it spans less than the rest of the phase plus one
  cycle, because one update hands over at most as many phases as the plan has.
- A plan of one phase never counts a cycle, so the position laws are stated for two phases or more.
- A reset does not end inside a phase exactly when a zero-length phase begins at its offset
  (`FixedTimeSignal.StandsFirst`, and the contract of `Reset`). `FixedTimeSignal.OffsetShowsZeroLength`
  is such a case: the phase of length zero is shown until the first update.
- A direct step between two greens goes to a higher plan index of the same stage; in a stage that
  wraps round the plan's end an earlier index is reached through the clearance.
- Nothing validates `shrink`. The search ends on every problem exactly when it is below one: then
  `NetworkFit.Search.Run` ends, and for every `shrink >= 1` there is a search that makes any number of
  turns and stops at none (`EveryShrinkCanFail`; with a shrink of one the default bounds are enough,
  `DefaultBoundsCanFail`). With `shrink >= 1` a search ends by its target or its budget, or is stuck
  for ever (`EndsOrStalls`, `Stalls`). No caller sets it.

## Model

| member | source | states |
|---|---|---|
| Phases.SettledUnique | backend/src/controllers/fixed_time_signal.py:443-459 | the time since the plan began determines phase, time in it and cycle number: no two settled cursors share a position |
| Phases.OnSchedule | backend/src/controllers/fixed_time_signal.py:443-459 | a settled cursor at a position is the closed-form periodic schedule at that time |
| Phases.OnePhaseAt | backend/src/controllers/fixed_time_signal.py:446-459 | exactly one phase's half-open interval holds a given moment of the cycle: one does, and no other |
| Phases.OffsetIsATimeShift | backend/src/controllers/fixed_time_signal.py:381-384 | the offset only shifts time: what is shown depends on (offset + elapsed) modulo the cycle |
| FixedTimeSignal.FixedTimeSignalController.Reset | backend/src/controllers/fixed_time_signal.py:374-386 | reset stands offset mod cycle seconds into cycle 0, for any offset including a negative one, in the first phase that reaches that moment; it ends inside that phase exactly if no zero-length phase begins there |
| FixedTimeSignal.StandsFirst | backend/src/controllers/fixed_time_signal.py:417-433 | among phases of any length, a cursor that came out of a positive phase stands in the first phase reaching its moment, and inside it exactly if no zero-length phase begins then |
| FixedTimeSignal.OffsetShowsZeroLength | backend/src/controllers/fixed_time_signal.py:374-386 | an all-red of length zero at the offset is shown after the reset, and passed by the first update |
| FixedTimeSignal.FixedTimeSignalController.AdvanceBy | backend/src/controllers/fixed_time_signal.py:417-433 | stepping on moves exactly the given seconds, one cycle counted per pass of the plan's end |
| FixedTimeSignal.FixedTimeSignalController.Update | backend/src/controllers/fixed_time_signal.py:443-461 | no tick loses time; the cursor ends inside a phase (never a zero-length one) exactly for ticks shorter than the rest of the phase plus a cycle, and is then on the closed-form schedule |
| FixedTimeSignal.EndsInside | backend/src/controllers/fixed_time_signal.py:450-459 | the bounded hand-over loop suffices exactly for such ticks |
| CursorAgreement.StepTogether | backend/src/controllers/entry_metering.py:1049-1068 | the fixed-time and metering cursors, in step before a tick shorter than a cycle, are in step after it: phase, time and cycle number |
| CursorAgreement.RunTogether | backend/src/controllers/entry_metering.py:1006-1047 | from reset with the same offset they stay in step over any run of ticks |
| Stages.StagesPartition | backend/src/controllers/adaptive_signal.py:123-135 | every phase lies in exactly one stage |
| Stages.SplitUnique | backend/src/controllers/adaptive_signal.py:117-135 | a plan has at most one split into cyclic runs of greens followed by non-greens |
| Stages.FindStarts | backend/src/controllers/adaptive_signal.py:114-118 | the starts are exactly the greens after a non-green, in order |
| Stages.CutStages | backend/src/controllers/adaptive_signal.py:123-135 | the walk from each start to the next yields the plan's split, wrapping past the end |
| Stages.CheckStage | backend/src/controllers/adaptive_signal.py:136-155 | a stage passes exactly if its greens share their approaches, one of its clearances is a yellow for all of them and one is an all-red; otherwise which of these fails first |
| Stages.SplitStages | backend/src/controllers/adaptive_signal.py:109-156 | accepts exactly the plans whose split has, in every stage, greens with the same approaches, a yellow for every approach of every green, and an all-red; each error occurs exactly in its case |
| Stages.RunnableIff | backend/src/controllers/adaptive_signal.py:123-155 | what an adaptive signal may run, told on the phases of the plan's stages |
| SignalPlans.BuildPhaseSequence | backend/src/controllers/fixed_time_signal.py:205-266 | the default plan: four phases a direction, in the given order |
| SignalPlanLaws.DefaultPhase | backend/src/controllers/fixed_time_signal.py:205-266 | colour, approach, movements and length of every phase of the default plan, corridor greens included |
| SignalPlanLaws.OneGreenAMovement | backend/src/controllers/fixed_time_signal.py:222-246 | every movement of every approach has exactly one green in a cycle of the default plan |
| SignalPlanLaws.DefaultCycle | backend/src/controllers/fixed_time_signal.py:205-266 | the default cycle is the sum over the directions of their green, left, yellow and all-red |
| SignalPlans.DefaultPlanStages | backend/src/controllers/adaptive_signal.py:159-169 | over any non-empty direction order the default plan is exactly one safe stage a direction, so it always qualifies |
| SignalPlans.BuildPhaseSequenceFromNames | backend/src/controllers/fixed_time_signal.py:268-327 | one phase per name, stripped and lowered, with its own approaches, movements, colour and length; or the first unsupported name |
| SignalPlanLaws.NamedPhase | backend/src/controllers/fixed_time_signal.py:289-325 | a group, an underscore and a colour stand for the group's approaches, all movements, and the colour's length |
| SignalPlanLaws.OnlyThese | backend/src/controllers/fixed_time_signal.py:289-310 | no other name but the all-red is understood |
| SignalPlanLaws.GroupRule | backend/src/controllers/fixed_time_signal.py:67-76 | the groups, each naming the approaches whose initials it is made of |
| SignalPlanLaws.StripRule | backend/src/controllers/fixed_time_signal.py:289-290 | stripping takes off white space at both ends and nothing else |
| SignalPlans.SameShapeRunnable | backend/src/controllers/adaptive_signal.py:168-182 | whether a plan can run adaptively does not depend on its durations |
| SignalPlans.AdaptivePlanErrors | backend/src/controllers/adaptive_signal.py:159-182 | a configured sequence passes exactly if the controller's own construction accepts it for all durations, equivalently for some |
| AdaptiveSpec.TablesOk | backend/src/controllers/adaptive_signal.py:202-206 | the stage table built from a safe split is consistent with colours and stages |
| AdaptiveSpec.NearestFirst | backend/src/controllers/adaptive_signal.py:301-312 | the next green is the first waiting one in cyclic order |
| AdaptiveSpec.HandOver | backend/src/controllers/adaptive_signal.py:339-365 | a clearance hands over to the next of its stage, the last one to the target green or, without one, to the next green of the plan, carrying its time |
| AdaptiveSafety.StepKeepsInv | backend/src/controllers/adaptive_signal.py:248-267 | every tick keeps the controller's invariant |
| AdaptiveSafety.ClearOutKeepsTime | backend/src/controllers/adaptive_signal.py:254-264 | within a tick clearances hand over in order, each having spent its full duration, and no time is lost |
| AdaptiveSafety.GreenTick | backend/src/controllers/adaptive_signal.py:269-337 | a green goes on with its clock, or ends after its minimum because another phase waits, handing over to the first waiting green: at once exactly if that is a later green of the stage, else through the clearance |
| AdaptiveSafety.DirectStep | backend/src/controllers/adaptive_signal.py:310-331 | the only direct step between greens is to a later green of the same stage, releasing the same approaches |
| AdaptiveSafety.ClearanceRunsInFull | backend/src/controllers/adaptive_signal.py:254-266 | over any run, a clearance is shown until its full configured length has passed, at the exact place elapsed time puts it |
| AdaptiveSafety.NoGreenBeforeClearance | backend/src/controllers/adaptive_signal.py:136-156 | after a green ends into a clearance no run shows a green before the ended stage's full clearance has passed, in which a yellow is for every approach of the ended green and a phase is an all-red |
| AdaptiveSafety.ClearanceHandsOver | backend/src/controllers/adaptive_signal.py:339-365 | the tick that completes that length enters the target green and carries the remainder |
| AdaptiveSafety.LongestGreen | backend/src/controllers/adaptive_signal.py:279-294 | a green with a phase waiting at every tick runs on only below max timer start + maxGreen, so it ends less than one tick past it |
| AdaptiveTimers.GreenEndsIff | backend/src/controllers/adaptive_signal.py:269-299 | on the detections alone: a green ends at a tick exactly if somebody waits, the minimum has run, and nobody has passed for the extension step (a gap-out) or else the maximum has run since somebody first waited (a max-out) |
| AdaptiveTimers.GreenMeasures | backend/src/controllers/adaptive_signal.py:274-299 | while a green lasts its gap timer is the time since a vehicle last passed, its max timer the time since somebody first waited; rest seconds and extension are counted exactly at their ticks |
| AdaptiveTimers.EntersJustGreen | backend/src/controllers/adaptive_signal.py:367-376 | every green is entered with these timers not started |
| AdaptiveWaiting.AheadFalls | backend/src/controllers/adaptive_signal.py:310-312 | each termination strictly lowers the number of greens ahead of a waiting green |
| AdaptiveWaiting.TickCloser | backend/src/controllers/adaptive_signal.py:248-365 | every tick brings a called green a tick nearer, and every ended green uses up one ahead |
| AdaptiveWaiting.StartsInTime | backend/src/controllers/adaptive_signal.py:248-365 | a run as long as the remaining wait contains the green's start |
| AdaptiveWaiting.BoundedWait | backend/src/controllers/adaptive_signal.py:269-365 | a green called at every tick another is shown starts after at most G-1 ended greens and (G-1)(maxGreen + longest clearance + 2 dt) seconds |
| AdaptiveAccounting.TerminateKeepsLaw | backend/src/controllers/adaptive_signal.py:310-337 | ending a green keeps the accounting law |
| AdaptiveAccounting.AfterClearanceKeepsLaw | backend/src/controllers/adaptive_signal.py:339-365 | so does leaving a clearance, whatever stages are skipped |
| AdaptiveAccounting.AccountingLaw | backend/src/controllers/adaptive_signal.py:310-376 | in every reachable state G*cycle + rank = greens started - 1 + skipped, and greens started + pending = 1 + gap-outs + max-outs |
| AdaptiveSignal.TabulateStages | backend/src/controllers/adaptive_signal.py:203-206 | the table maps every phase to the stage holding it |
| AdaptiveSignal.NewController | backend/src/controllers/adaptive_signal.py:190-207 | construction succeeds exactly if maxGreen exceeds minGreen and the plan can run adaptively; with no negative length or minimum the controller satisfies the invariant the run theorems start from |
| AdaptiveSignal.AdaptiveSignalController.Update | backend/src/controllers/adaptive_signal.py:248-267 | one update is one step of the run the theorems speak of |
| AdaptiveSignal.AdaptiveSignalController.RunClearances | backend/src/controllers/adaptive_signal.py:254-264 | the loop hands over exactly the used-up clearances |
| AdaptiveSignal.AdaptiveSignalController.UpdateGreen | backend/src/controllers/adaptive_signal.py:269-299 | timers and decision of a green tick |
| AdaptiveSignal.AdaptiveSignalController.OrderAfter | backend/src/controllers/adaptive_signal.py:301-308 | lists exactly the other greens, by increasing cyclic distance |
| AdaptiveSignal.AdaptiveSignalController.NextAfter | backend/src/controllers/adaptive_signal.py:310-312 | the first of that order that waits is the cyclically nearest |
| AdaptiveSignal.AdaptiveSignalController.Terminate | backend/src/controllers/adaptive_signal.py:310-337 | the state after a termination, counters included |
| AdaptiveSignal.AdaptiveSignalController.AfterClearance | backend/src/controllers/adaptive_signal.py:339-365 | the state after a clearance, skipped greens included |
| AdaptiveSignal.AdaptiveSignalController.EnterGreen | backend/src/controllers/adaptive_signal.py:367-376 | entering a green resets its timers and counts a cycle when the plan wraps |
| SignalDetection.ReleasedLanes | backend/src/controllers/signal_detection.py:63-81 | a green phase's lanes are exactly those whose head shows it, none twice |
| SignalDetection.BuiltPhasesReleaseOnce | backend/src/controllers/fixed_time_signal.py:205-327 | phases of built plans name an approach at most once |
| SignalDetection.ApplySignals | backend/src/controllers/fixed_time_signal.py:463-502 | every lane's obstacle: none exactly under a green its head shows, the yellow line exactly under a yellow, else the stop line |
| SignalDetection.ShowsRule | backend/src/controllers/fixed_time_signal.py:334-368 | whether a lane's head shows a phase: by its own arrows if it has any, else left on the first lane, right on the last, straight on those between, on the second of two and on a single one |
| SignalDetection.ReleasedAreOpen | backend/src/controllers/signal_detection.py:9-12 | the detectors' lanes are exactly those whose stop line the signal lifts |
| SignalDetection.ZoneCount | backend/src/controllers/signal_detection.py:83-97 | the number of vehicles registered on this lane, being on it, within the distance of its stop line; and of those at 1 m/s or more |
| SignalDetection.OneMoreLane | backend/src/controllers/signal_detection.py:87-94 | a vehicle counts on one lane only, even while registered on two |
| SignalDetection.SumIsDetected | backend/src/controllers/signal_detection.py:112-113 | the sum over lanes counts each detected vehicle once |
| SignalDetection.CountLanes | backend/src/controllers/signal_detection.py:103-109 | the memorised counts are each lane's own |
| SignalDetection.Observe | backend/src/controllers/signal_detection.py:99-119 | passing <= served; served plus a call is the number of vehicles on the lanes of either phase, so shared lanes raise no call |
| MeteringCursor.AdvancedByAtMostOne | backend/src/controllers/entry_metering.py:1060-1068 | a step shorter than every phase hands over at most once |
| RealMath.FloorFalls | backend/src/controllers/entry_metering.py:1060-1064 | the hand-over loop ends: whole shortest-phases left fall at each hand-over |
| MeteringCursor.PlaceIsAdvanced | backend/src/controllers/entry_metering.py:1049-1068 | the carry-over loop ends where the position law puts it, on one-phase plans too |
| MeteringCursor.MeteringPhaseCursor.Reset | backend/src/controllers/entry_metering.py:1024-1030 | reset stands at the schedule's offset |
| MeteringCursor.MeteringPhaseCursor.AdvanceBy | backend/src/controllers/entry_metering.py:1032-1047 | moves exactly the given seconds |
| MeteringCursor.MeteringPhaseCursor.Advance | backend/src/controllers/entry_metering.py:1049-1068 | refuses negative steps; otherwise keeps position = offset + elapsed + saved |
| MeteringCursor.MeteringPhaseCursor.EndGreenEarly | backend/src/controllers/entry_metering.py:1070-1083 | cuts only a green, to the next phase's start; the unused green is what is saved |
| MeteringControl.QueueCap.CheckAndTrigger | backend/src/controllers/entry_metering.py:1530-1557 | cuts exactly when the cap is on, the shown green has run its minimum less 1e-6, and a metered arm it does not release has as many vehicles queued as the cap; the saving is recorded with the phase it was cut from and is at most that phase's green - minGreen + 1e-6 |
| MeteringControl.QueueCap.FindArm | backend/src/controllers/entry_metering.py:1546-1555 | finds an arm exactly if a red metered one is at the cap, and then the first by name |
| MeteringControl.CutsRule | backend/src/controllers/entry_metering.py:1530-1550 | when the cap cuts, told on plan, clock and queues |
| MeteringControl.FirstByName | backend/src/controllers/entry_metering.py:1546-1555 | the arm that triggers a cut is, of those at the cap, the first by name |
| MeteringControl.SpillbackGuard.Update | backend/src/controllers/entry_metering.py:1451-1494 | an arm is held exactly if it is metered, its signal is green, the stopped vehicles reach the threshold and its hold this cycle is below maxHold; seconds, activations and exhaustions follow; independent of the order arms are visited in |
| MeteringControl.GuardRule | backend/src/controllers/entry_metering.py:1464-1491 | an arm's record after an update, told on what stands downstream and the hold spent; exhaustion is noted once a cycle |
| MeteringRuns.TickKeepsBudget | backend/src/controllers/entry_metering.py:1464-1481 | in every reachable state the cycle's hold is at most maxHold and the total at most (cycle + 1) maxHold |
| MeteringRuns.HoldRule | backend/src/controllers/entry_metering.py:1474-1483 | which arms a whole tick holds, told on the shown phase, the stopped vehicles and the hold spent |
| MeteringRuns.ExhaustedIsReleased | backend/src/controllers/entry_metering.py:1484-1491 | an exhausted arm is not held again until the cycle number changes |
| MeteringRuns.HeldPerCycle | backend/src/controllers/entry_metering.py:1474-1483 | an arm is held in at most ceil(maxHold / dt) updates of a cycle |
| MeteringRuns.RunGoesOn | backend/src/controllers/signalised_roundabout.py:70-92 | runs extend by any observations with their budgets kept, so the run theorems cover every state of runs of every length |
| MeteringRuns.EntersYoung | backend/src/controllers/entry_metering.py:1060-1068 | a tick that enters a phase leaves the cursor less than a tick into it |
| MeteringRuns.LeavesLate | backend/src/controllers/entry_metering.py:1538-1545 | a green is only left with its minimum all but run, cap or no cap |
| MeteringRuns.EntryIsNotCut | backend/src/controllers/entry_metering.py:1538-1545 | a green the advance has just entered is not cut by the cap in the same tick, so no visit passes between two updates |
| MeteringRuns.NoStarvation | backend/src/controllers/signalised_roundabout.py:70-92 | with minGreen - 1e-6 >= maxHold + 2 dt, every visit of a green the advance or a cut enters has an update at which each released arm is open, whatever cap and guard observe |
| MeteringRuns.LampAgreesWithGate | backend/src/controllers/signalised_roundabout.py:94-99 | an arm has a closure reason exactly when its reported colour is not green |
| EntryGate.MeteredEntryGate.Allows | backend/src/controllers/entry_metering.py:1278-1317 | the decision, the latches left, the commits, counters and refusals after it; told on the history: at yellow or red the head is let in exactly if it has committed on a yellow, now or before, and no look at its lane since has missed it, and is counted as a commit only once |
| EntryGate.MeteredEntryGate.AllowsHead | backend/src/controllers/entry_metering.py:1299-1317 | a latched head enters; on yellow a committing head is latched and enters; every other is refused and counted once; nothing else changes a latch or a count |
| EntryGate.MeteredEntryGate.PruneLatches | backend/src/controllers/entry_metering.py:1290-1295 | a latch stays exactly if it is for another lane or its vehicle is still on this one |
| EntryGate.LatchesAreTraced | backend/src/controllers/entry_metering.py:1278-1317 | over any run of consultations from a reset, a standing latch is of a vehicle that committed through an earlier yellow as head of that lane and was not seen gone from it since |
| EntryGate.RedOpensForTraced | backend/src/controllers/entry_metering.py:1296-1317 | so over any run red opens only for a head vehicle with such an unpruned yellow commit |
| EntryGate.LatchedIff | backend/src/controllers/entry_metering.py:1278-1317 | over any run, a vehicle that commits in one lane only stands latched exactly if it has committed on a yellow and no look at that lane since has missed it |
| EntryGate.OpensIff | backend/src/controllers/entry_metering.py:1296-1317 | so the decision at yellow or red, and the count of commits, are fixed by lights, lanes and commits alone |
| EntryGate.HeadIsFirst | backend/src/controllers/entry_metering.py:1297 | the head is the first of those furthest along |
| EntryGate.MeteredEntryGate.RecordEntryDenial | backend/src/controllers/entry_metering.py:1229-1234 | entry denials stay the sum of red, yellow and hold denials |
| EntryGate.MeteredEntryGate.Update | backend/src/controllers/entry_metering.py:1236-1263 | records every metered arm's state; each reason is counted once for every arm closed for it that was not recorded so before |
| EntryGate.OneMoreCounted | backend/src/controllers/entry_metering.py:1238-1245 | each arm visited adds one closing exactly when it is newly closed |
| SignalisedRoundabout.SignalisedRoundaboutController.Reset | backend/src/controllers/signalised_roundabout.py:62-68 | the cursor at the offset on the schedule, no holds, no latches, full budgets, every counter, trigger and saving cleared |
| SignalisedRoundabout.SignalisedRoundaboutController.Update | backend/src/controllers/signalised_roundabout.py:70-92 | one tick is advance, cap, guard, gate in that order; held are exactly the green metered arms with the threshold of vehicles stopped downstream and hold left this cycle; a negative step changes nothing; time stays conserved with each saving within the slack of the green it cut, budgets kept; every event of the tick is counted as often as it happened, cap triggers go to the arm that caused the cut, and latches, commits and refusals stay |
| SignalisedRoundabout.SignalisedRoundaboutController.SignalsState | backend/src/controllers/signalised_roundabout.py:94-99 | every arm's colour: red if held, green if unmetered, the shown phase's if it is named there, else red; green exactly on arms the gate leaves open |
| MeteringPlans.ValidateSection | backend/src/controllers/entry_metering.py:195-677 | no issue is reported exactly for sections within every bound, and each code exactly where some part of the section calls for it |
| MeteringPlans.ValidateEntries | backend/src/controllers/entry_metering.py:293-344 | an entries list passes exactly if all are known, present and not repeated; the codes are exactly those of its entries |
| MeteringPlans.ValidateGreens | backend/src/controllers/entry_metering.py:346-456 | a phase's green, minimum and maximum pass exactly within their bounds and in order; each code exactly in its case |
| MeteringPlans.ValidateOffset | backend/src/controllers/entry_metering.py:504-543 | an offset passes exactly if it is non-negative and inside the cycle, where that can be summed; each code exactly in its case |
| MeteringPlans.BuildSpecs | backend/src/controllers/entry_metering.py:884-926 | one spec per phase with the defaults filled in, or refusal at the first bad phase |
| MeteringPlans.ExpandPhases | backend/src/controllers/entry_metering.py:928-970 | green, then yellow and all-red where positive, with the phase-to-spec index |
| MeteringPlans.BuildMeteringPlan | backend/src/controllers/entry_metering.py:848-1003 | a plan is built exactly for buildable sections, and is the section's plan |
| MeteringPlanLaws.ValidBuildsIff | backend/src/controllers/entry_metering.py:82-1003 | a section without issues builds exactly if yellow and offset are not null and the all-red fallen through to is usable |
| MeteringPlanLaws.ValidNumbersBuild | backend/src/controllers/entry_metering.py:82-1003 | with scalars present as numbers or absent it always builds |
| MeteringPlanLaws.NullYellowIsRefused | backend/src/controllers/entry_metering.py:458-461 | a null yellow passes the validator and is refused by the builder |
| MeteringPlanLaws.BuiltPlanIsSound | backend/src/controllers/entry_metering.py:928-1003 | only positive phases, minGreen <= green <= maxGreen, cycle = sum of green + yellow + all-red, metered exactly the arms some green releases |
| MeteringPlanLaws.GreenIsCleared | backend/src/controllers/entry_metering.py:928-970 | every green of a plan is followed by its own yellow, if there is one, and then by an all-red, if there is one, spec after spec |
| MeteringPlanLaws.BuiltAllRedIff | backend/src/controllers/entry_metering.py:479-502 | the built all-red of a valid section is no shorter than the one checked exactly if the all_red behind a null allRed is at least the default, and within the checked bound exactly if it is at most five |
| MeteringPlanLaws.OffsetValidIff | backend/src/controllers/entry_metering.py:504-543 | changing the offset keeps a section valid exactly for offsets inside the checked cycle |
| MeteringPlanLaws.OffsetsInsideIff | backend/src/controllers/entry_metering.py:504-543 | the offsets that pass the validator all lie inside the built cycle exactly if allRed is not null or the all_red behind it is no shorter than the default |
| MeteringPlanLaws.OffsetInsideCycle | backend/src/controllers/entry_metering.py:504-543 | the offset of a plan built from a valid section lies inside its cycle, if its allRed is not null or the all_red behind it is no shorter than the default |
| MeteringPlanLaws.ValidatorAndBuilderAgree | backend/src/controllers/entry_metering.py:82-1003 | a valid section with no null scalar builds, and every plan built from it has positive phases, greens within bounds, an all-red of at most five seconds and its offset inside its cycle |
| MeteringRoundTrip.WrittenValidIff | backend/src/controllers/entry_metering.py:195-677 | a plan written out as a section passes the validator exactly if its greens, entries, clearances, offset and features are within the bounds |
| MeteringRoundTrip.WrittenBuildsBack | backend/src/controllers/entry_metering.py:848-1003 | and then builds exactly the plan it was written from |
| MeteringRoundTrip.BuiltIsInBounds | backend/src/controllers/entry_metering.py:82-1003 | whatever a valid section without null scalars builds is within these bounds, defaults included, and written out is valid again |
| MeteringRoundTrip.PlanReportedIff | backend/src/controllers/entry_metering.py:195-677 | exactly which codes are reported of a plan out of bounds |
| MeteringRoundTrip.DefaultsFilledIn | backend/src/controllers/entry_metering.py:865-990 | the values the builder fills in for absent fields |
| MeteringRoundTrip.EntryRule | backend/src/controllers/entry_metering.py:801-809 | an entry is a direction exactly if, lowered and stripped, it is its name |
| MeteringPlanLaws.NullAllRedShortensCycle | backend/src/controllers/entry_metering.py:873-876 | a valid section with a null all-red whose built cycle is shorter than its offset |
| MeteringPlanLaws.NullAllRedIsUnchecked | backend/src/controllers/entry_metering.py:873-876 | a valid section with a null all-red whose built all-red lasts 1000 seconds |
| MeteringPlanLaws.PlannedTimesAddUp | backend/src/controllers/entry_metering.py:784-798 | an approach's planned red and green are the time its signal shows red and green in a cycle; with the yellow shown they make up the cycle, and the green is positive |
| MeteringPlanLaws.SameSectionIff | backend/src/controllers/entry_metering.py:112-119 | validator and builder read the same section exactly unless two different ones are given |
| MeteringPlanLaws.OtherSectionIsBuilt | backend/src/controllers/entry_metering.py:112-119 | a configuration whose checked section is valid and whose built section is another one, which the builder refuses |
| NetworkFit.MeasureFalls | backend/src/calibration/network_fit.py:273-324 | an improvement or a shrink lowers the search's termination measure |
| NetworkFit.LocalMinimum | backend/src/calibration/network_fit.py:283-312 | if equal keys mean equal objectives, a converged search ends where no clamped single move by the explored step gains more than 1e-12 |
| NetworkFit.NoBetterMove | backend/src/calibration/network_fit.py:243-312 | whatever the keys: for each move by the explored step a simulation under the same key is not better than the best by more than 1e-12 |
| NetworkFit.EndsAtMinimum | backend/src/calibration/network_fit.py:283-312 | the same told on values: no parameter moved by the fraction of the step, up or down and into its bounds, gains more than 1e-12 |
| NetworkFit.Search.constructor | backend/src/calibration/network_fit.py:232-259 | starts at the clamped warm start, its value simulated |
| NetworkFit.Search.Evaluate | backend/src/calibration/network_fit.py:243-254 | a cached value, or one simulation counted |
| NetworkFit.Search.MovesOf | backend/src/calibration/network_fit.py:284-289 | exactly the clamped moves that go somewhere |
| NetworkFit.Search.Visit | backend/src/calibration/network_fit.py:283-312 | takes a move only if it gains more than 1e-12, the better of the two; nothing ever simulated stays better by more than that |
| NetworkFit.Search.Sweep | backend/src/calibration/network_fit.py:279-312 | a sweep without improvement has simulated every move of the current point; a sweep costs at most two simulations a parameter |
| NetworkFit.Search.Pass | backend/src/calibration/network_fit.py:266-324 | one turn of the loop: which stop, or a sweep that gains more than 1e-12 with the step kept, or all moves simulated and the step multiplied by shrink; with all moves cached only the step changes |
| NetworkFit.Search.Run | backend/src/calibration/network_fit.py:266-324 | for every shrink below one it ends, within the budget, never worse than it began; each stop reason implies its condition; converged, the step is shrink times one of at least minStep whose moves were all simulated, so for a shrink other than zero and a key that respects the objective it ends at a local minimum for moves by finalStep / shrink |
| NetworkFit.Search.Stalls | backend/src/calibration/network_fit.py:266-324 | a stuck search, whose every later move is simulated and which no stop applies to, stays stuck: any number of turns change nothing but the step and the number of sweeps |
| NetworkFit.Search.EndsOrStalls | backend/src/calibration/network_fit.py:266-324 | with shrink >= 1 every search comes, turn by turn, to its target or the end of its budget, or is stuck; it never converges |
| NetworkFit.NowAlwaysExplored | backend/src/calibration/network_fit.py:284-289 | once the explored step stays, or takes every move to the bounds, all moves by later steps are simulated too |
| NetworkFit.PinnedNeverEnds | backend/src/calibration/network_fit.py:266-324 | for every shrink >= 1, budget and target, a search whose bounds pin every parameter above the target makes any number of turns |
| NetworkFit.FlatNeverEnds | backend/src/calibration/network_fit.py:266-324 | with a shrink of one so does a search of a constant objective above the target, once the budget affords one sweep, whatever the bounds |
| NetworkFit.EveryShrinkCanFail | backend/src/calibration/network_fit.py:64-80 | for every shrink >= 1 such a search exists, with the other options at their defaults and the factor pinned |
| NetworkFit.DefaultBoundsCanFail | backend/src/calibration/network_fit.py:64-80 | with a shrink of one it exists with every other option at its default |
| TokenRate.PoppedSplits | backend/src/api/auth.py:327-328 | popping drops only times that have left the window |
| TokenRate.SpacedKeepsQuota | backend/src/api/auth.py:329-339 | if any limit + 1 accepted times span a window, no window holds more than the limit |
| TokenRate.SlidingWindow | backend/src/api/auth.py:322-339 | in clock order: the deque equals the accepted times of the last window, all and no others; a request is accepted exactly if fewer than the limit were; every window keeps the quota |
| TokenRate.RetryAfterWorks | backend/src/api/auth.py:330-338 | on any interleaving, whatever is refused meanwhile: while nothing is accepted, a refused caller is let in exactly once the deque's first time has left the window; after Retry-After seconds it has, and more than a second earlier it has not |
| TokenRate.NeverOverfull | backend/src/api/auth.py:327-339 | the deque never holds more than the limit, in whatever order sections are entered |
| TokenRate.DequeWhileRefused | backend/src/api/auth.py:327-338 | refused sections leave the deque of the first refusal as it is |
| TokenRate.RaceBreaksQuota | backend/src/api/auth.py:324-325 | two sections entered out of clock order accept limit + 1 requests in one window |
| TokenRate.QuotaOnEveryRunIff | backend/src/api/auth.py:322-339 | the quota holds on every interleaving exactly when the limit is one |
| TokenRate.TokenRateLimiter.CheckTokenRate | backend/src/api/auth.py:322-339 | one locked section per call, other tokens untouched; with a token's calls in clock order its deque is the accepted times of the last window |
| KeySet.AttemptsTakeCooldowns | backend/src/api/auth.py:218-230 | once keys are held, n further fetches take at least n cooldowns, however many unknown kids arrive |
| KeySet.FailuresTakeBackoffs | backend/src/api/auth.py:176-187 | while none are held, each fetch waits out the backoff of the failure before it |
| KeySet.KeySetCache.GetJwks | backend/src/api/auth.py:172-194 | asks exactly when none are held and no failure is younger than the backoff, or those held have reached the maximum age; keys once cached are replaced or kept, never lost |
| KeySet.KeySetCache.FetchFirst | backend/src/api/auth.py:183-189 | a first fetch holds the keys or starts the backoff |
| KeySet.KeySetCache.RefetchLocked | backend/src/api/auth.py:197-215 | a refetch restarts the clock whether or not it succeeds and keeps the old keys on failure |
| KeySet.KeySetCache.RefreshForUnknownKid | backend/src/api/auth.py:218-230 | an unknown kid causes a fetch exactly when the cooldown has run |
| ComputeSlots.StepKeepsInv | backend/src/api/request_limits.py:273-304 | each atomic step keeps slots = free + holders + leaving and each client's count = its holders, never stored as zero; the bounded semaphore is never over-released |
| ComputeSlots.EveryInterleaving | backend/src/api/request_limits.py:273-304 | on every interleaving at most two slots are in use and no client holds two |
| ComputeSlots.Quiescent | backend/src/api/request_limits.py:294-304 | with no request in flight all slots are free and the map is empty |
| ComputeSlots.HolderIsCounted | backend/src/api/request_limits.py:298-303 | a holder can always drop its count: its client is in the map |
| ComputeSlots.BusyIffHolding | backend/src/api/request_limits.py:276-284 | a client is told it is busy exactly while one of its requests holds a slot |
| ComputeSlots.RefusedOnlyWhenFull | backend/src/api/request_limits.py:285-292 | a client holding nothing is refused exactly when both slots are in use |
| ComputeSlots.OneRequest | backend/src/api/request_limits.py:273-304 | a request acquires its client's slot, holds it until it drops its count, and leaves everything as before once it has released |
| ComputeSlots.ComputeSlotTable.TryAcquire | backend/src/api/request_limits.py:275-293 | the acquiring section: busy exactly for a client that holds a slot, refused exactly when both are used, else the request becomes its client's holder |
| ComputeSlots.ComputeSlotTable.Drop | backend/src/api/request_limits.py:297-303 | the releasing section: the request holds its slot no more, and its client is removed at zero |
| ComputeSlots.ComputeSlotTable.ReleaseSlot | backend/src/api/request_limits.py:304 | the release outside the lock stays within the semaphore's bound |

## Left out

- Floating-point rounding: seconds and objectives are exact reals; the tolerances 1e-6 and 1e-12 are kept.
- Not-a-number and infinite ticks: reals have neither, so `MeteringPhaseCursor.advance` refuses only negative steps here.
- Roundabout gap acceptance, vehicle physics and the network simulator: commits through yellow, queue and ring counts and the simulated objective are arbitrary inputs.
- Spillback sector geometry: the stopped count of each arm and tick is an arbitrary number.
- The clock, status, display values, `recent_decisions` and message texts of the controllers.
- `per_direction` counts of an observation, which only feed the display.
- `_mark_lane_use`, U-turn lane discovery and the resolution of controller settings from configuration.
- AdaptiveAccounting.AccountingLaw: for plans that begin with a green and end with a clearance, since otherwise the cycle boundary falls inside a stage.
- AdaptiveWaiting.BoundedWait: counts from a shown green; a plan that starts in a clearance first shows its next green.
- MeteringRuns.NoStarvation: for ticks shorter than every phase and visits entered from another phase, cut at once or not, as a visit begun by the reset offset can be arbitrarily short.
- NetworkFit.Search.Run: for shrink < 1, since with more the original need not end either; the shuffle is any permutation a sweep, the 9-decimal key any function of the parameters, and an empty observation set (infinite objective) is not modelled; bounds are given in order, as the defaults are.
- TokenRate.TokenRateLimiter.CheckTokenRate: for a limit of at least one; with zero the original reads an empty deque.
- ComputeSlots.ComputeSlotTable.TryAcquire: one atomic step, though a release may fall between its two checks; that has the effect of the release coming first.
- MeteringPlans.ValidateSection: the set of reported codes is stated, not their order, paths or how often each appears; the checks of mode, geometry and adaptive conflict are not modelled.
- Failed-authentication counts, token verification, routers, stores, reports and the user interface: wrappers over libraries or small case splits.
