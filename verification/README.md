# XenBlocks miner: models and proofs

Dafny models of six parts of the miner and its marketplace server, with proofs about all their inputs, runs or
reachable states.

- **Video memory.** `VramBatch` plans lanes and batches inside a memory budget (`mining/vram_batch.py`);
  `PlannerProofs` and `ClampProofs` prove what the plan, the repair loop and the lane caps guarantee. `CudaBackend`
  is the live controller of `mining/backends/cuda_native.py` as a class whose invariant ties lanes, batch and plan
  to the base plan, the caps and the scales; `ThermalPolicy`, `VramGuard` and `VramPolicy` are the policies of
  `efficiency/`, and `PolicyCurves` says where the derating curves run. The cost of an attempt
  is the exact rational difficulty * 1024 * 1001/1000 bytes, so footprints are counted in thousandths of a byte; `round` is half-to-even; a trim keeps 98/100.
- **Block queue.** `BlockQueue` specifies the append-only log, row table, submission record and rejection log;
  `BlockStore` is the store, flusher and hit handler as classes that update them in place; `QueueProofs` covers import,
  flush and interleaved row workers, `QueueRuns` whole runs. `SubmitResult` reads the pool's replies, which
  are arbitrary inputs. `QueueDecisions` says what is decided for each row and hit, in their own fields; `QueueCrashes`
  cuts hits and flushes off anywhere, `QueueAccounts` keeps the books.
- **Merkle tree.** `MerkleTree` keeps the hash abstract: what is assumed of it is its output length, and, where stated,
  that no two strings actually hashed collide. A hash injective on all strings with fixed-length output does not exist.
  `MerkleShapes` says which lists share a root.
- **Server uptime.** `ServerUptime`: hour buckets and outages over integer time, before retention pruning; `UptimeClock`:
  what a clock that goes back does to them.
- **Marketplace.** `LeaseMarket` interleaves renting, stopping and expiry at every await, with the lock as explicit
  state; `LeaseRaces` says what that lock does and does not protect, `LeaseTerms` what leases are made of and what ends
  them. `Settlement` moves money in a transaction that may fail at any database call; `ChainSimulator` is a block log
  with its indexes.
- **MQTT.** `Utf8`, `MqttCodec` and `MqttStream` are the packet codec and read loop of the broker with the client's
  encoder, `TopicMatch` the filter matcher, `MqttBroker` the client table and routing; the requirements are those of
  MQTT 3.1.1, sections 1.5.3, 2.2.3, 3.3 and 4.7.

Methods that update state are proved against specification functions of the same name or meaning; the lemmas are about
those functions. `Numbers`, `Text` and `Totals` are shared helpers.

## What the proofs found

Places where the code does not do what its documentation or another part of it expects; each is a lemma with the exact
condition or a concrete input.

- Starting refuses a plan exactly when the planner's top-up added an attempt (`StartRefusesToppedUpPlans`,
  `StartRefusesAFittingPlan`, `StartRefused`); a replan trims instead.
- Lane copies of a plan made for one resident buffer overrun target and headroom exactly when all their attempts do not
  fit the room, so from two lanes on when the whole room is budgeted (`ValidIsSafe`, `CopiesOfASequentialPlan`);
  `StartTwoCopies` is such a start.
- Capping to one lane keeps an already enlarged batch, so caps compose to their minimum only with an exact side
  condition (`CapsComposeExactly`).
- The clamp rebuilds the total as used + headroom, which hides a lack of headroom when a plan exceeds the device
  (`RebuiltTotal`, `OversizedPlanLosesHeadroom`). No caller hands it such a plan: `PlannerNeverNeedsTheClamp` and
  `CapKeepsPacked` show that planner and caps never need the clamp.
- The power at the reference difficulty is 35% of the way down, not halfway as a comment in
  `efficiency/thermal_policy.py` says; the model follows the code (`PowerFollowsTwoLines`).
- A derate of less than half a percent is not lifted by asking for the full batch (`FullScaleIsRestoredExactly`);
  `LeaveASmallDerate` leaves one behind.
- A one-degree limit never derates to the floor at the limit itself (`LimitReachesFloor`).
- An import restores a lost row without the block's difficulty (`ImportRestoresTheRowExactly`).
- A worker can be listed as available while its lease is active; `ListedFreeExactly` gives the events that do it, and
  `ExpiryRaceIsReachable` shows the expiry pass among them. Renting still refuses such a worker.
- A crash between counting a first rejection and logging it leaves the log one entry short (`RejectionLogAccounts`).
- Settling for a worker or a platform without an account destroys the payment (`SettlementConservesExactly`).
- Asking the chain simulator for the last zero blocks returns all of them (`LastBlocksOfNone`).
- A clock that turns round makes some hour bucket wrong (`BucketsAreExactIff`, `BackwardClockOverfillsAnHour`).
- The length decoder takes more than four bytes and needless zero bytes; the SUBACK length breaks above 125 filters;
  `#` and `+` see `$` topics; a reconnecting client can fall out of the client table (`FiveByteLengthIsAccepted`,
  `AcceptedCodeIsMinimal`, `SubackFrames`, `DollarTopics`, `ReachedUntilDisplaced`).

## Model

| member | source | states |
|---|---|---|
| `VramBatch.ClampPlanToCaps` | `mining/vram_batch.py:381-436` | the repair loop ends, equals its step-bounded specification, and returns a plan inside both caps or its input; nothing but lanes, batch and projections changes |
| `PlannerProofs.LaneCountIsGreatest` | `mining/vram_batch.py:129-175` | a lane count of two or more is granted if and only if it is below the maximum and either the boost below the reference or, when packing, that many smallest batches in the budget allow it |
| `PlannerProofs.SequentialLanesAreGreatest` | `mining/vram_batch.py:535-553` | a plan with one resident buffer: below the reference, all lanes allowed when covering, otherwise one, except that up to difficulty 150 a lane is given for every smallest batch in the budget |
| `PlannerProofs.PlannerNeverNeedsTheClamp` | `mining/vram_batch.py:483-626` | for every request the clamp changes nothing the planner drafts, and the plan is inside target and headroom if and only if foreign memory, overhead and margin alone are |
| `PlannerProofs.BudgetIsTheShare` | `mining/vram_batch.py:505-528` | below a fill fraction of 0.999, a number of bytes is within the budget if and only if it is at most 1 or at most that share, held to 0.40 and 1, of the room between the fixed memory and the caps; from 0.999 on the budget is the room |
| `PlannerProofs.PlannedBatchFillsTheShare` | `mining/vram_batch.py:583-608` | once one whole-byte split of it holds an attempt, a batch is at most the planned one if and only if its resident footprint fits that share of the room and the explicit sizes allow it |
| `PlannerProofs.PlannedBatchIsGreatest` | `mining/vram_batch.py:583-608` | a batch is at most the planned one if and only if its resident footprint fits the budget and the user's explicit sizes allow it |
| `PlannerProofs.TopUpAddsAtMostOne` | `mining/vram_batch.py:596-608` | using the remainder of the whole-byte split adds at most one attempt per lane |
| `PlannerProofs.PlannedBatchFits` | `mining/vram_batch.py:556-608` | the resident lanes times the planned batch times the per-attempt cost stay within the budget; no room or no difficulty means no batch |
| `PlannerProofs.PlannerPacks` | `mining/vram_batch.py:483-626` | every plan with a batch is packed: footprint within a budget that was carved out of target and headroom, and the device total is rebuilt exactly |
| `PlannerProofs.PackedFitsCaps` | `mining/vram_batch.py:178-211` | the MiB projections of a packed plan stand for exact bytes: foreign + overhead + footprint is within target, and headroom is left, to the byte |
| `PlannerProofs.FitsCapsExactly` | `mining/vram_batch.py:178-211` | any number of resident batches is inside target and headroom if and only if that many attempts fit the room between them and the fixed memory |
| `PlannerProofs.ResidentLanesExactly` | `mining/vram_batch.py:89-92` | as many lanes are resident as the plan says, if it says, and never more than there are |
| `PlannerProofs.FewerLanesBiggerShare` | `mining/vram_batch.py:439-480` | splitting the budget over fewer resident lanes never shrinks a lane's batch, floors included |
| `PlannerProofs.InsideBudgetIsInsideLimits` | `mining/vram_batch.py:301-326` | a footprint inside a carved budget projects inside both caps and loses nothing of the total |
| `PlannerProofs.SelectedIsGreatest` | `mining/vram_batch.py:263-291` | the selected batch is the greatest whose footprint fits the budget, within the user's maximum or, when not filling, the recommended size |
| `PlannerProofs.EstimateIsWholeBytes` | `mining/vram_batch.py:294-298` | the memory of a batch is the whole bytes of its attempts |
| `PlannerProofs.PlanReports` | `mining/vram_batch.py:483-626` | what a plan reports of its request and of its own memory, in the arguments |
| `ClampProofs.StepLimitNeverBites` | `mining/vram_batch.py:400-436` | while lanes*(42k+1) stays under 10,000, with 2^k bounding the batches tried, the loop with its step limit returns what it would return without one |
| `ClampProofs.TrimsAreLogarithmic` | `mining/vram_batch.py:400-436` | a batch up to 2^k reaches one attempt in at most 42k trims of two percent |
| `ClampProofs.OneResidentClampFits` | `mining/vram_batch.py:381-436` | with one resident lane and a batch below 2^200 the clamp ends inside the caps if and only if a batch of one attempt would, and keeps the lanes |
| `ClampProofs.RebuiltTotal` | `mining/vram_batch.py:392` | used + headroom is the device total if and only if the plan fits the device |
| `ClampProofs.OversizedPlanLosesHeadroom` | `mining/vram_batch.py:392` | a plan larger than the device is clamped to one that passes its check and yet leaves less than the headroom of the real total |
| `ClampProofs.TrimsBeforeDroppingLanes` | `mining/vram_batch.py:400-436` | the clamp gives up attempts before lanes: it keeps its lanes and stops at the first trimmed batch that fits |
| `ClampProofs.DropsALane` | `mining/vram_batch.py:400-436` | when even a batch of one does not fit it goes on with one lane less, resident ones re-split over the budget, if several are resident, and else gives up |
| `ClampProofs.CapKeepsPacked` | `mining/vram_batch.py:439-480` | capping a packed plan keeps it packed, keeps limits and total, gives exactly the capped lane count and never a smaller batch |
| `ClampProofs.CapsComposeExactly` | `mining/vram_batch.py:454-463` | two caps act as their minimum if and only if it is not the case that a split plan is re-split by the first cap to a larger batch and cut to one lane by the second |
| `ClampProofs.CapOrderDoesNotMatter` | `mining/vram_batch.py:439-480` | any two orderings of the same caps, each at least 2, give the same plan |
| `ClampProofs.CapsReduceToLeast` | `mining/vram_batch.py:439-480` | a sequence of caps of at least 2 is one cap: the least |
| `ClampProofs.CapToOneLaneKeepsTheLargerBatch` | `mining/vram_batch.py:454-455` | a concrete plan on which capping to two and then one lane differs from capping to one |
| `CudaBackend.Backend.ValidIsSafe` | `mining/backends/cuda_native.py:244-306` | in every valid loaded state live lanes and batch are within the base plan and at least 1; the live batch is the smaller of the planned one under the heat scale and under the memory scale; what is resident is inside target and headroom if and only if its attempts fit the room, which they always do unless lane copies run a plan made for one buffer |
| `CudaBackend.LiveStateFitsCaps` | `mining/backends/cuda_native.py:244-288` | under any heat cap, memory cap and scales the derived lanes and batch stay inside the caps of the base plan |
| `CudaBackend.CombinedBatchIsTheSmaller` | `mining/backends/cuda_native.py:266-275` | with both scales at or above their floors, the live batch is the smaller of what heat leaves and what memory pressure leaves |
| `CudaBackend.LiveLanesAreTheLeast` | `mining/backends/cuda_native.py:244-264` | a number of lanes can run if and only if the plan, the difficulty bias and both live caps allow it |
| `CudaBackend.ScaleFollows` | `mining/backends/cuda_native.py:308-336` | the stored scale is the one asked for, held to floor and one, if that moves it by half a percent, and otherwise the one before |
| `CudaBackend.FloorsAreTheSettings` | `mining/backends/cuda_native.py:308-336` | the scale floors are the two settings, kept at one half or more |
| `CudaBackend.WantedScaleIsTaken` | `mining/backends/cuda_native.py:338-392` | the scale memory use asks for is taken as it is, or left where it was within half a percent |
| `CudaBackend.AcceptsExactly` | `mining/backends/cuda_native.py:150-242` | a plan is accepted if and only if it holds an attempt, its fixed memory fits, and, below the reference without the clock curve, it leaves at most 64 MiB or a twentieth of the budget idle |
| `CudaBackend.ForeignIsWhatIsNotOurs` | `mining/vram_batch.py:214-233` | foreign memory is the least amount, not below the baseline, that with the miner's own explains what is used |
| `CudaBackend.Backend.ReplanRequest` | `mining/backends/cuda_native.py:117-242` | a replan asks with the memory that is not the miner's own, the caps, fill fraction, pack mode and resident lanes of its settings |
| `CudaBackend.EffectiveStaysPacked` | `mining/backends/cuda_native.py:244-264` | the effective plan of a packed base plan is packed, with the same limits and total and no more lanes |
| `CudaBackend.EffectivePlanIsOneCap` | `mining/backends/cuda_native.py:244-264` | difficulty bias, heat cap and memory cap act as one cap, their minimum, when the plan is sequential or the caps are at least 2 |
| `CudaBackend.LivePlanIsBaseExactly` | `mining/backends/cuda_native.py:244-264` | the live plan is the base plan again if and only if neither the bias nor a cap asks for fewer lanes |
| `CudaBackend.FullScaleIsRestoredExactly` | `mining/backends/cuda_native.py:308-336` | asking for the full batch restores it if and only if nothing is derated or at least half a percent is |
| `CudaBackend.LeaveASmallDerate` | `mining/backends/cuda_native.py:338-392` | three memory readings through the update leave the backend at 0.99955 of the batch, where asking for all of it changes nothing |
| `CudaBackend.AcceptedPlansArePacked` | `mining/backends/cuda_native.py:150-242` | a plan the backend accepts is packed, made for the requested difficulty and the device total |
| `CudaBackend.StartRefusesToppedUpPlans` | `mining/backends/cuda_native.py:567-582` | with one batch limit for plan and check, if any, the start check passes if and only if the planner's top-up added nothing |
| `CudaBackend.StartRefusesAFittingPlan` | `mining/backends/cuda_native.py:567-582` | 1001 MiB over five lanes at difficulty 100: planned, inside every cap, and refused |
| `CudaBackend.StartRefused` | `mining/backends/cuda_native.py:584-614` | settings and a 2 GiB card with which a start raises on that plan and leaves the backend stopped |
| `CudaBackend.TrimKeepsPacked` | `mining/backends/cuda_native.py:696-712` | the soft trim of a replan keeps the plan packed, with its lanes and limits |
| `CudaBackend.CopiesOfASequentialPlan` | `mining/backends/cuda_native.py:117-134` | without explicit sizes, lane copies of a plan for one resident buffer stay in the budget if and only if there is one lane, and when the whole room is budgeted the same holds for target and headroom |
| `CudaBackend.StartTwoCopies` | `mining/backends/cuda_native.py:584-614` | a concrete start that is let through and overruns its caps: a 4 GiB card, two lane copies of a plan for one buffer |
| `CudaBackend.CheckedShareIsGreatest` | `mining/backends/cuda_native.py:567-582` | the start check's limit is the greatest batch whose footprint fits one whole-byte share of the budget |
| `CudaBackend.TrimMeetsTheStartCheck` | `mining/backends/cuda_native.py:696-712` | the soft trim changes just the plans the start check would refuse, and only down to its limit |
| `CudaBackend.Backend.constructor` | `mining/backends/cuda_native.py:53-90` | a new backend is valid, stopped, at full scales and uncapped |
| `CudaBackend.Backend.PlanFromDevice` | `mining/backends/cuda_native.py:150-242` | plans from the device's memory under the current caps and foreign use, or raises; live lanes are untouched and the state stays valid |
| `CudaBackend.Backend.ApplyPlan` | `mining/backends/cuda_native.py:277-288` | lanes, planned batch, live batch and live plan all agree with the base plan, caps and scales; the live batch is the smaller of the two scaled ones |
| `CudaBackend.Backend.SyncLaneEngines` | `mining/backends/cuda_native.py:523-556` | the parallel mode follows lanes, engine support and the copy setting; a failed engine falls back to sequential |
| `CudaBackend.Backend.ReapplyLiveCaps` | `mining/backends/cuda_native.py:290-306` | after a cap moved the state is valid again on the same base plan, and the result says exactly whether lanes or batch changed |
| `CudaBackend.Backend.SetThermalBatchScale` | `mining/backends/cuda_native.py:308-320` | clamps to the floor, ignores changes under half a percent, and leaves the live batch the smaller of the two scaled ones |
| `CudaBackend.Backend.SetVramBatchScale` | `mining/backends/cuda_native.py:322-336` | the same for memory pressure |
| `CudaBackend.Backend.UpdateVramPressureFromUsed` | `mining/backends/cuda_native.py:338-392` | scale and lane cap are exactly those the used memory asks for, or none when switched off or with one lane; a change is reported if and only if the wanted scale moved by half a percent or the new cap changed lanes or batch; the base plan and the heat side are untouched; the state stays valid |
| `CudaBackend.Backend.UpdateThermalBatchFromTemp` | `mining/backends/cuda_native.py:394-405` | the heat scale follows the temperature through the dead band; the state stays valid |
| `CudaBackend.Backend.UpdateThermalLanesFromTemp` | `mining/backends/cuda_native.py:407-440` | the heat lane cap follows the temperature from the biased lane count; a change is reported if and only if cap, lanes or batch changed; scales and memory cap untouched |
| `CudaBackend.Backend.ReduceLaneCap` | `mining/backends/cuda_native.py:647-655` | one lane less for later plans, never below one |
| `CudaBackend.Backend.SetVramCaps` | `mining/backends/cuda_native.py:92-93` | new caps touch no plan: the state stays valid |
| `CudaBackend.Backend.InitEngine` | `mining/backends/cuda_native.py:584-606` | the cold baseline is the memory in use, and the request made next is the one start makes from the stopped state |
| `CudaBackend.Backend.Load` | `mining/backends/cuda_native.py:607-614` | loads a packed base plan into a stopped backend and ends valid |
| `CudaBackend.Backend.Start` | `mining/backends/cuda_native.py:584-614` | succeeds if and only if the plan is accepted and passes the start check, and then runs that plan; otherwise stays stopped |
| `CudaBackend.Backend.Stop` | `mining/backends/cuda_native.py:616-626` | clears plans and heat cap; the memory cap and both scales survive |
| `CudaBackend.Backend.SetDifficulty` | `mining/backends/cuda_native.py:680-717` | replans and trims under the new difficulty; a failed replan keeps the old plan, lanes and batch; caps and scales survive |
| `ThermalPolicy.BatchScaleFallsWithHeat` | `efficiency/thermal_policy.py:136-170` | a hotter GPU never gets a larger batch scale; it stays between floor and one |
| `ThermalPolicy.PressureScaleFallsWithUse` | `efficiency/thermal_policy.py:181-212` | more memory in use never gives a larger batch scale |
| `ThermalPolicy.ThermalLanesFallWithHeat` | `efficiency/thermal_policy.py:250-296` | a hotter GPU never gets more lanes, half-to-even rounding included; between floor and plan |
| `ThermalPolicy.PressureLanesFallWithUse` | `efficiency/thermal_policy.py:215-239` | more memory in use never gives more lanes |
| `ThermalPolicy.LaneBiasFallsWithDifficulty` | `efficiency/thermal_policy.py:352-384` | a higher difficulty never gives more lanes; between one and the plan |
| `ThermalPolicy.PowerFallsWithDifficulty` | `efficiency/thermal_policy.py:40-85` | the power target never rises with difficulty across both ramps and stays in the normalised range |
| `ThermalPolicy.TightenRisesWithDifficulty` | `efficiency/thermal_policy.py:299-327` | the heat proxy for a missing board sensor rises with difficulty, within its bound |
| `ThermalPolicy.ScaledBatchBounds` | `efficiency/thermal_policy.py:173-178` | a scaled batch is monotone in the scale, between one and the planned size, and the planned size at full scale |
| `ThermalPolicy.ScaledBatchIsItsShare` | `efficiency/thermal_policy.py:173-178` | a scaled batch of one or more attempts is the whole attempts of that share, held to one half and all, and at least one |
| `ThermalPolicy.NormalizePowerRange` | `efficiency/thermal_policy.py:22-37` | the percentages asked for where they are in order and within 50 to 100, and otherwise the nearest bounds |
| `PolicyCurves.PowerFollowsTwoLines` | `efficiency/thermal_policy.py:40-85` | full power up to the low difficulty, the middle power at the reference, the floor at the high end, and to the nearest percent straight lines between |
| `PolicyCurves.MidPowerIsAThirdDown` | `efficiency/thermal_policy.py:40-85` | the middle power is, to the nearest percent, 35% of the way from target to floor |
| `PolicyCurves.HighEndIsNearest` | `efficiency/thermal_policy.py:40-85` | the high end is the nearest whole difficulty to its ratio of the reference, and above the reference |
| `PolicyCurves.FillFollowsTwoLines` | `efficiency/thermal_policy.py:88-133` | the fill fraction meets its three settings at the low, reference and high difficulties, with exact lines between |
| `PolicyCurves.HeatScaleMovesSlowly` | `efficiency/thermal_policy.py:136-170` | no degree, at the knees or between, takes more off the batch than its even share of the ramp: no jumps |
| `PolicyCurves.PressureScaleMovesSlowly` | `efficiency/thermal_policy.py:181-212` | no MiB in use takes more off the batch than its even share of the ramp |
| `PolicyCurves.HeatLanesFollowALine` | `efficiency/thermal_policy.py:250-296` | all lanes while cool, the minimum from the limit on, to the nearest lane a line between |
| `PolicyCurves.HeatLanesMoveSlowly` | `efficiency/thermal_policy.py:250-296` | between any two temperatures, rounding included, at most one lane more goes than the even share of the ramp |
| `PolicyCurves.PressureLanesFollowALine` | `efficiency/thermal_policy.py:215-239` | all lanes up to the target and a five-hundredth of the way beyond, the minimum from the emergency limit on, to the nearest lane a line between |
| `PolicyCurves.LaneBiasFollowsALine` | `efficiency/thermal_policy.py:352-384` | all lanes up to the full-pack difficulty, one from the reference on, to the nearest lane a line between |
| `PolicyCurves.FullPackExactly` | `efficiency/thermal_policy.py:352-384` | the full-pack difficulty is the whole of its ratio, held to 0.05 and 0.95, of the reference, and at least 1 |
| `PolicyCurves.TightenMovesSlowly` | `efficiency/thermal_policy.py:299-327` | between any two difficulties the heat proxy rises by at most its even share of the ramp and one degree |
| `VramGuard.LimitReachesFloor` | `efficiency/vram_guard.py:50-54` | at its limit a sensor derates the batch to the floor if and only if the limit is at least two or the reading is above the normalised warning |
| `VramGuard.AbortDeratesFully` | `efficiency/vram_guard.py:57-184` | a temperature abort, with limits of at least 2, leaves the batch at its floor and many lanes at their minimum |
| `VramGuard.AbortAndWarnExactly` | `efficiency/vram_guard.py:57-184` | with limits of at least 2, an abort and a warning if and only if a reading reaches the limit as given; a missing die reading is the hotspot's, a missing board reading the hotter one raised by the heat proxy |
| `VramGuard.DeratesByTheHotterSensor` | `efficiency/vram_guard.py:57-184` | each sensor derates on its own ramp and the harder derate of the two counts; without readings nothing is derated |
| `VramGuard.HarderNeverRelaxes` | `efficiency/vram_guard.py:57-184` | raising the difficulty alone never clears a stop or a warning and never derates less |
| `VramGuard.Guard.constructor` | `efficiency/vram_guard.py:236-266` | given limits are kept where they are in order; board limits not given follow from the die limit; warnings end below hard limits |
| `VramGuard.Guard.SetDifficultyContext` | `efficiency/vram_guard.py:268-283` | told of nothing but a harder network, the guard stops and warns wherever it did before, and its invariant holds |
| `VramGuard.Guard.Evaluate` | `efficiency/vram_guard.py:285-345` | each verdict if and only if its reason holds and no reason before it does: memory before heat, stops before warnings |
| `VramPolicy.CapsAreFeasible` | `efficiency/vram_policy.py:72-140` | for any percentages and overrides a positive target leaves the headroom free, and the floors hold |
| `VramPolicy.ShareIsExact` | `efficiency/vram_policy.py:100-123` | a percentage means the whole MiB of that share of the card; an override replaces it |
| `VramPolicy.PercentagesAreMet` | `efficiency/vram_policy.py:72-140` | without overrides, percentages that leave room for each other are met exactly: each cap is the whole MiB of its own percentage |
| `VramPolicy.ResolvedCapsAreFinal` | `efficiency/vram_policy.py:72-140` | the resolved caps handed back as absolute overrides resolve to themselves |
| `VramPolicy.LargerCardLargerCaps` | `efficiency/vram_policy.py:72-140` | a larger card never gets a smaller target, headroom, minimum headroom or emergency limit, nor, with any target, a smaller overhead |
| `VramPolicy.ResolvedCapsAdmitAPlan` | `efficiency/vram_policy.py:72-140` | on an idle GPU the planner fits under resolved caps if and only if the overhead fits under the target |
| `QueueRuns.NoBlockIsLost` | `block_queue/store.py:85-122` | over any run of hits, flushes, deferrals, imports and relabelling, with a crash after any store operation of a hit or between any two of a flush, every logged key is pending, closed by the pool or the CPU check, or waiting for the next import |
| `QueueRuns.HitIsNeverDropped` | `core/supervisor.py:1088-1200` | a hit the CPU confirms ends pending or closed, whatever the network, window, shutdown and reply |
| `QueueRuns.OnlyPooledBlocksAreAccepted` | `block_queue/flush.py:73-201` | if success replies come only for blocks the pool holds, every key recorded as accepted is in the pool, over any run |
| `QueueRuns.RestartLeavesOnlyPooledBlocksBehind` | `block_queue/store.py:321-372` | after an import every key ever logged is pending or in the pool: CPU-filtered ones are tried again |
| `QueueAccounts.RejectionLogAccounts` | `block_queue/store.py:160-229` | over any run, crashes included, logged rejections plus the first rejections a crash left counted and not logged equal the rows ever rejected plus the blocks rejected on arrival |
| `QueueCrashes.WholeHit` | `core/supervisor.py:1088-1200` | uninterrupted, the store operations of a hit in their order are the hit |
| `QueueCrashes.CrashForgetsExactly` | `core/supervisor.py:1088-1200` | a crash inside a hit forgets a new block if and only if it comes before the log entry and before an acceptance was recorded |
| `QueueCrashes.HitOpsCover` | `block_queue/store.py:85-122` | after any part of a hit only its own key can wait for the next import |
| `QueueCrashes.ScheduleCovers` | `block_queue/flush.py:244-300` | a flush cut off after any interleaving of its workers loses no key |
| `QueueProofs.ImportRecoversEveryBlock` | `block_queue/store.py:321-372` | after an import every logged key is pending or accepted, and no pending key is lost |
| `QueueProofs.ImportIsIdempotent` | `block_queue/store.py:321-372` | a second import finds nothing and changes nothing |
| `QueueProofs.ImportNeverDuplicates` | `block_queue/store.py:321-372` | an import adds a pending row for a key only if it has none |
| `QueueProofs.ImportRestoresTheRowExactly` | `block_queue/store.py:321-372` | the imported row is the one an undisturbed enqueue would have made if and only if the block carried no difficulty |
| `QueueProofs.OnlyClosedBlocksLeave` | `block_queue/flush.py:73-201` | a row leaves the queue if and only if it is marked submitted, and then the reply accepted it or the CPU filtered it |
| `QueueDecisions.PoolDecidesExactly` | `block_queue/flush.py:73-201` | the pool's reply makes a difference to a row if and only if its memory cost, its own or its hash's, is unknown or the network's, the CPU check found a type, and the window is open if that is XUNI |
| `QueueDecisions.PreparedExactly` | `block_queue/flush.py:73-201` | which rows are submitted, marked with which reason, rejected or left alone, each if and only if the row, its surroundings and the reply say so |
| `QueueDecisions.OtherDifficultyIsLeftAlone` | `block_queue/flush.py:82-94` | a flush leaves a row of another difficulty exactly as it was |
| `QueueDecisions.ChangedRowExactly` | `block_queue/flush.py:73-201` | what each decision leaves of the row: its hit always, the rest as named |
| `QueueDecisions.TypesIgnoreCase` | `block_queue/flush.py:73-201` | block types are told apart in any letter case and in no other way |
| `QueueDecisions.DeferredExactly` | `block_queue/flush.py:302-330` | every pending row gets its reason for the next start and every other row is left alone |
| `QueueDecisions.ReclassifiedExactly` | `block_queue/store.py:274-294` | relabelling changes just the pending rows whose hash says another known type, and only their type |
| `QueueDecisions.MigratedExactly` | `block_queue/store.py:296-319` | the migration marks just the pending rows whose key was once sent without success |
| `QueueDecisions.HitQueuedExactly` | `core/supervisor.py:1088-1200` | a hit is queued under a reason if and only if network, window, shutdown and reply give that reason |
| `QueueDecisions.HitRecordedExactly` | `core/supervisor.py:1088-1200` | which hits leave a submission and which a logged rejection |
| `QueueProofs.FlushRowsByRow` | `block_queue/flush.py:244-300` | what a flush leaves of each row, that the pending count falls by the departures, and that logged rejections keep pace with rejected rows |
| `QueueProofs.ScheduleKeepsDestiny` | `block_queue/flush.py:249-258` | no interleaving of row workers, one store operation at a time, changes where a row ends or how many rejections are logged |
| `QueueProofs.AnyScheduleFlushesAlike` | `block_queue/flush.py:244-300` | every finished interleaving leaves the rows and the number of rejections of a one-by-one flush, and the pending count falls by exactly the rows that left |
| `QueueProofs.EnoughMovesFinish` | `block_queue/flush.py:249-258` | a schedule that names every worker as often as it has operations left finishes them all |
| `QueueProofs.ThreeTurnsEachFlushAlike` | `block_queue/flush.py:244-300` | a schedule with three turns for each row, in any order, finishes and leaves what a one-by-one flush leaves |
| `BlockStore.DeparturesAreFlushedOrDropped` | `block_queue/flush.py:203-217` | the rows that leave are those counted as flushed or dropped |
| `BlockQueue.PendingIds` | `block_queue/store.py:402-408` | exactly the pending rows, in insertion order |
| `BlockStore.BlockStore.Enqueue` | `block_queue/store.py:85-122` | log first, then the row, and nothing else |
| `BlockStore.BlockStore.LogRejection` | `block_queue/store.py:124-147` | appends to the rejection log only |
| `BlockStore.BlockStore.RecordDirectSubmit` | `block_queue/store.py:438-455` | appends to the submission record only |
| `BlockStore.BlockStore.MarkPendingReason` | `block_queue/store.py:149-158` | changes the reason of a pending row and nothing else |
| `BlockStore.BlockStore.MarkSubmitted` | `block_queue/store.py:410-436` | closes the row and records the submission together |
| `BlockStore.BlockStore.RecordRejection` | `block_queue/store.py:160-229` | counts a rejection on the pending row of the key, logs only the first, or queues a refused live block |
| `BlockStore.BlockStore.ImportPendingFromJsonl` | `block_queue/store.py:321-372` | re-queues what is neither pending nor accepted; a dry run changes nothing and returns the same count, which is the growth of the pending count |
| `BlockStore.BlockStore.ReclassifyPending` | `block_queue/store.py:274-294` | relabels pending rows by their hash and returns how many rows changed |
| `BlockStore.QueueFlusher.PrepareRow` | `block_queue/flush.py:73-201` | decides one row and makes exactly the change of the specification |
| `BlockStore.QueueFlusher.PrepareAll` | `block_queue/flush.py:244-258` | runs every pending row once on the values the snapshot had |
| `BlockStore.QueueFlusher.ApplyOutcomes` | `block_queue/flush.py:203-242` | counts flushed and dropped rows exactly |
| `BlockStore.QueueFlusher.Flush` | `block_queue/flush.py:244-300` | lowers the pending count by exactly flushed plus dropped |
| `BlockStore.QueueFlusher.DeferToNextStart` | `block_queue/flush.py:302-330` | marks every pending row once, and returns how many |
| `BlockStore.HitHandler.QueueHit` | `core/supervisor.py:1195-1200` | queues the hit with its reason |
| `BlockStore.HitHandler.HandleHit` | `core/supervisor.py:1088-1194` | every branch of the producer side ends in the state of the specification |
| `SubmitResult.ShortPhrasesDecide` | `networking/submit_result.py:14-42` | the longer phrases are redundant: short ones decide difficulty and window rejections |
| `SubmitResult.NoConnectionKeepsTheBlock` | `networking/submit_result.py:4-69` | without a connection a block is accepted by name or kept, never rejected |
| `SubmitResult.CountedExactly` | `networking/submit_result.py:45-69` | a reply counts as a rejection if and only if it names no success, no difficulty, no window and no lost connection |
| `MerkleTree.EqualRootsMeanEqualListsOrACollision` | `native/XenblocksMiner-main/src/MerkleTree.cpp:58-75` | equal roots of equally long lists of equally long elements mean equal lists, or two of the strings hashed collide |
| `MerkleTree.RootBindsLevels` | `native/XenblocksMiner-main/src/MerkleTree.cpp:58-75` | without a collision among the hashed strings, equal roots mean equal lists |
| `MerkleTree.RepeatingTheLastKeepsTheRoot` | `native/XenblocksMiner-main/src/MerkleTree.cpp:65-67` | repeating the last element of an odd list of three or more keeps the root |
| `MerkleShapes.SharedRootsExactly` | `native/XenblocksMiner-main/src/MerkleTree.cpp:58-75` | without collisions, lists of any lengths, of elements not as long as a hash, share a root if and only if they have the same depth and fill the same full tree |
| `MerkleShapes.DifferentDepthSameRoot` | `native/XenblocksMiner-main/src/MerkleTree.cpp:58-75` | for elements of any length, a list shares the root of a deeper one if and only if it fills the full tree of the level above it at its own depth |
| `MerkleTree.NodesGrow` | `native/XenblocksMiner-main/src/MerkleTree.cpp:64-74` | building never changes an entry already in the map, and every key is the hash of its children |
| `MerkleTree.WalkReachesEveryElement` | `native/XenblocksMiner-main/src/MerkleTree.cpp:64-74` | from the root, the bits of an index lead through the map to that element |
| `MerkleTree.BuiltTreeAnswersEveryIndex` | `native/XenblocksMiner-main/src/MerkleTree.cpp:58-75` | the same for a map built from scratch |
| `MerkleTree.DepthIsCeilingLog2` | `native/XenblocksMiner-main/src/MerkleTree.cpp:58-75` | the number of lookups is the ceiling of the binary logarithm of the length |
| `MerkleTree.MerkleTree.constructor` | `native/XenblocksMiner-main/src/MerkleTree.cpp:8-10` | a built tree holds the root and the map of its elements |
| `MerkleTree.MerkleTree.HashPairs` | `native/XenblocksMiner-main/src/MerkleTree.cpp:64-72` | one pass hashes the level above and enters every pair |
| `MerkleTree.MerkleTree.BuildTree` | `native/XenblocksMiner-main/src/MerkleTree.cpp:58-75` | root and map are those of the specification, on top of the map before |
| `MerkleTree.MerkleTree.GetMerkleRoot` | `native/XenblocksMiner-main/src/MerkleTree.cpp:13-15` | the root is that of the elements the tree was built from, and of no other equally long list without a collision |
| `ServerUptime.AddDurationIsExact` | `monitoring/server_uptime.py:147-162` | splitting an interval at the hours credits each hour with exactly its overlap |
| `ServerUptime.RunsAreConsistent` | `monitoring/server_uptime.py:186-204` | every run of non-decreasing probes keeps exact buckets, ordered outages, and an outage open iff the last probe failed |
| `ServerUptime.BucketsAreExact` | `monitoring/server_uptime.py:147-204` | each bucket's online plus offline time is the overlap of first to last probe with its hour, so at most 3600 |
| `ServerUptime.OutagesAreOrdered` | `monitoring/server_uptime.py:164-204` | closed outages are disjoint, ordered and non-empty; one is open exactly when the last probe failed |
| `ServerUptime.TotalOfflineIsOutageDuration` | `monitoring/server_uptime.py:164-204` | all offline seconds are the closed durations plus the open outage up to the last probe |
| `ServerUptime.OfflineHoursAreOutageTime` | `monitoring/server_uptime.py:147-204` | the offline time of any stretch of hours is the outage time inside it |
| `ServerUptime.ProjectionIsTheNextProbe` | `monitoring/server_uptime.py:206-237` | the projection shown live equals the buckets a probe at that moment would record, whatever it finds |
| `ServerUptime.SummaryIsOutageTime` | `monitoring/server_uptime.py:239-325` | the 24-hour figure is the outage time since the clock hour 23 hours ago, the open outage up to now |
| `ServerUptime.XuniWindowIsAroundTheHour` | `block_queue/policy.py:10-13` | the window is the four minutes before each full hour and the five after it |
| `ServerUptime.HourCountExactly` | `monitoring/server_uptime.py:239-325` | an hour's count is the number of outages that began in it |
| `ServerUptime.WindowCountExactly` | `monitoring/server_uptime.py:239-325` | the window count is the number of outages that met the window |
| `UptimeClock.BucketsAreExactIff` | `monitoring/server_uptime.py:186-204` | over any run the buckets are the overlap of first to last probe with each hour if and only if probe times never fall or never rise |
| `UptimeClock.BackwardClockOverfillsAnHour` | `monitoring/server_uptime.py:186-204` | a witness: an hour the clock revisits is counted twice |
| `ServerUptime.ServerUptimeTracker.AddInterval` | `monitoring/server_uptime.py:147-162` | the cursor loop credits the buckets of the specification |
| `ServerUptime.ServerUptimeTracker.OutageOverlapsXuni` | `monitoring/server_uptime.py:43-51` | the minute-by-minute scan finds the window exactly when some instant of the outage is in it |
| `ServerUptime.ServerUptimeTracker.Close` | `monitoring/server_uptime.py:168-184` | closes the open outage, dropping it if empty |
| `ServerUptime.ServerUptimeTracker.Record` | `monitoring/server_uptime.py:186-204` | one probe moves buckets, outages and last probe as specified |
| `ServerUptime.ServerUptimeTracker.ProjectHourly` | `monitoring/server_uptime.py:206-237` | returns the projection and changes nothing |
| `ServerUptime.ServerUptimeTracker.View` | `monitoring/server_uptime.py:239-325` | rows newest first with offline time, outage count and percentage of the projection; the average, the counts, the current outage and the 24-hour figure |
| `LeaseMarket.NeverTwoActiveLeases` | `native/XenblocksMiner-main/server/matcher.py:131-229` | however renting, stopping, the unlocked expiry pass and worker messages interleave at their awaits, no worker ever has two active leases |
| `LeaseMarket.CompletedLeasesStayCompleted` | `native/XenblocksMiner-main/server/matcher.py:196-229` | whatever happens later, a completed lease stays completed and keeps its worker and consumer |
| `LeaseMarket.StepTask` | `native/XenblocksMiner-main/server/matcher.py:139-205` | one step moves one task, and the lock changes hands only with it |
| `LeaseTerms.ExpiryTakesExactly` | `native/XenblocksMiner-main/server/matcher.py:213-217` | the expiry pass takes a lease if and only if the query returned it, it is active and it has run out |
| `LeaseTerms.ExpiryWorksThroughItsList` | `native/XenblocksMiner-main/server/matcher.py:213-229` | the pass completes each lease of its list in turn, frees that lease's worker next, and ends with its list |
| `LeaseTerms.RentConsidersExactly` | `native/XenblocksMiner-main/server/matcher.py:139-167` | a rent goes on to just the available workers: the one asked for, or those listed |
| `LeaseTerms.RentLeasesTheFirstFree` | `native/XenblocksMiner-main/server/matcher.py:139-190` | the first of them without an active lease is leased |
| `LeaseTerms.LeasesAreAskedFor` | `native/XenblocksMiner-main/server/matcher.py:139-190` | over any run every lease names a consumer and a worker that were asked for together, and expires the time asked for after the step that made it |
| `LeaseTerms.LeasesRunTheirTime` | `native/XenblocksMiner-main/server/matcher.py:196-229` | over any run a lease nobody asks to stop is active until some step comes later than its time |
| `LeaseRaces.ListedFreeExactly` | `native/XenblocksMiner-main/server/matcher.py:54-229` | which events, in any state, make a worker available and leased at once: registering or reporting a leased worker, freeing one that is leased, leasing one that is still listed; and no others |
| `LeaseRaces.StopsNeverFreeALeasedWorker` | `native/XenblocksMiner-main/server/matcher.py:196-205` | over any run a stop never does: only messages, the expiry pass and the middle of a rent can |
| `LeaseRaces.QuietRunsListCorrectly` | `native/XenblocksMiner-main/server/matcher.py:131-205` | in a run of rents, stops and first registrations no worker is listed as available while leased, whenever the lock is free |
| `LeaseRaces.ExpiryRaceIsReachable` | `native/XenblocksMiner-main/server/matcher.py:213-229` | with the lock free and nothing amiss, a reachable expiry pass lists a leased worker as available |
| `LeaseRaces.LockIsGivenBack` | `native/XenblocksMiner-main/server/matcher.py:139-205` | from any reachable state the lock holder has given the lock back after boundedly many of its own steps, whatever happens in between |
| `Settlement.SettlementEngine.SettleLease` | `native/XenblocksMiner-main/server/settlement.py:37-119` | all balance changes and entries or none, whichever database call fails; the outcome says which |
| `Settlement.SettlementEngine.Transact` | `native/XenblocksMiner-main/server/settlement.py:74-95` | either one of the six statements failed, or the balances moved and the three entries are logged |
| `Settlement.BalancesFollowTheLog` | `native/XenblocksMiner-main/server/settlement.py:74-95` | over any run every existing account moves by exactly its logged charges, payouts and fees; the log only grows |
| `Settlement.MoneyIsAccountedFor` | `native/XenblocksMiner-main/server/settlement.py:74-95` | the balances plus what was logged to accounts that do not exist stay constant over any run |
| `Settlement.SettlementConservesExactly` | `native/XenblocksMiner-main/server/settlement.py:74-85` | a committed settlement keeps the sum of balances if and only if it moves nothing or both payees exist |
| `Settlement.RunConserves` | `native/XenblocksMiner-main/server/settlement.py:37-96` | with the platform and every worker registered, any run keeps the sum of balances |
| `Settlement.NobodyIsOverdrawn` | `native/XenblocksMiner-main/server/settlement.py:64-71` | with non-negative times and prices no account goes below zero or deeper below it, over any run |
| `Settlement.RecordAddsUp` | `native/XenblocksMiner-main/server/settlement.py:105-114` | payout and fee add up to the cost, 19 to 1, and the full price is charged if and only if the balance covers it or it is zero |
| `Settlement.RecordedCostExactly` | `native/XenblocksMiner-main/server/settlement.py:43-71` | the recorded cost is the seconds times the rate of the lease, or the default rate, cut to what the balance holds and never below zero |
| `ChainSimulator.IndexesAgreeWithTheLog` | `native/XenblocksMiner-main/server/chain_simulator.py:164-222` | after any submissions: known keys are the log's keys, all distinct; ids are 1 to n; each balance is the sum of its account's rewards; difficulty is the adjustment iterated n div interval times |
| `ChainSimulator.BalanceIsTheListing` | `native/XenblocksMiner-main/server/chain_simulator.py:221-234` | the balance of an address, in any letter case, is the sum of rewards of its untruncated block listing |
| `Text.LowerForgetsCase` | `native/XenblocksMiner-main/server/chain_simulator.py:206-213` | two addresses are one account if and only if they differ in nothing but the case of their letters |
| `ChainSimulator.SupplyIsMinted` | `native/XenblocksMiner-main/server/chain_simulator.py:244-256` | all balances together are 50, 10 and 1 times the counted blocks, and the counts add up to the ids given out |
| `ChainSimulator.KeyIsAcceptedOnce` | `native/XenblocksMiner-main/server/chain_simulator.py:182-184` | a key in the log is refused as a duplicate for ever, whatever comes with it |
| `ChainSimulator.ClassifiedExactly` | `native/XenblocksMiner-main/server/chain_simulator.py:137-148` | super, normal and XUNI, each if and only if the hash has the marker, its fifty capitals, or a digit after XUNI inside the window |
| `ChainSimulator.MarksAreRead` | `native/XenblocksMiner-main/server/chain_simulator.py:137-148` | a marker stands at a place sign by sign, and XUNI is followed there by a decimal digit |
| `ChainSimulator.KeysAccepted` | `native/XenblocksMiner-main/server/chain_simulator.py:150-162` | 64 hexadecimal digits or more are accepted; an empty key, a short one and one with any foreign sign are refused |
| `ChainSimulator.SignedKeysAccepted` | `native/XenblocksMiner-main/server/chain_simulator.py:158-162` | a sign before the digits is accepted, as the number parser takes it |
| `ChainSimulator.PrefixedKeysAccepted` | `native/XenblocksMiner-main/server/chain_simulator.py:158-162` | so is 0x |
| `ChainSimulator.BlankedKeysAccepted` | `native/XenblocksMiner-main/server/chain_simulator.py:158-162` | so is a blank before or after them |
| `ChainSimulator.UnderscoredKeys` | `native/XenblocksMiner-main/server/chain_simulator.py:158-162` | and one underscore between two digits, but none in front |
| `ChainSimulator.TwoUnderscoresRefused` | `native/XenblocksMiner-main/server/chain_simulator.py:158-162` | two underscores in a row are refused |
| `ChainSimulator.LogOnlyGrows` | `native/XenblocksMiner-main/server/chain_simulator.py:191-204` | later submissions only extend the log and the known keys |
| `ChainSimulator.DifficultyClimbsToTheCap` | `native/XenblocksMiner-main/server/chain_simulator.py:279-285` | from the first adjustment difficulty grows by at least 5 a time, and stays put exactly at its maximum |
| `ChainSimulator.AdjustIsFivePercent` | `native/XenblocksMiner-main/server/chain_simulator.py:279-285` | inside the limits the new difficulty is the whole part of 105 hundredths of the old |
| `ChainSimulator.ListingIsExact` | `native/XenblocksMiner-main/server/chain_simulator.py:228-242` | a block listing holds exactly the matching blocks of the log, newest first |
| `ChainSimulator.PrefixListing` | `native/XenblocksMiner-main/server/chain_simulator.py:236-242` | the prefix query ignores letter case, never repeats a block, and untruncated misses none |
| `ChainSimulator.LastBlocksOfNone` | `native/XenblocksMiner-main/server/chain_simulator.py:224-226` | the last-blocks query returns the whole log if and only if the count covers it, is zero, or there is nothing |
| `ChainSimulator.ChainSimulator.constructor` | `native/XenblocksMiner-main/server/chain_simulator.py:102-118` | a new simulator is the consistent empty chain |
| `ChainSimulator.ChainSimulator.AdjustDifficulty` | `native/XenblocksMiner-main/server/chain_simulator.py:279-285` | five percent up, clamped |
| `ChainSimulator.ChainSimulator.Accept` | `native/XenblocksMiner-main/server/chain_simulator.py:191-213` | appends, indexes, pays and adjusts |
| `ChainSimulator.ChainSimulator.SubmitBlock` | `native/XenblocksMiner-main/server/chain_simulator.py:164-219` | judges and applies a submission, and keeps every index consistent |
| `ChainSimulator.ChainSimulator.GetBalance` | `native/XenblocksMiner-main/server/chain_simulator.py:221-222` | the balance is what the log says the lower-cased account earned |
| `MqttCodec.EncodeRemainingLength` | `native/XenblocksMiner-main/server/broker.py:41-51` | the loop writes the code of section 2.2.3 for every natural number |
| `MqttCodec.DecodeRemainingLength` | `native/XenblocksMiner-main/server/broker.py:54-68` | the loop reads the code at any offset, or reports it incomplete |
| `MqttCodec.LengthRoundTrip` | `native/XenblocksMiner-main/server/broker.py:41-68` | every number survives, whatever bytes follow |
| `MqttCodec.LengthCodeIsPrefixFree` | `native/XenblocksMiner-main/server/broker.py:41-51` | no code begins another |
| `MqttCodec.CutLengthIsIncomplete` | `native/XenblocksMiner-main/server/broker.py:54-68` | a code that stops early is never taken as complete |
| `MqttCodec.LengthCodeSizesOfTheStandard` | `native/XenblocksMiner-main/server/broker.py:41-51` | one to four bytes exactly for the ranges of the table in section 2.2.3 of MQTT 3.1.1 |
| `MqttCodec.AcceptedCodeIsMinimal` | `native/XenblocksMiner-main/server/broker.py:54-68` | an accepted code is the encoder's own if and only if it is one byte or does not end in a zero byte |
| `MqttCodec.FiveByteLengthIsAccepted` | `native/XenblocksMiner-main/server/broker.py:59-67` | the decoder takes a fifth byte, beyond the standard's limit |
| `MqttCodec.StringFieldRoundTrip` | `native/XenblocksMiner-main/server/broker.py:71-84` | a string field decodes at its place between any bytes |
| `MqttCodec.StringFieldIsStrict` | `native/XenblocksMiner-main/server/broker.py:71-84` | a field that decodes is the only encoding of its string |
| `Utf8.StringRoundTrip` | `native/XenblocksMiner-main/server/broker.py:82-84` | UTF-8 encoding is undone by decoding |
| `Utf8.DecodeIsStrict` | `native/XenblocksMiner-main/server/broker.py:78` | one byte string per string: overlong forms, surrogates and stray bytes are refused |
| `Utf8.KnownCharacters` | `native/XenblocksMiner-main/server/broker.py:82-84` | the four examples of RFC 3629, section 7, byte for byte |
| `MqttCodec.PublishRoundTrip` | `native/XenblocksMiner-main/server/broker.py:313-323` | a PUBLISH body parses to the topic, quality of service, packet id and payload it was built from |
| `MqttCodec.ParseIsStrict` | `native/XenblocksMiner-main/server/broker.py:313-323` | a body that parses is rebuilt byte for byte from what was parsed |
| `MqttCodec.ForwardingKeepsTheMessage` | `native/XenblocksMiner-main/server/broker.py:343` | forwarding never fails to encode and keeps topic and payload, with quality of service at most 1 |
| `MqttStream.StreamReader.ReadExact` | `native/XenblocksMiner-main/server/broker.py:260-267` | exactly n bytes in order whatever the chunks, or the stream ended |
| `MqttStream.StreamReader.ReadLength` | `native/XenblocksMiner-main/server/broker.py:222-229` | the bytes of one length code, or the stream ended in it |
| `MqttStream.StreamReader.ReadFrame` | `native/XenblocksMiner-main/server/broker.py:215-233` | the first frame of the stream, or it is incomplete |
| `MqttStream.StreamReader.ReadLoop` | `native/XenblocksMiner-main/server/broker.py:214-252` | what a connection comes to depends on its bytes alone, not on how they arrive |
| `MqttStream.StreamRoundTrip` | `native/XenblocksMiner-main/server/simulator.py:157-178` | any list of client packets is served as exactly that list with one reply each, and then the rest of the stream is |
| `MqttStream.BrokenStreamDeliversWholePackets` | `native/XenblocksMiner-main/server/broker.py:214-233` | a stream cut inside a packet delivers the packets before it and nothing of the last |
| `MqttStream.DisconnectEndsTheSession` | `native/XenblocksMiner-main/server/broker.py:244-245` | after DISCONNECT nothing more is read |
| `MqttStream.FrameRoundTrip` | `native/XenblocksMiner-main/server/broker.py:214-233` | any body under any type and flags is cut out again as it was framed |
| `MqttStream.BuiltPublishIsRead` | `native/XenblocksMiner-main/server/broker.py:398-411` | what the broker sends on is one frame, read as the topic, quality of service and payload it was built from |
| `MqttStream.MalformedEndsTheSession` | `native/XenblocksMiner-main/server/broker.py:251-252` | a frame that does not parse ends the session; what follows is not read |
| `MqttStream.OtherKindsArePassedOver` | `native/XenblocksMiner-main/server/broker.py:246-247` | packets of other kinds are passed over |
| `MqttStream.SubscribeMeaning` | `native/XenblocksMiner-main/server/broker.py:364-377` | a client's SUBSCRIBE is read back as its filter with the quality of service granted |
| `MqttStream.SubscribeRoundTrip` | `native/XenblocksMiner-main/server/broker.py:364-377` | a SUBSCRIBE of any filters is read as those filters, each granted at most 1; above 253 it fails |
| `MqttStream.UnsubscribeRoundTrip` | `native/XenblocksMiner-main/server/broker.py:384-392` | an UNSUBSCRIBE of any filters is read as those filters |
| `MqttStream.RepliesAreFrames` | `native/XenblocksMiner-main/server/broker.py:325-396` | each acknowledgement is one frame of its kind under the packet id it answers; a PUBLISH hears one exactly at quality of service 1 |
| `MqttStream.KnownReplies` | `native/XenblocksMiner-main/server/broker.py:325-396` | the bytes of the four replies |
| `MqttStream.KnownPackets` | `native/XenblocksMiner-main/server/simulator.py:157-178` | the bytes of the client's two packets |
| `MqttStream.SubackFrames` | `native/XenblocksMiner-main/server/broker.py:380` | the SUBACK is one well-formed frame if and only if it grants at most 125 filters |
| `TopicMatch.MqttTopicMatches` | `native/XenblocksMiner-main/server/broker.py:87-105` | the index loop decides the level-by-level matching relation |
| `TopicMatch.SplitJoins` | `native/XenblocksMiner-main/server/broker.py:89-90` | splitting at slashes loses nothing and leaves no slash |
| `TopicMatch.MatcherIsTheStandard` | `native/XenblocksMiner-main/server/broker.py:87-105` | for every filter and topic the answer is that of section 4.7.1 for the filter up to its first #; valid filters are read whole |
| `TopicMatch.PlainFilterMatchesItselfOnly` | `native/XenblocksMiner-main/server/broker.py:87-105` | a filter without + and # matches exactly the topic it spells |
| `TopicMatch.HashMatchesTheParent` | `native/XenblocksMiner-main/server/broker.py:103-104` | a filter ending in # matches the level above and everything below |
| `TopicMatch.DollarTopics` | `native/XenblocksMiner-main/server/broker.py:87-105` | for valid filters the answer departs from section 4.7.2 exactly on $ topics under #, or under + when the rest matches |
| `TopicMatch.HashSeesSystemTopics` | `native/XenblocksMiner-main/server/broker.py:87-105` | # matches $SYS/uptime, which section 4.7.2 forbids |
| `MqttBroker.TableHoldsRunningSessions` | `native/XenblocksMiner-main/server/broker.py:199-211` | every entry of the client table is a running session of that client |
| `MqttBroker.ReachedUntilDisplaced` | `native/XenblocksMiner-main/server/broker.py:203-257` | a session is the one its client is reached by if and only if the client has not connected again, the broker has not stopped and no session of that client has ended since |
| `MqttBroker.ReconnectIsForgotten` | `native/XenblocksMiner-main/server/broker.py:253-256` | a client that reconnects before its old connection ends drops out of the table while connected |
| `MqttBroker.FiltersAreThoseAsked` | `native/XenblocksMiner-main/server/broker.py:364-392` | over any run a running session holds a filter if and only if it subscribed to it while running and has not unsubscribed since |
| `MqttBroker.Broker.constructor` | `native/XenblocksMiner-main/server/broker.py:130-136` | no clients |
| `MqttBroker.Broker.Attach` | `native/XenblocksMiner-main/server/broker.py:203-211` | the new session replaces the old entry of its client |
| `MqttBroker.Broker.AddFilter` | `native/XenblocksMiner-main/server/broker.py:364-377` | the session's filters grow by one |
| `MqttBroker.Broker.RemoveFilter` | `native/XenblocksMiner-main/server/broker.py:384-392` | the filter is gone |
| `MqttBroker.Broker.Detach` | `native/XenblocksMiner-main/server/broker.py:253-257` | the session ends and its client's entry goes, whoever holds it |
| `MqttBroker.Broker.MatchesAny` | `native/XenblocksMiner-main/server/broker.py:348-349` | finds a matching filter if and only if there is one |
| `MqttBroker.Broker.Route` | `native/XenblocksMiner-main/server/broker.py:342-355` | every client on file with a matching filter, except the sender, is sent the message once; nobody else is |

## Left out

- IEEE rounding: prices, scales, costs and fractions are exact rationals.
- CUDA, the native library, lane worker processes and the temperature and memory sensors: their results are inputs.
- `CudaVramPlan.vram_scale`, `batch_size` and the texts of summaries: they repeat modelled fields or are only shown.
- Parsing of settings, the lane-policy file and `restore_lane_cap_if_cool`: a raised lane cap acts only on
  the next plan, which is proved safe for every cap.
- Cap overrides with a negative headroom: the backend is modelled for settings whose headroom and overhead floors are not negative.
- CudaBackend.Backend.ValidIsSafe: states safety at the plan's own difficulty, since a failed replan keeps the old plan.
- ClampProofs.StepLimitNeverBites: the bound is sufficient, not exact; the exact number of trims depends on floors.
- The guard's message texts and cooldown, and the fallback reading of old metrics.
- SQLite, JSON and file mechanics, schema migration, timestamps and hash rates of rows.
- A crash inside a single database transaction, which SQLite rolls back, and two flushes of one queue at the same time.
- Metrics, local statistics, reporters, user interface and log messages.
- Unicode lower and upper casing, digits and blanks beyond ASCII.
- Retention pruning, saving and local time zones of the uptime tracker; time is whole seconds.
- An empty Merkle list, on which the recursion does not end.
- Objects of the matcher: renting, stopping and expiry are modelled as steps on values, since they interleave at their awaits.
- Worker heartbeats, MQTT messages to workers, prefixes and prices of a lease.
- Settling a lease at most once: it does not follow when stopping overlaps the unlocked expiry pass.
- Settlements that overlap in time on the shared database connection.
- The SQL of server/storage/: its tables are maps and sequences, each query one step.
- A block interval of zero in the chain simulator, which raises after the block was credited; HTTP routes and statistics.
- CONNECT parsing and keep-alive, quality-of-service fields above three, the retain and duplicate flags, JSON payloads.
- The client's own read loop, whose string decoder does not check lengths.
- Failed sends to a subscriber, which are swallowed.
- Wallets, accounts, reputation, pricing, dashboards, benchmarks and token display.
