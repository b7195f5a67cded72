# Tasker5000 core, modelled in Dafny

Tasker5000 is a day planner for a clinician. This project models its core in Dafny:

- **Adaptive itinerary generator** (`timeBlockEngine.js`). It turns a day's windows, a task list and a basket of parallel work into a timeline of blocks:
  - Admin and Focus windows are filled from a general FIFO queue, up to a capacity cap.
  - Clinical-Parallel windows are filled round-robin with sweeps of 20 to 40 minutes.
  - A Clinical-Supervision window becomes a single block.
  - PM sign-off and wind-down blocks are guaranteed.
  - "Auto-slide" repair lays each segment out without overlaps, then shortens the last block or demotes the lowest-yield block to a carryover log.
  - When the day ends early, the PM segment is rebuilt as a fixed skeleton.
- **Smaller browser-side pieces:**
  - The adaptive day planner (`adaptivePlanner.js`).
  - Stored-task recovery from JSON (`taskStorage.js`).
  - The per-day selection store (`dayState.js`).
  - The Morning Launch checklist state (`morningLaunch.js`).
  - The session lookup tables (`sessionState.js`).
- **"tasker5000" chart helper:**
  - The FMCA per-minute state machine (`fmca_engine.py`).
  - Chart scoring and top-batch selection (`task_display.py`).
  - The in-memory chart table (`chart_state.py`).
  - The capacity band and controls table (`main.py`).
  - The client's formatting and lookup helpers (`app.js`).

The model follows the shape of the code:

- **Loops become methods.** The engine's window fillers, `slideSegment`, `compressPM`, `computeSegmentMeta`, the bucket-entry builder, the stored-task sorter and the FMCA loop are methods with loop invariants. Each is proved equal to a recursive specification function, and the properties are proved about that function.
- **Per-call locals become values.** The engine's queues, pool, counter and block list are threaded through the methods as values: the source creates them fresh inside `generateAdaptiveItinerary`.
- **Objects mutated in place become classes:**
  - the FMCA `ChartTask`;
  - the `chart_db` table;
  - the `dayState` store;
  - the Morning Launch page state;
  - the chart carousel index.
- **Times** are whole minutes.
- **JSON** is a datatype, and `JSON.parse` is a function parameter returning `None` when it throws.
- **Clock strings** are `seq<char>`.

Four details of the code that the model keeps as written:

- `score_chart` tops out at 100 (50 + 40 + 10), not 110.
- `deriveParallelMinutes` multiplies a positive `count` by `minutesPerItem`, which defaults to 5 when missing.
- `slideSegment` does not close gaps: a block starts at the later of its own start and the previous block's end.
- `handleCheckboxToggle` un-completes the checklist without clearing `completedAt`. So "completedAt is null whenever completed is false" holds after `ensureState` and `setCompletedState`, but not after an untick (`MorningLaunch.UntickKeepsStamp`).

## Model

| member | source | states |
|---|---|---|
| Clock.ParseClock | timeBlockEngine.js:10-15 | toMinutes: split on ':', both parts read as numbers, h*60+m; never negative for digit strings |
| Clock.ParseClockDigits | timeBlockEngine.js:10-15 | "<digits>:<digits>" reads as hours*60 + minutes |
| Clock.ParseClockNeedsColon | adaptivePlanner.js:3-8 | a string without ':' has no second part and is not a time (NaN) |
| Clock.Pad | timeBlockEngine.js:6-8 | padStart(2,'0') of a number below 100 is exactly its two digits |
| Clock.ToTime | timeBlockEngine.js:17-22 | toTime renders exactly "HH:MM": five characters, two digits, a colon, two digits |
| Clock.ToTimeInDay | timeBlockEngine.js:17-22 | within a day, the hour's and the minute's two digits |
| Clock.ToTimeRoundTrip | timeBlockEngine.js:10-22 | toMinutes(toTime(m)) == m for every whole m in [0, 1440) |
| Clock.ToTimeWraps | timeBlockEngine.js:19 | hours wrap modulo 24: m and m mod 1440 render the same |
| Clock.ToTimeNegative | adaptivePlanner.js:10-15 | negative minutes render as "00:00" |
| EngineTypes.ClampMinutes | timeBlockEngine.js:24-28 | a positive number is kept, anything else gives the fallback |
| EngineTypes.CategoryIndex | timeBlockEngine.js:1 | each parallel category has its position in Results, Calls, Charts, Advice |
| EngineTypes.CategoryYield | timeBlockEngine.js:203 | a sweep's yield lies in [2, 5] |
| EngineTypes.Entries | timeBlockEngine.js:321-322 | the sliding blocks of a segment are the segment's non-carryover blocks |
| EngineTypes.EntriesOfCarryovers | timeBlockEngine.js:322 | carryover logs never take part in sliding |
| EngineQueues.DeriveParallelMinutes | timeBlockEngine.js:30-42 | the derived minutes are never negative |
| EngineQueues.CountTakesPrecedence | timeBlockEngine.js:34-38 | a positive count times minutesPerItem (5 when missing) wins over `minutes` |
| EngineQueues.MinutesWithoutCount | timeBlockEngine.js:39 | without a positive count, a positive `minutes` is used, else 0 |
| EngineQueues.ClusterOf | timeBlockEngine.js:48-56 | remaining from minutes ?? duration (default 30), slice default min(total, 45), yield default 2, non-empty labels |
| EngineQueues.NormaliseGeneralTasks | timeBlockEngine.js:44-60 | the loop pushes exactly one valid cluster per non-quick-win task, in input order |
| EngineQueues.QuickWinsSorted | timeBlockEngine.js:62-70 | the quick wins are a permutation of the quick-win tasks, each 1..15 minutes, ascending by minutes |
| EngineQueues.TasksPartitioned | timeBlockEngine.js:72-74 | every task goes to exactly one of the general queue and the quick wins |
| EngineQueues.ParallelPoolOf | timeBlockEngine.js:75-81 | the pool holds exactly the categories with positive derived minutes, with those minutes |
| EngineQueues.PoolUpToContents | timeBlockEngine.js:76-81 | after i categories the pool holds exactly the earlier categories with positive minutes |
| EngineQueues.ClusterTasks | timeBlockEngine.js:72-83 | the three queues are the general queue, the sorted quick wins and the positive pool |
| EngineQueues.QuickWinOf | timeBlockEngine.js:62-70 | a quick win's minutes, min(clampMinutes(minutes, 15), 15), lie in 1..15 |
| EngineMeta.WindowTimes | timeBlockEngine.js:89-90 | a window's times are present exactly when both clock strings read |
| EngineMeta.MetaStepLookup | timeBlockEngine.js:88-97 | a window widens its segment's span to min start and max end, or adds the span |
| EngineMeta.SegmentMetaPresence | timeBlockEngine.js:85-100 | a segment has a span exactly when one of its windows counts |
| EngineMeta.SegmentMetaCovers | timeBlockEngine.js:91-97 | each counted window lies inside its segment's span |
| EngineMeta.SegmentMetaAttained | timeBlockEngine.js:91-97 | a span's start and end are each attained by one of the segment's windows |
| EngineMeta.SegmentMetaUnique | timeBlockEngine.js:86 | the span table holds each segment name once, as a Map does |
| EngineMeta.ComputeSegmentMeta | timeBlockEngine.js:85-100 | the loop computes the span table of the specification, with unique names |
| EngineGeneral.WindowCap | timeBlockEngine.js:136-137 | the cap is floor(duration*multiplier), never above the duration, never negative |
| EngineGeneral.GeneralFillContiguous | timeBlockEngine.js:152-159 | the blocks are laid contiguously from the window start |
| EngineGeneral.GeneralFillBlocks | timeBlockEngine.js:142-154 | each block is at least 5 minutes and numbered counter+1, counter+2, ... |
| EngineGeneral.GeneralFillWithinCap | timeBlockEngine.js:138-158 | the blocks' total minutes are at most the cap |
| EngineGeneral.GeneralFillConserves | timeBlockEngine.js:157-158 | minutes scheduled equal the total decrease of the queue's remaining minutes |
| EngineGeneral.GeneralFillDequeues | timeBlockEngine.js:160-162 | a cluster leaves the queue exactly when used up; the rest keeps its order |
| EngineGeneral.GeneralFillSlices | timeBlockEngine.js:141-150 | every block is a slice of a queued cluster, no longer than its slice or its remaining minutes |
| EngineGeneral.GeneralFillStops | timeBlockEngine.js:140-143 | the fill stops only when the queue is empty, the cap is spent or the next slice is under 5 |
| EngineGeneral.FillGeneralWindow | timeBlockEngine.js:133-164 | the loop appends exactly the specified fill of the window and returns the new queue and counter |
| EngineParallel.TakeParallelMinutes | timeBlockEngine.js:173-182 | takes min(slice, minutes) from a category and keeps every pool value positive |
| EngineParallel.TakeEffect | timeBlockEngine.js:176-180 | the category loses what was taken and leaves when emptied; other categories are untouched |
| EngineParallel.AnyParallelMinutes | timeBlockEngine.js:166-171 | true exactly when some category holds at least 20 minutes |
| EngineParallel.SweepBlock | timeBlockEngine.js:199-210 | a sweep is titled "<kind> Sweep" with that kind's source and yield |
| EngineParallel.StepCases | timeBlockEngine.js:195-198 | a take under 20 minutes is consumed without emitting a block; otherwise a sweep is emitted |
| EngineParallel.RoundSweeps | timeBlockEngine.js:194-216 | one round emits only sweeps, in strictly increasing Results, Calls, Charts, Advice order |
| EngineParallel.RoundAccounted | timeBlockEngine.js:194-216 | one round's blocks are contiguous, numbered, within capacity and drawn from the pool |
| EngineParallel.Cycle | timeBlockEngine.js:193-217 | a round is marked consumed exactly when it emitted a block, which costs at least 20 minutes of capacity |
| EngineParallel.RoundFollowsOrder | timeBlockEngine.js:194 | no category comes round twice within one cycle |
| EngineParallel.ParallelFillShape | timeBlockEngine.js:189-218 | every emitted block is a 20..40-minute sweep, contiguous, numbered, within the cap and the pool |
| EngineParallel.ParallelFillFirst | timeBlockEngine.js:192-210 | the first sweep is for the first category in order holding at least 20 minutes |
| EngineParallel.RunRound | timeBlockEngine.js:194-216 | the for-loop computes one round of the specification |
| EngineParallel.FillParallelWindow | timeBlockEngine.js:184-219 | windows under 12 minutes get nothing; otherwise the loop appends the specified fill |
| EngineParallel.CycleFirst | timeBlockEngine.js:192-210 | a cycle opens with a sweep of the first category holding at least 20 minutes, min(40, capacity, its minutes) long |
| EngineBuild.EnqueueQuickWin | timeBlockEngine.js:107-123 | the first quick win is scheduled at the segment start when one is left and the segment has a span; otherwise nothing changes |
| EngineBuild.FirstQuickWinShortest | timeBlockEngine.js:107-123 | the first quick win scheduled is the shortest, 1..15 minutes from the segment start |
| EngineBuild.SupervisionCoversWindow | timeBlockEngine.js:221-236 | a supervision window becomes one block spanning exactly the window |
| EngineBuild.DispatchSkips | timeBlockEngine.js:279-288 | a window without readable times, or of another type, adds nothing |
| EngineBuild.ClosingBlock | timeBlockEngine.js:242-255 | a closing block lasts 15 minutes and ends at the PM end, starting at max(end-15, 0) |
| EngineBuild.EnsureSignOffs | timeBlockEngine.js:238-256 | adds one "Clinic Sign-offs" block only with a PM span and no sign-off anywhere; afterwards one exists |
| EngineBuild.EnsureWindDown | timeBlockEngine.js:258-276 | adds one "Wind-down" block only with a PM span and no PM wind-down; afterwards one exists |
| EngineBuild.DispatchWindow | timeBlockEngine.js:280-288 | one window goes to the filler its type selects |
| EngineBuild.BuildFromWindows | timeBlockEngine.js:278-290 | the loop computes the specified build, threading queue, pool and counter |
| EngineBuild.BuildFromNumbered | timeBlockEngine.js:278-290 | a build only appends, numbering blocks consecutively from the counter, all in the windows' segment |
| EngineBuild.BuildFromDequeues | timeBlockEngine.js:278-290 | a build never adds to the general queue |
| EngineRepair.LowestYieldSpec | timeBlockEngine.js:292-301 | finds a block exactly when one is demotable: the least yield, the earliest on ties |
| EngineRepair.FindLowestYield | timeBlockEngine.js:292-301 | the loop computes the specified lowest-yield position |
| EngineRepair.CarryoverOf | timeBlockEngine.js:303-316 | a carryover log has zero minutes and sits at the demoted block's end |
| EngineRepair.SortedEntriesShape | timeBlockEngine.js:321-323 | the entries are the segment's sliding blocks, a permutation sorted by order |
| EngineRepair.Place | timeBlockEngine.js:327-332 | a block starts at max(own start, cursor), ends start+minutes, never negative |
| EngineRepair.PushForward | timeBlockEngine.js:325-334 | the first loop places every entry after the previous one |
| EngineRepair.ChainedApart | timeBlockEngine.js:325-334 | laid-out entries pairwise do not overlap and end at start+minutes |
| EngineRepair.RepairChained | timeBlockEngine.js:336-357 | the repair keeps the layout and order, and ends within the segment unless only quick wins remain |
| EngineRepair.RepairRemoved | timeBlockEngine.js:344-353 | each removed entry was demotable; kept plus removed is the original count |
| EngineRepair.RepairKept | timeBlockEngine.js:339-342 | a kept entry is unchanged, or shortened to end at the segment end with at least 10 minutes |
| EngineRepair.RepairOverflow | timeBlockEngine.js:336-357 | the while-loop computes the specified repair |
| EngineRepair.Carryovers | timeBlockEngine.js:354 | one carryover log per removed block, in removal order: a zero-minute carryover of the segment titled "Carryover — " + the title, at the removed block's end, keeping its yield and source |
| EngineRepair.SlideSegment | timeBlockEngine.js:318-363 | the method computes the specified slide of the block list |
| EngineRepair.SlideLaidOut | timeBlockEngine.js:318-363 | the engine's `entries` array after sliding: in order, chained from the segment start without overlap, ending by the segment end unless only quick wins are left |
| EngineRepair.SlideSegmentLaidOut | timeBlockEngine.js:318-363 | in the returned block list, the segment's sliding blocks are exactly the laid-out entries (as a multiset), so they pairwise do not overlap |
| EngineRepair.SlideKeepsRest | timeBlockEngine.js:303-363 | non-sliding blocks keep their places, followed by one carryover log per removed block |
| EngineRepair.SlideOtherSegment | timeBlockEngine.js:318-363 | sliding one segment leaves every other segment's blocks unchanged |
| EngineRepair.AutoSlide | timeBlockEngine.js:365-369 | every segment of the span table is slid, in table order |
| EngineRepair.SlideAllKeeps | timeBlockEngine.js:365-369 | a segment slid once keeps its blocks through later steps |
| EngineRepair.SlideAllLaidOut | timeBlockEngine.js:365-369 | a segment with a span, slid at one step and at no later one, ends with its sliding blocks pairwise non-overlapping |
| EngineRepair.AutoSlideLaidOut | timeBlockEngine.js:365-369 | after autoSlide over a span table with distinct names, every segment's sliding blocks pairwise do not overlap |
| EngineRepair.PlaceAll | timeBlockEngine.js:325-334 | placing keeps every entry and its position, changing only start, end and minutes |
| EngineCompress.CutOf | timeBlockEngine.js:371-375 | no cut without an end time or PM span, or when the limit is at or before the PM start; the limit is min(PM end, end time) |
| EngineCompress.EarlyLimit | timeBlockEngine.js:372-375 | the guards compute the specified cut |
| EngineCompress.FirstQuickWin | timeBlockEngine.js:380 | the first PM quick win, if there is one |
| EngineCompress.MinutesMatchingBound | timeBlockEngine.js:381-389 | a per-pattern minute sum is at least each matching block's minutes |
| EngineCompress.MarkedSpec | timeBlockEngine.js:395-403 | a pass adds exactly the titles it does not keep, once each, after those already dropped |
| EngineCompress.MarkDropped | timeBlockEngine.js:395-403 | the loop computes the specified marking pass |
| EngineCompress.ChartSprintBounds | timeBlockEngine.js:413-428 | Chart Sprint at the cursor holds min(chart, max(limit-cursor-45, 30)) minutes; it fits when 75 minutes remain |
| EngineCompress.ResultsSweepBounds | timeBlockEngine.js:430-445 | Results Sweep appears exactly while more than 30 minutes remain; it holds at most 30 minutes |
| EngineCompress.CallsBurstBounds | timeBlockEngine.js:447-462 | Calls Burst appears exactly while more than 25 minutes remain; it holds at most 25 minutes |
| EngineCompress.TimelineEnds | timeBlockEngine.js:464-476 | the timeline ends with a 15-minute Wind-down ending exactly at the limit, opened by the quick win |
| EngineCompress.TimelineChartSprint | timeBlockEngine.js:413 | a Chart Sprint is present exactly when chart minutes are positive |
| EngineCompress.TimelineOrders | timeBlockEngine.js:425-475 | the timeline's orders run consecutively |
| EngineCompress.TimelineFits | timeBlockEngine.js:413-476 | when 75 minutes remain, blocks after the quick win are packed end to end within the limit |
| EngineCompress.ChartSprintOverruns | timeBlockEngine.js:414 | the 30-minute floor overruns: 20 minutes left and an hour of charts end 10 minutes past the limit |
| EngineCompress.BuildTimeline | timeBlockEngine.js:405-476 | the method computes the specified timeline with its moving cursor |
| EngineCompress.DroppedSpec | timeBlockEngine.js:391-403 | dropped titles are duplicate-free; a title is dropped when a non-quick-win PM block has it and it is not kept |
| EngineCompress.DroppedLogs | timeBlockEngine.js:495-497 | one zero-minute carryover log per dropped title, at the limit |
| EngineCompress.CompressPM | timeBlockEngine.js:371-498 | the method computes the specified compression; no cut or no PM blocks leaves the blocks unchanged |
| EngineCompress.CompressRebuildsPM | timeBlockEngine.js:485-493 | PM becomes the quick win, then the rebuilt timeline, which opens with the quick win again |
| EngineCompress.CompressKeepsCarryovers | timeBlockEngine.js:485-497 | everything outside the PM schedule keeps its order, followed by the new logs |
| EngineCompress.CompressKeepsOtherSegments | timeBlockEngine.js:485 | compression leaves every other segment's blocks unchanged |
| EngineCompress.Rebuild | timeBlockEngine.js:380-483 | the method computes the specified quick win, timeline and dropped titles |
| EngineCompress.AddCarryovers | timeBlockEngine.js:495-497 | the blocks gain exactly the carryover logs of the dropped titles, in order |
| EngineGenerate.CapacityBias | timeBlockEngine.js:510-515 | the bias 0.85+0.35*score is clamped to [0.6, 1.15]; 1 with no score |
| EngineGenerate.CapacityBiasMonotone | timeBlockEngine.js:513-515 | a higher score never lowers the bias |
| EngineGenerate.ResolveQuota | timeBlockEngine.js:516-520 | the finite quota (else the fallback) times the bias, clamped to [0.1, 1] |
| EngineGenerate.DefaultQuotas | timeBlockEngine.js:521-524 | with no quotas and no score, AM is 0.4 and PM 0.8 |
| EngineGenerate.FinalizeLabels | timeBlockEngine.js:500-506 | keeps every block in order; label is title, else kind, else "Block"; why is source, else "adaptive" |
| EngineGenerate.WindowsOf | timeBlockEngine.js:530 | the windows of a segment are exactly those whose block names it |
| EngineGenerate.GenerateAdaptiveItinerary | timeBlockEngine.js:508-551 | the method computes the specified itinerary |
| EngineGenerate.AssembledSequential | timeBlockEngine.js:527-545 | before repair, every block's order is its position from 1, AM first |
| EngineGenerate.SettledLaidOut | timeBlockEngine.js:547-548 | after autoSlide and compressPM, each segment of the span table has its sliding blocks pairwise non-overlapping, except a PM schedule rebuilt by an early cut-off |
| EngineGenerate.AssembledCloses | timeBlockEngine.js:542-545 | before repair, a PM segment holds a wind-down, and on a clinic day a sign-off |
| EngineGenerate.FillSegment | timeBlockEngine.js:531-540 | the method computes the specified step: nothing without windows, else the quick win and then the windows |
| EngineGenerate.Assemble | timeBlockEngine.js:525-545 | AM, then PM, then the sign-off on clinic days, then the wind-down: the specified assembly |
| SessionState.EnergyScore | sessionState.js:41-47 | levels 1..5 map through the table; anything else gives the level-3 value; always in [0.15, 1] |
| SessionState.EnergyLevels | sessionState.js:1-7 | levels 1..5 give 0.15, 0.4, 0.7, 0.95 and 1.0, also as strings |
| SessionState.FallbackIsLevelThree | sessionState.js:43-46 | non-numeric or unmapped levels give 0.7, the level-3 score |
| SessionState.EnergyMonotone | sessionState.js:1-7 | a higher level never scores lower |
| SessionState.EnergyBiasRange | sessionState.js:41-47 | an energy score puts the itinerary's capacity bias in [0.9025, 1.15] |
| SessionState.SocialContextOption | sessionState.js:37-39 | the matching option if any, else the first (home_solo) |
| SessionState.SocialContextScore | sessionState.js:49-51 | the mapped score for known locations, else 0; always in [0, 1] |
| SessionState.ScoreTablesAgree | sessionState.js:9-23 | the score map and the option list agree on every option |
| SessionState.LoadDefaults | sessionState.js:29-35 | falsy energyLevel becomes 3 and falsy contextLocation "home_solo"; truthy values are kept |
| SessionState.EmptySessionScores | sessionState.js:29-51 | an empty session scores energy 0.7 and social 0 |
| SessionState.SessionEnergyScore | sessionState.js:41-47 | getMentalEnergyScore(): the stored level's score, or 0.7 when it is nullish; always in [0.15, 1] |
| SessionState.SessionSocialScore | sessionState.js:37-51 | getSocialContextScore(): the stored location's score, or home_solo's 0 when it is falsy; always in [0, 1] |
| SessionState.ToNumber | sessionState.js:42 | Number(): numbers unchanged, null is 0, undefined is NaN |
| SessionState.FindOption | sessionState.js:38 | the first option whose value matches, or the end of the list |
| Planner.PatientEntries | adaptivePlanner.js:17-26 | one "patient" entry per patient in order; time is the patient's, else the block start, else "00:00" |
| Planner.PatientSlotLabel | adaptivePlanner.js:23 | a patient without an id is labelled "Patient Slot i+1" |
| Planner.Increment | adaptivePlanner.js:36 | a positive avgTime, else 10 |
| Planner.StartMinutesOf | adaptivePlanner.js:31-33 | the first cursor is max(start-30, 0), or 420 (07:00) when the start is unparsable |
| Planner.BuildBucketEntries | adaptivePlanner.js:28-45 | the map with its threaded cursor computes the specified bucket plan |
| Planner.BucketPlanShape | adaptivePlanner.js:29-43 | at most 3 entries, all "task" from "bucket" |
| Planner.BucketPlanFirst | adaptivePlanner.js:31-39 | the first entry's time reads back as the start cursor |
| Planner.BucketPlanNext | adaptivePlanner.js:36-39 | entry i>0 is the previous entry's time plus item i's own increment |
| Planner.CursorRises | adaptivePlanner.js:37 | cursors strictly rise from entry to entry |
| Planner.SortPlanCorrect | adaptivePlanner.js:47-48 | a permutation in non-decreasing minute order, with equal times kept in input order |
| Planner.BucketBeforePatients | adaptivePlanner.js:70 | at equal times bucket tasks precede patients |
| Planner.BuildAdaptiveDayPlan | adaptivePlanner.js:50-82 | the method computes the specified day plan |
| Planner.DayPlanContents | adaptivePlanner.js:52-70 | empty without a day, a block or a matching block; else the bucket entries plus the patient entries |
| Planner.Taken | adaptivePlanner.js:29-30 | at most the first 3 template items, none without a template |
| TaskStorage.NumericObjectOrdered | taskStorage.js:7-17 | an object keyed by digits becomes its values ordered by numeric key |
| TaskStorage.NumericObjectRejects | taskStorage.js:10-13 | an empty object, or one with a non-digit key, gives no list |
| TaskStorage.FieldIndex | taskStorage.js:57 | a key is present exactly when some field has it |
| TaskStorage.ExtractBaseCases | taskStorage.js:32-49 | an array is the list itself; a blank string, null, a boolean or a number gives none |
| TaskStorage.FromKeysPicksFirst | taskStorage.js:56-63 | the first collection key, in order, whose value yields a list wins |
| TaskStorage.FromKeysNone | taskStorage.js:56-65 | no yielding key gives no list |
| TaskStorage.NoParseBeyondDepth | taskStorage.js:38 | past depth 4 no string is parsed again |
| TaskStorage.SortEntries | taskStorage.js:86-97 | the forEach keeps the object entries and counts the others |
| TaskStorage.ParseStoredTasks | taskStorage.js:68-100 | the method computes the specified result |
| TaskStorage.KeptPlusDiscarded | taskStorage.js:89-97 | kept plus discarded is the candidate list's length |
| TaskStorage.KeptAreObjects | taskStorage.js:90-91 | the kept entries are exactly the object entries |
| TaskStorage.KeptAppend | taskStorage.js:89-91 | kept entries stay in their original order |
| TaskStorage.StoredTasksAccount | taskStorage.js:68-99 | blank input gives an empty result; a parse failure sets the error; no list gives an empty result; else every entry is accounted for |
| TaskStorage.UnicodeBlankIsEmpty | taskStorage.js:69-71 | a stored string of Unicode spaces, a byte-order mark and a line separator reads as empty, as `trim` makes it |
| DayState.BlockKey | dayState.js:20-25 | a key exists exactly when day and block are given |
| DayState.ResidentKey | dayState.js:27-32 | a key exists exactly when day and block are given and the slot is a number |
| DayState.BlockKeyInjective | dayState.js:24 | distinct day/block pairs without '\|' have distinct keys |
| DayState.ResidentKeyInjective | dayState.js:31 | distinct day/block/slot triples without '\|' have distinct keys |
| DayState.ReadAfterWrite | dayState.js:34-48 | reading back gives what was written; other keys read as before |
| DayState.WriteWithoutKey | dayState.js:36 | without a key a setter changes nothing |
| DayState.Store.constructor | dayState.js:1-8 | nothing selected, every table empty |
| DayState.Store.SetDay | dayState.js:10-14 | the selection fields take the arguments, missing as null |
| DayState.Store.ReplaceResidentMap | dayState.js:16-18 | a copy of the given map, or an empty one |
| DayState.Store.SetClinicSelection | dayState.js:34-42 | writes or deletes only its own key of its own table |
| DayState.Store.GetClinicSelection | dayState.js:44-48 | undefined without a key or entry, else the stored value |
| DayState.Store.SetResidentPresence | dayState.js:50-54 | stores Boolean(present) under the slot's key |
| DayState.Store.GetResidentPresence | dayState.js:56-60 | undefined without a key or entry, else the stored boolean |
| DayState.Store.SetBlockResidentPresence | dayState.js:62-70 | null deletes; anything else stores its truthiness |
| DayState.Store.GetBlockResidentPresence | dayState.js:72-76 | undefined without a key or entry, else the stored boolean |
| DayState.ClinicSelectionRoundTrip | dayState.js:34-48 | a set selection reads back, null clears it, other blocks are unchanged |
| DayState.ResidentPresenceRoundTrip | dayState.js:50-60 | presence reads back as a boolean; other slots unchanged |
| DayState.BlockPresenceRoundTrip | dayState.js:62-76 | block presence reads back as the boolean set, or nothing after null |
| DayState.Read | dayState.js:44-48 | a value exactly when there is a key and an entry under it |
| DayState.PresenceValue | dayState.js:65-69 | null or undefined deletes; anything else stores Boolean(present) |
| MorningLaunch.DedupSpec | morningLaunch.js:43-44 | Array.from(new Set(..)) is duplicate-free with the same values |
| MorningLaunch.SortedDedup | morningLaunch.js:43-52 | dedup then sort is strictly ascending with the same values |
| MorningLaunch.SanitizeSpec | morningLaunch.js:39-53 | [] for non-arrays; else strictly ascending, in [0, 5), exactly the parsed in-range entries |
| MorningLaunch.EnsureState | morningLaunch.js:55-75 | no state or another day gives a fresh state; completedAt is null exactly when not completed |
| MorningLaunch.EnsureStateSameDay | morningLaunch.js:68-74 | same day: cleaned items, stored boolean collapsed, completed only if stored and all 5 present |
| MorningLaunch.ToggledSpec | morningLaunch.js:137-144 | ticking adds and unticking removes the index; the list stays strictly ascending |
| MorningLaunch.Launch.SetCollapsed | morningLaunch.js:108-114 | collapsed takes the new value |
| MorningLaunch.Launch.SetCompletedState | morningLaunch.js:116-135 | completing stamps and collapses; un-completing clears the stamp |
| MorningLaunch.Launch.HandleCheckboxToggle | morningLaunch.js:137-156 | toggles the index; completes exactly when 5 items are ticked |
| MorningLaunch.Launch.HandleToggleClick | morningLaunch.js:206-212 | flips collapsed unless complete |
| MorningLaunch.AfterToggleSpec | morningLaunch.js:137-156 | completed exactly when all 5 steps are ticked; the items stay ascending and in range |
| MorningLaunch.UntickKeepsStamp | morningLaunch.js:149-152 | unticking after completion leaves completed false with the stamp still set |
| MorningLaunch.InRangeSpec | morningLaunch.js:45-50 | exactly the parsed integers in [0, 5) survive the filter |
| MorningLaunch.RemoveAll | morningLaunch.js:142-143 | Set.delete: everything but the index stays |
| MorningLaunch.Launch.constructor | morningLaunch.js:93-95 | the page starts from ensureState(loadState(), { startCollapsed: !beforeEight }): dated today, stamped exactly when complete, complete only with all 5 steps, ticked indexes strictly ascending in [0, 5) |
| Fmca.ChartTask.constructor | tasker5000/fmca_engine.py:5-14 | a new chart is active, unparked, swap_count 0 by default, with no note or steps |
| Fmca.MicroUnstick | tasker5000/fmca_engine.py:19-24 | a micro_unstick event for the chart |
| Fmca.Accelerator | tasker5000/fmca_engine.py:26-31 | an accelerator event for the chart |
| Fmca.SwappedChart | tasker5000/fmca_engine.py:34-38 | parked, status "parked", swap_count+1, three next steps, identity kept |
| Fmca.Swap3 | tasker5000/fmca_engine.py:33-44 | the chart becomes its swapped state; the event lists the first 3 batch ids |
| Fmca.EscalatedChart | tasker5000/fmca_engine.py:47-48 | parked, status "escalated", swap_count unchanged |
| Fmca.Escalate | tasker5000/fmca_engine.py:46-53 | the chart becomes its escalated state; an escalate event |
| Fmca.TerminalMinute | tasker5000/fmca_engine.py:62-66 | the first minute at or after swap_time that is not 5 or 12 |
| Fmca.RunChart | tasker5000/fmca_engine.py:58-79 | one chart's while-loop emits the specified events and leaves the chart in its final state |
| Fmca.RunFmcaLoop | tasker5000/fmca_engine.py:55-80 | the timeline is the specified events of every chart in order; every chart ends parked or escalated |
| Fmca.InactiveSilent | tasker5000/fmca_engine.py:61 | a chart not active or in_progress emits nothing |
| Fmca.ChartEventsShape | tasker5000/fmca_engine.py:61-79 | a runnable chart emits terminal minute+1 events, the last and only that one terminal |
| Fmca.MinuteActions | tasker5000/fmca_engine.py:62-78 | minute 5 is micro_unstick, 12 accelerator, others below swap_time working |
| Fmca.SingleUnstick | tasker5000/fmca_engine.py:62-63 | micro_unstick only at minute 5 |
| Fmca.SwapTimeTwelve | tasker5000/fmca_engine.py:62-66 | with swap_time 12, minute 12 is accelerator and the terminal event falls at minute 13 |
| Fmca.EscalationRule | tasker5000/fmca_engine.py:66-72 | escalate exactly when (required or age >= 80) and swap_count >= 1; else swap_3 with the first 3 ids |
| Fmca.AfterChartRule | tasker5000/fmca_engine.py:66-72 | escalation keeps swap_count; a swap adds exactly 1 |
| Fmca.SecondTurnSilent | tasker5000/fmca_engine.py:61 | a finished chart emits nothing on a second pass |
| Fmca.Ids | tasker5000/fmca_engine.py:43 | the ids of the charts, in order |
| Fmca.AfterChart | tasker5000/fmca_engine.py:61-79 | a runnable chart ends parked and no longer runnable; any other chart is untouched |
| TaskDisplay.AgeTier | tasker5000/task_display.py:9-14 | exactly one tier: 40 at >= 80 days, 20 at >= 30, 10 at >= 7, else 0 |
| TaskDisplay.ScoreChart | tasker5000/task_display.py:4-22 | the score lies in [-20, 100], with both extremes characterised |
| TaskDisplay.ScoreMonotoneInAge | tasker5000/task_display.py:9-14 | an older chart never scores lower |
| TaskDisplay.RequiredWorthFifty | tasker5000/task_display.py:7-8 | required_today is worth exactly 50 |
| TaskDisplay.ParkedCostsTwenty | tasker5000/task_display.py:19-20 | parking costs exactly 20 |
| TaskDisplay.PySliceTo | tasker5000/task_display.py:32 | Python's s[:n], a negative n counting from the end |
| TaskDisplay.GetTopBatch | tasker5000/task_display.py:24-32 | the batch is a prefix of the ranking, min(batch_size, n) long, or n + batch_size (at least 0) for a negative size |
| TaskDisplay.RankedPermutes | tasker5000/task_display.py:26-30 | ranking is a permutation of the input |
| TaskDisplay.TopBatchDrawn | tasker5000/task_display.py:24-32 | the batch is drawn from the input without duplication, min(batch_size, n) long |
| TaskDisplay.TopBatchByScore | tasker5000/task_display.py:26 | outside Recovery/Turtle, non-increasing score, equal scores in input order |
| TaskDisplay.TopBatchAttestFirst | tasker5000/task_display.py:28-30 | in Recovery/Turtle, attest charts first and score order kept within each group |
| TaskDisplay.RankedOrder | tasker5000/task_display.py:26-30 | the ranking is by non-increasing score; in Recovery/Turtle by attest first, then non-increasing score |
| TaskDisplay.TopBatchBest | tasker5000/task_display.py:24-32 | no chart left out of the batch ranks above a chart in it: lower or equal score, or in Recovery/Turtle a non-attest chart behind an attest one |
| StableSort.SortDescLex | tasker5000/task_display.py:26-30 | a stable sort by one key of a list sorted by a second key orders it by the first key, then the second |
| TaskDisplay.AttestBeforeOthers | tasker5000/task_display.py:28-30 | every attest chart precedes every non-attest chart |
| ChartState.Put | tasker5000/chart_state.py:13 | the id maps to the chart; every other entry is unchanged |
| ChartState.Seed | tasker5000/chart_state.py:7-10 | inserts only when absent and returns the stored chart |
| ChartState.SeedIdempotent | tasker5000/chart_state.py:7-10 | seeding twice equals seeding once |
| ChartState.PutExistingInPlace | tasker5000/chart_state.py:12-16 | overwriting keeps the chart's place in the listing |
| ChartState.PutNewAppends | tasker5000/chart_state.py:12-16 | a new id is listed last |
| ChartState.AllChartsExactlyOnce | tasker5000/chart_state.py:15-16 | every stored chart is listed exactly at its insertion position |
| ChartState.StatusQueries | tasker5000/chart_state.py:18-22 | a status query lists exactly the stored charts with that status |
| ChartState.ParkedActiveDisjoint | tasker5000/chart_state.py:18-22 | no chart is both parked and active |
| ChartState.ChartDb.SeedChart | tasker5000/chart_state.py:7-10 | the table and the returned chart are those of Seed |
| ChartState.ChartDb.UpdateChartState | tasker5000/chart_state.py:12-13 | the table becomes that of Put |
| ChartState.ChartDb.GetAllCharts | tasker5000/chart_state.py:15-16 | a listing of exactly the stored charts |
| ChartState.ChartDb.GetParkedCharts | tasker5000/chart_state.py:18-19 | exactly the stored charts with status "parked" |
| ChartState.ChartDb.GetActiveCharts | tasker5000/chart_state.py:21-22 | exactly the stored charts with status "active" |
| ChartState.WithStatus | tasker5000/chart_state.py:19 | exactly the charts with the given status, drawn from the list |
| ChartState.ChartDb.constructor | tasker5000/chart_state.py:5 | the table starts empty |
| ModeBand.Clamp | tasker5000/main.py:25-26 | v inside [lo, hi], otherwise the nearer bound |
| ModeBand.Norm | tasker5000/main.py:28-29 | in [0, 1], the identity on [0, 1] |
| ModeBand.NormIsClamp | tasker5000/main.py:25-29 | norm is clamp to [0, 1] |
| ModeBand.Qoverload | tasker5000/main.py:31-35 | 0 exactly when N_vis <= 3 |
| ModeBand.GetModeBand | tasker5000/main.py:37-45 | the band for each etaH range, each an if-and-only-if |
| ModeBand.BandMonotone | tasker5000/main.py:37-45 | more capacity never gives a lower band |
| ModeBand.GetModeControls | tasker5000/main.py:47-55 | controls exactly for the four modes; None otherwise |
| ModeBand.ControlsForEveryBand | tasker5000/main.py:47-55 | every band has controls, and availability_hours does not change them |
| ModeBand.ControlsMonotone | tasker5000/main.py:47-55 | a higher band never has fewer sprints, a smaller batch, fewer items or a shorter swap time |
| ModeBand.LowBandsNoOverload | tasker5000/main.py:31-33 | Recovery and Turtle show at most 3 items, so overload is 0 |
| ModeBand.BandTerminalMinutes | tasker5000/fmca_engine.py:62-66 | the FMCA loop ends charts at minute 10, 13, 15 or 16 by band |
| AppHelpers.JsRem | tasker5000/app.js:204 | JavaScript's %: the remainder takes the sign of the dividend |
| AppHelpers.FormatTime | tasker5000/app.js:200-208 | always "<at least 2>:<2>"; negative input shows seconds "00" |
| AppHelpers.FormatTimeRoundTrip | tasker5000/app.js:200-208 | for s >= 0, reading "MM:SS" back as minutes*60+seconds gives s |
| AppHelpers.FormatTimeShort | tasker5000/app.js:200-208 | under 100 minutes, exactly two digits, a colon, two digits |
| AppHelpers.GetSwapDurationForMode | tasker5000/app.js:28-34 | the lower-cased mode's threshold, else 720; always one of 1200, 1080, 900, 720 |
| AppHelpers.SwapDurationIgnoresCase | tasker5000/app.js:233-236 | the mode is case-insensitive |
| AppHelpers.SwapTimerByBand | tasker5000/app.js:29-34 | a higher band never has a longer swap timer |
| AppHelpers.GetLaneCount | tasker5000/app.js:376-381 | the primary key unless null or undefined, else the alternative; arrays count their length, numbers themselves, anything else null |
| AppHelpers.PrimaryKeyWins | tasker5000/app.js:377 | a non-nullish primary key makes the alternative irrelevant |
| AppHelpers.LaneListCounted | tasker5000/app.js:378 | an array counts its length |
| AppHelpers.UnknownLane | tasker5000/app.js:384 | falsy input gives "Unknown lane" |
| AppHelpers.FormatLaneLabel | tasker5000/app.js:383-390 | a non-empty label becomes, character by character, its parts joined by spaces with each part's first character upper-cased |
| AppHelpers.LaneLabelChars | tasker5000/app.js:385-389 | each '_' becomes a space and the first character of each part is uppercased |
| AppHelpers.FormatActionLabel | tasker5000/app.js:764-766 | every '_' becomes ' ' and nothing else changes |
| AppHelpers.ActionLabelSettled | tasker5000/app.js:764-766 | no '_' is left, so formatting again changes nothing |
| AppHelpers.LaneLabelIsActionLabel | tasker5000/app.js:383-390 | on already-capitalised parts the lane label equals the action label |
| AppHelpers.GetActionHighlightClass | tasker5000/app.js:437-445 | a class exactly for the five action names, case-insensitively; else null |
| AppHelpers.HighlightClassesDistinct | tasker5000/app.js:440-443 | different actions get different classes, except escalate and escalated |
| AppHelpers.TimelineActionsHighlighted | tasker5000/app.js:437-445 | every FMCA action except "working" is highlighted |
| AppHelpers.NextIndex | tasker5000/app.js:774-775 | the index stays or advances by one, and stays in range |
| AppHelpers.AdvanceStops | tasker5000/app.js:774-779 | pressing next k times from 0 reaches min(k, length-1) |
| AppHelpers.CarouselStatus | tasker5000/app.js:687-742 | updateCarousel's status line: "Load a sprint to begin." exactly for an empty batch, otherwise a "Chart k of n" line |
| AppHelpers.Carousel.HandleNextChart | tasker5000/app.js:768-781 | advances only below length-1 and then shows "Chart k of n" for the new chart, as updateCarousel writes it (app.js:739); otherwise the empty-batch or end-of-batch text; the index stays in range |
| AppHelpers.Carousel.constructor | tasker5000/app.js:638-642 | hydrateBatch: an array is loaded, anything else or a missing value as an empty batch; index 0, in range, showing "Chart 1 of n", or "Load a sprint to begin." when empty (app.js:690-694) |

## Left out

- DOM rendering, event listeners, fetch calls, timers, `localStorage`, console logging and `document.dispatchEvent` are not modelled.
  - `updateCarousel` is modelled only by the status line it writes; its DOM guard (no chart card or status element) is taken to pass. `updateProgressText` is not modelled.
- `JSON.parse` is a parameter `string -> Option<Json>`. `None` means it threw.
  - Only `taskStorage.js` and the Morning Launch state use it.
  - Object spreads are modelled as value copies.
- Clocks and dates are parameters: `today` and `now` in `MorningLaunch`.
- Times are whole non-negative minutes when they parse:
  - NaN from malformed clock strings is modelled as `None`.
  - `Math.round` on fractional minutes is not modelled.
  - `Number()` string forms other than plain digits ("1e2", " 7", hex) read as not-a-number.
- Floating point is not modelled:
  - The `exp` branch of `Qoverload` and `compute_etaH` in `tasker5000/main.py`.
  - Quotas and the capacity bias are exact reals.
  - NaN and Infinity energy levels are not modelled.
  - `ModeBand.Qoverload`: returns `None` above 3 visible items instead of `1 - exp(-0.9 (N_vis - 3))`.
- The code that runs at import in `tasker5000/main.py`, its FastAPI routes and `uvicorn` are not modelled.
- The title tests `/sign[-\s]?off/i` and `/wind[-\s]?down/i` are modelled as case-insensitive substring tests. A title matches when it contains the first word, then optionally a hyphen or one `\s` character, then the second word. A `\s` character is any ECMAScript WhiteSpace or LineTerminator code point. Case folding is ASCII, which gives the same result for these ASCII words.
- `nextOrder` and `scheduleBlock` are not separate members:
  - `nextOrder`'s counter is threaded as a value, and every block gets `counter + 1`.
  - `scheduleBlock`'s `start`/`end` strings are recomputed from the minutes when the itinerary is finalised. Every path through the engine recomputes them before returning.
- `slideSegment`'s in-place updates go through shared block objects. They are modelled by tagging each entry with its position in the block list and writing back by position. The resulting list is the same; object identity is not modelled.
- Charts in `task_display.py` and `chart_state.py` are values:
  - Aliasing between the table and live `ChartTask` objects is not captured.
  - `run_fmca_loop` keeps the aliasing: the same `ChartTask` twice in a batch runs once.
- `run_fmca_loop` receives `mode_controls["swap_time"]` as a number. The KeyError for a missing key is not modelled.
- JavaScript object lookups ignore prototype-inherited keys such as "constructor". The source's plain objects would find them for `ENERGY_SCORE_MAP`, `SOCIAL_SCORE_MAP` and `swapThresholds`.
- `getLaneCount` works on an object given as a field list:
  - Duplicate keys resolve to the first.
  - An array's own "length" property is not a field.
- Case mapping is ASCII only. Non-ASCII letters are left unchanged by upper- and lower-casing.
- `formatTime` on non-integer seconds is not modelled.
- EngineMeta.SegmentMetaPresence: a window whose start and end are non-empty but do not read as times gets no span in the model. In `computeSegmentMeta` (timeBlockEngine.js:85-100) such a window stores a NaN span for its segment, or turns the segment's existing span into NaN through `Math.min`/`Math.max`. The model has no NaN minutes.
- EngineBuild.DispatchSkips: a Clinical-Supervision window whose start and end are non-empty but do not read as times adds no block in the model. In `buildFromWindows` (timeBlockEngine.js:279-288) it adds a NaN-timed "Resident Presentations + Sign-offs" block. Its title also makes `ensureSignOffs` skip the "Clinic Sign-offs" block.
- Planner.SortPlanCorrect: an entry whose time does not read as a time sorts as minute 0. The source's comparator returns NaN for it (adaptivePlanner.js:47-48), and the order a JavaScript engine then produces is implementation-defined. The model fixes one order.
- TaskStorage.FieldIndex: a parsed object is a field list, and a key that occurs twice resolves to its first occurrence. `JSON.parse` keeps the last occurrence of a duplicate key.
- TaskStorage.FromKeysPicksFirst: with a duplicate collection key, the value looked up is the first occurrence, as for `TaskStorage.FieldIndex`. `JSON.parse` would keep the last.
- EngineCompress.CutOf: an end time that is non-empty but does not read as a clock time (such as "5pm") gives no cut, so `EngineCompress.EarlyLimit` finds no limit and `EngineCompress.CompressPM` leaves the blocks unchanged. In `compressPM` (timeBlockEngine.js:372-375) `toMinutes` gives NaN, the limit `Math.min(end, NaN)` is NaN, and `NaN <= pmStart` is false. So the source rebuilds PM at a NaN limit: the quick win, a NaN-timed Chart Sprint when there are chart minutes, and a NaN-timed Wind-down. Every other PM title becomes a NaN-timed carryover log (timeBlockEngine.js:405-497). The model has no NaN minutes.
- EngineCompress.EarlyLimit: finds no limit for a non-empty end time that does not read as a clock time, as `EngineCompress.CutOf` does; the source computes a NaN limit and goes on.
- EngineCompress.CompressPM: leaves the blocks unchanged for a non-empty end time that does not read as a clock time, where the source rebuilds PM at a NaN limit, as described for `EngineCompress.CutOf`.
- SessionState.EnergyScore: takes the argument after JavaScript's default parameter has been applied. An explicit `undefined` argument takes the session default `SessionState.energyLevel` (sessionState.js:41) and is modelled only through `SessionState.SessionEnergyScore`, the argument-less call. On the value `Undefined` the member gives 0.7, which the source returns for an explicit `undefined` only when the stored level scores 0.7.
- SessionState.FallbackIsLevelThree: its 0.7 for `Undefined` stands for the argument after defaulting, as for `SessionState.EnergyScore`; an explicit `undefined` reads the stored level.
- SessionState.SocialContextOption: an explicit `undefined` argument takes the session default `SessionState.contextLocation` (sessionState.js:37), modelled only through `SessionState.SessionSocialScore`. On the value `Undefined` the member gives `home_solo`.
- SessionState.SocialContextScore: an explicit `undefined` argument takes the session default `SessionState.contextLocation` (sessionState.js:49), modelled only through `SessionState.SessionSocialScore`. On the value `Undefined` the member gives 0.
- DayState.ResidentKey: the slot is a whole number or absent. `typeof slotIndex === "number"` (dayState.js:28) also lets through fractional numbers and NaN, which give keys such as "d|b|1.5" and "d|b|NaN"; those are not modelled.
- `TaskStorage.Extract`: nested re-parsing of string values is bounded by a nesting budget derived from the depth. The source's own `depth > 4` check bounds it in the same way.
