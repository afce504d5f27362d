# Assembly job planning and robust AGV batch scheduling

This project models two parts of a matrix-production simulator.

The first is the planning core of an **assembly job** (`AssemblyJob.ts`). A
job carries a product whose operations are ordered by predecessor lists and
by a boolean dependency matrix. Each time the job plans, it does four things:

- It works out which operations are still open and which may start now.
- It lists every enabled station capable of one of them and scores each
  (station, operation) pair from normalised time readings. It plans the first
  pair with the best score and, under managed material supply, reserves the
  free AGV that can bring the material soonest.
- It enumerates every way the remaining operations can still be ordered. It
  counts, per position, how often each operation appears there, and forecasts
  for every material-requiring operation its earliest and latest position and
  the time until it happens.
- It books working, waiting and transport time as operations complete and
  when the job ends.

The second is the **robust batch scheduler** (`Scheduling_test.ts`). It
orders material-supply jobs for `N` AGVs:

- Jobs are sorted by their secondary deadline.
- The first `N` jobs seed one vehicle each.
- The remaining jobs are cut into batches of `P`.
- Every permutation of a batch is tried on top of each surviving candidate.
  Permutations worse than the first one are pruned. The rest are ranked by
  weighted delay and then makespan, and the best `B` are kept per candidate.

A separate replay (`simulateCombination`) measures a finished order against
the secondary deadlines.

How the model is built:

- Pure computations are Dafny functions.
- Each loop of the source is a method with loop invariants, proved equal to
  such a function.
- The job itself is a class, `Job.AssemblyJob`. Its methods update the fields
  the source updates, and call the module-level methods.

The files are:

- `products.dfy`: operations and products, plus JavaScript's `indexOf`.
- `shopfloor.dfy`: station snapshots and queued work.
- `wrappers.dfy`: `Option`.
- `precedence.dfy`: `uncompletedOperations` and `nextOperations`.
- `enumeration.dfy`: `getCanOperation`, `getNewLevel` and `getSequences2`.
- `statistics.dfy`: `analyzeSequences2`.
- `forecast.dfy`: `calculateOperationPositions` and `calculateTimeToOperation`.
- `selection.dfy`: `findNextStation`.
- `jobpriority.dfy`: `getScoreForJobOperation`.
- `job.dfy`: the job object.
- `permutations.dfy`: `permutations`.
- `scheduling.dfy`: `runPermutations`.
- `robust.dfy`: `robustSchedule`.
- `simulation.dfy`: `simulateCombination`.

Things the job reads from its collaborators are parameters:

- the simulation clock;
- the router's transport durations;
- the manager's capable-station lookup;
- the AGVs' supply-time offers;
- the manager's strategy weights and maxima;
- the supply policy.

## Model

| member | source | states |
|---|---|---|
| Products.IndexOf | AssemblyJob.ts:850 | the first position of the element, or -1 exactly when it is absent |
| Products.IndexOfDistinct | AssemblyJob.ts:850 | in a product with pairwise distinct operations, `indexOf` of the operation at `k` is `k` |
| Precedence.UncompletedOperations | AssemblyJob.ts:246-248 | exactly the product's operations that are not completed, kept in product order |
| Precedence.PredecessorsInProduct | AssemblyJob.ts:258 | exactly the predecessors that belong to the product |
| Precedence.ReadyAmong | AssemblyJob.ts:256-266 | exactly the candidates whose in-product predecessors are all completed, in order |
| Precedence.NextOps | AssemblyJob.ts:254-268 | an operation is next if and only if it is in the product, not completed, and every predecessor of it in the product is completed; predecessors outside the product are ignored; the result keeps the order of the uncompleted operations |
| Precedence.NextOperations | AssemblyJob.ts:254-268 | the getter's loops compute `NextOps` |
| Precedence.OperationIsPossible | AssemblyJob.ts:257-262 | the `operationIsPossible` flag stays true if and only if every in-product predecessor is completed |
| Precedence.CompletingNextKeepsConsistency | AssemblyJob.ts:323-328 | appending one of the next operations to a history in which each operation appears once, after its in-product predecessors, keeps that property |
| Enumeration.DonePositions | AssemblyJob.ts:847-852 | `donePosition` has the start marker 0 and one entry per step |
| Enumeration.DoneIff | AssemblyJob.ts:848-852 | column `j` is done if and only if it is the start marker or operation `j - 1` is in the sequence |
| Enumeration.TrueColumns | AssemblyJob.ts:863-867 | `needOperationPos` holds exactly the columns whose flag is true |
| Enumeration.CanOperationIff | AssemblyJob.ts:857-892 | `getCanOperation` returns an operation if and only if its row is not the sink row, it is not yet in the sequence, and every required column is the start marker or a done operation |
| Enumeration.DonePositionsOf | AssemblyJob.ts:848-852 | the loop builds `donePosition` |
| Enumeration.RowPossible | AssemblyJob.ts:859-882 | for one row, `possible` is true if and only if every required column is done |
| Enumeration.GetCanOperation | AssemblyJob.ts:841-897 | the loops compute the eligible operations in row order |
| Enumeration.RemainingShrinks | AssemblyJob.ts:829-836 | extending a sequence by an eligible operation strictly shrinks the set of rows still open, so the recursion of `getNewLevel` terminates |
| Enumeration.Children | AssemblyJob.ts:828-832 | `helpSequence` holds one copy of the sequence per eligible operation, extended by it |
| Enumeration.ExtendEach | AssemblyJob.ts:828-832 | the loop builds `helpSequence` |
| Enumeration.GetNewLevel | AssemblyJob.ts:800-840 | the caller's target gets, in push order, every maximal sequence reachable from each current sequence |
| Enumeration.NewLevelOf | AssemblyJob.ts:803-837 | one pass pushes the sequence itself when nothing is eligible, and otherwise the leaves of its extensions |
| Enumeration.LeavesSound | AssemblyJob.ts:800-840 | everything `getNewLevel` pushes from `s` extends `s` one eligible operation at a time and cannot be extended further |
| Enumeration.LeavesComplete | AssemblyJob.ts:800-840 | every such maximal run from `s` is pushed |
| Enumeration.LeavesNonEmpty | AssemblyJob.ts:814-836 | at least one sequence is pushed for every start sequence |
| Enumeration.MaximalRunsSameLength | AssemblyJob.ts:800-840 | any two maximal runs from the same start have the same length, since each adds exactly the operations reachable from the start |
| Enumeration.RunExtension | AssemblyJob.ts:860-862 | the operations a run adds never repeat and are exactly the run's elements outside the start |
| Enumeration.NextSequences | AssemblyJob.ts:783-790 | there is one remaining sequence per pushed sequence, with the past prefix cut off |
| Enumeration.EnumerateRemaining | AssemblyJob.ts:776-790 | `getSequences2`'s body, given the past operations, computes `NextSequences` |
| Enumeration.NextSequencesSound | AssemblyJob.ts:765-797 | each remaining sequence completes the past to a maximal run |
| Enumeration.NextSequencesComplete | AssemblyJob.ts:765-797 | every completion of the past to a maximal run is among the remaining sequences |
| Enumeration.NextSequencesShape | AssemblyJob.ts:765-797 | there is always at least one remaining sequence, and the only one is empty exactly when nothing is eligible |
| Enumeration.NextSequencesSameLength | AssemblyJob.ts:900-901 | all remaining sequences have the same length, which `analyzeSequences2` relies on when it reads the first one's length |
| Enumeration.NextSequencesUseProductOperations | AssemblyJob.ts:765-797 | remaining sequences consist of operations of the product |
| Statistics.FinishingTime | AssemblyJob.ts:903-906 | `tiempo` is the planned operation's total time plus the last time when both exist, and 0 otherwise |
| Statistics.CountAt | AssemblyJob.ts:924-928 | a count never exceeds the number of sequences |
| Statistics.TallyCells | AssemblyJob.ts:916-935 | a position's table has a cell exactly for the names present there; the cell holds the count, the flag of the last sequence holding it, and the finishing time at position 0 only |
| Statistics.NamesAtIff | AssemblyJob.ts:924-928 | a name has a cell if and only if some sequence holds it there, if and only if its count is positive |
| Statistics.CountsPartition | AssemblyJob.ts:916-928 | at a position every sequence reaches, the counts over any duplicate-free list of names covering those present add up to the number of sequences |
| Statistics.ShareBounds | AssemblyJob.ts:944 | the share `count / total * 100` of a count `0 < count <= total` lies in (0, 100] |
| Statistics.FreshCell | AssemblyJob.ts:909-954 | every fresh cell carries its count, a percentage of that count in (0, 100], the last flag seen, and the time only at position 0 |
| Statistics.Percentages | AssemblyJob.ts:941-952 | filling percentages keeps the table's names |
| Statistics.FillPercentages | AssemblyJob.ts:941-952 | the percentage loop computes `Percentages` |
| Statistics.CountSequence | AssemblyJob.ts:920-935 | counting sequence `j` turns each position's table into the tally of the first `j + 1` sequences |
| Statistics.AnalyzeSequences | AssemblyJob.ts:898-957 | the analysis computes the fresh tables below the common length and keeps every other position |
| Statistics.AnalyzedFresh | AssemblyJob.ts:909-911 | positions below the common length hold the fresh tables |
| Statistics.AnalyzedKeepsStale | AssemblyJob.ts:909-911 | positions from the common length on keep exactly what an earlier analysis left there |
| Forecast.CalculateTimeToOperation | AssemblyJob.ts:1041-1136 | the loops compute the forecast time: now, plus the planned processing time, plus the warehouse processing time when predictive listing is off and material is needed, plus contention, plus queued work, plus the preceding work |
| Forecast.PrecedingWorkAppend | AssemblyJob.ts:1117-1125 | preceding work is additive over concatenation |
| Forecast.PrecedingWorkAtLeastCount | AssemblyJob.ts:1117-1125 | with non-negative times every preceding operation adds at least one time unit |
| Forecast.ContentionCountsOnlyOtherJobsWithEqualTransport | AssemblyJob.ts:1056-1081 | this job's own moving operations, and those with a different transport time, add no contention |
| Forecast.ContentionNonNegative | AssemblyJob.ts:1056-1081 | contention is never negative when processing times are non-negative |
| Forecast.TimeToOperationLowerBound | AssemblyJob.ts:1041-1136 | with non-negative readings the forecast is at least now plus the number of preceding operations |
| Forecast.SightingsIff | AssemblyJob.ts:966-968 | a sighting is exactly a material-requiring operation of some remaining sequence, with its index and the operations before it |
| Forecast.RecordKeys | AssemblyJob.ts:970-976 | the names recorded have no duplicates and are exactly the names with an earliest position |
| Forecast.RecordEarliestDomain | AssemblyJob.ts:970-976 | a name has an earliest position if and only if it is seen |
| Forecast.RecordEarliest | AssemblyJob.ts:970-976 | the earliest position is the minimum index the name is seen at, with the operations before its first sighting there |
| Forecast.RecordLatestDomain | AssemblyJob.ts:971-981 | a name has a latest position if and only if it is seen at an index above 0 |
| Forecast.RecordLatest | AssemblyJob.ts:971-981 | the latest position is positive and the maximum index the name is seen at, with the operations before its first sighting there |
| Forecast.ScanPositions | AssemblyJob.ts:966-990 | the nested scan loops build the record of all sightings |
| Forecast.ScanSequence | AssemblyJob.ts:967-989 | the inner loop notes every material-requiring operation of one sequence |
| Forecast.ScanOperation | AssemblyJob.ts:967-989 | one visit of the inner loop notes the operation at its index exactly when it requires material |
| Forecast.NoteSighting | AssemblyJob.ts:970-981 | one visit applies the `isEarliest` and `isLatest` updates |
| Forecast.FindByName | AssemblyJob.ts:1010 | `find` succeeds if and only if some operation has the name, and returns such an operation of the product |
| Forecast.NeedsFor | AssemblyJob.ts:993-1026 | one record per key, named by that key |
| Forecast.CalculateOperationPositions | AssemblyJob.ts:959-1039 | the scan and record loops append exactly `MaterialNeeds` |
| Forecast.RecordsFor | AssemblyJob.ts:993-1034 | the record loop produces one record per key in key order |
| Forecast.RecordFor | AssemblyJob.ts:1000-1026 | one record: the times to the earliest and latest positions and the earliest share |
| Forecast.MaterialNeedsShape | AssemblyJob.ts:1019-1026 | each record names a seen material-requiring operation, no name twice; its latest time is always defined, so its latest percentage is always 100 |
| Forecast.MaterialNeedsComplete | AssemblyJob.ts:993-1026 | every material-requiring operation seen gets a record |
| Forecast.MaterialNeedEarliest | AssemblyJob.ts:1000-1022 | a record's earliest time uses the operations before the first sighting at the minimum index, and its earliest percentage is that position's share of the name |
| Forecast.MaterialNeedLatest | AssemblyJob.ts:1001-1024 | a record's latest time uses the operations before the first sighting at the maximum index; with no sighting past index 0 it is the forecast without preceding operations |
| Selection.Enabled | AssemblyJob.ts:375 | exactly the stations that are not disabled |
| Selection.CandidatesIff | AssemblyJob.ts:373-384 | a pair is a candidate if and only if its operation is next and its station is capable of it and enabled |
| Selection.CandidatesOrdered | AssemblyJob.ts:373-384 | candidates come in the order of the next operations |
| Selection.EnumerateCandidates | AssemblyJob.ts:373-384 | the nested loops build the candidate list |
| Selection.RemainingStationTimeOf | AssemblyJob.ts:417 | a station's remaining time is never negative and is 0 or its finish time minus now |
| Selection.Mean | AssemblyJob.ts:394-397 | a normaliser is never 0: it is 1 for a zero sum and otherwise the sum divided by the count |
| Selection.Normaliser | AssemblyJob.ts:386-454 | no normaliser is 0 |
| Selection.SumReadings | AssemblyJob.ts:388-442 | each accumulator loop sums its reading over the candidates |
| Selection.UniformReadingNormalisesToOne | AssemblyJob.ts:400-454 | when every candidate has the same non-zero processing, remaining or queued time, that reading normalises to exactly 1 |
| Selection.UniformTransportNormaliser | AssemblyJob.ts:386-397 | because the transport accumulators start at 1, the same transport time `t` at `n` candidates normalises to (1 + n t) / (1 + n), which is `t` only when `t` is 1 |
| Selection.BestIndex | AssemblyJob.ts:467-479 | the chosen offer is an offer of the list |
| Selection.BestIndexIsFirstMinimum | AssemblyJob.ts:472-479 | the chosen AGV has the minimum supply time, and every earlier one a strictly larger time |
| Selection.SelectOffer | AssemblyJob.ts:470-479 | the AGV loop picks the first minimum |
| Selection.OfferMapDomain | AssemblyJob.ts:463-483 | a station has an offer if and only if some candidate there needs material and has a free AGV |
| Selection.OfferMapLastWins | AssemblyJob.ts:481 | the offer kept for a station is that of the last such candidate at it |
| Selection.BuildOfferMap | AssemblyJob.ts:463-483 | the loop fills the station-to-offer map |
| Selection.ClampAtZero | AssemblyJob.ts:505-507 | a clamped supply time is non-negative, at least the raw value, and either 0 or the raw value |
| Selection.CarriedDominatesReset | AssemblyJob.ts:486-509 | under controlled supply a candidate without an offer repeats the previous candidate's value, so each value is at least the predictive value, which is at least 0 |
| Selection.CarriedTotalAtLeastReset | AssemblyJob.ts:486-519 | the controlled total is at least the predictive total, which is at least 0 |
| Selection.ControlledSupplyTotal | AssemblyJob.ts:486-511 | the controlled loop sums the carried values |
| Selection.PredictiveSupplyTotal | AssemblyJob.ts:564-595 | the predictive loop sums the values reset to 0 for each candidate |
| Selection.MaterialSupplyTime | AssemblyJob.ts:502-508 | a candidate's supply time is its offer's time minus the time the job needs anyway, clamped at 0, and undefined without an offer |
| Selection.SupplyNormaliser | AssemblyJob.ts:457-601 | the supply normaliser is never 0 |
| Selection.Reciprocal | AssemblyJob.ts:637-644 | a score is infinite exactly when its denominator is 0, and otherwise it times the denominator is 1 |
| Selection.Scores | AssemblyJob.ts:606-651 | one score per candidate, in candidate order |
| Selection.ScoreIgnoresOffersWithoutManagedSupply | AssemblyJob.ts:642-648 | without managed supply the offers have no effect on any score |
| Selection.FirstMaxIndex | AssemblyJob.ts:653-655 | a pick exists exactly when there is a score |
| Selection.FirstMaxIndexIsFirstMaximum | AssemblyJob.ts:653-655 | the picked score is a maximum, and every earlier score is strictly below it |
| Selection.ScoreCandidate | AssemblyJob.ts:613-648 | one pass of the score loop computes that candidate's score |
| Selection.ScoreCandidates | AssemblyJob.ts:608-651 | the score loop computes `Scores` |
| Selection.PlanIsFirstBest | AssemblyJob.ts:606-656 | nothing is planned exactly when there is no candidate; otherwise the planned pair is the first candidate with a maximal score |
| Selection.ReserveOnlyWithOffer | AssemblyJob.ts:658-683 | an AGV is reserved if and only if supply is managed, the planned operation needs material and its station has an offer; the reserved offer is that station's |
| Selection.Normalise | AssemblyJob.ts:385-604 | the normalisation part builds the offers only under managed supply, and from them the non-zero normalisers |
| Selection.FindNextStation | AssemblyJob.ts:371-689 | the computation yields the planned pair, its transport time and the supply decision of `PlanFor` |
| Shopfloor.QueuedDurationNonNegative | AssemblyJob.ts:436-439 | queued work is never negative when operation times are non-negative |
| Shopfloor.SumQueuedDuration | AssemblyJob.ts:1084-1087 | the `reduce` sums set-up, processing and follow-up times of the queue |
| JobPriority.RemainingTimeToFinish | AssemblyJob.ts:1145-1150 | the time to the due date is never negative, is at least due date minus now, and is either 0 or exactly that difference |
| JobPriority.RemainingTimeToFinishShrinks | AssemblyJob.ts:1145-1150 | as time passes the remaining time never grows, and it shrinks by no more than the time passed |
| JobPriority.OverdueJobsTie | AssemblyJob.ts:1148-1150 | all overdue jobs have the same remaining time, 0 |
| JobPriority.RemainingTimeMaterial | AssemblyJob.ts:1173-1185 | the material term is 0 once the material has arrived |
| JobPriority.LocalSetUpTime | AssemblyJob.ts:1151-1156 | the local set-up time is 0 when the station's last operation is this operation, and the operation's own set-up time otherwise |
| JobPriority.JobScoresAgreeWithoutRepeat | AssemblyJob.ts:1151-1202 | with no repeated operation the corrected and the as-written scores coincide |
| JobPriority.SetUpTimeChargedOnRepeat | AssemblyJob.ts:1151-1156 | on a repeated operation, concrete readings give the as-written score 1/2 and the corrected score 1 |
| JobPriority.RepeatedOperationScoresSetUpFree | AssemblyJob.ts:1151-1202 | with the local set-up time a repeated operation scores as if the set-up term were dropped |
| JobPriority.ScoreIgnoresMaterialWithoutManagedSupply | AssemblyJob.ts:1162-1204 | without managed supply the material readings have no effect on the score |
| JobPriority.JobScoreWith | AssemblyJob.ts:1162-1204 | the score is the reciprocal of the weighted, normalised remaining time to the due date, plus the weighted normalised set-up time unless the maximum set-up time is 0, plus, under controlled or predictive supply only, the weighted normalised time until the material arrives; reactive supply is tested first; with no negative weight or reading it is positive or infinite |
| JobPriority.ReactiveScoresAsNoSupply | AssemblyJob.ts:1163-1203 | the reactive branch and the branch without managed supply give the same score |
| JobPriority.ZeroMaximumSetUpIgnoresSetUp | AssemblyJob.ts:1164-1203 | when the maximum set-up time is 0 the set-up term is dropped, so the set-up time does not affect the score |
| JobPriority.ArrivedMaterialAddsNothing | AssemblyJob.ts:1172-1196 | under managed supply, once the material has arrived the score is the one without the material term |
| Job.InfeasibleIffNoStation | AssemblyJob.ts:1235 | a job becomes infeasible if and only if work remains but no next operation has an enabled capable station |
| Job.AnalysisCoversSightings | AssemblyJob.ts:726-733 | after regeneration and analysis, every sighting has a table at its position and names an operation of the product, so the records are defined |
| Job.RemainingSequencesAligned | AssemblyJob.ts:900-901 | the remaining sequences are non-empty and all at least as long as the first |
| Job.AssemblyJob.constructor | AssemblyJob.ts:204-241 | a new job has nothing completed or planned; its start, end, total and unaccounted times and all its work metrics are 0; it has no dispatch or completion time yet |
| Job.AssemblyJob.Dispatch | AssemblyJob.ts:285-289 | the dispatch time and the job's start time become now; its frame names only those two fields, so nothing else changes |
| Job.AssemblyJob.CompleteOperation | AssemblyJob.ts:323-345 | the operation is appended to the completed ones; the work metrics grow by its times; the time since the last event becomes working time; the station history and the sequence strings grow; completing a next operation keeps the precedence invariant; no other field changes |
| Job.AssemblyJob.GetSequences2 | AssemblyJob.ts:765-797 | the remaining sequences become `NextSequences` of the completed and planned operations; there is at least one, and all share one length; no other field changes |
| Job.AssemblyJob.AnalyzeSequences2 | AssemblyJob.ts:898-957 | the tables become the analysis of the remaining sequences, timed by the planned operation; no other field changes |
| Job.AssemblyJob.CalculateOperationPositions | AssemblyJob.ts:959-1039 | the list of material needs grows by exactly the computed records; no other field changes |
| Job.AssemblyJob.FindNextnextOperations | AssemblyJob.ts:690-758 | the need list is rebuilt from scratch; with an operation given, the sequences are regenerated and analysed and the records follow from them; without an operation the tables are kept; the list is marked created; no other field changes |
| Job.AssemblyJob.RebuildNeeds | AssemblyJob.ts:690-758 | with an operation given, the sequences, their analysis and the need records are recomputed and the completed and planned operations are left alone; only the sequences, tables and need list change |
| Job.AssemblyJob.FindNextStation | AssemblyJob.ts:371-689 | the job's planned pair, transport time, reservation and material flag become those of the best candidate's plan; no other field changes |
| Job.AssemblyJob.Settle | AssemblyJob.ts:1397-1409 | without a plan the job becomes infeasible when work remains and completed otherwise; the plan is cleared; no other field changes |
| Job.AssemblyJob.FinishJob | AssemblyJob.ts:1419-1439 | the completion and end times become the arrival time and the total time is that minus the start time; the total equals transport plus working plus waiting time, with the unaccounted rest booked as waiting; no other field changes |
| Job.DispatchToSink | AssemblyJob.ts:285-1439 | a job dispatched, completing one operation, planned, settled and finished at `eta` has total time `eta` minus the dispatch time, all of it transport, working or waiting time |
| JobPermutations.InsertAt | Scheduling_test.ts:251-253 | inserting adds exactly that element at that position |
| JobPermutations.PermutationsLength | Scheduling_test.ts:244-257 | every generated sequence has the input's length |
| JobPermutations.PermutationsCount | Scheduling_test.ts:244-257 | a sequence of `n` jobs yields exactly `n!` sequences, and a single job only itself |
| JobPermutations.PermutationsRearrange | Scheduling_test.ts:244-257 | every generated sequence is a rearrangement of the input |
| JobPermutations.PermutationsComplete | Scheduling_test.ts:244-257 | every rearrangement of the input is generated |
| JobPermutations.SpreadAllMembers | Scheduling_test.ts:249-255 | the generated sequences are exactly the insertions of the head into a tail permutation |
| JobPermutations.RemoveAt | Scheduling_test.ts:251-253 | removing the element at `i` is undone by inserting it back there |
| Scheduling.ProcessTimeBetween | Scheduling_test.ts:108 | for `0 <= R <= 1` the processing time lies between the two positions, and is the latest (earliest) one at `R = 1` (`R = 0`) |
| Scheduling.Choose | Scheduling_test.ts:91-105 | a vehicle is selected exactly when there is one; the empty flag is set exactly when some vehicle is empty |
| Scheduling.ChooseFirstEarliest | Scheduling_test.ts:94-105 | with every vehicle busy, the choice is the first vehicle with the smallest return time |
| Scheduling.ChooseAllEmpty | Scheduling_test.ts:94-105 | with every vehicle empty, the last vehicle is chosen |
| Scheduling.ChooseLastEmpty | Scheduling_test.ts:94-105 | when the first `k` vehicles are empty and the others return at non-negative times, vehicle `k - 1` is chosen |
| Scheduling.LastReturns | Scheduling_test.ts:99-103 | each vehicle's last return time, undefined exactly for an empty vehicle |
| Scheduling.SelectVehicle | Scheduling_test.ts:91-105 | the scan loop computes `Choose` |
| Scheduling.Assign | Scheduling_test.ts:106-117 | assignment keeps the vehicle count and busy vehicles busy, and never changes an earlier entry |
| Scheduling.AssignToEarliestReturn | Scheduling_test.ts:106-117 | with every vehicle busy, the new entry joins the first vehicle with the earliest return and starts at that return time |
| Scheduling.AssignAllKeepsHistory | Scheduling_test.ts:90-118 | every vehicle's old entries stay its first entries |
| Scheduling.AssignAllJobs | Scheduling_test.ts:90-118 | exactly the permutation's jobs are added to the ledger, each once |
| Scheduling.AssignAllChained | Scheduling_test.ts:106-117 | on busy, chained vehicles, each entry still starts when the previous one returns |
| Scheduling.AssignPermutation | Scheduling_test.ts:89-118 | the loop over the permutation assigns its jobs in order |
| Scheduling.Makespan | Scheduling_test.ts:128-130 | the maximum return time bounds every vehicle's last return and is reached by one |
| Scheduling.Totals | Scheduling_test.ts:120-130 | the loops sum every entry's delay and weighted delay and take the latest return |
| Scheduling.EvaluateFacts | Scheduling_test.ts:88-137 | a candidate's order is the prior order plus the permutation, and its ledger extends the given one by exactly those jobs |
| Scheduling.Insert | Scheduling_test.ts:139 | the re-sort adds exactly the new candidate |
| Scheduling.InsertRanked | Scheduling_test.ts:139 | re-sorting a ranked list after a push keeps it ranked by weighted delay, then makespan |
| Scheduling.Kept | Scheduling_test.ts:132-137 | exactly the candidates with weighted delay at most the bound |
| Scheduling.PruneKeepsNoWorseThanFirst | Scheduling_test.ts:132-139 | pruning keeps exactly the candidates no worse than the first permutation's weighted delay (the bound is never updated), ranked |
| Scheduling.BestPermutationsRankedWithinBeam | Scheduling_test.ts:76-143 | the result holds at most `B` candidates, is ranked, and is non-empty when `B >= 1` |
| Scheduling.BestPermutationsKeepBest | Scheduling_test.ts:132-142 | the result holds exactly the smaller of `B` and the number of candidates the pruning keeps, and no kept candidate left out ranks strictly before one in the result |
| Scheduling.BestPermutationsNoWorseThanFirst | Scheduling_test.ts:76-143 | every result is one permutation's candidate, no worse in weighted delay than the first permutation's |
| Scheduling.RunPermutations | Scheduling_test.ts:76-143 | the loops compute `BestPermutations` |
| RobustScheduling.InsertByDeadline | Scheduling_test.ts:155 | inserting adds exactly the one job |
| RobustScheduling.SortByDeadline | Scheduling_test.ts:155 | the sort is a rearrangement of the ids |
| RobustScheduling.SortByDeadlineSorts | Scheduling_test.ts:155 | the sorted ids are ascending by secondary deadline and a rearrangement of the input |
| RobustScheduling.SeedDelayAgainstPrimary | Scheduling_test.ts:161-164 | a seed starts at 0 and returns after twice its processing time; its delay equals finish minus recorded deadline if and only if the two deadlines agree |
| RobustScheduling.Seeds | Scheduling_test.ts:157-165 | one vehicle per seed |
| RobustScheduling.SeedsCarryFirstJobs | Scheduling_test.ts:157-165 | the seeded ledger carries the first `N` sorted jobs, one per vehicle, all busy and chained |
| RobustScheduling.SeedVehicles | Scheduling_test.ts:157-165 | the loop builds the seeds |
| RobustScheduling.SliceClamps | Scheduling_test.ts:172 | `slice` with ordered bounds is the sub-sequence between the clamped bounds |
| RobustScheduling.CeilingBounds | Scheduling_test.ts:168 | `ceil(m / p)` is the least `c` with `m <= c p` |
| RobustScheduling.Intervals | Scheduling_test.ts:167-173 | one batch per interval count |
| RobustScheduling.IntervalAt | Scheduling_test.ts:169-173 | batch `i` is the slice from `N + iP` to `N + iP + P` |
| RobustScheduling.IntervalSize | Scheduling_test.ts:167-173 | every batch holds between 1 and `P` jobs |
| RobustScheduling.IntervalsPartition | Scheduling_test.ts:167-173 | the batches split the jobs after the seeds in order; together they are exactly those jobs |
| RobustScheduling.SplitIntervals | Scheduling_test.ts:167-173 | the loop builds the batches |
| RobustScheduling.Expand | Scheduling_test.ts:179-184 | every expanded candidate can be expanded again |
| RobustScheduling.ExpandChildren | Scheduling_test.ts:179-184 | a candidate is in the expansion if and only if it is among some parent's best permutations of the batch |
| RobustScheduling.ExpandWithinBeam | Scheduling_test.ts:179-184 | each parent passes on at most `B` children |
| RobustScheduling.ExpandCandidates | Scheduling_test.ts:179-184 | the loop computes `Expand` |
| RobustScheduling.Schedule | Scheduling_test.ts:175-186 | every candidate after each batch can be expanded again |
| RobustScheduling.ScheduleWithinBeam | Scheduling_test.ts:175-186 | after `k` batches at most `B^k` candidates remain |
| RobustScheduling.ScheduleSound | Scheduling_test.ts:175-186 | every candidate orders the seeds and batches so far, carries each of those jobs exactly once, keeps each vehicle's seed first and chains its entries |
| RobustScheduling.ScheduleBatches | Scheduling_test.ts:175-186 | the batch loop computes `Schedule` |
| RobustScheduling.RobustScheduleAssignsEveryJobOnce | Scheduling_test.ts:145-189 | every candidate orders all the jobs, carries each exactly once, keeps on vehicle `v` the seed of the `v`-th job by secondary deadline, and chains every vehicle's entries |
| RobustScheduling.RobustScheduleWithinBeam | Scheduling_test.ts:145-189 | the result has at most `B` to the power of the number of batches candidates |
| RobustScheduling.RobustSchedule | Scheduling_test.ts:145-189 | the function computes `RobustCandidates` |
| Simulation.Vacant | Scheduling_test.ts:198-201 | `N` vehicles, all empty |
| Simulation.SimLastReturns | Scheduling_test.ts:212-216 | each vehicle's last return time, undefined exactly for an empty vehicle |
| Simulation.SimAssign | Scheduling_test.ts:219-228 | assignment keeps the vehicle count and never changes an earlier entry |
| Simulation.SimMakespan | Scheduling_test.ts:237-239 | the maximum return time bounds every vehicle's last return and is reached by one |
| Simulation.Simulate | Scheduling_test.ts:191-242 | the result keeps the order, has `N` vehicles, and a maximum duration when there are vehicles |
| Simulation.SimulateCarriesEveryJobOnce | Scheduling_test.ts:203-229 | the replayed ledger carries every job of the order exactly once |
| Simulation.SimulateMeasuresAgainstSecondary | Scheduling_test.ts:219-228 | every entry finishes one processing time after its start, is late by finish minus the secondary deadline, and returns after twice the processing time |
| Simulation.SimAssignAllFillsFromBack | Scheduling_test.ts:207-218 | while vehicles are free, job `j` goes alone onto vehicle `N - 1 - j`, starting at 0 |
| Simulation.SimAssignAllAppend | Scheduling_test.ts:203-229 | replaying two orders in turn is replaying their concatenation |
| Simulation.SimulateFillsFromBack | Scheduling_test.ts:191-242 | with non-negative processing times the replay succeeds if and only if there are at least as many jobs as vehicles; the first `N` jobs then stay first on vehicles `N - 1` down to `0`, and the maximum duration is the latest return |
| Simulation.SimulateShortOrder | Scheduling_test.ts:191-242 | fewer jobs than vehicles leave a vehicle empty, so the replay yields nothing |
| Simulation.SimulateFullOrder | Scheduling_test.ts:191-242 | with at least as many jobs as vehicles the replay exists, the first `N` jobs head vehicles `N - 1` down to `0`, and the maximum duration is the latest return |
| Simulation.SimulateChains | Scheduling_test.ts:219-228 | with non-negative processing times each vehicle starts at 0 and runs its entries back to back |
| Simulation.SimSelectVehicle | Scheduling_test.ts:204-218 | the scan loop computes `Choose` over field 6 |
| Simulation.SimAssignOrder | Scheduling_test.ts:203-229 | the loop replays the order |
| Simulation.SimTotals | Scheduling_test.ts:231-239 | the totals are defined exactly when every vehicle is busy; the delay is the sum of the entries' delays and the duration is the latest return |
| Simulation.SimulateCombination | Scheduling_test.ts:191-242 | the function computes `Simulate`, with `None` where the source throws |

## Left out

- Floating point: times are `real`.
  - Division by zero yields `Score.Infinite` where the source's `1 / 0` is `Infinity`.
  - `Math.max` of no scores (`-Infinity`) is an absent pick.
  - NaN is not represented.
- `Math.round` of the weighted delays (`Scheduling_test.ts:115`, `:137`, `:163`) is not modelled: weighted delays are exact. Two permutations whose weighted delays differ only after rounding may therefore rank differently.
- The top-level script of `Scheduling_test.ts` is not modelled: it fills global tables from a job's material needs (lines 23-36) and sorts and prints the combinations (lines 259-270). `runPermutations` reads the global `jobs` table; the model passes it as a parameter.
- The supply policy is one enum (`NoSupply`, `Reactive`, `Controlled`, `Predictive`). The manager's three booleans are taken to be mutually exclusive; with both controlled and predictive set, the source would run both normalisation loops.
- The offer map is keyed by station id where the source keys a `Map` by station object. The AGVs' supply-time estimates and the router's durations come from function parameters. The AGV status and dispatch bookkeeping of a reservation (`AssemblyJob.ts:664-677`) and the manager's material queue are not modelled.
- The job object: `prepareNextOperation` is not modelled as a whole. Left out of it are the manager's queues and `async` scheduling, the event dispatches, `moveTo` and the Konva/router calls, console output, `uuid` and the station's `removeSpecificOperationByJobId`. Its outcome rule (`Settle`), its end-of-job bookkeeping (`FinishJob`) and the calls to the planning methods are modelled.
- `Job.AssemblyJob.CompleteOperation` does not start the next planning round (`AssemblyJob.ts:331`). That round is `FindNextStation` followed by `Settle`.
- `Forecast.CalculateTimeToOperation` has no `operationName` or `latest` parameter: the source never reads them.
- `Scheduling.RunPermutations` requires every vehicle of the incoming ledger to be busy. Its only caller passes seeded ledgers, and the source throws on an empty vehicle when totalling.
- `Scheduling.RunPermutations`, `RobustScheduling.RobustSchedule` and `Simulation.SimulateCombination` require every job to have a window and deadlines (`Known`, `HasDeadlines`). The source throws on a missing key.
- `RobustScheduling.RobustSchedule` requires `N <= ` the number of jobs, and `N >= 1` and `P >= 1` when jobs remain after the seeds. Otherwise the source reads undefined seeds or loops without end.
- `JobPermutations.Permutations` requires a non-empty input; on `[]` the source recurses without end.
- `JobPriority.JobScoreWith` requires non-zero maxima (`maxRTTF`, and `maxMS` under managed supply), where JavaScript would produce `Infinity` or `NaN` terms.
- Object key order (the vehicles `AGV 1 .. AGV N`, the names in `operationsBeforeEarliest`) is taken to be insertion order, given explicitly as sequences. JavaScript's `for…in` (`AssemblyJob.ts:993`) lists integer-like keys first, in ascending order, and only the other keys in insertion order. The model therefore agrees with the source only when no operation name is a canonical integer such as `"3"`.
- Operations are compared by value. The source compares object references (`includes` at `AssemblyJob.ts:247` and `258-259`, `==` at `1152`, `indexOf` at `850`). Within one product `Distinct` operations make the two agree. A station's last operation, or an operation passed to `CompleteOperation`, that equals an operation of the product without being the same object is treated differently: the model counts it as that operation.
- `Products.WellFormed` requires a dependency matrix with at most one row more than the product has operations. This is an assumption about the input. With a larger matrix the source would push `undefined` into the candidate list (`AssemblyJob.ts:889`).
- The local `startTime` derived from the dispatch time (`AssemblyJob.ts:1157-1160`) is not modelled: nothing reads it. The dispatch time itself is a field of the job.
- `Simulation.SimulateFillsFromBack` and `Simulation.SimulateChains` assume non-negative processing times. With an empty vehicle seen first, a busy vehicle returning before time 0 could be taken instead, and the job would then start at 0 rather than at that vehicle's return time (`Scheduling_test.ts:209-223`).
- `Enumeration.GetNewLevel` takes the caller's target list and returns it extended, instead of pushing to a shared array.

## Findings

| source | as written | input that shows it | evidently intended | confidence | as-written member | corrected member |
|---|---|---|---|---|---|---|
| AssemblyJob.ts:1151-1156, 1170, 1195, 1202 | the score formulas use `jobOperation.operation.setUpTime`, so the local `setUpTime`, which is 0 when the station's last operation is the same one, is never used | an operation with set-up time 1 repeated at a station whose last operation it was, due 1 time unit from now, with `pE = pF = 1`, `maxRTTF = maxST = 1` and no material supply: the written score is 1/(1 + 1) = 1/2 | the local `setUpTime` in the formulas, so a repeat is scored with no set-up (score 1) | not executed | JobPriority.JobScoreAsWritten (JobPriority.SetUpTimeChargedOnRepeat) | JobPriority.JobScore (JobPriority.RepeatedOperationScoresSetUpFree) |
