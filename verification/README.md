# Verified models of the analysis engine and the agent's run protocol

The repository simulates an AutoSys scheduler and assesses an estate of jobs for
migration.  This project models its algorithms and protocols in Dafny and proves what
they promise: the dependency analysis and the complexity report built on it, the
workload profile, operational risk, the single-flight simulation cache, the token budget,
the agent's run protocol with retries and kills, the signed tokens, and the conditions
jobs depend on.  `dafny verify dfyconfig.toml` checks all of it.

Loops over stacks, worklists and dictionaries are methods with loops, over the same
structures, and are proved against recursive or path-based definitions.  Threads are
modelled as step systems, one step per transaction, lock section or unlocked read; their
theorems are about every run, of any length, with any number of jobs, callers and
workers.

| file | subject |
|---|---|
| Options, Permutations, Counting, Sorting | optional values; rearrangements; counting; Python's string order and `sorted(key=...)` |
| RunHistory | the rows of the run table |
| DependencyGraph, DependencyPaths | dependency waves, upstream closure, longest paths |
| FanIn | blast radius |
| ChainCharging | which deep chains carry the XL driver |
| ReportOrder, ReportBlocks | the order of the report and its contiguous subtrees |
| OperationalRisk, RiskRollup, Report | run statistics, risk levels, the roll-up, the whole report |
| WorkloadProfile | peak concurrency |
| SnapshotKey, SimulatedRisk, SimulatedRiskSafety, SimulatedRiskRuns | the simulation cache: key, steps, what every run keeps, particular runs |
| TokenEstimate | the token budget |
| AgentRun, AgentInvariant, AgentKill, AgentCodes, AgentFinish, AgentServer | the run protocols of the dispatcher and of the remote agent: steps, invariant, kills, exit codes, lost records |
| Tokens | base64url and signed tokens |
| ConditionRefs | references in conditions, their evaluation, what renaming a job does to it |
| ConditionTokens, ConditionParser, ConditionGrammar | the tokenizer and the parser of conditions, and their grammar |
| ConditionRename, ConditionArguments, ConditionText | renaming a job in a condition's text: splicing, the fallback, the whole operation |
| BoxTrace | the descendants of a box |

## What the code does not quite do

Where the code and the obvious claim part ways, the model follows the code, a lemma shows
an input on which the claim fails, and another states exactly when it holds.

- Cycles: a dependency the cycle guard rejects counts 1, so a two-job cycle scores 3
  (`DependencyPaths.TwoNodeCycleScoresThree`).  The wave of a job is its longest path
  exactly if the job neither lies on a cycle nor depends, however indirectly, on one
  (`DependencyPaths.WaveIsLongestIff`).  On a root scope whose deep chain ends in a cycle
  no job is charged for it (`ChainCharging.RingIsNotCharged`); every chain is charged
  exactly if none ends so (`ChainCharging.EveryChainChargedIff`).
- Roll-up: the comment at complexity.py:567-570 has every row listed before what it
  contains, but orphans are listed by name.  If a pattern keeps the boxes "xz" and "xa"
  but not the box of "xz", "xa" is in "xz" and a HIGH job is in "xa", then "xz" reads "xa"
  too early and stays NO_DATA (`Report.OrphanBoxMissesItsRisk`, `Report.BackwardsRows`).
  Every row is rolled up, whatever the risks, exactly if no box is listed after a child
  box that has another child to hand up (`RiskRollup.EveryRowRollsUpIff`); row by row it
  is enough that this holds below the row (`RiskRollup.SettledRollsUp`).
- Peak concurrency: a run stored with its end before its start hides a peak
  (`WorkloadProfile.InvertedRunHidesPeak`); the result is right exactly if some busiest
  instant has no such run around it (`WorkloadProfile.PeakIsTrueMaximumIff`).
- Exit codes: -1, the code of a watchdog kill and of a runner that raised, counts as
  SUCCESS, against the docstring (`AgentRun.OnlyZeroSucceedsIff`).
- Kills: a KILLJOB committed between the check that decides on a retry and the
  transaction that sets RUNNING again is overwritten (`AgentKill.KillCanBeLost`); it is
  kept exactly if it is not in that window, whenever it read RUNNING
  (`AgentKill.KillIsKeptIff`).  The remote agent has no such window
  (`AgentServer.KillIsAlwaysKept`).
- Worse evidence: more failures than runs can lower a score
  (`OperationalRisk.FailuresBeyondRunsLowerTheScore`), and more failures lower it exactly
  if every run had failed, more failures than runs are counted, and the sample is too
  small or its window too short without that
  (`OperationalRisk.MoreFailuresLowerTheScoreIff`).  Such a `RunStats` has to be built by
  hand: `fetch_run_stats` never counts more failures than runs
  (`OperationalRisk.CountedFailuresStayWithinRuns`).
- The simulation cache is single-flight per cached state only.  `reset_cache` and eviction
  drop a running state, so two simulations of one key can go on at once
  (`SimulatedRiskRuns.ResetDuplicatesWork`, `SimulatedRiskRuns.EvictionDuplicatesWork`).
  A request starts a simulation exactly if no state is cached for its key, or the one
  there has failed by the second read of its status and was not found recently failed by
  the first (`SimulatedRiskRuns.NewStateIff`).  The key covers job definitions; calendars,
  globals, machines and resources may differ from those the served statistics were
  simulated with (`SimulatedRiskRuns.OtherCalendarsAreServed`).
- The token budget's M-tier sample is the head of the list, so the order of the list
  changes the total (`TokenEstimate.SampleDependsOnOrder`): two orders of the same jobs
  have the same total exactly if the validation increments of their samples add up to the
  same (`TokenEstimate.TotalIgnoresOrderIff`).
- A token is accepted at the very instant of its expiry, which section 4.1.4 of RFC 7519
  excludes; there is no other difference (`Tokens.DiffersFromRfcIff`).
- Renaming leaves a job of another instance alone, but evaluation looks it up under its
  local name, so a predicate on such a namesake can change its truth, exactly if its
  look-back is not negative (`ConditionRefs.NamesakeChangesMeaning`); with a negative one
  it is never true (`ConditionRefs.NegativeLookBackIsFalse`).  Every predicate of a
  condition keeps its truth, whatever is true of the jobs, exactly if no predicate without
  a negative look-back names such a namesake or looks up a job of the new name
  (`ConditionRefs.RenameKeepsEveryPredicateIff`).
- Renaming splices any new name into the text.  The text is cut into the renamed tokens
  exactly if there is nothing to rename or the tokenizer reads the new name as one token,
  which it does not if there is a blank in it
  (`ConditionText.RenamedTextIsRenamedTokensIff`).

## Model

| member | source | states |
|---|---|---|
| DependencyGraph.WaveTable.DependencyWave | autosys/analysis/dependency_graph.py:36-103 | for every graph, memo and path: same value and same memo as the recursive cycle-guarded definition, path restored, each node expanded once, at most 1 + nodes + edges pops |
| DependencyGraph.WaveTable.Turn | autosys/analysis/dependency_graph.py:76-102 | one loop turn keeps what the remaining stack computes and its cost |
| DependencyGraph.WaveFacts | autosys/analysis/dependency_graph.py:65-69 | the recursion keeps memo entries, scores nothing on the path, and returns `memo.get(job, 1)` |
| DependencyGraph.FinishPending | autosys/analysis/dependency_graph.py:92-94 | leaving out dependencies already scored or on the path changes nothing |
| DependencyGraph.WaveFolds | autosys/analysis/dependency_graph.py:96-101 | folding `memo.get(d, 1)` after the dependencies is what the recursion does |
| DependencyPaths.WaveIsLongest | autosys/analysis/dependency_graph.py:36-103 | from any exact memo, the wave of a job that runs into no cycle is the number of jobs on its longest dependency path, whatever cycles there are elsewhere |
| DependencyPaths.WaveIsLongestIff | autosys/analysis/dependency_graph.py:36-103 | the wave is the longest path if and only if the job runs into no cycle, and only then is there a longest path |
| DependencyPaths.WaveRunIsLongest | autosys/analysis/complexity.py:453-457 | the same if and only if for every call of a sequence that shares one memo |
| DependencyPaths.WaveRunIsLayered | autosys/analysis/complexity.py:453-457 | on every graph each call leaves its value in the memo, and a job is deeper than every dependency that does not lead back to it |
| DependencyPaths.WaveIsOrderIndependent | autosys/analysis/dependency_graph.py:87-94 | neither the order of dependencies, nor the calls before it, nor the shared memo changes the wave of a job that runs into no cycle |
| DependencyPaths.WaveBounded | autosys/analysis/dependency_graph.py:96-101 | on every graph waves lie between 1 and one more than the number of scored jobs |
| DependencyPaths.GroundedWaveBounded | autosys/analysis/dependency_graph.py:96-101 | for a job that runs into no cycle at most the number of scored jobs |
| DependencyPaths.TwoNodeCycleScoresThree | autosys/analysis/dependency_graph.py:99-101 | a two-job cycle scores 3 |
| DependencyPaths.UpstreamClosure | autosys/analysis/dependency_graph.py:106-132 | exactly the jobs reached from in-scope seeds by one or more edges, on every graph |
| FanIn.FanInCounts | autosys/analysis/dependency_graph.py:135-149 | every count is the number of referring jobs, and all counts add up to all references |
| FanIn.ReferrersAreCounted | autosys/analysis/dependency_graph.py:135-149 | that number is the size of the set of jobs whose condition references the job |
| ChainCharging.EveryChainChargedIff | autosys/analysis/complexity.py:470-479 | for every graph: each deep job is charged or upstream of a charged one, if and only if no deep chain ends in a cycle |
| ChainCharging.XLDriverOnChainEnds | autosys/analysis/complexity.py:237-243 | on every graph the XL driver is on exactly the jobs seven deep no root job references, the L driver on the others four deep; unless a chain ends in a cycle every spared one is upstream of one of them |
| ChainCharging.InteriorIffReferenced | autosys/analysis/complexity.py:475-479 | on every graph a deep job is interior if and only if some root job references it |
| ChainCharging.RootDepths | autosys/analysis/complexity.py:451-457 | the depths of the top-level jobs with one shared memo |
| ChainCharging.RootChains | autosys/analysis/complexity.py:451-479 | depths and interior jobs of a report's root scope; on every graph a depth is the longest path if and only if the job runs into no cycle, and exceeds that of every dependency that does not lead back |
| ChainCharging.RingIsNotCharged | autosys/analysis/complexity.py:475-479 | a ring of six or more boxes is deep where it is entered and carries no XL driver |
| ChainCharging.RingWave | autosys/analysis/dependency_graph.py:99-101 | the score of every job on the way round a ring |
| ReportOrder.DepthFirst | autosys/analysis/complexity.py:419-439 | the stack loop lists the recursive preorder of the box forest: the rows of each box by name, and the top-level ones too; exactly the rows reached from a top-level row, each once, boxes first |
| ReportOrder.OrderRows | autosys/analysis/complexity.py:413-442 | the report order is a permutation of the rows, in the reached part the rows of each box by name; the unreached ones follow by name, also when `box_name` references form a cycle |
| ReportBlocks.SubtreesAreContiguous | autosys/analysis/complexity.py:419-439 | every listed row is followed, without a gap, by exactly the listed rows below it |
| Report.LikeAnything | autosys/analysis/complexity.py:395-406 | a '%' of a box pattern stands for any text within a line, the empty one included |
| Report.LikeItself | autosys/analysis/complexity.py:395-406 | every other character stands for itself |
| Report.LikeLetter | autosys/analysis/complexity.py:395-406 | in a pattern with '%' too |
| Report.BoxNames | autosys/analysis/complexity.py:400-406 | the names of exactly the BOX rows that match the pattern in lower case |
| Report.Select | autosys/analysis/complexity.py:407-411 | the rows kept: the boxes of these names and their children |
| Report.Kept | autosys/analysis/complexity.py:400-411 | without a pattern, or with an empty one, all rows; otherwise the boxes with a name like it and their children |
| Report.AssessMeans | autosys/analysis/complexity.py:487-495 | when a row is HIGH, and when it is NO_DATA, before the roll-up: simulated history needs ten runs but no window; and where its risk is said to come from |
| Report.BuildReport | autosys/analysis/complexity.py:347-585 | selection, order, assessment and roll-up together: a permutation of the selected rows in report order, in the reached part the rows of each box by name, the reached ones and every settled orphan rolled up, every row that is not a box as assessed |
| Report.ReachedRowsAreParentsFirst | autosys/analysis/complexity.py:568-571 | in the reached part a box precedes all its included children |
| Report.ReportOrderIsUnique | autosys/analysis/complexity.py:413-442 | two tables with the same rows, in whatever order, have the same report order |
| Report.WorseEvidenceNeverLowersRisk | autosys/analysis/complexity.py:563-583 | between two reports on the same rows, worse history of one job lowers the final risk of no row, reached or not |
| Report.OrphanBoxMissesItsRisk | autosys/analysis/complexity.py:567-583 | an orphan box listed after its child box keeps NO_DATA although a HIGH job is below it |
| RiskRollup.RollUp | autosys/analysis/complexity.py:563-583 | the in-place reverse walk: every row ends as its turn leaves it, inheriting from the first of the worst children as it sees them and only if that one is worse; every settled row ends with the highest initial risk of its subtree through BOX rows and the source of a member that has it |
| RiskRollup.WorstChild | autosys/analysis/complexity.py:576-579 | the first of the children with the highest risk |
| RiskRollup.WorstIsFirstInTable | autosys/analysis/complexity.py:563-579 | which is the one of these that comes first in the full job set |
| OperationalRisk.LevelsInOrder | autosys/analysis/complexity.py:565 | every level has a place of its own, unknown below clean and HIGH on top |
| RiskRollup.SettledRollsUp | autosys/analysis/complexity.py:567-582 | a row is rolled up if below it every box is listed before the child boxes that hand something up to it |
| RiskRollup.EveryRowRollsUpIff | autosys/analysis/complexity.py:567-583 | every row is rolled up for all risks if and only if no box is listed after a child box that has another child |
| RiskRollup.WalkIsMonotone | autosys/analysis/complexity.py:563-583 | higher initial risks never give a lower final one, in any row of any order |
| OperationalRisk.ScoreIsMonotone | autosys/analysis/operational_risk.py:244-323 | more failures up to the runs, terminations, retried runs or active alarms never lower the score, through the sample gate |
| OperationalRisk.ScoreMeans | autosys/analysis/operational_risk.py:244-323 | what each level means in rates, counts and days: HIGH from 30% failures, two active alarms, one termination, or on hold or suspended, and so on down |
| OperationalRisk.MoreFailuresLowerTheScoreIff | autosys/analysis/operational_risk.py:117-144 | without that bound more failures lower the level if and only if every run had failed, more failures than runs are counted, and the sample is too small or too short otherwise |
| OperationalRisk.FailuresBeyondRunsLowerTheScore | autosys/analysis/operational_risk.py:130-131 | such an input: two failures in two runs are HIGH, three are NO_DATA |
| OperationalRisk.CountedFailuresStayWithinRuns | autosys/analysis/operational_risk.py:177-209 | no history that was counted is such an input |
| OperationalRisk.AggregateCounts | autosys/analysis/operational_risk.py:177-209 | failures, terminations and retried runs are at most the runs, and failures and terminations together too |
| OperationalRisk.FetchRunStats | autosys/analysis/operational_risk.py:147-241 | chunk by chunk or at once, each named job with history gets the statistics of its own rows |
| OperationalRisk.StatsCountRows | autosys/analysis/operational_risk.py:177-241 | these statistics count rows of the tables: runs, failures, terminations, retried runs, active and cleared alarms; the window reaches from the first known start to the last; there are none exactly without a run, and without an alarm unless sources were asked for |
| WorkloadProfile.SumUpToIsCoverage | autosys/analysis/workload_profile.py:127-138 | the signed events up to an instant count the runs covering it, less the inverted ones around it |
| WorkloadProfile.LevelCountsRows | autosys/analysis/workload_profile.py:127-138 | on the table: the finished rows in scope that are in flight at an instant, and the inverted ones around it |
| WorkloadProfile.QueryFindsPeak | autosys/analysis/workload_profile.py:139-146 | the ordered windowed query returns the highest level and the earliest instant that has it, whatever the order of ties |
| WorkloadProfile.PeakIsCoverage | autosys/analysis/workload_profile.py:127-149 | without inverted runs that is the largest number of runs in flight at any instant |
| WorkloadProfile.PeakIsTrueMaximumIff | autosys/analysis/workload_profile.py:127-149 | with inverted runs, exactly when it is |
| WorkloadProfile.InvertedRunHidesPeak | autosys/analysis/workload_profile.py:132-138 | an inverted run that hides a peak |
| WorkloadProfile.ZeroLengthRunsAddNothing | autosys/analysis/workload_profile.py:129-130 | zero-length runs change no level |
| WorkloadProfile.ChooseSource | autosys/analysis/workload_profile.py:91-106 | the first real source, in its fixed order, that has rows in scope |
| WorkloadProfile.PeakConcurrency | autosys/analysis/workload_profile.py:127-149 | the peak and its instant for any list of runs |
| WorkloadProfile.ComputeWorkloadProfile | autosys/analysis/workload_profile.py:70-150 | source, run count and peak of the profile, in terms of the rows: the count is the number of rows in scope, finished or not; the peak is the largest number of finished ones in flight at an instant, less the inverted ones around it, first reached at the instant given, and at most the count |
| SnapshotKey.BlobIsCanonicalIff | autosys/analysis/simulated_risk.py:167-177 | two job tables give the same key blob if and only if they define the same jobs, whatever the row order and the runtime columns |
| SimulatedRiskSafety.ReachableInv | autosys/analysis/simulated_risk.py:209-254 | the invariant of cache, states, workers and callers, in every interleaving |
| SimulatedRiskSafety.CacheIsBounded | autosys/analysis/simulated_risk.py:246-248 | at most four states, one per key, whenever the lock is free |
| SimulatedRiskSafety.ReturnedStateIsCached | autosys/analysis/simulated_risk.py:234-254 | a request gives the lock back with its state in the cache under its key |
| SimulatedRiskSafety.NoSecondWorker | autosys/analysis/simulated_risk.py:235-246 | a state is created only while no cached state of its key is running or ready |
| SimulatedRiskSafety.SingleFlight | autosys/analysis/simulated_risk.py:235-246 | while a state stays cached and has not failed no other is created for its key |
| SimulatedRiskSafety.FailureIsRetriedIff | autosys/analysis/simulated_risk.py:237-244 | a found state is replaced exactly if it has failed by the second read and was not stamped less than a minute ago at the first |
| SimulatedRiskRuns.NewStateIff | autosys/analysis/simulated_risk.py:234-248 | over a whole lock section: a request creates a state if and only if none is cached for its key, or the one there is replaced as above |
| SimulatedRiskRuns.ResetDuplicatesWork | autosys/analysis/simulated_risk.py:234-254 | for every input, a run with two live workers of its key, after a reset |
| SimulatedRiskRuns.EvictionDuplicatesWork | autosys/analysis/simulated_risk.py:246-254 | the same without a reset, after four other keys |
| SimulatedRiskRuns.StatsAreShared | autosys/analysis/simulated_risk.py:234-240 | for any two inputs of one key, a run in which the second caller is served what was simulated for the first |
| SimulatedRiskRuns.OtherCalendarsAreServed | autosys/analysis/simulated_risk.py:167-177 | so the calendars of the served statistics can be other than the caller's |
| SimulatedRiskSafety.OutcomesAreSound | autosys/analysis/simulated_risk.py:313-321 | "ready" carries the statistics of a completed simulation with the caller's key; "failed" means a failed state of that key; without a timeout "pending" is never returned; "empty" is for exactly those without a job |
| SimulatedRiskSafety.PendingWasRunning | autosys/analysis/simulated_risk.py:316-321 | "pending" means that the simulation of the caller's key was running when the caller gave up |
| SimulatedRiskRuns.TimeoutIsPending | autosys/analysis/simulated_risk.py:316-321 | for every input, a run in which a caller with a timeout is served "pending" while the simulation goes on |
| SimulatedRiskSafety.StampedByTheClock | autosys/analysis/simulated_risk.py:224-226 | a state carries the time at which its worker finished |
| SimulatedRiskSafety.ReadyStatsFitTheJobs | autosys/analysis/simulated_risk.py:167-177 | that simulation ran on the caller's own job definitions, cycles and seed |
| SimulatedRiskSafety.PutFacts | autosys/analysis/simulated_risk.py:246-248 | a known key keeps its place in the cache, a new one goes to the end |
| TokenEstimate.PatternFixesRoute | autosys/analysis/ai_token_estimate.py:171-201 | jobs of one pattern share a route |
| TokenEstimate.RouteMeans | autosys/analysis/ai_token_estimate.py:171-185 | which job takes which route, by its size and by whether it has a red tag, wherever that is in the list |
| TokenEstimate.SamePatternIff | autosys/analysis/ai_token_estimate.py:188-201 | two jobs share a pattern if and only if they agree in type, size, the tags in any order, and being four deep or more |
| TokenEstimate.AdaptingIsCheaper | autosys/analysis/ai_token_estimate.py:213-226 | adapting a known pattern costs at most less than designing it costs at least |
| TokenEstimate.ValidationAddsTokens | autosys/analysis/ai_token_estimate.py:204-210 | higher risk or a larger radius never makes a job cheaper, and adds tokens exactly where the risk becomes MEDIUM or the radius five |
| TokenEstimate.OneDesignPerPattern | autosys/analysis/ai_token_estimate.py:213-226 | every pattern has exactly one PATTERN_DESIGN job, the first |
| TokenEstimate.ClusteredTotal | autosys/analysis/ai_token_estimate.py:213-226 | the clustered total is one design per pattern, an adaptation for each further job, and every job's validation increment |
| TokenEstimate.ClusteredTotalIgnoresOrder | autosys/analysis/ai_token_estimate.py:213-226 | so it is the same for every order of the jobs |
| TokenEstimate.Sampled | autosys/analysis/ai_token_estimate.py:244-247 | the sample is three tenths, rounded to nearest with halves to even |
| TokenEstimate.ReviewedAreTheFirst | autosys/analysis/ai_token_estimate.py:244-276 | the M jobs that cost tokens are the first of the list, as many as the sample |
| TokenEstimate.TotalSplits | autosys/analysis/ai_token_estimate.py:249-287 | the total is the clustered total, the reviews of the ORBITER_FIRST jobs, and the reviews and validation increments of the sample |
| TokenEstimate.TotalIgnoresOrderIff | autosys/analysis/ai_token_estimate.py:244-247 | two orders of the same jobs have the same total if and only if the validation increments of their samples have the same sum; otherwise the totals differ by that difference |
| TokenEstimate.SampleDependsOnOrder | autosys/analysis/ai_token_estimate.py:244-247 | the smallest case: two M jobs swapped change the total if and only if their validation increments differ |
| TokenEstimate.EstimateAll | autosys/analysis/ai_token_estimate.py:249-287 | the loop with its seen patterns per route stores the estimate of every job and counts the patterns |
| TokenEstimate.TallyAll | autosys/analysis/ai_token_estimate.py:289-301 | the tallies per route and per tier |
| TokenEstimate.TallyCounts | autosys/analysis/ai_token_estimate.py:289-301 | a tally counts exactly the jobs of its route or tier |
| TokenEstimate.ComputeTokenBudget | autosys/analysis/ai_token_estimate.py:229-317 | the whole summary; with unique names the total equals the sum over jobs, over routes and over tiers |
| AgentRun.OnlyZeroSucceedsIff | autosys/agent/dispatch.py:116-125 | without a threshold "only 0 succeeds" holds exactly for codes that are not negative; with one, exactly the codes up to it succeed |
| AgentInvariant.ReachableInv | autosys/agent/dispatch.py:269-500 | the invariant of maps, rows, records and threads in every run of the protocol |
| AgentInvariant.MapsAgree | autosys/agent/dispatch.py:311-313 | an active entry names the current run of the job's own live thread, `_run_jobs` agrees, and no map mentions a job without a thread |
| AgentInvariant.ActiveIsCurrent | autosys/agent/dispatch.py:364-370 | in every run `_active` names the run the job's thread is on, exactly from the registration of the run until it is dropped |
| AgentInvariant.LinesAreFiledRight | autosys/agent/dispatch.py:508-534 | a line that arrives while the thread lives is filed under its job, of whatever attempt; a later one under "unknown" |
| AgentInvariant.RecordsOfAFinishedJob | autosys/agent/dispatch.py:410-492 | a FAILURE record for each run but the last, at most `n_retrys` retries, a final FAILURE only after all of them, TERMINATED after a kill that was seen; only an uncommitted first run can lose its result |
| AgentCodes.CodesOfAFinishedJob | autosys/agent/dispatch.py:116-125 | in every run: an attempt that was retried returned a code above `max_exit_success` (0 without one), the job ends in SUCCESS or FAILURE as the last code is at most that or above it, every finished record carries the code of its own process, and a FAILURE record one above the threshold |
| AgentCodes.CodesAreReturned | autosys/agent/dispatch.py:407-420 | these codes are what the processes returned |
| AgentFinish.GivesUpAfterFive | autosys/agent/dispatch.py:80-95 | a record is given up only after five tries that did not see it |
| AgentKill.KillIsKeptIff | autosys/agent/dispatch.py:423-481 | a kill, also one that read RUNNING earlier, survives to the end of the thread if and only if it is not committed in the retry window, and then starts no further attempt |
| AgentKill.KillCanBeLost | autosys/agent/dispatch.py:435-470 | a complete run in which a kill is overwritten and the job ends in SUCCESS |
| AgentKill.TerminatedWasKilled | autosys/agent/dispatch.py:423-428 | a job ends TERMINATED only if its thread found its row so during the last attempt |
| AgentKill.TerminalAgrees | autosys/agent/dispatch.py:484-492 | the terminal transaction keeps TERMINATED, and job and last record end with the same status |
| AgentRun.AgentDispatch.constructor | autosys/agent/dispatch.py:225-230 | both maps start empty |
| AgentRun.AgentDispatch.Enter | autosys/agent/dispatch.py:311-313 | the lock section of a dispatch makes the step's maps |
| AgentRun.AgentDispatch.Reenter | autosys/agent/dispatch.py:463-465 | so does the one of a retry |
| AgentRun.AgentDispatch.Drop | autosys/agent/dispatch.py:417-418 | so does the one after the process |
| AgentRun.AgentDispatch.Find | autosys/agent/dispatch.py:364-370 | a kill finds the current run of the job's live thread, and none exactly if there is no thread or it has dropped one run and not registered the next |
| AgentRun.AgentDispatch.Name | autosys/agent/dispatch.py:524-530 | the job a line is filed under |
| AgentRun.AgentDispatch.Leave | autosys/agent/dispatch.py:494-496 | dropping the job's run ids one by one leaves exactly the other jobs' |
| AgentServer.RecordsAreNeverLost | autosys/agent/server.py:268-408 | the remote agent's map has exactly the jobs between the lock section of the dispatch and that of the thread, and every finished run keeps the status it settled on |
| AgentServer.CodesOfAFinishedRun | autosys/agent/server.py:386-387 | in every run: the record carries the code of its own process, and the job ends in SUCCESS or FAILURE as that is at most the threshold or above it |
| AgentServer.CodesAreReturned | autosys/agent/server.py:378-383 | these codes are what the processes returned |
| AgentServer.EndsInOneTransaction | autosys/agent/server.py:390-406 | a thread ends in one transaction: TERMINATED exactly if the row read so in it, and job and record on the same status |
| AgentServer.KillIsAlwaysKept | autosys/agent/server.py:391-406 | its one-transaction finish loses no kill, whenever it comes and whenever it read RUNNING |
| Tokens.PaddingIsRestored | autosys/app_server/auth.py:173-179 | stripping removes padding only, and padding by the length modulo four restores it exactly (sections 4 and 5 of RFC 4648) |
| Tokens.DecodeEncode | autosys/app_server/auth.py:173-179 | decoding undoes encoding for every byte string |
| Tokens.ThreeParts | autosys/app_server/auth.py:192-198 | a token splits into exactly its three parts |
| Tokens.TokenRoundTrip | autosys/app_server/auth.py:187-207 | a token whose claims JSON reads back decodes to them up to and including its expiry, and is expired after it |
| Tokens.AcceptedIsSigned | autosys/app_server/auth.py:195-207 | every accepted string is its first two parts followed by their encoded HMAC |
| Tokens.SignatureCoversTheRest | autosys/app_server/auth.py:182-203 | the third part of an accepted string decodes to the HMAC of all that is before it |
| Tokens.SameSignatureSameToken | autosys/app_server/auth.py:182-203 | if the HMAC is injective, two accepted strings with one signature are one string |
| Tokens.AcceptedIsUnexpired | autosys/app_server/auth.py:204-207 | an accepted string carries the claims of its second part, and their expiry, if any, is a number not yet past |
| Tokens.TokenLives | autosys/app_server/auth.py:187-192 | a token lives its time, to the second, and carries its claims, the time of its issue and its expiry |
| Tokens.DiffersFromRfcIff | autosys/app_server/auth.py:205-206 | the expiry check differs from section 4.1.4 of RFC 7519 at the instant of expiry and nowhere else |
| Tokens.SessionsAreNotStates | autosys/app_server/auth.py:218-229 | a session token is a session token until it expires and never a state token |
| Tokens.StatesAreNotSessions | autosys/app_server/auth.py:243-260 | the other way round |
| Tokens.AudienceDecides | autosys/app_server/auth.py:225-260 | of the application's own tokens, whatever their claims, exactly those with its issuer and the session audience are sessions, and exactly those with the state audience are states |
| Tokens.NeverBoth | autosys/app_server/auth.py:225-260 | no string is accepted as both |
| ConditionRefs.ConditionJobRefs | autosys/analysis/condition_refs.py:57-72 | the walk with a stack finds the references in the recursive left-to-right order; names with a caret are left out, so it finds exactly the jobs the condition mentions without an instance |
| ConditionRefs.RefsAreMentions | autosys/analysis/condition_refs.py:57-72 | a name without a caret is found if and only if some predicate mentions it, as it is or with an empty instance |
| ConditionRefs.ConnectivesMean | autosys/parser/condition_parser.py:547-676 | "&" is the weakest condition stronger than both operands, "|" the strongest weaker than both, "!" the weakest that excludes its operand |
| ConditionRefs.StatusPredicates | autosys/parser/condition_parser.py:154-175 | how the predicates on one job relate: done is succeeded, failed or terminated, at most one of them; on ice counts as succeeded; without a status a job is not running |
| ConditionRefs.WiderLookBack | autosys/parser/condition_parser.py:632-640 | a wider look-back never makes a predicate false, zero and none are the widest, and a completion that is unknown or ahead meets no other |
| ConditionRefs.RenameKeepsMeaning | autosys/parser/condition_parser.py:547-676 | a renamed condition holds of the renamed job exactly when the condition held, for fresh names and without a namesake of another instance |
| ConditionRefs.RenameKeepsEveryPredicateIff | autosys/parser/condition_parser.py:547-676 | every predicate keeps its truth for all jobs if and only if none without a negative look-back looks up the new name or names a namesake |
| ConditionRefs.NegativeLookBackIsFalse | autosys/parser/condition_parser.py:632-640 | a predicate with a negative look-back is false in every state |
| ConditionRefs.NamesakeChangesMeaning | autosys/parser/condition_parser.py:611-640 | a predicate on a namesake can change its truth if and only if its look-back is not negative |
| ConditionRefs.RenameBack | autosys/analysis/condition_refs.py:75-83 | renaming back restores the condition |
| ConditionRefs.RenamedRefs | autosys/analysis/condition_refs.py:75-83 | the references of the renamed condition are the references, renamed |
| ConditionTokens.TokenizeIsCut | autosys/parser/condition_parser.py:237-280 | the tokens and the white space between them are the text, at the positions they carry; a token that can stand for a name is one |
| ConditionTokens.FirstIsLocal | autosys/parser/condition_parser.py:205-230 | a token depends on its own characters, on the next one, and on whether "(" follows |
| ConditionTokens.SymbolKinds | autosys/parser/condition_parser.py:205-230 | the operators of one character |
| ConditionTokens.ComparisonKinds | autosys/parser/condition_parser.py:205-230 | of two comparisons that fit the longer is taken; "!" is a negation unless "=" follows |
| ConditionTokens.WordKinds | autosys/parser/condition_parser.py:255-280 | a word is a number, "and" or "or" in any case, a keyword only where "(" follows, or a name |
| ConditionTokens.KeywordsOf | autosys/parser/condition_parser.py:154-175 | the keywords of each predicate |
| ConditionTokens.UpperMeans | autosys/parser/condition_parser.py:260-266 | upper case changes the small letters and nothing else |
| ConditionGrammar.ParseIffSpelled | autosys/parser/condition_parser.py:358-492 | the parser reads exactly the grammar: a token list parses to a condition if and only if it spells it, "&" before "|", both from the left |
| ConditionGrammar.GrammarIsUnambiguous | autosys/parser/condition_parser.py:358-492 | no token list spells two conditions |
| ConditionParser.DecimalOf | autosys/parser/condition_parser.py:435-439 | a number is read as its decimal notation says, with its sign and its places |
| ConditionParser.TenthsOf | autosys/parser/condition_parser.py:435-439 | a digit behind the point counts a tenth of one in front of it |
| ConditionParser.TruncateMeans | autosys/parser/condition_parser.py:478-484 | an expected exit code loses its fraction, towards zero |
| ConditionParser.ParseRenamed | autosys/parser/condition_parser.py:358-492 | renaming the references in the token list renames them in the parsed condition and nothing else; what does not parse still does not |
| ConditionParser.ParseOr | autosys/parser/condition_parser.py:369-376 | parsing consumes at least one token and ends within the list |
| ConditionRename.CollectSpans | autosys/analysis/condition_refs.py:86-97 | the positions of exactly the references to the old name |
| ConditionRename.Splice | autosys/analysis/condition_refs.py:101-102 | splicing from right to left replaces all spans at once |
| ConditionRename.ReplaceLength | autosys/analysis/condition_refs.py:101-102 | the length changes by the same amount for every span |
| ConditionRename.ReplaceIsRetext | autosys/analysis/condition_refs.py:88-102 | all other tokens and all white space stay as they are |
| ConditionArguments.WholeArgumentsIff | autosys/analysis/condition_refs.py:99-100 | for text the tokenizer cannot read: the positions found are, for a name without a parenthesis or a leading blank, exactly those where it is the whole argument of a parenthesis |
| ConditionText.RenameJobRefs | autosys/analysis/condition_refs.py:75-103 | the result is the renamed tokens with the same white space, and for text the tokenizer cannot read the text with its whole arguments replaced |
| ConditionText.RenamedTextIsRenamedTokens | autosys/analysis/condition_refs.py:75-103 | if the new name is one token, cutting the result gives back the renamed tokens and the same white space |
| ConditionText.RenamedTextIsRenamedTokensIff | autosys/analysis/condition_refs.py:75-103 | the renamed tokens come back if and only if there is nothing to rename or the new name is one token |
| ConditionText.RenamedTextMeansTheSame | autosys/analysis/condition_refs.py:75-103 | from text to text: the result parses to the renamed condition, which holds exactly when the old one did; what does not parse still does not |
| ConditionRename.RenamedConditionMeansTheSame | autosys/analysis/condition_refs.py:75-103 | the renamed tokens parse to a condition that holds exactly when the old one did |
| BoxTrace.CollectDescendants | autosys/analysis/box_trace.py:88-107 | every row below the box through rows of type BOX, exactly once, the rows of each box by name, on every table |
| BoxTrace.ExpandBox | autosys/analysis/box_trace.py:99-106 | one turn collects all rows of one box |

## Left out

- Web routes, command line, tables, exports, sign-in with Cognito, subprocesses and sockets: input and output.
- Report.Kept: lower-casing is an arbitrary function of the text.
- Tokens.CheckExpiry: claims that are not finite numbers (NaN, Infinity) are not modelled.
- TokenEstimate.SamePatternIff: a pattern is the list of its parts; joined to one string, parts with a "|" or a "," in them could coincide.
- SHA-256, HMAC and JSON: arbitrary functions, injective or read back where a statement says so; `Tokens` takes the HMAC as a function of the signed text only.
- Floating point: failure rates are compared by cross-multiplication, the 30% sample is exact arithmetic with halves rounded to even, look-backs and instants are exact numbers, and the averages and shares of the workload profile are not modelled.
- Report.BuildReport: the size, wave depth, chain driver and blast radius of each row are not in its results; chain and fan-in have their own modules, and the other parts of `score_job` would only add easy members.
- WorkloadProfile.ComputeWorkloadProfile: the distinct jobs and days, the busiest hour and the first and last start are left out.
- The text of drivers, log messages, mappings and mitigation advice, and the parts of `score_job` other than the chain rule: they would only add easy members.
- `compute_summary` and `box_effort_breakdown`: counting per category.
- The waves inside each box: the same call as for the root scope, with another scope.
- A dispatched job's preliminary checks (free space, machine lookup) and the registration of remote machines.
- Transactions are single steps; reading a row and writing it back is not interleaved further.  `AgentDispatch._run_job` and `_request`/`_worker` are modelled as phases of a step system, not as one method, because their steps interleave.
- The dispatcher is modelled with at most one live thread per job; with two, its maps do not hold what is stated here.
- AgentServer: the lines of the remote agent's output are not modelled.
- The debounced warm-up of the simulation cache: a caller that stops after its request.
- The regular-expression fallback of `condition_job_refs` for conditions that do not parse.
- ConditionTokens.Tokenize: digits beyond ASCII are not digits here.
- ConditionText.RenamedTextIsRenamedTokens: a job named "&" or "|", which the parser takes for a name, is left out as the old name.
- ConditionRefs.Holds: how a global variable compares with a literal is an arbitrary function of the two.
- The decoder of the standard library is modelled in its lenient mode as `Tokens.Scan`; it is not part of the repository.
- `migration_signals.py`, `gap_analysis.py` and `scripts/vuln_report.py`: tagging and grouping per attribute.
