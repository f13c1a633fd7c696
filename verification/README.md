# Verification of the LightAgent core

A Dafny model of the stateful cores of the repository, with proofs about whole runs of them.

**LightFlow** (`FlowGraph`, `FlowEngine`, `Flow*`, `LightFlow`). The workflow engine as a build
system with crash recovery. `FlowEngine` gives what `run`, `resume`, `rerun_step`, `cancel`,
registration and a process restart do, as functions on a state of registered steps, in-memory
records, stored files, the cancellation flag, a clock and the log of agent calls. Agents,
callable queries, hooks, approval handlers, `cancel_if`, concurrent cancellation and crashes
right after a checkpoint are arbitrary functions of the tick at which they are consulted, so a
theorem for every environment is one for every sequence of outcomes, exceptions included.
`LightFlow` has the classes with their mutable fields and loops; each method is proved to do what
the specification says. The other modules prove what the specification keeps over every history.
When a result started and ended is a tick of the clock; its query is kept in full.

**Tool calls** (`ToolArguments`, `StreamedCalls`, `ToolLoop`). The hand-written argument parser
against a printer, the reassembly of streamed fragments against a per-index definition, and the
bounded tool loop against the shape of the message history it sends.

**The acquisition cycle** (`Campaign*`). The nine gated stages over arbitrary services and
knowledge stores of arbitrary types: safety of every sequence of stage calls, non-interference
of quarantined content, and the driver with its dictionaries and loops.

**Shared memory and accounting** (`SharedMemory`, `Benchmark`, `Teacher`). Ranked retrieval
against a simple specification, the totals of a benchmark arm against counts and sums over its
outcomes, and call conservation between a teacher's ledgers and that record. Costs are over
`real`.

`dafny verify dfyconfig.toml` checks everything.

## What the proofs found

The code is modelled as it stands; where it does less than its documentation or a reader
expects, a lemma gives the exact condition.

- Dependency closure of successes holds only because of the default query: a step with its own
  query can succeed without its dependencies (`ClosureIsExact`).
- docs/lightflow.md says that a step is `skipped` because the flow was cancelled or a dependency
  failed. After a failure the mark goes to steps that list *anything* seen so far, and not to
  indirect dependents; the marks are right for every failure only under a condition on the order
  (`MarksAreExact`) that no plain chain of three steps meets (`ForksAndChainsAreMarkedWrongly`).
- A re-run can return and store `success` while steps outside its downstream closure have never
  succeeded, as after an interrupted run (`SuccessCoversTheFlow`, `RerunLeavesStepsBehind`).
- The stored status of a successful run is not always `success` (`StoredStatusIsExact`): resuming
  a complete run leaves it "running" (`ResumingACompleteRun`).
- A cancellation is never lifted, and a cancelled run reports success (`CancellationIsForGood`,
  `CancelledRunSkips`).
- Two run ids that sanitise alike overwrite each other's file (`RestartLosesNothing`,
  `CollidingRunIsLost`).
- An empty error text is retried but then counts as success (`SuccessIsExact`).
- The parser does not convert the last value and doubles braces outside strings, so nested
  objects come back damaged (`RoundTripIsExact`, `BracesAreDoubled`).
- A tool called after `finish` in the same answer undoes the finish (`FinishIsExact`).
- Fragments after the first of a chunk are dropped (`ChunksAreReadWhole`), and a call introduced
  out of turn corrupts the list (`ReassemblyIsExact`).
- Outcomes of a repeated task id share one row of the benchmark record (`RowsAreExact`).

## Model

| member | source | states |
|---|---|---|
| FlowGraph.CycleReportIsExact | LightAgent/flow.py:196-213 | The coloured depth-first search of `validate` reports a cycle exactly when the known dependencies contain one, and every step it names lies on a cycle. |
| FlowGraph.WalkIsTopological | LightAgent/flow.py:196-213 | With no report, the search has finished every registered step once, each after all its dependencies: a rank exists. |
| FlowGraph.RefusalIsExact | LightAgent/flow.py:179-217 | A flow with distinct step names is refused exactly when some dependency is not registered or the dependencies are cyclic. |
| FlowGraph.OrderedIsDependencyOrder | LightAgent/flow.py:648-666 | The search of `_ordered_steps`, which keeps no temporary marks, is safe once validation has passed: its result lists every registered step once, each after all its dependencies. |
| FlowGraph.RegistrationOrderIsKept | LightAgent/flow.py:648-666 | If registration order already puts dependencies first, execution order is registration order. |
| FlowGraph.DownstreamIsUpward | LightAgent/flow.py:783-792 | The downstream set of a step contains the step and every registered dependent of a member. |
| FlowGraph.DownstreamIsLeast | LightAgent/flow.py:783-792 | It is contained in every set that does. |
| FlowFreshness.EveryOperationKeepsOk | LightAgent/flow.py:223-319 | Registering, running, cancelling, resuming, re-running and restarting each keep the invariant of all records, in memory and stored: distinct registered step names, every success a reply of its agent to the recorded query, computed after the current results of its dependencies. |
| FlowFreshness.KeptIsOk | LightAgent/flow.py:302-308 | Dropping an upward closed set of steps from a sound record leaves a sound set of successes to start from: the reason a re-run may drop only the downstream closure. |
| FlowHistories.EveryCheckpointIsFresh | LightAgent/flow.py:370-481 | In every checkpoint of every history, in memory or in the store, a success of a default-query step stands beside a success of each dependency that ended before it started; when hooks leave queries alone, the query it answered is built from exactly the outputs recorded now. No result is ever stale. |
| FlowHistories.EveryCheckpointListsEachStep | LightAgent/flow.py:710-753 | However an operation that was not refused ends (return, failure, approval stop, escaped exception, interruption), its record lists every registered step exactly once. |
| FlowHistories.RestartIsExact | LightAgent/flow.py:98-118 | After a restart a run is found as it was if and only if the file of its sanitised id was last written for that very id. |
| FlowHistories.CleanIsSafeChars | LightAgent/flow.py:114-118 | Sanitising leaves an id alone exactly when all its characters are safe. |
| FlowHistories.RestartIsTransparent | LightAgent/flow.py:321-327 | With ids made of safe characters, a restart loses no run and changes none, after any history. |
| FlowHistories.RestartLosesNothing | LightAgent/flow.py:98-118 | After any history, a restart loses and changes none of the recorded runs that have a usable file name if and only if no two recorded ids sanitise to the same one. |
| FlowHistories.CollidingRunIsLost | LightAgent/flow.py:114-118 | Any two different ids that sanitise alike show the loss: run the one, then the other, and after a restart the first is no longer found as it was. |
| FlowMeaning.EverySuccessHasItsMeaning | LightAgent/flow.py:335-508 | When each agent's successful answers are a function of step and query, hooks leave queries alone and queries are default or constant, every success in every checkpoint of every history, in memory or in the store, has the content given by recursion over the dependencies from the record's query, whatever failed, stopped, was resumed, re-run or restarted before. |
| FlowRuns.RetriesAreExact | LightAgent/flow.py:510-584 | A step makes exactly as many agent calls as its result counts; it stops at its first answer without an error; the fallback is asked exactly when all `max_retry` attempts were used and the last ended in a non-empty error. |
| FlowRuns.ReturnsAreAccounted | LightAgent/flow.py:432-508 | When an execution returns, the agent calls it made number the sum of `attempts` over the results it added, and the record holds the returned results with the steps not reached as pending. |
| FlowRuns.StoredStatusIsExact | LightAgent/flow.py:359-508 | Whatever is skipped: the stored status is the returned one if and only if the run did not succeed, or its last new step did. |
| FlowStatuses.SuccessIsStored | LightAgent/flow.py:359-508 | When nobody cancels and no hook blocks, a run that returns success leaves it stored if and only if there was a step to do. |
| FlowStatuses.ResumingACompleteRun | LightAgent/flow.py:249-280 | Resuming a record whose successes cover every registered step calls no agent, leaves `running` as the stored status, and returns success unless the engine stops at that checkpoint. |
| FlowCoverage.SuccessCoversTheFlow | LightAgent/flow.py:301-319 | When nobody cancels and no hook blocks, a returned success, and the record it leaves, have a success of every registered step if and only if the operation leaves none behind: always for a run or a resumption; for a re-run, exactly when every step outside the downstream closure has a success on record. |
| FlowCoverage.RerunLeavesStepsBehind | LightAgent/flow.py:282-319 | The failing case by a history: interrupt a run of two or more steps after its opening checkpoint, then re-run a step that has no dependencies and no dependents; success is returned and stored, and not every registered step has a success. |
| FlowStatuses.CancelledRunSkips | LightAgent/flow.py:367-375 | A run started after a cancellation calls no agent, and if it returns it reports success with exactly the steps it had to do added, each as skipped. |
| FlowStatuses.CancellationIsForGood | LightAgent/flow.py:219-221 | Nothing resets the cancellation flag: until the process restarts, no sequence of operations lifts it and no agent is called again. |
| FlowStatuses.SuccessIsExact | LightAgent/flow.py:526-584 | A step not rescued by its fallback is successful exactly when the error of its last attempt is absent or empty, and is so with an error on record exactly when it used every attempt and the last reported the empty error. |
| FlowStatuses.EmptyErrorIsSuccess | LightAgent/flow.py:540-560 | If every attempt allowed ends in an error and the last in an empty one, the step succeeds with the last answer's content and no fallback is asked: the two tests of the error disagree on the empty string. |
| FlowRuns.ResumeIsConfined | LightAgent/flow.py:249-280 | A resumption calls no agent of a step recorded as successful, keeps each such result unchanged, and touches no other run. |
| FlowRuns.RerunIsConfined | LightAgent/flow.py:282-319 | A re-run calls agents only inside the downstream closure of the step, keeps every success outside it unchanged, and touches no other run. |
| FlowResumption.EveryRecordIsAPrefix | LightAgent/flow.py:249-280 | Without skips, after any history of running, resuming and restarting, with any failures, exceptions, approval stops and interruptions, the successes of every record, in memory or in the store, are a prefix of the run that nothing interrupts, callable queries included. |
| FlowResumption.SuccessIsAsUninterrupted | LightAgent/flow.py:496-508 | When such a history ends in success, its outputs and final content are those of one uninterrupted run. |
| FlowClosure.ClosureIsExact | LightAgent/flow.py:668-683 | Every history, with or without a store, keeps each success beside successes of its dependencies if and only if every step that has dependencies builds its query from their outputs or can never run: the default query is what enforces closure. |
| FlowClosure.UnboundStepBreaksClosure | LightAgent/flow.py:282-319 | The other direction by a history: interrupt a run after its opening checkpoint, then re-run a step with its own query; it succeeds without its dependencies. |
| FlowMarks.MarkedExactly | LightAgent/flow.py:740-753 | Given what was seen before a failure, a step is marked skipped exactly when it lists the failed step or any step seen. |
| FlowMarks.FirstRunFailsSomewhere | LightAgent/flow.py:477-494 | A first run that skips nothing and fails does so at one position of the execution order: what it saw is the steps up to it, all but the last successful, and its marks are those of that position. |
| FlowMarks.RunMarksStretches | LightAgent/flow.py:740-753 | Every position fails in some run, and that run marks a later step exactly when the failing position is at or after the earliest step it lists. |
| FlowMarks.MarksAreExact | LightAgent/flow.py:740-753 | In every first run that skips nothing and fails, the steps marked as skipped are those that depend on the failed one, if and only if the execution order is in stretches: each step from the earliest dependency of a step up to it is covered by the stretch of one of its dependencies, none of which reaches further back. For flows whose steps can all be approved. |
| FlowMarks.MarkingCoversTheIndependent | LightAgent/flow.py:740-753 | So a run marks, because of the failed step, any later step that lists anything before it, whether or not it depends on the failed one. |
| FlowMarks.MarkingMissesTheIndirect | LightAgent/flow.py:740-753 | And a run does not mark a step that depends on the failed one but lists only steps after it, contrary to the status table of the documentation. |
| FlowMarks.ForksAndChainsAreMarkedWrongly | LightAgent/flow.py:740-753 | Three steps are enough for either: every flow of three approvable steps in which an independent step stands between a step and its dependent, or of a plain chain, is valid, runs in the order it was registered, and has a failing first run whose marks are not the dependents of the failed step. |
| LightFlows.JsonLightFlowStore.SaveRun | LightAgent/flow.py:98-100 | Writes the record under the sanitised id only; refuses an id without safe characters and changes nothing. |
| LightFlows.LightFlow.Step | LightAgent/flow.py:131-177 | Registers an admissible step at the end and refuses an empty or known name, a non-positive retry count and an agent that cannot run, changing nothing. |
| LightFlows.LightFlow.Validate | LightAgent/flow.py:179-217 | The two loops and the recursive search report the errors and warnings about which `RefusalIsExact` and `CycleReportIsExact` are proved; strict validation turns warnings into errors. |
| LightFlows.LightFlow.VisitForCycles | LightAgent/flow.py:196-213 | The recursive search over the mutable marks does one visit of the specified walk, and terminates on every graph. |
| LightFlows.LightFlow.OrderedSteps | LightAgent/flow.py:648-666 | Raises the first error of an invalid flow and otherwise returns the execution order. |
| LightFlows.LightFlow.VisitInOrder | LightAgent/flow.py:656-664 | The search without temporary marks adds the same steps as the validated walk, and terminates because the graph is acyclic. |
| LightFlows.LightFlow.DownstreamSteps | LightAgent/flow.py:783-792 | The fixpoint loop ends with exactly the reachability set. |
| LightFlows.LightFlow.RunStep | LightAgent/flow.py:510-584 | The retry loop and the fallback give the result and the calls that `RetriesAreExact` describes. |
| LightFlows.LightFlow.WriteCheckpoint | LightAgent/flow.py:710-738 | Writes results and pending steps to memory first and then to the store; an unusable id raises after the memory is written. |
| LightFlows.LightFlow.RemainingSkippedResults | LightAgent/flow.py:740-753 | The loop collects the steps `MarkedExactly` describes. |
| LightFlows.LightFlow.DecideStep | LightAgent/flow.py:370-422 | Cancellation before query, hook before approval: a step fails, is skipped, waits or goes ahead, in that precedence. |
| LightFlows.LightFlow.Execute | LightAgent/flow.py:335-508 | The execution loop carries the flow from its opening checkpoint to the state and outcome of the specified execution, about which every history theorem is proved. |
| LightFlows.LightFlow.Run | LightAgent/flow.py:223-247 | Executes all steps in order from nothing, or refuses an invalid flow and changes nothing; a cancellation stays in force. |
| LightFlows.LightFlow.Resume | LightAgent/flow.py:249-280 | Starts from the recorded successes and executes the other steps in order, with the recorded query. |
| LightFlows.LightFlow.RerunStep | LightAgent/flow.py:282-319 | Drops the downstream closure and executes it anew; an unknown run or step raises and changes nothing. |
| ToolArguments.ParseToolArguments | LightAgent/core.py:1922-2017 | The character loop over its five variables reads exactly the map that feeding the specified scan gives; None stands for the exception when nothing was found. |
| ToolArguments.PrintedObjectIsRead | LightAgent/core.py:1922-2017 | For any printed object, quoted strings (quotes written with a backslash) and unquoted words, nested objects with keys and strings of their own included, and any spacing, the loop returns every string under its key, every word but the last converted, every brace outside strings doubled, a later key winning. |
| ToolArguments.RoundTripIsExact | LightAgent/core.py:1950-2013 | A printed object with distinct keys is read as meant if and only if none of its words has a brace outside strings and its last value is a string or a word that converts to itself: braces are appended twice and the last pair is not type-converted. |
| ToolArguments.BracesAreDoubled | LightAgent/core.py:1960-2004 | Wherever it stands, a word with a brace outside strings comes back as text with those braces doubled, never as itself. |
| ToolArguments.NestedObjectsAreWords | LightAgent/core.py:1960-2004 | An object with a key and any string in it, commas, quotes and braces included, is such a word. |
| StreamedCalls.Accumulate | LightAgent/core.py:1208-1231 | The in-place accumulation over the chunks yields the slots of the specified reassembly of the first fragments. |
| StreamedCalls.AddDelta | LightAgent/core.py:1212-1231 | One fragment: opens a slot for an unknown index, appends arguments, overwrites name and id only when non-empty. |
| StreamedCalls.ReassemblyIsExact | LightAgent/core.py:1208-1231 | Slot i holds the in-order concatenation of its own argument fragments and its last non-empty name and id, for every i, if and only if new indices come as 0, 1, 2 and so on. |
| StreamedCalls.InterleavingDoesNotMatter | LightAgent/core.py:1208-1231 | Two such streams with the same fragments per index reassemble to the same list, however they interleave. |
| StreamedCalls.ChunksAreReadWhole | LightAgent/core.py:1208-1212 | Nothing is dropped if and only if no chunk carries two fragments. |
| ToolLoop.ToolAgent.CallTools | LightAgent/core.py:1005-1132 | Every call of an answer is recorded and gets one tool message, across the JSON-error, guardrail and success branches. |
| ToolLoop.ToolAgent.RunNonStream | LightAgent/core.py:994-1170 | The bounded loop ends in the state and with the ending of the specified conversation. |
| ToolLoop.RunIsOrderly | LightAgent/core.py:994-1170 | In every request ever sent, each assistant message with calls is followed at once by one reply per call with those ids in order; the recorded calls are those of the assistant messages; at most 1 + max_retry requests are made; a normal return notes exactly one `run_end`. |
| ToolLoop.FinishIsExact | LightAgent/core.py:1146-1149 | An answer with calls ends the run at once if and only if "finish" is the last tool it reached; a tool after it undoes the finish. |
| Campaign.EveryCallSequenceIsSafe | scripts/campaign_22c.py:641-668 | Whatever stages are called in whatever order, any of them failing at any segment, the completed stages are a prefix of the nine, and every claimed, compiled or promoted segment was accepted by the factory, passed the cross-check and is not quarantined. |
| Campaign.CompletedCycleSplits | scripts/campaign_22c.py:1240-1557 | In a completed cycle a segment is quarantined exactly when factory or cross-check refused it, compiled exactly otherwise, and promoted exactly when compiled. |
| Campaign.AttemptsKeepInv | scripts/campaign_22c.py:603-668 | The invariant behind both, kept by any sequence of calls: what is recorded of a segment is what the services answered, nothing refused is held, nothing at all is held before quarantine is over, the completed stages have settled what they are for, and a cycle past stage 1 has a source that could be built. |
| CampaignIsolation.QuarantinedContentDoesNotInterfere | scripts/campaign_22c.py:1240-1557 | For arbitrary stores and services, deleting the segments a cycle quarantines changes nothing of what follows: the same ending, claims, compiled records, promoted list, replay report and contents of both stores. If none remain, the smaller cycle cannot start, and the whole one held nothing either. |
| CampaignIsolation.OnlyTheRestMatters | scripts/campaign_22c.py:1240-1557 | Two cycles that differ only in segments they quarantine end with the same knowledge: non-interference over two runs. |
| CampaignVerdicts.RegisteringIsExact | scripts/campaign_22c.py:819-899 | Stage 1 of a new cycle succeeds if and only if the rights gate opens, the segments make one source (some, within the limits, under safe and different paths) and the factory has an item for each; the segments then have distinct ids. |
| CampaignVerdicts.StartedCyclesHaveDistinctIds | scripts/campaign_22c.py:819-899 | After any calls in any order, a cycle past stage 1 has segments with distinct ids. |
| CampaignVerdicts.QuarantinedAreTheRefused | scripts/campaign_22c.py:1240-1281 | Once quarantine is over, exactly the segments that factory or cross-check refused are quarantined, whatever was called and failed before. |
| CampaignVerdicts.RunPromotesTheGood | scripts/campaign_22c.py:1693-1737 | A cycle that runs through has completed all nine stages, and its promoted list is exactly the good segments, in their order. |
| CampaignDriver.BuildSource | src/cognitive_os/corpus/sources.py:73-104 | Refuses no materials, too many or too large ones, unsafe paths and a path seen before, and accepts all others. |
| CampaignDriver.StageRegisterSource | scripts/campaign_22c.py:819-899 | The loop over the segments and the gates around it do one call of the stage. |
| CampaignDriver.StageExtract | scripts/campaign_22c.py:905-999 | The same for stage 2. |
| CampaignDriver.StageNormalize | scripts/campaign_22c.py:1005-1064 | The same for stage 3; the stores are not written. |
| CampaignDriver.StageCrossCheck | scripts/campaign_22c.py:1187-1227 | The same for stage 4. |
| CampaignDriver.StageQuarantine | scripts/campaign_22c.py:1240-1281 | The same for stage 5: a factory refusal first, then the verdict, with a named reason. |
| CampaignDriver.StageCompile | scripts/campaign_22c.py:1287-1359 | Stage 6 over all segments. |
| CampaignDriver.RetainedCases | scripts/campaign_22c.py:1447-1452 | The replay is over the compiled segments that are expected to be accepted, in order. |
| CampaignDriver.StageEvaluate | scripts/campaign_22c.py:1442-1454 | Stage 7: the report is that of replaying exactly the retained cases. |
| CampaignDriver.StagePromote | scripts/campaign_22c.py:1460-1557 | Stage 8 over all segments. |
| CampaignDriver.RunCycle | scripts/campaign_22c.py:1693-1737 | One pass ends where the specified sequence of nine calls ends, and a pass that ran through has completed all nine. |
| SharedMemory.RetrievalIsTheTopOfTheEligible | LightAgent/shared_memory.py:86-113 | Sorting everything, cutting to the limit and then dropping zero scores is the simple specification: filter the records of positive score, sort by score and then newest first, take the first `limit`. |
| SharedMemory.NothingOmittedOutranks | LightAgent/shared_memory.py:86-113 | The result is in descending rank and holds as many eligible records as the limit allows; one is left out only when the list is full of records that outrank it. |
| SharedMemory.ReturnedRecordsMatch | LightAgent/shared_memory.py:167-196 | Every record returned is a stored one that passes the user and provenance filter and, unless the query is empty, shares a token with it. |
| SharedMemory.EmptyQueryReturnsTheNewest | LightAgent/shared_memory.py:98-113 | An empty query returns the newest matching records, newest first. |
| SharedMemory.StoreIsSeenFirst | LightAgent/shared_memory.py:67-84 | What was stored last comes first for an empty query that matches it. |
| SharedMemory.StoreIsInvisibleToOthers | LightAgent/shared_memory.py:67-113 | What is stored for one user changes no retrieval of another, ranking and cut included. |
| SharedMemory.ClearForgetsOnlyTheUser | LightAgent/shared_memory.py:131-140 | Clearing a user leaves nothing of theirs to retrieve and changes no candidate of another user. |
| SharedMemory.StoreIsFoundByItsScope | LightAgent/shared_memory.py:146-185 | A stored record is found by its user, source, scope and agent name, and by no other, unless the caller's own tags override them. |
| SharedMemory.SharedMemoryPool.Retrieve | LightAgent/shared_memory.py:86-113 | Returns the ranked records about which the lemmas are proved, and nothing for a non-positive limit. |
| SharedMemory.SharedMemoryPool.Clear | LightAgent/shared_memory.py:131-140 | Removes all records or those of one user, and counts exactly what it removed. |
| Benchmark.WalkAnswerCitations | scripts/benchmark_22d.py:561-592 | All citations resolve exactly when there is one and each names bytes of a loaded source, in range, with the hash it gives; a hop tells a missing source from a bad range. |
| Benchmark.ArmAccounting.Settle | scripts/benchmark_22d.py:656-669 | The cost computed from one summed outcome is the accounted cost of the whole list. |
| Benchmark.RunArm | scripts/benchmark_22d.py:604-670 | A completed run's record holds the counts and sums over all outcomes, taken as a list, their rows by task and their cost; any other run ends with the error of the first task that fails and the ledger as that task left it, or refuses before the first task. |
| Benchmark.RecordIsConsistent | scripts/benchmark_22d.py:595-647 | Grounded, ungrounded, factual abstentions and non-factual outputs split the tasks; verified, undecidable and abstained tasks are different ones; every abstention is escalated and no task grounded in a well-formed answer is. |
| Benchmark.RowsAreExact | scripts/benchmark_22d.py:648-655 | The record has a row for every task, as many rows as tasks if and only if no task id repeats, and then the row of each task tells of its own outcome. |
| Benchmark.CostIsAdditive | scripts/benchmark_22d.py:395-404 | However outcomes are divided into parts, the parts cost together what the whole costs. |
| Benchmark.CompletedRunAnswersEveryTask | scripts/benchmark_22d.py:618-632 | A completed run has one outcome per task in task order, and an arm not permitted to call out finishes with no external call. |
| Benchmark.BoundaryIsExact | scripts/benchmark_22d.py:618-632 | Where nothing else raises, a run of any known arm, with any answerer and ledger, completes with the same answers if and only if the arm may call out or none of them took an external call; otherwise the provider is refused. |
| Teacher.ExternalTeacher.AnswerWithAttempts | scripts/arms_22d.py:592-648 | The retry loop leaves the three ledgers and the outcome as specified. |
| Teacher.EveryAttemptIsBooked | scripts/arms_22d.py:592-648 | One task: its outcome counts exactly the calls the ledgers gained, between one and three; it left one receipt or one exhaustion; an exhausted task cost three failures, is escalated and is no abstention; an outcome without the form asked for is noted as malformed or exhausted. |
| Teacher.AbandonedForAReason | scripts/arms_22d.py:612-634 | An arm is abandoned only after a quota failure, which is its last, or an error that is no provider failure; no receipt and no exhaustion is left for the task. |
| Teacher.CallsAreConserved | scripts/arms_22d.py:592-703 | A completed teacher arm across both accounting layers: accounted external calls equal receipts plus failures; receipts plus exhausted tasks equal the tasks; failures are at least three times the exhausted tasks; no task made more than three calls; the outcomes without the form asked for are the malformed and the exhausted ones; no exhausted task is counted as an abstention. |

## Left out

- LightFlows.LightFlow.CallAgent: threads and real time; a timeout is a late reply, and the message does not print the seconds.
- LightFlows.LightFlow.DecideStep: the hook list is one folded decision; hooks that edit the context and after-hooks are not modelled.
- FlowHistories.CleanIsSafeChars: "safe" is ASCII letters, digits, `-` and `_`; Python's `isalnum` also lets other scripts through.
- LightFlows.JsonLightFlowStore.SaveRun: disk and JSON errors, and a store shared by several flows.
- LightFlows.LightFlow.Step: aliasing of the caller's `depends_on` list.
- LightFlows.LightFlow.Run: the run id is a parameter; user ids, trace ids, result formatting, `list_runs` and trace export are not modelled.
- Agents, hooks or handlers that change the flow itself while it runs, other than by cancelling it.
- LightFlows.LightFlow.WriteCheckpoint: the 240-character summary of a query is its full text, and wall-clock times are ticks of one increasing clock.
- ToolArguments.ParseToolArguments: parsing methods 1 and 2, before and after this loop; which words are numbers is a parameter.
- StreamedCalls.Accumulate: the `title` field of a slot and the text chunks between fragments.
- Termination of the streaming loop as a whole, which its retry bound does not limit.
- ToolLoop.RunIsOrderly: hooks that replace the request; guardrails are oracles, their patterns are not modelled.
- CampaignDriver.StageRegisterSource: the services of a campaign (corpus factory, semantic gate, memory service, domain kernels) are functions of segment and store; the factory's status is taken per segment although it ingests them together.
- CampaignVerdicts.StartedCyclesHaveDistinctIds: the manifest's own row is kept apart; in scripts/campaign_22c.py:893 a segment named `_source_manifest` has its row overwritten by it, and stage 2 then ends the cycle with a missing key.
- CampaignDriver.StageEvaluate: the report of a replay is any function of the retained cases; the inherited cases and the leakage check are inside it.
- CampaignDriver.RunCycle: the event types that stage 9 reads back, and the tool-event store.
- SharedMemory.StoreIsFoundByItsScope: tag values are strings; time stamps, generated ids and the lock are not modelled.
- SharedMemory.SharedMemoryPool.Retrieve: the tokenizer is any function from text to a set of words; the library sort is a function.
- Benchmark.RunArm: percentages and rounding; awaiting; verifiers are an oracle; what an answerer raises is one error, whatever it is.
- Teacher.ExternalTeacher.AnswerWithAttempts: the request and receipt contents beyond the task id and the pauses between attempts; reading an answer is a parameter.
- Tree-of-thought prompting, LightSwarm, skills, tool loading, MCP, guardrail patterns, error classification, and the baseline, authority, artifact and approval scripts: dependent on libraries and services that are not part of this model, or easy.
