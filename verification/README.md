# ChaosAgent: a verified model

ChaosAgent runs an AI agent against a synthetic company, injects faults into its tool calls, records
everything as events, judges the run from those events, and aggregates judged runs into campaign
statistics. This project models the parts of it on which trust rests, in Dafny, and proves what they
promise. `dafny verify dfyconfig.toml` checks all of it.

The model has five parts.

1. **The durable execution checkpoint.** `Checkpoints` holds the stored document, its two writers and the
   turn-by-turn fold of a trajectory; `CheckpointValidator` the reload check as the loops it is;
   `CheckpointSoundness` and `Attempts` relate the two. `Workers` and `Schedules` put any number of workers
   with stale snapshots over one stored checkpoint (compare-and-swap transactions, crashes, approval waits,
   the the three-transaction post-commit path, recovery inside a load). `ExecutionLoop` is the loop one worker
   runs. `CallOrdinals`, `CheckpointEvidence` and `EvidenceGrowth` tie the trajectory to call ordinals and
   to the event log; `LoggedRuns` puts that log beside the workers.
2. **Fault injection.** `FaultMatcher` (seeded matching, activation identities and their authentication),
   `FaultApplication` (the engine that applies matched faults), `FaultHistory` (the authenticator of a
   committed log), `FaultChains` (what acceptance means), `FaultGrowth` and `FaultRuns` (what a request
   appends, and whole runs).
3. **Evidence and verdict.** `RunEvents` (the log), `EventStreams` (the stream validator),
   `EvaluationInputs` (the cut at a boundary and the replay), `Authority` (every effect traced to its
   request, decision and approval), `Evaluation` and `Verdicts` (gates, verdict, what passing means),
   `EvaluationResults` (the result contract).
4. **Campaign statistics.** `PassAtK`, `Wilson`, `Reliability`, `Pairs`, `Cohorts`, `Statistics`.
5. **Replay and codecs.** `LiveStream` (polling server and reconnecting client), `Deliveries` (the two joined),
   `EventLists` (the merged list), `Cursors`, `Checksums`, `Pointers`, `JsonTrees`, `Redaction`. `Texts`,
   `Decimals` and `Prelude` hold what they share.

Conventions. SHA-256 over canonical JSON is a function given to the model; where distinct inputs must have
distinct digests, that is a hypothesis (`CollisionFree`), never an axiom. JSON that is only compared stands
as its canonical text. An exception or an error list is `None` or `false`: which of several errors is
reported is not distinguished. The tool gateway and the database are an environment: transactions are
atomic, the gateway echoes the tool and version it was asked for, and an approval wait carries an approval.

## What turned out differently from what is promised

- `docs/faults/FAULT_APPLICATION_V0.md:33` lets several faults match in one phase and applies the first one
  that is no delay; the others stay matched only. The history authenticator refuses such a log as an orphan
  match (`packages/faults/src/chaosagent_faults/history.py:211-212`), so the run's next tool call fails.
  `FaultRuns.RequestAccepted` states the exact condition: the grown log is accepted if and only if in every phase at most one matched fault was not a
  delay (at most one fault at all after a commit). Under the plan of `FaultRuns.RivalsAreOrphaned` it never is;
  `FaultRuns.RivalsHappen` is such a run, down to its events.
- An `evaluating` run may be requeued (`lifecycle.py` in `packages/persistence`), but its final checkpoint is
  then refused on reload: `CheckpointSoundness.AcceptedInStatus` says a final checkpoint is accepted in no
  status but `evaluating`. The schedules of `Workers` leave that edge out.
- The reload check looks at a pending call only once it is the head of the pending list:
  `CheckpointSoundness.TailIsCheckedLater` gives an accepted checkpoint whose second pending call is anything, and
  `CheckpointSoundness.ResolvedIsAccepted` says exactly when resolving the head of one leaves an accepted one.
- Two different updates of one ticket always make an evaluation invalid; `Authority.TicketsAgreeExactly`
  gives the exact condition under which a ledger's ticket updates agree with the state they replay to.
- The client of the live stream keeps an exact prefix of the log as long as a connection loses only what it
  had not delivered when it was cut. One frame lost inside a connection moves the cursor past it for good
  (`LiveStream.LostFrameBreaksPrefix`). `LiveStream.PrefixExactly` is the condition in both directions, and
  `Deliveries.ClientHasPrefix` holds against the server's own loop.
- `checksum_index` prints paths that `parse_checksum_index` refuses, such as one with a space;
  `Checksums.ReadsBackExactly` says which ones, and
  `Checksums.SomeIndexIsNotReadBack` is an index that is not read back.
- The two JSON Pointer decoders agree on well-formed tokens only; on `~2` one refuses and the other does not
  (`Pointers.DecodersDifferOnMalformed`).

## Model

| member | source | states |
|---|---|---|
| CheckpointValidator.ValidateSemantics | packages/agent-runtime/src/chaosagent_agent_runtime/runtime.py:849-1001 | the reload check, as its nested loops over assistant turns and tool segments, accepts exactly the checkpoints whose trajectory folds turn by turn to their pending calls, counters, statuses and final answer |
| CheckpointValidator.WalkCalls | packages/agent-runtime/src/chaosagent_agent_runtime/runtime.py:888-952 | walking one assistant turn's calls against the tool turns that follow ends bad, done or stuck exactly as folding those turns one at a time does |
| CheckpointSoundness.OutputStepSound | packages/agent-runtime/src/chaosagent_agent_runtime/runtime.py:1566-1684 | recording an agent step on an accepted checkpoint leaves a checkpoint the reload check accepts, in the run status the same transaction leaves |
| CheckpointSoundness.ToolStepSound | packages/agent-runtime/src/chaosagent_agent_runtime/runtime.py:1973-2020 | recording a tool attempt (a result, a repeated approval wait, a recovered attempt) leaves an accepted checkpoint |
| CheckpointSoundness.AcceptedIsDetermined | packages/agent-runtime/src/chaosagent_agent_runtime/runtime.py:849-1001 | accepted checkpoints with one trajectory in one run status differ at most in version: every derived field is a function of the trajectory and the status |
| CheckpointSoundness.AcceptedInStatus | packages/agent-runtime/src/chaosagent_agent_runtime/runtime.py:991-1001 | acceptance carries over to another run status if and only if both or neither are `evaluating` |
| CheckpointSoundness.TailIsCheckedLater | packages/agent-runtime/src/chaosagent_agent_runtime/runtime.py:893-950 | an accepted checkpoint may hold any second pending call whatever |
| CheckpointSoundness.ResolvedIsAccepted | packages/agent-runtime/src/chaosagent_agent_runtime/runtime.py:893-950 | resolving the head of any accepted checkpoint leaves an accepted one if and only if no call follows or the one that follows has the next index, its own identity, not seen before, and is authorized |
| Attempts.AttemptsNeverRepeat | packages/agent-runtime/src/chaosagent_agent_runtime/runtime.py:905-928 | no physical attempt identity appears twice in an accepted trajectory |
| Attempts.HeadAttemptUnused | packages/agent-runtime/src/chaosagent_agent_runtime/runtime.py:1767-1790 | the attempt the pending head is about to make is one the trajectory has not recorded |
| Workers.StepKeeps | packages/agent-runtime/src/chaosagent_agent_runtime/runtime.py:607-829 | every transaction, adapter call, crash, recovery or lifecycle change of any worker keeps the world's invariant: linear accepted history, workers whose snapshots are stored versions, committed attempts dispatched from stored versions |
| Workers.RunKeeps | packages/agent-runtime/src/chaosagent_agent_runtime/runtime.py:355-604 | the invariant holds after every schedule of actions of any number of workers |
| Schedules.OneLinearHistory | packages/agent-runtime/src/chaosagent_agent_runtime/runtime.py:1576-1584 | for any interleaving, version n+1 is version n with exactly one turn appended, no turn is lost or rewritten, and no attempt identity appears twice |
| Schedules.EveryReloadIsAccepted | packages/agent-runtime/src/chaosagent_agent_runtime/runtime.py:607-829 | every reload of every reachable state, recovering a committed attempt or not, passes the reload check |
| Schedules.BudgetsAreKept | packages/agent-runtime/src/chaosagent_agent_runtime/runtime.py:2240-2270 | in every stored version the committed turns are within both budgets, and known cost exceeds its budget by at most the bound on one call |
| Schedules.FinalAnswerIsLast | packages/agent-runtime/src/chaosagent_agent_runtime/runtime.py:1645-1662 | after a final answer, within budget or over it, nothing is stored again by any worker, and an adapter call can only come from a worker whose snapshot is stale |
| Schedules.HistoryOnlyGrows | packages/agent-runtime/src/chaosagent_agent_runtime/runtime.py:1880-1949 | the stored versions of a longer schedule continue those of a shorter one |
| ExecutionLoop.ExecuteRun | packages/agent-runtime/src/chaosagent_agent_runtime/runtime.py:355-604 | the loop ends for every agent and gateway, commits at most (max_steps + 1 - next_step) + (max_tool_calls - tool_attempts) turns, calls the agent at most once more than it commits steps, keeps the record valid, and after a final intent stores nothing and never calls the agent |
| ExecutionLoop.RunRecord.PersistAgentOutput | packages/agent-runtime/src/chaosagent_agent_runtime/runtime.py:1566-1684 | one compare-and-swap transaction: refused unless the caller's base is the stored version, otherwise the whole new state |
| ExecutionLoop.RunRecord.RecordAttempt | packages/agent-runtime/src/chaosagent_agent_runtime/runtime.py:1730-1861 | the transaction that records a tool attempt, and the whole new state |
| ExecutionLoop.InvokeAgent | packages/agent-runtime/src/chaosagent_agent_runtime/runtime.py:430-604 | an agent round calls the agent at most once, and never after a final intent; it ends with an outcome or commits exactly one assistant turn |
| ExecutionLoop.RecordOutput | packages/agent-runtime/src/chaosagent_agent_runtime/runtime.py:542-604 | a valid output ends the run or adds exactly one assistant turn, with the outcome the stored state calls for |
| ExecutionLoop.DispatchPending | packages/agent-runtime/src/chaosagent_agent_runtime/runtime.py:1730-1861 | a dispatch ends with an outcome or commits exactly one tool turn |
| CallOrdinals.LogicalCallOrdinal | packages/agent-runtime/src/chaosagent_agent_runtime/runtime.py:2023-2035 | the dispatch-time loop returns the place of the call among the distinct calls attempted, or one past them |
| CallOrdinals.EvaluatorOrdinals | packages/evaluators/src/chaosagent_evaluators/service.py:148-162 | the evaluator's table gives each call the place of its last occurrence among all calls requested |
| CallOrdinals.OrdinalsAgree | packages/evaluators/src/chaosagent_evaluators/service.py:148-186 | for every attempt of a finished trajectory the ordinal computed when it was dispatched equals the evaluator's |
| CheckpointEvidence.ValidateEvidence | packages/agent-runtime/src/chaosagent_agent_runtime/runtime.py:1029-1140 | the evidence walk accepts exactly when each turn matches its events in order and the events used are all the authoritative ones |
| CheckpointEvidence.EvidenceIsTheTrajectory | packages/agent-runtime/src/chaosagent_agent_runtime/runtime.py:1029-1140 | if accepted, the authoritative events in log order are exactly the trajectory's events in turn order: none omitted, reused or fabricated |
| EvidenceGrowth.ContextsAgree | packages/agent-runtime/src/chaosagent_agent_runtime/runtime.py:1366-1440 | the agent context built from the stored accumulators equals the one folded from the trajectory prefix |
| EvidenceGrowth.HistoryIsEvidenced | packages/agent-runtime/src/chaosagent_agent_runtime/runtime.py:1029-1390 | every version of every chain of transactions of one writer passes the evidence check on the log its own transaction left |
| LoggedRuns.LoggedStepKeeps | packages/agent-runtime/src/chaosagent_agent_runtime/runtime.py:1566-2020 | every action of every worker, with the events it may append, keeps the world's invariant and the evidence of the stored checkpoint |
| LoggedRuns.EveryReloadPassesBothChecks | packages/agent-runtime/src/chaosagent_agent_runtime/runtime.py:607-829 | for any interleaving of workers, crashes, waits, recoveries and lifecycle changes, and whatever the log has gained since the checkpoint was stored, every reload passes the reload check and the evidence check, and past the checkpoint's boundary the log holds no agent step and no request or result but those of the attempt in flight |
| FaultMatcher.DecisionIsFirstFailure | packages/faults/src/chaosagent_faults/matcher.py:260-296 | a rule matches exactly when every guard holds, the last being that its 256-bit sample is below p * 2^256 / 10^6 rounded up; otherwise the reason is the first guard that failed |
| FaultMatcher.BucketIsThreshold | packages/faults/src/chaosagent_faults/matcher.py:612-614 | comparing parts-per-million buckets is comparing samples with the exact threshold |
| FaultMatcher.AuthenticatesActivation | packages/faults/src/chaosagent_faults/application.py:138-172 | the loop accepts exactly when one ordinal, and only one, explains the activation |
| FaultMatcher.IssuedIsAuthentic | packages/faults/src/chaosagent_faults/application.py:138-172 | every activation the matcher issues is authenticated, with and without a known ordinal |
| FaultMatcher.AuthenticDetermines | packages/faults/src/chaosagent_faults/matcher.py:221-257 | an authentic activation determines its fault, attempt and ordinal, and was selected by its sample |
| FaultApplication.SelectionIsAuthentic | packages/faults/src/chaosagent_faults/application.py:174-219 | a selection holds exactly the matching rules, each once, each bound to an authentic activation |
| FaultApplication.FaultEngine.Select | packages/faults/src/chaosagent_faults/application.py:174-219 | selections are remembered as issued, and only issued ones are ever applied |
| FaultApplication.FaultEngine.ApplyBefore | packages/faults/src/chaosagent_faults/application.py:221-236 | applies every delay and the first other fault, whose failure code it returns; refuses a selection not issued, bad parameters or a foreign kind |
| FaultApplication.FaultEngine.ApplyAfter | packages/faults/src/chaosagent_faults/application.py:238-299 | applies every delay and lets the first other fault transform the observation |
| FaultApplication.FaultEngine.ApplyPostCommit | packages/faults/src/chaosagent_faults/application.py:301-311 | only the first fault replaces the acknowledgement |
| FaultApplication.OneRivalTakesEffect | packages/faults/src/chaosagent_faults/application.py:225-236 | of the faults that are no delay exactly the first takes effect |
| FaultApplication.AllEffective | packages/faults/src/chaosagent_faults/application.py:221-299 | all matched faults take effect if and only if at most one is not a delay |
| FaultApplication.LeastRivalWins | packages/faults/src/chaosagent_faults/application.py:238-299 | a matched fault that is no delay and is not applied has lost to one of smaller identity that is |
| FaultApplication.WhatIsDelivered | packages/faults/src/chaosagent_faults/application.py:255-297 | an injection keeps the whole response, a duplicate delivers it every time, a timeout nothing, a malformed response nothing of it |
| FaultApplication.ReplaceField | packages/faults/src/chaosagent_faults/application.py:456-469 | a stale field holds the given value, and every path neither above nor below it is unchanged |
| FaultHistory.Authenticate | packages/faults/src/chaosagent_faults/history.py:40-222 | the successive loops accept exactly the coherent logs and return the counts and observations of their applications |
| FaultChains.ChainOfActivation | packages/faults/src/chaosagent_faults/history.py:81-205 | in an accepted log every activation has exactly one match, application, result and observation, strictly ordered after its request |
| FaultChains.OneToOne | packages/faults/src/chaosagent_faults/history.py:205-222 | matched, applied and observed events correspond one to one by activation |
| FaultChains.CountsAreApplications | packages/faults/src/chaosagent_faults/history.py:205-212 | each returned count is the number of distinct activations applied, is within its cap, and equals the number of observations returned |
| FaultChains.InertIgnored | packages/faults/src/chaosagent_faults/history.py:52-222 | events of no fault chain change neither the verdict nor the counts |
| FaultChains.InFlightIgnored | packages/faults/src/chaosagent_faults/history.py:57-72 | ignoring an in-flight request gives exactly what the log before it gave |
| FaultGrowth.CountsWhileWriting | packages/tool-gateway/src/chaosagent_tool_gateway/gateway.py:1585-1612 | however much of a request's chains is written, all its phases are matched against the counts of the log before it |
| FaultGrowth.GrownLogAccepted | packages/tool-gateway/src/chaosagent_tool_gateway/gateway.py:2229-2308 | the log grown by a request's chains is accepted again if and only if every matched fault was applied, and caps hold either way |
| FaultRuns.StreamIsFresh | packages/tool-gateway/src/chaosagent_tool_gateway/gateway.py:1593-1600 | in a validated stream nothing before a request refers to it or shares its attempt |
| FaultRuns.RequestAccepted | packages/tool-gateway/src/chaosagent_tool_gateway/gateway.py:833-1110 | after any request caps hold, and the log is accepted again if and only if no phase had two matched faults that are no delay (two at all after a commit) |
| FaultRuns.RivalsAreOrphaned | packages/faults/src/chaosagent_faults/history.py:211-212 | a plan and a call whose log is refused |
| FaultRuns.RivalsHappen | packages/faults/src/chaosagent_faults/history.py:211-212 | a run under such a plan exists: from the empty log, a request with two matches, one application, its result and its observation leave a log that is refused |
| FaultRuns.CapsHoldForever | packages/faults/src/chaosagent_faults/history.py:205-212 | over any run of authenticate, select, apply and append, no fault is applied more often than its cap |
| FaultRuns.CleanRunsAreAccepted | packages/faults/src/chaosagent_faults/history.py:40-222 | a run without rivals is accepted at every point |
| EventStreams.ValidateStream | packages/evidence/src/chaosagent_evidence/contracts.py:218-295 | the validator's loop accepts exactly the ordered, linked and grounded streams |
| EventStreams.PrefixIsValid | packages/evidence/src/chaosagent_evidence/contracts.py:232-295 | every non-empty prefix of a complete valid stream is a complete valid stream |
| EventStreams.ReferencesDescend | packages/evidence/src/chaosagent_evidence/contracts.py:272-288 | causation and related references strictly descend, so they form no cycle |
| EvaluationInputs.ReplayState | packages/evaluators/src/chaosagent_evaluators/engine.py:432-465 | appending refunds and overwriting indexed ticket rows replays the effects in order of evidence |
| EvaluationInputs.LastUpdateWins | packages/evaluators/src/chaosagent_evaluators/engine.py:432-465 | a ticket ends with one of its updates if it had any, and as it began if not |
| Authority.ValidateAuthority | packages/evaluators/src/chaosagent_evaluators/engine.py:484-828 | the loop finds no error exactly when ledger, evidence and state agree and every effect is granted, and then tabulates the grants |
| Authority.TraceFacts | packages/evaluators/src/chaosagent_evaluators/engine.py:567-679 | a traced effect has one state event, one request it relates and one decision on that request, in order |
| Authority.ApprovedFacts | packages/evaluators/src/chaosagent_evaluators/engine.py:694-812 | an effect granted by approval has, in order, its decision, an approval request for exactly its action, an approved resolution and its state event |
| Authority.TicketsAgreeExactly | packages/evaluators/src/chaosagent_evaluators/engine.py:551-563 | ticket updates agree with the replayed state if and only if each names an existing ticket as its own and no two updates of one ticket differ |
| Authority.DifferingUpdatesAreInvalid | packages/evaluators/src/chaosagent_evaluators/engine.py:551-563 | two different updates of one ticket are never accepted |
| Authority.NewRefundsAreTraced | packages/evaluators/src/chaosagent_evaluators/engine.py:814-819 | every new refund of an accepted final state has a traced effect |
| Authority.LedgerIsTheLog | packages/evaluators/src/chaosagent_evaluators/engine.py:820-828 | kind by kind, an accepted ledger holds exactly the effects the log records |
| Evaluation.BoundaryIndependence | packages/evaluators/src/chaosagent_evaluators/engine.py:261-353 | later events, later-evidenced effects, later resolutions and any later final state leave the whole result unchanged, digest included |
| EvaluationResults.CheckResult | packages/evaluators/src/chaosagent_evaluators/contracts.py:149-195 | the contract's loops accept exactly the results without repeated gates or references, without references past the boundary, and with agreeing classification |
| EvaluationResults.EngineResultsAreAccepted | packages/evaluators/src/chaosagent_evaluators/engine.py:378-408 | every result the engine assembles, of any input, passes the result contract |
| Verdicts.PassedIsLawful | packages/evaluators/src/chaosagent_evaluators/engine.py:957-978 | if an evaluation with an authorization gate passes, every effect of the gate's kinds follows a request and an allowing decision or an approved approval for exactly that action |
| Verdicts.PassedCountIsLogged | packages/evaluators/src/chaosagent_evaluators/engine.py:945-956 | if an effect-count gate passes, the number of effects the log records is within its limits |
| Verdicts.PassedClaimIsSupported | packages/evaluators/src/chaosagent_evaluators/engine.py:979-997 | if a claim gate passes, the answer is the claim and an effect with the required fields is traced |
| Verdicts.PassedFaultsHappened | packages/evaluators/src/chaosagent_evaluators/engine.py:998-1004 | if a fault gate passes, each required fault has a complete ordered chain within the boundary |
| PassAtK.NumeratorCountsGroups | packages/evaluators/src/chaosagent_evaluators/campaigns.py:738-758 | C(n,k) - C(n-c,k) is the number of k-element groups of the valid trials that hold a pass |
| PassAtK.EstimateIsProbability | packages/evaluators/src/chaosagent_evaluators/campaigns.py:748-757 | the estimate is in [0,1], is 1 exactly when fewer than k trials failed, and is c/n at k = 1 |
| PassAtK.MonotoneInPasses | packages/evaluators/src/chaosagent_evaluators/campaigns.py:748-757 | more passes never lower the estimate |
| PassAtK.MonotoneInK | packages/evaluators/src/chaosagent_evaluators/campaigns.py:748-757 | a larger k never lowers the estimate |
| Wilson.IntervalEncloses | packages/evaluators/src/chaosagent_evaluators/campaigns.py:712-729 | in exact arithmetic 0 <= lower <= successes/n <= upper <= 1, and the clamps to [0,1] never change the interval |
| Wilson.IntervalMirrors | packages/evaluators/src/chaosagent_evaluators/campaigns.py:712-729 | exchanging successes and failures mirrors the interval |
| Wilson.QuantisedEncloses | packages/evaluators/src/chaosagent_evaluators/campaigns.py:1061-1068 | half-even rounding to twelve places keeps the order and prints 0 and 1 exactly |
| Wilson.HalfEvenNear | packages/evaluators/src/chaosagent_evaluators/campaigns.py:1067-1068 | the rounded value is within one half of a unit, and whole numbers stay |
| Reliability.ReliabilityOf | packages/evaluators/src/chaosagent_evaluators/campaigns.py:732-803 | the loops over trials and groups compute the row of pass@k and group counts, and add exactly its warnings |
| Reliability.GroupsAreConserved | packages/evaluators/src/chaosagent_evaluators/campaigns.py:759-803 | k * complete + discarded = planned, complete = valid + invalid + missing, successful <= valid |
| Reliability.OneIsThePassRate | packages/evaluators/src/chaosagent_evaluators/campaigns.py:732-803 | at k = 1 the predetermined groups and pass@k both report the pass rate of the valid trials |
| Reliability.PassAtIsEstimate | packages/evaluators/src/chaosagent_evaluators/campaigns.py:748-757 | the printed pass@k is the rounded estimate and lies in [0,1] |
| Reliability.RatesEnclose | packages/evaluators/src/chaosagent_evaluators/campaigns.py:698-709 | a printed pass rate has 0 <= lower <= estimate <= upper <= 1 |
| Pairs.PairRows | packages/evaluators/src/chaosagent_evaluators/campaigns.py:826-893 | the loop over common places yields the sets of improved, regressed, valid, invalid and observed pairs |
| Pairs.PairsAreConserved | packages/evaluators/src/chaosagent_evaluators/campaigns.py:826-893 | common = improved + regressed + unchanged + invalid, and unchanged pairs are those classified alike |
| Pairs.DeltaIsPassDifference | packages/evaluators/src/chaosagent_evaluators/campaigns.py:843-858 | the delta numerator is faulted passes minus baseline passes over the valid pairs |
| Pairs.SwapNegates | packages/evaluators/src/chaosagent_evaluators/campaigns.py:826-904 | swapping the arms exchanges improvement and regression and negates the delta, its printed estimate included |
| Pairs.PrintedRatiosAreOdd | packages/evaluators/src/chaosagent_evaluators/campaigns.py:896-904 | a ratio rounded half to even prints as the opposite of the opposite ratio |
| Cohorts.BuildCohort | packages/evaluators/src/chaosagent_evaluators/campaigns.py:437-507 | the loop admits exactly the compatible, pairwise distinct trials, in order of planned place |
| Cohorts.ArrivalOrderDoesNotMatter | packages/evaluators/src/chaosagent_evaluators/campaigns.py:437-507 | permuting the trials changes neither admission nor the cohort |
| Statistics.BuildDocument | packages/evaluators/src/chaosagent_evaluators/campaigns.py:595-671 | the generator builds the one document its membership and ks determine |
| Statistics.ValidateDocument | packages/evaluators/src/chaosagent_evaluators/campaigns.py:1140-1254 | the validator accepts exactly well-formed memberships with the document they determine |
| Statistics.GeneratedDocumentsAreValid | packages/evaluators/src/chaosagent_evaluators/campaigns.py:1140-1254 | every generated statistics document of an admitted cohort passes the validator |
| Statistics.AcceptedCountsAreConserved | packages/evaluators/src/chaosagent_evaluators/campaigns.py:674-684 | in every document the validator accepts, total runs = valid + invalid, valid = passed + failed, and there are no more runs than planned places |
| Statistics.AcceptedRowsAreConserved | packages/evaluators/src/chaosagent_evaluators/campaigns.py:1179-1195 | in every row of an accepted document pass@k is taken over the counted valid runs and every planned place is in a valid, invalid or missing group or discarded |
| Statistics.BuildComparison | packages/evaluators/src/chaosagent_evaluators/campaigns.py:521-574 | two arms are compared exactly when comparable, and the comparison is the one their documents determine |
| Statistics.ValidateComparison | packages/evaluators/src/chaosagent_evaluators/campaigns.py:1257-1314 | the comparison validator accepts exactly comparable valid summaries with the pairs, warnings and identity they determine |
| Statistics.GeneratedComparisonsAreValid | packages/evaluators/src/chaosagent_evaluators/campaigns.py:521-574 | every generated comparison passes its validator, whatever order the trials of either arm arrived in |
| LiveStream.Frames | services/control-plane/src/chaosagent_control_plane/sse.py:55-91 | the loop sends, page by page, what `Serve` says: to the client's departure within a page, to a record that cannot be framed, or to the run's end |
| LiveStream.SentIsPrefix | services/control-plane/src/chaosagent_control_plane/sse.py:55-91 | what is sent is always a prefix of the log after the cursor, and the stream is complete only after the run's end and all of it |
| LiveStream.LastPage | services/control-plane/src/chaosagent_control_plane/sse.py:61-89 | after a page that is not full, everything that poll found after the cursor has been sent |
| LiveStream.SendsEverything | services/control-plane/src/chaosagent_control_plane/sse.py:61-89 | from any poll on, each poll sends a whole page until everything that poll found has been sent |
| LiveStream.ServerResumes | services/control-plane/src/chaosagent_control_plane/sse.py:61-70 | at a cursor the server sends the log from the event after the cursor's on |
| LiveStream.ReplaySafeRunStream.Receive | apps/web/src/sse.ts:87-131 | the whole new client state for every message, malformed and contradictory ones included |
| LiveStream.HandedOnce | apps/web/src/sse.ts:87-131 | whatever is lost, repeated or reordered, only events of the log not yet known are handed over, each at most once |
| LiveStream.PrefixExactly | apps/web/src/sse.ts:81-149 | for a client started on any initial replay, replay and handed events are a prefix of the log if and only if no frame arrived past a gap |
| LiveStream.ReconnectingKeepsPrefix | apps/web/src/sse.ts:81-149 | over any number of reconnections, each delivering in order from the client's cursor, the prefix holds |
| LiveStream.LostFrameBreaksPrefix | apps/web/src/sse.ts:126-130 | one frame lost inside a connection is never sent again |
| Deliveries.DeliveredInSequence | services/control-plane/src/chaosagent_control_plane/sse.py:55-91 | what arrives of what the server's loop sent from the client's cursor, cut anywhere and repeated at will, is in sequence |
| Deliveries.ClientHasPrefix | apps/web/src/sse.ts:81-149 | against the server's own loop, for any log growth, page sizes, cuts, repeats and reconnections, initial replay and handed events are a duplicate-free in-order prefix of the log |
| Deliveries.ClientHasAll | apps/web/src/sse.ts:81-149 | once a connection delivers all of a stream that ended complete, the client has exactly the whole log |
| EventLists.SortAndMerge | apps/web/src/presentation.ts:426-443 | the two maps and the sort compute the merged list |
| EventLists.OverwrittenSequenceIsTaken | apps/web/src/presentation.ts:430-436 | a list that repeats an identity keeps the overwritten event's sequence taken |
| EventLists.MergeKeepsOrder | apps/web/src/presentation.ts:426-443 | merging anything into a list without repeats keeps it sorted, unique and complete |
| EventLists.MergeIsUnion | apps/web/src/presentation.ts:426-443 | for events of one log the merge is the log's own order of the union |
| Cursors.DecodeEncodedCursor | services/control-plane/src/chaosagent_control_plane/cursor.py:24-58 | decoding undoes encoding on every valid cursor, which never exceeds the length limit |
| Cursors.DecodesExactly | services/control-plane/src/chaosagent_control_plane/cursor.py:36-58 | a text decodes to a cursor if and only if it is that cursor's encoding, however lenient the reading of numbers is |
| Checksums.ChecksumIndex | packages/exports/src/chaosagent_exports/contracts.py:395-410 | the loop prints the entries in path order, or refuses an unsafe path or non-ASCII text |
| Checksums.ParseChecksumIndex | packages/exports/src/chaosagent_exports/contracts.py:413-438 | the loop reads the lines into an index, or refuses |
| Checksums.ReadsBackExactly | packages/exports/src/chaosagent_exports/contracts.py:395-438 | a printed index reads back if and only if every path fits the reader's pattern and the text its size limit |
| Checksums.PrintsBack | packages/exports/src/chaosagent_exports/contracts.py:395-438 | every accepted text is the printed form of the index read from it |
| Checksums.SomeIndexIsNotReadBack | packages/exports/src/chaosagent_exports/contracts.py:385-438 | an index whose print is written and does not read back |
| Pointers.DecodeOnePass | packages/exports/src/chaosagent_exports/bundle.py:184-196 | the scan decodes exactly the escapes of RFC 6901 |
| Pointers.DecodersAgree | packages/faults/src/chaosagent_faults/application.py:456-460 | one-pass and two-replace decoding agree on every well-formed token, and the one-pass decoder refuses all others |
| Pointers.PointerRoundTrip | packages/exports/src/chaosagent_exports/bundle.py:180-208 | accepted pointers and their parts determine each other |
| Redaction.Redact | packages/exports/src/chaosagent_exports/bundle.py:223-255 | the loop replaces every target and reports the pointers that found one |
| Redaction.OrderDoesNotMatter | packages/exports/src/chaosagent_exports/bundle.py:223-255 | redaction depends on the set of pointers only |
| Redaction.RedactionIsIdempotent | packages/exports/src/chaosagent_exports/bundle.py:223-255 | redacting again changes nothing |
| Redaction.OnlyTargetsChange | packages/exports/src/chaosagent_exports/bundle.py:234-252 | exactly the targeted texts change; every other leaf stays |
| Redaction.ProtectedLeavesKept | packages/exports/src/chaosagent_exports/bundle.py:199-207 | no leaf under an identity, digest or boundary name ever changes |

## Left out

- The tool gateway's policy, handlers and fault orchestration, and the repository's SQL, beyond the environment described above.
- Requeueing an `evaluating` run in `Workers`: its final checkpoint would be refused on reload (`CheckpointSoundness.AcceptedInStatus`).
- `_validate_evidence_after_checkpoint` and the provider-metadata checks of `runtime.py`, and the provenance check of a stored evaluation in `service.py`.
- JSON Schema validation, RFC 8785 output, SHA-256, regular-expression engines and JSON parsing: predicates, canonical text and functions stand for them.
- Timestamps, sleeping, wall clocks, keep-alives, locks, weak references, telemetry, HTTP, the command line and the user interface.
- Workers.StepKeeps: no leases; any worker may act whenever its snapshot and the run status allow, which only adds schedules; likewise Workers.RunKeeps. The event log is in LoggedRuns.
- LoggedRuns.EveryReloadPassesBothChecks: what the gateway records is assumed: one request and one result per attempt, and, when a tool result is stored, events that match it.
- ExecutionLoop.ExecuteRun: one worker on the single-transaction dispatch path; Workers has the others.
- FaultRuns.StreamIsFresh: no earlier approval resolution may name the request; the stream validator does not exclude it.
- FaultApplication.FaultEngine.Select: an equal copy of an issued selection counts as issued, where the source compares object identity; the report of rules that did not match is not modelled.
- FaultApplication.ReplaceField: works on an immutable tree, so in-place update of a shared document is not captured; likewise Redaction.Redact.
- FaultMatcher.DecisionIsFirstFailure: the shapes of identifiers in a match context are not checked.
- Evaluation.BoundaryIndependence: inputs are typed, so snapshots with missing or mistyped fields, which the engine turns into a fixed invalid result, do not occur.
- EvaluationResults.CheckResult: the ordering of metrics and the agreement of evaluator revisions are not modelled.
- EvaluationResults.EngineResultsAreAccepted: diagnostic metrics are always empty in the engine and absent here; gates keep the order of the ground truths instead of being sorted.
- Wilson.IntervalEncloses: exact reals with a given square root, not sixty-digit decimals.
- Cohorts.BuildCohort: the cryptographic seal and the re-evaluation of each trial are not modelled; the plan's fault lists arrive sorted.
- LiveStream.ReplaySafeRunStream.Receive: an envelope is well formed or malformed as a whole, and a cursor is known by its sequence.
- Export bundles other than redaction and the checksum index, and run reports.
