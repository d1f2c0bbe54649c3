# Governed agents: models and proofs

This project models the parts of the repository that decide: planners, ledgers, gates and allocators that
stand between an autonomous agent and any effect it may have. Each part is written in the form it has in the
source (objects that change are classes, loops are loops, decisions are functions over records), and what the
part is for is proved about it, for every input and over whole runs.

| modules | what they model |
|---|---|
| `Prelude`, `RealArithmetic` | options, results, Python's string order and stable sort; products and quotients of reals |
| `PlanNodes`, `ParentGraph`, `DependencyWaves`, `HierarchicalPlanner`, `Replanning` | the hierarchical planner: indexing, the memoised parent walk, the wave pass, plans and chains of replans |
| `RunLedger`, `TaskBoard`, `EventRouter`, `Scoring`, `RemediationRun` | the event-sourced task board on its sealed ledger, idempotent intake, the scorer registry, and the bounded remediation loop |
| `Calibration`, `TrustAssessment` | binned calibration error against the Brier score, and the trust verdict built on it |
| `Chunking`, `Compaction` | the line-aware chunker and the choice of excerpts under a budget |
| `Evidence`, `TruthGraph` | the evidence registry, what evidence earns, and how trouble spreads along dependencies |
| `GrantResolution`, `RuntimePolicy`, `GuardedTransition` | delegation chains, the per-action check, and the transition that runs a callback behind both |
| `ApprovalLedger` | single-use approval receipts on a hash chain |
| `TaskEngine` | the economic task engine, its measure and its audit trail |
| `Continuity`, `ActionHands`, `AgentEyes`, `AgentCycle` | leases and checkpoints, idempotent actions, checked observations, and the cycle that joins them |
| `ImprovementEngine`, `ImprovementStages` | the P0 engine: signed evidence, the transition ledger, and runs of its stages |
| `FairSchedule` | the tenant-fair scheduler |

Conventions:

- Reason codes, statuses and other closed sets of texts are datatypes; a constructor with a text stands for every
  other value. Floats are exact reals, times are integers, a missing value is an option.
- Hashes are function parameters. Nothing assumes that they are injective: where the source relies on that, the
  theorem says "identical, or here are two different texts with one digest".
- Callbacks (executor, validator, scorers, certifier, adapters, the guarded transition) are arbitrary functions or
  arbitrary answers, raising ones included.
- Callbacks answer; they do not write to the objects around them. In particular no executor, validator, scorer or
  certifier moves a task on the board or appends to its ledger while `run` waits for it. An executor that held the
  board and did so could reach the third branch of the executor-exception handling, which is otherwise dead.

Where the code is not what its comments or the obvious reading suggest, the code is modelled:

- `RISK_ORDER` lookups in `prepare_replan` raise on a risk outside the order instead of holding. `PrepareReplan` says
  exactly when, and `UnknownRiskRaises` shows an input.
- The production check at the end of `_evidence_decision` never decides (`StandsWhenEarned`), and two refusals of
  `transition_task` never happen to a task that starts new (`DeadRefusals`).
- A revision refused at the limit has already replaced the task's quality result: `DenialChangesExactlyWhen` gives the
  condition, `DenialChangesReachableTask` a run that gets there.
- The start of validity along a grant chain is compared between neighbours only, and a silent link breaks the
  comparison: `StartsNarrowExactlyWhen` gives the condition, `StartMayWiden` a chain that is accepted.
- A budget figure the action leaves out is compared with nothing: `FigureIsHeldExactlyWhen` says when a figure is held
  to the limits of the chain, and `UnstatedTimeoutRuns` shows an action that runs although it is not.
- Unless a time is given, resolution and policy check read the clock one after the other, and a grant can run out in
  between: `InForceLaterExactlyWhen` gives the condition, `RunsAfterGrantRanOut` an input.
- The task board takes a creation for any source event; only the router asks for earlier ones
  (`DirectCreationKeepsExactlyWhen`).
- The dependency a snapshot blames depends on the order of the observations, though no status does:
  `BlamedExactlyWhen` says which dependencies can be blamed, `BlameIsFixedExactlyWhen` when the order does not matter,
  and `BlameFollowsOrderExample` shows a portfolio for which it does.
- An adapter or check that raises leaves no record, so its idempotency key executes again, and only then
  (`RaisedMayExecuteAgain`).

## Model

| member | source | states |
|---|---|---|
| `PlanNodes.IndexNodes` | vl/lom-agentic-os-p0/hierarchical_planner.py:132-144 | indexing succeeds exactly for 1 to the maximum number of nodes, each sound in itself and no id twice, and the dictionary then holds every row under its id; otherwise the number of rows decides, or the first row that cannot be filed, its own faults before a repeated id |
| `PlanNodes.IndexFaultUnique` | vl/lom-agentic-os-p0/hierarchical_planner.py:132-144 | no list of rows can be refused for two different reasons |
| `PlanNodes.BasicError` | vl/lom-agentic-os-p0/hierarchical_planner.py:87-107 | a node is sound exactly when it is named, has a stated action and capability, evidence and success criteria, a known risk, an uncertainty between 0 and 1 and distinct dependencies other than itself; otherwise the first of these it lacks is named |
| `ParentGraph.ParentWalk.Depth` | vl/lom-agentic-os-p0/hierarchical_planner.py:154-169 | the memoised walk ends, remembers only true depths (one more than the parent's, root 0, within the limit), and an error says what the climb from this very node meets: a cycle, an unlisted parent, or a root too far up |
| `ParentGraph.RefusedForOneReason` | vl/lom-agentic-os-p0/hierarchical_planner.py:154-169 | the three refusals of a climb exclude each other and a depth within the limit |
| `ParentGraph.ClimbEndsAtTop` | vl/lom-agentic-os-p0/hierarchical_planner.py:154-169 | no climb outlasts the one that reaches a root or a node with an unlisted parent, so depth is well defined |
| `ParentGraph.CycleHasNoTop` | vl/lom-agentic-os-p0/hierarchical_planner.py:155-156 | a climb that runs into a parent cycle reaches neither a root nor an unlisted parent |
| `ParentGraph.SingleRoot` | vl/lom-agentic-os-p0/hierarchical_planner.py:148-151 | one listed root is exactly one root of the graph, and without exactly one there is no bounded tree |
| `ParentGraph.TreeIsNotRefused` | vl/lom-agentic-os-p0/hierarchical_planner.py:154-173 | none of the walk's refusals applies to a bounded tree |
| `ParentGraph.ValidateParentGraph` | vl/lom-agentic-os-p0/hierarchical_planner.py:147-173 | accepts exactly the single-root trees within the depth limit, and then returns the root and, for every node, the number of parent links up to it; otherwise the number of roots decides, or the first row whose climb is refused |
| `DependencyWaves.CountDependencies` | vl/lom-agentic-os-p0/hierarchical_planner.py:184-191 | in-degrees and child lists are the numbers of dependencies and the dependents of every node |
| `DependencyWaves.Release` | vl/lom-agentic-os-p0/hierarchical_planner.py:199-202 | finishing a node lowers the count of each of its children by one and readies exactly those that reach zero |
| `DependencyWaves.ReleaseWave` | vl/lom-agentic-os-p0/hierarchical_planner.py:197-203 | after a wave every node waits for exactly its dependencies outside the finished ones, and the next wave is exactly the nodes that wait for nothing |
| `DependencyWaves.StuckMeansCycle` | vl/lom-agentic-os-p0/hierarchical_planner.py:205-206 | nodes that each wait for another of them hold a dependency cycle |
| `DependencyWaves.RanDry` | vl/lom-agentic-os-p0/hierarchical_planner.py:205-206 | running dry before every node is visited means a real cycle |
| `DependencyWaves.LevelledIsAcyclic` | vl/lom-agentic-os-p0/hierarchical_planner.py:193-207 | a graph whose nodes all got a wave has no cycle |
| `DependencyWaves.LevelIsLongestPath` | vl/lom-agentic-os-p0/hierarchical_planner.py:193-207 | the wave number of a node is the number of edges of its longest dependency path |
| `DependencyWaves.LinkErrorSpec` | vl/lom-agentic-os-p0/hierarchical_planner.py:177-182 | the links pass exactly when every dependency is listed and every parent is a dependency; otherwise the first row that fails decides, an unlisted dependency before a missing parent |
| `DependencyWaves.WavePass` | vl/lom-agentic-os-p0/hierarchical_planner.py:184-207 | over sound links the pass ends in the wave plan, or in a cycle there is |
| `DependencyWaves.ValidateDependencies` | vl/lom-agentic-os-p0/hierarchical_planner.py:176-207 | waves come out exactly when the links are sound and the dependencies acyclic, a cycle is reported exactly when the links are sound and there is one, and the waves list every node once, each in the wave of its longest dependency path, sorted within the wave |
| `HierarchicalPlanner.NodeGate` | vl/lom-agentic-os-p0/hierarchical_planner.py:210-224 | a node passes exactly when its action is not reserved for humans, it is non-production, not of high risk, reversible and of uncertainty at most 0.60; otherwise the first of these it breaks decides, two of them hold and the others call a human |
| `HierarchicalPlanner.GateReadyIffAllPass` | vl/lom-agentic-os-p0/hierarchical_planner.py:210-224 | the authority gate is ready exactly when every node passes on its own |
| `HierarchicalPlanner.CheckGraphs` | vl/lom-agentic-os-p0/hierarchical_planner.py:239-244 | the graph checks accept exactly indexable rows whose parents form a bounded tree and whose dependencies are well linked and acyclic; otherwise the first pass that fails decides, with the error of its first faulty row |
| `HierarchicalPlanner.GraphFaultUnique` | vl/lom-agentic-os-p0/hierarchical_planner.py:239-244 | that error is determined by the rows, and rows that pass have none |
| `HierarchicalPlanner.BuildPlan` | vl/lom-agentic-os-p0/hierarchical_planner.py:227-278 | a plan is ready exactly for a stated objective, a count that is not negative and rows that pass the graph checks and need no human by their own fields; it describes those rows: root, greatest depth, waves, sorted nodes, guards and digest; otherwise objective, count, graph passes and authority gate are looked at in this order, and the first node that needs a human or a hold decides by its first such field |
| `HierarchicalPlanner.IndexOfPermutation` | vl/lom-agentic-os-p0/hierarchical_planner.py:132-144 | the same rows in another order index to the same nodes |
| `HierarchicalPlanner.DepthWithinWave` | vl/lom-agentic-os-p0/hierarchical_planner.py:147-207 | no node of an accepted plan lies deeper than the number of its wave |
| `HierarchicalPlanner.FirstWaveIsRoot` | vl/lom-agentic-os-p0/hierarchical_planner.py:147-207 | the first wave is the root and nothing else |
| `HierarchicalPlanner.RootWaitsForNothing` | vl/lom-agentic-os-p0/hierarchical_planner.py:147-207 | the root of an accepted plan has no dependencies |
| `HierarchicalPlanner.AcceptedPlanShape` | vl/lom-agentic-os-p0/hierarchical_planner.py:227-278 | an accepted plan starts with its root alone, has more waves than its depth and no more than nodes, and respects both limits |
| `Replanning.EvaluateSignal` | vl/lom-agentic-os-p0/hierarchical_planner.py:303-351 | a signal may start a replan exactly when it names this valid plan, a known trigger with fresh evidence, low or medium risk outside production, no change of authority or scope and only nodes of the plan as completed; otherwise the first of these it lacks decides, three of them call a human |
| `Replanning.ReplacementGate` | vl/lom-agentic-os-p0/hierarchical_planner.py:394-402 | a replacement stands in exactly when it keeps action, capability and environment and both risks are known and its own no higher; otherwise changed work, an unknown risk, a higher risk and a changed environment decide in this order |
| `Replanning.JudgeReplacements` | vl/lom-agentic-os-p0/hierarchical_planner.py:394-402 | replacements pass exactly when each may stand in for its node; otherwise the first that may not decides |
| `Replanning.PrepareReplan` | vl/lom-agentic-os-p0/hierarchical_planner.py:354-432 | a replan comes out exactly when the signal is acceptable and the replacements are the open nodes, none wider than the node it replaces, and make an acceptable plan with the completed ones; the new plan keeps ids, completed nodes and objective, names its predecessor and counts one more replan; otherwise the signal, the list of replacements, the first replacement that may not stand in, or the plan they would make decides; it ends in an exception exactly when signal and list are in order and the first replacement barred is one whose risk, or whose node's risk, has no rank |
| `Replanning.UnknownRiskRaises` | vl/lom-agentic-os-p0/hierarchical_planner.py:394-399 | the input that raises: a plan of one node, replaced by itself with a risk of an unknown name |
| `Replanning.CombinedIsReplan` | vl/lom-agentic-os-p0/hierarchical_planner.py:376-432 | completed rows and replacements together carry exactly the old ids, completed nodes unchanged, none widened |
| `Replanning.ChainNeverWidens` | vl/lom-agentic-os-p0/hierarchical_planner.py:354-432 | over any chain of replans objective and ids stay, no node gains risk or changes action, capability or environment, the count grows by one a step, and what every step called completed is untouched |
| `Replanning.ChainStepsAreAccepted` | vl/lom-agentic-os-p0/hierarchical_planner.py:354-432 | every plan of a chain names its predecessor's digest, is acceptable itself, keeps its guards and starts with its root alone |
| `RunLedger.PersistentRunLedger.Records` | vl/lom-continuous-improvement/caie_p1.py:186-237 | reading succeeds exactly on an intact file: every line chained and digested, the head sealing number and last digest; otherwise the first bad line decides by its first fault, and the head only when every line is good |
| `RunLedger.ValidRefExactlyWhen` | vl/lom-continuous-improvement/caie_p1.py:83-85 | a reference is valid exactly when, stripped, it contains a scheme or begins as a URN or a digest |
| `RunLedger.PersistentRunLedger.CheckHead` | vl/lom-continuous-improvement/caie_p1.py:169-184 | the head passes exactly when it carries this count, this digest and their signature |
| `RunLedger.PersistentRunLedger.Append` | vl/lom-continuous-improvement/caie_p1.py:243-274 | an intact ledger grows by exactly the one entry and stays intact; a broken one is refused and left alone |
| `RunLedger.PersistentRunLedger.WriteLine` | vl/lom-continuous-improvement/caie_p1.py:265-272 | the first half of an append: the line is on file, the chain holds, and a stop here leaves a ledger that does not verify |
| `RunLedger.PersistentRunLedger.WriteHead` | vl/lom-continuous-improvement/caie_p1.py:153-167 | the second half: the head seals what is on file |
| `RunLedger.HeadBehind` | vl/lom-continuous-improvement/caie_p1.py:169-237 | a ledger with one chained line more than its head seals is not intact |
| `RunLedger.BadLineBreaks` | vl/lom-continuous-improvement/caie_p1.py:190-236 | a line that fails a check is the next line of no intact file |
| `RunLedger.SameTailSameRecords` | vl/lom-continuous-improvement/caie_p1.py:186-237 | two chains of one length and one last digest are identical or hold a collision of the keyed hash |
| `RunLedger.SameHeadSameRecords` | vl/lom-continuous-improvement/caie_p1.py:169-237 | two files that verify against one head are identical or hold a collision: no edit, reorder or truncation passes |
| `TaskBoard.HistoryIsWalk` | vl/lom-continuous-improvement/caie_p1.py:310-369 | in a log that replays, each task's states are a walk through the transition table from QUEUED to its present state |
| `TaskBoard.PreparePrIsEarned` | vl/lom-continuous-improvement/caie_p1.py:45-52 | PREPARE_PR comes only right after VERIFYING, SCORED and CERTIFIED |
| `TaskBoard.EffectReplays` | vl/lom-continuous-improvement/caie_p1.py:381-441 | replaying after an accepted operation never raises and gives the old board with that one task updated |
| `TaskBoard.UpdateKeeps` | vl/lom-continuous-improvement/caie_p1.py:381-441 | an accepted operation keeps attempts within budget, finished tasks unchanged, and every other task as it was |
| `TaskBoard.AnyInterleaving` | vl/lom-continuous-improvement/caie_p1.py:305-441 | after any interleaving of operations and notes over any tasks replay never raises, attempts are within budget, and finished tasks are unchanged |
| `TaskBoard.ReplayStops` | vl/lom-continuous-improvement/caie_p1.py:310-369 | a prefix that does not replay condemns the whole log |
| `TaskBoard.Board.Rebuild` | vl/lom-continuous-improvement/caie_p1.py:310-369 | rebuilding returns exactly the replay of the ledger, and fails exactly when the ledger is broken or does not replay |
| `TaskBoard.Board.Get` | vl/lom-continuous-improvement/caie_p1.py:371-375 | a task is found exactly when the ledger is sound and created it |
| `TaskBoard.Board.Create` | vl/lom-continuous-improvement/caie_p1.py:381-414 | the operation is accepted exactly when the board allows it, and then the board is the old one with the new task |
| `TaskBoard.Board.Transition` | vl/lom-continuous-improvement/caie_p1.py:416-427 | likewise for a transition: terminal tasks and moves outside the table are refused, and nothing is appended |
| `TaskBoard.Board.StartAttempt` | vl/lom-continuous-improvement/caie_p1.py:429-441 | likewise for an attempt: only active or remediating tasks within budget get one |
| `EventRouter.FindExternalSpec` | vl/lom-continuous-improvement/caie_p1.py:276-284 | an event is found exactly when some entry accepted it, turned it away or created a task for it, and the first such entry is found |
| `EventRouter.FindExternalStable` | vl/lom-continuous-improvement/caie_p1.py:276-284 | the entry found first stays the answer whatever is appended |
| `EventRouter.TakeReplays` | vl/lom-continuous-improvement/caie_p1.py:467-552 | an intake, whole or cut short before the acknowledgement, leaves a ledger that replays |
| `EventRouter.Judge` | vl/lom-continuous-improvement/caie_p1.py:489-512 | an event is welcome exactly when it is of a known type, has objective and evidence, an allowed target outside production, low or medium risk, is reversible, and its three people are named and different and its budget not negative; otherwise the first of these it lacks turns it away, three of them to a human |
| `EventRouter.IntakeByFields` | vl/lom-continuous-improvement/caie_p1.py:467-552 | what an intake comes to: nothing for a nameless or known event, a recorded rejection for an unwelcome one, and for a welcome one a task that takes everything from the event and the roles, then the acknowledgement |
| `EventRouter.EventsCreateOneTask` | vl/lom-continuous-improvement/caie_p1.py:467-552 | over any run of intakes, intakes cut short, work on the board and creations past the router for events without a task, no external event creates two tasks |
| `EventRouter.DirectCreationKeepsExactlyWhen` | vl/lom-continuous-improvement/caie_p1.py:381-414 | a task created on the board past the router keeps that rule exactly when its event has no task yet |
| `EventRouter.SeenEventIsDuplicate` | vl/lom-continuous-improvement/caie_p1.py:467-552 | once an intake has left any entry, every later intake of that event id answers DUPLICATE with the same task, or with none and the reason it was turned away for, and appends nothing |
| `EventRouter.Router.Ingest` | vl/lom-continuous-improvement/caie_p1.py:467-552 | the method does exactly what the intake says: same decision, same entries, and a failure changes nothing |
| `EventRouter.Router.Admit` | vl/lom-continuous-improvement/caie_p1.py:526-552 | the task is created first and acknowledged after; creation fails exactly on a known task id or a negative budget |
| `Scoring.ScorerRegistry.Register` | vl/lom-continuous-improvement/caie_p1.py:589-606 | a scorer is filed exactly when it is named, new, and its threshold and weight are in range |
| `Scoring.ScorerRegistry.Ask` | vl/lom-continuous-improvement/caie_p1.py:614-634 | scorers are asked in name order up to the first that raises or leaves the unit interval, which is blamed |
| `Scoring.ScorerRegistry.Evaluate` | vl/lom-continuous-improvement/caie_p1.py:608-640 | a report passes exactly when there are scorers, all are usable, no hard gate failed and the rounded weighted mean reaches the threshold; otherwise it says which of these failed first |
| `Scoring.MeanBetween` | vl/lom-continuous-improvement/caie_p1.py:611-635 | the weighted mean lies between any bounds on the scores |
| `Scoring.FailedGatesSpec` | vl/lom-continuous-improvement/caie_p1.py:636-638 | the gates reported are exactly the hard ones below their thresholds |
| `Scoring.ReportIsUnique` | vl/lom-continuous-improvement/caie_p1.py:608-640 | what the scorers answer determines the report |
| `Scoring.PassesExactlyWhen` | vl/lom-continuous-improvement/caie_p1.py:608-640 | a report passes exactly when there are scorers, all answer within 0 and 1, those with a hard gate reach their thresholds and the rounded mean reaches the registry's |
| `RemediationRun.PreflightByFields` | vl/lom-continuous-improvement/caie_p1.py:706-717 | a task is run exactly when it is non-production, on an allowed target, reversible, of low or medium risk and has three different people; otherwise the first of these it lacks stops it, held or escalated |
| `RemediationRun.AttemptGateByFields` | vl/lom-continuous-improvement/caie_p1.py:745-752 | a result is within bounds exactly when it is non-production, reversible, in the branch scope and has evidence; otherwise its first fault ends the run |
| `RemediationRun.ValidationGateByFields` | vl/lom-continuous-improvement/caie_p1.py:769-772 | a validation is in order exactly when the named validator, who is not the builder, gives evidence |
| `RemediationRun.CertificationGateByFields` | vl/lom-continuous-improvement/caie_p1.py:799-808 | a certification passes exactly when the named certifier, who is neither builder nor validator, passes with evidence at the ceiling; otherwise its first fault is named |
| `RemediationRun.OneOutcome` | vl/lom-continuous-improvement/caie_p1.py:722-821 | the answers of the callbacks leave an attempt one outcome: failed and to be tried again or rejected, stopped by the fault that is named, or at the ceiling |
| `RemediationRun.RunIsDetermined` | vl/lom-continuous-improvement/caie_p1.py:722-821 | and they determine the whole run: which attempts are made, as the callbacks see them, and how it ends |
| `RemediationRun.CeilingExactlyWhenEarned` | vl/lom-continuous-improvement/caie_p1.py:722-821 | a run ends at PREPARE_PR exactly when its attempts, each but the last failed with retries left, lead to one that earns it |
| `RemediationRun.Runtime.Run` | vl/lom-continuous-improvement/caie_p1.py:695-821 | a queued task that may not be run is stopped by the first thing against it; any other goes through its attempts: one whose executor raised, or whose bounded result failed its tests, a validator in order or its scorers, is followed by another exactly while retries are left and rejected after them, one that passed everything ends at PREPARE_PR, and any other stops with the gate, validator or certifier fault that is named; the ledger tells this run entry by entry, no board call raises and nothing else on the board changes |
| `RemediationRun.Runtime.Attempts` | vl/lom-continuous-improvement/caie_p1.py:722-821 | the loop ends after at most one attempt more than the retries, having made exactly the attempts that the failures before them call for |
| `RemediationRun.Runtime.Certify` | vl/lom-continuous-improvement/caie_p1.py:788-821 | a scored task reaches PREPARE_PR exactly when the certifier approves, and is held otherwise with the certifier's fault or exception as reason |
| `RemediationRun.Runtime.Verify` | vl/lom-continuous-improvement/caie_p1.py:752-786 | a bounded result leads to the outcome the validator's, scorers' and certifier's answers call for: tried again while retries are left, rejected after them, held with the fault, or at the ceiling |
| `Calibration.BinInRange` | vl/lom-learning-evaluation/trust_confidence.py:115 | every confidence falls into one bin, the one whose part of the unit interval it reaches and does not fill, full confidence into the last, and the source computes that bin |
| `Calibration.ReportHasFigures` | vl/lom-learning-evaluation/trust_confidence.py:107-137 | number times accuracy, Brier score, calibration error and gap are the number of correct samples, the sum of squares, the sum of the bins' gaps and the positive part of confidence over outcomes; ready from six samples on |
| `Calibration.BinsPartition` | vl/lom-learning-evaluation/trust_confidence.py:113-116 | whatever the pairs add up to, the bins add up to the same |
| `Calibration.SamplesByBins` | vl/lom-learning-evaluation/trust_confidence.py:113-124 | number, gap and distance of the samples are those of the bins together |
| `Calibration.ErrorIsMeanGap` | vl/lom-learning-evaluation/trust_confidence.py:118-124 | the calibration error is the sum of the bins' gap sizes over the number of samples |
| `RealArithmetic.MeanSquare` | vl/lom-learning-evaluation/trust_confidence.py:111-124 | the squared mean of the gaps is at most the mean of the squares |
| `Calibration.CalibrationInequalities` | vl/lom-learning-evaluation/trust_confidence.py:107-127 | for every sample list and bin count: overconfidence gap at most calibration error, its square at most the Brier score, and all within one |
| `Calibration.Bucket` | vl/lom-learning-evaluation/trust_confidence.py:113-116 | bucketing puts into each bin exactly its pairs, in order |
| `Calibration.Measure` | vl/lom-learning-evaluation/trust_confidence.py:107-137 | the loops compute the exact report |
| `Calibration.RoundedIsCoherent` | vl/lom-learning-evaluation/trust_confidence.py:130-137 | rounding to four places keeps the figures within one and the gap at most the error, whose square exceeds the Brier score by a trace at most |
| `Calibration.CalibrationReport` | vl/lom-learning-evaluation/trust_confidence.py:98-137 | refused exactly for fewer than two bins or an unsound sample, the first of which is named with its first fault; otherwise the figures over the bins that equal parts of the unit interval make, rounded, and bounding each other |
| `TrustAssessment.RelevantReportIsCoherent` | vl/lom-learning-evaluation/trust_confidence.py:161-165 | the report on the relevant history obeys the inequalities, exactly before rounding and nearly after it |
| `TrustAssessment.EffectiveBounds` | vl/lom-learning-evaluation/trust_confidence.py:167-175 | an effective reliability is never above the claim, nor above the accuracy once three samples tell |
| `TrustAssessment.ScoresInRange` | vl/lom-learning-evaluation/trust_confidence.py:195-217 | the weights keep the trust score within the unit interval without the clamp |
| `TrustAssessment.TrustedIsClean` | vl/lom-learning-evaluation/trust_confidence.py:219-256 | TRUSTED carries exactly the one reason that no other disposition carries, so nothing advisory is outstanding |
| `TrustAssessment.DispositionExactlyWhen` | vl/lom-learning-evaluation/trust_confidence.py:177-256 | TRUSTED exactly when nothing forbids it and every mark is reached, REVIEW exactly when nothing forbids it, a mark is missed and the score is at least 0.55, and HOLD otherwise |
| `TrustAssessment.ReasonsExactlyWhen` | vl/lom-learning-evaluation/trust_confidence.py:177-256 | the reasons given are exactly those that apply |
| `TrustAssessment.FiguresOfAssessment` | vl/lom-learning-evaluation/trust_confidence.py:195-217 | calibrated confidence and trust score are these blends of the report and the signal |
| `TrustAssessment.HistoryOfAssessment` | vl/lom-learning-evaluation/trust_confidence.py:161-193 | which samples tell: for each reliability those of the own source or the own model, whose accuracy counts in its place exactly when there are three or more and it is lower, and for the report exactly those of either |
| `TrustAssessment.TrustedIsNotOverconfident` | vl/lom-learning-evaluation/trust_confidence.py:232-248 | trust is granted only on at least six relevant samples whose confidence exceeds their accuracy by at most 0.15 as reported, and 0.15005 before rounding; the gap lowers the calibrated confidence, but no threshold bounds it |
| `Chunking.SplitLinesJoin` | vl/context-governance/context_compaction.py:35-37 | splitting into lines loses nothing |
| `Chunking.Flush` | vl/context-governance/context_compaction.py:45-57 | a flush turns the buffer into a chunk that carries exactly its lines |
| `Chunking.CutPiece` | vl/context-governance/context_compaction.py:64-71 | a piece of a long line becomes a chunk of that line, and the rest of the line remains |
| `Chunking.TakeRest` | vl/context-governance/context_compaction.py:73-81 | the rest of a line joins the buffer, which never exceeds the limit |
| `Chunking.ChunkContent` | vl/context-governance/context_compaction.py:31-85 | chunks join to the content, each within the limit, with exactly the lines its text begins and ends in, and as full as may be: a line is broken only where what is left of it does not fit, at the full size, and otherwise the next line would not have fitted |
| `Chunking.SpansInStep` | vl/context-governance/context_compaction.py:31-85 | spans start at line 1, end at the last line, and each begins on its predecessor's last line or the next; no chunk is empty or too long |
| `Compaction.Normalize` | vl/context-governance/context_compaction.py:111-130 | items are taken exactly when each is acceptable and no two name one resource; otherwise the first flawed item decides the hold |
| `Prelude.StrLeExactlyWhen` | vl/context-governance/context_compaction.py:132 | names are sorted as in a dictionary: by the first character that differs, and a beginning before what continues it |
| `Compaction.BestIsBest` | vl/context-governance/context_compaction.py:216-220 | the best candidate of a resource ranks before all others |
| `Compaction.BestsLead` | vl/context-governance/context_compaction.py:88-92 | and it leads them: none has more task terms or as many in a shorter text, and none as relevant comes earlier |
| `Compaction.LeftOutRightly` | vl/context-governance/context_compaction.py:230-255 | a candidate left out would not have fitted beside the leading ones and the chosen ones it does not outrank |
| `Compaction.NormalStrips` | vl/context-governance/context_compaction.py:114-119 | an item is taken by its stripped names, with its content as it is |
| `Compaction.ValidateManifest` | vl/context-governance/context_compaction.py:323-346 | a manifest passes exactly when schema, authorities, truth, coverage, digest and budget are in order; otherwise the first that is not is named |
| `Compaction.Cover` | vl/context-governance/context_compaction.py:215-228 | taking the best of every resource stops exactly when together they exceed the budget |
| `Compaction.FillUp` | vl/context-governance/context_compaction.py:250-253 | the fill loop takes what the ranking and the budget say |
| `Compaction.FillIsGreedy` | vl/context-governance/context_compaction.py:240-253 | a candidate is taken exactly when it fits beside what was taken of those ranked before it |
| `Compaction.FillRejects` | vl/context-governance/context_compaction.py:250-253 | a candidate passed over would not fit beside the whole selection either |
| `Compaction.RankedSpec` | vl/context-governance/context_compaction.py:231-249 | the candidates left to rank are each one that is not a best one, once, in rank order |
| `Compaction.ChosenIsSound` | vl/context-governance/context_compaction.py:210-262 | whenever the best candidates fit, the selection fits the budget, is distinct and in source order, covers every resource, and no rejected candidate would still fit |
| `Compaction.SoundSelectionCovers` | vl/context-governance/context_compaction.py:286-288 | a sound selection has excerpts of exactly as many resources as were given |
| `Compaction.Select` | vl/context-governance/context_compaction.py:183-320 | the coverage hold happens exactly when the best candidates together exceed the budget; otherwise the sound selection is handed on excerpt by excerpt and its manifest validates |
| `Compaction.Compact` | vl/context-governance/context_compaction.py:95-320 | every outcome: the refusals in their order, the resources whole and in order when they fit, the coverage hold exactly when the leading candidates exceed the budget, and otherwise, in source order, a leading candidate of every resource and whatever of the rest fits by task terms and shortness, with lines, digests and counts in a manifest that passes |
| `Compaction.MakeManifest` | vl/context-governance/context_compaction.py:280-319 | the manifest validates exactly when the characters selected are within the budget |
| `Evidence.EvidenceRegistry.Register` | vl/lom-6-10-project-state-truth-layer/project_state_truth.py:66-75 | an id is filed once; a record with another digest is refused and changes nothing; any other answer is the record filed first, which is the one offered unless the digests collide |
| `Evidence.FirstRecordStays` | vl/lom-6-10-project-state-truth-layer/project_state_truth.py:55-78 | over any run of registrations an id answers with the first record offered under it |
| `Evidence.DecideEvidence` | vl/lom-6-10-project-state-truth-layer/project_state_truth.py:102-154 | the loop over the evidence computes the decision, stopping at the first complaint |
| `Evidence.FirstComplaintDecides` | vl/lom-6-10-project-state-truth-layer/project_state_truth.py:118-136 | the first complaint about the evidence is the decision |
| `Evidence.Complaint` | vl/lom-6-10-project-state-truth-layer/project_state_truth.py:118-137 | a piece of evidence passes exactly when it is registered, in scope, sourced, uncontradicted, current, bound to the ledger and reports no failure; otherwise the first of these it lacks is the complaint, and only a failure fails |
| `Evidence.HeldForLack` | vl/lom-6-10-project-state-truth-layer/project_state_truth.py:107-114 | and held exactly for an unknown state, a missing name, no evidence or a ledger that does not verify, in this order |
| `Evidence.HeldForWeight` | vl/lom-6-10-project-state-truth-layer/project_state_truth.py:139-154 | undisputed evidence is held exactly for an untrusted result, no independent record where one is needed, or no human approval where one is needed, in this order |
| `Evidence.StandsWhenEarned` | vl/lom-6-10-project-state-truth-layer/project_state_truth.py:102-154 | the claimed state stands exactly when every piece of evidence is registered, in scope, sourced, current, ledger-bound and successful, with independent and human evidence where the state needs it; otherwise the project is held or failed; the production check never decides |
| `TruthGraph.DecideAll` | vl/lom-6-10-project-state-truth-layer/project_state_truth.py:161-174 | conflicting projects are held, every other observed project is decided by its own evidence |
| `TruthGraph.NoConflictByCount` | vl/lom-6-10-project-state-truth-layer/project_state_truth.py:165-169 | as many projects as observations means no conflict, and conversely |
| `TruthGraph.Propagate` | vl/lom-6-10-project-state-truth-layer/project_state_truth.py:176-193 | the in-place loop ends, with the result of sweeping until nothing changes |
| `TruthGraph.SettleIsReachability` | vl/lom-6-10-project-state-truth-layer/project_state_truth.py:176-193 | a project not blocked at first ends on hold exactly when a path of one or more dependencies leads to a missing, held, failed or unverified project, and then blames an unready dependency of its own; all others keep their decision |
| `TruthGraph.StatusesIgnoreOrder` | vl/lom-6-10-project-state-truth-layer/project_state_truth.py:165-193 | final statuses do not depend on the order of the observations |
| `TruthGraph.BlamedExactlyWhen` | vl/lom-6-10-project-state-truth-layer/project_state_truth.py:176-193 | for a project with one observation, open at first and doomed: a dependency is blamed under some order of the observations exactly when those listed before it were ready and trouble reaches it by a way around the project and around those |
| `TruthGraph.BlameIsFixedExactlyWhen` | vl/lom-6-10-project-state-truth-layer/project_state_truth.py:176-193 | the exact condition: the blame is the same under every order exactly when only one dependency can be blamed |
| `TruthGraph.FirstUnreadyIsBlamed` | vl/lom-6-10-project-state-truth-layer/project_state_truth.py:176-193 | under every order the first dependency that ends unready is blamed, if it was unready before propagation or is the only one that ends so |
| `TruthGraph.BlameFollowsOrder` | vl/lom-6-10-project-state-truth-layer/project_state_truth.py:184-193 | a family for which the order matters: a on b and c, b on c, c held |
| `TruthGraph.BlameFollowsOrderExample` | vl/lom-6-10-project-state-truth-layer/project_state_truth.py:156-193 | the failing input: a concrete portfolio and registry for which two orders blame differently |
| `TruthGraph.BuildSnapshot` | vl/lom-6-10-project-state-truth-layer/project_state_truth.py:156-207 | the snapshot is the settled form of the initial decisions, with the overall status read off it |
| `TruthGraph.ReadyAllTheWay` | vl/lom-6-10-project-state-truth-layer/project_state_truth.py:156-207 | a project the snapshot does not block stands on its own evidence, and so does every project on any dependency path from it |
| `TruthGraph.MonitoredStands` | vl/lom-6-10-project-state-truth-layer/project_state_truth.py:203-207 | MONITOR means every project stands on evidence and no dependency is unready |
| `GrantResolution.Walk` | vl/agent-control-plane/grant_resolution.py:82-108 | the chain walk ends, returns the complete chain of distinct live grants within the depth, or stops at a link that cannot be taken, with that link's reason |
| `GrantResolution.CompleteIsOnlyWay` | vl/agent-control-plane/grant_resolution.py:87-108 | a complete chain is the only way up, and the walk never gets stuck on it |
| `GrantResolution.RowFault` | vl/agent-control-plane/grant_resolution.py:91-104 | a grant passes exactly when it is filed as itself and in force; only one that has merely run out is called expired |
| `GrantResolution.LeafFault` | vl/agent-control-plane/grant_resolution.py:111-122 | a leaf is usable exactly when it is the expected agent's and grants some capability in some scope within a budget; another agent's is a mismatch of scope |
| `GrantResolution.PairFault` | vl/agent-control-plane/grant_resolution.py:124-157 | a pair of neighbours passes exactly when the child's capabilities, scope, budget, stated start and end are within its parent's; only a scope that is not is a mismatch of scope |
| `GrantResolution.CheckPairs` | vl/agent-control-plane/grant_resolution.py:123-152 | the pair checks pass exactly when every link only narrows; otherwise the first bad pair decides |
| `GrantResolution.ResolveGrant` | vl/agent-control-plane/grant_resolution.py:69-161 | a grant resolves exactly when it has an authorised chain, and the answer is its leaf with that chain; every refusal is accounted for |
| `GrantResolution.ChainOnlyNarrows` | vl/agent-control-plane/grant_resolution.py:123-152 | capabilities, scope entries, budget figures and expiry of every grant lie within those of every ancestor, however far up |
| `GrantResolution.StartsInOrder` | vl/agent-control-plane/grant_resolution.py:143-146 | where every link between two states a start, the upper one does not start later |
| `GrantResolution.StartsNarrowExactlyWhen` | vl/agent-control-plane/grant_resolution.py:123-152 | the exact condition: whatever the dates, two links of an authorised chain start in order exactly when no link between them is silent about its start |
| `GrantResolution.StartMayWiden` | vl/agent-control-plane/grant_resolution.py:143-146 | the failing input: a chain the resolver accepts whose leaf starts at 3 and whose root starts at 5, the link between them being silent |
| `RuntimePolicy.AllowedExactlyWhen` | vl/agent-control-plane/runtime_policy.py:64-158 | an action is allowed afresh exactly when it is in order, new, known and granted; as a replay exactly when it is in order and on record with its digest |
| `RuntimePolicy.DeniedExactlyWhen` | vl/agent-control-plane/runtime_policy.py:64-158 | a human is asked exactly for the two production approvals, and an action is denied for a reason exactly when that is the first thing amiss |
| `RuntimePolicy.WiderAllowsToo` | vl/agent-control-plane/runtime_policy.py:126-158 | what a grant allows, every wider grant allows |
| `GuardedTransition.ExecuteGuardedTransition` | vl/agent-control-plane/nonproduction_transition.py:17-88 | the callback runs exactly once when the action may run and never otherwise; production actions always go to a human, and every other answer is that of the policy, at the second clock reading, on the grant's one chain at the first, or a refusal of the chain |
| `GuardedTransition.OneChain` | vl/agent-control-plane/nonproduction_transition.py:58-80 | the resolved grant is the leaf of the only chain the action can rest on |
| `GuardedTransition.WhatRunsIsBacked` | vl/agent-control-plane/nonproduction_transition.py:17-88 | whatever runs is current, new, of a known kind, and covered by every grant on a chain of at most 16 distinct live grants from the requester's leaf to a root, none expiring after an ancestor |
| `GuardedTransition.UnstatedFiguresAreFree` | vl/agent-control-plane/runtime_policy.py:150-156 | a figure the action leaves out is held to no limit |
| `GuardedTransition.FigureIsHeldExactlyWhen` | vl/agent-control-plane/runtime_policy.py:150-156 | an action that may run is held to every limit its chain sets for a figure exactly when the leaf sets none or the action states the figure |
| `GuardedTransition.UnstatedTimeoutRuns` | vl/agent-control-plane/runtime_policy.py:150-156 | the input that runs unheld: under a grant of one minute a request for more is refused, one that states no timeout runs |
| `GuardedTransition.InForceLaterExactlyWhen` | vl/agent-control-plane/nonproduction_transition.py:58-80 | when time passes between the two checks, the chain is still in force at the second exactly when the leaf has not run out |
| `GuardedTransition.RunsAfterGrantRanOut` | vl/agent-control-plane/nonproduction_transition.py:58-80 | the input on which a grant runs out between the two checks and the action runs all the same |
| `ApprovalLedger.VerifyLedgerChain` | vl/lom-6-9-3-approval-consumption-ledger/ledger.py:95-106 | a ledger verifies exactly when it is a chain, with its tail; otherwise the first faulty entry is named |
| `ApprovalLedger.SameTailSameLedger` | vl/lom-6-9-3-approval-consumption-ledger/ledger.py:95-106 | two ledgers that verify with one tail are identical, lengths included, or hold a collision of the digest |
| `ApprovalLedger.ScanEntries` | vl/lom-6-9-3-approval-consumption-ledger/ledger.py:153-161 | the first entry that touches the operation decides |
| `ApprovalLedger.FieldFault` | vl/lom-6-9-3-approval-consumption-ledger/ledger.py:126-147 | a request may be consumed exactly when its receipt is approved, workload, action and source are stated, commit and receipt are digests, nonce and key are tokens, and its time is readable and not to come; otherwise the first field missing is named |
| `ApprovalLedger.HexExactlyWhen` | vl/lom-6-9-3-approval-consumption-ledger/ledger.py:9-10 | the digest texts are 40 or 64 lower-case hexadecimal digits |
| `ApprovalLedger.TokenExactlyWhen` | vl/lom-6-9-3-approval-consumption-ledger/ledger.py:11-12 | a token is 16 to 128 letters, digits and marks |
| `ApprovalLedger.ValidateConsumption` | vl/lom-6-9-3-approval-consumption-ledger/ledger.py:120-167 | a request that may not be consumed is held for its first missing field, then a ledger that is no chain for its first fault; otherwise it is ready exactly when no entry shares receipt, nonce or key with it, and the first entry that does decides: done already if it is the same operation, held if not |
| `ApprovalLedger.GrownIsApproved` | vl/lom-6-9-3-approval-consumption-ledger/ledger.py:120-188 | every entry of a ledger so grown records a request that could be consumed when it was made |
| `ApprovalLedger.BuildLedgerEntry` | vl/lom-6-9-3-approval-consumption-ledger/ledger.py:170-188 | an entry is refused exactly for a malformed previous digest, and otherwise carries the operation, the link and its digest |
| `ApprovalLedger.GrownIsUsedOnce` | vl/lom-6-9-3-approval-consumption-ledger/ledger.py:95-188 | a ledger grown only by validate-then-append always verifies and uses every receipt, nonce and idempotency key once |
| `ApprovalLedger.FirstMatchAnswersForAll` | vl/lom-6-9-3-approval-consumption-ledger/ledger.py:153-167 | a request in order is a no-op exactly when its operation is anywhere in the ledger, and may be appended exactly when nothing touches it |
| `ApprovalLedger.RetryStaysNoop` | vl/lom-6-9-3-approval-consumption-ledger/ledger.py:153-167 | after any later attempts a retry of a consumed operation is still a no-op, and any other use of its receipt, nonce or key is refused |
| `TaskEngine.Task.Transition` | vl/lom-economic-participation-p0/engine.py:156-278 | the object moves exactly as the step function says, and every event leaves one audit row |
| `TaskEngine.AcceptedExactlyWhen` | vl/lom-economic-participation-p0/engine.py:156-278 | an event is accepted exactly when its sender, the task's status and what it brings are in order, event by event; then it changes this much and no more, and otherwise its own shortcoming is named |
| `TaskEngine.QaDecision` | vl/lom-economic-participation-p0/engine.py:130-141 | a serious code rejects; then confidence below 0.80 escalates; then 85, 70 and 50 points decide |
| `TaskEngine.PaidIsConfirmed` | vl/lom-economic-participation-p0/engine.py:156-278 | a task that is paid, reconciled or closed was confirmed by the payment adapter with the provider's success |
| `TaskEngine.RunKeepsInvariant` | vl/lom-economic-participation-p0/engine.py:156-278 | in every reachable state revisions are at most 2, paid and payable tasks carry quality evidence and a worker, and the security hold is on exactly in SECURITY_REVIEW |
| `TaskEngine.AtMostTwentyThree` | vl/lom-economic-participation-p0/engine.py:23-43 | no run accepts more than 23 events other than security flags |
| `TaskEngine.TwentyThreeIsReached` | vl/lom-economic-participation-p0/engine.py:23-43 | every funded task with a fee can live through all 23 |
| `TaskEngine.StepCostsOne` | vl/lom-economic-participation-p0/engine.py:156-278 | each accepted event other than a security flag lowers the measure |
| `TaskEngine.MeasureIsReached` | vl/lom-economic-participation-p0/engine.py:156-278 | from any promising state exactly as many events as the measure says can be accepted |
| `TaskEngine.TrailIsLinked` | vl/lom-economic-participation-p0/engine.py:143-154 | audit rows link previous to next status, the last one ends at the task's status, and denials change no status |
| `TaskEngine.PaymentIsEarned` | vl/lom-economic-participation-p0/engine.py:156-278 | a task that passed shows an approval by the quality service or a reviewer in its trail, and one under payment also who made it payable |
| `TaskEngine.DenialChangesExactlyWhen` | vl/lom-economic-participation-p0/engine.py:226-245 | the exact condition: a denied event changes the task exactly when the quality service asks for a revision, with a result that calls for one and another id than the one on file, in QA_CHECK with the revisions used up; then only the quality result is replaced |
| `TaskEngine.DenialChangesReachableTask` | vl/lom-economic-participation-p0/engine.py:226-245 | every new task with a funding and a fee can be led to such a denial |
| `TaskEngine.DeadRefusals` | vl/lom-economic-participation-p0/engine.py:222-260 | two refusals never happen to a task that starts new |
| `TaskEngine.PayableIsEntitled` | vl/lom-economic-participation-p0/engine.py:280-298 | a payable task gets its entitlement exactly when its worker is named and the funding is valid |
| `TaskEngine.Entitle` | vl/lom-economic-participation-p0/engine.py:280-298 | earnings come out exactly for a payable task with worker, evidence and valid funding, and name task, worker, fee, currency and funding |
| `Continuity.ContinuityStore.AcquireLease` | vl/lom-agentic-os-p2/runtime.py:196-208 | the table and the answer are those of the lease step, and a grant leaves one event |
| `Continuity.ContinuityStore.BeatHeart` | vl/lom-agentic-os-p2/runtime.py:210-219 | likewise for a heartbeat, which leaves none |
| `Continuity.ContinuityStore.Checkpoint` | vl/lom-agentic-os-p2/runtime.py:176-194 | a checkpoint is what a resume finds, and no other objective's resume changes |
| `Continuity.ContinuityStore.Resumed` | vl/lom-agentic-os-p2/runtime.py:187-194 | a state resumes exactly when it is on file under its own digest; one that is not is refused for that |
| `Continuity.OneHolder` | vl/lom-agentic-os-p2/runtime.py:196-219 | with a clock that does not run backwards, no two owners at once have reason to believe they hold a lease |
| `Continuity.PassesOnlyWhenRunOut` | vl/lom-agentic-os-p2/runtime.py:196-208 | a lease is granted only strictly after the last end told to every other owner |
| `Continuity.LeaseExactlyWhen` | vl/lom-agentic-os-p2/runtime.py:196-219 | a lease is granted exactly when the request is in order and no other owner's lease still runs, a heartbeat extends exactly the owner's running lease, and nothing else changes the table |
| `Continuity.GrantedExactlyWhen` | vl/lom-agentic-os-p2/runtime.py:196-219 | over any run with a forward clock, an acquisition in order is granted exactly when every end another owner was told has passed |
| `Continuity.NeverRevived` | vl/lom-agentic-os-p2/runtime.py:210-219 | a lapsed or lost lease stays lost, and every heartbeat is refused, until it is acquired anew |
| `ActionHands.Hands.TakeAction` | vl/lom-agentic-os-p2/runtime.py:104-157 | the adapter executes exactly when the request is in bounds, the capability eligible and the key new |
| `ActionHands.Refusal` | vl/lom-agentic-os-p2/runtime.py:91-102 | a request is in the hands' authority exactly when it is not reserved for humans, outside production, of low or medium risk and has id, key and evidence; otherwise the first of these it lacks refuses it |
| `ActionHands.ActByFields` | vl/lom-agentic-os-p2/runtime.py:104-157 | refused requests and replays execute nothing and change no record; an execution is recorded under its key exactly when it completed |
| `ActionHands.OneCompletedExecution` | vl/lom-agentic-os-p2/runtime.py:104-157 | per key at most one execution completes, all before it raised, none follows, and the record is what it came to |
| `ActionHands.RecordedNeverExecutes` | vl/lom-agentic-os-p2/runtime.py:115-117 | once a key is on record no later call executes, and calls in bounds are answered with the record |
| `ActionHands.RaisedMayExecuteAgain` | vl/lom-agentic-os-p2/runtime.py:130-135 | after an execution its key executes again exactly when the adapter or the check raised |
| `AgentEyes.Observe` | vl/lom-agentic-os-p2/runtime.py:48-65 | a snapshot comes out exactly when every source is known, answers, is its own, has evidence and is fresh, and holds the envelopes in the order of the names; otherwise the first faulty source decides |
| `AgentEyes.Fault` | vl/lom-agentic-os-p2/runtime.py:48-66 | a source passes exactly when it shows an observation of its own, with evidence, not older than it may be; otherwise the first fault is named |
| `AgentCycle.Runtime.Cycle` | vl/lom-agentic-os-p2/runtime.py:235-270 | nothing is acted on without the lease and a snapshot; the eyes hold for the first faulty source, the hands exactly when the action is not allowed; a completed cycle holds the lease, has acted as allowed and leaves a checkpoint that resumes to its state; every outcome leaves exactly these events |
| `ImprovementEngine.ValidSuccessHistory` | vl/lom-continuous-improvement/caie.py:543-558 | a history is accepted exactly when it is a walk through the transition table that ends in certification |
| `ImprovementEngine.VouchesExactlyWhen` | vl/lom-continuous-improvement/caie.py:197-238 | evidence vouches for a payload exactly when it is of the kind, about the task, of that payload, stated in full, signed with its issuer's key, the issuer asked for, issued at most a minute ahead, not expired and not too old |
| `ImprovementEngine.BoundaryVerdictByFields` | vl/lom-continuous-improvement/caie.py:599-617 | a task is in bounds exactly when target, production, risk, reversibility, roles and budget allow it; otherwise the first that does not decides, three of them escalate |
| `ImprovementEngine.FirstFaultByFields` | vl/lom-continuous-improvement/caie.py:641-710 | a scoring passes exactly when evaluation, usage, budget, baseline and quality do; otherwise the first that does not decides, a budget overrun and poor quality reject and the others hold |
| `ImprovementEngine.QualityFaultByFields` | vl/lom-continuous-improvement/caie.py:696-710 | quality passes exactly when nothing regressed and every threshold is met; otherwise the first failure is named |
| `ImprovementEngine.CertifyVerdictByFields` | vl/lom-continuous-improvement/caie.py:712-742 | certification passes exactly for the named, independent, consistent certifier's evidence; otherwise the first failure is named |
| `ImprovementStages.VerdictIsLegal` | vl/lom-continuous-improvement/caie.py:482-490 | no stage ever asks for a move outside the table, whatever the task |
| `ImprovementStages.Engine.Transition` | vl/lom-continuous-improvement/caie.py:482-510 | terminal tasks stay, illegal moves are refused, legal ones are appended to the ledger |
| `ImprovementStages.Engine.LedgerIsValid` | vl/lom-continuous-improvement/caie.py:517-541 | the ledger check passes exactly for a chain of legal moves that ends in the task's state |
| `ImprovementEngine.QualifiedExactlyWhen` | vl/lom-continuous-improvement/caie.py:560-617 | a task qualifies exactly when request and trigger are complete, signed evidence vouches for both, and the task is in bounds |
| `ImprovementEngine.ScoredExactlyWhen` | vl/lom-continuous-improvement/caie.py:641-710 | a task is scored exactly when evaluation, usage and baseline are proper and vouched for, usage is within budget, nothing regressed and every threshold is met |
| `ImprovementEngine.CertifiedExactlyWhen` | vl/lom-continuous-improvement/caie.py:712-753 | a task is certified exactly when the named certifier, not the builder, validated independently and consistently and its signed evidence vouches for that at this ledger tail |
| `ImprovementStages.Engine.DoQualify` | vl/lom-continuous-improvement/caie.py:560-617 | the stage does exactly its step, and a discovered task becomes QUALIFIED exactly by a good qualification |
| `ImprovementStages.Engine.DoPlan` | vl/lom-continuous-improvement/caie.py:619-622 | the stage does exactly its step |
| `ImprovementStages.Engine.DoEnterSandbox` | vl/lom-continuous-improvement/caie.py:624-629 | the stage does exactly its step |
| `ImprovementStages.Engine.DoRecordTest` | vl/lom-continuous-improvement/caie.py:631-639 | the stage does exactly its step; a failed test within the limit costs one attempt |
| `ImprovementStages.Engine.DoScore` | vl/lom-continuous-improvement/caie.py:641-710 | the stage does exactly its step, and a tested task becomes SCORED exactly by a good scoring |
| `ImprovementStages.Engine.DoCertify` | vl/lom-continuous-improvement/caie.py:712-753 | the stage does exactly its step, a scored task becomes CERTIFIED exactly by a good certification, and a certified task alone gets a token |
| `ImprovementStages.Engine.DoPrepare` | vl/lom-continuous-improvement/caie.py:755-779 | the stage does exactly its step |
| `ImprovementStages.CertifyLegal` | vl/lom-continuous-improvement/caie.py:712-739 | certification needs the named, independent certifier and evidence signed by it |
| `ImprovementStages.RunKeepsInvariant` | vl/lom-continuous-improvement/caie.py:482-541 | after any run of stages the ledger verifies, its remediations are the attempts and within the limit, and a certified task has its token |
| `ImprovementStages.RunStaysInBounds` | vl/lom-continuous-improvement/caie.py:560-617 | whatever gets past qualification is an allowed, reversible, non-production task of at most medium risk with separate roles |
| `ImprovementStages.CertifiedReachesCeiling` | vl/lom-continuous-improvement/caie.py:755-779 | a certified task always reaches PREPARE_PR at its next preparation |
| `ImprovementStages.QualificationWasPassed` | vl/lom-continuous-improvement/caie.py:560-617 | whatever is past qualification was qualified by a stage call of its run, with the evidence asked for |
| `ImprovementStages.ScoringWasPassed` | vl/lom-continuous-improvement/caie.py:641-710 | whatever is SCORED, CERTIFIED or at PREPARE_PR was scored by a stage call of its run, with the evidence, budget and thresholds asked for |
| `ImprovementStages.CertificationWasPassed` | vl/lom-continuous-improvement/caie.py:712-753 | whatever is CERTIFIED or at PREPARE_PR was certified by a stage call of its run |
| `ImprovementStages.CeilingIsEarned` | vl/lom-continuous-improvement/caie.py:543-558 | a task at PREPARE_PR is within bounds and went through every stage |
| `ImprovementStages.CeilingHasEvidence` | vl/lom-continuous-improvement/caie.py:560-779 | and its run holds, in this order, a good qualification, a good scoring and a good certification |
| `ImprovementStages.LedgerStaysValid` | vl/lom-continuous-improvement/caie.py:755-761 | no run ever meets an invalid ledger |
| `FairSchedule.Schedule` | vl/lom-4-5-interoperability-resource-intelligence/runtime.py:88-104 | the two passes compute the fair schedule, cut to its length |
| `FairSchedule.ScheduledCount` | vl/lom-4-5-interoperability-resource-intelligence/runtime.py:88-104 | as many different items as allowed and available are scheduled, none twice |
| `FairSchedule.EveryTenantFirst` | vl/lom-4-5-interoperability-resource-intelligence/runtime.py:92-98 | no tenant has a second slot before every tenant has its first |
| `FairSchedule.SlotsByRank` | vl/lom-4-5-interoperability-resource-intelligence/runtime.py:88-104 | the first slots, one a tenant, hold the items that none of their tenant outranks; among them and among the later ones no item outranks one before it, by priority, tenant and id |
| `FairSchedule.TenantInRankOrder` | vl/lom-4-5-interoperability-resource-intelligence/runtime.py:91-104 | with a scheduled item every item of its tenant that outranks it is scheduled too |

## Left out

- File and database effects: fsync, locking, WAL, SQL, directory creation and I/O errors. A file is its sequence of lines, a table a map or a sequence.
- Text formats: JSON canonicalisation, ISO time parsing, UTF-8, SHA-256 and HMAC themselves. They are parameters; times that cannot be read are a constructor of their own.
- Values of a type the source does not expect, beyond those it checks for itself.
- Float arithmetic other than the rounding to four places, and NaN: figures are reals, and that rounding is a parameter. What the inequalities say of rounded figures holds for every rounding that keeps order, 0 and 1, and moves a figure by half of the last place at most.
- Rounding of the figures a trust assessment returns, done after the decision: the model keeps the figures decided on.
- The short hash that names a task in the event router may collide; then creation fails, as in the source, and nothing is claimed about how likely that is.
- Hex texts: Python's `int(s, 16)` also reads signs, underscores and a prefix. In the ledger this makes no difference, because the same values are compared with digests; in the P0 engine it is a parameter.
- Unicode lower-casing of `environment` in the hands, and the regular expression that finds task terms: the environment is production or not, and the number of terms found in a text is a parameter.
- RemediationRun.Runtime.Run: callbacks that write to the board or its ledger while the run waits for them; see the conventions above.
- The ceremony fields of answers (schemas, locked flags, ceilings) except in plans and manifests, whose validators check them.
- The listing order and fingerprint of a snapshot and of an assessment: decisions are compared as maps, reasons as sets.
- Constructor checks of the P0 engine's configuration and of the scorer registry's threshold: the theorems hold for every configuration.
- `spent_minor` of a funding allocation: no code updates it, so nothing is said about conservation of funds across tasks.
- `route`, `capacity_plan`, `resource_mode`, `admission_control` and the checkpoint helpers of the resource runtime; `worker_reputation_evidence` and `evaluate_scale_gate` of the task engine; `build_consumption_package`: short decisions that one reading settles.
- Adapters to other systems, user interface, templates, and the scripts that compare files with constants.
