# A model of the charter pipeline

This project models, in Dafny, how a governance charter goes from source text to a finished run: the
indentation-aware lexer, the recursive-descent parser, the resolver that orders a workflow's phases,
the builder that turns the order into an operation graph, the dependency-aware executor that runs it
concurrently, and the persistent runtime that advances phases one completion at a time. Beside them
stand the containers and the services they rely on: the directed graph, progressions, piles and flows,
the business-day calendar, and the decision cache. The main theorems, and where to find them:

- `CharterExecutor.CompiledRunsAreSequential`: every interleaving of a compiled workflow, under every
  concurrency limit, ends with the results of running its phases one after another, provided that
  phases unordered with one that asks for `all_phases_passed` call nothing; and
  `CharterSchedules.DeterministicIffCalm`: that condition is exact.
- `PhaseVerdict.EvalVerdict` and `PhaseVerdict.FailureSpreads`: exactly when a phase passes, with which
  error it fails otherwise, and that a failure reaches everything that depends on it in every run.
- `Executor.CompletedRun`, `Executor.FinishedOutcomes`, `Executor.NoDeadlock`, `Executor.RunsAreBounded`:
  the executor's own safety, progress and termination on every DAG.
- `RuntimeRuns.AncestorsCompleted`, `RuntimeRuns.SomePhaseIsActive`,
  `RuntimeRuns.EvidenceMatchesUnblocks`: safety, progress and exactly-once triggers over every run;
  `RuntimeAwaits.StartsExactly` and `RuntimeAwaits.TriggersReach`: exactly what starts a phase and what a
  waiting one waits for; `RuntimeOutcomes.CompletedWithFailure`: exactly which workflows can end completed
  with a failed phase.
- `CharterSyntax.ParsesExactly`: the parser accepts exactly a declaratively described language and builds
  exactly what it means; `CharterScanning.ScanMeans`: so does the scanner at every position.
- `Printer.RoundTrip` and `Printer.ParsePrintParse`: the parser inverts a canonical printer of the whole
  grammar; `CharterLayout.LexRender` and `CharterParser.ParseCharter`: so do lexer and parser together on
  text, for every charter with proper names, after any comments (`TextNames.NamedIff`,
  `TextPrinter.WritableIff`: that condition is exact).
- `CharterLexer.Lexer.Tokenize`, `CharterLexer.ReindentLevels` and `CharterLexer.LiteralRoundTrip`:
  balanced layout tokens that follow the open indentation levels, and string literals that survive.
- `Resolver.TopologicalSort`, `KronGraph.Graph.IsAcyclic`, `KronGraph.Graph.FindPath`: exact
  characterisations of the graph algorithms.
- `BusinessCalendar.SumsCompose`, `BusinessCalendar.SumOfCount`, `BusinessCalendar.DistanceAccounted`:
  the algebra of business days.
- `DecisionCaches.KeyTextShared`: exactly which cache keys share a slot across tenants.

| file | modules |
|---|---|
| `Options.dfy`, `Digraph.dfy`, `WorkList.dfy` | optional values; walks, cycles and orders; what the two Kahn traversals share |
| `Graph.dfy` | the graph with its incremental indexes, depth-first search, Kahn, breadth-first search |
| `Ast.dfy`, `Tokens.dfy`, `Grammar.dfy`, `Syntax.dfy`, `Printer.dfy`, `Forms.dfy`, `Parser.dfy` | the charter language as token lists |
| `Lexer.dfy`, `Scanning.dfy`, `Layout.dfy`, `Comments.dfy`, `TextPrinter.dfy`, `TextNames.dfy` | the charter language as text |
| `Resolver.dfy`, `Builder.dfy`, `Executor.dfy`, `CharterExecutor.dfy`, `PhaseVerdict.dfy`, `CharterSchedules.dfy` | compiling and executing a workflow, and when its results depend on the schedule |
| `PhaseState.dfy`, `Runtime.dfy`, `RuntimeRuns.dfy`, `RuntimeAwaits.dfy`, `RuntimeOutcomes.dfy` | the persistent runtime, all its runs and how they can end |
| `Calendar.dfy`, `Cache.dfy`, `Containers.dfy` | calendar, cache, ordered containers |

Conventions. Code that updates state in place is a class or a method with loops, proved against functions
of the old state; the lemmas are about those functions. Concurrent code is a relation on states, one
action per atomic step, and theorems quantify over all runs. Where the iteration order of a Python set or
dictionary is not fixed, any order is allowed. Exceptions are result values. Identifiers are fresh serial
numbers, dates are unbounded ordinals, times are real numbers passed in.

Where the code and its documentation differ, the model follows the code:

- The resolver counts a reference once per require but consumes it once per distinct edge, so a phase
  that names a dependency twice is reported as cyclic (`Resolver.RepeatIsRefused`).
- Keyword arguments are separated by the `==` token.
- `require` accepts only identifiers, although its error branch mentions keywords.
- A run whose last open phase completes is marked completed even when another phase failed
  (`RuntimeOutcomes.CompletedWithFailure` says for which workflows), and entry phases start whatever
  features or triggers they name.
- The result of a phase that asks for `all_phases_passed` can depend on the schedule
  (`CharterSchedules.RacingRaces`; `CharterSchedules.DeterministicIffCalm` says exactly when).
- Adding business days forward and then back can miss the sum (`BusinessCalendar.SumsCompose`).
- Phases with feature or builtin requires beside a phase reference never start in the runtime
  (`RuntimeRuns.HopelessNeverActive`).
- A Sunday holiday on the last day of a year is lost (`Holidays.LoneDateObserved`).
- An empty string literal followed by another quote opens a docstring (`CharterLexer.LiteralRoundTrip`).
- A cache key shares its slot with a key of another tenant exactly when one of its parts contains a colon
  (`DecisionCaches.KeyTextShared`), and invalidating a tenant also drops entries that use its name as an
  id or a scope (`DecisionCaches.TenantTest`).

## Model

| member | source | states |
|---|---|---|
| `KronGraph.Graph.RebuildAdjacency` | libs/kron/src/kron/core/graph.py:125-135 | the in and out indexes become exactly those of the stored nodes and edges |
| `KronGraph.Graph.AddNode` | libs/kron/src/kron/core/graph.py:164-168 | a new node joins with empty indexes, a known one is refused without change; indexes stay equal to a rebuild |
| `KronGraph.Graph.RemoveNode` | libs/kron/src/kron/core/graph.py:171-183 | the node and every edge at either end of it go, self-loops included; indexes stay equal to a rebuild and no edge is left without an endpoint |
| `KronGraph.Graph.AddEdge` | libs/kron/src/kron/core/graph.py:188-197 | an edge is added under a new id when both endpoints exist and refused otherwise; indexes stay equal to a rebuild |
| `KronGraph.Graph.RemoveEdge` | libs/kron/src/kron/core/graph.py:200-207 | exactly the named edge goes; indexes stay equal to a rebuild |
| `KronGraph.Graph.IsAcyclic` | libs/kron/src/kron/core/graph.py:250-268 | true exactly when no node reaches itself by one or more edges |
| `KronGraph.Visit` | libs/kron/src/kron/core/graph.py:255-265 | one depth-first visit: what it finishes extends a targets-first finishing order, and a refusal exhibits a cycle |
| `KronGraph.Graph.TopologicalSort` | libs/kron/src/kron/core/graph.py:270-289 | an order exists exactly for acyclic graphs; it lists every node once with the source of every edge before its target, parallel edges included |
| `KronGraph.KahnOrder` | libs/kron/src/kron/core/graph.py:274-289 | in-degrees are the edges not yet consumed, so the queue drains an acyclic graph completely and in dependency order |
| `KronGraph.Graph.FindPath` | libs/kron/src/kron/core/graph.py:291-340 | a returned path is connected, runs from start to end through passing edges and has the fewest edges; none is returned only when no such route exists |
| `KronGraph.BreadthFirst` | libs/kron/src/kron/core/graph.py:313-340 | nodes are discovered at their shortest distance, so the first arrival at the end is shortest and exhaustion means there is no route |
| `KronGraph.WalkParents` | libs/kron/src/kron/core/graph.py:328-336 | following recorded parents back from any discovered node ends at the start and yields the discovered route |
| `Digraph.SourcesFirstAcyclic` | libs/kron/src/kron/core/graph.py:250-289 | any complete duplicate-free listing with sources first proves acyclicity: the independent criterion both sorts are measured against |
| `Digraph.SourceExists` | libs/kron/src/kron/core/graph.py:278-289 | every non-empty set of nodes of an acyclic graph has a member no other member points at |
| `Resolver.TopologicalSort` | libs/canon/src/canon/dsl/resolver.py:674-716 | succeeds exactly when the references are acyclic and no phase repeats one; the order is then a permutation of the phases with every dependency first; a reported tuple is a closed walk of references exactly when there is a cycle |
| `Resolver.CountReferences` | libs/canon/src/canon/dsl/resolver.py:686-697 | adjacency holds each distinct reference once, in-degrees count every require |
| `Resolver.Drain` | libs/canon/src/canon/dsl/resolver.py:699-709 | the queue places exactly the phases whose references are all consumed, each after its dependencies |
| `Resolver.FindCycle` | libs/canon/src/canon/dsl/resolver.py:719-754 | a returned tuple is a closed walk of references; without one, every remaining phase was finished after what it leads to |
| `Resolver.Explore` | libs/canon/src/canon/dsl/resolver.py:729-748 | one depth-first visit keeps the path a walk and the finished phases closed under references |
| `Resolver.RepeatIsRefused` | libs/canon/src/canon/dsl/resolver.py:694-716 | the failing family: a phase that names a dependency twice is reported as cyclic although its references are acyclic, with a tuple that is no closed walk |
| `Resolver.ResolveWorkflow` | libs/canon/src/canon/dsl/resolver.py:301-347 | no error exactly when names are unique, references known and unrepeated and no cycle exists; the returned order then satisfies everything later stages rely on; exactly the repeated names and the dangling references are reported, and an unorderable workflow keeps its declaration order |
| `GraphBuilder.Builder.Add` | libs/kron/src/kron/operations/builder.py:69-134 | which of the three outcomes occurs and when, the first unknown dependency as the reported name, the names, heads and links afterwards, also after an error, and one edge per link; a self dependency makes a self-loop |
| `GraphBuilder.Builder.LinkAll` | libs/kron/src/kron/operations/builder.py:116-131 | links are added in order up to the first unknown dependency, which is the one reported |
| `GraphBuilder.Builder.Build` | libs/kron/src/kron/operations/builder.py:201-205 | accepts exactly when the dependency links are acyclic |
| `GraphBuilder.ImageAcyclic` | libs/kron/src/kron/operations/builder.py:201-205 | replacing names by fresh node ids neither makes nor breaks a cycle |
| `GraphBuilder.BuildGraph` | libs/canon/src/canon/hub/executor.py:321-340 | for every accepted workflow: no dependency is missing, the edges are exactly the phase references, one each, the graph is never refused as cyclic, and its predecessors are the required phases |
| `GraphBuilder.PredecessorsAreRequired` | libs/canon/src/canon/hub/executor.py:321-340 | reading the incoming edges of the built graph back through the names gives, for every phase, exactly the phases it requires |
| `GraphBuilder.FindPhase` | libs/canon/src/canon/hub/executor.py:179-183 | the first phase of that name, found exactly when there is one |
| `CharterAst.PhaseDepsMember` | libs/canon/src/canon/hub/executor.py:186-192 | the dependencies are the phases named by require statements |
| `Executor.Limiter` | libs/kron/src/kron/operations/flow.py:106-108 | no limiter exactly for no limit or zero, otherwise the limit itself as the number of slots |
| `Executor.StepInv` | libs/kron/src/kron/operations/flow.py:260-331 | every step of every task keeps the bookkeeping: awaited events, slots, results and errors |
| `Executor.StepSlots` | libs/kron/src/kron/operations/flow.py:266-275 | free slots plus slots in use equals the limit across every step |
| `Executor.RunInv` | libs/kron/src/kron/operations/flow.py:114-164 | the bookkeeping holds in every state of every run |
| `Executor.InvokedAfterPredecessors` | libs/kron/src/kron/operations/flow.py:291-304 | whatever is invoked in any run has had all its predecessors signal, and no more operations hold a slot than the limit |
| `Executor.AncestorsDone` | libs/kron/src/kron/operations/flow.py:291-304 | a task past its waiting stage has only finished tasks among its transitive predecessors |
| `Executor.NoDeadlock` | libs/kron/src/kron/operations/flow.py:260-304 | on every DAG with at least one slot some step is enabled until all tasks are done |
| `Executor.RunsAreBounded` | libs/kron/src/kron/operations/flow.py:260-331 | every run is finite: its length is bounded by the weight of its first state |
| `Executor.CompletedRun` | libs/kron/src/kron/operations/flow.py:306-331 | a run that cannot go on has finished every operation, each in exactly one of results and errors, with every event set and every slot returned |
| `Executor.InvokedOnce` | libs/kron/src/kron/operations/flow.py:306-331 | no operation is invoked twice in any run |
| `Executor.FinishedOutcomes` | libs/kron/src/kron/operations/flow.py:306-331 | in a finished run every operation was invoked exactly once, and its value stands under results, its failure or exception under errors |
| `PhaseVerdict.RunPhase` | libs/canon/src/canon/hub/executor.py:351-404 | the loops reach the verdict: the phase passes exactly when its calls do, every phase it requires has passed and, if it asks, all have; otherwise the error is that of the first require or action that stops it |
| `PhaseVerdict.EvalVerdict` | libs/canon/src/canon/hub/executor.py:409-467 | the result of every phase: the first require or action that stops it and the error that raises, or passing when none does, and exactly the notes and outputs recorded up to there, later ones over earlier ones |
| `PhaseVerdict.VerdictUnique` | libs/canon/src/canon/hub/executor.py:351-404 | only one result is such a verdict |
| `PhaseVerdict.PassesExactly` | libs/canon/src/canon/hub/executor.py:409-452 | a phase passes exactly when all its calls pass, every required phase is published and passed and, if it asks, every published phase has passed |
| `PhaseVerdict.RunVerdicts` | libs/canon/src/canon/hub/executor.py:225-263 | in every state of every run of every job, calm or not, a published result is accounted for by the calls and the published results of the required phases, or by all_phases_passed asked in vain |
| `PhaseVerdict.FailureSpreads` | libs/canon/src/canon/hub/executor.py:418-424 | in every state of every run, a phase with an ancestor that did not pass has not passed |
| `CharterExecutor.ConcludeAlike` | libs/canon/src/canon/hub/executor.py:409-452 | a phase cannot tell apart result maps that agree on its references (and, if it asks, on whether all passed) |
| `CharterExecutor.AdvanceSane` | libs/canon/src/canon/hub/executor.py:419-424 | with its dependencies published, a phase takes no step towards the "not yet executed" gate error |
| `CharterExecutor.PlanIsBuilt` | libs/canon/src/canon/hub/executor.py:321-340 | the plan the machine runs on is the one the built graph gives |
| `CharterExecutor.StepInv` | libs/canon/src/canon/hub/executor.py:342-404 | every interleaved step keeps each running phase on its way to, and each finished one at, the result its ancestors determine |
| `CharterExecutor.HouseStep` | libs/canon/src/canon/hub/executor.py:342-404 | for every job: each step keeps the executor's bookkeeping, and no published or pending result speaks of a dependency not yet executed |
| `CharterExecutor.NoDeadlock` | libs/canon/src/canon/hub/executor.py:225-263 | some step of the combined machine is enabled until every phase is done |
| `CharterExecutor.StuckIsDone` | libs/canon/src/canon/hub/executor.py:225-263 | every run of every job that cannot go on has finished and published every phase |
| `CharterExecutor.RunsAreBounded` | libs/canon/src/canon/hub/executor.py:225-263 | every run of the combined machine is finite |
| `CharterExecutor.UnexecutedUnreachable` | libs/canon/src/canon/hub/executor.py:419-424 | in no state of any run of any job has a phase failed because a dependency was not yet executed |
| `CharterExecutor.EveryRunIsSequential` | libs/canon/src/canon/hub/executor.py:225-263 | for every calm job (phases unordered with an all_phases_passed phase call nothing) and every limit, every maximal run publishes and returns exactly the results of sequential evaluation, with no recorded errors |
| `CharterExecutor.CompiledIsScheduled` | libs/canon/src/canon/hub/executor.py:300-340 | what the resolver accepts is a well-formed job and its phase order a schedule of it |
| `CharterExecutor.CompiledRunsAreSequential` | libs/canon/src/canon/hub/executor.py:225-263 | the pipeline theorem for every accepted calm workflow: every interleaving under every limit equals sequential evaluation in phase_order, and no gate error speaks of a dependency not yet executed |
| `CharterExecutor.CalmView` | libs/canon/src/canon/hub/executor.py:446-450 | in a calm job, whether all published phases passed is already decided by the asking phase's ancestors |
| `CharterExecutor.SequentialTight` | libs/canon/src/canon/hub/executor.py:342-404 | sequential evaluation gives each phase exactly what its ancestors' results demand |
| `CharterExecutor.TightUnique` | libs/canon/src/canon/hub/executor.py:342-404 | at most one assignment of results to the same phases is what the ancestors demand |
| `CharterExecutor.OrderIndependence` | libs/canon/src/canon/hub/executor.py:225-263 | any two schedules of a calm job give the same results |
| `CharterSchedules.ScheduleIsRun` | libs/canon/src/canon/hub/executor.py:225-263 | for every job, every schedule's sequential results are the outcome of an actual run under every limit |
| `CharterSchedules.UncalmSchedules` | libs/canon/src/canon/hub/executor.py:446-450 | a job that is not calm has phrases and two schedules with different results |
| `CharterSchedules.DeterministicIffCalm` | libs/canon/src/canon/hub/executor.py:225-263 | all runs of a job agree, for all phrases, limits and interleavings, exactly when the job is calm |
| `CharterSchedules.CompiledRunsIffCalm` | libs/canon/src/canon/hub/executor.py:225-263 | for every accepted workflow, all runs end with the sequential results of phase_order exactly when it is calm |
| `CharterSchedules.RacingRaces` | libs/canon/src/canon/hub/executor.py:446-450 | a two-phase workflow that compiles and has two machine runs with different results |
| `PhaseState.Terminal` | libs/canon/src/canon/runtime/phase_state.py:125-133 | the terminal statuses are exactly those no transition leaves |
| `PhaseState.TableExactly` | libs/canon/src/canon/runtime/phase_state.py:79-108 | for every target status, exactly the statuses it may be entered from |
| `PhaseState.ChangeUsesUp` | libs/canon/src/canon/runtime/phase_state.py:79-108 | every change allowed by the table or by cancellation lowers the number of changes still possible; terminal statuses admit none |
| `PhaseState.AtMostFiveChanges` | libs/canon/src/canon/runtime/phase_state.py:79-108 | no history the table and cancellation allow changes status more than five times |
| `PhaseState.AtMostThreeChanges` | libs/canon/src/canon/runtime/phase_state.py:79-108 | no history of the changes the runtime itself makes has more than three |
| `Runtime.EvaluateRequires` | libs/canon/src/canon/runtime/require_eval.py:65-115 | satisfied exactly when every require holds; the report lists exactly those that do not |
| `Runtime.CharterRun.ActivatePhase` | libs/canon/src/canon/runtime/cascade.py:311-405 | activates exactly pending or gated phases whose target the table allows: to wait for its triggers, which are stored, exactly when it awaits any, and for a user otherwise; anything else is left alone, and which answers are errors |
| `Runtime.CharterRun.TryActivate` | libs/canon/src/canon/runtime/cascade.py:507-545 | activates exactly when all requires hold as well, and raises exactly when they hold and activation is an error, or there is no such phase |
| `Runtime.CharterRun.CascadeFrom` | libs/canon/src/canon/runtime/cascade.py:181-196 | the loop over downstream phases equals offering each activation against the rows at completion time; the report lists exactly the changed rows, and exactly the phases whose activation raised |
| `Runtime.OfferAgain` | libs/canon/src/canon/runtime/cascade.py:181-196 | offering activation to other phases first makes no difference to a phase |
| `Runtime.DownstreamIsDependents` | libs/canon/src/canon/runtime/cascade.py:408-453 | the downstream phases are those whose own requires name the completed phase |
| `Runtime.CharterRun.OnPhaseCompleted` | libs/canon/src/canon/runtime/cascade.py:75-208 | succeeds exactly from in-progress; the whole stored state afterwards, the activated phases, and that the run completes exactly when every row is terminal |
| `Runtime.CharterRun.OnPhaseFailed` | libs/canon/src/canon/runtime/cascade.py:211-308 | succeeds exactly where the table allows; the phase and the run fail and nothing is activated |
| `Runtime.CharterRun.constructor` | libs/canon/src/canon/runtime/workflow.py:136-289 | a pending row per ordered phase, and the phases without phase references handed to a user |
| `Runtime.ActivateEntries` | libs/canon/src/canon/runtime/workflow.py:68-94 | entry phases are those without phase references, whatever else they require or await |
| `Runtime.CharterRun.Cancel` | libs/canon/src/canon/runtime/workflow.py:370-416 | every unfinished phase is skipped, finished ones stay, the run is cancelled |
| `Runtime.CharterRun.FireTrigger` | libs/canon/src/canon/runtime/trigger.py:77-206 | alone on the run: exactly the matching phases go on, with one evidence record each; without a match nothing changes |
| `Runtime.CharterRun.Snapshot` | libs/canon/src/canon/runtime/trigger.py:106-130 | the snapshot lists exactly the phases waiting for the trigger |
| `RuntimeRuns.StepLawful` | libs/canon/src/canon/runtime/cascade.py:128-160 | every step changes rows only as the table or cancellation allows, and a phase leaves PENDING for work only with all its dependencies completed |
| `RuntimeRuns.AncestorsCompleted` | libs/canon/src/canon/runtime/cascade.py:311-405 | in every reachable state a phase neither pending nor skipped has all its transitive phase-reference ancestors completed |
| `RuntimeRuns.TerminalForever` | libs/canon/src/canon/runtime/workflow.py:389-406 | a terminal status never changes again in any run |
| `RuntimeRuns.FailureBlocksDownstream` | libs/canon/src/canon/runtime/cascade.py:211-308 | nothing downstream of a failed phase is ever active, before or after the failure |
| `RuntimeRuns.ThreeChanges` | libs/canon/src/canon/runtime/phase_state.py:79-108 | over a whole run, cancellations included, no phase changes status more than three times |
| `RuntimeRuns.CancelIsFinal` | libs/canon/src/canon/runtime/workflow.py:389-416 | after a cancellation neither the rows nor the run's status ever change |
| `RuntimeRuns.UnblockBooks` | libs/canon/src/canon/runtime/trigger.py:137-189 | at every point of every interleaving a phase has been unblocked at most once, and records written plus records owed equal its unblocks |
| `RuntimeRuns.EvidenceMatchesUnblocks` | libs/canon/src/canon/runtime/trigger.py:106-206 | once all trigger calls have returned, each phase has exactly one evidence record per unblock, at most one |
| `RuntimeRuns.EvidenceIsTruthful` | libs/canon/src/canon/runtime/trigger.py:117-130 | every trigger record names a phase that was activated to wait for that trigger |
| `RuntimeRuns.SomePhaseIsActive` | libs/canon/src/canon/runtime/cascade.py:173-208 | when phases with phase references require nothing else, and with no failure or cancellation, every reachable state either has an active unfinished phase or has all phases and the run completed |
| `RuntimeRuns.ActivePhaseCanMove` | libs/canon/src/canon/runtime/cascade.py:173-208 | an active phase can be moved on: claimed, completed, or listed by a trigger call |
| `RuntimeRuns.CompletionMoves` | libs/canon/src/canon/runtime/cascade.py:173-196 | a completion leaves no pending phase behind whose dependencies are all completed |
| `RuntimeAwaits.StartsExactly` | libs/canon/src/canon/runtime/cascade.py:181-196 | completing a phase starts a pending one exactly when that one requires it and all its requires are then met; it waits for its triggers if it awaits any, and for a user otherwise |
| `RuntimeAwaits.RunAttends` | libs/canon/src/canon/runtime/cascade.py:366-391 | in every reachable state a phase that the run did not start with waits for exactly the triggers it awaits, and for a user only if it awaits none; entry phases never wait for a trigger |
| `RuntimeAwaits.TriggersReach` | libs/canon/src/canon/runtime/trigger.py:106-130 | in every reachable state a trigger finds such a phase exactly when it waits and awaits that trigger, and firing it moves the phase on |
| `RuntimeAwaits.CallReaches` | libs/canon/src/canon/runtime/trigger.py:106-170 | in every interleaving a trigger call lists every phase that waits for the trigger, and its turn moves the phase on if it still waits |
| `RuntimeAwaits.RecordedAwaits` | libs/canon/src/canon/runtime/require_eval.py:314-350 | every trigger record that satisfies a require names a phase that awaits the trigger |
| `RuntimeRuns.HopelessNeverActive` | libs/canon/src/canon/runtime/require_eval.py:236-311 | a phase with a phase reference and a feature, builtin or unknown-condition require never starts |
| `RuntimeRuns.CompletionEndsRun` | libs/canon/src/canon/runtime/cascade.py:494-504 | a completion completes the run exactly when every other row is terminal |
| `RuntimeRuns.FailedRunCompletes` | libs/canon/src/canon/runtime/cascade.py:494-504 | completing the last open phase marks a failed run completed, with the failed phase still failed |
| `RuntimeOutcomes.FailedIsSink` | libs/canon/src/canon/runtime/cascade.py:211-308 | over every run: a phase failed in a completed run is required by no phase |
| `RuntimeOutcomes.TwoSinks` | libs/canon/src/canon/runtime/cascade.py:494-504 | a run completed with a failed phase shows two phases that nothing requires |
| `RuntimeOutcomes.MixedRun` | libs/canon/src/canon/runtime/cascade.py:494-504 | two phases that nothing requires give a run marked completed with one of them failed |
| `RuntimeOutcomes.CompletedWithFailure` | libs/canon/src/canon/runtime/cascade.py:494-504 | a run can be marked completed with a failed phase exactly when at least two phases are required by nothing |
| `CharterParser.Parser.Advance` | libs/canon/src/canon/dsl/parser.py:92-97 | moves one token on, except at the last |
| `CharterParser.Parser.SkipDocstrings` | libs/canon/src/canon/dsl/parser.py:118-122 | skips docstrings and the line ends after each |
| `CharterParser.Parser.Parse` | libs/canon/src/canon/dsl/parser.py:131-205 | accepts exactly the token lists of the grammar, builds exactly its charter, and halts; duplicate sections are errors |
| `CharterSyntax.ParsesExactly` | libs/canon/src/canon/dsl/parser.py:131-205 | a token list parses to a charter exactly when it is a way of writing it, in a declarative account of the whole language: what is accepted, what it means and where it ends |
| `CharterSyntax.Unambiguous` | libs/canon/src/canon/dsl/parser.py:131-205 | no token list is a way of writing two charters |
| `CharterSyntax.SectionsAre` | libs/canon/src/canon/dsl/parser.py:150-205 | sections in any order, each kind but workflows at most once, assemble the charter; anything else is refused |
| `CharterSyntax.LeadIs` | libs/canon/src/canon/dsl/parser.py:112-122 | line ends, and docstrings where they are allowed, are exactly what is skipped before a statement |
| `CharterSyntax.SchemaSectionIs` | libs/canon/src/canon/dsl/parser.py:232-272 | one reference on the line of the keyword, or a block of dashed references |
| `CharterSyntax.WorkflowsIs` | libs/canon/src/canon/dsl/parser.py:370-397 | a name and a block of at least one phase, and nothing else |
| `CharterSyntax.PhasedIs` | libs/canon/src/canon/dsl/parser.py:403-474 | statements in any order with docstrings between them, at most one certify and one evidence |
| `CharterSyntax.RequirementIs` | libs/canon/src/canon/dsl/parser.py:480-535 | the four kinds of reference, told apart by what follows the identifier |
| `CharterSyntax.GrantingIs` | libs/canon/src/canon/dsl/parser.py:564-587 | a document type, possibly with a limit, whose suffix is optional |
| `CharterSyntax.BranchIs` | libs/canon/src/canon/dsl/parser.py:595-639 | a predicate and a block of requires, actions and awaits |
| `CharterSyntax.ArgumentsIs` | libs/canon/src/canon/dsl/parser.py:651-694 | values and EQ-named values with commas between them, between parentheses |
| `CharterSyntax.SituatedIs` | libs/canon/src/canon/dsl/parser.py:738-807 | a predicate, requires and waiting periods, of which the last counts |
| `CharterSyntax.RoledIs` | libs/canon/src/canon/dsl/parser.py:833-876 | properties in any order, later over earlier, over the defaults |
| `OtherForms.InlineRoundTrip` | libs/canon/src/canon/dsl/parser.py:262-265 | any schema reference after the colon is read as the one schema |
| `OtherForms.InlineCharter` | libs/canon/src/canon/dsl/parser.py:232-265 | a charter with its one schema written inline parses to the same charter as with the block form |
| `OtherForms.DocumentedPhase` | libs/canon/src/canon/dsl/parser.py:118-122 | a docstring at the start of a phase changes nothing |
| `OtherForms.RepeatedLists` | libs/canon/src/canon/dsl/parser.py:150-175 | a schemas, packages, policies or triggers section that comes twice is an error |
| `OtherForms.RepeatedBlocks` | libs/canon/src/canon/dsl/parser.py:175-190 | a situations or roles section that comes twice is an error |
| `Printer.HeaderRoundTrip` | libs/canon/src/canon/dsl/parser.py:211-226 | a printed header, with or without a minor version, is read back and the sections after it are parsed with that name and version |
| `CharterParser.Parser.ParseSchemas` | libs/canon/src/canon/dsl/parser.py:232-265 | block form after a line end, one inline reference otherwise |
| `Printer.CollectsPackage` | libs/canon/src/canon/dsl/parser.py:304-310 | a printed package entry is read back and appended, also when its name is a keyword |
| `CharterParser.Parser.ParsePackages` | libs/canon/src/canon/dsl/parser.py:278-302 | one entry per dash until the block ends |
| `CharterParser.Parser.ParsePolicies` | libs/canon/src/canon/dsl/parser.py:316-336 | one dotted name per dash until the block ends |
| `CharterParser.Parser.ParseTriggers` | libs/canon/src/canon/dsl/parser.py:342-364 | one identifier per line until the block ends |
| `CharterParser.Parser.ParseWorkflow` | libs/canon/src/canon/dsl/parser.py:370-397 | a workflow needs at least one phase |
| `CharterParser.Parser.ParsePhase` | libs/canon/src/canon/dsl/parser.py:403-474 | every statement kind in any order, at most one certify and one evidence |
| `Printer.GrantRoundTrip` | libs/canon/src/canon/dsl/parser.py:564-587 | a printed grant, with or without a limit in minutes, is read back |
| `CharterParser.Parser.ParseWhen` | libs/canon/src/canon/dsl/parser.py:595-639 | a predicate and a block of requires, actions and awaits |
| `CharterParser.Parser.ParseArgs` | libs/canon/src/canon/dsl/parser.py:651-694 | positional and EQ-named arguments with commas between them |
| `Printer.ValueRoundTrip` | libs/canon/src/canon/dsl/parser.py:696-712 | every literal is read back as itself |
| `CharterParser.Parser.ParseSituation` | libs/canon/src/canon/dsl/parser.py:738-772 | a predicate, requires, and the last waiting period given |
| `Printer.PredicateRoundTrip` | libs/canon/src/canon/dsl/parser.py:774-788 | a printed predicate is read back, field, operator and value |
| `Printer.WaitingRoundTrip` | libs/canon/src/canon/dsl/parser.py:790-807 | a printed waiting period is read back, range and unit |
| `CharterParser.Parser.ParseRole` | libs/canon/src/canon/dsl/parser.py:833-876 | properties in any order over the defaults |
| `CharterParser.Parser.ParseDottedName` | libs/canon/src/canon/dsl/parser.py:882-888 | identifiers joined by dots |
| `CharterParser.Parser.ParseIdents` | libs/canon/src/canon/dsl/parser.py:890-899 | a bracketed list of identifiers |
| `Printer.CollectsSchema` | libs/canon/src/canon/dsl/parser.py:267-272 | a printed schema reference is read back and appended, whichever form its version has |
| `Grammar.CharterText` | libs/canon/src/canon/dsl/parser.py:131-205 | every parsed charter is well formed: integers not negative, workflows not empty |
| `Grammar.BodyKeeps` | libs/canon/src/canon/dsl/parser.py:428-460 | whatever every statement keeps, a block keeps |
| `Printer.RequireRoundTrip` | libs/canon/src/canon/dsl/parser.py:480-535 | a printed require parses back to itself |
| `Printer.ArgsRoundTrip` | libs/canon/src/canon/dsl/parser.py:651-694 | printed arguments parse back to themselves, named ones included |
| `Printer.WhenRoundTrip` | libs/canon/src/canon/dsl/parser.py:595-639 | a printed when block parses back to itself |
| `Printer.PhaseRoundTrip` | libs/canon/src/canon/dsl/parser.py:403-474 | a printed phase parses back to itself |
| `Printer.WorkflowRoundTrip` | libs/canon/src/canon/dsl/parser.py:370-397 | a printed workflow parses back to itself |
| `Printer.SituationRoundTrip` | libs/canon/src/canon/dsl/parser.py:738-772 | a printed situation parses back to itself |
| `Printer.RoleRoundTrip` | libs/canon/src/canon/dsl/parser.py:833-876 | a printed role parses back to itself |
| `Printer.RoundTrip` | libs/canon/src/canon/dsl/parser.py:131-205 | parsing the canonical token printing of any well-formed charter gives that charter back and stops at EOF |
| `Printer.ParsePrintParse` | libs/canon/src/canon/dsl/parser.py:131-205 | whatever token list was parsed, printing and parsing again gives the same charter |
| `Tokens.NatTextParses` | libs/canon/src/canon/dsl/parser.py:578-581 | a printed number reads back as itself |
| `Tokens.JoinSplit` | libs/canon/src/canon/dsl/parser.py:882-888 | splitting a dotted name at its dots and joining the parts gives the name back |
| `CharterParser.ParseTokens` | libs/canon/src/canon/dsl/parser.py:131-205 | the parser object agrees with the grammar on every EOF-terminated list and inverts the printer |
| `CharterParser.ParseCharter` | libs/canon/src/canon/dsl/parser.py:929-941 | text to charter is exactly lexing followed by parsing; the result survives printing and parsing, and the canonical text of every charter with proper names and no empty block, after any comment and blank lines, gives that charter back |
| `CharterParser.WrittenParses` | libs/canon/src/canon/dsl/parser.py:929-941 | the canonical text of a writable charter lexes to tokens that parse to the charter, up to EOF |
| `CharterParser.CommentedParses` | libs/canon/src/canon/dsl/parser.py:929-941 | comment and blank lines before a charter's text change nothing about what it parses to |
| `CharterLexer.Lexer.Advance` | libs/canon/src/canon/dsl/lexer.py:56-64 | line and column stay those of the position |
| `CharterLexer.Lexer.ReadNumber` | libs/canon/src/canon/dsl/lexer.py:77-91 | the longest run of digits, with a fraction exactly when a dot and a digit follow |
| `CharterLexer.Lexer.ReadString` | libs/canon/src/canon/dsl/lexer.py:93-139 | string or docstring, its value and where it ends; unterminated literals are errors |
| `CharterLexer.Lexer.ReadTripleQuoted` | libs/canon/src/canon/dsl/lexer.py:141-169 | the loop reads exactly the docstring and stops after it, or reports that it does not end |
| `CharterLexer.DocBodyMeans` | libs/canon/src/canon/dsl/lexer.py:141-169 | a docstring is the text verbatim up to the first three quotes in a row, and is unterminated exactly when there are none |
| `CharterLexer.Lexer.MeasureIndent` | libs/canon/src/canon/dsl/lexer.py:180-198 | the number of leading spaces; a tab among them is an error |
| `CharterLexer.HandleIndentation` | libs/canon/src/canon/dsl/lexer.py:200-217 | one INDENT, or one DEDENT per level popped, and the stack afterwards |
| `CharterLexer.ReindentLevels` | libs/canon/src/canon/dsl/lexer.py:200-217 | a line is refused exactly when its level is below the current one and not open; otherwise the strictly increasing stack with bottom 0 is exactly the set of levels no later line dropped below, in step with the INDENT and DEDENT tokens |
| `CharterLexer.EmitRemainingDedents` | libs/canon/src/canon/dsl/lexer.py:219-223 | one DEDENT per level still open |
| `CharterLexer.OperatorLongest` | libs/canon/src/canon/dsl/lexer.py:262-365 | of all operator spellings that stand at a position the longest is taken, so two-character operators win |
| `CharterLexer.OperatorSpelled` | libs/canon/src/canon/dsl/lexer.py:262-365 | whatever operator is read has its spelling at the position and is passed over whole |
| `CharterLexer.TokenAtSound` | libs/canon/src/canon/dsl/lexer.py:262-365 | every emitted token is genuine (integers are numerals, never layout or EOF) and every step moves forward |
| `CharterLexer.Lexer.Tokenize` | libs/canon/src/canon/dsl/lexer.py:229-374 | terminates on every text with exactly the prescribed tokens or an error; a result is balanced and ends in its only EOF; an error carries the line and column of the tab, the badly indented token, the foreign character or the end of the text it stands at |
| `CharterLexer.FinishedSound` | libs/canon/src/canon/dsl/lexer.py:367-374 | closing the open levels balances INDENT and DEDENT and EOF comes last and once |
| `CharterLexer.LiteralRoundTrip` | libs/canon/src/canon/dsl/lexer.py:93-139 | an escaped literal reads back as its value whatever surrounds it, exactly unless it is empty and directly followed by one more quote |
| `CharterLayout.LexableReads` | libs/canon/src/canon/dsl/lexer.py:262-365 | every word, number, string, operator and punctuation mark followed by a space or a line end is read back as itself |
| `CharterLayout.LexRender` | libs/canon/src/canon/dsl/lexer.py:229-374 | lexing the text of any properly laid-out token list gives the list back, INDENT, DEDENT, line ends and EOF included |
| `CharterLayout.LexEmittable` | libs/canon/src/canon/dsl/lexer.py:229-374 | on every text the lexer emits only words under their keyword kind, proper numbers, strings, spelled operators, docstrings and layout |
| `TextPrinter.PrintFits` | libs/canon/src/canon/dsl/parser.py:131-205 | the printing of every well-formed charter without empty blocks is laid out properly |
| `TextPrinter.WrittenLexes` | libs/canon/src/canon/dsl/lexer.py:229-374 | the text of a writable charter lexes to exactly its canonical tokens |
| `TextPrinter.WritableIff` | libs/canon/src/canon/dsl/lexer.py:229-374 | some text lexes to a charter's canonical tokens exactly when each of them can be written |
| `TextNames.NamedIff` | libs/canon/src/canon/dsl/lexer.py:262-365 | every token of a charter can be written exactly when its names are identifiers, its literals and versions proper and its operators known; strings may hold anything |
| `CharterScanning.ScanMeans` | libs/canon/src/canon/dsl/lexer.py:262-365 | what the scanner makes of any position: a word, number, operator or literal that stands there, as long as it can be; a space or a comment up to its line end; or an error, exactly at an unterminated literal or where nothing can start |
| `CharterScanning.HeadMeans` | libs/canon/src/canon/dsl/lexer.py:236-257 | what it makes of a line's start: a tab is refused, a blank line passed over with its end, a comment up to its end, anything else is indented by its spaces |
| `CharterScanning.PartsRead` | libs/canon/src/canon/dsl/lexer.py:93-139 | a literal is read part by part, each escape as the character it stands for, up to the first quote that is not escaped |
| `CharterScanning.PartsOf` | libs/canon/src/canon/dsl/lexer.py:93-139 | whatever literal is read consists of such parts |
| `CharterComments.LexLater` | libs/canon/src/canon/dsl/lexer.py:229-374 | lexing from a position on depends only on the text from there on |
| `CharterComments.CommentSkipped` | libs/canon/src/canon/dsl/lexer.py:171-174 | a comment after a token gives nothing up to its line end, whatever it says |
| `CharterComments.CommentLineSkipped` | libs/canon/src/canon/dsl/lexer.py:251-254 | a line that holds only a comment gives no token before its line end, whatever it says and however it is indented |
| `CharterComments.BlankLineSkipped` | libs/canon/src/canon/dsl/lexer.py:246-250 | a blank line gives nothing at all |
| `CharterComments.SpaceSkipped` | libs/canon/src/canon/dsl/lexer.py:269-272 | a space, tab or carriage return between tokens gives nothing |
| `CharterComments.LexLeading` | libs/canon/src/canon/dsl/lexer.py:229-374 | leading comment and blank lines add nothing but the line ends of the comments to the tokens of a text |
| `CharterParser.LexedTerminates` | libs/canon/src/canon/dsl/lexer.py:367-374 | lexer output is what the parser requires, and its integer conversion never fails on it |
| `Dates.YearUnique` | libs/canon/src/canon/utils/calendar.py:60-62 | every ordinal lies in exactly one Gregorian year |
| `Dates.YearLength` | libs/canon/src/canon/utils/calendar.py:60-62 | a year has 366 days exactly when it is a leap year |
| `Dates.Anchored` | libs/canon/src/canon/utils/calendar.py:60-62 | day 1 is a Monday and the first day of year 1, and weekdays follow each other |
| `Holidays.HolidaysAreWeekdays` | libs/canon/src/canon/utils/loader.py:106-137 | every observed holiday is a weekday of the year it is listed for |
| `Holidays.HolidaysExactly` | libs/canon/src/canon/utils/loader.py:106-133 | there are holidays exactly when the jurisdiction, and the federal one if it uses that, are known; a day is one exactly when a date of the jurisdiction's own files, or of the federal ones if it uses them, is kept on it in that year |
| `Holidays.Registry.GetHolidays` | libs/canon/src/canon/utils/loader.py:106-133 | the cached lookup always equals working the holidays out afresh, own and next year's files and the federal ones included, and is remembered; which days are in it is stated from the raw dates |
| `Holidays.ListedIsObserved` | libs/canon/src/canon/utils/loader.py:119-127 | a listed date is observed in the year its observance falls into unless it is a Sunday that ends its year |
| `Holidays.LoneDateObserved` | libs/canon/src/canon/utils/loader.py:119-127 | when a date is all there is, it is observed exactly when it is not a Sunday that ends its year |
| `BusinessCalendar.Calendar.Add` | libs/canon/src/canon/utils/calendar.py:47-64 | terminates whenever there is an n-th business day, with the n-th after the start, or before it for negative n; unknown jurisdictions are errors unless n is zero |
| `BusinessCalendar.LoopEnds` | libs/canon/src/canon/utils/calendar.py:47-64 | the stepping loop passes n business days at some date exactly when there is an n-th one |
| `BusinessCalendar.WorkableHasSum` | libs/canon/src/canon/utils/calendar.py:47-64 | if every year has a business day, any number of days can be added to any date |
| `BusinessCalendar.SumUnique` | libs/canon/src/canon/utils/calendar.py:47-64 | there is only one such day |
| `BusinessCalendar.SumIsLeast` | libs/canon/src/canon/utils/calendar.py:47-64 | it is the least date with at least n business days after the start |
| `BusinessCalendar.SumsCompose` | libs/canon/src/canon/utils/calendar.py:47-64 | adding m and then n, of any signs, is adding m + n exactly unless the two come back to or past a start that is no business day |
| `BusinessCalendar.SumInverts` | libs/canon/src/canon/utils/calendar.py:47-64 | going n days and back returns to the start exactly when the start is a business day |
| `BusinessCalendar.CountToSum` | libs/canon/src/canon/utils/calendar.py:99-115 | counting from the start up to the n-th business day after it gives n - 1, and one more if the start is a business day |
| `BusinessCalendar.SumOfCount` | libs/canon/src/canon/utils/calendar.py:99-115 | a later date is the sum of the business days counted up to and including it exactly when it is a business day |
| `BusinessCalendar.Calendar.Count` | libs/canon/src/canon/utils/calendar.py:99-115 | the number of business days from start up to, but not including, end; an error exactly when a needed holiday lookup fails |
| `BusinessCalendar.Calendar.IsBusinessDay` | libs/canon/src/canon/utils/calendar.py:117-120 | whether a day is neither weekend nor observed holiday; a weekend needs no holiday lookup |
| `BusinessCalendar.BusinessDayExactly` | libs/canon/src/canon/utils/calendar.py:117-120 | a business day is a Monday to Friday on which no date of the jurisdiction's files, or of the federal ones if it uses them, is kept |
| `BusinessCalendar.Calendar.AddAudited` | libs/canon/src/canon/utils/calendar.py:66-97 | the deadline with the holidays passed over, earliest first, and the calendar distance fully accounted for; zero days need only a known code |
| `BusinessCalendar.DistanceAccounted` | libs/canon/src/canon/utils/calendar.py:66-97 | calendar distance equals requested business days plus weekend days plus recorded holidays |
| `BusinessCalendar.DaysPartition` | libs/canon/src/canon/utils/calendar.py:66-97 | every day is exactly one of business day, weekend day and holiday |
| `DecisionCaches.DecisionCache.Get` | libs/canon/src/canon/utils/cache.py:217-244 | a hit is exactly a value put under the key, untouched since and within its lifetime; every get counts as one hit or miss |
| `DecisionCaches.DecisionCache.Set` | libs/canon/src/canon/utils/cache.py:246-282 | the value becomes the latest; at capacity an oldest entry goes first and only then; the size bound holds |
| `DecisionCaches.DecisionCache.OldestKey` | libs/canon/src/canon/utils/cache.py:342-350 | no other entry is older |
| `DecisionCaches.DecisionCache.Invalidate` | libs/canon/src/canon/utils/cache.py:284-299 | the key is gone and reported as found exactly when it was there |
| `DecisionCaches.DecisionCache.InvalidateByPrefix` | libs/canon/src/canon/utils/cache.py:301-314 | exactly the entries whose key starts with the prefix go, with their number |
| `DecisionCaches.DecisionCache.InvalidateByTenant` | libs/canon/src/canon/utils/cache.py:316-329 | exactly the entries whose key contains the tenant between colons go, with their number |
| `DecisionCaches.DecisionCache.Clear` | libs/canon/src/canon/utils/cache.py:331-340 | everything goes, with its number |
| `DecisionCaches.TenantTest` | libs/canon/src/canon/utils/cache.py:316-329 | on keys without colons the tenant test holds exactly when the id, the tenant or the scope is the argument, so entries of other tenants can go too |
| `DecisionCaches.PrefixTest` | libs/canon/src/canon/utils/cache.py:301-314 | on keys without colons a prefix compares the kind, the id, the tenant and the scope, in this order |
| `DecisionCaches.DecisionCache.CleanupExpired` | libs/canon/src/canon/utils/cache.py:352-362 | exactly the expired entries go, with their number |
| `DecisionCaches.LatestMeans` | libs/canon/src/canon/utils/cache.py:217-244 | an entry is the latest exactly when it was put there and nothing touched its key since |
| `DecisionCaches.ServedIsLatest` | libs/canon/src/canon/utils/cache.py:217-244 | a value is served exactly when it was put under the key, nothing touched the key since, and its lifetime is not over |
| `DecisionCaches.KeyTextUnique` | libs/canon/src/canon/utils/cache.py:148-149 | a key without colons in its parts shares its slot with no other key at all |
| `DecisionCaches.KeyTextShared` | libs/canon/src/canon/utils/cache.py:148-149 | a key shares its slot with a key of another tenant exactly when one of its parts contains a colon |
| `Containers.Progression.Insert` | libs/kron/src/kron/core/progression.py:85-89 | the clamped Python insertion; the member set stays the set of the order |
| `Containers.Progression.Remove` | libs/kron/src/kron/core/progression.py:91-96 | the first occurrence goes; the member set follows only when it was the last |
| `Containers.Progression.Pop` | libs/kron/src/kron/core/progression.py:98-122 | the element at a possibly negative index goes, or nothing for a bad index |
| `Containers.Progression.SetItem` | libs/kron/src/kron/core/progression.py:184-189 | one position replaced; the member set stays exact |
| `Containers.Progression.Move` | libs/kron/src/kron/core/progression.py:233-246 | the element goes before what stood at the target; no identifier is lost, added or repeated |
| `Containers.Progression.Swap` | libs/kron/src/kron/core/progression.py:248-258 | two positions exchanged, the multiset unchanged |
| `Containers.Progression.Include` | libs/kron/src/kron/core/progression.py:266-277 | appended exactly when absent |
| `Containers.Progression.Exclude` | libs/kron/src/kron/core/progression.py:279-291 | the first occurrence goes if there is one |
| `Containers.MovedCount` | libs/kron/src/kron/core/progression.py:233-246 | moving preserves the multiset of identifiers |
| `Containers.MovedMeans` | libs/kron/src/kron/core/progression.py:233-246 | a moved identifier stands right before what stood at the target, or last, and the others keep their order |
| `Containers.RemoveFirstMeans` | libs/kron/src/kron/core/progression.py:91-96 | exactly the first occurrence goes and the others keep their order |
| `Containers.NormalMeans` | libs/kron/src/kron/core/progression.py:203-226 | valid indices run from minus the length up to the length |
| `Containers.Pile.Add` | libs/kron/src/kron/core/pile.py:177-185 | a new item goes last, a known one is refused; the order lists every key once |
| `Containers.Pile.Remove` | libs/kron/src/kron/core/pile.py:188-198 | the item and its place go; the order still lists every key once |
| `Containers.Pile.Update` | libs/kron/src/kron/core/pile.py:227-234 | the item is replaced in place |
| `Containers.Pile.Include` | libs/kron/src/kron/core/pile.py:245-255 | the item is in the pile afterwards and that is the answer; a new one goes last, an existing one is unchanged |
| `Containers.Pile.Exclude` | libs/kron/src/kron/core/pile.py:258-271 | the item and its place are gone afterwards and that is the answer |
| `Containers.Pile.GetByIndex` | libs/kron/src/kron/core/pile.py:321-324 | every order position leads to a stored item |
| `Containers.Flow.AddProgression` | libs/kron/src/kron/core/flow.py:178-203 | accepted exactly when the name is free, every reference is stored and the id is new; the name index stays exact |
| `Containers.Flow.RemoveProgression` | libs/kron/src/kron/core/flow.py:206-232 | the progression and its name go together |
| `Containers.Flow.AddItem` | libs/kron/src/kron/core/flow.py:264-295 | the item is stored and appended to the named progressions, or nothing changes; references stay valid |
| `Containers.WithItemMeans` | libs/kron/src/kron/core/flow.py:264-295 | every named progression gets the item at its end, once for each time it is named, and the others stay |
| `Containers.Flow.RemoveItem` | libs/kron/src/kron/core/flow.py:298-316 | one occurrence goes from every progression; the flow is in order afterwards exactly when none repeated the item |
| `Containers.RemovalIntegrity` | libs/kron/src/kron/core/flow.py:298-316 | removing one occurrence everywhere leaves no dangling reference exactly when no progression repeats the item |

## Left out

- Cancellation and `stop_on_error` in the executor, branch preallocation and streaming of partial results: every operation has a branch and none is cancelled.
- CharterExecutor.EveryRunIsSequential: phrase outcomes are a fixed function of the call, not of time; for jobs that are not calm the claim is false and `CharterSchedules.DeterministicIffCalm` gives the exact condition.
- Completion of a phase and its cascade are one atomic step of the runtime machine; only trigger calls are split into their reads and writes. The claim step, which is not part of the modelled files, moves a waiting phase to in progress.
- RuntimeRuns.SomePhaseIsActive: phases with a phase reference may have no other kind of require and only `passed` or `complete` conditions, since anything else is never or not reliably satisfied by the cascade (`RuntimeRuns.HopelessNeverActive`); entry phases may require anything.
- Storage: the rows of one run of one workflow are a map; SQL, tenants, connection handling, timestamps, notes, roles and grants of a row are not modelled.
- Feature, package, policy, trigger and role checks of the resolver, name suggestions and error texts: independent single-branch checks.
- Token positions: the lexer's line and column are modelled and its errors carry them, but tokens keep only kind and text, and parse errors carry no position.
- Characters are classified by ASCII ranges; float literals are kept as text; an integer literal is accepted only as plain digits.
- TextPrinter.WrittenLexes: the canonical text leaves out charters with an empty block, such as a phase that holds nothing but a docstring; comments are covered before a charter's text and, token by token, anywhere (`CharterComments.CommentSkipped`).
- BusinessCalendar.Calendar.Add: requires that there is an n-th business day to reach, since exactly otherwise (`BusinessCalendar.LoopEnds`) the source's loop does not end; overflow of the date type is not modelled.
- CharterParser.ParseTokens: takes token lists that end in EOF, whose text is empty, as the lexer leaves them; on other lists the source's parser may not halt.
- The builder's context inheritance, later `depends_on` calls, executed marks and branch references.
- Strict mode of the holiday loader: a missing file lists no dates, and codes are taken as already normalised.
- DecisionCaches.DecisionCache.InvalidateByTenant: the per-entry hit count, the lock and the environment configuration of the cache are not modelled.
- Containers.Flow.AddItem: progressions inside a flow are values named by identifier, so changes a caller makes through its own reference to a progression object are not captured; item type validation, serialization and asynchronous locks are not modelled.
- Piles with a custom order, slices and bulk queries of piles, and the remaining list operations of progressions (extend, clear, reverse, slice assignment, popleft) would only add easy members.
- Edge conditions of the graph are a fixed set of passing edges per call; neighbour queries and serialization of graphs are not modelled.
- Grants, inbox, evidence formatting, telemetry, service hooks, policy evaluation, constraints and vocabularies are not part of this model.
