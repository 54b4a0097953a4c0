# Lingxi runtime: verified model

Lingxi runs workflows: documents of nodes joined by data and control edges. A document without
control flow runs on an acyclic engine; any other runs on a token scheduler, which activates nodes
as control tokens and fresh data reach them, skips what can no longer be reached, drives bounded
loops through a gate node, and runs composite nodes as nested instances on the same event stream.
Agent nodes run a budgeted loop of model requests and tool calls and exchange messages over a
session bus. This project models the runtime's hard core in Dafny 4.11 and proves what it
guarantees over all documents, inputs, interleavings and runs.

Where the source updates state in place, the model has a class or a loop with the same fields and
branches, proved equal to a specification function over its state as a value; the theorems are
about those functions. What the runtime observes but does not decide (executors, cancellation,
pauses, the clock, the model provider, tools) is an oracle function of a growing tick, so a theorem
holds for every behaviour of the outside world.

| module | models |
|---|---|
| Workflow, Json, Text, Wrappers | documents with their adjacency lists, JSON values, string functions, shared notions |
| SchedulerSpec, SchedulerObject | `control_flow.rs` as functions over its state, and as the object that updates it |
| SchedulerCascade | the skip cascade is a least fixpoint |
| SchedulerExit | what a finished run reports about its nodes |
| SchedulerTrace | the event stream is well nested |
| SchedulerGate | the loop gate's protocol and budget |
| SchedulerStream, SchedulerLaw | the stores read off the event stream, and what each activation in it must look like |
| SchedulerLedger, SchedulerActivations, SchedulerLawful | every run's stream obeys that law, composites included |
| SchedulerIdle | a run that ends by itself leaves nothing to do |
| SchedulerOutcomes | what a run and a composite report, read off the stream |
| SchedulerTermination | when runs end, with a bound |
| ControlRuns, SchedulerExamples | turns of documents with control edges alone, and the runs behind the findings on the loop gate |
| Digraph, ExecutionOrder | Kahn's algorithm as a function, and on arrays |
| Engine, EngineOutcome, EngineAnswers | the acyclic engine's node loop, what it reports, and why |
| Dataflow, DataflowScheduler | engine and scheduler both compute the dataflow solution |
| BusSpec, AgentBus, BusDelivery | the message bus as functions and as an object, and its guarantees over histories |
| AgentConfig | configuration revisions of an agent, lock by lock |
| AgentRunner | the agent's model and tool loop |
| Conversation, ConversationTrimming | context trimming, incrementally and at one stroke |
| Utf8, AnthropicStream, AnthropicReplay, AnthropicCut | the streamed reply, from bytes on, against the plain one |
| AnthropicEncode | encoding a conversation into alternating turns |
| Calculator, CalculatorGrammar | the calculator tool against its grammar |
| JsonSchema | the schema validator and the tool argument check |

## Findings

Properties one might expect of the code that do not hold as such; each is stated with the exact
condition under which it does (that runs end, with a sufficient one), and most with an input on
which it does not.

- A broadcast that meets a full inbox is refused but stays queued for the recipients before it, and
  sending it again delivers it to them twice: `BusDelivery.RefusedSend` says exactly when a refused
  send leaves the queues alone, `BusDelivery.RetriedBroadcastArrivesTwice` gives a history.
- Edits of an agent's configuration made on the same revision carry the same number, and applying by
  number activates the first: `AgentConfig.AppliesLastEditIff`, `AgentConfig.SecondEditIsLost`.
- `apply_config` drops the state lock before it sets the pending slot, so an edit can reach the slot
  late and take the agent back to an older revision: `AgentConfig.LateWriteLowersIff` and
  `AgentConfig.RevisionNeverDecreases` say exactly when, `AgentConfig.LateEditGoesBack` gives a
  history from revision 3 to 2.
- A rejected submission is noted by a user message right after its reply, so when the same response
  holds further calls, the replies to that response are not contiguous: `AgentRunner.Settled`, which
  every request's transcript meets, says so in both directions; `AgentRunner.NoteBetweenReplies`
  gives a transcript.
- `finish_activation` leaves the log's copy of the message behind: `BusDelivery.FinishKeepsStepIff`,
  with a history in `BusDelivery.FinishedMessageIsBehind`.
- When a context node's first activation also appends, the drops of its initial messages are not
  reported: `ConversationTrimming.ReportsAddUpIff`, with a case in
  `ConversationTrimming.DropGoesUnreported`. An append that overflows loses the context for good:
  `ConversationTrimming.OverflowLosesContextIff` says exactly after which histories it is lost,
  `ConversationTrimming.SecondMessageLosesContext` gives one.
- `next` does not ask which gate opened the loop: `SchedulerGate.NextAdvancesAnyLoop` says exactly
  when a gate drives another's loop, and when past the other's budget;
  `SchedulerExamples.LoopPassesItsBudget` gives a run, and `SchedulerGate.LargestBudgetHolds` says
  what remains true.
- A document can pass validation and run for ever, each executor answering: `exit` is not rationed,
  so its edges may lead back to `stop`, or to a `start`. `SchedulerTermination.EveryRunEnds` asks for
  no cycle of triggering edges without `continue` and no path from a gate to a `start`;
  `SchedulerExamples.RunsForever` gives a document without the first of these, and its run.
- The one gate of a layer can be failed twice, never more: `SchedulerGate.GateFailsAtMostTwice` and
  `SchedulerGate.TimeoutFailsAgainIff` say exactly when, `SchedulerGate.SecondStartFailsTwice` how a
  second `start` leads there, and `SchedulerExamples.GateFailsTwice` gives a run.
- A composite's output may be bound to a port of a loop gate inside it, and validation accepts that,
  but a gate's outputs are not kept for it: `SchedulerOutcomes.DeliveredIff` says exactly which outputs
  a composite has, `SchedulerOutcomes.GateOutputIsDropped` that a gate's is never among them, and
  `SchedulerOutcomes.ExitNeverLeaves` gives a composite whose gate finishes with a value that the
  composite does not hand on.
- The stream decodes each chunk of bytes on its own, so a character cut by a chunk border is lost:
  `Utf8.ChunksDecodeIff` says exactly when a text survives, `Utf8.CutCharacterIsLost` gives one that
  does not; `AnthropicCut.CutCharacterChangesReply` gives a stream whose reply is not the plain one,
  for any codec that writes texts literally, and `AnthropicCut.OneReplyIsBroken` one such codec and
  what its reply says.
- Tool arguments are checked on their first level only: `JsonSchema.ConformsIffAcceptedAndRest` says
  exactly what acceptance leaves open, `JsonSchema.CoveredSchemasAreChecked` for which schemas that
  is nothing, `JsonSchema.AcceptedArgumentsMayNotConform` gives arguments accepted wrongly.
- The calculator's comment speaks of 512 bytes; the code counts characters, and the model follows
  the code: `Utf8.BytesAreCharactersIff` says exactly for which texts that is the same,
  `CalculatorGrammar.WideTextIsEvaluated` gives a longer text that is evaluated.

## Model

| member | source | states |
|---|---|---|
| Workflow.ListsAreEdges | crates/lingxi-runtime/src/control_flow.rs:124-136 | The adjacency lists built at construction hold exactly the edges into, and out of, a node, each once |
| SchedulerObject.BuildLists | crates/lingxi-runtime/src/control_flow.rs:124-137 | The construction loop yields, for every node, both lists in document order |
| SchedulerCascade.BlockedMonotone | crates/lingxi-runtime/src/control_flow.rs:346-440 | For a node that never ran, deactivating more edges never lifts a block |
| SchedulerCascade.CascadeIsLeastFixpoint | crates/lingxi-runtime/src/control_flow.rs:520-563 | The skip cascade reaches the least pair of settled nodes and inactive edges closed under blocking, also on cyclic graphs; every skip was forced: never run, lost an edge, blocked in the end |
| SchedulerCascade.CascadeIsOrderIndependent | crates/lingxi-runtime/src/control_flow.rs:520-540 | What a cascade settles and deactivates does not depend on the order of the adjacency lists or of the edges it starts from |
| SchedulerExit.PoppedIsNotBlocked | crates/lingxi-runtime/src/control_flow.rs:209-218 | A popped node that is found blocked has never run, although this branch, unlike the one that enqueues, does not check it |
| SchedulerExit.EnqueueGood | crates/lingxi-runtime/src/control_flow.rs:323-344 | Enqueueing keeps the books and the queue argument: every queued node that has run keeps an edge that will still be active when it is popped |
| SchedulerExit.PropagateGood | crates/lingxi-runtime/src/control_flow.rs:493-518 | Handing on outputs keeps the books and the queue argument |
| SchedulerExit.IterateGood | crates/lingxi-runtime/src/control_flow.rs:181-231 | One turn of the run loop, whichever branch it takes and however it ends, keeps the books, and the queue argument if the run goes on |
| SchedulerExit.EveryRunReports | crates/lingxi-runtime/src/control_flow.rs:180-233 | However an instance's run ends (done, failure, cancellation, timeout), it reports skipped exactly the nodes with activation count 0, each once, and reports failed only nodes that ran |
| SchedulerLedger.GoMayStart | crates/lingxi-runtime/src/control_flow.rs:346-440 | A node the scheduler finds ready may start, going by the event stream alone: once if nothing leads to it; with control edges or seeds on a control token, whatever data is pending; otherwise when no data is awaited and something has come since it last started |
| SchedulerLedger.TakesConsumed | crates/lingxi-runtime/src/control_flow.rs:442-491 | What an activation takes in is, port by port, the seed left for it or the value on the last of its edges that carries one, as the stream tells |
| SchedulerLedger.PropagateHands | crates/lingxi-runtime/src/control_flow.rs:493-518 | Handing on lays on each outgoing edge the value the Finished event has on its port; an absent port leaves a gate's edges as they are, clears a data edge and deactivates a control edge |
| SchedulerActivations.NodeDone | crates/lingxi-runtime/src/control_flow.rs:741-909 | An executor activation closes as its reply says: failed for a missing input, a denial or an error, with that code, cancelled, timed out under a deadline, or finished with the executor's outputs |
| SchedulerActivations.GateFinishCloses | crates/lingxi-runtime/src/control_flow.rs:1034-1216 | A gate that finishes hands on the value of the trigger it took, in the order stop, start, next, and on `value` exactly what it took on `value` |
| SchedulerActivations.GateIsDone | crates/lingxi-runtime/src/control_flow.rs:944-1216 | Every activation of an enabled gate is announced and closed so, and tells whether a loop is open after it |
| SchedulerActivations.SeedsAreBound | crates/lingxi-runtime/src/control_flow.rs:650-658 | Inside a composite exactly the bound ports are seeded, each with the input of its last binding |
| SchedulerActivations.OutputsAre | crates/lingxi-runtime/src/control_flow.rs:714-724 | A composite's outputs are what their sources last finished with inside, by the stream, and absent where a source has nothing on the port |
| SchedulerLawful.EveryInstanceKeepsItsRecord | crates/lingxi-runtime/src/control_flow.rs:180-233 | Of every instance, for any executors, clock and cancellation: while it runs, tokens, fresh marks, seeds, results, settled and failed nodes are what its part of the stream says, and when it ends the results still are |
| SchedulerLawful.EveryStreamIsLawful | crates/lingxi-runtime/src/control_flow.rs:202-231 | In the stream of any run, at every depth: each activation was due, took in what the stores held for it, and closed by its law, an executor's by the executor's reply, a gate's by its trigger and value, a composite's by what was said inside it |
| SchedulerIdle.NothingIsLeftToDo | crates/lingxi-runtime/src/control_flow.rs:202-207 | When a run ends because nothing is ready, every control token in store lies on an edge into a node that is settled or has a required data edge inactive, and no other node that only data leads to has news while it awaits nothing |
| SchedulerOutcomes.StatusIsTold | crates/lingxi-runtime/src/control_flow.rs:235-242 | The status of a finished run by its stream: cancelled if an activation was, and only then or when the run was stopped; otherwise failed exactly when an activation failed |
| SchedulerOutcomes.TimesOutIff | crates/lingxi-runtime/src/control_flow.rs:186-200 | A run that ended timed out exactly if one of its turns found the deadline it is under passed with no loop open |
| SchedulerOutcomes.CompositeFailsIff | crates/lingxi-runtime/src/control_flow.rs:688-736 | Unless it is cancelled, a composite fails exactly if something failed inside or the nested run ran out of time, with the code of the first failure inside, and finishes otherwise; the nested deadline is the sooner of the loop's and the instance's own |
| SchedulerOutcomes.DeliveredIff | crates/lingxi-runtime/src/control_flow.rs:714-736 | A composite that finishes has an output exactly when a source bound to it, which is no gate, last finished inside with a value on the bound port |
| SchedulerOutcomes.GateOutputIsDropped | crates/lingxi-runtime/src/control_flow.rs:714-736 | In every run an output bound to a gate's ports alone is missing from what the composite hands on |
| SchedulerOutcomes.ExitNeverLeaves | crates/lingxi-runtime/src/control_flow.rs:1175-1213 | A composite around a gate: the gate finishes with the value on `exit`, which the composite's output is bound to, and the composite finishes with nothing |
| SchedulerTrace.NodeQuiet | crates/lingxi-runtime/src/control_flow.rs:741-909 | An executor activation opens and closes exactly one numbered activation of its node and leaves the stream well nested |
| SchedulerTrace.CompositeTraced | crates/lingxi-runtime/src/control_flow.rs:565-739 | A composite activation, with the whole nested run inside it, closes exactly one activation of the composite at its own level |
| SchedulerTrace.EveryStreamIsWellNested | crates/lingxi-runtime/src/event.rs:446-503 | The event stream of any run is numbered 0, 1, 2, ... and accepted by the monitor: per instance Started numbers count up from 1, each is closed by one Finished, Failed or Cancelled before the next Started of that level, only a composite's activation has events below it, every scope is the stack of open composites, and the counts are those the run reports |
| SchedulerGate.GateContinues | crates/lingxi-runtime/src/control_flow.rs:1034-1079 | One continue moves the gate's protocol to exactly the iteration it is tagged with |
| SchedulerGate.EveryLoopObeysItsBudget | crates/lingxi-runtime/src/control_flow.rs:944-1216 | In a layer with one gate, after any number of turns, whether the run ends or not, the gate's closed activations follow the protocol: continue for iterations 1, 2, 3, ... without gaps and within maxIterations, until an exit or a failure, after which nothing continues or exits, and the only failure that can follow is the time out of a loop the first one left open |
| SchedulerGate.BudgetEndsTheRun | crates/lingxi-runtime/src/control_flow.rs:1105-1136 | A next with the budget used up fails the gate and ends the run |
| SchedulerGate.FailuresAreCounted | crates/lingxi-runtime/src/control_flow.rs:1003-1216 | A log that follows the protocol fails its gate at most twice, and twice exactly when a loop that an earlier failure left open times out |
| SchedulerGate.GateFailsAtMostTwice | crates/lingxi-runtime/src/control_flow.rs:180-233 | So in every run of a layer with one gate the gate fails at most twice, and twice exactly in that case |
| SchedulerGate.TimeoutFailsAgainIff | crates/lingxi-runtime/src/control_flow.rs:1248-1254 | When the open loop's deadline passes, that is its gate's second failure exactly if the gate was settled before, its first one otherwise |
| SchedulerGate.NextAdvancesAnyLoop | crates/lingxi-runtime/src/control_flow.rs:944-1174 | An activation of any gate raises the open loop's iteration exactly on next alone, in time and within that gate's own budget; so it drives a loop past the budget of the gate that opened it exactly when, in time, that budget is spent and the activated gate allows more; the owner never changes |
| SchedulerGate.LargestBudgetHolds | crates/lingxi-runtime/src/control_flow.rs:944-1174 | With any number of gates, however long the run is observed, an open loop's iteration stays within the largest of their budgets |
| SchedulerExamples.LoopPassesItsBudget | crates/lingxi-runtime/src/control_flow.rs:1081-1174 | In the run of a document that validation accepts, the loop of a gate that allows one iteration reaches its second |
| SchedulerExamples.GateFailsTwice | crates/lingxi-runtime/src/control_flow.rs:1011-1033 | In every long enough run of another such document, without any input from outside, the gate fails exactly twice |
| SchedulerGate.SecondStartFailsTwice | crates/lingxi-runtime/src/control_flow.rs:1011-1033 | A second start is one way to that state: it fails the gate and leaves the loop open, and the time out that follows fails the gate again under the next activation number |
| SchedulerTermination.GoIsDue | crates/lingxi-runtime/src/control_flow.rs:346-440 | A ready node either never ran or has a control token or fresh mark waiting on a triggering edge |
| SchedulerTermination.StartInputDue | crates/lingxi-runtime/src/control_flow.rs:442-491 | A gate that receives start as an input has a start token in store |
| SchedulerTermination.WorkDrops | crates/lingxi-runtime/src/control_flow.rs:442-518 | An activation that does not continue a loop uses up more pending work, weighted by rank, than it makes |
| SchedulerTermination.GateFuseDrops | crates/lingxi-runtime/src/control_flow.rs:944-1216 | A gate activation never makes new starts possible, and one that takes a start uses it up |
| SchedulerTermination.ActivateDescends | crates/lingxi-runtime/src/control_flow.rs:220-230 | Every activation that lets the run go on lowers the measure: starts left, laps left, work left |
| SchedulerTermination.TurnToll | crates/lingxi-runtime/src/control_flow.rs:202-231 | Every turn of the run loop lowers the measure extended by unsettled nodes and the queue |
| SchedulerTermination.EveryRunEnds | crates/lingxi-runtime/src/control_flow.rs:180-233 | If, layer by layer and with any number of gates, every cycle of triggering edges uses a gate's continue, no path of them leads from a gate to a start, and composite bindings stay off wired ports, then some bound on turns suffices for every run, whatever executors, clock and cancellation do |
| SchedulerExamples.RunsForever | crates/lingxi-runtime/src/control_flow.rs:1175-1216 | A document that validation accepts and whose run, with every executor answering, has not ended after any number of turns: the gate's exit leads back to its stop, a cycle that avoids continue |
| ControlRuns.EvaluateIs | crates/lingxi-runtime/src/control_flow.rs:346-440 | In a document of control edges alone a node is never blocked, and ready exactly when a token waits for it or nothing leads to it and it has not run |
| ControlRuns.EnqueueShows | crates/lingxi-runtime/src/control_flow.rs:323-344 | There the pass over all nodes appends the nodes that became ready, in document order, and changes nothing else |
| ControlRuns.TurnShows | crates/lingxi-runtime/src/control_flow.rs:180-233 | There one turn of the run loop does to queue, tokens, nodes run, settled gates and loop what the step on their snapshot does |
| SchedulerObject.Stream.Emit | crates/lingxi-runtime/src/event.rs:485-497 | Each event takes the next number of the stream shared by all instances, and the emitter's scope |
| SchedulerObject.Scheduler.constructor | crates/lingxi-runtime/src/control_flow.rs:112-170 | A new instance: empty stores, counts at 0, adjacency lists as built |
| SchedulerObject.Scheduler.Prepare | crates/lingxi-runtime/src/control_flow.rs:172-178 | Disabled nodes are skipped in document order before the run |
| SchedulerObject.Scheduler.Evaluate | crates/lingxi-runtime/src/control_flow.rs:346-440 | The one-pass flag loop decides readiness as the quantified definition does |
| SchedulerObject.Scheduler.EnqueueReady | crates/lingxi-runtime/src/control_flow.rs:323-344 | The pass over all nodes queues the ready and skips the blocked that never ran |
| SchedulerObject.Scheduler.ConsumeInputs | crates/lingxi-runtime/src/control_flow.rs:442-491 | Control tokens, control seeds and fresh marks are used up, data stays latched, and a later edge into a port wins |
| SchedulerObject.Scheduler.PropagateOutputs | crates/lingxi-runtime/src/control_flow.rs:493-518 | Outputs are laid as tokens; an absent port is deferred at a gate, clears a data latch, or deactivates a control edge |
| SchedulerObject.Scheduler.DeactivateOutgoing | crates/lingxi-runtime/src/control_flow.rs:520-524 | All edges out of a node are deactivated in turn |
| SchedulerObject.Scheduler.DeactivateEdge | crates/lingxi-runtime/src/control_flow.rs:526-540 | An edge goes inactive once, and skips its target if that never ran and is now blocked |
| SchedulerObject.Scheduler.SkipNode | crates/lingxi-runtime/src/control_flow.rs:542-563 | A node is settled and reported skipped once, and its edges deactivated; the recursion ends on any graph |
| SchedulerObject.Scheduler.RunComposite | crates/lingxi-runtime/src/control_flow.rs:565-739 | The nested instance runs on the same stream with bound inputs as seeds, and its outcome becomes the composite's |
| SchedulerObject.Scheduler.RunNode | crates/lingxi-runtime/src/control_flow.rs:741-909 | One executor activation in all its outcomes: missing input, denied, cancelled, timed out, failed, finished |
| SchedulerObject.Scheduler.FailStarted | crates/lingxi-runtime/src/control_flow.rs:911-942 | The failure is reported, listed once, and the node settled and its edges deactivated |
| SchedulerObject.Scheduler.HandleGate | crates/lingxi-runtime/src/control_flow.rs:944-1001 | The gate's budget and trigger are checked in the source's order: stop, start, next |
| SchedulerObject.Scheduler.StartLoop | crates/lingxi-runtime/src/control_flow.rs:1010-1079 | start opens the loop at iteration 1, or fails if one is open |
| SchedulerObject.Scheduler.NextIteration | crates/lingxi-runtime/src/control_flow.rs:1080-1174 | next continues, or fails on no loop, on time out, or on a spent budget |
| SchedulerObject.Scheduler.StopLoop | crates/lingxi-runtime/src/control_flow.rs:1175-1213 | stop exits with the iteration count and closes the loop before handing on |
| SchedulerObject.Scheduler.FailGateTimeout | crates/lingxi-runtime/src/control_flow.rs:1218-1241 | The gate is started and failed with the timeout code and the loop closed |
| SchedulerObject.Scheduler.FailLoopTimeout | crates/lingxi-runtime/src/control_flow.rs:1248-1254 | The open loop's gate gets one more activation, which fails |
| SchedulerObject.Scheduler.SettleUnreached | crates/lingxi-runtime/src/control_flow.rs:1256-1263 | At the end every node that never ran is skipped |
| SchedulerObject.Scheduler.Iterate | crates/lingxi-runtime/src/control_flow.rs:181-200 | The safe point: cancellation, pause and deadline in that order, then a turn |
| SchedulerObject.Scheduler.Run | crates/lingxi-runtime/src/control_flow.rs:180-233 | The run loop on the object's fields does what the run function says |
| SchedulerObject.Scheduler.Status | crates/lingxi-runtime/src/control_flow.rs:235-242 | The status reported: cancelled before failed before completed |
| Digraph.KahnIsCompleteIffAcyclic | crates/lingxi-runtime/src/engine.rs:528-569 | Taking the least ready node again and again reaches every node exactly when the graph is acyclic, and then every edge goes forward |
| Digraph.KahnIsLexicographicallyLeast | crates/lingxi-runtime/src/engine.rs:528-569 | Of all topological orders it gives the lexicographically least |
| ExecutionOrder.Adjacency | crates/lingxi-runtime/src/engine.rs:537-547 | The first loop counts indegrees and lists targets, and stops on a self-loop or a missing endpoint |
| ExecutionOrder.Take | crates/lingxi-runtime/src/engine.rs:557-562 | Lowering the targets' indegrees keeps the counts and the ready set exact, also with parallel edges |
| ExecutionOrder.Drain | crates/lingxi-runtime/src/engine.rs:549-563 | The heap loop computes the least-first order |
| ExecutionOrder.ExecutionOrder | crates/lingxi-runtime/src/engine.rs:530-569 | An order exactly when endpoints exist and the graph is acyclic; then a permutation with every edge forward, the least by document position |
| Engine.FindBlocker | crates/lingxi-runtime/src/engine.rs:265-268 | The first incoming edge, in document order, whose source has no output |
| Engine.GatherInputs | crates/lingxi-runtime/src/engine.rs:297-315 | The inputs in document order, or nothing at the first edge without a value |
| Engine.RunOrder | crates/lingxi-runtime/src/engine.rs:208-457 | The node loop does what the fold over the order says, up to cancellation |
| Engine.Execute | crates/lingxi-runtime/src/engine.rs:176-465 | The engine runs a document without control flow exactly when it is acyclic, along a topological order |
| EngineOutcome.VisitOnce | crates/lingxi-runtime/src/engine.rs:242-456 | One visit gives its node exactly one story in the event stream and leaves every other node alone |
| EngineOutcome.EveryNodeHasOneOutcome | crates/lingxi-runtime/src/engine.rs:208-457 | However the run ends, every node before its last position has exactly one of finished, failed and skipped, in the lists and in the stream; later nodes have none, and the node at it was at most broken off by cancellation |
| EngineOutcome.StartedIffNothingBadBehind | crates/lingxi-runtime/src/engine.rs:208-465 | Unless cancelled, a node is started exactly when it is enabled and no disabled or failed node lies on a path to it, and the nodes without output are closed under edges |
| EngineAnswers.EveryFateIsExplained | crates/lingxi-runtime/src/engine.rs:208-457 | Every node's story in the stream has its reason: disabled, cut off by the first unavailable source, an edge without a value, or the policy's and the executor's reply to the values its edges carry |
| EngineAnswers.AnswersDecide | crates/lingxi-runtime/src/engine.rs:297-457 | A started node fails exactly if an edge into it has no value, the policy denies it or its executor answers with an error, which is the code in the stream; it finishes exactly if the executor answers with outputs, which are then its own |
| EngineAnswers.StatusIsTold | crates/lingxi-runtime/src/engine.rs:459-465 | The run is failed exactly if it was not cancelled and the stream tells of a failure |
| Dataflow.SolutionIsUnique | crates/lingxi-runtime/src/engine.rs:297-315 | An acyclic document has at most one assignment of outputs in which every node has what its kind computes from what its edges carry |
| Dataflow.EngineSolves | crates/lingxi-runtime/src/engine.rs:208-457 | With data edges only and obliging executors the engine runs every node and ends with that assignment, completed |
| DataflowScheduler.EvaluateIsTurnable | crates/lingxi-runtime/src/control_flow.rs:346-440 | On such a document a node is ready exactly when it has not run and all its sources have |
| DataflowScheduler.SchedulerSolves | crates/lingxi-runtime/src/control_flow.rs:180-233 | The scheduler, too, activates every node exactly once, skips and fails nothing, and ends with that assignment |
| DataflowScheduler.EngineAgreesWithScheduler | crates/lingxi-runtime/src/engine.rs:167-179 | Engine and scheduler end with the same outputs on every such document |
| AgentBus.AgentBus.RegisterInstance | crates/lingxi-runtime/src/agent_bus.rs:196-213 | A new name joins the members at its place in the sorted map; a known one changes nothing |
| AgentBus.AgentBus.Send | crates/lingxi-runtime/src/agent_bus.rs:405-503 | send in all its outcomes, with recipients enqueued one by one and nothing taken back, and the log trimmed with the map |
| AgentBus.AgentBus.Enqueue | crates/lingxi-runtime/src/agent_bus.rs:505-523 | An inbox is opened and takes the id unless it is full |
| AgentBus.AgentBus.Receive | crates/lingxi-runtime/src/agent_bus.rs:527-563 | The popped ids that still resolve, marked delivered in the map and then in the log |
| AgentBus.AgentBus.Acknowledge | crates/lingxi-runtime/src/agent_bus.rs:565-597 | A final status set in map and log, or an error |
| AgentBus.AgentBus.FinishMessage | crates/lingxi-runtime/src/agent_bus.rs:372-376 | The terminal message's status is set in the map only |
| BusDelivery.EveryStateIsConsistent | crates/lingxi-runtime/src/agent_bus.rs:405-597 | In every reachable state the log's ids are distinct and are the map's keys, entries differ at most in status, the log is within message_limit and every inbox within queue_limit |
| BusDelivery.EachKeyOnce | crates/lingxi-runtime/src/agent_bus.rs:413-424 | An idempotency key is accepted at most once ever, also after its message was evicted |
| BusDelivery.FinishKeepsStepIff | crates/lingxi-runtime/src/agent_bus.rs:372-376 | Log and map keep the same statuses exactly when the finished activation names no message, an unknown one, or one already completed |
| BusDelivery.RefusedSend | crates/lingxi-runtime/src/agent_bus.rs:470-474 | A refused send changes no message, key or log entry, and no queue exactly when it fails a check or meets a full inbox first; a direct send never does |
| BusDelivery.DeliveryIsFaithful | crates/lingxi-runtime/src/agent_bus.rs:405-563 | For any interleaving of registrations and calls with message ids never reused: what a recipient received, followed by what its inbox still resolves to, is an order-preserving, duplicate-free subsequence of what was accepted for it, and whatever is missing has left the log |
| BusDelivery.RecipientsAreAddressed | crates/lingxi-runtime/src/agent_bus.rs:457-470 | A broadcast is for every registered agent but its sender, another message for the agent it names, and one to the user for none |
| BusDelivery.OthersAreTheRest | crates/lingxi-runtime/src/agent_bus.rs:457-463 | Its recipients keep the order of the session's map |
| BusDelivery.RetryQueuesTwice | crates/lingxi-runtime/src/agent_bus.rs:472-474 | A broadcast refused after reaching an inbox, sent again, is queued there twice |
| BusDelivery.RetriedBroadcastArrivesTwice | crates/lingxi-runtime/src/agent_bus.rs:472-474 | A history from a fresh session in which a broadcast is refused, sent again and accepted once, and handed to one agent twice |
| AgentConfig.ConfigBook.PushRevision | crates/lingxi-runtime/src/agent_bus.rs:637-686 | Under the state lock: an edit checked against the active revision supersedes the pending one and joins the history as pending |
| AgentConfig.ConfigBook.ApplyConfig | crates/lingxi-runtime/src/agent_bus.rs:631-689 | The edit joins the history and then, with the lock dropped, goes into the pending slot; a refused edit does neither |
| AgentConfig.ConfigBook.MarkApplied | crates/lingxi-runtime/src/agent_bus.rs:691-725 | The first revision with the number is applied, whatever its status |
| AgentConfig.ConfigBook.RejectConfig | crates/lingxi-runtime/src/agent_bus.rs:727-740 | The first revision with the number is rejected |
| AgentConfig.ConfigBook.TakePendingConfig | crates/lingxi-runtime/src/agent_bus.rs:116-121 | The slot is emptied and its configuration handed out |
| AgentConfig.ConfigBook.ApplyPendingConfig | crates/lingxi-runtime/src/agent_runner.rs:709-752 | The runner takes the pending slot and then marks by number |
| AgentConfig.AtMostOnePending | crates/lingxi-runtime/src/agent_bus.rs:679-684 | Whatever the calls and however their locked steps interleave, at most one edit of an agent is pending |
| AgentConfig.RevisionNeverDecreases | crates/lingxi-runtime/src/agent_runner.rs:709-723 | For any interleaving of edits, rejections and the runner's two calls in which no edit reaches the slot after a newer one is active or taken, the active revision number never decreases |
| AgentConfig.AtomicIsNeverLate | crates/lingxi-runtime/src/agent_bus.rs:685-688 | No edit does when nothing comes between the two halves of apply_config |
| AgentConfig.LateWriteLowersIff | crates/lingxi-runtime/src/agent_bus.rs:685-688 | After any history, an edit that reaches the slot and is taken and marked lowers the active revision exactly when it came that late |
| AgentConfig.HistoryHoldsEdits | crates/lingxi-runtime/src/agent_bus.rs:662-684 | In any history the revisions under one number are exactly the edits accepted while the revision before was active, in order |
| AgentConfig.MarkActivatesFirstEdit | crates/lingxi-runtime/src/agent_bus.rs:709-722 | In any history, marking activates the first edit accepted on the revision before, however many were accepted on it since |
| AgentConfig.AppliesLastEditIff | crates/lingxi-runtime/src/agent_runner.rs:716-723 | With apply_config atomic, the slot holds the last of those edits and the runner activates the first, so the last settings become active exactly when they are the first edit's settings, too |
| AgentConfig.SingleEditIsApplied | crates/lingxi-runtime/src/agent_runner.rs:716-723 | After any such history, a single edit made on the active revision is what the runner activates |
| AgentConfig.SecondEditIsLost | crates/lingxi-runtime/src/agent_bus.rs:662-684 | After any such history, of two edits made on the active revision before the runner's safe point the first becomes active and the second stays pending in the history but in no slot |
| AgentRunner.CallRejected | crates/lingxi-runtime/src/agent_runner.rs:307-320 | A rejected submission is answered, and its note breaks the run of replies exactly when calls of the same response are still to come |
| AgentRunner.DrainDirectives | crates/lingxi-runtime/src/agent_runner.rs:754-774 | Appends exactly one user message for each directive taken, in order, and changes nothing else |
| AgentRunner.RejectSubmission | crates/lingxi-runtime/src/agent_runner.rs:307-320 | One rejected submission is answered as an error and noted; the second ends the run and adds nothing |
| AgentRunner.RunTool | crates/lingxi-runtime/src/agent_runner.rs:323-424 | A tool runs only within maxToolCalls and while the run is active; its reply, with the outcome the tool gave, is appended under its call's id; how it ends the run is stated outright |
| AgentRunner.AnswerCalls | crates/lingxi-runtime/src/agent_runner.rs:290-425 | The calls before some position are answered in order, each with its own reply and a rejected submission with its note, and the one at it, if there is one, ends the run for the reason its verdict gives |
| AgentRunner.BeforeRequest | crates/lingxi-runtime/src/agent_runner.rs:159-180 | A turn takes on the configuration pending at its safe point, appends exactly the directives taken, begins within its maxIterations and counts one iteration and one model call; for each way it can end, exactly when |
| AgentRunner.Request | crates/lingxi-runtime/src/agent_runner.rs:228-429 | What one response leads to, for each of its outcomes exactly when: the transcript goes on with the model's own answer and the replies to its calls, or the run ends; a submission that ends it was offered by the model |
| AgentRunner.AskForRepair | crates/lingxi-runtime/src/agent_runner.rs:262-281 | Prose without a call is kept and answered by one repair request |
| AgentRunner.RunAgent | crates/lingxi-runtime/src/agent_runner.rs:149-429 | The loop ends; every request is the one before, the response to it, the replies to its calls with the outcome each tool gave, the notes, and then the directives taken at that turn; replies are in call order (contiguously unless a response went on after a rejected submission), with at most one repair request and one rejection note; model calls equal iterations and stay within maxIterations, tools within maxToolCalls; why it ended is stated outright |
| AgentRunner.RunActivation | crates/lingxi-runtime/src/agent_runner.rs:149-429 | Without a demand on its caller: an activation whose configuration does not change stays within its own maxIterations and maxToolCalls, any other within the 32-bit range of those settings, and all that RunAgent promises holds |
| Conversation.EnforceLimits | crates/lingxi-runtime/src/conversation.rs:150-183 | The trimming loop removes the oldest non-system message until the limits hold, or fails |
| Conversation.PushMessages | crates/lingxi-runtime/src/conversation.rs:79-83 | Messages are pushed one by one with the limits enforced after each, up to the first failure |
| Conversation.ContextStore.Init | crates/lingxi-runtime/src/conversation.rs:62-86 | A fresh handle with the messages kept, or an error that stores nothing |
| Conversation.ContextStore.Update | crates/lingxi-runtime/src/conversation.rs:88-122 | Messages and tool results appended to the entry, which is put back only on success |
| Conversation.ContextStore.UpdateNode | crates/lingxi-runtime/src/services.rs:250-316 | A node's first activation initialises and may append at once; later ones append |
| ConversationTrimming.LeastCut | crates/lingxi-runtime/src/conversation.rs:150-183 | The position from which the longest suffix that fits is kept |
| ConversationTrimming.EnforceMovesCut | crates/lingxi-runtime/src/conversation.rs:150-183 | Enforcing the limits moves the cut to the least one that fits, counts what it drops, and fails exactly when the system messages alone do not fit |
| ConversationTrimming.PushIsBatch | crates/lingxi-runtime/src/conversation.rs:139-183 | Message by message or at one stroke: all system messages and the longest suffix of the rest that fits, in order, with the same drop count and the same error; under Error, all or nothing |
| ConversationTrimming.ActivationsAreBatch | crates/lingxi-runtime/src/services.rs:250-316 | Any split of a conversation into activations stores what the whole would leave and fails exactly when the whole would, and then the node is left without an entry for its handle exactly when the first activation alone would have fit; reported drops add up but for what the first activation does not report |
| ConversationTrimming.ReportsAddUpIff | crates/lingxi-runtime/src/services.rs:296-311 | The reported drops add up exactly when the first activation's initial messages fit or nothing was appended with them |
| ConversationTrimming.OverflowLosesContextIff | crates/lingxi-runtime/src/conversation.rs:97-112 | For every history: the context is there exactly when the limits hold what may not be dropped of all that was given; it is lost, and every later activation fails with an unknown handle and changes nothing, exactly when they held that of the first activation but not of the whole |
| AnthropicStream.Complete | crates/lingxi-runtime/src/anthropic.rs:313-464 | The two nested loops over chunks and lines, each chunk decoded on its own, with cancellation and network errors between chunks, do what the stream function says |
| AnthropicStream.PlainReplyIsItsBlocks | crates/lingxi-runtime/src/anthropic.rs:494-543 | The plain reply's text and reasoning are those of its blocks in order, with no reasoning exactly when there is none in them, and its calls are its tool_use blocks in order |
| AnthropicReplay.ChunkingDoesNotMatter | crates/lingxi-runtime/src/anthropic.rs:321-332 | Streams that carry the same text and break off in the same way, or not at all, give the same result however they are split into chunks |
| Utf8.LossyInvertsEncode | crates/lingxi-runtime/src/anthropic.rs:329-329 | Decoding the bytes of a text gives the text (RFC 3629) |
| Utf8.ChunksDecodeIff | crates/lingxi-runtime/src/anthropic.rs:329-329 | A text sent as bytes in chunks, each decoded on its own, comes out as it was exactly when every chunk is the encoding of some text |
| Utf8.BytesAreCharactersIff | crates/lingxi-runtime/src/tools.rs:441-447 | A text has as many bytes as characters exactly when all of them are below U+0080 |
| Utf8.AsciiIsWhole | crates/lingxi-runtime/src/anthropic.rs:329-329 | Bytes below 0x80 are whole characters, so such a text may be cut anywhere |
| AnthropicReplay.ReceivedIff | crates/lingxi-runtime/src/anthropic.rs:321-332 | The text the line loop sees is the text sent exactly when no chunk ends inside a character |
| AnthropicCut.CutCharacterChangesReply | crates/lingxi-runtime/src/anthropic.rs:321-332 | For every codec that writes texts literally: the same bytes, cut inside a character, give a reply other than parse_message's, namely the plain reply of the message with U+FFFD twice in the letter's place |
| AnthropicReplay.RenderedIsRead | crates/lingxi-runtime/src/anthropic.rs:330-345 | From a text of `data:` lines, with any white space around the line and the payload, and harmless lines exactly its events are read, in order |
| AnthropicReplay.SilentLinesAreHarmless | crates/lingxi-runtime/src/anthropic.rs:333-341 | Lines without data, and events no branch handles, change no state |
| AnthropicReplay.EventsGiveMessage | crates/lingxi-runtime/src/anthropic.rs:345-464 | The events of a message, blocks split into parts at will, lead to the response of its plain form |
| AnthropicReplay.StreamingIsPlainParsing | crates/lingxi-runtime/src/anthropic.rs:494-543 | For every message, every split of text, thinking and tool JSON into deltas, every choice of harmless lines and white space and every way to receive the text in chunks, streaming returns exactly what parse_message returns: text, reasoning, tool calls in order, stop reason and usage |
| AnthropicReplay.WholeChunksArePlainParsing | crates/lingxi-runtime/src/anthropic.rs:313-464 | In particular for every split of the text's bytes into chunks none of which ends inside a character |
| AnthropicEncode.EncodeContent | crates/lingxi-runtime/src/anthropic.rs:102-156 | Parts become blocks in order, or the first part that cannot be encoded fails the message |
| AnthropicEncode.Merge | crates/lingxi-runtime/src/anthropic.rs:199-212 | Blocks join the last turn of the same role or open a new one; what is said, and the alternation, are kept |
| AnthropicEncode.CallsComeLast | crates/lingxi-runtime/src/anthropic.rs:178-191 | After an assistant's own content comes one block for each of its calls, in order, with the call's id, name and arguments |
| AnthropicEncode.EncodeMessages | crates/lingxi-runtime/src/anthropic.rs:158-220 | The turns say, role by role and block by block, what the non-system messages say; no two assistant turns are adjacent, and two user turns only where the second opens with a tool result; it fails exactly when some message cannot be encoded |
| Calculator.Parser.ParseExpression | crates/lingxi-runtime/src/tools.rs:492-507 | Sums from the left, in floating point; leaves the position after them |
| Calculator.Parser.ParseTerm | crates/lingxi-runtime/src/tools.rs:509-527 | Products from the left; division by zero fails |
| Calculator.Parser.ParseFactor | crates/lingxi-runtime/src/tools.rs:529-564 | Signs, parentheses and numbers |
| Calculator.EvaluateText | crates/lingxi-runtime/src/tools.rs:444-462 | The whole text within 512 characters and with a finite value, or an error, for every way to round |
| Calculator.NumeralIsRead | crates/lingxi-runtime/src/tools.rs:548-559 | Reading inverts writing: the usual numeral of a number is read as that number |
| Calculator.NumberIsRead | crates/lingxi-runtime/src/tools.rs:548-559 | A decimal number is what its digits say, divided by ten as often as there are digits after the point |
| Calculator.WholeNumberIsRead | crates/lingxi-runtime/src/tools.rs:548-559 | Without a point it is what its digits say |
| Calculator.SumsAreExtended | crates/lingxi-runtime/src/tools.rs:492-507 | Sums and differences as IEEE 754 has them (sections 6.1 and 7.2): opposite infinities have none, another infinity decides, and what rounding leaves alone is exact |
| Calculator.ProductsAreExtended | crates/lingxi-runtime/src/tools.rs:509-527 | Products and quotients as IEEE 754 has them: zero times infinity and infinity over infinity have none, otherwise the signs multiply |
| Calculator.ExactProduct | crates/lingxi-runtime/src/tools.rs:509-527 | A product or quotient that rounding leaves alone is exact |
| CalculatorGrammar.EverySpellingEvaluates | crates/lingxi-runtime/src/tools.rs:444-564 | Every spelling of an arithmetic tree, with any white space before each token and at the end, evaluates to the tree's floating-point value, or fails where it divides by zero or is not finite, for every way to round |
| CalculatorGrammar.EverySuccessIsSpelled | crates/lingxi-runtime/src/tools.rs:444-564 | Every success is the value of some tree that spells the whole text |
| CalculatorGrammar.ReadingsAgree | crates/lingxi-runtime/src/tools.rs:492-527 | Two trees spelled by the same text have the same value |
| CalculatorGrammar.WideTextIsEvaluated | crates/lingxi-runtime/src/tools.rs:441-447 | A text of 512 characters, most of them three bytes long, is evaluated |
| CalculatorGrammar.EvaluateInvertsPrint | crates/lingxi-runtime/src/tools.rs:444-564 | Evaluating the printed form of any tree, with parentheses only where precedence and left association need them, gives its meaning |
| JsonSchema.CheckType | crates/lingxi-runtime/src/agent_protocol.rs:627-642 | The type keyword, one name or a list; a list without names puts no constraint |
| JsonSchema.TypeMatchesIff | crates/lingxi-runtime/src/agent_protocol.rs:706-717 | A value matches exactly the type names it has, by its kind, and every name that is no type; 1.0 is a number and no integer |
| JsonSchema.CheckRequired | crates/lingxi-runtime/src/agent_protocol.rs:671-678 | Every required key that is absent is reported |
| JsonSchema.CheckExtra | crates/lingxi-runtime/src/agent_protocol.rs:686-698 | Keys without a property schema are reported when additional properties are refused |
| JsonSchema.ValidateJsonSchema | crates/lingxi-runtime/src/agent_protocol.rs:617-704 | Only appends to the violations, and appends nothing exactly when the value conforms to the schema, at every depth |
| JsonSchema.ValidateArguments | crates/lingxi-runtime/src/tools.rs:155-188 | Accepts exactly the argument objects whose first level meets the rules |
| JsonSchema.ConformsIffAcceptedAndRest | crates/lingxi-runtime/src/tools.rs:155-252 | For every schema and every arguments: they conform exactly when they are accepted and meet what the check leaves out, which is spelled out keyword by keyword |
| JsonSchema.ConformingArgumentsAreAccepted | crates/lingxi-runtime/src/tools.rs:155-252 | So conforming arguments are accepted |
| JsonSchema.CoveredSchemasAreChecked | crates/lingxi-runtime/src/tools.rs:155-252 | For a schema all of whose keywords the check looks at, acceptance is conformance, whatever the arguments |

## Left out

- SchedulerSpec.Run: takes a number of turns to observe (and `fuel` for nested runs) because Dafny functions are total; `Cut` marks a run not ended by then, and SchedulerTermination.EveryRunEnds says when a bound exists that is never reached.
- SchedulerTermination.EveryRunEnds: one direction; a layer that misses its conditions may still end, because a cycle is never entered or a gate on it fails first. Validation alone does not give them (SchedulerExamples.RunsForever).
- SchedulerGate.EveryLoopObeysItsBudget: stated for layers with one gate, and false with several (SchedulerExamples.LoopPassesItsBudget); SchedulerGate.LargestBudgetHolds is stated for any number.
- SchedulerIdle.NothingIsLeftToDo: what a node that only data leads to still awaits is read before the run's last turn, because skipping the nodes never reached deactivates edges of its own: a value that was awaited is not awaited any more in the final state, although no turn follows.
- SchedulerLawful.EveryStreamIsLawful: the stream does not tell the time, so of a composite under a deadline it says only that it may fail for it; SchedulerOutcomes.CompositeFailsIff says exactly when, by the turns of the nested run.
- ControlRuns.TurnShows: a turn in which the loop is in time and the node, if a gate, opens, goes round or leaves a loop, or is started again with no edge behind it; the other ways of a gate are in SchedulerGate.
- Validation: of its checks the model has those on a control document's edges, cycles, gates and budgets, as a condition that the example documents meet (`crates/lingxi-spec/src/validation.rs:778-1131`).
- Node and edge ids are positions in the document, and a composite carries its definition: validation establishes unique ids, existing endpoints, registered kinds and non-recursive composites, so the code's branches for their absence are not modelled.
- Event wording, labels, durations, `RunStarted`, `RunFinished` and the log lines around a run; events that an executor emits on its own.
- The 32-bit width of the loop iteration and the 64-bit width of activation counts and sequence numbers: counters are unbounded; budgets keep the iteration below the 64-bit limit.
- AnthropicStream.Complete: the callback that hands on each piece of text as it arrives is not modelled.
- JSON printing and parsing of a stream's payload is a pair of functions that are inverse on the events sent; `serde_json` itself is not part of this model.
- Calculator.EvaluateText: rounding is a parameter, any function from exact results to floats, so the theorems hold for IEEE 754 and do not depend on it; floats do not tell the two zeros apart.
- Floating point in the schema checks: bounds and values are compared as exact reals, without the conversion to 64-bit floats.
- JsonSchema.ValidateJsonSchema: says that violations are only appended, and when none is; which violations appear in which order is left to the loops.
- AgentBus: a registered agent's display data, pausing, reviews, artifacts, session state and a bus without a session, which would only add easy members; payload validation is an oracle field of the message.
- AgentRunner.RunAgent: request building (system prompt, media merging, tool definitions), language servers and event emission; the transcript is what the activation appends after its history and instruction.
- AgentConfig: settings are one opaque value, equal exactly when `diff` finds no change; an agent has one runner at a time, as its node runs one activation at a time.
- Token and call accounting in `services.rs` beside the context store: a few counters, which would only add easy members.
- Permissions, workspaces, providers' HTTP, assets, skills, the user interface, and the other two stream parsers, which repeat the one modelled.
