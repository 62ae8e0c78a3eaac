# A verified model of the RAGFlow workflow engine and its graph, tree and support code

This project models the parts of RAGFlow with the most state and branching, and proves what they keep over every
input, every run and every interleaving. Code that changes objects step by step is modelled by classes and loops
whose contracts tie each new state to a function of the old one; the theorems are lemmas about those functions.

## How the files fit together

| files | what they model |
|---|---|
| `Design`, `Scheduler`, `Canvas` | `Canvas.run`: the wiring of a canvas, one batch as a function on states, and the object that does it in place |
| `CanvasRuns`, `CanvasSteps`, `CanvasAccounts` | what every state of every run keeps: inputs come first, entries are reachable, every next step is taken, positions are processed once, events balance |
| `Termination`, `StructuredCanvas`, `ForkedCanvas`, `CanvasEnds`, `EndlessLoops` | when a run stops, for loops nested to any depth and forks that stay apart, the unbounded outer loop, and a canvas on which it never stops |
| `ControlReturns`, `SampleCanvas` | which wiring of a body keeps a run from ending in the middle of it; the repository's own iteration canvas, which meets the conditions of all these theorems |
| `LoopItems`, `LoopConditions`, `IterationItems` | the counters that drive the back edges, the termination conditions, the collected outputs |
| `LoopRuns`, `IterationRuns` | loops and iterations with a chain as their body inside a run: the scheduler and the item together |
| `VariableStore` | references such as `component@name.key.key`, reading and writing them |
| `Graphs`, `MergeOrder`, `MergedContents`, `Subgraphs`, `GraphIndex`, `IndexRecords`, `ClusterMerge`, `ClusterContents`, `Walks` | the knowledge graph: merging, order of merging, what is kept of every name, splitting and rebuilding, the index beside it, how many records it holds over the life of a knowledge base, merging entity clusters, growing paths |
| `Similarity`, `EntityResolution` | which entities are judged and which end up in one cluster |
| `Raptor` | the layer loop of the RAPTOR tree |
| `McpSession` | the request queue of an MCP session as an interleaved protocol |
| `Crypto` | padding, CBC, and the encrypt/decrypt round trip |
| `MetaFilter`, `MetadataUpdate` | filtering by metadata, merging metadata |
| `SheetNames`, `SheetTables` | Markdown tables to uniquely named sheets |
| `Common`, `Options` | small notions that several models share |

A run of the scheduler is a sequence of states, each one batch after the one before (`Scheduler.IsRun`). Whatever a
component does when it is invoked (its error, what still streams, the route it picks, the list an iteration reads,
the verdict of termination conditions) is a `Reply` chosen freely for every path position, so a statement about all
replies is a statement about all behaviours of the components. `CanvasRuns.RunHasStates` and `RunStates` connect such
runs with the bounded loop that the `Canvas` object executes.

## What the proofs found

Each of these is a lemma; the code is modelled as it is.

- Two loops that are each entered from two branches never stop when both allow two passes: the two visits of an item
  in one batch step its counter 0, 1, 2 and in the next 2, -1, 0, so no visit ever sees -1 (`EndlessLoops.NeverStops`).
  A structured canvas, whose only cycles run from a body back to its item, stops whatever the replies as long as the
  iterated lists have a bounded length and no container can be reached from two entries of the same fork
  (`ForkedCanvas.ForkedRunsStop`). All but the bound can be read off the wiring; it allows any fan-out with loops in
  each branch, joins of exclusive routes, joins that lead to no container, and every canvas without forks, and it shuts
  out the shared loops (`EndlessLoops.LoopsAreShared`). The converse is not claimed: a canvas outside the condition may
  still stop, because two branches that share a loop only disturb its counter if they enter it in the same batch and the
  number of visits in a batch makes the counter step over its end. That depends on the lengths of the branches, on which
  entries wait for inputs, and on the maxima, not on the wiring alone.
- Control can be lost inside a body. A component without a next step goes back to the item by itself, but a container
  does not: when an inner container with an empty downstream ends, the run is over and the outer loop never continues
  (`ControlReturns.OuterItemIsNext`). The same goes for an empty route and for an item without a body. A body whose
  wiring has none of these is always left by the container's downstream (`ControlReturns.ControlIsNotLost`), and the
  condition is exact (`ControlReturns.KeepsGoingMeans`, `LastBatch`).
- A loop without termination conditions never runs its body under the default "and" (`LoopItems.PassesCounted`); a loop
  entered again after it ended gets one pass more (`LoopItems.ReentryGivesOneMore`).
- A bool is an int, so the branch for bools in `evaluate_condition` is never reached and "is" on a bool raises
  (`LoopConditions.WhatIsEvaluated`); on a missing value "is" and "is not" are both false
  (`LoopConditions.OppositesDisagree`).
- A dotted write is never read back at its own path, only at the path with the last key doubled
  (`VariableStore.DottedReadsBackDoubled`); a write to an output without a name is not read back at all
  (`VariableStore.RootReadsBack`).
- (a, b) and (b, a) are meant to be one record, but the first graph is indexed with its edges as it lists them and later
  merges write the normal pair beside it: both are on record if and only if a later graph has an edge that the first one
  listed the other way round (`IndexRecords.OneOrderPerEdge`; `BothOrdersHappen` exhibits it, with index and graph still
  in agreement by names). An index whose pairs are all normal stays so (`MergeKeepsNormal`).
- set_graph never deletes the old record of what it updates, and every record gets a fresh id: a node has one record for
  every graph that brought it, so each node has one record if and only if no two graphs share a node
  (`IndexRecords.OneRecordPerNode`), and likewise for edges (`OneRecordPerEdge`).
- Merging a cluster of entities does not record the edges to new neighbours, so the index loses track of them; the
  index stays in step if and only if there is no new neighbour and no relation to be deleted is stored with its names
  reversed (`ClusterMerge.ClusterAgreement`; `HiddenEdge` and `StaleRecord` exhibit both failures). A new neighbour of
  several absorbed nodes keeps only the weight of the last one (`NewNeighborKeepsLastWeight`).
- "or" in `meta_filter` gives nothing at all when the first filter that applies matches nothing
  (`MetaFilter.OrIsUnionUnlessFirstFails`), so the order of the filters matters (`OrDependsOnOrder`).
- The top layer of a RAPTOR tree is empty if and only if there were no usable chunks or the layer below has two chunks
  and their summary failed without reaching the error limit (`Raptor.TreeBuilder.Build`); `Raptor.EmptyTop` reaches it.
- A sheet can end up with an empty name: a table under the title ":" does (`SheetTables.ColonIsCleanedAway`). Some sheet
  of an export has one if and only if the title of some table that parses is removed within its first 31 characters
  (`SheetTables.Export`).

## Model

| member | source | states |
|---|---|---|
| Design.FindStart | agent/component/loop.py:46-51 | get_start finds the first component, in canvas order, that is an item of the right kind inside the container, and nothing exactly when there is none |
| Design.GetStart | agent/component/iteration.py:52-57 | on a well-formed canvas every container has a start item that belongs to it |
| CanvasObject.Canvas.constructor | agent/canvas.py:402-404 | a run starts from the path of earlier turns, with "begin" appended unless it ends at a UserFillUp |
| CanvasObject.Canvas.MustWait | agent/canvas.py:432-445 | an entry waits exactly when any of its inputs names a component that no earlier position of the path holds, it is no Begin or UserFillUp, and the path does not begin at a UserFillUp |
| CanvasObject.Canvas.Scan | agent/canvas.py:426-448 | the in-place scan of a batch leaves exactly what the pruning function leaves |
| CanvasObject.Canvas.Gather | agent/canvas.py:456-457 | invoking the batch moves exactly the item counters, each by its own rule |
| CanvasObject.Canvas.Drain | agent/canvas.py:552-557 | late finished events are sent for exactly the longest front of the deferred queue that no longer streams, in order |
| Scheduler.Drained | agent/canvas.py:552-557 | the drained front is the longest one: everything in it has stopped streaming and the next node still streams |
| CanvasObject.Canvas.ExtendThePath | agent/canvas.py:581-594 | appending a list skips an id equal to the last entry and nothing else |
| CanvasObject.Canvas.TakeError | agent/canvas.py:559-569 | an error goes to the goto list, to the default message, or into the run's error, in that order of preference |
| CanvasObject.Canvas.ReportNode | agent/canvas.py:571-579 | a node that still streams is deferred unless the run has failed; every other node that is no container finishes now |
| CanvasObject.Canvas.AppendSuccessors | agent/canvas.py:596-609 | the successors of a position are appended unless an exception branch was taken; an ending item finishes its container and leaves by the container's downstream |
| CanvasObject.Canvas.PostProcess | agent/canvas.py:488-609 | one position's post-processing is the composition of the four stages |
| CanvasObject.Canvas.Collect | agent/canvas.py:476-486 | start events, pruning and invocation of one batch |
| CanvasObject.Canvas.RunBatch | agent/canvas.py:475-616 | one iteration of the outer loop is one step of the state machine |
| CanvasObject.Canvas.Run | agent/canvas.py:471-631 | the loop reaches the state that many batches reach and, when it came to its end, leaves the final path in self.path |
| CanvasRuns.RunStates | agent/canvas.py:475-614 | state k of a run is what k batches make of its first state; the executed part is always a prefix of the path |
| CanvasRuns.RunHasStates | agent/canvas.py:475-614 | whatever the bounded loop reaches is the last state of a run |
| CanvasRuns.InputsComeFirst | agent/canvas.py:426-457 | at every point of every run, each component that an executed entry refers to stands at some earlier position of the path, unless the entry is a Begin or UserFillUp or the path begins at a UserFillUp |
| CanvasRuns.NothingIsPopped | agent/canvas.py:438 | in a path that begins at a UserFillUp no entry is popped |
| CanvasRuns.PruneIsMaximal | agent/canvas.py:436-441 | pruning pops as little as possible: any subsequence of the batch that could run in that order is still a subsequence of what is left |
| CanvasRuns.ScheduledIsReachable | agent/canvas.py:563-609 | every scheduled entry is reached by a walk along wiring of the canvas (downstream, goto, route, container start, loop re-entry, container exit) from the entry the run began at, which is "begin" unless a UserFillUp is resumed |
| CanvasRuns.RunIsCaused | agent/canvas.py:563-609 | every entry beyond the first has an executed cause earlier in the path, and pops and appends never break this |
| CanvasRuns.RunKeepsItsStart | agent/canvas.py:426-441 | the entry a run began at, and everything before it, is never popped |
| CanvasSteps.RunBegins | agent/canvas.py:402-474 | a run begins at the last entry of the earlier path if that is a UserFillUp, and at a new "begin" otherwise |
| CanvasSteps.FillUpIds | agent/canvas.py:403 | an id with "userfillup" in it, in small or capital letters, counts as a UserFillUp; one without a u does not |
| CanvasSteps.PostTakesNext | agent/canvas.py:559-609 | post-processing a position adds nothing but what comes next after it, by the wiring, the reply and the counters, and all of that stands in the path from the position on |
| CanvasSteps.ExtendIsOrdered | agent/canvas.py:581-594 | a list is appended in its order, only leaving out entries |
| CanvasSteps.PostSends | agent/canvas.py:493-599 | exactly the events one position sends, in order: a Message's content and the late finished events up to the first node that still streams, the default of an error, the node's own finished event unless it is put off, and the container's when its item is over |
| CanvasSteps.VisitMoves | agent/component/iterationitem.py:35-60 | how a visit moves the counter of a loop or iteration item, the raising cases included |
| CanvasSteps.StepsAreTaken | agent/canvas.py:559-609 | in every run, whatever comes next after an executed entry is in the path by the end of the batch |
| CanvasSteps.PausesForInput | agent/canvas.py:611-630 | a batch pauses the run if and only if nothing failed and a UserFillUp is pending |
| CanvasSteps.BatchStarts | agent/canvas.py:476-485 | a batch first sends a started event for each of its entries, in order, also for those it then pops |
| CanvasAccounts.EachPositionOnce | agent/canvas.py:475-614 | the post-processed positions of a run are exactly the executed ones, each once, in order |
| CanvasAccounts.FailureKeepsGoodBatches | agent/canvas.py:611-631 | a failed run keeps exactly the path of the fully processed batches, and no batch before the last one had set an error |
| CanvasAccounts.FailsOnUnhandledError | agent/canvas.py:560-613 | a batch fails the run if and only if one of its positions reports an error with neither a goto list nor a default value |
| CanvasAccounts.SuccessKeepsThePath | agent/canvas.py:631 | a run that ends by itself keeps its whole path |
| CanvasAccounts.PauseReorders | agent/canvas.py:616-630 | a paused run leaves exactly the entries not yet executed, first those of kind UserFillUp, of which there is at least one, then those of other kinds |
| CanvasAccounts.ReorderingKeepsAll | agent/canvas.py:617-618 | reordering for the pause neither loses nor repeats an entry |
| CanvasAccounts.ReorderingIsStable | agent/canvas.py:617-618 | both halves keep their order |
| CanvasAccounts.FinishedEventsBalance | agent/canvas.py:552-579 | at every point, executed positions of non-containers equal their finished events plus the deferred nodes, and late events follow the order of deferral |
| Termination.InvokePays | agent/canvas.py:414-457 | invoking a batch never raises the potential: stepping a counter is paid from the passes it had left |
| Termination.PostPays | agent/canvas.py:488-609 | post-processing a position pays for everything it appends and loses at least one unit |
| Termination.RunPays | agent/canvas.py:475-614 | the number of executed positions is bounded by the fall of the potential |
| Termination.RunStops | agent/canvas.py:475-614 | after more batches than the potential the run has ended |
| StructuredCanvas.StructuredIsAffordable | agent/canvas.py:596-609 | every canvas whose only cycles lead from a body back to its item, at the end of the body or by a next step that names the item, has prices for the potential, however deep loops are nested |
| StructuredCanvas.StructuredRunsStop | agent/canvas.py:475-614 | on such a canvas one bound, known before any reply, limits the length of every run over lists of bounded length that visits no item twice in a batch; ForkedRunsStop replaces that assumption by one about the wiring |
| StructuredCanvas.SequentialIsOrderly | agent/canvas.py:593-609 | where no step appends more than one entry, no batch visits an item twice |
| StructuredCanvas.SequentialRunsStop | agent/canvas.py:475-614 | the special case without forks: such a canvas stops on every input with lists of bounded length, including all loop and iteration back edges; ForkedRunsStop is the general theorem |
| ForkedCanvas.ForksAreOrderly | agent/canvas.py:581-609 | when no container can be reached from two entries of one list of next steps, no batch of any run visits an item twice |
| ForkedCanvas.ForkedRunsStop | agent/canvas.py:475-614 | on a structured canvas of that wiring one bound, known before any reply, limits the length of every run over lists of bounded length, with forks and loops nested to any depth |
| ForkedCanvas.SequentialIsApart | agent/canvas.py:593-609 | the condition holds wherever no step forks |
| CanvasEnds.RunToEnd | agent/canvas.py:471-631 | on such a canvas the outer loop, without any bound of its own, ends, and leaves the final path in self.path |
| ControlReturns.KeepsGoingMeans | agent/canvas.py:596-609 | inside a container, the condition on the wiring of a component (no empty route, an item has a body, an inner container names a next step) holds if and only if no reply that picks one of its routes and no ending visit leaves it without another entry to go on to, other than by leaving the container |
| ControlReturns.LastBatch | agent/canvas.py:581-609 | a batch of one entry without an error is the last of the run if and only if that entry's successors name no other entry |
| ControlReturns.OuterItemIsNext | agent/canvas.py:596-599 | when an inner container ends, the item around it is next if and only if the container's downstream is that item, and the run is over if and only if the downstream is empty |
| ControlReturns.ControlIsNotLost | agent/canvas.py:475-614 | on a structured canvas, a run that was inside a container whose whole body, at any depth, keeps going, and that has come to its end without errors, pops or a pause, has left the container, and went on with its downstream |
| SampleCanvas.SampleMeetsConditions | agent/test/dsl_examples/iteration.json:2-80 | the repository's iteration canvas, whose last body component names the item as its next step, is well-formed, structured, forks apart, is a chain iteration, and keeps going |
| EndlessLoops.NeverStops | agent/component/loopitem.py:35-46 | on a structured canvas with two loops entered from two branches each there are runs of every length, from fresh counters |
| EndlessLoops.LoopsAreShared | agent/canvas.py:593-594 | that canvas fails exactly the condition on forks |
| EndlessLoops.NamesExist | agent/canvas.py:475-614 | names for that canvas exist, so the counterexample is not empty |
| LoopItems.LoopItem.Invoke | agent/component/loopitem.py:35-46 | a visit steps the counter, or sets it to -1 when the maximum is reached |
| LoopItems.LoopItem.End | agent/component/loopitem.py:123-155 | the loop ends when the counter is -1, or under "and" all conditions hold, or under "or" some condition holds, and then the counter is -1 |
| LoopItems.RunLoop | agent/component/loopitem.py:35-46 | visiting until the end gives exactly the counted number of passes and leaves -1 |
| LoopItems.PassesCounted | agent/component/loopitem.py:123-155 | the body runs until the first visit whose conditions ask for the end or until maximum minus counter passes are spent, whichever is first; without conditions the default "and" ends the loop before its first pass |
| LoopItems.ReentryGivesOneMore | agent/component/loopitem.py:35-46 | a fresh loop gives `maximum` passes, a loop entered again after its end one more |
| LoopRuns.OneStep | agent/canvas.py:475-616 | what one batch with a single admitted entry and no error does to path, counters and status |
| LoopRuns.RunsItsTurns | agent/canvas.py:596-609 | for loops and iterations alike: from the item of a container whose body is a chain that ends without a next step or names the item, the executed path is the whole chain and the item again, as many times as counter, limit and conditions allow, and then the container's downstream, with the counter at -1 and no other counter changed |
| LoopRuns.LoopRunsItsPasses | agent/component/loopitem.py:35-46 | for a loop, that number is the passes its item gives by itself under its conditions |
| LoopRuns.IterationRunsItsElements | agent/component/iterationitem.py:35-60 | for an iteration over a list of unchanged length, that number is the length less the counter: n passes and n+1 visits from a fresh counter |
| LoopRuns.VisitStands | agent/canvas.py:596-607 | visit v of the item stands v laps after the first, with the counter v further on |
| IterationRuns.IterateOnCanvas | agent/component/iterationitem.py:35-88 | the Canvas and the item together, over an unchanged list of length n: n+1 visits at the ends of the laps, elements 0..n-1 in order, every output whose ref names a child collects that child's output after each of the n laps in order, and the run leaves by the container's downstream with both counters at -1 |
| LoopConditions.WhatIsEvaluated | agent/component/loopitem.py:48-121 | exactly which operators each kind of value knows, and which comparisons also depend on the kind of the other value; "is" and "is not" raise on a bool, "=" compares it as a number |
| LoopConditions.TextOperators | agent/component/loopitem.py:49-65 | what contains, start with, end with, is and empty ask of a text |
| LoopConditions.NumberOperators | agent/component/loopitem.py:67-83 | what =, > and < ask of numbers, a bool counting as one or zero; a number is never empty |
| LoopConditions.CollectionOperators | agent/component/loopitem.py:95-115 | what contains, is and empty ask of lists, and empty of dictionaries |
| LoopConditions.SameMeans | agent/component/loopitem.py:101-108 | equal values: numbers by what they count, lists item by item, dictionaries key by key |
| LoopConditions.SameIsEquality | agent/component/loopitem.py:101-108 | that equality is reflexive, symmetric and transitive |
| LoopConditions.OppositesDisagree | agent/component/loopitem.py:48-121 | opposite operators are both defined or both not, and give opposite verdicts if and only if the value is not missing or the pair is empty/not empty |
| LoopConditions.WhatIsJudged | agent/component/loopitem.py:128-142 | a condition compares what its variable reads with its constant or with what its other reference reads; one without variable or operator is incomplete |
| LoopConditions.FirstErrorWins | agent/component/loopitem.py:129-142 | the first condition that raises decides, whatever follows |
| LoopConditions.End | agent/component/loopitem.py:123-155 | `end` with all its errors: verdict, error kinds and their order, and a counter that only a true verdict changes |
| IterationItems.IterationItem.Invoke | agent/component/iterationitem.py:35-60 | one visit: what is raised, which element and index are shown, how the counter moves, and when outputs are collected, including the last element shown at counter -1 |
| IterationItems.IterationItem.OutputCollation | agent/component/iterationitem.py:62-85 | every parent output whose ref names a child grows by exactly that child's current output, all others stay |
| IterationItems.RunIteration | agent/component/iterationitem.py:35-88 | the item by itself, visited until it ends: over an unchanged list of length n: n+1 visits, elements 0..n-1 in order, and every output with a ref ends with n more entries, the k-th from pass k |
| VariableStore.GetParam | agent/canvas.py:206-233 | the loop over the keys reads what stepping key by key reads, through dictionaries, lists, JSON strings and attributes |
| VariableStore.ReadsAre | agent/canvas.py:206-233 | what one key reads: a field, an item from the front or from the back, what JSON text says, an attribute, and nothing where there is nothing |
| VariableStore.WriteReadsBackDoubled | agent/canvas.py:255-265 | a write to keys k1..kn is read at k1..kn.kn |
| VariableStore.WriteDoesNotReadBack | agent/canvas.py:255-265 | reading k1..kn itself gives a dictionary around the value, never the value |
| VariableStore.WriteKeepsOthers | agent/canvas.py:255-265 | a path that leaves the target after j keys reads as before if those keys led through dictionaries, and nothing otherwise |
| VariableStore.GotMeans | agent/canvas.py:189-204 | what a reference reads before its keys: a global, an output, an empty text for an output that is not there, all outputs for the empty name |
| VariableStore.Variables.GetVariable | agent/canvas.py:189-204 | reading by reference: global, whole output or dotted path, and the errors |
| VariableStore.Variables.SetVariable | agent/canvas.py:235-253 | writing by reference changes exactly what the specification says and nothing on an error |
| VariableStore.WriteFails | agent/canvas.py:235-265 | a write fails exactly for a reference with two @, an unknown component, or a dotted path into a value without keys |
| VariableStore.RootReadsBack | agent/canvas.py:247-249 | a whole write reads back if and only if the output has a name |
| VariableStore.DottedReadsBackDoubled | agent/canvas.py:250-253 | the same two facts through references |
| VariableStore.WriteKeepsOtherOutputs | agent/canvas.py:235-253 | other outputs, other components and globals read as before |
| VariableStore.DottedKeepsOthers | agent/canvas.py:250-265 | other paths of the same output read as before, or nothing where the write replaced a value |
| VariableStore.ParsedFormatted | agent/canvas.py:190-199 | parsing the text of a reference, in any number of braces, gives the reference back |
| Graphs.FromToIsUnordered | graphrag/utils.py:188-192 | (a, b) and (b, a) have one normal pair, and no other pair shares it |
| Graphs.GraphMerge | graphrag/utils.py:195-225 | the in-place merge gives the merged graph for every iteration order, records exactly g2's nodes and normal edges, and removes nothing |
| Graphs.RankNodes | graphrag/utils.py:219-220 | every node's rank becomes its degree and nothing else changes |
| Graphs.MergedIsValid | graphrag/utils.py:195-225 | a merge of graphs with normal edges between existing nodes is one |
| MergedContents.MergedNodes | graphrag/utils.py:197-205 | a node of both graphs keeps its type and has "old<SEP>new" as its text and both source lists; a node of one graph keeps all but its rank |
| MergedContents.MergedEdges | graphrag/utils.py:207-222 | the same for edges, with the weights added and the keywords joined, and for the graph's documents |
| MergedContents.NodeOfList | graphrag/utils.py:195-205 | after merging a list, a node's text is the join, in list order, of what the graphs that have it say |
| MergedContents.TypeOfList | graphrag/utils.py:197-205 | and its type is the one the first of them tells |
| MergedContents.EdgeOfList | graphrag/utils.py:207-217 | the same for the texts of edges |
| MergedContents.RanksCountEnds | graphrag/utils.py:219-220 | the ranks of all nodes add up to twice the number of edges, self-loops counting twice at their node |
| MergeOrder.MergeAdds | graphrag/utils.py:195-225 | merging adds totals: source ids, keywords and documents as multisets, weights as sums |
| MergeOrder.MergeOrderIsIrrelevant | graphrag/utils.py:195-225 | any two orders of merging the same graphs give the same nodes, edges, summed weights, multisets of sources, and ranks equal to degrees |
| MergeOrder.MergedRanks | graphrag/utils.py:219-220 | after any merge every rank is the degree in the result |
| Subgraphs.RebuildGraph | graphrag/utils.py:648-685 | reading pages of 256, at most 1024 of them, composes exactly the first stored subgraphs that are not excluded; no node means no graph |
| Subgraphs.RebuildOfSplit | graphrag/utils.py:495-511 | rebuilding the split of a graph gives it back restricted to the listed documents that are not excluded, in whatever order they are stored |
| Subgraphs.WhatSurvives | graphrag/utils.py:648-685 | a node survives iff it carries a document that is listed and not excluded, with exactly those as sources; an edge iff its ends share one; all other attributes are unchanged |
| Subgraphs.ExcludingIsForgetting | graphrag/utils.py:666-670 | rebuilding with exclusions is rebuilding from a list without the excluded documents |
| GraphIndex.DocStore.DeleteFor | graphrag/utils.py:439-463 | every graph and subgraph record is deleted, every entity record of a removed node and every relation record of a removed pair in its stored order; all others stay in their old numbers |
| GraphIndex.DocStore.SetGraph | graphrag/utils.py:435-574 | how many of every record there are after set_graph: the survivors in their old numbers, and one more for the graph, for each time it lists a document, for each added node and for each added edge that it has, also where the record was there already; so the graph is on record once, its documents' subgraphs as often as it lists them, and no other graph or subgraph is; an added node missing from the graph inserts nothing |
| GraphIndex.MergingKeepsAgreement | graphrag/utils.py:195-216 | if entity and relation records agree with the graph by names, they agree by names after a merge and set_graph with the change it recorded; which order and how many records there are is in IndexRecords |
| GraphIndex.FirstGraphAgrees | graphrag/general/index.py:486-489 | the first graph's index agrees although its edges are recorded in any order, whatever stale graph and subgraph records there were |
| GraphIndex.MergeSubgraph | graphrag/general/index.py:471-497 | merging a document's subgraph, into the old graph or as the first one, gives the merged graph, the records that set_graph leaves in their numbers, and keeps graph and index in agreement by names |
| IndexRecords.MergeKeepsNormal | graphrag/utils.py:188-216 | a merge leaves all relation records in normal order if and only if they were before, and then (a, b) and (b, a) are never both on record |
| IndexRecords.BothOrdersAfterMerge | graphrag/utils.py:207-208 | after a merge both orders of an edge are on record if and only if the reversed one was before and the normal one was too or comes with the merged graph |
| IndexRecords.NumbersOfHistory | graphrag/general/index.py:482-497 | after the first graph and any number of merges, every node has one entity record for each graph that brought it, and every pair one relation record for the first listing and one for each later graph with that edge |
| IndexRecords.OneRecordPerNode | graphrag/utils.py:435-574 | no node has two records if and only if no two of the graphs share a node |
| IndexRecords.OneRecordPerEdge | graphrag/utils.py:435-574 | no edge has two records, in whatever order of its names, if and only if no two of the graphs share an edge |
| IndexRecords.OneOrderPerEdge | graphrag/general/index.py:486-489 | after any number of merges no edge is on record under both orders if and only if no later graph has an edge that the first graph listed the other way round |
| IndexRecords.HistoryAgrees | graphrag/general/index.py:482-497 | index and graph agree by names after the first graph and after every merge |
| IndexRecords.HistoryHasOneGraph | graphrag/utils.py:439-511 | after the first graph and after every merge the merged graph is the only graph on record, with the subgraphs of its documents |
| IndexRecords.BothOrdersHappen | graphrag/general/index.py:486-489 | two documents with the same edge, listed in reverse order the first time: index and graph agree by names, both orders are on record and a node has two records |
| GraphIndex.SetGraphExists | graphrag/utils.py:435-574 | set_graph has a result whenever the nodes to be added exist |
| ClusterMerge.MergeGraphNodes | graphrag/general/extractor.py:281-318 | the in-place merge of a cluster gives the folded graph and records exactly these removed and added nodes and edges; the graph stays valid |
| ClusterMerge.FoldedKeys | graphrag/general/extractor.py:292-316 | the folded graph has the edges that touch no absorbed node, and an edge from the first node to every outside neighbour of an absorbed one |
| ClusterMerge.ClusterAgreement | graphrag/general/extractor.py:300-315 | the index agrees after a cluster merge if and only if the first node gets no new neighbour and no deleted relation is on record reversed |
| ClusterMerge.MergedClusterIsValid | graphrag/general/extractor.py:292-316 | a cluster merge keeps edges normal and between existing nodes |
| ClusterMerge.HiddenEdge | graphrag/general/extractor.py:314-315 | a graph, its agreeing index, and the index after a cluster merge that brings a new neighbour: it no longer agrees |
| ClusterMerge.StaleRecord | graphrag/general/extractor.py:301 | the same for a merge without a new neighbour whose deleted relation is on record reversed |
| ClusterMerge.ClustersKeepAgreement | graphrag/entity_resolution.py:157-171 | any number of cluster merges into one change keep agreement under the same conditions |
| ClusterContents.ClusterNodes | graphrag/general/extractor.py:296-318 | the first node keeps its type and rank, its text is the summary of all the cluster's texts in order, its sources are all sources, sorted, each once; every node left over is as it was |
| ClusterContents.ClusterEdges | graphrag/general/extractor.py:304-313 | the edge to an old neighbour takes in the texts of the absorbed edges in order, summarized each time, and all their keywords and sources |
| ClusterContents.ClusterLeavesEdges | graphrag/general/extractor.py:296-316 | edges away from the cluster stay as they were |
| ClusterContents.SortedSetMeans | graphrag/general/extractor.py:299 | sorted(set(...)) has the same members in strictly ascending order |
| ClusterMerge.OldNeighborKeepsWeight | graphrag/general/extractor.py:304-313 | an old neighbour ends with the sum of its weights to the whole cluster |
| ClusterMerge.NewNeighborKeepsLastWeight | graphrag/general/extractor.py:314-315 | a new neighbour ends with the edge of the last absorbed node joined to it |
| Walks.IsContinuousSubsequence | graphrag/utils.py:577-595 | true exactly when the two names stand next to each other in this order |
| Walks.MergeTuples | graphrag/utils.py:598-616 | the loop returns exactly the extensions of each path, or the path itself |
| Walks.MergedTuplesMean | graphrag/utils.py:598-616 | the results are exactly these: a path whose last name is new to it and that some pair continues over an edge it has not used becomes all such continuations, every other path stays |
| Walks.MergingKeepsWalks | graphrag/utils.py:598-616 | every result is a walk that repeats no undirected edge and extends one input by at most one edge, and every input begins some result |
| Walks.RoundsReachFixpoint | graphrag/utils.py:598-616 | after as many rounds as there are undirected edges nothing changes any more |
| Similarity.WhatIsSimilar | graphrag/entity_resolution.py:270-294 | no digit in other surroundings, and then at most half as many edits as the shorter English name has characters, or enough characters in common |
| Similarity.SimilarIsSymmetric | graphrag/entity_resolution.py:280-294 | similarity does not depend on the order of the pair |
| Similarity.SimilarKeepsDigits | graphrag/entity_resolution.py:270-282 | similar names share every two-character piece that has a digit |
| Similarity.SimilarToItself | graphrag/entity_resolution.py:284-294 | a name is similar to itself unless it is not English and has a single distinct character |
| EntityResolution.CandidatesMean | graphrag/entity_resolution.py:96-98 | the candidates are exactly the similar pairs of different positions, in node order |
| EntityResolution.Batches | graphrag/entity_resolution.py:140-145 | the batches are the candidates cut, in order, into pieces of 100 and a rest |
| EntityResolution.ProcessResults | graphrag/entity_resolution.py:243-268 | exactly the question numbers from 1 to the length of the batch that some record answers with yes |
| EntityResolution.ResolveCandidate | graphrag/entity_resolution.py:232-241 | exactly the approved pairs of the batch are added; no answer adds nothing |
| EntityResolution.PlainBfs | graphrag/entity_resolution.py:166-167 | the walk of a component sees exactly the nodes linked by a chain |
| EntityResolution.GroupByType | graphrag/entity_resolution.py:89-94 | every node is in the group of its type and in no other |
| EntityResolution.Resolve | graphrag/entity_resolution.py:139-171 | the sets to merge are disjoint, have two members and one type each, and are the classes of the chains of approved pairs; the approved pairs are those of the batches, which are all candidates |
| EntityResolution.ResolveGraph | graphrag/entity_resolution.py:89-171 | the same from the nodes of a graph; asked about are exactly, in one order, the similar pairs of different nodes of one type of which one or the other is in the new subgraph; the merged pairs are those whose question some answer says yes to |
| Raptor.TakesUsable | rag/raptor.py:111 | a pair is taken exactly if it has a text and an embedding |
| Raptor.UsableOfBoth | rag/raptor.py:111 | the pairs are taken in their order, one by one |
| Raptor.MembersMean | rag/raptor.py:203 | a cluster lists exactly the chunks of the layer with its label |
| Raptor.LayerIsPartitioned | rag/raptor.py:201-224 | whatever the completion order, the clusters behind a layer's summaries are non-empty, disjoint and cover the layer |
| Raptor.TreeBuilder.Summarize | rag/raptor.py:116-165 | a summary is appended, or the error is counted and aborts at the limit |
| Raptor.TreeBuilder.SummarizeLayer | rag/raptor.py:201-218 | in every completion order, no failure and a full count mean one summary per cluster, each the summary of the very chunks recorded for it |
| Raptor.TreeBuilder.BuildLayer | rag/raptor.py:92-224 | a layer's next layer is strictly smaller, below the cluster limit, and consists of the summaries of clusters that partition it |
| Raptor.TreeBuilder.Build | rag/raptor.py:108-226 | the loop ends; on a normal return the layers tile the chunks and shrink strictly, each is partitioned by the next, the total is at most n + k(k+1)/2, and the top layer is empty if and only if there was no chunk or the summary of a two-chunk layer failed |
| Raptor.EmptyTop | rag/raptor.py:156-183 | two chunks whose summary fails: the call returns normally with layers (0, 2) and (2, 2) |
| Raptor.EveryChunkHasOneParent | rag/raptor.py:185-224 | in a finished tree every chunk below the top went into exactly one summary |
| McpSession.RunIsValid | common/mcp_tool_call_conn.py:115-236 | the queue holds the latest requests in order and every request has the replies its fate allows, after every schedule of callers, worker and close |
| McpSession.AtMostOneReply | common/mcp_tool_call_conn.py:115-151 | no request gets two replies, and replies and cancellations follow the order of acceptance |
| McpSession.ClosedIsDrained | common/mcp_tool_call_conn.py:220-236 | after the drain nothing is queued and every accepted request was answered, cancelled, dropped by a cancelled worker, or is being served |
| McpSession.NothingAcceptedAfterClose | common/mcp_tool_call_conn.py:153-158 | no request is accepted after close has begun, and a finished close stays finished |
| McpSession.FateIsFinal | common/mcp_tool_call_conn.py:128-151 | a reply is never changed and a dropped request is never answered |
| McpSession.WorkerLives | common/mcp_tool_call_conn.py:115-122 | as long as nobody closes the session or cancels the worker, the worker is there, however long it waits |
| McpSession.QueuedIsServed | common/mcp_tool_call_conn.py:115-151 | from every state schedules lead to, with a living worker and no close, turns of the worker alone can answer the first request in the queue, and can fail it |
| McpSession.WorkerLeaves | common/mcp_tool_call_conn.py:116-144 | a worker that is cancelled, or finds the session closing, is gone and has answered nothing |
| McpSession.GoneStaysGone | common/mcp_tool_call_conn.py:121-122 | a worker that is gone answers nothing until it is entered again |
| McpSession.RestartedServes | common/mcp_tool_call_conn.py:91-107 | entered again, it stands at the head of its loop |
| McpSession.Session.Call | common/mcp_tool_call_conn.py:153-158 | a call is accepted exactly when the session is open, is queued last with an empty mailbox, and disturbs nothing else |
| McpSession.Session.WorkerTurn | common/mcp_tool_call_conn.py:115-151 | one turn of the worker is one step of the protocol |
| McpSession.Session.CloseAlone | common/mcp_tool_call_conn.py:220-236 | close cancels exactly the queued requests, in order, leaves every other mailbox and the worker alone, and changes nothing the second time |
| Crypto.UnpadPad | common/crypto_utils.py:79-81 | removing the padding of padded data gives the data |
| Crypto.UnCbcCbc | common/crypto_utils.py:84 | CBC decryption undoes CBC encryption for every invertible block map and IV |
| Crypto.CbcChains | common/crypto_utils.py:161-172 | every block of the text is the cipher of the plain block exclusive-or the block of the text before it, the IV for the first |
| Crypto.PadTells | common/crypto_utils.py:79-81 | padding adds one to sixteen bytes, each telling their number, up to a whole block |
| Crypto.EncryptedIs | common/crypto_utils.py:66-102 | an encrypted text is the header, the IV and the chained blocks; bytes without the header are given back as they are |
| Crypto.WhatIsRefused | common/crypto_utils.py:89-118 | with the header, refused are exactly texts shorter than an IV, of no whole number of blocks, or whose plain text is nobody's padding |
| Crypto.RoundTrip | common/crypto_utils.py:66-118 | decrypting gives the data back, and the length is 4 + 16 + 16(n/16 + 1) |
| Crypto.DecryptedIsEncrypted | common/crypto_utils.py:89-118 | anything with the header that decrypts is the encryption of the result under its own IV |
| MetaFilter.FilterOut | common/metadata_utils.py:45-97 | one filter finds the documents of the matching values, with the filter value rewritten along the way |
| MetaFilter.HitsMean | common/metadata_utils.py:45-97 | a document is found if and only if some value that lists it matches, the filter value being what the readings before have made of it |
| MetaFilter.Run | common/metadata_utils.py:99-113 | the walk with its early return gives what the whole sequence of findings means |
| MetaFilter.AndIsIntersection | common/metadata_utils.py:99-113 | "and" is the intersection over the filters whose key exists |
| MetaFilter.AndIgnoresOrder | common/metadata_utils.py:99-113 | the result of "and" does not depend on the order of keys and filters |
| MetaFilter.OrIsUnionUnlessFirstFails | common/metadata_utils.py:104-112 | "or" is the union if and only if no filter applies, or the first one that applies finds something, or none does |
| MetaFilter.OrDependsOnOrder | common/metadata_utils.py:111-112 | two filters whose order decides the result of "or" |
| MetadataUpdate.DedupeList | common/metadata_utils.py:168-177 | the loop keeps what the specification keeps |
| MetadataUpdate.DedupedKeepsTexts | common/metadata_utils.py:168-177 | every text is kept once, by the first item that has it |
| MetadataUpdate.Metadata.Update | common/metadata_utils.py:180-212 | the dictionary after the in-place update |
| MetadataUpdate.JoinedMeans | common/metadata_utils.py:192-210 | a list takes in the new texts and keeps its own, each once; anything else is replaced; a value without a string changes nothing |
| MetadataUpdate.UpdatedFields | common/metadata_utils.py:192-210 | every key is merged with its own new value and every other key is left alone |
| MetadataUpdate.UpdateTwice | common/metadata_utils.py:180-212 | updating twice with the same dictionary is updating once |
| SheetNames.CandidatesDiffer | agent/component/message.py:379-382 | different counters give different candidates, however much of the name is cut |
| SheetNames.Unique | agent/component/message.py:377-382 | the loop ends, with the first free name, after at most one candidate more than names are used |
| SheetNames.BoundIsReached | agent/component/message.py:377-382 | the bound is reached: when only a full-length name that ends in _1 is used, any result takes two candidates |
| SheetNames.CandidateFits | agent/component/message.py:380-381 | a candidate is within 31 characters if and only if its suffix is |
| SheetNames.NameSheets | agent/component/message.py:374-383 | all names differ, each is its original's first free name, and all fit when the originals do |
| SheetTables.Scan | agent/component/message.py:298-364 | the line scan with its flags finds exactly the blocks of table rows, with their titles |
| SheetTables.BlocksKeepRows | agent/component/message.py:311-344 | no table row is lost, repeated or moved, and no block is empty |
| SheetTables.TitledTable | agent/component/message.py:302-318 | a table is called by the last line before it that begins with "table" or "#" or has a colon, whatever other lines come between |
| SheetTables.CellsAreRow | agent/component/message.py:311-315 | a row has a second bar and a character that is no part of a ruler |
| SheetTables.CleanedOne | agent/component/message.py:335 | slashes become underscores, other marks a sheet name must not have go, and every other character stays |
| SheetTables.CleanedByCharacter | agent/component/message.py:335 | cleaning goes character by character |
| SheetTables.UntitledIsNumbered | agent/component/message.py:338-340 | a table without a title is called Table_n by its number among those that parse |
| SheetTables.TitledIsCalled | agent/component/message.py:330-337 | a titled table is called by what cleaning leaves of its title's first 31 characters; one that does not parse gets no sheet and no number |
| SheetTables.ColonIsCleanedAway | agent/component/message.py:305-338 | a table under the title ":" gets a sheet with the empty name |
| SheetTables.SheetNameIsEmpty | agent/component/message.py:333-338 | a sheet name is empty if and only if the first 31 characters of a non-empty title are all removed |
| SheetTables.Export | agent/component/message.py:285-384 | every table that parses gets a sheet; some final name is empty if and only if some such table's title is removed entirely; for fewer than 10^25 lines all names differ, fit the limit and have no forbidden character |

## Left out

- LLM, embedding, TTS, HTTP, Redis, database and file calls: their replies are parameters chosen freely; the document
  store is a list of records with insert and delete.
- Timestamps, logging, cancellation polling, timeouts and the thread pools, except for the interleavings of the MCP
  session and the completion orders of RAPTOR and entity resolution.
- Message streaming: the deltas of a stream are one message event.
- CanvasObject.Canvas.Run: bounded by a number of batches, since on some canvases the source's loop never ends; the
  theorems are about runs of any length, and `CanvasEnds.RunToEnd` is the loop without a bound where it does end.
- StructuredCanvas.StructuredRunsStop: asks that no batch visits an item twice; `ForkedCanvas.ForksAreOrderly` gives that
  from the wiring, and its converse is not claimed for the reason given above.
- Structured canvases fork only outside containers, as the bodies of loops and iterations are chains of single steps.
- ControlReturns.ControlIsNotLost: for runs with one pending entry in which no component reports an error, picks a route
  that is not there or waits for an input, and nothing asks the user.
- LoopRuns.RunsItsTurns: for runs in which nothing but the container is pending and no component reports an error; forked
  runs are covered by the theorems about all runs.
- Exceptions that leave `Canvas.run` (an `end` that raises, a `_next` output of None) end the run outside the model;
  the errors of `end` are in `LoopConditions`.
- The invocation of UserFillUp components when a run pauses, and history, memory and reference bookkeeping.
- VariableStore.Written: works on values, so two outputs that share one dictionary object are not seen to change
  together; the same holds for a dotted write to an output without a name, whose dictionary shares its values.
- VariableStore.ParsedFormatted: only for names without the marks of the syntax; for other texts `Parsed` is the code's
  own splitting.
- LoopConditions.Same: no NaN and no rounding, numbers are reals; comparisons of other objects are errors.
- Graphs.GraphMerge: weights are reals and always present; lists shared between the two graphs are not modelled.
- Descriptions are joined in merge order and do differ between orders; pagerank is left out.
- GraphIndex.MergeSubgraph: tidying the old graph changes nothing here, since every node and edge of the model has the
  attributes it looks for.
- Subgraphs.RebuildGraph: the document list of the result is not sorted.
- GraphIndex.Agrees: about names only; the order of a pair and the numbers of records are in `IndexRecords`.
- ClusterMerge.ClustersKeepAgreement: the concurrent merges are taken one after the other.
- EntityResolution.GroupByType: types come in the order of their first node, not sorted; nothing depends on it.
- The parsing of the model's answer to candidate questions is a list of question numbers and verdicts; the edit
  distance, digits and English are abstract.
- Raptor.TreeBuilder.Build: UMAP, the mixture model and its BIC are any cluster count and labels in their legal ranges.
- Crypto.Encrypt: the block cipher is any invertible map of 16-byte blocks; key derivation and the random IV are left out.
- MetaFilter.FilterOut: comparing one value with one filter is an abstract function.
- SheetTables.Scan: lines are stripped already, stripping a title and parsing a table are abstract functions; sheet
  names that differ only in case are different here.
- PDF and DOCX output, text cleaning, the server, the admin tools and the web client.
