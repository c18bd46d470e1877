# The inlined query compiler, verified

The engine compiles a query plan into one function of basic blocks. A visitor walks the plan (scan,
foreach relationship, expand, filter, project, limit, sort, cross and left outer join, collect, end)
and threads mutable compile-time state: the open block `prev_bb`, the backflow block `main_return`,
the register layout of the current tuple, the queue of join ids and a counter of argument slots. At run
time all operators of an access path share a handful of stack cells, nested loops rewrite each other's
bounds, a Limit jumps out of every loop at once, and the second input of a join is a further access path
that is put in front of the function's entry block.

This project defines the meaning of plans twice and proves that the two agree.

* `Storage`, `Plan`, `Algebra`: graphs, plans, and the reference meaning: every operator maps a finite
  stream of tuples to a stream of tuples (`Denote`, `Eval`). No block, register, cell or loop occurs in it.
* `Ir`, `Runtime`, `Machine`: blocks, the extern functions with their thread-local state, and a small-step
  machine. Reading a register or cell that was never written, a value of another kind, or a block without
  a terminator makes it stuck.
* `Codegen`: the compiler on values, visit by visit; `Visitor`: the same in place, a class with the
  visitor's fields whose methods build the blocks instruction by instruction.
* `Shape`, `Simulation`, one `...Proof` module for each operator, `Invariance`, `Kinds`, `Correctness`: the
  proof that the emitted blocks carry out the plan. The invariant of the traversal is: from the open block,
  with the registers holding a tuple, control comes back to `main_return` (or leaves for the end of the
  access path, or raises), the tuples sunk are those that pushing this one through the remaining operators
  emits, registers of outer operators are as before, and only cells that the remaining operators may
  overwrite have changed.
* `TupleAtATime`: pushing tuples one by one is what the operators do to whole streams, with one Limit; and
  what two Limits with their one counter do instead. What goes from tuple to tuple is the count of the Limits,
  the list that variable-hop traversals share, and the rows of the join's input.
* `Runs`: whole queries driven tuple by tuple, from any list and any join inputs that earlier queries have
  left; and when such a run makes what the plan means.
* `Admitted`: what the assumptions of the main theorem admit, with the numbers written out.
* `ProjectionKeys`: which keys the projections find, over all access paths.
* `TwoJoins`: what two cross joins in a row do instead of what they mean.
* `Deviations`: where else the emitted function answers something else, and exactly when.
* `WellFormed`, `JoinQueue`, `ArgSlots`, `LeftOuterMeaning`: the control-flow graph, the queue of join ids,
  the argument slots, and what the rows of a left outer join are.
* `QueryArgs`, `Restrictions`: exactly which plans get their arguments from the array the engine fills
  itself, and exactly which projections the emitted calls serve.
* `FilterStack`, `QrList`: the operand lookup of AND/OR filters, and the doubly linked result list.

Storage, dictionary and index are total functions over a graph that does not change during a query; the
scan's range iterator walks a given sequence of nodes; the finish function (identity or sort) is a
parameter.

`Correctness.CompilerRuns` describes the emitted function from every state in which a query may start
(`Correctness.Startable`): relationship and property chains are finite and their ids lie below 2^63 - 1 (the
bound a relationship loop stores, while the chain ends in 2^64 - 1); the plan is well typed (`Plan.Typed`);
join inputs have fewer than 2^31 rows, of the kinds that are read, since their size is passed as a 32-bit
int; the argument array of at most 64 entries holds what the operators expect from slot 1 on; the row
buffers are empty. Any number of Limits, any list and any rows in the join inputs are allowed.
`Correctness.CompilerCorrect` says when that is the plan's meaning: nothing is left over from earlier queries
(`Fresh`), there is one Limit in each pipeline, and no reached Limit leaves a variable-hop traversal half-way
that a later pipeline has as well (`Runs.Settled`). `Correctness.StartableHolds` shows that the assumptions can
be met.

## Model

| member | source | states |
|---|---|---|
| Correctness.CompilerRuns | codegen_inline.cpp:75-954 | whatever Limits a query has, and whatever earlier queries have left in the list of variable-hop traversals and in the join inputs, the function halts, having appended the rows of the run tuple by tuple; what it leaves in the list and in the inputs is that run's |
| Correctness.CompilerCorrect | codegen_inline.cpp:75-954 | for every well-typed plan with one Limit in each pipeline that leaves no later traversal half-way, every graph and start state with nothing left over, the emitted function halts, having appended exactly the rows of the plan's meaning, in order and multiplicity; it ends in an exception iff a projection on the way fails, and otherwise has called the finish function once |
| Correctness.EveryRun | codegen_inline.cpp:75-954 | over every number of steps: the function is never stuck, so no register or cell is read before it is written and every typed read meets its kind; where it has stopped, under the conditions of the main theorem, it has this answer |
| Correctness.RunAgainIff | joiner.cpp:8-15 | nothing is left over from a query iff none of its pipelines reaches a Limit below a variable-hop traversal and its join inputs are empty |
| Admitted.GraphOkIff | codegen_inline.cpp:290-360 | a graph is admitted iff every list of relationships and every chain of property sets has ids below 2^63 - 1 and comes to 2^64 - 1, and every property set has three items |
| Admitted.ForeachReaches | codegen_inline.cpp:290-360 | and every such list is walked to its end: a single-hop traversal means its relationships with the label |
| Admitted.SettledIff | codegen_inline.cpp:313-335 | a query is settled iff of any two of its pipelines, the one that runs first does not stop half-way if the other has a variable-hop traversal |
| Admitted.OneOfEachIff | codegen_inline.cpp:880-912 | one Limit, one variable-hop traversal and one join mean that no two operators down the pipeline are such |
| Admitted.SmallInputsIff | global_definitions.cpp:309-311 | join inputs of up to 2^31 - 1 rows are admitted |
| Admitted.EveryOperator | codegen_inline.cpp:75-954 | a query with every operator in every form in both pipelines, and every kind of projection, is well typed, whatever its directions, labels, keys, limits and hops |
| Admitted.NewIsFresh | joiner.cpp:8-15 | when nothing has run nothing is left over, for every query |
| Runs.RunsMean | codegen_inline.cpp:313-335 | a run from an empty list and empty inputs makes what the plan means, and leaves something in the list iff one of its pipelines reaches a Limit below a variable-hop traversal |
| Runs.RunningKinds | codegen_inline.cpp:613-631 | whatever a join input finds in the list and in its own inputs, its tuples have the kinds of its type vector and it does not raise |
| Deviations.LeftoverEmitted | global_definitions.cpp:350-368 | if a plan's traversal comes first and its tuples are paired with an input, the rows the emitted function appends are the plan's iff no pipeline of the input reaches a Limit below a traversal, or the scan or the input is empty |
| Deviations.OneIsWrong | codegen_inline.cpp:880-912 | a failing input: a node's two relationships paired with at most n of them; the emitted function is right for every limit but one |
| Deviations.SecondRunEmitted | joiner.cpp:8-15 | a query that pairs its scan with an input, run twice: the second run pairs with the rows of both, and appends the plan's rows iff there are no pairs |
| TwoJoins.TwiceSimulates | codegen_inline.cpp:660-699 | two cross joins in a row share their index cells: the blocks pair a tuple with the first row of the outer one's list and each row of the inner one's, then both loops end |
| TwoJoins.TwoJoinsRun | codegen_inline.cpp:636-851 | and each join reads what the other's input has made, behind what the list held: the rows a query of a scan and two cross joins appends, from any list and any rows in the join inputs |
| TwoJoins.TwoJoinsEmitted | codegen_inline.cpp:636-851 | from a state with nothing left over these are the plan's rows iff the scan or an input is empty, or the inner join's input has one row and exchanging the columns of the inputs changes nothing |
| Deviations.TwoByTwoIsWrong | codegen_inline.cpp:636-851 | a failing input: two inputs with two rows each |
| Correctness.PipelineSimulates | codegen_inline.cpp:244-954 | the blocks emitted for the rest of any pipeline carry out its operators on any tuple |
| Correctness.RunPlan | codegen_inline.cpp:122-135 | join chains of any depth: prepended entry blocks run the innermost second input first and to its end, and each plan's own access path only then, from whatever list and inputs there are |
| Correctness.AtJoin | qoperator.cpp:122-142 | a join compiles its own pipeline first and its second input last, in front of the same entry block and with the queue as the pipeline's end has left it |
| Correctness.InputReady | qoperator.cpp:122-142 | when the second input is compiled its join's id is alone in the queue, its arguments start at the counter, and it will lead to the plan's own entry block |
| Correctness.InputComplete | joiner.cpp:11-15 | when a plan's own access path starts, the rows of its second input stand behind those that were there, all of the right kinds, and nothing else is disturbed |
| Correctness.ArgsAtJoin | qoperator.cpp:122-142 | the second input finds its arguments from the counter value with which it is compiled |
| TupleAtATime.PushRefinesDenote | codegen_inline.cpp:880-912 | nested loops with an early exit emit what the operators make of whole streams; a Limit is take over all enclosing loops, and is reached iff more tuples arrive than it lets through |
| TupleAtATime.LeftBehind | global_definitions.cpp:350-368 | pushing a stream leaves something in the list iff a Limit below the variable-hop traversal is reached |
| TupleAtATime.FuseLimit | codegen_inline.cpp:880-912 | with k tuples let through, exactly the next n - k reach the operators below, whatever loop they come from |
| TupleAtATime.TwoLimitsRun | codegen_inline.cpp:880-912 | two Limits in a row on any stream: the shared counter goes up by two, wraps at 2^64, and stops the query after half the first limit if that is even and met first, after half the second if that is odd, or never |
| TupleAtATime.TwoLimitsIff | codegen_inline.cpp:880-912 | for all limits and streams, what comes out is what the operators mean iff the counter stops the query after the smaller limit, or the stream is too short for either to matter |
| TupleAtATime.TwoLimitsDiffer | codegen_inline.cpp:880-912 | a failing input: with one tuple and limits of one nothing comes out |
| Deviations.TwoLimitsEmitted | codegen_inline.cpp:880-912 | the same of the emitted function, for every scan and start state: the rows it appends, and exactly when they are the plan's |
| ForeachProof.ForeachSimulates | codegen_inline.cpp:337-383 | a single-hop traversal passes on exactly the relationships of its own node's chain that carry the label |
| ForeachProof.Loop | codegen_inline.cpp:337-383 | the loop advances from its own register, so whatever inner loops leave in the shared cell, each relationship is visited once, in order |
| VariableProof.VariableSimulates | codegen_inline.cpp:313-335 | whatever the shared list holds, an activation of a variable-hop traversal yields that first and then the relationships gathered for its own node; it leaves the list empty, or as gathered if it is left half-way |
| ExpandProof.ExpandSimulates | codegen_inline.cpp:452-531 | an expand adds the end or start node, and drops the tuple iff it is missing or has another label |
| FilterProof.FilterSimulates | codegen_inline.cpp:536-575 | a filter passes a tuple iff the first item with the key in the node's property chain holds the argument |
| FilterProof.SearchOneSet | filter_expression_inline.cpp:109-134 | the inner loop stops at the first of the three items with the key |
| FilterProof.SearchChain | filter_expression_inline.cpp:75-148 | the two nested loops are linear search in the flattened chain, and reject iff no item has the key |
| Storage.LinkedUnique | codegen_inline.cpp:337-360 | the chain a loop follows is determined by where it starts |
| Storage.FirstItemIsFirst | filter_expression_inline.cpp:75-153 | linear search yields an item with the key, none before it having the key, and nothing iff there is none |
| LimitProof.LimitSimulates | codegen_inline.cpp:880-912 | with any number of Limits, a tuple is counted and passed on, or control leaves for the end of the access path and no tuple is lost or repeated |
| LimitProof.SortSimulates | codegen_inline.cpp:857-875 | a sort adds nothing to the pipeline; it acts as the finish function |
| ProjectProof.ProjectSimulates | codegen_inline.cpp:389-447 | each projected cell stands for the real property when the row is collected, in projection order; a missing property or one of another type raises |
| SinkProof.SinkSimulates | codegen_inline.cpp:580-610 | collect appends the row of the tuple, End the tuple to the input of the join the pipeline feeds, and the row buffers are empty again |
| JoinProof.CrossSimulates | codegen_inline.cpp:636-851 | a cross join passes on the tuple paired with every tuple of its input |
| JoinProof.CrossLoop | codegen_inline.cpp:681-697 | in order, each once, while the operators below use any cell but the join's |
| JoinProof.RunConcat | codegen_inline.cpp:814-827 | the typed reads put the materialized tuple into consecutive registers |
| LeftOuterProof.LeftOuterSimulates | codegen_inline.cpp:701-850 | a left outer join passes on the rows of the reference definition for every tuple |
| LeftOuterProof.EdgeLoop | codegen_inline.cpp:725-760 | the inner loop passes on one row for each relationship of the left node that ends at the right node, and clears the flag iff there is one |
| LeftOuterProof.FinishTuple | codegen_inline.cpp:803-812 | a materialized tuple before the first match is passed on once more with its flag set |
| LeftOuterMeaning.LeftOuterByFlag | codegen_inline.cpp:668-670 | rows with flag 0 are exactly the matching (position, relationship) pairs in order, rows with flag 1 exactly the positions before the first match |
| LeftOuterMeaning.TextbookIff | codegen_inline.cpp:701-850 | the code is the textbook's join of a tuple (its matches, or else exactly one flagged row) iff the right input is not empty and its first tuple is a match or there is no other |
| LeftOuterMeaning.NoPartnerRepeats | codegen_inline.cpp:803-812 | a failing input: without relationships there is a flagged row for each materialized tuple |
| LeftOuterMeaning.LatePartnerDangles | codegen_inline.cpp:803-812 | a failing input: a match that comes second leaves a flagged row as well |
| ScanProof.AccessPath | codegen_inline.cpp:160-224 | an access path pushes its tuples through the pipeline in order and ends at its end block, also when a Limit leaves early |
| ScanProof.Sweep | p_context.cpp:415-466 | the iterator loop hands every element to any body that comes back, exactly once and in order |
| ScanProof.RunExit | codegen_inline.cpp:225-234 | from its end an access path goes to what was the function's entry, the last one to the finish function |
| Simulation.RunWhile | p_context.cpp:333-412 | the loop head enters the body exactly while its unsigned comparison holds |
| Simulation.Below | codegen_inline.cpp:363-383 | the operators below an operator come back with its tuple, registers and private cells intact, or leave for good |
| Invariance.ReadyAfter | codegen_inline.cpp:215-238 | every visit hands the next operator a state it is ready for |
| Invariance.AddedTypes | codegen_inline.cpp:363-367 | the register layout has the types the operators add |
| Invariance.LayoutAfter | codegen_inline.cpp:389-447 | no operator still to come overwrites a cell of the current layout |
| Kinds.PlanKinds | codegen_inline.cpp:613-631 | position by position, the tuples of a join input have the kinds of its type vector, for joins nested to any depth; and no join input raises |
| Kinds.PushKinds | codegen_inline.cpp:613-631 | the same tuple by tuple, whatever the Limits and the list |
| Invariance.VectorFitsIff | codegen_inline.cpp:613-631 | the type vector lists exactly the registers that End materializes, position by position, iff the pipeline has no left outer join |
| Plan.GetRhsType | codegen_inline.cpp:613-631 | the walk yields the type vector of the second input, in front of which the caller's entries stay |
| Plan.RestArgsTotal | qoperator.cpp:37-142 | a pipeline's arguments take up as many slots as its operators are wide |
| WellFormed.VisitGraph | codegen_inline.cpp:363-383 | after every visit, of any plan, all branches go to blocks of the function that have terminators or to the open block |
| WellFormed.OnlyOneOpen | codegen_inline.cpp:518-574 | inside a pipeline, on any walk from the entry only the open block has no terminator |
| WellFormed.AllClosedAtEnd | codegen_inline.cpp:215-238 | for every plan tree, on any walk from the entry every block exists and has a terminator |
| WellFormed.ControlStays | codegen_inline.cpp:215-238 | at run time, for every plan tree, from every state and over every number of steps, control is in a block of the function that has a terminator |
| WellFormed.ScanGraph | codegen_inline.cpp:122-135 | putting an access path in front of a finished function keeps its graph well formed |
| JoinQueue.PairedIffSingle | codegen_inline.cpp:674-679 | first in, first out pairs every End with the join that consumes its pipeline iff no pipeline has two joins |
| JoinQueue.QueryPaired | codegen_inline.cpp:947-953 | the same for whole queries, from the empty queue |
| Admitted.TypedEnds | codegen_inline.cpp:947-953 | every well-typed plan is one of which the pairing is characterized, and is paired |
| JoinQueue.Mismatch | codegen_inline.cpp:947-953 | with another join's id in front, the last join of a pipeline does not get its own input |
| ArgSlots.SlotsApart | qoperator.cpp:37-142 | for every plan the slot ranges of any two operators are disjoint across both sides of joins, and all fit the 64-entry array iff the widths add up to at most 63 |
| ArgSlots.TreesApartIff | qoperator.cpp:37-389 | for every tree of operators, create operators and their two slots among them, no two share a slot iff an operator without an input takes no slot or none numbered after it does |
| ArgSlots.PlanIsTree | qoperator.cpp:37-377 | plans are numbered as such trees, and all their pipelines end in operators without slots |
| ArgSlots.CreateOverlaps | qoperator.cpp:381-389 | a failing input: with a create at the end of a join's own pipeline, the second input is numbered from the same slot |
| ArgSlots.PlanCounter | qoperator.cpp:37-142 | one pass over a plan advances the counter by its total width |
| QueryArgs.QueryEngine.ExtractArgs | query_engine.cpp:98-304 | the walk lays the labels of scans and traversals over the array from the counter on, in slot order and for joins of any depth, and finds a sort in whatever pipeline it stands |
| QueryArgs.QueryEngine.ExtractArg | query_engine.cpp:98-137 | one label for a scan or a traversal, also an empty one; nothing for any other operator |
| QueryArgs.SortsIff | query_engine.cpp:283-304 | there is a sort to find iff one is among the operators of the pipeline, or in a second input of one of its joins |
| QueryArgs.FirstArgs | query_engine.cpp:98-304 | the array of a new engine's first query, with 64 entries |
| QueryArgs.EngineArgsIff | query_engine.cpp:98-304 | that array holds what the operators expect from slot 1 on iff there are at most 63 slots and, from the first slot the walk skips, all that is read is the empty label |
| QueryArgs.ServedIff | query_engine.cpp:98-304 | if no operator reads the empty label: iff the plan scans a label, has at most 63 slots, and no filter, no join and no traversal by label behind a Limit or sort |
| QueryArgs.SecondScanMissing | query_engine.cpp:287-303 | a failing input: all pairs of two labels; the second scan's slot stays empty |
| ProjectionKeys.QueryKeys | codegen_inline.cpp:48-57 | after a whole query the keys are those of all projections of all its access paths, position by position in the order in which they are compiled |
| ProjectionKeys.EarlierKeysStay | codegen_inline.cpp:48-57 | at every access path the keys of the earlier ones are a prefix, and its own follow |
| ProjectionKeys.PipelineOrder | codegen_inline.hpp:276-289 | down a pipeline the keys of an earlier projection come before those of a later one |
| Restrictions.LayoutTypes | codegen_inline.cpp:389-433 | behind a projection each value has the number of its type and two more in a cell of its own, and a forwarded one is as it was |
| Restrictions.CellsFitIff | codegen_inline.cpp:401-438 | all calls write to one of the 12 cells iff the expressions from the twelfth on are forwarded values |
| Visitor.CodegenInlineVisitor.VisitScan | codegen_inline.cpp:75-239 | the visit in place: fields, blocks and front of the function are those of the compiler on values |
| Visitor.CodegenInlineVisitor.InitFunction | codegen_inline.cpp:11-70 | every access path has cells of its own and an empty layout, and finds all keys so far in front of those of its own projections |
| Visitor.CodegenInlineVisitor.QueryLength | codegen_inline.hpp:276-289 | the keys of every projection down the pipeline are appended in order; the count is that of all operators with an input, filters and projections too, since the test on their kind always holds |
| Visitor.CodegenInlineVisitor.GetProjectionKeys | codegen_inline.hpp:246-271 | the keys of the expressions are appended in order |
| Visitor.CodegenInlineVisitor.VisitForeach | codegen_inline.cpp:244-384 | as VisitScan, for both forms of the traversal |
| Visitor.CodegenInlineVisitor.VisitExpand | codegen_inline.cpp:452-531 | as VisitScan |
| Visitor.CodegenInlineVisitor.VisitFilter | codegen_inline.cpp:536-575 | as VisitScan |
| Visitor.CodegenInlineVisitor.VisitProject | codegen_inline.cpp:389-447 | as VisitScan; the register layout is replaced |
| Visitor.CodegenInlineVisitor.VisitLimit | codegen_inline.cpp:880-912 | as VisitScan |
| Visitor.CodegenInlineVisitor.VisitJoin | codegen_inline.cpp:636-851 | as VisitScan; the join's id is pushed |
| Visitor.CodegenInlineVisitor.VisitCollect | codegen_inline.cpp:580-610 | as VisitScan |
| Visitor.CodegenInlineVisitor.VisitEnd | codegen_inline.cpp:917-954 | as VisitScan; the front join id is popped |
| Visitor.CodegenInlineVisitor.CodegenRest | qoperator.cpp:122-142 | the traversal in place compiles what the compiler on values compiles, and hands out the slots of `ArgSlots` |
| Visitor.CodegenInlineVisitor.CodegenPlan | qoperator.cpp:37-47 | the same from an access path on |
| Visitor.Compiled | query_engine.cpp:258-271 | compiling a query yields the function the main theorem is about |
| Visitor.EmitSearch | filter_expression_inline.cpp:45-153 | the nested search emitted instruction by instruction is the table the search proof uses |
| Visitor.EmitLeftOuter | codegen_inline.cpp:701-827 | the inner loop of a left outer join, instruction by instruction |
| Visitor.EmitJoinLoop | codegen_inline.cpp:660-699 | the loop over the materialized tuples, instruction by instruction |
| Visitor.EmitProject | codegen_inline.cpp:403-443 | one call and one register value for each expression |
| FilterStack.FepVisitor.Accept | filter_expression.cpp:96-127 | the traversal stays on its stack and gives every operator its own operands iff no right operand is itself an AND or OR |
| FilterStack.FepVisitor.Offset | filter_expression.cpp:314-330 | the walk leaves the stack iff the right operand is an AND or OR, and otherwise counts nothing |
| FilterStack.FepVisitor.VisitEq | filter_expression.cpp:267-312 | a comparison takes the entries at indices 1 and 2 |
| FilterStack.FepVisitor.VisitBool | filter_expression.cpp:314-351 | AND and OR take the entries at index 1 and at 2^(2+offset) |
| FilterStack.OperandsOnStack | filter_expression.cpp:314-338 | the stack is the reversed postorder of what was visited, with the right operand on top and the left one behind all of it |
| FilterStack.ThreeIffComparison | filter_expression.cpp:323-330 | the left operand is at index four exactly when the right one is a comparison |
| FilterStack.FilterDecides | filter_expression.cpp:267-376 | the final branch passes iff every property is there and the expression holds: a comparison if the property with the key's name, of the object in its register, is the number |
| FilterStack.MissingRejects | filter_expression.cpp:186-187 | a single search that finds nothing rejects, even under an OR whose other side holds |
| FilterStack.ChainsCompile | filter_expression.cpp:96-127 | every chain of comparisons joined by AND and OR is compiled |
| FilterStack.CompileFilter | filter_expression.cpp:96-376 | both together, for every filter and everything the searches may find |
| QrList.List.AddFront | p_context.cpp:658-709 | front insertion keeps distinct nodes linked both ways, null at both ends, and the size; the contents grow at the front |
| QrList.List.GetFront | p_context.cpp:711-742 | the first node, or null |
| QrList.List.GetBack | p_context.cpp:744-775 | the last node, or null |
| QrList.List.PopBack | p_context.cpp:777-835 | the last node is unlinked and returned |
| QrList.List.PopFront | p_context.cpp:837-895 | the first node is unlinked and returned |
| QrList.List.At | p_context.cpp:979-1012 | the node at a position, or null beyond the end |
| QrList.Perform | p_context.cpp:658-895 | after any series of operations the list is linked properly and holds what they make of its sequence |
| QrList.QueueOrder | p_context.cpp:658-709 | elements added at the front stand in reverse order before the old ones |
| Runtime.ThreadLocals.ApplyPexprNode | global_definitions.cpp:110-146 | cache, tables, counter and cell change as the projection on values says |
| Runtime.ThreadLocals.ApplyPexprRship | global_definitions.cpp:148-178 | the same for relationships, which have no 64-bit case |
| Runtime.ThreadLocals.MatRegValue | global_definitions.cpp:237-249 | a convertible value is appended to the row buffer |
| Runtime.ThreadLocals.CollectTupleRow | global_definitions.cpp:252-275 | the row goes to the result set and the buffer is emptied |
| Runtime.ThreadLocals.MaterializeRhs | joiner.cpp:11-15 | the tuple goes to the join's input and the buffer is emptied |
| Runtime.ThreadLocals.ForeachFromVariableRship | global_definitions.cpp:350-355 | the gathered relationships are appended and the cursor goes to the front |
| Runtime.ThreadLocals.FevListEnd | global_definitions.cpp:363-368 | at the end the list is cleared |
| Runtime.ThreadLocals.Activation | global_definitions.cpp:350-368 | a whole activation yields what was left in the list and then what was gathered for this node, and leaves the list empty |

## Left out

Restrictions of the main theorem. At these the code stops meaning what the plan says:

- Correctness.CompilerCorrect: no reached Limit below a variable-hop traversal in a pipeline before another one with such a traversal (`Runs.Settled`), because the list is left half-way and the later one yields what is left first. What comes out then is in `Correctness.CompilerRuns`; where the later traversal comes first in its plan and its tuples are paired, `Deviations.LeftoverEmitted` says exactly when that is wrong.
- Correctness.CompilerCorrect: nothing left over from queries before, because lists and inputs are never cleared. `Correctness.RunAgainIff` has the exact condition for one query, `Correctness.CompilerRuns` what a further run does, `Deviations.SecondRunEmitted` when that is wrong.
- Correctness.CompilerCorrect: at most one join per pipeline, because the queue of join ids hands each join another's input (`JoinQueue.PairedIffSingle`), and joins share their index cells. `TwoJoins.TwoJoinsEmitted` has the exact condition for two cross joins in a row.
- Correctness.CompilerCorrect: no left outer join inside a join input, because the flag is missing from the type vector (`Invariance.VectorFitsIff`).
- Correctness.CompilerCorrect: no DOUBLE projection and no 64-bit projection of relationships (`Restrictions.SilentIff`, `Restrictions.ConvertsIff`), and from the twelfth expression of a projection on only forwarded values (`Restrictions.CellsFitIff`, `Restrictions.TwelveTooMany`).

These are limits of scope; the code may or may not mean what such a plan says:

- TwoJoins.TwoJoinsEmitted: two cross joins with nothing between or behind them, whose inputs have no joins of their own and rows of the same kinds; what other pipelines with several joins do is not stated, beyond the pairing of ids (`JoinQueue.PairedIffSingle`).
- Correctness.CompilerCorrect: at most one Limit per pipeline, because Limits share one counter. `Correctness.CompilerRuns` says what comes out of any number of them; when that is the plan's meaning is stated for two with nothing between them (`TupleAtATime.TwoLimitsIff`, `Deviations.TwoLimitsEmitted`). A limit is the 64-bit word it becomes, so a negative one never stops.
- Correctness.CompilerCorrect: at most one projection, and only in the outer pipeline. A second one asks for the keys of the first (`Restrictions.SecondKeysIff`, `Restrictions.SecondAsksFirst`) and writes the same cells.
- Correctness.CompilerCorrect: at most one variable-hop traversal per pipeline. A second one starts with the list of the first, which it yields again and clears, and the end test of the first then reads behind the end.
- Correctness.CompilerCorrect: a sort is the finish function of the whole query wherever it stands (`QueryArgs.QueryEngine.ExtractArgs`), and so is not part of a plan's meaning; the finish function is a parameter.
- ArgSlots.PlanCounter: no create operators, which the plans of this model do not have; their numbering is in `ArgSlots.TreesApartIff`.
- QueryArgs.EngineArgsIff: the first query of an engine. The counter is never set back, so a later query's labels come behind those of the first (`QueryArgs.QueryEngine.ExtractArgs` has the array).
- FilterProof.FilterSimulates: one comparison EQ(Key, Int) on a node; AND and OR cannot be followed through the inlined visitor, because it reads values that EQ does not write there.
- FilterStack.FilterDecides: takes what each search found as given, because the older visitor keeps one chain cell for all keys of a filter.

Not modelled.

- Create node and create relationship, beyond their argument slots; nested-loop and hash joins (empty in the code); the older push-based generator and the interpreter.
- 32-bit overflow of the handle counter, and stack growth from the cells a left outer join allocates inside its loop.
- The 64-bit wrap of the result list's size, and `qr_list_add_end`, `qr_list_append`, `qr_list_concat`, which are stubs.
- Threads, mutexes, partial ranges of the scan, transactions, printing, timing, the optimizer and the code cache.
- The printed form of filter expressions; the names and type vectors that projections collect beside their keys, which no emitted code reads.

Where code and comments disagree the code is followed:

- A filter compares with the argument in its slot, not with the number in the expression (filter_expression_inline.cpp:29-40).
- A variable-hop traversal ignores its direction and always gathers outgoing relationships (global_definitions.cpp:350-355).
- The header promises a single access path; every join adds one (codegen_inline.hpp:6-12).
- A missing property rejects a tuple even under an OR whose other side holds (filter_expression.cpp:186-187).
- A left outer join gives a dangling row for every materialized tuple before the first match, and none at all on an empty input (codegen_inline.cpp:681-812).
- A lookup through an index that finds nothing returns a pointer that was never set; the model has the null pointer that the emitted test expects (global_definitions.cpp:313-323).
- The walk over the operators is to extract the arguments of a query; it leaves out those of filters, of index lookups and of scans in second inputs (query_engine.cpp:98-137).
- The inputs of joins are kept from query to query and join ids start at 0 in each, so a second run appends to the inputs of the first (joiner.cpp:8-15).
- When the list of a variable-hop traversal is cleared, its iterator stays where the end was; the model keeps the position, and a read behind the end of the list is stuck (global_definitions.cpp:357-368).
